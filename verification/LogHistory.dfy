/** The history behind a log: what every run of publications leaves, read back from the stored events. */
module LogHistory {
  import opened Common
  import opened States
  import opened Timeline
  import opened EventLog
  import opened LogRuns

  /** The observations a run of batches amounts to: each accepted batch replaces the history from its
      start on. */
  ghost function History(bs: seq<Batch>): (h: seq<Observation>) {
    if bs == [] then []
    else
      var init, b := bs[..|bs| - 1], bs[|bs| - 1];
      var s := Run(FRESH_STREAM, init);
      if Refused(s, b) then History(init)
      else if b.start.None? then Sort(b.obs)
      else ObsBefore(History(init), b.start.value) + Sort(b.obs)
  }

  ghost predicate Refused(s: Stream, b: Batch) {
    (s.stateThrough.Some? && b.through < s.stateThrough.value)
    || Publish(s.log, b.obs, b.start, b.through, b.revision).StaleTarget?
  }

  lemma {:induction false} CutIsStrict(history: seq<Observation>, start: Date)
    requires StrictlySorted(history)
    ensures StrictlySorted(ObsBefore(history, start))
    ensures forall o :: o in ObsBefore(history, start) ==> o.day < start
  {
    StrictIsSorted(history);
    ObsBeforeIsPrefix(history, start);
    hide ObsBefore;
  }

  lemma {:induction false} RewriteIsStrict(history: seq<Observation>, b: Batch)
    requires StrictlySorted(history) && Proper(b) && b.start.Some?
    ensures StrictlySorted(ObsBefore(history, b.start.value) + Sort(b.obs))
  {
    hide ObsBefore, Sort, StrictlySorted;
    CutIsStrict(history, b.start.value);
    SortStrictly(b.obs);
    forall o | o in Sort(b.obs) ensures b.start.value <= o.day {
      SortMembers(b.obs, o);
    }
    StrictJoin(ObsBefore(history, b.start.value), Sort(b.obs), b.start.value);
  }

  lemma {:induction false} StepRepresents(s: Stream, history: seq<Observation>, b: Batch)
    requires Represents(s.log, history) && StrictlySorted(history) && Proper(b) && !Refused(s, b)
    ensures var h := if b.start.None? then Sort(b.obs) else ObsBefore(history, b.start.value) + Sort(b.obs);
            Represents(Materialize(s, b).log, h) && StrictlySorted(h)
  {
    hide Publish, ObsBefore, Sort, StrictlySorted, Represents;
    RepresentsWell(s.log, history);
    if b.start.None? {
      FullRebuild(s.log, b.obs, b.through, b.revision);
      SortStrictly(b.obs);
    } else {
      SuffixRewrite(s.log, history, b.obs, b.start.value, b.through, b.revision);
      RewriteIsStrict(history, b);
    }
  }

  /** Every run of proper batches leaves a log that represents the run's history. */
  lemma {:induction false} RunRepresents(bs: seq<Batch>)
    requires forall b :: b in bs ==> Proper(b)
    ensures Represents(Run(FRESH_STREAM, bs).log, History(bs)) && StrictlySorted(History(bs))
  {
    if bs != [] {
      var init, b := bs[..|bs| - 1], bs[|bs| - 1];
      assert b in bs;
      RunRepresents(init);
      hide Represents, StrictlySorted, Proper, Publish;
      if !Refused(Run(FRESH_STREAM, init), b) {
        StepRepresents(Run(FRESH_STREAM, init), History(init), b);
      }
    }
  }

  /** The valid events of a target in every reachable log are a run-length encoding. */
  lemma {:induction false} LogIsRunLength(bs: seq<Batch>, t: Target)
    requires forall b :: b in bs ==> Proper(b)
    ensures RunLength(ChangesOf(ValidChanges(Run(FRESH_STREAM, bs).log.events), t))
  {
    RunRepresents(bs);
    hide Run, History, StrictlySorted, RunLength, ChangesOf, FoldChanges, ValidChanges;
    TimelineIsRunLength(History(bs), t);
  }

  /** It has one valid event per maximal run of equal statuses in the history. */
  lemma {:induction false} LogIsMinimal(bs: seq<Batch>, t: Target)
    requires forall b :: b in bs ==> Proper(b)
    ensures |ChangesOf(ValidChanges(Run(FRESH_STREAM, bs).log.events), t)| == Runs(StatusesOf(History(bs), t))
  {
    RunRepresents(bs);
    hide Run, History, StrictlySorted, Runs, StatusesOf, ChangesOf, FoldChanges, ValidChanges;
    TimelineIsMinimal(History(bs), t);
  }

  /** The anchor query at any observed day of the history returns that day's status. */
  lemma {:induction false} LogDecodes(bs: seq<Batch>, o: Observation)
    requires (forall b :: b in bs ==> Proper(b)) && o in History(bs)
    ensures var r := RankOne(Run(FRESH_STREAM, bs).log.events, o.target, o.day);
            r.Some? && r.value.change.fact.status == o.status
  {
    hide *;
    RunRepresents(bs);
    Decodes(Run(FRESH_STREAM, bs).log, History(bs), o);
  }

  lemma {:induction false} Decodes(log: Log, history: seq<Observation>, o: Observation)
    requires Represents(log, history) && StrictlySorted(history) && o in history
    ensures var r := RankOne(log.events, o.target, o.day); r.Some? && r.value.change.fact.status == o.status
  {
    hide StrictlySorted, FoldChanges, ValidChanges, RankOne, LastChange, ChangesBefore, Through, InOrder,
         NumbersIncrease,
         Sorted;
    var k :| 0 <= k < |history| && history[k] == o;
    TimelineDecodes(history, k);
    RankOneIsLast(log.events, log.sequence, o.target, o.day);
  }
}
