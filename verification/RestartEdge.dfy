/** When a restart's seeds do not suffice: what the published timeline then shows. */
module RestartEdge {
  import opened Common
  import opened States
  import opened Timeline
  import opened Calendar
  import opened EventLog
  import opened Recognition
  import opened Restart
  import opened Rebuild
  import opened Publication
  import opened PublicationTimeline
  import opened Snapshots
  import opened Subjects
  import opened KnownTargets

  // ---------------------------------------------------------------------------------------
  // Rows that leave a change

  lemma {:induction false} OthersKeepFact(facts: Facts, obs: seq<Observation>, t: Target)
    requires forall i :: 0 <= i < |obs| ==> obs[i].target != t
    ensures Get(FoldFacts(facts, obs), t) == Get(facts, t)
  {
    if obs != [] {
      OthersKeepFact(facts, obs[..|obs| - 1], t);
      hide FactAfter;
    }
  }

  /** The fact of a row's target before the row is the fact before its day. */
  lemma {:induction false} FactBeforeDay(obs: seq<Observation>, k: nat)
    requires StrictlySorted(obs) && k < |obs|
    ensures Get(FoldFacts(map[], obs[..k]), obs[k].target)
         == Get(FoldFacts(map[], ObsBefore(obs, obs[k].day)), obs[k].target)
  {
    var head := ObsBefore(obs, obs[k].day);
    StrictIsSorted(obs);
    ObsBeforeIsPrefix(obs, obs[k].day);
    hide FoldFacts, ObsBefore;
    var n := |head|;
    assert n <= k && obs[..n] == head;
    var same := obs[n..k];
    assert obs[..k] == head + same;
    forall i | 0 <= i < |same| ensures same[i].target != obs[k].target {
      assert same[i] == obs[n + i] && Before(obs[n + i], obs[k]);
    }
    FoldSplits(map[], head, same);
    OthersKeepFact(FoldFacts(map[], head), same, obs[k].target);
  }

  /** A row whose kind is not empty against the fact before its day leaves a change of that day. */
  lemma {:induction false} RowLeavesChange(obs: seq<Observation>, k: nat)
    requires StrictlySorted(obs) && k < |obs|
    requires KindOf(Get(FoldFacts(map[], ObsBefore(obs, obs[k].day)), obs[k].target), obs[k]).Some?
    ensures exists c :: c in FoldChanges(map[], obs) && c.day == obs[k].day && c.target == obs[k].target
  {
    hide FoldFacts, FoldChanges, ObsBefore, KindOf, StrictlySorted;
    FactBeforeDay(obs, k);
    var cs := ChangeOf(Get(FoldFacts(map[], obs[..k]), obs[k].target), obs[k]);
    FoldStep(obs, k);
    FoldSplits(map[], obs[..k + 1], obs[k + 1..]);
    assert obs[..k + 1] + obs[k + 1..] == obs;
    assert cs[0] in FoldChanges(map[], obs[..k + 1]);
  }

  lemma {:induction false} FoldStep(obs: seq<Observation>, k: nat)
    requires k < |obs|
    ensures FoldChanges(map[], obs[..k + 1])
         == FoldChanges(map[], obs[..k]) + ChangeOf(Get(FoldFacts(map[], obs[..k]), obs[k].target), obs[k])
  {
    hide ChangeOf, FoldFacts, FoldChanges, FactAfter;
    assert obs[..k + 1] == obs[..k] + [obs[k]];
    FoldLast(map[], obs[..k], obs[k]);
  }

  // ---------------------------------------------------------------------------------------
  // Two histories of one log

  /** Both list the same rows before a day. */
  lemma {:induction false} SameHead(a: seq<Observation>, b: seq<Observation>, day: Date)
    requires StrictlySorted(a) && StrictlySorted(b)
    requires forall o: Observation :: o.day < day ==> (o in a <==> o in b)
    ensures ObsBefore(a, day) == ObsBefore(b, day)
  {
    StrictIsSorted(a);
    StrictIsSorted(b);
    ObsBeforeIsPrefix(a, day);
    ObsBeforeIsPrefix(b, day);
    hide ObsBefore;
    var x, y := ObsBefore(a, day), ObsBefore(b, day);
    forall o ensures o in x <==> o in y {
      InHead(a, day, o);
      InHead(b, day, o);
    }
    SameMembers(x, y);
  }

  lemma {:induction false} InHead(a: seq<Observation>, day: Date, o: Observation)
    requires StrictlySorted(a)
    ensures o in ObsBefore(a, day) <==> o in a && o.day < day
  {
    StrictIsSorted(a);
    ObsBeforeIsPrefix(a, day);
    hide ObsBefore;
    var x := ObsBefore(a, day);
    if o in a && o.day < day {
      var i :| 0 <= i < |a| && a[i] == o;
      assert x[i] == o;
    }
    if o in x {
      var i :| 0 <= i < |x| && x[i] == o;
      assert a[i] == o;
    }
  }

  /** One log cannot represent a history with a telling row and a history without it. */
  lemma {:induction false} TellingRow(log: Log, a: seq<Observation>, b: seq<Observation>, o: Observation)
    requires Represents(log, a) && Represents(log, b) && StrictlySorted(a) && StrictlySorted(b)
    requires o in a && KindOf(Get(FoldFacts(map[], ObsBefore(a, o.day)), o.target), o).Some?
    ensures exists x :: x in b && x.day == o.day && x.target == o.target
  {
    hide ObsBefore, FoldFacts, StrictlySorted;
    var k :| 0 <= k < |a| && a[k] == o;
    RowLeavesChange(a, k);
    var c :| c in FoldChanges(map[], a) && c.day == o.day && c.target == o.target;
    FoldChangesDays(map[], b);
  }

  /** Rows of the two histories on the first rewritten day. */
  lemma {:induction false} FirstRewrittenRow(w: World, before: seq<Date>, m: Memo, after: seq<Date>, t: Target)
    requires Offered(w, before) && Offered(w, after) && after != []
    requires forall i :: 0 <= i < |before| ==> before[i] < after[0]
    requires t !in w.snaps[after[0]].current
    ensures var rows := AllRows(w, NO_MEMO, before) + AllRows(w, m, after);
            && (t in m.known ==> Fill(after[0], t) in rows)
            && (t !in m.known ==> !exists o :: o in rows && o.day == after[0] && o.target == t)
  {
    hide AllRows, PreviousOpen;
    FirstDay(w, m, after);
    RowOnFirstDay(w, m, after, t);
    var day := DayRows(w, m, after[0], Pred(w, after[0]));
    assert t in day <==> t in m.known;
    if t in day {
      assert day[t] == Fill(after[0], t) && day[t] in RowSet(day);
    }
    forall o | o in AllRows(w, NO_MEMO, before) ensures o.day < after[0] {
      EarlyRow(w, NO_MEMO, before, after[0], o);
    }
  }

  /** A target that only one of two runs knows, and that the first rewritten day does not offer, tells
      the two apart in the log when the fact before that day is absent or not UNKNOWN. */
  lemma {:induction false} UnofferedTargetTells(
    w: World, before: seq<Date>, m1: Memo, m2: Memo, after: seq<Date>,
    log: Log, a: seq<Observation>, b: seq<Observation>, t: Target)
    requires Offered(w, before) && Offered(w, after) && after != []
    requires forall i :: 0 <= i < |before| ==> before[i] < after[0]
    requires Lists(a, AllRows(w, NO_MEMO, before) + AllRows(w, m1, after))
    requires Lists(b, AllRows(w, NO_MEMO, before) + AllRows(w, m2, after))
    requires t !in w.snaps[after[0]].current && t in m1.known && t !in m2.known
    requires var facts := FoldFacts(map[], ObsBefore(a, after[0])); t in facts ==> facts[t].status != Unknown
    ensures !(Represents(log, a) && Represents(log, b))
  {
    FirstRewrittenRow(w, before, m1, after, t);
    FirstRewrittenRow(w, before, m2, after, t);
    hide AllRows, ObsBefore, FoldFacts, Represents;
    var o := Fill(after[0], t);
    if Represents(log, a) && Represents(log, b) {
      TellingRow(log, a, b, o);
    }
  }

  /** The rows of a history before the first rewritten day are those before the cut. */
  lemma {:induction false} HeadAtCut(
    w: World, before: seq<Date>, m: Memo, after: seq<Date>, head: seq<Observation>, a: seq<Observation>)
    requires Offered(w, before) && Offered(w, after) && after != []
    requires forall i :: 0 <= i < |before| ==> before[i] < after[0]
    requires Lists(head, AllRows(w, NO_MEMO, before))
    requires Lists(a, AllRows(w, NO_MEMO, before) + AllRows(w, m, after))
    ensures ObsBefore(a, after[0]) == head
  {
    hide AllRows, ObsBefore;
    forall o: Observation | o.day < after[0] ensures o in a <==> o in head {
      LateRow(w, m, after, o);
    }
    SameHead(a, head, after[0]);
    forall i | 0 <= i < |head| ensures head[i].day < after[0] {
      assert head[i] in head;
      EarlyRow(w, NO_MEMO, before, after[0], head[i]);
    }
    AllObsBefore(head, after[0]);
  }

  /** Seeds that do not suffice show: a target that only the restart or only the full run knows, that the
      first rewritten day does not offer, and whose anchor is absent or not UNKNOWN, leaves the log
      different from the from-scratch timeline. */
  lemma {:induction false} InsufficientSeedsShow(
    log: Log, history: seq<Observation>, prior: World, w: World,
    before: seq<Date>, oldAfter: seq<Date>, after: seq<Date>,
    suffix: seq<Observation>, start: Date, through: Date, revision: int, full: seq<Observation>, t: Target)
    requires CutAt(prior, w, before, oldAfter, after, start) && after != []
    requires Represents(log, history) && Lists(history, AllRows(prior, NO_MEMO, before + oldAfter))
    requires RestartedRows(w, SeedOf(w, log, after[0]), after, suffix) && after[|after| - 1] <= through
    requires Publish(log, suffix, Some(start), through, revision).Accepted?
    requires Lists(full, AllRows(w, NO_MEMO, before + after))
    requires t !in w.snaps[after[0]].current
    requires (t in SeedAt(log.events, start - 1)) != (t in SeededTargets(w, log, after[0]))
    requires t in SeedAt(log.events, start - 1) ==> SeedAt(log.events, start - 1)[t].status != Unknown
    ensures !Represents(Publish(log, suffix, Some(start), through, revision).log, full)
  {
    hide AllRows, MemoAfter, ObsBefore, SeedAt, FoldFacts, Represents, Lists, Publish, PreviousOpen, Sort,
         RestartedRows, SeededTargets;
    var next := Publish(log, suffix, Some(start), through, revision).log;
    var head := ObsBefore(history, start);
    var a := head + Sort(suffix);
    var m, f := SeedOf(w, log, after[0]), MemoAfter(w, NO_MEMO, before);
    PublishedSuffix(log, history, prior, w, before, oldAfter, after, suffix, start, through, revision);
    KnownAtCut(log, history, prior, w, before, oldAfter, after, start);
    SeedOfShape(w, log, after[0]);
    RunSplits(w, NO_MEMO, before, after);
    assert forall i :: 0 <= i < |before| ==> before[i] < after[0];
    HeadAtCut(w, before, m, after, head, a);
    HeadAtCut(w, before, f, after, head, full);
    if t in f.known {
      UnofferedTargetTells(w, before, f, m, after, next, full, a, t);
    } else {
      UnofferedTargetTells(w, before, m, f, after, next, a, full, t);
    }
  }

  /** The same of a materialization: the published timeline is then not the from-scratch one. */
  lemma {:induction false} InsufficientSeedsBreakTimeline(e: Setting, s: System, task: Task, work: Work, t: Target)
    requires Sound(e, s) && Tracked(e, s) && Allowed(e, s, Materialize(task, work))
    requires var plan := PlanOf(s, task);
             && plan.Rebuild? && plan.start.Some? && AnyWritten(work.rows, plan.start, plan.latest)
             && PublishedLog(s, plan.start, plan.latest, work).Accepted?
    requires var w, start := WorldOf(e, work.rows, s.bars), PlanOf(s, task).start.value;
             && NoClosedSnapshots(w) && work.dates != [] && work.dates[0] in w.snaps
             && t !in w.snaps[work.dates[0]].current
             && (t in SeedAt(s.log.events, start - 1)) != (t in SeededTargets(w, s.log, work.dates[0]))
             && (t in SeedAt(s.log.events, start - 1) ==> SeedAt(s.log.events, start - 1)[t].status != Unknown)
    ensures !TimelineFresh(e, Next(s, Materialize(task, work)))
  {
    hide PlanOf, Sound, WellFormed, Allowed, Publish, WorldOf, Lists, DatesOf, NoClosedSnapshots, PreviousOpen,
         Represents, SeedAt, SeededTargets, AllRows, CutAt, RestartedRows, PublishedLog, Advance;
    var plan := PlanOf(s, task);
    var w, next := WorldOf(e, work.rows, s.bars), Next(s, Materialize(task, work));
    var seen, days, n, history := RestartCut(e, s, task, work);
    NextLog(s, task, work);
    NotFresh(e, s, next, w, seen, days, n, history, plan.start.value, plan.latest, work, t);
  }

  lemma {:induction false} NextLog(s: System, task: Task, work: Work)
    requires var plan := PlanOf(s, task);
             && plan.Rebuild? && plan.start.Some? && AnyWritten(work.rows, plan.start, plan.latest)
             && s.stream.stateThrough.Some? && PublishedLog(s, plan.start, plan.latest, work).Accepted?
    ensures var plan, next := PlanOf(s, task), Next(s, Materialize(task, work));
            var r := Publish(s.log, work.obs, plan.start, plan.latest, s.stream.sourceRevision);
            r.Accepted? && next.log == r.log && next.rows == work.rows && next.bars == s.bars
  {
    hide PlanOf, Publish, Effective, AnyWritten;
  }

  /** The world the log was computed from and the present one, cut at the start of a partial rebuild that
      wrote rows. */
  lemma {:induction false} RestartCut(e: Setting, s: System, task: Task, work: Work)
    returns (seen: World, days: seq<Date>, n: nat, history: seq<Observation>)
    requires Sound(e, s) && Tracked(e, s) && Allowed(e, s, Materialize(task, work))
    requires var plan := PlanOf(s, task);
             plan.Rebuild? && plan.start.Some? && AnyWritten(work.rows, plan.start, plan.latest)
    requires NoClosedSnapshots(WorldOf(e, work.rows, s.bars)) && work.dates != []
    ensures s.stream.stateThrough.Some?
    ensures var w, plan := WorldOf(e, work.rows, s.bars), PlanOf(s, task);
            && n <= |days| && CutAt(seen, w, days[..n], days[n..], work.dates, plan.start.value)
            && Represents(s.log, history) && Offered(seen, days) && Lists(history, AllRows(seen, NO_MEMO, days))
            && RestartedRows(w, SeedOf(w, s.log, work.dates[0]), work.dates, work.obs)
            && work.dates[|work.dates| - 1] <= plan.latest && DatesOf(w, days[..n] + work.dates)
  {
    hide PlanOf, Sound, WellFormed, Recognized, RowsRebuilt, Publish, WorldOf, AllCanonical, Advance, AgreeUntil, Lists,
         NoClosedSnapshots, PreviousOpen, Represents, AnyWritten, AllRows, SeedOf;
    var plan := PlanOf(s, task);
    var start, latest := plan.start.value, plan.latest;
    var w := WorldOf(e, work.rows, s.bars);
    seen, days, history :| Tracks(e, s, seen, days, history);
    SoundParts(e, s);
    PlanFacts(s, task);
    AdvanceKeepsWatermarks(e, s, task, work, s.log);
    AdvanceThrough(s, task, work, s.log);
    AdvanceUnfolds(s, task, work, s.log);
    RebuildAgrees(e, s, task, work, seen);
    WindowOf(w, s.log, plan.start, latest, work.dates, work.obs);
    DatesAscend(seen, days);
    n := SplitDays(days, start);
    DaysAreCut(e, Advance(s, task, work, s.log), seen, days, n, start, latest, work.dates);
    assert days[..n] + days[n..] == days;
    WindowIsRestarted(w, s.log, start, latest, work.dates, work.obs);
    CutCovers(seen, w, days[..n], days[n..], work.dates, start);
  }

  lemma {:induction false} NotFresh(
    e: Setting, s: System, next: System, w: World, seen: World, days: seq<Date>, n: nat, history: seq<Observation>,
    start: Date, latest: Date, work: Work, t: Target)
    requires n <= |days| && CutAt(seen, w, days[..n], days[n..], work.dates, start) && work.dates != []
    requires Represents(s.log, history) && Offered(seen, days) && Lists(history, AllRows(seen, NO_MEMO, days))
    requires RestartedRows(w, SeedOf(w, s.log, work.dates[0]), work.dates, work.obs)
    requires work.dates[|work.dates| - 1] <= latest && DatesOf(w, days[..n] + work.dates)
    requires Publish(s.log, work.obs, Some(start), latest, s.stream.sourceRevision).Accepted?
    requires next.log == Publish(s.log, work.obs, Some(start), latest, s.stream.sourceRevision).log
    requires w == WorldOf(e, next.rows, next.bars)
    requires t !in w.snaps[work.dates[0]].current
    requires (t in SeedAt(s.log.events, start - 1)) != (t in SeededTargets(w, s.log, work.dates[0]))
    requires t in SeedAt(s.log.events, start - 1) ==> SeedAt(s.log.events, start - 1)[t].status != Unknown
    ensures !TimelineFresh(e, next)
  {
    hide WorldOf, Represents, AllRows, Lists, Publish, PreviousOpen, SeedAt, SeededTargets, CutAt, RestartedRows,
         SeedOf;
    assert days[..n] + days[n..] == days;
    forall dates, h | DatesOf(w, dates) && Lists(h, AllRows(w, NO_MEMO, dates)) ensures !Represents(next.log, h) {
      SameDates(w, dates, days[..n] + work.dates);
      InsufficientSeedsShow(s.log, history, seen, w, days[..n], days[n..], work.dates, work.obs, start, latest,
                            s.stream.sourceRevision, h, t);
    }
  }

  // ---------------------------------------------------------------------------------------
  // The exact condition, for projections that offer targets by their subjects

  lemma {:induction false} WorkIsFresh(e: Setting, s: System, task: Task, work: Work)
    requires Sound(e, s) && Allowed(e, s, Materialize(task, work)) && PlanOf(s, task).Rebuild?
    ensures FreshUpto(work.rows, Effective(s, task), s.bars, PlanOf(s, task).latest, e.root)
    ensures Ordered(s.bars)
  {
    hide PlanOf, Sound, Allowed, Computed, Effective, Content, ContentAt, Ordered;
    AllowedComputed(e, s, task, work);
    SoundBars(e, s);
    forall d, t | d <= PlanOf(s, task).latest
      ensures Content(work.rows, d, t) == ContentAt(Effective(s, task), s.bars, d, t, e.root)
    {
      RebuiltRowIsFresh(e, s, task, work, d, t);
    }
  }

  /** A target offered on a snapshot day is offered on every later one. */
  lemma {:induction false} StillOffered(
    e: Setting, about: Target -> Subject, s: System, task: Task, work: Work, d: Date, first: Date, t: Target)
    requires OffersBySubject(e, about) && Sound(e, s) && Allowed(e, s, Materialize(task, work))
    requires PlanOf(s, task).Rebuild?
    requires var w := WorldOf(e, work.rows, s.bars);
             d in w.snaps && first in w.snaps && d <= first && t in w.snaps[d].current
    ensures t in WorldOf(e, work.rows, s.bars).snaps[first].current
  {
    hide PlanOf, Sound, Allowed, WorldOf, OfferedOn, FreshUpto, Effective, Ordered, AllCanonical, RowsOn;
    WorkIsFresh(e, s, task, work);
    AllowedComputed(e, s, task, work);
    SnapOf(e, work.rows, s.bars, d);
    SnapOf(e, work.rows, s.bars, first);
    var u :| (first, u) in work.rows;
    RowsReach(e, s, task, work, (first, u));
    OfferedPersists(work.rows, Effective(s, task), s.bars, PlanOf(s, task).latest, e.root, d, first, u, about(t));
  }

  /** Every target with an anchor before `start` is offered on the first rewritten day: a restart forgets
      no target that the day does not offer. */
  lemma {:induction false} KnownIsOffered(
    e: Setting, about: Target -> Subject, s: System, task: Task, work: Work, t: Target)
    requires OffersBySubject(e, about) && Sound(e, s) && Tracked(e, s) && Allowed(e, s, Materialize(task, work))
    requires var plan := PlanOf(s, task);
             plan.Rebuild? && plan.start.Some? && AnyWritten(work.rows, plan.start, plan.latest)
    requires var w := WorldOf(e, work.rows, s.bars);
             NoClosedSnapshots(w) && work.dates != [] && work.dates[0] in w.snaps
    requires t in SeedAt(s.log.events, PlanOf(s, task).start.value - 1)
    ensures t in WorldOf(e, work.rows, s.bars).snaps[work.dates[0]].current
  {
    hide PlanOf, Sound, Tracked, Allowed, WorldOf, NoClosedSnapshots, Represents, AllRows, MemoAfter, Lists, SeedAt,
         AnyWritten, RestartedRows, SeedOf, PreviousOpen, AgreeBefore, DatesOf;
    var w, start := WorldOf(e, work.rows, s.bars), PlanOf(s, task).start.value;
    var seen, days, n, history := RestartCut(e, s, task, work);
    var before := days[..n];
    assert before + days[n..] == days;
    KnownAtCut(s.log, history, seen, w, before, days[n..], work.dates, start);
    KnownAre(w, NO_MEMO, before, start - 1, t);
    var d :| d in before && d <= start - 1 && d in w.snaps && t in w.snaps[d].current;
    StillOffered(e, about, s, task, work, d, work.dates[0], t);
  }

  /** A partial materialization that writes rows over open days publishes the from-scratch timeline exactly
      when the predecessor of the first rewritten day lies before `start`, or that day offers every target
      whose anchor is read at that predecessor but that has none before `start`. */
  lemma {:induction false} PublishedTimelineIsExact(
    e: Setting, about: Target -> Subject, s: System, task: Task, work: Work)
    requires OffersBySubject(e, about) && Sound(e, s) && Tracked(e, s) && Allowed(e, s, Materialize(task, work))
    requires var plan := PlanOf(s, task);
             && plan.Rebuild? && plan.start.Some? && AnyWritten(work.rows, plan.start, plan.latest)
             && PublishedLog(s, plan.start, plan.latest, work).Accepted?
    requires var w := WorldOf(e, work.rows, s.bars);
             NoClosedSnapshots(w) && work.dates != [] && work.dates[0] in w.snaps
    ensures var w, start, first := WorldOf(e, work.rows, s.bars), PlanOf(s, task).start.value, work.dates[0];
            TimelineFresh(e, Next(s, Materialize(task, work)))
            <==> (Pred(w, first).Some? && Pred(w, first).value < start) || NothingInvented(w, s.log, start, first)
  {
    hide PlanOf, Sound, Allowed, PublishedLog, WorldOf, NoClosedSnapshots, PreviousOpen, SeedAt, SeededTargets,
         AnyWritten, Tracked, TimelineFresh, Advance;
    var w, start, first := WorldOf(e, work.rows, s.bars), PlanOf(s, task).start.value, work.dates[0];
    AdvanceUnfolds(s, task, work, PublishedLog(s, PlanOf(s, task).start, PlanOf(s, task).latest, work).log);
    WindowHolds(work.rows, PlanOf(s, task).start, PlanOf(s, task).latest);
    forall t | t in SeedAt(s.log.events, start - 1) ensures t in w.snaps[first].current {
      KnownIsOffered(e, about, s, task, work, t);
    }
    if SeedsSuffice(w, s.log, start, first) {
      PartialStepIsTracked(e, s, task, work);
    } else {
      var t :| t !in w.snaps[first].current && (t in SeedAt(s.log.events, start - 1)) != (t in SeededTargets(w, s.log,
                                                                                                             first));
      InsufficientSeedsBreakTimeline(e, s, task, work, t);
    }
  }

  /** Every target that a restart reads an anchor of, and that has none before `start`, is offered. */
  ghost predicate NothingInvented(w: World, log: Log, start: Date, d: Date)
    requires d in w.snaps
  {
    forall t :: t in SeededTargets(w, log, d) && t !in SeedAt(log.events, start - 1) ==> t in w.snaps[d].current
  }

  lemma {:induction false} WindowHolds(rows: Rows, start: Option<Date>, latest: Date)
    requires AnyWritten(rows, start, latest)
    ensures start.Some? ==> start.value <= latest
  {
  }
}
