/** A capped materialization behind the dirty date: two allowed steps wipe any current timeline. */
module PublicationEdge {
  import opened Common
  import opened Timeline
  import opened EventLog
  import opened Requests
  import opened Snapshots
  import opened Publication
  import opened PublicationTimeline
  import opened States
  import opened Recognition
  import opened Restart
  import opened Rebuild
  import PublicationRuns
  import RestartEdge
  import LogRuns
  import Kdj

  /** A new bar arrives, then a task capped at the published day runs before the day is published. */
  function BarArrives(s: System, b: Bar): Step { SourceWrite(b.day, b.day, s.bars + [b]) }

  function CappedTask(s: System): Task
    requires s.stream.demandKey.Some?
  {
    Task(s.stream.stateThrough, s.stream.demandKey.value, false)
  }

  function IdleWork(s: System): Work { Work(s.rows, [], []) }

  lemma {:induction false} UptoAppended(bars: seq<Bar>, b: Bar, d: Date)
    requires d < b.day
    ensures Upto(bars + [b], d) == Upto(bars, d)
  {
    assert (bars + [b])[..|bars|] == bars;
    assert CountUpto(bars + [b], d) == CountUpto(bars, d);
  }

  lemma {:induction false} AppendBar(bars: seq<Bar>, b: Bar)
    requires Ordered(bars) && Kdj.HasRange(b.candle) && bars != [] && bars[|bars| - 1].day < b.day
    ensures Ordered(bars + [b]) && SameBefore(bars, bars + [b], b.day)
  {
    UptoAppended(bars, b, b.day - 1);
    hide Upto, CountUpto, Kdj.HasRange;
  }

  lemma {:induction false} CoveredDemand(s: System)
    requires DemandCovered(s) && s.stream.demandKey.Some?
    requires s.stream.publishedDemandGeneration == s.stream.demandGeneration
    ensures Merge(s.stream.demandKey.value + s.configured) == s.stream.demandKey.value
  {
    hide DEFAULTS, Canonical;
    var key := s.stream.demandKey.value;
    assert DEFAULTS <= Merge(s.configured) && s.configured <= Merge(s.configured);
    assert Merge(key + s.configured) == key;
  }

  /** The plan of the capped task after the bar arrived. */
  lemma {:induction false} CappedPlan(e: Setting, s: System, b: Bar)
    requires Sound(e, s) && s.stream.publishedRevision >= 0 && PublicationIsCurrent(s.stream)
    requires s.bars != [] && s.stream.stateThrough == Some(s.bars[|s.bars| - 1].day)
    requires Kdj.HasRange(b.candle) && s.bars[|s.bars| - 1].day < b.day
    ensures Allowed(e, s, BarArrives(s, b))
    ensures s.stream.demandKey.Some?
    ensures var mid := Next(s, BarArrives(s, b));
            PlanOf(mid, CappedTask(s)) == Rebuild(Some(b.day), s.bars[|s.bars| - 1].day)
            && mid.rows == s.rows && mid.log == s.log && mid.stream.stateThrough == s.stream.stateThrough
            && AllCanonical(CappedTask(s).requests)
  {
    hide *;
    SoundParts(e, s);
    SoundBars(e, s);
    SoundKey(s);
    ArrivalIsAllowed(e, s, b);
    CurrentIsClean(s.stream);
    CoveredDemand(s) by { CurrentDemand(s.stream); }
    OldBars(s.bars, b);
    PlanAfterArrival(s, b);
  }

  lemma {:induction false} CurrentIsClean(st: StreamRow)
    requires PublicationIsCurrent(st) && st.publishedRevision >= 0
    ensures st.dirtyFrom.None?
  {
  }

  lemma {:induction false} CurrentDemand(st: StreamRow)
    requires PublicationIsCurrent(st) && st.publishedRevision >= 0
    ensures st.publishedDemandGeneration == st.demandGeneration
  {
  }

  lemma {:induction false} ArrivalIsAllowed(e: Setting, s: System, b: Bar)
    requires Ordered(s.bars) && Kdj.HasRange(b.candle) && s.bars != [] && s.bars[|s.bars| - 1].day < b.day
    ensures Allowed(e, s, BarArrives(s, b))
  {
    hide Ordered, SameBefore, Kdj.HasRange;
    AppendBar(s.bars, b);
    OldBars(s.bars, b);
  }

  lemma {:induction false} PlanAfterArrival(s: System, b: Bar)
    requires s.bars != [] && s.stream.stateThrough == Some(s.bars[|s.bars| - 1].day)
    requires s.stream.demandKey.Some? && s.stream.publishedRevision >= 0 && s.stream.dirtyFrom.None?
    requires Merge(s.stream.demandKey.value + s.configured) == s.stream.demandKey.value
    requires Upto(s.bars + [b], s.bars[|s.bars| - 1].day) == s.bars && AllCanonical(s.stream.demandKey.value)
    ensures var mid := Next(s, BarArrives(s, b));
            PlanOf(mid, CappedTask(s)) == Rebuild(Some(b.day), s.bars[|s.bars| - 1].day)
            && mid.rows == s.rows && mid.log == s.log && mid.stream.stateThrough == s.stream.stateThrough
            && AllCanonical(CappedTask(s).requests)
  {
    hide Merge, Upto, AllCanonical, FirstAfter;
  }

  lemma {:induction false} SoundKey(s: System)
    requires Watermarks(s) && DemandCovered(s) && s.stream.publishedRevision >= 0
    ensures s.stream.demandKey.Some? && AllCanonical(s.stream.demandKey.value)
  {
    hide Ordered, Canonical;
  }

  /** The bars up to the last old day are the old bars. */
  lemma {:induction false} OldBars(bars: seq<Bar>, b: Bar)
    requires Ordered(bars) && bars != [] && bars[|bars| - 1].day < b.day
    ensures Upto(bars + [b], bars[|bars| - 1].day) == bars
    ensures forall x :: x in bars + [b] ==> x.day <= b.day
  {
    UptoAppended(bars, b, bars[|bars| - 1].day);
    UptoAt(bars, |bars| - 1);
    hide Upto, CountUpto;
    assert bars[..|bars|] == bars;
    forall x | x in bars + [b] ensures x.day <= b.day {
      if x in bars {
        var i :| 0 <= i < |bars| && bars[i] == x;
      }
    }
  }

  lemma {:induction false} IdleWorkIsComputed(e: Setting, mid: System, task: Task)
    requires PlanOf(mid, task).Rebuild? && PlanOf(mid, task).start.Some?
    requires PlanOf(mid, task).latest < PlanOf(mid, task).start.value
    ensures Computed(e, mid, task, IdleWork(mid))
  {
    hide PlanOf, ContentAt, Recognized, WorldOf, Effective;
    var plan := PlanOf(mid, task);
    assert forall d :: !Rewritten(d, plan.start, plan.latest);
    assert RewrittenFrom(mid.rows, mid.rows, Effective(mid, task), Upto(mid.bars, plan.latest), plan.start, plan.latest,
                         e.root);
  }

  /** From every reachable current publication, a new bar followed by a task capped at the published
      day keeps all snapshots and leaves no valid event: the timeline is then wrong exactly when it
      was not empty. */
  lemma {:induction false} CurrentTimelineCanBeWiped(e: Setting, steps: seq<Step>, b: Bar)
    requires AllowedRun(e, INITIAL, steps) && RestartableRun(e, INITIAL, steps)
    requires var s := After(INITIAL, steps);
             && s.stream.publishedRevision >= 0 && PublicationIsCurrent(s.stream)
             && s.bars != [] && s.stream.stateThrough == Some(s.bars[|s.bars| - 1].day)
             && Kdj.HasRange(b.candle) && s.bars[|s.bars| - 1].day < b.day
    ensures var s := After(INITIAL, steps);
            && s.stream.demandKey.Some?
            && var mid := Next(s, BarArrives(s, b));
               var wipe := Materialize(CappedTask(s), IdleWork(s));
               && Allowed(e, s, BarArrives(s, b)) && Allowed(e, mid, wipe)
               && (forall d, t :: Content(Next(mid, wipe).rows, d, t) == Content(s.rows, d, t))
               && ValidChanges(Next(mid, wipe).log.events) == []
               && (TimelineFresh(e, Next(mid, wipe)) <==> ValidChanges(s.log.events) == [])
  {
    RunKeepsSound(e, steps);
    RunKeepsTracked(e, steps);
    PublicationRuns.RunKeepsLive(e, steps);
    var s := After(INITIAL, steps);
    hide *;
    WipeFrom(e, s, b);
  }

  lemma {:induction false} WipeFrom(e: Setting, s: System, b: Bar)
    requires Sound(e, s) && Tracked(e, s) && PublicationRuns.Live(s)
    requires s.stream.publishedRevision >= 0 && PublicationIsCurrent(s.stream)
    requires s.bars != [] && s.stream.stateThrough == Some(s.bars[|s.bars| - 1].day)
    requires Kdj.HasRange(b.candle) && s.bars[|s.bars| - 1].day < b.day
    ensures s.stream.demandKey.Some?
    ensures var mid := Next(s, BarArrives(s, b));
            var wipe := Materialize(CappedTask(s), IdleWork(s));
            && Allowed(e, s, BarArrives(s, b)) && Allowed(e, mid, wipe)
            && (forall d, t :: Content(Next(mid, wipe).rows, d, t) == Content(s.rows, d, t))
            && ValidChanges(Next(mid, wipe).log.events) == []
            && (TimelineFresh(e, Next(mid, wipe)) <==> ValidChanges(s.log.events) == [])
  {
    CappedPlan(e, s, b);
    SoundBars(e, s);
    hide Sound, Tracked, Allowed, TimelineFresh, ValidChanges, Content, PlanOf, PublicationIsCurrent, Ordered;
    var arrive := BarArrives(s, b);
    var mid, task := Next(s, arrive), CappedTask(s);
    SourceKeepsSound(e, s, b.day, b.day, s.bars + [b]);
    SourceKeepsTracked(e, s, b.day, b.day, s.bars + [b]);
    IdleWorkIsComputed(e, mid, task);
    AllowedFrom(e, mid, task, IdleWork(mid));
    PublicationRuns.RebuildIsNotStale(e, mid, task, IdleWork(mid));
    EmptyReplacementWipes(e, mid, task, IdleWork(mid));
  }

  lemma {:induction false} AllowedFrom(e: Setting, s: System, task: Task, work: Work)
    requires AllCanonical(task.requests) && Computed(e, s, task, work)
    ensures Allowed(e, s, Materialize(task, work))
  {
  }

  // ---------------------------------------------------------------------------------------
  // What was wiped stays lost

  /** The log holds no valid event before `m`. */
  ghost predicate NothingBefore(log: Log, m: Date) {
    forall c :: c in ValidChanges(log.events) ==> m <= c.day
  }

  lemma {:induction false} PublicationKeepsLost(
    log: Log, obs: seq<Observation>, start: Option<Date>, latest: Date, revision: int, m: Date)
    requires WellFormed(log) && Fits(obs, start, latest) && NothingBefore(log, m)
    requires if start.Some? then m <= start.value else obs == []
    requires Publish(log, obs, start, latest, revision).Accepted?
    ensures NothingBefore(Publish(log, obs, start, latest, revision).log, m)
  {
    PublishedTimeline(log, obs, start, latest, revision);
    hide Publish, WellFormed, ValidChanges, FoldChanges, Sort, Anchors, Fits;
    BatchChangesFit(Anchors(log, start), obs, start, latest);
    if start.Some? {
      ChangesBeforeMembers(ValidChanges(log.events), start.value);
    } else {
      LogRuns.NoChanges(Anchors(log, start));
    }
  }

  /** Every rebuild of a run is partial and starts at or after `m`. */
  ghost predicate PartialSteps(s: System, steps: seq<Step>, m: Date) {
    steps == [] ||
    (var init, step := steps[..|steps| - 1], steps[|steps| - 1];
     && PartialSteps(s, init, m)
     && (step.Materialize? && PlanOf(After(s, init), step.task).Rebuild? ==>
           PlanOf(After(s, init), step.task).start.Some? && m <= PlanOf(After(s, init), step.task).start.value))
  }

  lemma {:induction false} RebuildKeepsLost(e: Setting, s: System, task: Task, work: Work, m: Date)
    requires Sound(e, s) && PublicationRuns.Live(s) && Allowed(e, s, Materialize(task, work)) && NothingBefore(s.log, m)
    requires PlanOf(s, task).Rebuild? && PlanOf(s, task).start.Some? && m <= PlanOf(s, task).start.value
    ensures NothingBefore(Next(s, Materialize(task, work)).log, m)
  {
    hide *;
    LiveParts(s);
    PublicationRuns.RebuildIsOneBatch(e, s, task, work);
    PublicationRuns.RebuildIsNotStale(e, s, task, work);
    SoundParts(e, s);
    PlanFacts(s, task);
    var b := PublicationRuns.BatchOf(s, task, work);
    BatchStart(e, s, task, work);
    LogAfter(s, task, work);
    PublicationKeepsLost(s.log, b.obs, b.start, b.through, b.revision, m);
  }

  lemma {:induction false} LiveParts(s: System)
    requires PublicationRuns.Live(s)
    ensures LogRuns.LiveBounded(PublicationRuns.StreamOf(s)) && WellFormed(s.log)
  {
  }

  /** A partial rebuild publishes from its start, or nothing at all. */
  lemma {:induction false} BatchStart(e: Setting, s: System, task: Task, work: Work)
    requires PlanOf(s, task).Rebuild? && PlanOf(s, task).start.Some? && s.stream.stateThrough.Some?
    requires Allowed(e, s, Materialize(task, work)) && LogRuns.Proper(PublicationRuns.BatchOf(s, task, work))
    ensures var b := PublicationRuns.BatchOf(s, task, work);
            && Fits(b.obs, b.start, b.through)
            && if b.start.Some? then b.start == PlanOf(s, task).start else b.obs == []
  {
    hide PlanOf, RowsRebuilt, Recognized, WorldOf, AllCanonical, Fits, Distinct, Effective, AnyWritten;
  }

  lemma {:induction false} LogAfter(s: System, task: Task, work: Work)
    requires PlanOf(s, task).Rebuild?
    requires PublishedLog(s, PlanOf(s, task).start, PlanOf(s, task).latest, work).Accepted?
    ensures var b := PublicationRuns.BatchOf(s, task, work);
            && Publish(s.log, b.obs, b.start, b.through, b.revision).Accepted?
            && Next(s, Materialize(task, work)).log == Publish(s.log, b.obs, b.start, b.through, b.revision).log
  {
    hide PlanOf, Publish, Effective, AnyWritten;
  }

  lemma {:induction false} StepKeepsLost(e: Setting, s: System, step: Step, m: Date)
    requires Sound(e, s) && PublicationRuns.Live(s) && Allowed(e, s, step) && NothingBefore(s.log, m)
    requires step.Materialize? && PlanOf(s, step.task).Rebuild? ==>
      PlanOf(s, step.task).start.Some? && m <= PlanOf(s, step.task).start.value
    ensures Sound(e, Next(s, step)) && PublicationRuns.Live(Next(s, step)) && NothingBefore(Next(s, step).log, m)
  {
    hide Sound, Allowed, NothingBefore, PlanOf, PublishedLog, LogRuns.LiveBounded, LogRuns.AnnouncedOnce;
    match step
    case SourceWrite(day, newest, bars) => SourceKeepsSound(e, s, day, newest, bars);
    case ConfigWrite(configured) => ConfigKeepsSound(e, s, configured);
    case Materialize(task, work) =>
      MaterializeKeepsSound(e, s, task, work);
      PublicationRuns.MaterializeKeepsLive(e, s, task, work);
      if PlanOf(s, task).Rebuild? {
        RebuildKeepsLost(e, s, task, work, m);
      }
  }

  /** Over every run whose rebuilds are partial and start at or after `m`, a log without valid events
      before `m` never regains one. */
  lemma {:induction false} WipedHistoryStaysLost(e: Setting, s: System, steps: seq<Step>, m: Date)
    requires Sound(e, s) && PublicationRuns.Live(s) && NothingBefore(s.log, m)
    requires AllowedRun(e, s, steps) && PartialSteps(s, steps, m)
    ensures var r := After(s, steps); Sound(e, r) && PublicationRuns.Live(r) && NothingBefore(r.log, m)
  {
    if steps != [] {
      WipedHistoryStaysLost(e, s, steps[..|steps| - 1], m);
      hide Sound, PublicationRuns.Live, NothingBefore, Allowed, Next, PlanOf;
      StepKeepsLost(e, After(s, steps[..|steps| - 1]), steps[|steps| - 1], m);
    }
  }

  // ---------------------------------------------------------------------------------------
  // The lost history reads as current

  lemma {:induction false} FirstRowLeavesChange(history: seq<Observation>)
    requires StrictlySorted(history) && history != []
    ensures exists c :: c in FoldChanges(map[], history) && c.day == history[0].day
  {
    StrictIsSorted(history);
    ObsBeforeIsPrefix(history, history[0].day);
    hide FoldFacts, FoldChanges, ObsBefore;
    assert ObsBefore(history, history[0].day) == [];
    NoFacts();
    RestartEdge.RowLeavesChange(history, 0);
  }

  lemma {:induction false} NoFacts()
    ensures FoldFacts(map[], []) == map[]
  {
  }

  /** A log without valid events before `m` cannot represent a history with rows before `m`. */
  lemma {:induction false} LostRowsShow(log: Log, history: seq<Observation>, m: Date, o: Observation)
    requires NothingBefore(log, m) && StrictlySorted(history) && o in history && o.day < m
    ensures !Represents(log, history)
  {
    FirstRowLeavesChange(history);
    hide FoldChanges, ValidChanges;
    var k :| 0 <= k < |history| && history[k] == o;
    assert k > 0 ==> Before(history[0], history[k]);
    var c :| c in FoldChanges(map[], history) && c.day == history[0].day;
  }

  /** Rows before `m` of a world are rows of every later world that agrees before `m`. */
  lemma {:induction false} PastRowsRemain(
    was: World, now: World, days: seq<Date>, dates: seq<Date>, m: Date, o: Observation)
    requires DatesOf(was, days) && DatesOf(now, dates) && AgreeBefore(was, now, m)
    requires (forall d :: d in days ==> d < m) && o in AllRows(was, NO_MEMO, days)
    ensures o in AllRows(now, NO_MEMO, dates)
  {
    hide AllRows, MemoAfter;
    DatesAscend(now, dates);
    var n := SplitDays(dates, m);
    var before, after := dates[..n], dates[n..];
    assert before + after == dates;
    forall d ensures d in before <==> d in days {
      InDates(was, days, d);
      InDates(now, dates, d);
      assert d < m ==> Get(was.snaps, d) == Get(now.snaps, d);
      InPart(dates, n, m, d);
    }
    DatesAscend(was, days);
    SameAscending(before, days);
    assert forall i :: 0 <= i < |days| ==> days[i] in days;
    AgreeRuns(was, now, m, days);
    RunSplits(now, NO_MEMO, before, after);
  }

  lemma {:induction false} InPart(dates: seq<Date>, n: nat, m: Date, d: Date)
    requires n <= |dates| && (forall i :: 0 <= i < n ==> dates[i] < m)
    requires (forall i :: n <= i < |dates| ==> m <= dates[i])
    ensures d in dates[..n] <==> d in dates && d < m
  {
    if d in dates && d < m {
      var i :| 0 <= i < |dates| && dates[i] == d;
      assert dates[..n][i] == d;
    }
  }

  /** When valid events before `m` are gone but snapshot rows before `m` remain, the timeline is wrong. */
  lemma {:induction false} LostIsNotFresh(e: Setting, was: World, days: seq<Date>, now: System, m: Date, o: Observation)
    requires DatesOf(was, days) && AgreeBefore(was, WorldOf(e, now.rows, now.bars), m)
    requires (forall d :: d in days ==> d < m) && o in AllRows(was, NO_MEMO, days)
    requires NothingBefore(now.log, m)
    ensures !TimelineFresh(e, now)
  {
    var w := WorldOf(e, now.rows, now.bars);
    hide WorldOf, AllRows, NothingBefore, AgreeBefore, Represents, StrictlySorted;
    forall dates, h | DatesOf(w, dates) && Lists(h, AllRows(w, NO_MEMO, dates)) ensures !Represents(now.log, h) {
      PastRowsRemain(was, w, days, dates, m, o);
      EarlyRow(was, NO_MEMO, days, m, o) by { assert forall i :: 0 <= i < |days| ==> days[i] in days; }
      LostRowsShow(now.log, h, m, o);
    }
  }

  /** The task that then publishes the new bar. */
  function OpenTask(s: System): Task
    requires s.stream.demandKey.Some?
  {
    Task(None, s.stream.demandKey.value, false)
  }

  ghost function Wiped(s: System, b: Bar): (r: System)
    requires s.stream.demandKey.Some?
  {
    Next(Next(s, BarArrives(s, b)), Materialize(CappedTask(s), IdleWork(s)))
  }

  /** The stream row after the wipe is still dirty from the new bar on, and the open task starts there. */
  lemma {:induction false} OpenPlan(e: Setting, s: System, b: Bar)
    requires Sound(e, s) && PublicationRuns.Live(s) && s.stream.publishedRevision >= 0 && PublicationIsCurrent(s.stream)
    requires s.bars != [] && s.stream.stateThrough == Some(s.bars[|s.bars| - 1].day)
    requires Kdj.HasRange(b.candle) && s.bars[|s.bars| - 1].day < b.day
    ensures s.stream.demandKey.Some?
    ensures var r := Wiped(s, b);
            && r.rows == s.rows && r.bars == s.bars + [b] && r.stream.dirtyFrom == Some(b.day)
            && PlanOf(r, OpenTask(s)) == Rebuild(Some(b.day), b.day)
            && Effective(r, OpenTask(s)) == s.stream.demandKey.value
            && r.stream.latestBar == Some(b.day)
  {
    CappedPlan(e, s, b);
    SoundParts(e, s);
    SoundKey(s);
    CoveredDemand(s);
    var mid, task := Next(s, BarArrives(s, b)), CappedTask(s);
    SourceKeepsSound(e, s, b.day, b.day, s.bars + [b]);
    PublicationRuns.RebuildIsNotStale(e, mid, task, IdleWork(s)) by { SameLog(s, b); }
    hide Sound, PublishedLog, Ordered, Allowed, RowsFresh, DemandCovered, CountUpto, Upto, Merge;
    assert mid.stream.latestBar == Some(b.day) && mid.stream.dirtyFrom == Some(b.day);
    WipedRow(s, b);
  }

  lemma {:induction false} SameLog(s: System, b: Bar)
    requires PublicationRuns.Live(s)
    ensures LogRuns.LiveBounded(PublicationRuns.StreamOf(Next(s, BarArrives(s, b))))
  {
    hide LogRuns.LiveBounded;
  }

  /** The fields the wipe leaves. */
  lemma {:induction false} WipedRow(s: System, b: Bar)
    requires s.stream.demandKey.Some? && s.bars != []
    requires var mid := Next(s, BarArrives(s, b));
             && PlanOf(mid, CappedTask(s)) == Rebuild(Some(b.day), s.bars[|s.bars| - 1].day)
             && PublishedLog(mid, Some(b.day), s.bars[|s.bars| - 1].day, IdleWork(s)).Accepted?
             && mid.stream.latestBar == Some(b.day) && mid.stream.dirtyFrom == Some(b.day)
    requires s.bars[|s.bars| - 1].day < b.day
    requires Merge(s.stream.demandKey.value + s.configured) == s.stream.demandKey.value
    ensures var r := Wiped(s, b);
            && r.rows == s.rows && r.bars == s.bars + [b] && r.stream.dirtyFrom == Some(b.day)
            && PlanOf(r, OpenTask(s)) == Rebuild(Some(b.day), b.day)
            && Effective(r, OpenTask(s)) == s.stream.demandKey.value
            && r.stream.latestBar == Some(b.day)
  {
    hide Merge, PublishedLog, CountUpto, Upto;
    var mid := Next(s, BarArrives(s, b));
    var r := Wiped(s, b);
    assert r == mid.(stream := Advanced(mid.stream, Effective(mid, CappedTask(s)), s.bars[|s.bars| - 1].day),
                     rows := s.rows, log := r.log) by { hide PlanOf; }
  }

  /** Every row of a current publication's world is a row of the world after the wipe and the open task. */
  lemma {:induction false} OpenTaskAgrees(e: Setting, s: System, b: Bar, work: Work)
    requires Sound(e, s) && PublicationRuns.Live(s) && s.stream.publishedRevision >= 0 && PublicationIsCurrent(s.stream)
    requires s.bars != [] && s.stream.stateThrough == Some(s.bars[|s.bars| - 1].day)
    requires Kdj.HasRange(b.candle) && s.bars[|s.bars| - 1].day < b.day && s.stream.demandKey.Some?
    requires Sound(e, Wiped(s, b)) && Computed(e, Wiped(s, b), OpenTask(s), work)
    ensures AgreeBefore(WorldOf(e, s.rows, s.bars), WorldOf(e, work.rows, s.bars + [b]), b.day)
  {
    hide *;
    OpenPlan(e, s, b);
    SoundBars(e, s);
    AppendBar(s.bars, b);
    SoundParts(e, Wiped(s, b));
    SourceAgrees(e, s.rows, s.bars, s.bars + [b], b.day);
    BeforeIsUntil(WorldOf(e, s.rows, s.bars), WorldOf(e, s.rows, s.bars + [b]), b.day);
    RebuildAgrees(e, Wiped(s, b), OpenTask(s), work, WorldOf(e, s.rows, s.bars));
  }

  lemma {:induction false} BeforeIsUntil(a: World, b: World, d: Date)
    requires AgreeBefore(a, b, d)
    ensures AgreeUntil(a, b, Some(d))
  {
  }

  /** From every reachable current publication with a non-empty timeline: a new bar, a task capped at the
      published day, and an open task are three allowed steps that end in a clean publication which reads
      as current although its log has lost every event before the new bar. */
  lemma {:induction false} LostHistoryReadsAsCurrent(e: Setting, steps: seq<Step>, b: Bar, work: Work)
    requires AllowedRun(e, INITIAL, steps) && RestartableRun(e, INITIAL, steps)
    requires var s := After(INITIAL, steps);
             && s.stream.publishedRevision >= 0 && PublicationIsCurrent(s.stream)
             && s.bars != [] && s.stream.stateThrough == Some(s.bars[|s.bars| - 1].day)
             && Kdj.HasRange(b.candle) && s.bars[|s.bars| - 1].day < b.day
             && ValidChanges(s.log.events) != []
             && (s.stream.demandKey.Some? ==> Computed(e, Wiped(s, b), OpenTask(s), work))
    ensures var s := After(INITIAL, steps);
            && s.stream.demandKey.Some?
            && var last := Materialize(OpenTask(s), work);
               && Allowed(e, Wiped(s, b), last)
               && var final := Next(Wiped(s, b), last);
                  && final.stream.dirtyFrom.None? && final.stream.publishedRevision >= 0
                  && PublicationIsCurrent(final.stream)
                  && NothingBefore(final.log, b.day) && !TimelineFresh(e, final)
  {
    hide *;
    RunKeepsSound(e, steps);
    RunKeepsTracked(e, steps);
    PublicationRuns.RunKeepsLive(e, steps);
    var s := After(INITIAL, steps);
    SoundParts(e, s);
    SoundKey(s);
    EndsLost(e, s, b, work);
  }

  lemma {:induction false} EndsLost(e: Setting, s: System, b: Bar, work: Work)
    requires Sound(e, s) && Tracked(e, s) && PublicationRuns.Live(s)
    requires s.stream.publishedRevision >= 0 && PublicationIsCurrent(s.stream)
    requires s.bars != [] && s.stream.stateThrough == Some(s.bars[|s.bars| - 1].day)
    requires Kdj.HasRange(b.candle) && s.bars[|s.bars| - 1].day < b.day
    requires ValidChanges(s.log.events) != [] && s.stream.demandKey.Some?
    requires Computed(e, Wiped(s, b), OpenTask(s), work)
    ensures var last := Materialize(OpenTask(s), work);
            && Allowed(e, Wiped(s, b), last)
            && var final := Next(Wiped(s, b), last);
               && final.stream.dirtyFrom.None? && final.stream.publishedRevision >= 0
               && PublicationIsCurrent(final.stream)
               && NothingBefore(final.log, b.day) && !TimelineFresh(e, final)
  {
    hide Sound, Tracked, Allowed, PublicationIsCurrent, TimelineFresh, Wiped, PlanOf, Computed, NothingBefore,
         PublicationRuns.Live, WorldOf, ValidChanges, Kdj.HasRange;
    var r, task := Wiped(s, b), OpenTask(s);
    WipedIsSound(e, s, b);
    OpenPlan(e, s, b);
    CappedPlan(e, s, b);
    AllowedFrom(e, r, task, work);
    RebuildKeepsLost(e, r, task, work, b.day);
    OpenTaskAgrees(e, s, b, work);
    FinalStream(e, r, task, work, b.day);
    CurrentIsClean(s.stream);
    NotFreshAfter(e, s, Next(r, Materialize(task, work)), b.day);
  }

  lemma {:induction false} WipedIsSound(e: Setting, s: System, b: Bar)
    requires Sound(e, s) && Tracked(e, s) && PublicationRuns.Live(s)
    requires s.stream.publishedRevision >= 0 && PublicationIsCurrent(s.stream)
    requires s.bars != [] && s.stream.stateThrough == Some(s.bars[|s.bars| - 1].day)
    requires Kdj.HasRange(b.candle) && s.bars[|s.bars| - 1].day < b.day && s.stream.demandKey.Some?
    ensures Sound(e, Wiped(s, b)) && PublicationRuns.Live(Wiped(s, b)) && NothingBefore(Wiped(s, b).log, b.day)
  {
    hide Sound, Tracked, Allowed, PublicationIsCurrent, TimelineFresh, Materialized, ValidChanges, Content,
         LogRuns.LiveBounded, LogRuns.AnnouncedOnce, Kdj.HasRange;
    WipeFrom(e, s, b);
    SourceKeepsSound(e, s, b.day, b.day, s.bars + [b]);
    var mid := Next(s, BarArrives(s, b));
    MaterializeKeepsSound(e, mid, CappedTask(s), IdleWork(s));
    PublicationRuns.MaterializeKeepsLive(e, mid, CappedTask(s), IdleWork(s));
  }

  lemma {:induction false} FinalStream(e: Setting, r: System, task: Task, work: Work, day: Date)
    requires Sound(e, r) && PublicationRuns.Live(r) && PlanOf(r, task) == Rebuild(Some(day), day)
    requires r.stream.latestBar == Some(day)
    ensures var final := Next(r, Materialize(task, work));
            && final.stream.dirtyFrom.None? && final.stream.publishedRevision >= 0
            && PublicationIsCurrent(final.stream) && final.rows == work.rows && final.bars == r.bars
  {
    hide Sound, PublicationRuns.Live, PlanOf, Effective, Next;
    RebuiltSystem(e, r, task, work);
  }

  /** A planned rebuild always goes through. */
  lemma {:induction false} RebuiltSystem(e: Setting, s: System, task: Task, work: Work)
    requires Sound(e, s) && PublicationRuns.Live(s) && PlanOf(s, task).Rebuild?
    ensures var r := Next(s, Materialize(task, work));
            r == s.(stream := Advanced(s.stream, Effective(s, task), PlanOf(s, task).latest), rows := work.rows,
                    log := r.log)
  {
    hide Sound, PublicationRuns.Live, PlanOf, Effective, PublishedLog, Advanced;
    LiveParts(s);
    PublicationRuns.RebuildIsNotStale(e, s, task, work);
  }

  lemma {:induction false} NotFreshAfter(e: Setting, s: System, final: System, day: Date)
    requires Tracked(e, s) && s.stream.dirtyFrom.None? && s.stream.stateThrough.Some?
    requires s.stream.stateThrough.value < day
    requires ValidChanges(s.log.events) != []
    requires AgreeBefore(WorldOf(e, s.rows, s.bars), WorldOf(e, final.rows, final.bars), day)
    requires NothingBefore(final.log, day)
    ensures !TimelineFresh(e, final)
  {
    hide WorldOf, ValidChanges, NothingBefore, TimelineFresh, AllRows, DatesOf, Represents, AgreeUntil;
    var seen, days, history :| Tracks(e, s, seen, days, history);
    AgreeAll(seen, WorldOf(e, s.rows, s.bars));
    EmptyHistory(s.log, history);
    assert history[0] in history;
    LostIsNotFresh(e, seen, days, final, day, history[0]);
  }
}
