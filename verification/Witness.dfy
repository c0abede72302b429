/** Concrete runs: a reachable non-empty timeline, a restart that invents a target, a stale current row,
    a lost history. */
module Witness {
  import opened Common
  import opened States
  import opened Timeline
  import opened EventLog
  import opened Recognition
  import opened Restart
  import opened Rebuild
  import opened Averages
  import opened Requests
  import opened Snapshots
  import opened Publication
  import opened PublicationTimeline
  import opened PublicationEdge
  import opened KnownTargets
  import opened Subjects
  import PublicationProgress
  import PublicationRuns
  import RestartEdge
  import CurrentRows
  import Calendar
  import Kdj

  // ---------------------------------------------------------------------------------------
  // A plain setting: flat prices, and the six default indicators with a longer KDJ beside them

  const CANDLE := Kdj.Candle(Some(1.0), Some(1.0), 1.0)

  /** A variant whose warm-up is one bar longer than that of its type's default. */
  const TEN: Request := KdjRequest(10, 3, 3)

  /** Daily bars on days 1 to `n`. */
  function DaysTo(n: nat): (bars: seq<Bar>)
    ensures |bars| == n && forall i :: 0 <= i < n ==> bars[i] == Bar(i + 1, CANDLE)
  {
    seq(n, i requires 0 <= i < n => Bar(i + 1, CANDLE))
  }

  /** One state on each variant of the requests; target 0 is about the longer KDJ. */
  function About(t: Target): (s: Subject) {
    match t
    case 0 => Keyed(TEN)
    case 1 => Keyed(DefaultRequest(KDJ))
    case 2 => MaPair(SHORT_PERIOD, LONG_PERIOD)
    case 3 => Keyed(DefaultRequest(PROJECTED_MA))
    case 4 => Keyed(DefaultRequest(RSI))
    case 5 => Keyed(DefaultRequest(BOLL))
    case 6 => Keyed(DefaultRequest(MACD))
    case _ => MaPair(0, 0)
  }

  const TARGETS: set<Target> := {0, 1, 2, 3, 4, 5, 6}

  /** The variant of a subject, or the default one of its type. */
  function ReadingOf(r: DayRow, s: Subject): (reading: Reading) {
    var variants := VariantsOf(r, SubjectType(s));
    var q := if s.Keyed? && s.request in variants then s.request else DefaultRequest(SubjectType(s));
    if q in variants then Reading(variants[q].values, variants[q].previous) else Reading(map[], None)
  }

  function Offering(r: DayRow): (snap: DaySnap) {
    DaySnap(map t | t in TARGETS && OfferedOn(r, About(t)) :: ReadingOf(r, About(t)),
            map t | t in TARGETS && FoundOn(r, About(t)) :: ReadingOf(r, About(t)))
  }

  const OPEN_DAYS: Calendar.Table := map d: int | 1 <= d <= 12 :: Calendar.Open

  function Plain(root: Root, cal: Calendar.Table): (e: Setting) {
    Setting(cal, Rules((t, a, b, p, q) => Signal(true, false), t => false), root, Offering)
  }

  /** The setting offers targets by their subjects. */
  lemma {:induction false} PlainOffersBySubject(root: Root, cal: Calendar.Table)
    ensures OffersBySubject(Plain(root, cal), About)
  {
    forall r, t ensures t in Plain(root, cal).project(r).current <==> OfferedOn(r, About(t)) {
      if t !in TARGETS {
        assert About(t) == MaPair(0, 0);
        NeverOffered(r);
      }
    }
  }

  lemma {:induction false} NeverOffered(r: DayRow)
    ensures !OfferedOn(r, MaPair(0, 0))
  {
  }

  const OPEN_TASK := Task(None, {TEN}, false)

  // ---------------------------------------------------------------------------------------
  // What fresh rows offer

  lemma {:induction false} WarmUps(candles: seq<Kdj.Candle>, root: Root)
    requires Kdj.Ranged(candles)
    ensures Calculated(DefaultRequest(PROJECTED_MA), candles, root).Some? <==> |candles| >= 5
    ensures Calculated(TEN, candles, root).Some? <==> |candles| >= 10
  {
    hide Sum, Mean, Kdj.After;
  }

  lemma {:induction false} RowAt(rows: Rows, key: set<Request>, bars: seq<Bar>, root: Root, i: nat)
    requires FreshRows(rows, key, bars, root) && Ordered(bars) && Demands(key) && i < |bars|
    ensures var d := bars[i].day;
            && (i + 1 >= 5 ==> (d, PROJECTED_MA) in rows)
            && (OfferedOn(RowsOn(rows, d), Keyed(TEN)) <==> i + 1 >= 10)
  {
    hide Calculated, FreshRows, Delta;
    var d, upto := bars[i].day, bars[..i + 1];
    UptoAt(bars, i);
    WarmUps(Candles(upto), root);
    FreshAt(rows, key, bars, root, d, PROJECTED_MA);
    FreshAt(rows, key, bars, root, d, KDJ);
    assert DefaultRequest(PROJECTED_MA) in EntriesOf(key, Candles(upto), PROJECTED_MA, root) <==> i + 1 >= 5;
    assert TEN in EntriesOf(key, Candles(upto), KDJ, root) <==> i + 1 >= 10;
  }

  ghost predicate Demands(key: set<Request>) { TEN in key && DefaultRequest(PROJECTED_MA) in key }

  lemma {:induction false} FreshAt(rows: Rows, key: set<Request>, bars: seq<Bar>, root: Root, d: Date, t: IndicatorType)
    requires FreshRows(rows, key, bars, root)
    ensures Content(rows, d, t) == ContentAt(key, bars, d, t, root)
  {
  }

  /** The snapshot of a bar day. */
  lemma {:induction false} SnapAt(
    rows: Rows, key: set<Request>, bars: seq<Bar>, root: Root, cal: Calendar.Table, i: nat)
    requires FreshRows(rows, key, bars, root) && Ordered(bars) && Demands(key) && i < |bars|
    ensures var w, d := WorldOf(Plain(root, cal), rows, bars), bars[i].day;
            && (i + 1 >= 5 ==> d in w.snaps)
            && (d in w.snaps ==> (0 in w.snaps[d].current <==> i + 1 >= 10))
  {
    RowAt(rows, key, bars, root, i);
    SnapOf(Plain(root, cal), rows, bars, bars[i].day);
    hide FreshRows, WorldOf, RowsOn, FoundOn, ReadingOf, OfferedOn;
  }

  lemma {:induction false} SnapIsBar(
    rows: Rows, key: set<Request>, bars: seq<Bar>, root: Root, cal: Calendar.Table, d: Date)
    requires FreshRows(rows, key, bars, root) && Ordered(bars) && d in WorldOf(Plain(root, cal), rows, bars).snaps
    ensures exists i :: 0 <= i < |bars| && bars[i].day == d
  {
    SnapOf(Plain(root, cal), rows, bars, d);
    hide WorldOf, ContentAt;
    var t :| (d, t) in rows;
    assert Content(rows, d, t) == ContentAt(key, bars, d, t, root);
    RowsNeedBars(key, bars, d, t, root);
    var b :| b in bars && b.day == d;
    var i :| 0 <= i < |bars| && bars[i] == b;
  }

  lemma {:induction false} AnchorNeedsRow(log: Log, history: seq<Observation>, day: Date, t: Target)
    requires Represents(log, history) && StrictlySorted(history)
    ensures t in SeedAt(log.events, day) <==> exists o :: o in history && o.day <= day && o.target == t
  {
    hide Represents, SeedAt, FoldFacts, ObsBefore, StrictlySorted;
    SeedsAreFacts(log, history, day);
    var head := ObsBefore(history, day + 1);
    FactsTargets(head, t);
    forall o ensures o in head <==> o in history && o.day <= day {
      RestartEdge.InHead(history, day + 1, o);
    }
  }

  // ---------------------------------------------------------------------------------------
  // Extending runs

  lemma {:induction false} OneMoreStep(e: Setting, steps: seq<Step>, step: Step)
    requires AllowedRun(e, INITIAL, steps) && Allowed(e, After(INITIAL, steps), step)
    ensures AllowedRun(e, INITIAL, steps + [step])
    ensures After(INITIAL, steps + [step]) == Next(After(INITIAL, steps), step)
    ensures RestartableRun(e, INITIAL, steps)
            && (step.Materialize? ==> Restartable(e, After(INITIAL, steps), step.task, step.work)) ==>
              RestartableRun(e, INITIAL, steps + [step])
  {
    hide Allowed, Next, Restartable;
    assert (steps + [step])[..|steps|] == steps;
  }

  lemma {:induction false} DaysAreOrdered(n: nat)
    ensures Ordered(DaysTo(n)) && SameBefore([], DaysTo(n), 1)
  {
    hide DaysTo;
  }

  // ---------------------------------------------------------------------------------------
  // Ten bars, published

  const ARRIVAL := SourceWrite(1, 10, DaysTo(10))

  /** A clean stream that was published from the defaults and the longer KDJ. */
  ghost predicate Published(s: System, bars: seq<Bar>, through: Date) {
    && s.bars == bars && s.configured == {} && s.stream.demandKey == Some(Merge({TEN}))
    && s.stream.stateThrough == Some(through) && s.stream.publishedRevision >= 0
    && s.stream.dirtyFrom.None? && PublicationIsCurrent(s.stream)
  }

  lemma {:induction false} FirstPlan()
    ensures var s := Next(INITIAL, ARRIVAL);
            && PlanOf(s, OPEN_TASK) == Rebuild(None, 10) && Effective(s, OPEN_TASK) == Merge({TEN})
            && s.stream.latestBar == Some(10) && s.bars == DaysTo(10) && s.configured == {}
  {
    hide DaysTo, Merge;
    assert {TEN} + INITIAL.configured == {TEN};
  }

  lemma {:induction false} ArrivalIsAllowed(root: Root, cal: Calendar.Table)
    ensures AllowedRun(Plain(root, cal), INITIAL, [ARRIVAL]) && RestartableRun(Plain(root, cal), INITIAL, [ARRIVAL])
    ensures After(INITIAL, [ARRIVAL]) == Next(INITIAL, ARRIVAL)
  {
    hide DaysTo, Ordered, SameBefore, Plain;
    DaysAreOrdered(10);
    assert Allowed(Plain(root, cal), INITIAL, ARRIVAL) by { ArrivalDays(); }
    assert After(INITIAL, []) == INITIAL;
    OneMoreStep(Plain(root, cal), [], ARRIVAL);
    assert [] + [ARRIVAL] == [ARRIVAL];
  }

  lemma {:induction false} ArrivalDays()
    ensures forall b :: b in DaysTo(10) ==> b.day <= 10
  {
    hide DaysTo;
  }

  /** The stream row after a rebuild of those requests. */
  lemma {:induction false} PublishedAfter(e: Setting, s: System, work: Work, start: Option<Date>, latest: Date)
    requires Sound(e, s) && PublicationRuns.Live(s) && PlanOf(s, OPEN_TASK) == Rebuild(start, latest)
    requires Effective(s, OPEN_TASK) == Merge({TEN}) && s.configured == {} && s.stream.latestBar == Some(latest)
    ensures var r := Next(s, Materialize(OPEN_TASK, work));
            Published(r, s.bars, latest) && r.rows == work.rows
  {
    hide Sound, PublicationRuns.Live, Merge, PlanOf, Effective, Next;
    RebuiltSystem(e, s, OPEN_TASK, work);
  }

  lemma {:induction false} TenIsCanonical()
    ensures AllCanonical(OPEN_TASK.requests)
  {
  }

  /** Ten bars arrive and are published. */
  lemma {:induction false} TenBars(root: Root, cal: Calendar.Table) returns (steps: seq<Step>)
    ensures AllowedRun(Plain(root, cal), INITIAL, steps) && RestartableRun(Plain(root, cal), INITIAL, steps)
    ensures Published(After(INITIAL, steps), DaysTo(10), 10)
    ensures CurrentRows.LastCovers(Plain(root, cal), steps)
  {
    hide *;
    var e := Plain(root, cal);
    ArrivalIsAllowed(root, cal);
    FirstPlan();
    RunKeepsSound(e, [ARRIVAL]);
    PublicationRuns.RunKeepsLive(e, [ARRIVAL]);
    var s := Next(INITIAL, ARRIVAL);
    SoundBars(e, s);
    var work := PublicationProgress.WorkExists(e, s, OPEN_TASK);
    TenIsCanonical();
    AllowedFrom(e, s, OPEN_TASK, work);
    FullRestarts(e, s, OPEN_TASK, work);
    OneMoreStep(e, [ARRIVAL], Materialize(OPEN_TASK, work));
    PublishedAfter(e, s, work, None, 10);
    FullCovers(e, work);
    steps := [ARRIVAL] + [Materialize(OPEN_TASK, work)];
  }

  lemma {:induction false} FullCovers(e: Setting, work: Work)
    requires PlanOf(After(INITIAL, [ARRIVAL]), OPEN_TASK) == Rebuild(None, 10)
    ensures CurrentRows.LastCovers(e, [ARRIVAL] + [Materialize(OPEN_TASK, work)])
  {
    hide After, PlanOf, PublishedLog;
    var steps := [ARRIVAL] + [Materialize(OPEN_TASK, work)];
    assert steps[..1] == [ARRIVAL];
    assert CurrentRows.LastCovers(e, [ARRIVAL]) by { ArrivalCovers(e); }
  }

  lemma {:induction false} ArrivalCovers(e: Setting)
    ensures CurrentRows.LastCovers(e, [ARRIVAL])
  {
    assert [ARRIVAL][..0] == [];
    assert CurrentRows.LastCovers(e, []);
  }

  lemma {:induction false} FullRestarts(e: Setting, s: System, task: Task, work: Work)
    requires PlanOf(s, task).Rebuild? && PlanOf(s, task).start.None?
    ensures Restartable(e, s, task, work)
  {
    hide PlanOf, WorldOf, AnyWritten;
  }

  lemma {:induction false} DemandsMet()
    ensures Demands(Merge({TEN}))
  {
  }

  lemma {:induction false} PublishedRowsAreFresh(root: Root, cal: Calendar.Table, steps: seq<Step>)
    requires AllowedRun(Plain(root, cal), INITIAL, steps)
    requires var s := After(INITIAL, steps); Published(s, s.bars, OrElse(s.stream.stateThrough, 0))
    ensures var s := After(INITIAL, steps); FreshRows(s.rows, Merge({TEN}), s.bars, root)
  {
    CurrentSnapshotsAreFresh(Plain(root, cal), steps);
    var s := After(INITIAL, steps);
    hide After, AllowedRun, Content, ContentAt, Merge;
  }

  /** The rows of ten published bars: target 0 appears on day 10 and nowhere before. */
  lemma {:induction false} TenBarRows(
    root: Root, cal: Calendar.Table, rows: Rows, history: seq<Observation>, dates: seq<Date>)
    requires FreshRows(rows, Merge({TEN}), DaysTo(10), root)
    requires DatesOf(WorldOf(Plain(root, cal), rows, DaysTo(10)), dates)
    requires Lists(history, AllRows(WorldOf(Plain(root, cal), rows, DaysTo(10)), NO_MEMO, dates))
    ensures exists o :: o in history && o.day == 10 && o.target == 0
    ensures forall o :: o in history && o.target == 0 ==> o.day >= 10
  {
    hide AllRows, WorldOf, FreshRows, Merge, Ordered, Plain;
    var w, bars := WorldOf(Plain(root, cal), rows, DaysTo(10)), DaysTo(10);
    DaysAreOrdered(10);
    DemandsMet();
    SnapAt(rows, Merge({TEN}), bars, root, cal, 9);
    assert 10 in dates;
    RowPresent(w, NO_MEMO, dates, 10, 0);
    forall o | o in history && o.target == 0 ensures o.day >= 10 {
      RowWasOffered(w, dates, o);
      var d :| d in dates && d <= o.day && d in w.snaps && o.target in w.snaps[d].current;
      SnapIsBar(rows, Merge({TEN}), bars, root, cal, d);
      var i :| 0 <= i < |bars| && bars[i].day == d;
      SnapAt(rows, Merge({TEN}), bars, root, cal, i);
    }
  }

  /** A reachable current publication with a non-empty timeline that knows target 0 from day 10 on. */
  lemma {:induction false} TenBarTimeline(root: Root, cal: Calendar.Table) returns (steps: seq<Step>)
    ensures AllowedRun(Plain(root, cal), INITIAL, steps) && RestartableRun(Plain(root, cal), INITIAL, steps)
    ensures var s := After(INITIAL, steps);
            && Published(s, DaysTo(10), 10) && ValidChanges(s.log.events) != []
            && 0 in SeedAt(s.log.events, 10) && 0 !in SeedAt(s.log.events, 8)
            && CurrentRows.CurrentRowsFresh(Plain(root, cal), s) && 0 in s.log.current
  {
    steps := TenBars(root, cal);
    var e, s := Plain(root, cal), After(INITIAL, steps);
    PublishedRowsAreFresh(root, cal, steps);
    CleanTimelineIsFresh(e, steps);
    hide After, AllowedRun, RestartableRun, WorldOf, Represents, DatesOf, AllRows, FreshRows, SeedAt, ValidChanges,
         Merge,
         StrictlySorted, Plain, DaysTo;
    var dates, history :| DatesOf(WorldOf(e, s.rows, s.bars), dates) && Represents(s.log, history)
      && Lists(history, AllRows(WorldOf(e, s.rows, s.bars), NO_MEMO, dates));
    TenBarRows(root, cal, s.rows, history, dates);
    EmptyHistory(s.log, history);
    AnchorNeedsRow(s.log, history, 10, 0);
    AnchorNeedsRow(s.log, history, 8, 0);
    CurrentRows.CleanRowsAreExact(e, steps);
    CurrentRows.FreshIsMatching(e, s, dates, history);
    RowOfTarget(s.log.current, history, 0);
  }

  lemma {:induction false} RowOfTarget(current: map<Target, CurrentRow>, history: seq<Observation>, t: Target)
    requires CurrentRows.RowsMatch(current, history) && exists o :: o in history && o.target == t
    ensures t in current
  {
    hide LastRows;
    CurrentRows.RowsOfHistory(map[], history, 0, t);
  }

  // ---------------------------------------------------------------------------------------
  // Two warm-up days are deleted: the restart invents a target

  /** Days 9 and 10 are gone, day 11 is new: nine bars in all. */
  function Thinned(): (bars: seq<Bar>)
    ensures |bars| == 9 && bars[8].day == 11 && forall i :: 0 <= i < 8 ==> bars[i].day == i + 1
  {
    DaysTo(8) + [Bar(11, CANDLE)]
  }

  function Deletion(): Step { SourceWrite(9, 11, Thinned()) }

  lemma {:induction false} ThinnedBars()
    ensures Ordered(Thinned()) && SameBefore(DaysTo(10), Thinned(), 9)
    ensures forall b :: b in Thinned() ==> b.day <= 11
  {
    var a, b := DaysTo(10), Thinned();
    assert Ordered(a) && Ordered(b);
    UptoAt(a, 7);
    UptoAt(b, 7);
    assert a[..8] == b[..8];
  }

  lemma {:induction false} DeletionPlan(e: Setting, s: System)
    requires Published(s, DaysTo(10), 10) && s.stream.latestBar.Some? && s.stream.latestBar.value <= 10
    ensures Allowed(e, s, Deletion())
    ensures var r := Next(s, Deletion());
            && PlanOf(r, OPEN_TASK) == Rebuild(Some(9), 11) && Effective(r, OPEN_TASK) == Merge({TEN})
            && r.stream.latestBar == Some(11) && r.bars == Thinned() && r.configured == {} && r.log == s.log
  {
    ThinnedBars();
    hide Ordered, SameBefore, Merge, DaysTo, Thinned, PublicationIsCurrent;
    assert OPEN_TASK.requests + s.configured == {TEN};
  }

  lemma {:induction false} LatestBarIsPublished(e: Setting, s: System)
    requires Sound(e, s) && Published(s, DaysTo(10), 10)
    ensures s.stream.latestBar.Some? && s.stream.latestBar.value <= 10
  {
    hide Ordered, RowsFresh, DemandCovered;
  }

  lemma {:induction false} RebuiltRowsAreFresh(root: Root, cal: Calendar.Table, s: System, work: Work)
    requires Sound(Plain(root, cal), s) && PlanOf(s, OPEN_TASK) == Rebuild(Some(9), 11)
    requires Effective(s, OPEN_TASK) == Merge({TEN})
    requires s.bars == Thinned() && Computed(Plain(root, cal), s, OPEN_TASK, work)
    ensures FreshRows(work.rows, Merge({TEN}), Thinned(), root)
  {
    hide Sound, PlanOf, Effective, Computed, Content, ContentAt, Merge, Thinned;
    forall d, t ensures Content(work.rows, d, t) == ContentAt(Merge({TEN}), Thinned(), d, t, root) {
      if d <= 11 {
        RebuiltRowIsFresh(Plain(root, cal), s, OPEN_TASK, work, d, t);
      } else {
        NothingLater(root, cal, s, work, d, t);
      }
    }
  }

  lemma {:induction false} NothingLater(
    root: Root, cal: Calendar.Table, s: System, work: Work, d: Date, t: IndicatorType)
    requires Sound(Plain(root, cal), s) && PlanOf(s, OPEN_TASK) == Rebuild(Some(9), 11)
    requires Effective(s, OPEN_TASK) == Merge({TEN})
    requires s.bars == Thinned() && Computed(Plain(root, cal), s, OPEN_TASK, work) && 11 < d
    ensures Content(work.rows, d, t) == None && ContentAt(Merge({TEN}), Thinned(), d, t, root) == None
  {
    hide *;
    ThinnedBars();
    TenIsCanonical();
    ContentIn(work.rows, d, t);
    if (d, t) in work.rows {
      RowsReach(Plain(root, cal), s, OPEN_TASK, work, (d, t));
    }
    if ContentAt(Merge({TEN}), Thinned(), d, t, root).Some? {
      RowsNeedBars(Merge({TEN}), Thinned(), d, t, root);
    }
  }

  /** The calendar proves day 10 before day 11, and closes no day. */
  lemma {:induction false} OpenCalendar(root: Root, rows: Rows, bars: seq<Bar>)
    requires forall i :: 0 <= i < |bars| ==> 1 <= bars[i].day <= 11
    ensures var w := WorldOf(Plain(root, OPEN_DAYS), rows, bars); NoClosedSnapshots(w) && Pred(w, 11) == Some(10)
  {
    var w := WorldOf(Plain(root, OPEN_DAYS), rows, bars);
    assert w.calendar == OPEN_DAYS;
    Calendar.PreviousOpenIsProved(OPEN_DAYS, 11, 10);
    hide WorldOf, Calendar.PreviousOpen;
  }

  /** The only rewritten snapshot day is day 11, and it does not offer target 0. */
  lemma {:induction false} OnlyDayEleven(root: Root, cal: Calendar.Table, rows: Rows, dates: seq<Date>)
    requires FreshRows(rows, Merge({TEN}), Thinned(), root)
    requires WindowDates(WorldOf(Plain(root, cal), rows, Thinned()), Some(9), 11, dates)
    ensures var w := WorldOf(Plain(root, cal), rows, Thinned());
            && dates != [] && dates[0] == 11 && 11 in w.snaps && 0 !in w.snaps[11].current
    ensures (11, PROJECTED_MA) in rows
  {
    hide WorldOf, FreshRows, Merge, Ordered, Plain;
    var w := WorldOf(Plain(root, cal), rows, Thinned());
    ThinnedBars();
    DemandsMet();
    SnapAt(rows, Merge({TEN}), Thinned(), root, cal, 8);
    RowAt(rows, Merge({TEN}), Thinned(), root, 8);
    assert 11 in dates;
    assert dates[0] in dates;
    SnapIsBar(rows, Merge({TEN}), Thinned(), root, cal, dates[0]);
    var i :| 0 <= i < |Thinned()| && Thinned()[i].day == dates[0];
  }

  lemma {:induction false} RowElevenIsWritten(rows: Rows)
    requires (11, PROJECTED_MA) in rows
    ensures AnyWritten(rows, Some(9), 11)
  {
    assert Rewritten((11, PROJECTED_MA).0, Some(9), 11);
  }

  /** The premises of an insufficient restart. */
  lemma {:induction false} DeletionIsInsufficient(root: Root, s: System, work: Work)
    requires Sound(Plain(root, OPEN_DAYS), s) && PlanOf(s, OPEN_TASK) == Rebuild(Some(9), 11)
    requires Effective(s, OPEN_TASK) == Merge({TEN})
    requires s.bars == Thinned() && Computed(Plain(root, OPEN_DAYS), s, OPEN_TASK, work) && s.stream.stateThrough.Some?
    requires 0 in SeedAt(s.log.events, 10) && 0 !in SeedAt(s.log.events, 8)
    ensures AnyWritten(work.rows, Some(9), 11)
    ensures var w := WorldOf(Plain(root, OPEN_DAYS), work.rows, s.bars);
            && NoClosedSnapshots(w) && work.dates != [] && work.dates[0] in w.snaps
            && 0 !in w.snaps[work.dates[0]].current && 0 in SeededTargets(w, s.log, work.dates[0])
  {
    hide *;
    RebuiltRowsAreFresh(root, OPEN_DAYS, s, work);
    DaysOfThinned();
    OpenCalendar(root, work.rows, Thinned());
    var w := WorldOf(Plain(root, OPEN_DAYS), work.rows, Thinned());
    var dates := PublicationProgress.SortedDaysExist(set d | d in w.snaps && Between(d, Some(9), 11));
    ListsWindow(w, dates);
    OnlyDayEleven(root, OPEN_DAYS, work.rows, dates);
    RowElevenIsWritten(work.rows);
    WorkIsRecognized(root, OPEN_DAYS, s, work);
    WindowOf(w, s.log, Some(9), 11, work.dates, work.obs);
    OnlyDayEleven(root, OPEN_DAYS, work.rows, work.dates);
    SeededByTen(w, s.log);
  }

  lemma {:induction false} DaysOfThinned()
    ensures var bars := Thinned(); forall i :: 0 <= i < |bars| ==> 1 <= bars[i].day <= 11
  {
  }

  lemma {:induction false} ListsWindow(w: World, dates: seq<Date>)
    requires Calendar.StrictlyIncreasing(dates)
    requires forall d :: d in dates <==> d in (set x | x in w.snaps && Between(x, Some(9), 11))
    ensures WindowDates(w, Some(9), 11, dates)
  {
  }

  lemma {:induction false} WorkIsRecognized(root: Root, cal: Calendar.Table, s: System, work: Work)
    requires PlanOf(s, OPEN_TASK) == Rebuild(Some(9), 11) && s.stream.stateThrough.Some?
    requires Computed(Plain(root, cal), s, OPEN_TASK, work) && AnyWritten(work.rows, Some(9), 11)
    ensures Recognized(WorldOf(Plain(root, cal), work.rows, s.bars), s.log, Some(9), 11, work.dates, work.obs)
  {
    hide PlanOf, Effective, RowsRebuilt, Recognized, WorldOf, AnyWritten, Plain;
  }

  lemma {:induction false} SeededByTen(w: World, log: Log)
    requires Pred(w, 11) == Some(10)
    ensures SeededTargets(w, log, 11) == SeedAt(log.events, 10).Keys
  {
    hide Calendar.PreviousOpen, SeedAt;
  }

  /** A run that ends clean and current with a timeline that recognition from scratch would not publish:
      ten bars are published, then days 9 and 10 are deleted while day 11 arrives. The predecessor of
      day 11 is day 10, whose anchors hold a target that was first seen on a deleted day. */
  lemma {:induction false} RestartInventsTarget(root: Root) returns (steps: seq<Step>)
    ensures AllowedRun(Plain(root, OPEN_DAYS), INITIAL, steps)
    ensures var s := After(INITIAL, steps); Published(s, Thinned(), 11) && !TimelineFresh(Plain(root, OPEN_DAYS), s)
  {
    hide *;
    var e := Plain(root, OPEN_DAYS);
    var ten := TenBarTimeline(root, OPEN_DAYS);
    var s := After(INITIAL, ten);
    RunKeepsSound(e, ten);
    LatestBarIsPublished(e, s);
    DeletionPlan(e, s);
    OneMoreStep(e, ten, Deletion());
    var more := ten + [Deletion()];
    var r := Next(s, Deletion());
    RunKeepsSound(e, more);
    RunKeepsTracked(e, more) by { StillRestartable(e, ten); }
    PublicationRuns.RunKeepsLive(e, more);
    SoundBars(e, r);
    var work := PublicationProgress.WorkExists(e, r, OPEN_TASK);
    TenIsCanonical();
    AllowedFrom(e, r, OPEN_TASK, work);
    OneMoreStep(e, more, Materialize(OPEN_TASK, work));
    PublishedAfter(e, r, work, Some(9), 11);
    PublicationRuns.RebuildIsNotStale(e, r, OPEN_TASK, work) by { LiveParts(r); }
    SoundParts(e, r);
    PlanFacts(r, OPEN_TASK);
    DeletionIsInsufficient(root, r, work);
    RestartEdge.InsufficientSeedsBreakTimeline(e, r, OPEN_TASK, work, 0);
    steps := more + [Materialize(OPEN_TASK, work)];
  }

  lemma {:induction false} StillRestartable(e: Setting, steps: seq<Step>)
    requires RestartableRun(e, INITIAL, steps) && AllowedRun(e, INITIAL, steps)
    requires Allowed(e, After(INITIAL, steps), Deletion())
    ensures RestartableRun(e, INITIAL, steps + [Deletion()])
  {
    hide Allowed, Next, Restartable, Thinned;
    OneMoreStep(e, steps, Deletion());
  }

  // ---------------------------------------------------------------------------------------
  // Two closed days lose their bars: the timeline is right, a current row is stale

  /** Days 9 and 10 turn out to be closed. */
  const HOLIDAYS: Calendar.Table := OPEN_DAYS[9 := Calendar.Closed][10 := Calendar.Closed]

  lemma {:induction false} ClosedDays(root: Root, rows: Rows)
    requires FreshRows(rows, Merge({TEN}), Thinned(), root)
    ensures var w := WorldOf(Plain(root, HOLIDAYS), rows, Thinned()); NoClosedSnapshots(w) && Pred(w, 11) == Some(8)
  {
    var w := WorldOf(Plain(root, HOLIDAYS), rows, Thinned());
    assert w.calendar == HOLIDAYS;
    hide *;
    EightIsProved();
    ThinnedBars();
    forall d | d in w.snaps ensures Get(HOLIDAYS, d) != Some(Calendar.Closed) {
      SnapIsBar(rows, Merge({TEN}), Thinned(), root, HOLIDAYS, d);
      BarDaysAreOpen(d);
    }
    OnOpenDays(w);
  }

  lemma {:induction false} OnOpenDays(w: World)
    requires w.calendar == HOLIDAYS && Calendar.PreviousOpen(HOLIDAYS, 11) == Some(8)
    requires forall d :: d in w.snaps ==> Get(HOLIDAYS, d) != Some(Calendar.Closed)
    ensures NoClosedSnapshots(w) && Pred(w, 11) == Some(8)
  {
    hide Calendar.PreviousOpen;
  }

  lemma {:induction false} EightIsProved()
    ensures Calendar.PreviousOpen(HOLIDAYS, 11) == Some(8)
  {
    Calendar.PreviousOpenIsProved(HOLIDAYS, 11, 8);
    hide Calendar.PreviousOpen;
  }

  lemma {:induction false} BarDaysAreOpen(d: Date)
    requires exists i :: 0 <= i < |Thinned()| && Thinned()[i].day == d
    ensures Get(HOLIDAYS, d) != Some(Calendar.Closed)
  {
  }

  /** The deletion restarts soundly, and target 0 keeps its row. */
  lemma {:induction false} HolidayRestart(root: Root, s: System, work: Work)
    requires Sound(Plain(root, HOLIDAYS), s) && PlanOf(s, OPEN_TASK) == Rebuild(Some(9), 11)
    requires Effective(s, OPEN_TASK) == Merge({TEN})
    requires s.bars == Thinned() && Computed(Plain(root, HOLIDAYS), s, OPEN_TASK, work) && s.stream.stateThrough.Some?
    ensures Restartable(Plain(root, HOLIDAYS), s, OPEN_TASK, work)
    ensures 0 in s.log.current && 0 !in SeedAt(s.log.events, 8) ==>
              !CurrentRows.Covers(Plain(root, HOLIDAYS), s, OPEN_TASK, work)
  {
    hide *;
    RebuiltRowsAreFresh(root, HOLIDAYS, s, work);
    ClosedDays(root, work.rows);
    var w := WorldOf(Plain(root, HOLIDAYS), work.rows, Thinned());
    var dates := PublicationProgress.SortedDaysExist(set d | d in w.snaps && Between(d, Some(9), 11));
    ListsWindow(w, dates);
    OnlyDayEleven(root, HOLIDAYS, work.rows, dates);
    RowElevenIsWritten(work.rows);
    WorkIsRecognized(root, HOLIDAYS, s, work);
    WindowOf(w, s.log, Some(9), 11, work.dates, work.obs);
    OnlyDayEleven(root, HOLIDAYS, work.rows, work.dates);
    EarlyPredecessor(Plain(root, HOLIDAYS), s, work);
    NotOffered(root, work.rows, work.dates);
    RowIsLeft(Plain(root, HOLIDAYS), s, work);
  }

  lemma {:induction false} EarlyPredecessor(e: Setting, s: System, work: Work)
    requires PlanOf(s, OPEN_TASK) == Rebuild(Some(9), 11) && work.dates != [] && work.dates[0] == 11
    requires var w := WorldOf(e, work.rows, s.bars); NoClosedSnapshots(w) && Pred(w, 11) == Some(8)
    ensures Restartable(e, s, OPEN_TASK, work)
  {
    hide PlanOf, WorldOf, AnyWritten, NoClosedSnapshots, SeedAt, SeededTargets, Calendar.PreviousOpen;
  }

  lemma {:induction false} NotOffered(root: Root, rows: Rows, dates: seq<Date>)
    requires FreshRows(rows, Merge({TEN}), Thinned(), root)
    requires WindowDates(WorldOf(Plain(root, HOLIDAYS), rows, Thinned()), Some(9), 11, dates)
    ensures !OfferedBy(WorldOf(Plain(root, HOLIDAYS), rows, Thinned()), dates, 11, 0)
  {
    hide WorldOf, FreshRows, Merge, Ordered, Plain;
    var w := WorldOf(Plain(root, HOLIDAYS), rows, Thinned());
    OnlyDayEleven(root, HOLIDAYS, rows, dates);
    ThinnedBars();
    forall d | d in dates && d in w.snaps ensures 0 !in w.snaps[d].current {
      SnapIsBar(rows, Merge({TEN}), Thinned(), root, HOLIDAYS, d);
    }
  }

  lemma {:induction false} RowIsLeft(e: Setting, s: System, work: Work)
    requires PlanOf(s, OPEN_TASK) == Rebuild(Some(9), 11) && AnyWritten(work.rows, Some(9), 11)
    requires !OfferedBy(WorldOf(e, work.rows, s.bars), work.dates, 11, 0)
    ensures 0 in s.log.current && 0 !in SeedAt(s.log.events, 8) ==> !CurrentRows.Covers(e, s, OPEN_TASK, work)
  {
    hide PlanOf, WorldOf, AnyWritten, SeedAt, OfferedBy;
  }

  /** A run of sound restarts that ends clean and current with the from-scratch timeline but not with the
      from-scratch current rows: target 0 keeps the row of a day that no longer has a bar. */
  lemma {:induction false} StaleRowRemains(root: Root) returns (steps: seq<Step>)
    ensures AllowedRun(Plain(root, HOLIDAYS), INITIAL, steps) && RestartableRun(Plain(root, HOLIDAYS), INITIAL, steps)
    ensures var e, s := Plain(root, HOLIDAYS), After(INITIAL, steps);
            && Published(s, Thinned(), 11) && TimelineFresh(e, s) && !CurrentRows.CurrentRowsFresh(e, s)
  {
    hide *;
    var e := Plain(root, HOLIDAYS);
    var ten := TenBarTimeline(root, HOLIDAYS);
    var s := After(INITIAL, ten);
    RunKeepsSound(e, ten);
    LatestBarIsPublished(e, s);
    DeletionPlan(e, s);
    OneMoreStep(e, ten, Deletion());
    StillRestartable(e, ten);
    var more := ten + [Deletion()];
    var r := Next(s, Deletion());
    RunKeepsSound(e, more);
    RunKeepsTracked(e, more);
    PublicationRuns.RunKeepsLive(e, more);
    SoundBars(e, r);
    var work := PublicationProgress.WorkExists(e, r, OPEN_TASK);
    TenIsCanonical();
    AllowedFrom(e, r, OPEN_TASK, work);
    LiveParts(r);
    PublicationRuns.RebuildIsNotStale(e, r, OPEN_TASK, work);
    SoundParts(e, r);
    PlanFacts(r, OPEN_TASK);
    HolidayRestart(root, r, work);
    var last := Materialize(OPEN_TASK, work);
    OneMoreStep(e, more, last);
    PublishedAfter(e, r, work, Some(9), 11);
    steps := more + [last];
    AcceptedPublishes(r, work);
    LastLeavesRow(e, more, work);
    ThinnedIsClean(After(INITIAL, steps));
    CleanTimelineIsFresh(e, steps);
    CurrentRows.CleanRowsAreExact(e, steps);
  }

  lemma {:induction false} ThinnedIsClean(s: System)
    requires Published(s, Thinned(), 11)
    ensures s.stream.dirtyFrom.None?
  {
    hide PublicationIsCurrent, Merge, Thinned;
  }

  lemma {:induction false} AcceptedPublishes(s: System, work: Work)
    requires var plan := PlanOf(s, OPEN_TASK); plan.Rebuild? && PublishedLog(s, plan.start, plan.latest, work).Accepted?
    ensures CurrentRows.Publishes(s, Materialize(OPEN_TASK, work))
  {
    hide PlanOf, PublishedLog;
  }

  lemma {:induction false} LastLeavesRow(e: Setting, steps: seq<Step>, work: Work)
    requires var s := After(INITIAL, steps);
             && CurrentRows.Publishes(s, Materialize(OPEN_TASK, work)) && !CurrentRows.Covers(e, s, OPEN_TASK, work)
    ensures !CurrentRows.LastCovers(e, steps + [Materialize(OPEN_TASK, work)])
  {
    hide After, CurrentRows.Publishes, CurrentRows.Covers;
    assert (steps + [Materialize(OPEN_TASK, work)])[..|steps|] == steps;
  }

  // ---------------------------------------------------------------------------------------
  // A history is lost

  lemma {:induction false} LastOfTen()
    ensures DaysTo(10) != [] && DaysTo(10)[|DaysTo(10)| - 1].day == 10 && Kdj.HasRange(CANDLE)
  {
  }

  lemma {:induction false} PublishedParts(s: System)
    requires Published(s, DaysTo(10), 10)
    ensures s.bars == DaysTo(10) && s.stream.stateThrough == Some(10) && s.stream.publishedRevision >= 0
    ensures PublicationIsCurrent(s.stream) && s.stream.demandKey.Some?
  {
    hide DaysTo, PublicationIsCurrent, Merge;
  }

  /** A run that ends clean and current with its whole history before day 11 lost. */
  lemma {:induction false} HistoryCanBeLost(root: Root, cal: Calendar.Table) returns (steps: seq<Step>)
    ensures AllowedRun(Plain(root, cal), INITIAL, steps)
    ensures var s := After(INITIAL, steps);
            && s.stream.dirtyFrom.None? && s.stream.publishedRevision >= 0 && PublicationIsCurrent(s.stream)
            && NothingBefore(s.log, 11) && !TimelineFresh(Plain(root, cal), s)
  {
    hide *;
    var e, b := Plain(root, cal), Bar(11, CANDLE);
    var ten := TenBarTimeline(root, cal);
    var s := After(INITIAL, ten);
    PublishedParts(s);
    LastOfTen();
    CurrentTimelineCanBeWiped(e, ten, b);
    var first, second := BarArrives(s, b), Materialize(CappedTask(s), IdleWork(s));
    OneMoreStep(e, ten, first);
    OneMoreStep(e, ten + [first], second);
    WipedUnfolds(s, b);
    RunKeepsSound(e, ten + [first] + [second]);
    SoundBars(e, Wiped(s, b));
    var work := PublicationProgress.WorkExists(e, Wiped(s, b), OpenTask(s));
    LostHistoryReadsAsCurrent(e, ten, b, work);
    OneMoreStep(e, ten + [first] + [second], Materialize(OpenTask(s), work));
    steps := ten + [first] + [second] + [Materialize(OpenTask(s), work)];
  }

  lemma {:induction false} WipedUnfolds(s: System, b: Bar)
    requires s.stream.demandKey.Some?
    ensures Wiped(s, b) == Next(Next(s, BarArrives(s, b)), Materialize(CappedTask(s), IdleWork(s)))
  {
    hide Next, BarArrives;
  }
}
