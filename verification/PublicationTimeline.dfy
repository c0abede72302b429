/** The published timeline of a stream over every interleaving, and the one edge that breaks it. */
module PublicationTimeline {
  import opened Common
  import opened States
  import opened Timeline
  import opened Calendar
  import opened EventLog
  import opened Recognition
  import opened Restart
  import opened Rebuild
  import opened Averages
  import opened Requests
  import opened Snapshots
  import opened Publication

  // ---------------------------------------------------------------------------------------
  // The invariant

  /** Two worlds that agree before `bound`, everywhere when there is none. */
  ghost predicate AgreeUntil(a: World, b: World, bound: Option<Date>) {
    && a.calendar == b.calendar && a.rules == b.rules
    && forall d :: (bound.None? || d < bound.value) ==>
         Get(a.snaps, d) == Get(b.snaps, d) && Get(a.closes, d) == Get(b.closes, d)
  }

  /** The log holds the from-scratch timeline of the world it was computed from, and that world
      differs from the present one only on or after the dirty date. */
  ghost predicate Tracks(e: Setting, s: System, seen: World, dates: seq<Date>, history: seq<Observation>) {
    && DatesOf(seen, dates) && Represents(s.log, history) && Lists(history, AllRows(seen, NO_MEMO, dates))
    && AgreeUntil(seen, WorldOf(e, s.rows, s.bars), s.stream.dirtyFrom)
    && forall d :: d in dates ==> s.stream.stateThrough.Some? && d <= s.stream.stateThrough.value
  }

  ghost predicate Tracked(e: Setting, s: System) {
    exists seen, dates, history :: Tracks(e, s, seen, dates, history)
  }

  /** The log holds the from-scratch timeline of the present snapshots and bars. */
  ghost predicate TimelineFresh(e: Setting, s: System) {
    exists dates, history ::
      && DatesOf(WorldOf(e, s.rows, s.bars), dates) && Represents(s.log, history)
      && Lists(history, AllRows(WorldOf(e, s.rows, s.bars), NO_MEMO, dates))
  }

  /** What a partial materialization needs to restart recognition soundly: a start within the bars, no
      snapshot on a closed day, and seeds that suffice on the first rewritten snapshot day. */
  ghost predicate Restartable(e: Setting, s: System, task: Task, work: Work) {
    var plan, w := PlanOf(s, task), WorldOf(e, work.rows, s.bars);
    plan.Rebuild? && plan.start.Some? ==>
      && plan.start.value <= plan.latest
      && (AnyWritten(work.rows, plan.start, plan.latest) && work.dates != [] && work.dates[0] in w.snaps ==>
            NoClosedSnapshots(w) && SeedsSuffice(w, s.log, plan.start.value, work.dates[0]))
  }

  // ---------------------------------------------------------------------------------------
  // Small facts about worlds

  lemma {:induction false} AgreeAll(a: World, b: World)
    requires AgreeUntil(a, b, None)
    ensures a == b
  {
    forall d ensures d in a.snaps <==> d in b.snaps ensures d in a.snaps ==> a.snaps[d] == b.snaps[d]
      ensures d in a.closes <==> d in b.closes ensures d in a.closes ==> a.closes[d] == b.closes[d]
    {
      assert Get(a.snaps, d) == Get(b.snaps, d) && Get(a.closes, d) == Get(b.closes, d);
    }
    assert a.snaps == b.snaps;
    assert a.closes == b.closes;
  }

  lemma {:induction false} CloseAt(bars: seq<Bar>, d: Date)
    requires Ordered(bars)
    ensures Get(Closes(bars), d) == CloseOn(Upto(bars, d), d)
  {
    var u := Upto(bars, d);
    if u != [] && u[|u| - 1].day == d {
      assert u[|u| - 1] in bars;
    }
  }

  lemma {:induction false} SourceAgrees(e: Setting, rows: Rows, was: seq<Bar>, bars: seq<Bar>, day: Date)
    requires Ordered(was) && Ordered(bars) && SameBefore(was, bars, day)
    ensures AgreeBefore(WorldOf(e, rows, was), WorldOf(e, rows, bars), day)
  {
    hide Closes, CloseOn, Upto, SameBefore;
    forall d | d < day ensures Get(Closes(was), d) == Get(Closes(bars), d) {
      SameBeforeEarlier(was, bars, d, day);
      CloseAt(was, d);
      CloseAt(bars, d);
    }
  }

  lemma {:induction false} SnapOf(e: Setting, rows: Rows, bars: seq<Bar>, d: Date)
    ensures var w := WorldOf(e, rows, bars);
            && (d in w.snaps <==> exists t :: (d, t) in rows)
            && (d in w.snaps ==> w.snaps[d] == e.project(RowsOn(rows, d)))
  {
    hide Closes;
    assert d in DaysOf(rows) <==> exists t :: (d, t) in rows by {
      if d in DaysOf(rows) {
        var k :| k in rows && k.0 == d;
        assert (d, k.1) in rows;
      }
      if t :| (d, t) in rows { assert (d, t).0 in DaysOf(rows); }
    }
  }

  /** Days whose rows were left alone look the same afterwards. */
  lemma {:induction false} SameSnap(e: Setting, a: Rows, b: Rows, x: seq<Bar>, y: seq<Bar>, d: Date)
    requires forall t :: Content(a, d, t) == Content(b, d, t)
    ensures Get(WorldOf(e, a, x).snaps, d) == Get(WorldOf(e, b, y).snaps, d)
  {
    SnapOf(e, a, x, d);
    SnapOf(e, b, y, d);
    hide WorldOf;
    forall t ensures (d, t) in a <==> (d, t) in b ensures (d, t) in a ==> a[(d, t)].variants == b[(d, t)].variants {
      assert Content(a, d, t) == Content(b, d, t);
    }
    assert RowsOn(a, d) == RowsOn(b, d);
  }

  // ---------------------------------------------------------------------------------------
  // Source and configuration writes

  lemma {:induction false} InitialIsTracked(e: Setting)
    ensures Tracked(e, INITIAL)
  {
    var w := WorldOf(e, map[], []);
    assert DaysOf(map[]) == {};
    assert w.snaps == map[];
    assert AllRows(w, NO_MEMO, []) == {};
    assert Represents(EMPTY_LOG, []);
    assert Tracks(e, INITIAL, w, [], []);
  }

  lemma {:induction false} SourceKeepsTracked(e: Setting, s: System, day: Date, newest: Date, bars: seq<Bar>)
    requires Tracked(e, s) && Ordered(s.bars) && Allowed(e, s, SourceWrite(day, newest, bars))
    ensures Tracked(e, Next(s, SourceWrite(day, newest, bars)))
  {
    hide WorldOf, Represents, DatesOf, Lists, SameBefore, Ordered;
    var seen, dates, history :| Tracks(e, s, seen, dates, history);
    SourceAgrees(e, s.rows, s.bars, bars, day);
    assert Tracks(e, Next(s, SourceWrite(day, newest, bars)), seen, dates, history);
  }

  lemma {:induction false} SameTables(e: Setting, s: System, next: System)
    requires Tracked(e, s) && next.rows == s.rows && next.bars == s.bars && next.log == s.log
    requires next.stream.dirtyFrom == s.stream.dirtyFrom && next.stream.stateThrough == s.stream.stateThrough
    ensures Tracked(e, next)
  {
    hide WorldOf, Represents, DatesOf, Lists;
    var seen, dates, history :| Tracks(e, s, seen, dates, history);
    assert Tracks(e, next, seen, dates, history);
  }

  // ---------------------------------------------------------------------------------------
  // Materializations: what recognition read is enough

  lemma {:induction false} ClipAt(w: World, lo: Option<Date>, hi: Date, d: Date)
    requires Between(d, lo, hi)
    ensures Get(Clip(w, lo, hi).snaps, d) == Get(w.snaps, d) && Get(Clip(w, lo, hi).closes, d) == Get(w.closes, d)
    ensures Pred(Clip(w, lo, hi), d) == Pred(w, d)
  {
    hide PreviousOpen;
  }

  /** The predecessor of a later day is not before a snapshot day. */
  lemma {:induction false} PredAfterSnapshot(w: World, first: Date, d: Date, q: Date)
    requires NoClosedSnapshots(w) && first in w.snaps && first < d && Pred(w, d) == Some(q)
    ensures first <= q < d
  {
    PreviousOpenIsProved(w.calendar, d, q);
    hide PreviousOpen;
    assert q < first ==> Get(w.calendar, first) == Some(Closed);
  }

  /** The predecessor of a later day is not before a recognized open day. */
  lemma {:induction false} PredFloor(w: World, first: Date, p: Date, d: Date, q: Date)
    requires Pred(w, first) == Some(p) && first <= d && Pred(w, d) == Some(q)
    ensures p <= q < d
  {
    PreviousOpenIsProved(w.calendar, first, p);
    PreviousOpenIsProved(w.calendar, d, q);
    hide PreviousOpen;
    assert q < first < d ==> Get(w.calendar, first) == Some(Closed);
  }

  /** The bounded queries of a rebuild return everything its recognition looks at. */
  lemma {:induction false} ClippedRowsAreFull(w: World, m: Memo, start: Option<Date>, latest: Date, dates: seq<Date>)
    requires WindowDates(w, start, latest, dates)
    requires Offered(Clip(w, ReadFrom(w, start, dates), latest), dates)
    requires start.Some? && dates != [] ==> Pred(w, dates[0]).Some? || NoClosedSnapshots(w)
    ensures Offered(w, dates)
    ensures AllRows(Clip(w, ReadFrom(w, start, dates), latest), m, dates) == AllRows(w, m, dates)
  {
    hide PreviousOpen, AllRows, MemoAfter, Clip, NoClosedSnapshots;
    var lo := ReadFrom(w, start, dates);
    var c := Clip(w, lo, latest);
    forall d | d in dates ensures SameAround(c, w, d) {
      ClippedAround(w, start, latest, dates, d);
    }
    SameRuns(c, w, m, dates);
  }

  lemma {:induction false} ClippedAround(w: World, start: Option<Date>, latest: Date, dates: seq<Date>, d: Date)
    requires WindowDates(w, start, latest, dates) && d in dates
    requires start.Some? ==> Pred(w, dates[0]).Some? || NoClosedSnapshots(w)
    ensures SameAround(Clip(w, ReadFrom(w, start, dates), latest), w, d)
  {
    hide PreviousOpen, Clip, NoClosedSnapshots;
    var lo := ReadFrom(w, start, dates);
    var k :| 0 <= k < |dates| && dates[k] == d;
    assert Between(d, start, latest) && dates[0] in dates;
    if SeedDate(w, start, dates).Some? {
      PreviousOpenIsProved(w.calendar, dates[0], lo.value);
    }
    ClipAt(w, lo, latest, d);
    ClipKeeps(w, lo, latest);
    if Pred(w, d).Some? {
      var q := Pred(w, d).value;
      PreviousOpenIsProved(w.calendar, d, q);
      if SeedDate(w, start, dates).Some? {
        PredFloor(w, dates[0], lo.value, d, q);
      } else if start.Some? {
        PredAfterSnapshot(w, dates[0], d, q);
      }
      ClipAt(w, lo, latest, q);
    }
  }

  lemma {:induction false} ClipKeeps(w: World, lo: Option<Date>, hi: Date)
    ensures Clip(w, lo, hi).calendar == w.calendar && Clip(w, lo, hi).rules == w.rules
  {
  }

  // ---------------------------------------------------------------------------------------
  // Full rebuilds

  ghost function Advance(s: System, task: Task, work: Work, log: Log): (r: System)
    requires PlanOf(s, task).Rebuild?
  {
    s.(stream := Advanced(s.stream, Effective(s, task), PlanOf(s, task).latest), rows := work.rows, log := log)
  }

  lemma {:induction false} DaysBounded(e: Setting, s: System, d: Date)
    requires Watermarks(s) && d in WorldOf(e, s.rows, s.bars).snaps
    ensures s.stream.stateThrough.Some? && d <= s.stream.stateThrough.value
  {
    SnapOf(e, s.rows, s.bars, d);
    hide WorldOf, Ordered;
    var t :| (d, t) in s.rows;
  }

  lemma {:induction false} FreshIsTracked(e: Setting, s: System, dates: seq<Date>, history: seq<Observation>)
    requires Watermarks(s) && DatesOf(WorldOf(e, s.rows, s.bars), dates) && Represents(s.log, history)
    requires Lists(history, AllRows(WorldOf(e, s.rows, s.bars), NO_MEMO, dates))
    ensures Tracked(e, s) && TimelineFresh(e, s)
  {
    hide Represents, Lists, WorldOf, Watermarks;
    forall d | d in dates ensures s.stream.stateThrough.Some? && d <= s.stream.stateThrough.value {
      DaysBounded(e, s, d);
    }
    assert Tracks(e, s, WorldOf(e, s.rows, s.bars), dates, history);
  }

  lemma {:induction false} WindowIsEverything(e: Setting, s: System, latest: Date, dates: seq<Date>)
    requires Watermarks(s) && s.stream.stateThrough == Some(latest)
    requires WindowDates(WorldOf(e, s.rows, s.bars), None, latest, dates)
    ensures DatesOf(WorldOf(e, s.rows, s.bars), dates)
  {
    hide WorldOf, Watermarks;
    var w := WorldOf(e, s.rows, s.bars);
    assert forall i :: 0 <= i < |dates| ==> dates[i] in dates;
    forall d | d in w.snaps ensures d in dates {
      DaysBounded(e, s, d);
    }
  }

  /** What a full rebuild recognizes is the whole history of its world. */
  lemma {:induction false} FullHistory(
    e: Setting, s: System, log: Log, latest: Date, dates: seq<Date>, obs: seq<Observation>)
    requires Watermarks(s) && s.stream.stateThrough == Some(latest)
    requires Recognized(WorldOf(e, s.rows, s.bars), log, None, latest, dates, obs)
    ensures DatesOf(WorldOf(e, s.rows, s.bars), dates) && forall i :: 0 <= i < |dates| ==> dates[i] <= latest
    ensures Distinct(obs) && forall o :: o in obs <==> o in AllRows(WorldOf(e, s.rows, s.bars), NO_MEMO, dates)
  {
    hide WorldOf, Watermarks, AllRows, Distinct, Clip;
    var w, start := WorldOf(e, s.rows, s.bars), Option<Date>.None;
    ClippedRowsAreFull(w, NO_MEMO, start, latest, dates);
    WindowIsEverything(e, s, latest, dates);
    assert forall i :: 0 <= i < |dates| ==> dates[i] in dates;
  }

  /** A full rebuild publishes the from-scratch timeline. */
  lemma {:induction false} FullIsTracked(
    e: Setting, s: System, log: Log, start: Option<Date>, latest: Date, revision: int, dates: seq<Date>,
    obs: seq<Observation>)
    requires Watermarks(s) && s.stream.stateThrough == Some(latest) && WellFormed(log) && start.None?
    requires Recognized(WorldOf(e, s.rows, s.bars), log, start, latest, dates, obs)
    requires Publish(log, obs, start, latest, revision).Accepted?
    requires s.log == Publish(log, obs, start, latest, revision).log
    ensures Tracked(e, s) && TimelineFresh(e, s)
  {
    hide WorldOf, Watermarks, WellFormed, Publish, AllRows, Distinct, Represents, Lists, Recognized, Sort;
    FullHistory(e, s, log, latest, dates, obs);
    FullRecognition(log, WorldOf(e, s.rows, s.bars), dates, obs, latest, revision);
    FreshIsTracked(e, s, dates, Sort(obs));
  }

  /** Replacing everything by nothing is right when there is no snapshot at all. */
  lemma {:induction false} EmptyIsTracked(e: Setting, s: System, log: Log, latest: Date, revision: int)
    requires Watermarks(s) && WellFormed(log) && (forall k :: k !in s.rows)
    requires Publish(log, [], None, latest, revision).Accepted?
    requires s.log == Publish(log, [], None, latest, revision).log
    ensures Tracked(e, s) && TimelineFresh(e, s)
  {
    var w := WorldOf(e, s.rows, s.bars);
    assert DaysOf(s.rows) == {};
    assert w.snaps == map[];
    NoDays(w, NO_MEMO);
    hide WorldOf, WellFormed, Publish, AllRows, Represents, Lists, Sort;
    FullRecognition(log, w, [], [], latest, revision);
    FreshIsTracked(e, s, [], Sort([]));
  }

  // ---------------------------------------------------------------------------------------
  // Partial rebuilds

  /** Splits ascending days at `start`. */
  lemma {:induction false} SplitDays(dates: seq<Date>, start: Date) returns (n: nat)
    requires StrictlyIncreasing(dates)
    ensures n <= |dates|
    ensures forall i :: 0 <= i < n ==> dates[i] < start
    ensures forall i :: n <= i < |dates| ==> start <= dates[i]
  {
    n := 0;
    while n < |dates| && dates[n] < start
      invariant n <= |dates|
      invariant forall i :: 0 <= i < n ==> dates[i] < start
    {
      n := n + 1;
    }
  }

  lemma {:induction false} RebuildAgrees(e: Setting, s: System, task: Task, work: Work, seen: World)
    requires Watermarks(s) && PlanOf(s, task).Rebuild? && PlanOf(s, task).start.Some? && Computed(e, s, task, work)
    requires AgreeUntil(seen, WorldOf(e, s.rows, s.bars), s.stream.dirtyFrom)
    ensures AgreeBefore(seen, WorldOf(e, work.rows, s.bars), PlanOf(s, task).start.value)
  {
    PlanFacts(s, task);
    hide PlanOf, Computed, Watermarks;
    var plan := PlanOf(s, task);
    var start := plan.start.value;
    var a, b := WorldOf(e, s.rows, s.bars), WorldOf(e, work.rows, s.bars);
    assert a.calendar == b.calendar && a.rules == b.rules && a.closes == b.closes;
    hide WorldOf;
    forall d | d < start ensures Get(a.snaps, d) == Get(b.snaps, d) {
      forall t ensures Content(s.rows, d, t) == Content(work.rows, d, t) {
        RowBeforeStart(e, s, task, work, d, t);
      }
      SameSnap(e, s.rows, work.rows, s.bars, s.bars, d);
    }
  }

  lemma {:induction false} RowBeforeStart(e: Setting, s: System, task: Task, work: Work, d: Date, t: IndicatorType)
    requires PlanOf(s, task).Rebuild? && PlanOf(s, task).start.Some? && Computed(e, s, task, work)
    requires d < PlanOf(s, task).start.value
    ensures Content(work.rows, d, t) == Content(s.rows, d, t)
  {
    hide PlanOf, Recognized, WorldOf, Effective, ContentAt, Content;
    var plan := PlanOf(s, task);
    assert RewrittenFrom(s.rows, work.rows, Effective(s, task), Upto(s.bars, plan.latest), plan.start, plan.latest,
                         e.root);
    assert Content(work.rows, d, t)
        == RewrittenContent(s.rows, Effective(s, task), Upto(s.bars, plan.latest), plan.start, plan.latest, e.root, d,
                            t);
  }

  lemma {:induction false} JoinDays(a: seq<Date>, b: seq<Date>, start: Date)
    requires StrictlyIncreasing(a) && StrictlyIncreasing(b)
    requires forall i :: 0 <= i < |a| ==> a[i] < start
    requires forall i :: 0 <= i < |b| ==> start <= b[i]
    ensures StrictlyIncreasing(a + b)
  {
  }

  /** The old and the new snapshot days, cut at the first rewritten day. */
  lemma {:induction false} DaysAreCut(
    e: Setting, s: System, seen: World, dates: seq<Date>, n: nat, start: Date, latest: Date, after: seq<Date>)
    requires Watermarks(s) && s.stream.stateThrough == Some(latest)
    requires DatesOf(seen, dates) && n <= |dates|
    requires forall i :: 0 <= i < n ==> dates[i] < start
    requires forall i :: n <= i < |dates| ==> start <= dates[i]
    requires AgreeBefore(seen, WorldOf(e, s.rows, s.bars), start)
    requires WindowDates(WorldOf(e, s.rows, s.bars), Some(start), latest, after)
    ensures CutAt(seen, WorldOf(e, s.rows, s.bars), dates[..n], dates[n..], after, start)
  {
    hide *;
    var w := WorldOf(e, s.rows, s.bars);
    HeadAndWindow(seen, w, dates, n, start, latest, after);
    forall d | d in w.snaps ensures d in dates[..n] + after {
      DaysBounded(e, s, d);
      DayIsListed(seen, w, dates, n, start, latest, after, d);
    }
    CutFrom(seen, w, dates, n, after, start);
  }

  /** The days before `start` are days of both worlds, and join the window. */
  lemma {:induction false} HeadAndWindow(
    seen: World, w: World, dates: seq<Date>, n: nat, start: Date, latest: Date, after: seq<Date>)
    requires DatesOf(seen, dates) && n <= |dates| && AgreeBefore(seen, w, start)
    requires forall i :: 0 <= i < n ==> dates[i] < start
    requires WindowDates(w, Some(start), latest, after)
    ensures Offered(w, dates[..n] + after) && Offered(w, dates[..n]) && Offered(w, after)
    ensures forall i :: 0 <= i < |after| ==> start <= after[i]
  {
    var before := dates[..n];
    assert forall i :: 0 <= i < |after| ==> after[i] in after;
    JoinDays(before, after, start);
    forall i | 0 <= i < |before| ensures before[i] in w.snaps {
      assert Get(seen.snaps, before[i]) == Get(w.snaps, before[i]);
    }
  }

  lemma {:induction false} CutFrom(seen: World, w: World, dates: seq<Date>, n: nat, after: seq<Date>, start: Date)
    requires DatesOf(seen, dates) && n <= |dates| && AgreeBefore(seen, w, start)
    requires forall i :: 0 <= i < n ==> dates[i] < start
    requires forall i :: n <= i < |dates| ==> start <= dates[i]
    requires Offered(w, dates[..n] + after) && Offered(w, dates[..n]) && Offered(w, after)
    requires forall i :: 0 <= i < |after| ==> start <= after[i]
    requires forall d :: d in w.snaps ==> d in dates[..n] + after
    ensures CutAt(seen, w, dates[..n], dates[n..], after, start)
  {
    hide AgreeBefore;
    assert dates[..n] + dates[n..] == dates;
  }

  lemma {:induction false} DayIsListed(
    seen: World, w: World, dates: seq<Date>, n: nat, start: Date, latest: Date, after: seq<Date>, d: Date)
    requires DatesOf(seen, dates) && n <= |dates| && AgreeBefore(seen, w, start)
    requires forall i :: n <= i < |dates| ==> start <= dates[i]
    requires WindowDates(w, Some(start), latest, after) && d in w.snaps && d <= latest
    ensures d in dates[..n] + after
  {
    if d < start {
      assert Get(seen.snaps, d) == Get(w.snaps, d);
      var i :| 0 <= i < |dates| && dates[i] == d;
      assert dates[..n][i] == d;
    }
  }

  lemma {:induction false} PartialIsTracked(
    e: Setting, s: System, log: Log, seen: World, days: seq<Date>, history: seq<Observation>,
    start: Date, latest: Date, revision: int, dates: seq<Date>, obs: seq<Observation>)
    requires Watermarks(s) && s.stream.stateThrough == Some(latest)
    requires DatesOf(seen, days) && Represents(log, history) && Lists(history, AllRows(seen, NO_MEMO, days))
    requires AgreeBefore(seen, WorldOf(e, s.rows, s.bars), start)
    requires Recognized(WorldOf(e, s.rows, s.bars), log, Some(start), latest, dates, obs) && dates != []
    requires NoClosedSnapshots(WorldOf(e, s.rows, s.bars)) && dates[0] in WorldOf(e, s.rows, s.bars).snaps
    requires SeedsSuffice(WorldOf(e, s.rows, s.bars), log, start, dates[0])
    requires Publish(log, obs, Some(start), latest, revision).Accepted?
    requires s.log == Publish(log, obs, Some(start), latest, revision).log
    ensures Tracked(e, s) && TimelineFresh(e, s)
  {
    hide WorldOf, Watermarks, Publish, AllRows, Represents, Lists, Sort, PreviousOpen, AgreeBefore,
         NoClosedSnapshots, SeedAt, ObsBefore, DatesOf, CutAt, SeedsSuffice, SeedOf, Recognized, RestartedRows;
    var w := WorldOf(e, s.rows, s.bars);
    DatesAscend(seen, days);
    var n := SplitDays(days, start);
    WindowOf(w, log, Some(start), latest, dates, obs);
    DaysAreCut(e, s, seen, days, n, start, latest, dates);
    var before, rest := days[..n], days[n..];
    assert before + rest == days;
    WindowIsRestarted(w, log, start, latest, dates, obs);
    IncrementalRebuild(log, history, seen, w, before, rest, dates, obs, start, latest, revision);
    CutCovers(seen, w, before, rest, dates, start);
    FreshIsTracked(e, s, before + dates, ObsBefore(history, start) + Sort(obs));
  }

  lemma {:induction false} WindowOf(
    w: World, log: Log, start: Option<Date>, latest: Date, dates: seq<Date>, obs: seq<Observation>)
    requires Recognized(w, log, start, latest, dates, obs)
    ensures WindowDates(w, start, latest, dates)
    ensures dates != [] ==> dates[|dates| - 1] <= latest && dates[0] in w.snaps
  {
    hide AllRows, Clip, Distinct;
    assert dates != [] ==> dates[|dates| - 1] in dates && dates[0] in dates;
  }

  /** The recognized window is a restart from the seeds of its first day. */
  lemma {:induction false} WindowIsRestarted(
    w: World, log: Log, start: Date, latest: Date, dates: seq<Date>, obs: seq<Observation>)
    requires Recognized(w, log, Some(start), latest, dates, obs) && dates != [] && NoClosedSnapshots(w)
    ensures RestartedRows(w, SeedOf(w, log, dates[0]), dates, obs)
  {
    hide AllRows, Clip, Distinct, PreviousOpen, NoClosedSnapshots, SeedAt;
    assert SeedFor(w, log, Some(start), dates) == SeedOf(w, log, dates[0]);
    ClippedRowsAreFull(w, SeedOf(w, log, dates[0]), Some(start), latest, dates);
  }

  lemma {:induction false} DatesAscend(w: World, dates: seq<Date>)
    requires DatesOf(w, dates)
    ensures StrictlyIncreasing(dates)
  {
  }

  lemma {:induction false} CutCovers(
    prior: World, w: World, before: seq<Date>, oldAfter: seq<Date>, after: seq<Date>, start: Date)
    requires CutAt(prior, w, before, oldAfter, after, start)
    ensures DatesOf(w, before + after)
  {
  }

  // ---------------------------------------------------------------------------------------
  // Every step

  /** A row anywhere means a row on the latest bar day, so `start <= latest` rules out an empty
      replacement of a non-empty table. */
  lemma {:induction false} NothingWrittenMeansNoRows(e: Setting, s: System, task: Task, work: Work, k: Key)
    requires Sound(e, s) && AllCanonical(task.requests) && PlanOf(s, task).Rebuild? && Computed(e, s, task, work)
    requires PlanOf(s, task).start.Some? ==> PlanOf(s, task).start.value <= PlanOf(s, task).latest
    requires k in work.rows
    ensures AnyWritten(work.rows, PlanOf(s, task).start, PlanOf(s, task).latest)
  {
    hide *;
    var plan := PlanOf(s, task);
    SoundParts(e, s);
    SoundBars(e, s);
    PlanFacts(s, task);
    RowsReach(e, s, task, work, k);
    RebuiltRowIsFresh(e, s, task, work, k.0, k.1);
    RebuiltRowIsFresh(e, s, task, work, plan.latest, k.1);
    ContentIn(work.rows, k.0, k.1);
    ContentIn(work.rows, plan.latest, k.1);
    RowOnLatest(Effective(s, task), s.bars, k.0, k.1, plan.latest, e.root);
    WrittenAt(work.rows, plan.start, plan.latest, k.1);
  }

  lemma {:induction false} WrittenAt(rows: Rows, start: Option<Date>, latest: Date, t: IndicatorType)
    requires (latest, t) in rows && (start.Some? ==> start.value <= latest)
    ensures AnyWritten(rows, start, latest)
  {
    assert Rewritten((latest, t).0, start, latest);
  }

  lemma {:induction false} ContentIn(rows: Rows, d: Date, t: IndicatorType)
    ensures Content(rows, d, t).Some? <==> (d, t) in rows
  {
  }

  lemma {:induction false} RowsReach(e: Setting, s: System, task: Task, work: Work, k: Key)
    requires Sound(e, s) && AllCanonical(task.requests) && PlanOf(s, task).Rebuild? && Computed(e, s, task, work)
    requires k in work.rows
    ensures k.0 <= PlanOf(s, task).latest && AllCanonical(Effective(s, task))
  {
    hide PlanOf, Computed, Sound, Effective, Canonical;
    SoundParts(e, s);
    AdvanceKeepsWatermarks(e, s, task, work, s.log);
    AdvanceKeepsDemand(s, task, PlanOf(s, task).latest, work.rows, s.log);
    RowsBounded(Advance(s, task, work, s.log), k);
  }

  lemma {:induction false} RowOnLatest(
    requests: set<Request>, bars: seq<Bar>, d: Date, t: IndicatorType, latest: Date, root: Root)
    requires Ordered(bars) && AllCanonical(requests) && ContentAt(requests, bars, d, t, root).Some?
    requires d <= latest && exists b :: b in bars && b.day == latest
    ensures ContentAt(requests, bars, latest, t, root).Some?
  {
    hide ContentAt, Ordered, Canonical;
    var b :| b in bars && b.day == latest;
    var i :| 0 <= i < |bars| && bars[i] == b;
    RowsPersist(requests, bars, d, i, t, root);
  }

  lemma {:induction false} RowsBounded(s: System, k: Key)
    requires Watermarks(s) && k in s.rows
    ensures s.stream.stateThrough.Some? && k.0 <= s.stream.stateThrough.value
  {
  }

  lemma {:induction false} AdvanceThrough(s: System, task: Task, work: Work, log: Log)
    requires PlanOf(s, task).Rebuild?
    ensures var next := Advance(s, task, work, log);
            && next.stream.stateThrough == Some(PlanOf(s, task).latest) && next.bars == s.bars
            && next.rows == work.rows && next.log == log
  {
    hide PlanOf, Effective;
  }

  lemma {:induction false} FullStepIsTracked(e: Setting, s: System, task: Task, work: Work)
    requires Sound(e, s) && WellFormed(s.log) && Allowed(e, s, Materialize(task, work))
    requires PlanOf(s, task).Rebuild? && PlanOf(s, task).start.None?
    requires PublishedLog(s, None, PlanOf(s, task).latest, work).Accepted?
    ensures var next := Advance(s, task, work, PublishedLog(s, None, PlanOf(s, task).latest, work).log);
            Tracked(e, next) && TimelineFresh(e, next)
  {
    hide PlanOf, Sound, WellFormed, Recognized, RowsRebuilt, Publish, WorldOf, Tracked, TimelineFresh, Canonical,
         Advance;
    var latest := PlanOf(s, task).latest;
    var p := PublishedLog(s, None, latest, work);
    var next := Advance(s, task, work, p.log);
    SoundParts(e, s);
    AdvanceKeepsWatermarks(e, s, task, work, p.log);
    AdvanceThrough(s, task, work, p.log);
    AdvanceUnfolds(s, task, work, p.log);
    if AnyWritten(work.rows, None, latest) {
      FullIsTracked(e, next, s.log, None, latest, s.stream.sourceRevision, work.dates, work.obs);
    } else {
      forall k ensures k !in work.rows {
        if k in work.rows { NothingWrittenMeansNoRows(e, s, task, work, k); }
      }
      EmptyIsTracked(e, next, s.log, latest, s.stream.sourceRevision);
    }
  }

  lemma {:induction false} AdvanceUnfolds(s: System, task: Task, work: Work, log: Log)
    requires PlanOf(s, task).Rebuild?
    ensures Advance(s, task, work, log)
         == s.(stream := Advanced(s.stream, Effective(s, task), PlanOf(s, task).latest), rows := work.rows, log := log)
  {
  }

  lemma {:induction false} PartialStepIsTracked(e: Setting, s: System, task: Task, work: Work)
    requires Sound(e, s) && Tracked(e, s) && Allowed(e, s, Materialize(task, work)) && Restartable(e, s, task, work)
    requires PlanOf(s, task).Rebuild? && PlanOf(s, task).start.Some?
    requires PublishedLog(s, PlanOf(s, task).start, PlanOf(s, task).latest, work).Accepted?
    ensures var next := Advance(s, task, work,
                                PublishedLog(s, PlanOf(s, task).start, PlanOf(s, task).latest, work).log);
            Tracked(e, next) && TimelineFresh(e, next)
  {
    hide PlanOf, Sound, WellFormed, Recognized, RowsRebuilt, Publish, WorldOf, Canonical, Advance, AgreeUntil, Lists,
         DatesOf, NoClosedSnapshots, PreviousOpen, Represents, SeedsSuffice, TimelineFresh;
    var start, latest := PlanOf(s, task).start, PlanOf(s, task).latest;
    var p := PublishedLog(s, start, latest, work);
    var next := Advance(s, task, work, p.log);
    var seen, days, history :| Tracks(e, s, seen, days, history);
    SoundParts(e, s);
    PlanFacts(s, task);
    AdvanceKeepsWatermarks(e, s, task, work, p.log);
    AdvanceThrough(s, task, work, p.log);
    AdvanceUnfolds(s, task, work, p.log);
    RepresentsWell(s.log, history);
    if AnyWritten(work.rows, start, latest) {
      RebuildAgrees(e, s, task, work, seen);
      WrittenDays(e, s, work, start, latest);
      WindowOf(WorldOf(e, work.rows, s.bars), s.log, start, latest, work.dates, work.obs);
      PartialIsTracked(e, next, s.log, seen, days, history, start.value, latest, s.stream.sourceRevision, work.dates,
                       work.obs);
    } else {
      forall k ensures k !in work.rows {
        if k in work.rows { NothingWrittenMeansNoRows(e, s, task, work, k); }
      }
      EmptyIsTracked(e, next, s.log, latest, s.stream.sourceRevision);
    }
  }

  lemma {:induction false} WrittenDays(e: Setting, s: System, work: Work, start: Option<Date>, latest: Date)
    requires AnyWritten(work.rows, start, latest)
    requires Recognized(WorldOf(e, work.rows, s.bars), s.log, start, latest, work.dates, work.obs)
    ensures work.dates != []
  {
    hide AllRows, WorldOf, Clip, Distinct;
    var k :| k in work.rows && Rewritten(k.0, start, latest);
    SnapOf(e, work.rows, s.bars, k.0);
    assert (k.0, k.1) in work.rows;
    assert k.0 in work.dates;
  }

  lemma {:induction false} MaterializeKeepsTracked(e: Setting, s: System, task: Task, work: Work)
    requires Sound(e, s) && Tracked(e, s) && Allowed(e, s, Materialize(task, work)) && Restartable(e, s, task, work)
    ensures Tracked(e, Next(s, Materialize(task, work)))
  {
    hide PlanOf, Sound, Allowed, Restartable, PublishedLog, Tracked, Advance;
    if PlanOf(s, task).UpToDate? {
      SameTables(e, s, Next(s, Materialize(task, work)));
    } else if PlanOf(s, task).Rebuild? {
      var plan := PlanOf(s, task);
      var p := PublishedLog(s, plan.start, plan.latest, work);
      if p.Accepted? {
        AdvanceUnfolds(s, task, work, p.log);
        if plan.start.None? {
          TrackedWell(e, s);
          FullStepIsTracked(e, s, task, work);
        } else {
          PartialStepIsTracked(e, s, task, work);
        }
      }
    }
  }

  lemma {:induction false} TrackedWell(e: Setting, s: System)
    requires Tracked(e, s)
    ensures WellFormed(s.log)
  {
  }

  // ---------------------------------------------------------------------------------------
  // Every run

  /** A run whose partial materializations can all restart soundly. */
  ghost predicate RestartableRun(e: Setting, s: System, steps: seq<Step>) {
    steps == [] ||
    (var init, step := steps[..|steps| - 1], steps[|steps| - 1];
     && RestartableRun(e, s, init)
     && (step.Materialize? ==> Restartable(e, After(s, init), step.task, step.work)))
  }

  lemma {:induction false} RunKeepsTracked(e: Setting, steps: seq<Step>)
    requires AllowedRun(e, INITIAL, steps) && RestartableRun(e, INITIAL, steps)
    ensures Tracked(e, After(INITIAL, steps))
  {
    InitialIsTracked(e);
    if steps != [] {
      var init, step := steps[..|steps| - 1], steps[|steps| - 1];
      RunKeepsTracked(e, init);
      RunKeepsSound(e, init);
      hide Tracked, Allowed, Sound, Restartable;
      var s := After(INITIAL, init);
      match step
      case SourceWrite(day, newest, bars) =>
        SoundBars(e, s);
        SourceKeepsTracked(e, s, day, newest, bars);
      case ConfigWrite(configured) => SameTables(e, s, Next(s, step));
      case Materialize(task, work) => MaterializeKeepsTracked(e, s, task, work);
    }
  }

  /** Every interleaving whose partial rebuilds start at or before the latest bar, with sufficient seeds
      and over open days only: a clean stream's log holds exactly the timeline that
      recognition of all present snapshots from scratch would publish. */
  lemma {:induction false} CleanTimelineIsFresh(e: Setting, steps: seq<Step>)
    requires AllowedRun(e, INITIAL, steps) && RestartableRun(e, INITIAL, steps)
    requires After(INITIAL, steps).stream.dirtyFrom.None?
    ensures TimelineFresh(e, After(INITIAL, steps))
  {
    RunKeepsTracked(e, steps);
    var s := After(INITIAL, steps);
    hide After, AllowedRun, RestartableRun, WorldOf, Represents, DatesOf, Lists, AgreeUntil;
    var seen, dates, history :| Tracks(e, s, seen, dates, history);
    AgreeAll(seen, WorldOf(e, s.rows, s.bars));
  }

  // ---------------------------------------------------------------------------------------
  // The edge: a dirty date after the capped latest bar

  lemma {:induction false} HistoryLeavesEvents(history: seq<Observation>)
    requires history != []
    ensures FoldChanges(map[], history) != []
  {
    var init, o := history[..|history| - 1], history[|history| - 1];
    if init != [] {
      HistoryLeavesEvents(init);
    } else {
      assert FoldFacts(map[], init) == map[];
      assert ChangeOf(None, o) != [];
    }
  }

  lemma {:induction false} EmptyHistory(log: Log, history: seq<Observation>)
    requires Represents(log, history)
    ensures ValidChanges(log.events) == [] <==> history == []
  {
    if history != [] {
      HistoryLeavesEvents(history);
    }
  }

  lemma {:induction false} EmptyFull(log: Log, latest: Date, revision: int)
    requires WellFormed(log) && Publish(log, [], None, latest, revision).Accepted?
    ensures Represents(Publish(log, [], None, latest, revision).log, [])
  {
    hide Publish, WellFormed, Represents;
    FullRebuild(log, [], latest, revision);
    assert Sort([]) == [];
  }

  /** A partial materialization whose start lies after the latest bar leaves every snapshot and wipes
      the timeline: the result is right exactly when the timeline was empty already. */
  lemma {:induction false} EmptyReplacementWipes(e: Setting, s: System, task: Task, work: Work)
    requires Sound(e, s) && Tracked(e, s) && Allowed(e, s, Materialize(task, work))
    requires var plan := PlanOf(s, task);
             && plan.Rebuild? && plan.start.Some? && plan.latest < plan.start.value
             && PublishedLog(s, plan.start, plan.latest, work).Accepted?
    ensures var next := Next(s, Materialize(task, work));
            && (forall d, t :: Content(next.rows, d, t) == Content(s.rows, d, t))
            && ValidChanges(next.log.events) == []
            && (TimelineFresh(e, next) <==> ValidChanges(s.log.events) == [])
  {
    hide PlanOf, Sound, Allowed, PublishedLog, WorldOf, AgreeUntil, Lists, DatesOf, Represents, ValidChanges, Content,
         Next, TimelineFresh;
    var next := Next(s, Materialize(task, work));
    var seen, days, history :| Tracks(e, s, seen, days, history);
    WipedLog(e, s, task, work, history);
    WipedWorld(e, s, task, work, seen, days, history);
    EmptyHistory(next.log, []);
    EmptyHistory(s.log, history);
    FreshWhenEmpty(e, next, days, history);
    forall d, t ensures Content(next.rows, d, t) == Content(s.rows, d, t) {
      NothingRewritten(e, s, task, work, d, t) by { AllowedComputed(e, s, task, work); }
    }
  }

  lemma {:induction false} AllowedComputed(e: Setting, s: System, task: Task, work: Work)
    requires Allowed(e, s, Materialize(task, work))
    ensures Computed(e, s, task, work) && AllCanonical(task.requests)
  {
  }

  lemma {:induction false} WipedLog(e: Setting, s: System, task: Task, work: Work, history: seq<Observation>)
    requires Allowed(e, s, Materialize(task, work)) && Represents(s.log, history)
    requires var plan := PlanOf(s, task);
             && plan.Rebuild? && plan.start.Some? && plan.latest < plan.start.value
             && PublishedLog(s, plan.start, plan.latest, work).Accepted?
    ensures var next := Next(s, Materialize(task, work));
            next.rows == work.rows && next.bars == s.bars && Represents(next.log, [])
  {
    hide PlanOf, WellFormed, Recognized, RowsRebuilt, Publish, WorldOf, Represents, Effective, Canonical;
    var plan := PlanOf(s, task);
    assert !AnyWritten(work.rows, plan.start, plan.latest);
    RepresentsWell(s.log, history);
    EmptyFull(s.log, plan.latest, s.stream.sourceRevision);
  }

  lemma {:induction false} WipedWorld(
    e: Setting, s: System, task: Task, work: Work, seen: World, days: seq<Date>, history: seq<Observation>)
    requires Sound(e, s) && Tracks(e, s, seen, days, history) && Allowed(e, s, Materialize(task, work))
    requires var plan := PlanOf(s, task); plan.Rebuild? && plan.start.Some? && plan.latest < plan.start.value
    ensures var w := WorldOf(e, work.rows, s.bars); DatesOf(w, days) && Lists(history, AllRows(w, NO_MEMO, days))
  {
    hide PlanOf, Sound, Allowed, WorldOf, AgreeUntil, Lists, DatesOf, Represents, Watermarks, Computed, Effective;
    var plan := PlanOf(s, task);
    SoundParts(e, s);
    AllowedComputed(e, s, task, work);
    PlanFacts(s, task);
    RebuildAgrees(e, s, task, work, seen);
    AdvanceKeepsWatermarks(e, s, task, work, s.log);
    var next := Advance(s, task, work, s.log);
    AdvanceThrough(s, task, work, s.log);
    forall d | d in WorldOf(e, work.rows, s.bars).snaps ensures d < plan.start.value {
      DaysBounded(e, next, d);
    }
    WipedIsFresh(seen, WorldOf(e, work.rows, s.bars), days, history, plan.start.value);
  }

  lemma {:induction false} FreshWhenEmpty(e: Setting, s: System, days: seq<Date>, history: seq<Observation>)
    requires Represents(s.log, [])
    requires DatesOf(WorldOf(e, s.rows, s.bars), days)
    requires Lists(history, AllRows(WorldOf(e, s.rows, s.bars), NO_MEMO, days))
    ensures TimelineFresh(e, s) <==> history == []
  {
    hide WorldOf, Represents, AllRows;
    var w := WorldOf(e, s.rows, s.bars);
    assert history == [] || history[0] in history;
    if TimelineFresh(e, s) {
      var dates, h :| DatesOf(w, dates) && Represents(s.log, h) && Lists(h, AllRows(w, NO_MEMO, dates));
      EmptyHistory(s.log, h);
      EmptyHistory(s.log, []);
      SameDates(w, days, dates);
    }
  }

  lemma {:induction false} SameDates(w: World, a: seq<Date>, b: seq<Date>)
    requires DatesOf(w, a) && DatesOf(w, b)
    ensures a == b
  {
    forall d ensures d in a <==> d in w.snaps { InDates(w, a, d); }
    forall d ensures d in b <==> d in w.snaps { InDates(w, b, d); }
    hide DatesOf, Offered;
    assert StrictlyIncreasing(a) && StrictlyIncreasing(b) by { DatesAscend(w, a); DatesAscend(w, b); }
    SameAscending(a, b);
  }

  lemma {:induction false} InDates(w: World, dates: seq<Date>, d: Date)
    requires DatesOf(w, dates)
    ensures d in dates <==> d in w.snaps
  {
    if d in dates {
      var i :| 0 <= i < |dates| && dates[i] == d;
    }
  }

  lemma {:induction false} SameAscending(a: seq<Date>, b: seq<Date>)
    requires StrictlyIncreasing(a) && StrictlyIncreasing(b)
    requires forall d :: d in a <==> d in b
    ensures a == b
  {
    hide StrictlyIncreasing;
    if b != [] {
      NonEmpty(b, a);
    }
    if a != [] {
      NonEmpty(a, b);
      var x, y := a[|a| - 1], b[|b| - 1];
      LastIsGreatest(a, y);
      LastIsGreatest(b, x);
      var p, q := a[..|a| - 1], b[..|b| - 1];
      forall d ensures d in p <==> d in q {
        InInit(a, d);
        InInit(b, d);
      }
      SameAscending(p, q);
      assert a == p + [x] && b == q + [y];
    }
  }

  lemma {:induction false} NonEmpty(a: seq<Date>, b: seq<Date>)
    requires a != [] && forall d :: d in a ==> d in b
    ensures b != []
  {
    var d := a[0];
    assert d in a;
    assert d in b;
  }

  lemma {:induction false} LastIsGreatest(a: seq<Date>, d: Date)
    requires StrictlyIncreasing(a) && a != []
    ensures a[|a| - 1] in a && StrictlyIncreasing(a[..|a| - 1])
    ensures d in a ==> d <= a[|a| - 1]
  {
    if d in a {
      var i :| 0 <= i < |a| && a[i] == d;
    }
  }

  lemma {:induction false} InInit(a: seq<Date>, d: Date)
    requires StrictlyIncreasing(a) && a != []
    ensures d in a[..|a| - 1] <==> d in a && d != a[|a| - 1]
  {
    if d in a && d != a[|a| - 1] {
      var i :| 0 <= i < |a| && a[i] == d;
      assert a[..|a| - 1][i] == d;
    }
  }

  lemma {:induction false} WipedIsFresh(seen: World, w: World, days: seq<Date>, history: seq<Observation>, start: Date)
    requires DatesOf(seen, days) && Lists(history, AllRows(seen, NO_MEMO, days)) && AgreeBefore(seen, w, start)
    requires forall d :: d in days ==> d < start
    requires forall d :: d in w.snaps ==> d < start
    ensures DatesOf(w, days) && Lists(history, AllRows(w, NO_MEMO, days))
  {
    hide AllRows, Lists;
    assert forall i :: 0 <= i < |days| ==> days[i] in days;
    AgreeRuns(seen, w, start, days);
    forall d | d in w.snaps ensures d in days {
      assert Get(seen.snaps, d) == Get(w.snaps, d);
    }
  }

  lemma {:induction false} NothingRewritten(e: Setting, s: System, task: Task, work: Work, d: Date, t: IndicatorType)
    requires PlanOf(s, task).Rebuild? && PlanOf(s, task).start.Some? && Computed(e, s, task, work)
    requires PlanOf(s, task).latest < PlanOf(s, task).start.value
    ensures Content(work.rows, d, t) == Content(s.rows, d, t)
  {
    hide PlanOf, Recognized, WorldOf, Effective, ContentAt, Content;
    var plan := PlanOf(s, task);
    assert RewrittenFrom(s.rows, work.rows, Effective(s, task), Upto(s.bars, plan.latest), plan.start, plan.latest,
                         e.root);
    assert Content(work.rows, d, t)
        == RewrittenContent(s.rows, Effective(s, task), Upto(s.bars, plan.latest), plan.start, plan.latest, e.root, d,
                            t);
  }
}
