/** The analysis service object: one transaction publishes snapshots, timeline and watermarks. */
module AnalysisService {
  import opened Common
  import opened States
  import opened Timeline
  import opened EventLog
  import opened Averages
  import opened Requests
  import opened Snapshots
  import opened Publication
  import Calendar
  import Recognition
  import Restart
  import SnapshotService
  import StateRepository
  import StateService

  /** The days of a set in ascending order. */
  method SortedDays(s: set<Date>) returns (r: seq<Date>)
    ensures Calendar.StrictlyIncreasing(r)
    ensures forall d :: d in r <==> d in s
  {
    r := [];
    var rest := s;
    while rest != {}
      invariant rest <= s && Calendar.StrictlyIncreasing(r)
      invariant forall i, d :: 0 <= i < |r| && d in rest ==> d < r[i]
      invariant forall d :: d in r <==> d in s && d !in rest
      decreases |rest|
    {
      var m := Longest(rest);
      rest := rest - {m};
      r := [m] + r;
    }
  }

  /** The distinct requests of a merged set, in some order. */
  method ListRequests(s: set<Request>) returns (r: seq<Request>)
    ensures SnapshotService.SetOf(r) == s
    ensures forall i, j :: 0 <= i < j < |r| ==> r[i] != r[j]
  {
    r := [];
    var rest := s;
    while rest != {}
      invariant rest <= s && (forall i, j :: 0 <= i < j < |r| ==> r[i] != r[j])
      invariant forall q :: q in r <==> q in s && q !in rest
      decreases |rest|
    {
      ghost var known := Member(rest);
      var q :| q in rest;
      rest := rest - {q};
      r := r + [q];
    }
    assert SnapshotService.SetOf(r) == s;
  }

  lemma {:induction false} NoSeeds()
    ensures Restart.SeedMemo(map[], 0) == Recognition.NO_MEMO
  {
  }

  /** Reads the window, its proven predecessor and the anchors, and recognizes every day of the window. */
  method RebuildStates(
    e: Setting, calendar: seq<Calendar.Row>, rows: Rows, bars: seq<Bar>, log: Log, start: Option<Date>, latest: Date)
    returns (dates: seq<Date>, obs: seq<Observation>)
    requires Calendar.Ascending(calendar) && Calendar.AsTable(calendar) == e.calendar
    ensures Recognized(WorldOf(e, rows, bars), log, start, latest, dates, obs)
  {
    hide Recognition.AllRows, WorldOf, Calendar.AsTable, SeedAt, Distinct, Calendar.PreviousOpen, Restart.SeedMemo;
    var w := WorldOf(e, rows, bars);
    assert w.calendar == e.calendar by { WorldCalendar(e, rows, bars); }
    dates := SortedDays(set d | d in w.snaps && Between(d, start, latest));
    var p: Option<Date> := None;
    if start.Some? && dates != [] {
      var first := dates[0];
      var targets := [first];
      assert first in targets;
      var previous := Calendar.PreviousOpenDates(calendar, targets);
      p := previous[first];
    }
    var lo := if p.Some? then p else start;
    var c := Clip(w, lo, latest);
    assert p == SeedDate(w, start, dates) && lo == ReadFrom(w, start, dates);
    forall i | 0 <= i < |dates| ensures dates[i] in c.snaps {
      WindowInClip(w, start, latest, dates, i);
    }
    if p.Some? {
      obs := StateService.Recognize(c, calendar, dates, SeedAt(log.events, p.value), p.value);
    } else {
      NoSeeds();
      obs := StateService.Recognize(c, calendar, dates, map[], 0);
    }
  }

  lemma {:induction false} WorldCalendar(e: Setting, rows: Rows, bars: seq<Bar>)
    ensures WorldOf(e, rows, bars).calendar == e.calendar
  {
  }

  class AnalysisStream {
    var sourceRevision: nat
    var demandGeneration: nat
    var publishedRevision: int
    var publishedDemandGeneration: int
    var demandKey: Option<set<Request>>
    var dirtyFrom: Option<Date>
    var latestBar: Option<Date>
    var indicatorThrough: Option<Date>
    var stateThrough: Option<Date>
    var bars: seq<Bar>
    var configured: set<Request>
    const snapshots: SnapshotService.SnapshotRepository
    const states: StateRepository.StateEventRepository

    ghost function View(): (s: System)
      reads this, snapshots, states
    {
      System(
        StreamRow(sourceRevision, demandGeneration, publishedRevision, publishedDemandGeneration,
                  demandKey, dirtyFrom, latestBar, indicatorThrough, stateThrough),
        bars, configured, snapshots.rows, states.View())
    }

    constructor ()
      ensures View() == INITIAL && fresh(snapshots) && fresh(states)
    {
      sourceRevision, demandGeneration, publishedRevision, publishedDemandGeneration := 0, 0, -1, -1;
      demandKey, dirtyFrom, latestBar, indicatorThrough, stateThrough := None, None, None, None, None;
      bars, configured := [], {};
      snapshots := new SnapshotService.SnapshotRepository();
      states := new StateRepository.StateEventRepository();
    }

    /** A configuration write advances the demand in its own transaction. */
    method MarkDemandChanged(next: set<Request>)
      modifies this
      ensures View() == Next(old(View()), ConfigWrite(next))
    {
      configured := next;
      demandGeneration := demandGeneration + 1;
    }

    /** A source write records the earliest changed day with the changed bars. */
    method InvalidateChanged(day: Date, newest: Date, next: seq<Bar>)
      modifies this
      ensures View() == Next(old(View()), SourceWrite(day, newest, next))
    {
      bars := next;
      sourceRevision := sourceRevision + 1;
      if dirtyFrom.None? || day < dirtyFrom.value {
        dirtyFrom := Some(day);
      }
      if latestBar.None? || latestBar.value < newest {
        latestBar := Some(newest);
      }
    }

    /** Decides between refusal, no-op, partial and full rebuild, and publishes the rebuild. */
    method Materialize(e: Setting, calendar: seq<Calendar.Row>, task: Task)
      returns (done: bool, ghost work: Work)
      requires Calendar.Ascending(calendar) && Calendar.AsTable(calendar) == e.calendar
      requires Ordered(bars) && AllCanonical(task.requests) && AllCanonical(configured)
      modifies this, snapshots, states
      ensures Computed(e, old(View()), task, work)
      ensures View() == Materialized(old(View()), task, work)
      ensures var was, plan := old(View()), PlanOf(old(View()), task);
              done <==> plan.UpToDate? || (plan.Rebuild? && PublishedLog(was, plan.start, plan.latest, work).Accepted?)
    {
      hide Calendar.AsTable, Calendar.Ascending, Canonical, WorldOf, Recognized, DEFAULTS, EventLog.Publish,
           RewrittenFrom, Ordered;
      ghost var was := View();
      work := Work(map[], [], []);
      var known := Capped(bars, task.end);
      if known == [] {
        return false, work;
      }
      var first, latest := known[0].day, known[|known| - 1].day;
      if stateThrough.Some? && latest < stateThrough.value {
        return false, work;
      }
      var effective := Merge(task.requests + configured);
      var rebuild := task.force || demandKey != Some(effective) || publishedRevision < 0;
      var start: Option<Date> := None;
      if !rebuild {
        start := dirtyFrom;
      }
      if !rebuild && start.None? {
        var through := Min(OrElse(indicatorThrough, first), OrElse(stateThrough, first));
        if latest <= through && publishedRevision == sourceRevision {
          publishedDemandGeneration := demandGeneration;
          return true, work;
        }
        start := Some(FirstAfter(known, through));
      }
      assert PlanOf(was, task) == Rebuild(start, latest) && Effective(was, task) == effective;
      MergeIsCanonical(task.requests + configured);
      done, work := PublishRebuild(e, calendar, effective, start, latest);
      ComputedFrom(e, was, task, work, start, latest);
      MaterializedFrom(was, task, work, start, latest);
    }

    /** The rebuild transaction: snapshots, then states, then the watermarks; rolled back when the
        state repository refuses the target. */
    method PublishRebuild(
      e: Setting, calendar: seq<Calendar.Row>, effective: set<Request>, start: Option<Date>, latest: Date)
      returns (done: bool, ghost work: Work)
      requires Calendar.Ascending(calendar) && Calendar.AsTable(calendar) == e.calendar
      requires Ordered(bars) && (exists b :: b in bars && b.day == latest) && AllCanonical(effective)
      modifies this, snapshots, states
      ensures WorkFor(e, old(View()), effective, start, latest, work)
      ensures View() == Committed(old(View()), effective, start, latest, work)
      ensures done <==> PublishedLog(old(View()), start, latest, work).Accepted?
    {
      hide Calendar.AsTable, Calendar.Ascending, Canonical, WorldOf, Recognized, DEFAULTS, EventLog.Publish,
           RowsRebuilt, Ordered, AnyWritten, Advanced;
      ghost var was := View();
      var saved := snapshots.rows;
      var any := RebuildSnapshots(effective, start, latest, e.root);
      var dates: seq<Date>, obs: seq<Observation> := [], [];
      var stateStart: Option<Date> := None;
      if any {
        stateStart := if stateThrough.None? then None else start;
        dates, obs := RebuildStates(e, calendar, snapshots.rows, bars,
                                    Log(states.events, states.current, states.sequence, states.generation),
                                    stateStart, latest);
      }
      work := Work(snapshots.rows, dates, obs);
      var count := states.Publish(obs, stateStart, latest, sourceRevision);
      if count.None? {
        snapshots.rows := saved;
        return false, work;
      }
      AdvanceWatermarks(effective, latest);
      return true, work;
    }

    /** Rewrites the snapshot rows of the window; tells whether it wrote any. */
    method RebuildSnapshots(effective: set<Request>, start: Option<Date>, latest: Date, root: Root) returns (any: bool)
      requires Ordered(bars) && (exists b :: b in bars && b.day == latest) && AllCanonical(effective)
      modifies snapshots
      ensures View() == old(View()).(rows := snapshots.rows)
      ensures RowsRebuilt(old(View()), effective, start, latest, snapshots.rows, root)
      ensures any == AnyWritten(snapshots.rows, start, latest)
    {
      hide Canonical, DEFAULTS, RewrittenFrom, Rewritten;
      var order := ListRequests(effective);
      var history := Upto(bars, latest);
      UptoOrdered(bars, latest);
      assert forall r :: r in order ==> r in SnapshotService.SetOf(order);
      assert history != [] by {
        var b :| b in bars && b.day == latest;
        assert b in history;
      }
      var mark := SourceMark(sourceRevision, OrElse(indicatorThrough, latest));
      var written := snapshots.RebuildHistory(order, history, start, latest, mark, root);
      any := written != Some(0);
    }

    /** Everything published so far is now visible as one revision. */
    method AdvanceWatermarks(effective: set<Request>, latest: Date)
      modifies this
      ensures View() == old(View()).(stream := Advanced(old(View()).stream, effective, latest))
    {
      demandKey := Some(effective);
      publishedRevision := sourceRevision;
      publishedDemandGeneration := demandGeneration;
      indicatorThrough, stateThrough := Some(latest), Some(latest);
      latestBar := Some(Max(OrElse(latestBar, latest), latest));
      if latestBar.value <= latest {
        dirtyFrom := None;
      }
    }
  }

  /** What one rebuild computes from the state it found. */
  ghost predicate WorkFor(
    e: Setting, s: System, effective: set<Request>, start: Option<Date>, latest: Date, work: Work) {
    && RowsRebuilt(s, effective, start, latest, work.rows, e.root)
    && (if AnyWritten(work.rows, start, latest)
        then Recognized(WorldOf(e, work.rows, s.bars), s.log, StateStart(s, start), latest, work.dates, work.obs)
        else work.obs == [] && work.dates == [])
  }

  ghost function Committed(s: System, effective: set<Request>, start: Option<Date>, latest: Date, work: Work): System {
    match PublishedLog(s, start, latest, work)
    case StaleTarget => s
    case Accepted(log, _) => s.(stream := Advanced(s.stream, effective, latest), rows := work.rows, log := log)
  }

  lemma {:induction false} ComputedFrom(
    e: Setting, s: System, task: Task, work: Work, start: Option<Date>, latest: Date)
    requires PlanOf(s, task) == Rebuild(start, latest) && WorkFor(e, s, Effective(s, task), start, latest, work)
    ensures Computed(e, s, task, work)
  {
    hide PlanOf, RowsRebuilt, Recognized, WorldOf;
  }

  lemma {:induction false} MaterializedFrom(s: System, task: Task, work: Work, start: Option<Date>, latest: Date)
    requires PlanOf(s, task) == Rebuild(start, latest)
    ensures Materialized(s, task, work) == Committed(s, Effective(s, task), start, latest, work)
  {
    hide PlanOf, PublishedLog;
  }
}
