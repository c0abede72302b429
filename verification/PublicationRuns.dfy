/** Every materialization of a stream hands the log a batch that ends at its target day. */
module PublicationRuns {
  import opened Common
  import opened States
  import opened Timeline
  import opened EventLog
  import opened Recognition
  import opened Restart
  import opened Requests
  import opened Snapshots
  import opened Publication
  import opened PublicationTimeline
  import LogRuns
  import LogTargets

  lemma {:induction false} KnownAfter(w: World, m: Memo, dates: seq<Date>, o: Observation)
    requires Offered(w, dates) && dates != [] && o in AllRows(w, m, dates)
    ensures o.target in MemoAfter(w, m, dates).known
  {
    LastStep(w, m, dates);
    hide AllRows, MemoAfter, DayRows, Calendar.PreviousOpen, Bits;
    var init, d := dates[..|dates| - 1], dates[|dates| - 1];
    if init != [] && o in AllRows(w, m, init) {
      KnownAfter(w, m, init, o);
    } else {
      NoDays(w, m);
      var rows := DayRows(w, MemoAfter(w, m, init), d, Pred(w, d));
      var t :| t in rows && rows[t] == o;
      DayRowShape(w, MemoAfter(w, m, init), d, Pred(w, d), t);
    }
  }

  /** A recognition that yields a row of a target yields one on its last day. */
  lemma {:induction false} RowsReachLastDay(w: World, m: Memo, dates: seq<Date>, o: Observation)
    requires Offered(w, dates) && dates != [] && o in AllRows(w, m, dates)
    ensures exists x :: x in AllRows(w, m, dates) && x.target == o.target && x.day == dates[|dates| - 1]
  {
    LastStep(w, m, dates);
    hide AllRows, MemoAfter, Calendar.PreviousOpen, Judge;
    var init, d := dates[..|dates| - 1], dates[|dates| - 1];
    var memo := MemoAfter(w, m, init);
    var rows := DayRows(w, memo, d, Pred(w, d));
    var t := o.target;
    if init != [] && o in AllRows(w, m, init) {
      KnownAfter(w, m, init, o);
      assert t in rows;
    } else {
      NoDays(w, m);
      t :| t in rows && rows[t] == o;
    }
    DayRowShape(w, memo, d, Pred(w, d), t);
    assert rows[t] in RowSet(rows);
  }

  /** The rows of a window, if any, include its last day. */
  lemma {:induction false} WindowEndsAtLatest(e: Setting, s: System, task: Task, work: Work)
    requires Sound(e, s) && Allowed(e, s, Materialize(task, work)) && PlanOf(s, task).Rebuild?
    requires AnyWritten(work.rows, PlanOf(s, task).start, PlanOf(s, task).latest)
    ensures exists t :: (PlanOf(s, task).latest, t) in work.rows
    ensures PlanOf(s, task).start.Some? ==> PlanOf(s, task).start.value <= PlanOf(s, task).latest
  {
    var plan := PlanOf(s, task);
    var k :| k in work.rows && Rewritten(k.0, plan.start, plan.latest);
    hide *;
    AllowedComputed(e, s, task, work);
    SoundParts(e, s);
    SoundBars(e, s);
    PlanFacts(s, task);
    RowsReach(e, s, task, work, k);
    RebuiltRowIsFresh(e, s, task, work, k.0, k.1);
    RebuiltRowIsFresh(e, s, task, work, plan.latest, k.1);
    ContentIn(work.rows, k.0, k.1);
    ContentIn(work.rows, plan.latest, k.1);
    RowOnLatest(Effective(s, task), s.bars, k.0, k.1, plan.latest, e.root);
    WindowOrder(k.0, plan.start, plan.latest);
  }

  lemma {:induction false} WindowOrder(d: Date, start: Option<Date>, latest: Date)
    requires Rewritten(d, start, latest)
    ensures start.Some? ==> start.value <= latest
  {
  }

  ghost function StreamOf(s: System): LogRuns.Stream { LogRuns.Stream(s.log, s.stream.stateThrough) }

  ghost function BatchOf(s: System, task: Task, work: Work): LogRuns.Batch
    requires PlanOf(s, task).Rebuild?
  {
    var plan := PlanOf(s, task);
    LogRuns.Batch(work.obs, if AnyWritten(work.rows, plan.start, plan.latest) then StateStart(s, plan.start) else None,
                  plan.latest, s.stream.sourceRevision)
  }

  lemma {:induction false} RecognizedIsProper(
    w: World, log: Log, start: Option<Date>, latest: Date, dates: seq<Date>, obs: seq<Observation>, revision: int)
    requires Recognized(w, log, start, latest, dates, obs) && latest in w.snaps
    requires (start.Some? ==> start.value <= latest)
    ensures LogRuns.Proper(LogRuns.Batch(obs, start, latest, revision))
    ensures LogTargets.Reaches(LogRuns.Batch(obs, start, latest, revision))
  {
    hide AllRows, Clip, Distinct, SeedFor;
    var c, m := Clip(w, ReadFrom(w, start, dates), latest), SeedFor(w, log, start, dates);
    assert latest in dates;
    var last := dates[|dates| - 1];
    assert last in dates;
    LastIsGreatest(dates, latest);
    forall o | o in obs ensures o.day in dates {
      RowsLieOnDates(c, m, dates, o);
    }
    assert obs == [] || obs[0] in obs;
    forall o | o in obs ensures exists x :: x in obs && x.target == o.target && x.day == latest {
      RowsReachLastDay(c, m, dates, o);
      var x :| x in AllRows(c, m, dates) && x.target == o.target && x.day == last;
      assert x in obs;
    }
  }

  lemma {:induction false} NoObservationsIsProper(start: Option<Date>, latest: Date, revision: int)
    ensures LogRuns.Proper(LogRuns.Batch([], start, latest, revision))
    ensures LogTargets.Reaches(LogRuns.Batch([], start, latest, revision))
  {
  }

  lemma {:induction false} BatchIsProper(e: Setting, s: System, task: Task, work: Work)
    requires Sound(e, s) && Allowed(e, s, Materialize(task, work)) && PlanOf(s, task).Rebuild?
    ensures LogRuns.Proper(BatchOf(s, task, work)) && LogTargets.Reaches(BatchOf(s, task, work))
  {
    hide PlanOf, Sound, RowsRebuilt, Recognized, LogRuns.Proper, LogTargets.Reaches, WorldOf, Canonical;
    var plan := PlanOf(s, task);
    if AnyWritten(work.rows, plan.start, plan.latest) {
      WindowEndsAtLatest(e, s, task, work);
      SnapOf(e, work.rows, s.bars, plan.latest);
      RecognizedIsProper(WorldOf(e, work.rows, s.bars), s.log, StateStart(s, plan.start), plan.latest, work.dates,
                         work.obs, s.stream.sourceRevision);
    } else {
      NoObservationsIsProper(None, plan.latest, s.stream.sourceRevision);
    }
  }

  lemma {:induction false} RebuildIsNotStale(e: Setting, s: System, task: Task, work: Work)
    requires Sound(e, s) && LogRuns.LiveBounded(StreamOf(s)) && PlanOf(s, task).Rebuild?
    ensures PublishedLog(s, PlanOf(s, task).start, PlanOf(s, task).latest, work).Accepted?
  {
    SoundParts(e, s);
    PlanFacts(s, task);
    hide PlanOf, Sound, Watermarks, WellFormed, Sort, FoldChanges, LastRows, WindowChanges, Invalidate, Numbered,
         Anchors, AnyWritten;
  }

  /** To the log, a rebuild is one publication of a proper batch, and it is never refused. */
  lemma {:induction false} RebuildIsOneBatch(e: Setting, s: System, task: Task, work: Work)
    requires Sound(e, s) && LogRuns.LiveBounded(StreamOf(s)) && Allowed(e, s, Materialize(task, work))
    requires PlanOf(s, task).Rebuild?
    ensures LogRuns.Proper(BatchOf(s, task, work)) && LogTargets.Reaches(BatchOf(s, task, work))
    ensures StreamOf(Next(s, Materialize(task, work))) == LogRuns.Materialize(StreamOf(s), BatchOf(s, task, work))
    ensures Next(s, Materialize(task, work)).stream.stateThrough == Some(PlanOf(s, task).latest)
  {
    BatchIsProper(e, s, task, work);
    RebuildIsNotStale(e, s, task, work);
    SoundParts(e, s);
    PlanFacts(s, task);
    hide PlanOf, Sound, Watermarks, Allowed, LogRuns.Proper, LogTargets.Reaches, LogRuns.LiveBounded, AnyWritten,
         Publish, Effective;
  }

  ghost predicate Live(s: System) {
    LogRuns.LiveBounded(StreamOf(s)) && LogRuns.AnnouncedOnce(s.log.events)
  }

  lemma {:induction false} MaterializeKeepsLive(e: Setting, s: System, task: Task, work: Work)
    requires Sound(e, s) && Live(s) && Allowed(e, s, Materialize(task, work))
    ensures Live(Next(s, Materialize(task, work)))
  {
    hide PlanOf, Sound, Allowed, LogRuns.LiveBounded, LogRuns.AnnouncedOnce, LogRuns.Proper, LogRuns.Materialize,
         PublishedLog;
    if PlanOf(s, task).Rebuild? {
      RebuildIsOneBatch(e, s, task, work);
      LogRuns.LiveStaysBounded(StreamOf(s), BatchOf(s, task, work));
      LogRuns.StepAnnouncesOnce(StreamOf(s), BatchOf(s, task, work));
    }
  }

  lemma {:induction false} RunKeepsLive(e: Setting, steps: seq<Step>)
    requires AllowedRun(e, INITIAL, steps)
    ensures Live(After(INITIAL, steps))
  {
    if steps != [] {
      var init, step := steps[..|steps| - 1], steps[|steps| - 1];
      RunKeepsLive(e, init);
      RunKeepsSound(e, init);
      hide Allowed, Sound, LogRuns.LiveBounded, LogRuns.AnnouncedOnce, Materialized;
      if step.Materialize? {
        MaterializeKeepsLive(e, After(INITIAL, init), step.task, step.work);
      }
    }
  }

  /** Every interleaving: two stored events of one target and day are never both live. */
  lemma {:induction false} LiveEventsOnce(e: Setting, steps: seq<Step>, i: nat, j: nat)
    requires AllowedRun(e, INITIAL, steps)
    requires i < j < |After(INITIAL, steps).log.events|
    requires var events := After(INITIAL, steps).log.events;
             events[i].change.day == events[j].change.day && events[i].change.target == events[j].change.target
    ensures var events := After(INITIAL, steps).log.events; events[i].restated || events[j].restated
  {
    RunKeepsLive(e, steps);
    hide After, AllowedRun, LogRuns.LiveBounded;
  }

  /** Every interleaving: the watermark never moves back, and a rebuild that finds bars is never refused. */
  lemma {:induction false} WatermarkOnlyAdvances(e: Setting, steps: seq<Step>, step: Step)
    requires AllowedRun(e, INITIAL, steps) && Allowed(e, After(INITIAL, steps), step)
    ensures var was := After(INITIAL, steps).stream.stateThrough;
            var now := Next(After(INITIAL, steps), step).stream.stateThrough;
            was.Some? ==> now.Some? && was.value <= now.value
    ensures step.Materialize? && PlanOf(After(INITIAL, steps), step.task).Rebuild? ==>
            Next(After(INITIAL, steps), step).stream.stateThrough
            == Some(PlanOf(After(INITIAL, steps), step.task).latest)
  {
    RunKeepsLive(e, steps);
    RunKeepsSound(e, steps);
    var s := After(INITIAL, steps);
    hide After, AllowedRun, LogRuns.LiveBounded, LogRuns.AnnouncedOnce, Sound, Allowed, PlanOf, PublishedLog;
    if step.Materialize? && PlanOf(s, step.task).Rebuild? {
      RebuildIsOneBatch(e, s, step.task, step.work);
      SoundParts(e, s);
      PlanFacts(s, step.task);
    }
  }
}
