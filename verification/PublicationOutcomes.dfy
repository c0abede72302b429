/** Which plan a materialization takes, and when it leaves the stream current. */
module PublicationOutcomes {
  import opened Common
  import opened Snapshots
  import opened Requests
  import opened Publication
  import opened PublicationEdge
  import PublicationRuns

  /** A bar the task may look at. */
  predicate InReach(b: Bar, task: Task) { task.end.None? || b.day <= task.end.value }

  /** The latest day of the bars in reach. */
  ghost predicate IsLatestBar(s: System, task: Task, latest: Date) {
    && (exists b :: b in s.bars && InReach(b, task) && b.day == latest)
    && forall b :: b in s.bars && InReach(b, task) ==> b.day <= latest
  }

  lemma {:induction false} CappedMembers(s: System, task: Task)
    requires Ordered(s.bars)
    ensures var bars := Capped(s.bars, task.end);
            && (forall b :: b in bars <==> b in s.bars && InReach(b, task))
            && (bars != [] ==> IsLatestBar(s, task, bars[|bars| - 1].day))
  {
    hide CountUpto;
    if task.end.Some? {
      UptoOrdered(s.bars, task.end.value);
    }
    var bars := Capped(s.bars, task.end);
    assert bars != [] ==> bars[|bars| - 1] in bars;
    forall b | b in bars ensures b.day <= bars[|bars| - 1].day {
      var i :| 0 <= i < |bars| && bars[i] == b;
    }
  }

  /** What the watermarks say of a clean published stream. */
  ghost predicate Settled(st: StreamRow) {
    && st.indicatorThrough == st.stateThrough && (st.publishedRevision >= 0 <==> st.stateThrough.Some?)
    && (st.dirtyFrom.None? && st.stateThrough.Some? ==>
          && st.publishedRevision == st.sourceRevision
          && st.latestBar.Some? && st.latestBar.value <= st.stateThrough.value)
  }

  /** The plan by the stream row and the latest bar in reach. */
  ghost predicate PlannedBy(s: System, task: Task, latest: Date) {
    var st := s.stream;
    PlanOf(s, task)
    == if st.stateThrough.Some? && latest < st.stateThrough.value then StaleAnalysisTarget
       else if task.force || st.demandKey != Some(DEFAULTS + task.requests + s.configured) || st.publishedRevision < 0
       then Rebuild(None, latest)
       else if st.dirtyFrom.Some? then Rebuild(st.dirtyFrom, latest)
       else UpToDate
  }

  lemma {:induction false} PlanOfSettled(s: System, task: Task, latest: Date)
    requires Settled(s.stream) && Capped(s.bars, task.end) != []
    requires latest == Capped(s.bars, task.end)[|Capped(s.bars, task.end)| - 1].day
    requires s.stream.latestBar.Some? && latest <= s.stream.latestBar.value
    ensures PlannedBy(s, task, latest)
  {
    assert DEFAULTS + task.requests + s.configured == Effective(s, task);
    hide Capped, FirstAfter, Effective;
  }

  lemma {:induction false} SoundIsSettled(e: Setting, s: System)
    requires Sound(e, s)
    ensures Settled(s.stream) && Ordered(s.bars)
    ensures forall b :: b in s.bars ==> s.stream.latestBar.Some? && b.day <= s.stream.latestBar.value
  {
    hide RowsFresh, DemandCovered, Ordered;
  }

  lemma {:induction false} OneLatestBar(s: System, task: Task, a: Date, b: Date)
    requires IsLatestBar(s, task, a) && IsLatestBar(s, task, b)
    ensures a == b
  {
  }

  lemma {:induction false} PlanOfSound(e: Setting, s: System, task: Task, latest: Date)
    requires Sound(e, s)
    ensures PlanOf(s, task) == NoBars <==> !exists b :: b in s.bars && InReach(b, task)
    ensures IsLatestBar(s, task, latest) ==> PlannedBy(s, task, latest)
  {
    hide Sound, Ordered, Capped, InReach, IsLatestBar, PlannedBy, Settled, PlanOf;
    SoundIsSettled(e, s);
    CappedMembers(s, task);
    NoBarsPlan(s, task);
    var bars := Capped(s.bars, task.end);
    if bars != [] {
      assert bars[|bars| - 1] in bars;
      PlanOfSettled(s, task, bars[|bars| - 1].day);
      if IsLatestBar(s, task, latest) {
        OneLatestBar(s, task, latest, bars[|bars| - 1].day);
      }
    } else {
      NoLatestBar(s, task, latest);
    }
  }

  lemma {:induction false} NoLatestBar(s: System, task: Task, latest: Date)
    ensures IsLatestBar(s, task, latest) ==> exists b :: b in s.bars && InReach(b, task)
  {
  }

  lemma {:induction false} NoBarsPlan(s: System, task: Task)
    ensures PlanOf(s, task) == NoBars <==> Capped(s.bars, task.end) == []
  {
    hide Capped, FirstAfter, Effective;
  }

  /** Every interleaving decides a task by the stream row alone: without a bar in reach there is nothing to do;
      a latest bar behind the watermark is refused; a forced task, another request set or a stream never
      published is rebuilt in full; a dirty stream from its dirty date; a clean one is up to date. */
  lemma {:induction false} PlanIsExact(e: Setting, steps: seq<Step>, task: Task, latest: Date)
    requires AllowedRun(e, INITIAL, steps)
    ensures var s := After(INITIAL, steps);
            && (PlanOf(s, task) == NoBars <==> !exists b :: b in s.bars && InReach(b, task))
            && (IsLatestBar(s, task, latest) ==> PlannedBy(s, task, latest))
  {
    hide *;
    RunKeepsSound(e, steps);
    PlanOfSound(e, After(INITIAL, steps), task, latest);
  }

  /** Every interleaving: an open task over bars not behind the watermark leaves the stream current exactly
      when no later bar was ever announced. After the newest bar is deleted the stream stays dirty. */
  lemma {:induction false} OpenTaskEndsCurrent(e: Setting, steps: seq<Step>, task: Task, work: Work, latest: Date)
    requires AllowedRun(e, INITIAL, steps) && Allowed(e, After(INITIAL, steps), Materialize(task, work))
    requires task.end.None? && IsLatestBar(After(INITIAL, steps), task, latest)
    requires var st := After(INITIAL, steps).stream; st.stateThrough.Some? ==> st.stateThrough.value <= latest
    ensures var s := After(INITIAL, steps); var next := Next(s, Materialize(task, work));
            && s.stream.latestBar.Some? && next.stream.stateThrough == Some(latest)
            && next.stream.publishedRevision >= 0
            && (PublicationIsCurrent(next.stream) <==> s.stream.latestBar.value <= latest)
  {
    hide *;
    var s := After(INITIAL, steps);
    RunKeepsSound(e, steps);
    PublicationRuns.RunKeepsLive(e, steps);
    PlanOfSound(e, s, task, latest);
    SoundIsSettled(e, s);
    LatestIsAnnounced(s, task, latest);
    PlanAhead(s, task, latest);
    DeletedBarsAreDirty(e, s, task, latest);
    if PlanOf(s, task).Rebuild? {
      RebuiltSystem(e, s, task, work);
      RebuiltIsCurrent(s.stream, Effective(s, task), latest);
    } else {
      UpToDateIsCurrent(s, task, work, latest);
    }
  }

  lemma {:induction false} LatestIsAnnounced(s: System, task: Task, latest: Date)
    requires IsLatestBar(s, task, latest)
    requires forall b :: b in s.bars ==> s.stream.latestBar.Some? && b.day <= s.stream.latestBar.value
    ensures s.stream.latestBar.Some? && latest <= s.stream.latestBar.value
  {
  }

  lemma {:induction false} DeletedBarsAreDirty(e: Setting, s: System, task: Task, latest: Date)
    requires Sound(e, s) && IsLatestBar(s, task, latest)
    requires s.stream.stateThrough.Some? ==> s.stream.stateThrough.value <= latest
    ensures s.stream.latestBar.Some? && latest < s.stream.latestBar.value ==> s.stream.dirtyFrom.Some?
  {
    hide RowsFresh, DemandCovered, Ordered;
  }

  lemma {:induction false} PlanAhead(s: System, task: Task, latest: Date)
    requires PlannedBy(s, task, latest) && (s.stream.stateThrough.Some? ==> s.stream.stateThrough.value <= latest)
    requires Settled(s.stream) && s.stream.latestBar.Some? && latest <= s.stream.latestBar.value
    ensures PlanOf(s, task).Rebuild? ==> PlanOf(s, task).latest == latest
    ensures !PlanOf(s, task).Rebuild? ==>
              && PlanOf(s, task) == UpToDate && s.stream.dirtyFrom.None? && s.stream.stateThrough == Some(latest)
              && s.stream.publishedRevision == s.stream.sourceRevision && s.stream.latestBar.value <= latest
  {
    hide PlanOf;
  }

  lemma {:induction false} RebuiltIsCurrent(st: StreamRow, eff: set<Request>, latest: Date)
    requires st.latestBar.Some? && latest <= st.latestBar.value
    ensures var next := Advanced(st, eff, latest);
            && next.stateThrough == Some(latest) && next.publishedRevision >= 0
            && (st.latestBar.value <= latest ==> PublicationIsCurrent(next))
            && (st.dirtyFrom.Some? && latest < st.latestBar.value ==> !PublicationIsCurrent(next))
  {
  }

  lemma {:induction false} UpToDateIsCurrent(s: System, task: Task, work: Work, latest: Date)
    requires PlanOf(s, task) == UpToDate && s.stream.dirtyFrom.None? && s.stream.stateThrough == Some(latest)
    requires s.stream.publishedRevision == s.stream.sourceRevision
    ensures var next := Next(s, Materialize(task, work)).stream;
            PublicationIsCurrent(next) && next.stateThrough == Some(latest) && next.publishedRevision >= 0
  {
    hide PlanOf, PublishedLog, Effective;
  }

  // ---------------------------------------------------------------------------------------
  // What the stream row counts

  /** The first changed days of the source writes since the stream was last clean. */
  ghost function OpenChanges(steps: seq<Step>): (days: set<Date>) {
    if steps == [] || After(INITIAL, steps).stream.dirtyFrom.None? then {}
    else
      var step := steps[|steps| - 1];
      OpenChanges(steps[..|steps| - 1]) + if step.SourceWrite? then {step.day} else {}
  }

  ghost function SourceWrites(steps: seq<Step>): (n: nat) {
    if steps == [] then 0
    else SourceWrites(steps[..|steps| - 1]) + if steps[|steps| - 1].SourceWrite? then 1 else 0
  }

  ghost function ConfigWrites(steps: seq<Step>): (n: nat) {
    if steps == [] then 0
    else ConfigWrites(steps[..|steps| - 1]) + if steps[|steps| - 1].ConfigWrite? then 1 else 0
  }

  /** Over every run the dirty date is the earliest day changed since the stream was last clean, and the
      revision and the demand generation count the source and configuration writes. */
  lemma {:induction false} DirtyDateIsEarliest(steps: seq<Step>)
    ensures var st := After(INITIAL, steps).stream;
            && (st.dirtyFrom.Some? ==>
                  && st.dirtyFrom.value in OpenChanges(steps)
                  && forall d :: d in OpenChanges(steps) ==> st.dirtyFrom.value <= d)
            && st.sourceRevision == SourceWrites(steps) && st.demandGeneration == ConfigWrites(steps)
  {
    if steps != [] {
      var init, step := steps[..|steps| - 1], steps[|steps| - 1];
      DirtyDateIsEarliest(init);
      hide PlanOf, PublishedLog, Effective;
      StepMovesDirtyDate(After(INITIAL, init), step);
      hide Next;
    }
  }

  lemma {:induction false} StepMovesDirtyDate(s: System, step: Step)
    ensures var was, st := s.stream, Next(s, step).stream;
            && (step.SourceWrite? ==>
                  && st.dirtyFrom.Some? && st.dirtyFrom.value <= step.day
                  && (was.dirtyFrom.Some? ==> st.dirtyFrom.value <= was.dirtyFrom.value)
                  && (st.dirtyFrom == was.dirtyFrom || st.dirtyFrom.value == step.day))
            && (!step.SourceWrite? ==> st.dirtyFrom == was.dirtyFrom || st.dirtyFrom.None?)
            && st.sourceRevision == was.sourceRevision + (if step.SourceWrite? then 1 else 0)
            && st.demandGeneration == was.demandGeneration + (if step.ConfigWrite? then 1 else 0)
  {
    hide PlanOf, PublishedLog, Effective;
  }
}
