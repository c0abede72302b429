/** When the current rows of a clean stream are those of recognition from scratch. */
module CurrentRows {
  import opened Common
  import opened States
  import opened Timeline
  import opened Calendar
  import opened EventLog
  import opened LogRuns
  import opened Recognition
  import opened Restart
  import opened Rebuild
  import opened Snapshots
  import opened Publication
  import opened PublicationTimeline
  import opened RestartEdge
  import opened KnownTargets

  /** The current rows are, up to the revision that wrote them, the last rows of a history. */
  ghost predicate RowsMatch(current: map<Target, CurrentRow>, history: seq<Observation>) {
    SameButRevision(current, LastRows(map[], history, 0))
  }

  // ---------------------------------------------------------------------------------------
  // One suffix rewrite

  lemma {:induction false} RowsOfHistory(facts: Facts, obs: seq<Observation>, revision: int, t: Target)
    ensures t in LastRows(facts, obs, revision) <==> exists o :: o in obs && o.target == t
  {
    hide LastRows;
    LastRowsFrom(facts, obs, revision, t);
  }

  /** The targets of the rewritten suffix: those with an anchor before `start`, and those offered since. */
  lemma {:induction false} SuffixTargets(
    log: Log, history: seq<Observation>, prior: World, w: World,
    before: seq<Date>, oldAfter: seq<Date>, after: seq<Date>,
    suffix: seq<Observation>, start: Date, through: Date, revision: int, t: Target)
    requires CutAt(prior, w, before, oldAfter, after, start) && after != []
    requires Represents(log, history) && Lists(history, AllRows(prior, NO_MEMO, before + oldAfter))
    requires NoClosedSnapshots(w) && SeedsSuffice(w, log, start, after[0])
    requires RestartedRows(w, SeedOf(w, log, after[0]), after, suffix) && after[|after| - 1] <= through
    ensures t in LastRows(SeedAt(log.events, start - 1), Sort(suffix), revision)
            <==> t in SeedAt(log.events, start - 1) || OfferedBy(w, after, through, t)
  {
    hide AllRows, MemoAfter, PreviousOpen, SeedOf, NoClosedSnapshots, Represents, SeedAt, SeedsSuffice, Lists, LastRows,
         OfferedBy, Sort, Distinct, HasRow;
    var m := MemoAfter(w, NO_MEMO, before);
    var early, late, seeded := AllRows(w, NO_MEMO, before), AllRows(w, m, after), AllRows(w, SeedOf(w, log, after[0]),
                                                                                          after);
    RestartIsSuffix(log, history, prior, w, before, oldAfter, after, start);
    RunSplits(w, NO_MEMO, before, after);
    forall o | o in early ensures o !in late && o !in seeded {
      EarlyRow(w, NO_MEMO, before, start, o);
      LateRow(w, m, after, o);
      LateRow(w, SeedOf(w, log, after[0]), after, o);
    }
    SumCancels(early, late, seeded);
    KnownAtCut(log, history, prior, w, before, oldAfter, after, start);
    RunTargets(w, m, after, through, t);
    SuffixHasRow(SeedAt(log.events, start - 1), suffix, late, revision, t);
  }

  lemma {:induction false} SuffixHasRow(
    facts: Facts, suffix: seq<Observation>, rows: set<Observation>, revision: int, t: Target)
    requires forall o :: o in suffix <==> o in rows
    ensures t in LastRows(facts, Sort(suffix), revision) <==> HasRow(rows, t)
  {
    hide Sort, LastRows;
    RowsOfHistory(facts, Sort(suffix), revision, t);
    forall o ensures o in Sort(suffix) <==> o in rows {
      SortMembers(suffix, o);
    }
  }

  /** Rows merged over older ones are the last rows of the whole history exactly when they leave none of
      the older ones standing. */
  lemma {:induction false} MergedRowsMatch(
    current: map<Target, CurrentRow>, head: seq<Observation>, tail: seq<Observation>, revision: int)
    requires var facts := FoldFacts(map[], head);
             forall t :: t in facts ==> t in LastRows(facts, tail, revision)
    ensures var rows := LastRows(FoldFacts(map[], head), tail, revision);
            RowsMatch(current + rows, head + tail) <==> forall t: Target :: t in current ==> t in rows
  {
    hide LastRows, FoldFacts;
    var facts := FoldFacts(map[], head);
    var early, rows, zero := LastRows(map[], head, 0), LastRows(facts, tail, revision), LastRows(facts, tail, 0);
    LastRowsSplit(map[], head, tail, 0);
    LastRowsRevised(facts, tail, revision, 0);
    forall t: Target | t in early ensures t in zero {
      RowsOfHistory(map[], head, 0, t);
      FactsTargets(head, t);
      assert t in rows <==> t in zero;
    }
    Overwrites(early, zero);
    MergeMatches(current, rows, zero);
  }

  lemma {:induction false} MergeMatches(
    current: map<Target, CurrentRow>, rows: map<Target, CurrentRow>, zero: map<Target, CurrentRow>)
    requires SameButRevision(rows, zero)
    ensures SameButRevision(current + rows, zero) <==> forall t: Target :: t in current ==> t in rows
  {
    if forall t: Target :: t in current ==> t in rows {
      Overwrites(current, rows);
    } else {
      var t: Target :| t in current && t !in rows;
      assert t in current + rows && t !in zero;
    }
  }

  /** After a sound suffix rewrite the current rows are those of the whole history exactly when every
      target that had one has an anchor before `start` or is offered on a rewritten day. */
  lemma {:induction false} RewrittenRowsAreExact(
    log: Log, history: seq<Observation>, prior: World, w: World,
    before: seq<Date>, oldAfter: seq<Date>, after: seq<Date>,
    suffix: seq<Observation>, start: Date, through: Date, revision: int)
    requires CutAt(prior, w, before, oldAfter, after, start) && after != []
    requires Represents(log, history) && Lists(history, AllRows(prior, NO_MEMO, before + oldAfter))
    requires NoClosedSnapshots(w) && SeedsSuffice(w, log, start, after[0])
    requires RestartedRows(w, SeedOf(w, log, after[0]), after, suffix) && after[|after| - 1] <= through
    requires Publish(log, suffix, Some(start), through, revision).Accepted?
    ensures RowsMatch(Publish(log, suffix, Some(start), through, revision).log.current,
                      ObsBefore(history, start) + Sort(suffix))
            <==> EveryRowRefreshed(w, log, start, after, through)
  {
    hide AllRows, MemoAfter, PreviousOpen, SeedOf, NoClosedSnapshots, Represents, SeedAt, SeedsSuffice, Lists, LastRows,
         OfferedBy, Sort, Distinct, RestartedRows, CutAt, FoldFacts, ObsBefore, Publish, RowsMatch;
    var facts, head, tail := SeedAt(log.events, start - 1), ObsBefore(history, start), Sort(suffix);
    KnownAtCut(log, history, prior, w, before, oldAfter, after, start);
    PartialCurrent(log, suffix, start, through, revision);
    forall t
      ensures t in LastRows(facts, tail, revision) <==> t in facts || OfferedBy(w, after, through, t)
    {
      SuffixTargets(log, history, prior, w, before, oldAfter, after, suffix, start, through, revision, t);
    }
    MergedRowsMatch(log.current, head, tail, revision);
  }

  /** Every target with a current row has an anchor before `start` or is offered on a rewritten day. */
  ghost predicate EveryRowRefreshed(w: World, log: Log, start: Date, after: seq<Date>, through: Date) {
    forall t: Target :: t in log.current ==> t in SeedAt(log.events, start - 1) || OfferedBy(w, after, through, t)
  }

  // ---------------------------------------------------------------------------------------
  // One materialization

  /** The current rows are the last rows of recognition of the present snapshots from scratch. */
  ghost predicate CurrentRowsFresh(e: Setting, s: System) {
    exists dates, history ::
      && DatesOf(WorldOf(e, s.rows, s.bars), dates)
      && Lists(history, AllRows(WorldOf(e, s.rows, s.bars), NO_MEMO, dates)) && RowsMatch(s.log.current, history)
  }

  /** Recognition from scratch has one history. */
  lemma {:induction false} OneHistory(
    w: World, a: seq<Date>, x: seq<Observation>, b: seq<Date>, y: seq<Observation>)
    requires DatesOf(w, a) && Lists(x, AllRows(w, NO_MEMO, a)) && DatesOf(w, b) && Lists(y, AllRows(w, NO_MEMO, b))
    ensures a == b && x == y
  {
    hide AllRows, DatesOf, StrictlySorted;
    SameDates(w, a, b);
    SameMembers(x, y);
  }

  lemma {:induction false} FreshIsMatching(e: Setting, s: System, dates: seq<Date>, history: seq<Observation>)
    requires DatesOf(WorldOf(e, s.rows, s.bars), dates)
    requires Lists(history, AllRows(WorldOf(e, s.rows, s.bars), NO_MEMO, dates))
    ensures CurrentRowsFresh(e, s) <==> RowsMatch(s.log.current, history)
  {
    hide WorldOf, AllRows, Lists, RowsMatch;
    if CurrentRowsFresh(e, s) {
      var a, x :| DatesOf(WorldOf(e, s.rows, s.bars), a) && Lists(x, AllRows(WorldOf(e, s.rows, s.bars), NO_MEMO, a))
                  && RowsMatch(s.log.current, x);
      OneHistory(WorldOf(e, s.rows, s.bars), a, x, dates, history);
    }
  }

  /** What a partial materialization that writes rows must cover for its current rows to be right. */
  ghost predicate Covers(e: Setting, s: System, task: Task, work: Work) {
    var plan := PlanOf(s, task);
    plan.Rebuild? && plan.start.Some? && AnyWritten(work.rows, plan.start, plan.latest) ==>
      EveryRowRefreshed(WorldOf(e, work.rows, s.bars), s.log, plan.start.value, work.dates, plan.latest)
  }

  ghost predicate Publishes(s: System, step: Step) {
    && step.Materialize? && PlanOf(s, step.task).Rebuild?
    && PublishedLog(s, PlanOf(s, step.task).start, PlanOf(s, step.task).latest, step.work).Accepted?
  }

  lemma {:induction false} NothingWrittenLeavesNoRows(e: Setting, s: System, task: Task, work: Work)
    requires Sound(e, s) && Allowed(e, s, Materialize(task, work)) && Publishes(s, Materialize(task, work))
    requires var plan := PlanOf(s, task);
             !AnyWritten(work.rows, plan.start, plan.latest) && (plan.start.Some? ==> plan.start.value <= plan.latest)
    ensures CurrentRowsFresh(e, Next(s, Materialize(task, work)))
  {
    hide PlanOf, Sound, Recognized, RowsRebuilt, WorldOf, AllCanonical, Publish, Effective, AnyWritten;
    var plan, next := PlanOf(s, task), Next(s, Materialize(task, work));
    forall k ensures k !in work.rows {
      if k in work.rows { NothingWrittenMeansNoRows(e, s, task, work, k); }
    }
    FullCurrent(s.log, [], plan.latest, s.stream.sourceRevision);
    EmptyRows(e, next);
  }

  lemma {:induction false} EmptyRows(e: Setting, s: System)
    requires (forall k :: k !in s.rows) && s.log.current == map[]
    ensures CurrentRowsFresh(e, s)
  {
    var w := WorldOf(e, s.rows, s.bars);
    assert DaysOf(s.rows) == {};
    assert w.snaps == map[];
    NoDays(w, NO_MEMO);
    hide WorldOf, AllRows;
    assert DatesOf(w, []) && Lists([], AllRows(w, NO_MEMO, [])) && RowsMatch(s.log.current, []);
  }

  lemma {:induction false} FullRowsAreFresh(e: Setting, s: System, task: Task, work: Work)
    requires Sound(e, s) && Allowed(e, s, Materialize(task, work)) && Publishes(s, Materialize(task, work))
    requires PlanOf(s, task).start.None? && AnyWritten(work.rows, None, PlanOf(s, task).latest)
    ensures CurrentRowsFresh(e, Next(s, Materialize(task, work)))
  {
    hide PlanOf, Sound, Recognized, RowsRebuilt, WorldOf, AllCanonical, Publish, Effective, AnyWritten, AllRows,
         Distinct, Sort, LastRows, Advance, Watermarks;
    var plan, next := PlanOf(s, task), Next(s, Materialize(task, work));
    var revision := s.stream.sourceRevision;
    SoundParts(e, s);
    AdvanceKeepsWatermarks(e, s, task, work, next.log);
    AdvanceUnfolds(s, task, work, next.log);
    AdvanceThrough(s, task, work, next.log);
    FullHistory(e, Advance(s, task, work, next.log), s.log, plan.latest, work.dates, work.obs);
    SortLists(work.obs, AllRows(WorldOf(e, next.rows, next.bars), NO_MEMO, work.dates));
    FullCurrent(s.log, work.obs, plan.latest, revision);
    LastRowsRevised(map[], Sort(work.obs), revision, 0);
    FreshIsMatching(e, next, work.dates, Sort(work.obs));
  }

  lemma {:induction false} PartialRowsAreExact(e: Setting, s: System, task: Task, work: Work)
    requires Sound(e, s) && Tracked(e, s) && Allowed(e, s, Materialize(task, work)) && Restartable(e, s, task, work)
    requires Publishes(s, Materialize(task, work)) && PlanOf(s, task).start.Some?
    requires AnyWritten(work.rows, PlanOf(s, task).start, PlanOf(s, task).latest)
    ensures CurrentRowsFresh(e, Next(s, Materialize(task, work))) <==> Covers(e, s, task, work)
  {
    hide PlanOf, Sound, Tracked, RowsRebuilt, Recognized, WorldOf, Lists, DatesOf, NoClosedSnapshots, PreviousOpen,
         Represents, AllRows, CutAt, RestartedRows, SeedOf, AnyWritten, SeedsSuffice, Publish, EveryRowRefreshed,
         RowsMatch, CurrentRowsFresh, AllCanonical, Effective, ObsBefore, Sort;
    var plan, w, next := PlanOf(s, task), WorldOf(e, work.rows, s.bars), Next(s, Materialize(task, work));
    var start := plan.start.value;
    WorkWindow(e, s, task, work);
    var seen, days, n, history := RestartCut(e, s, task, work);
    NextLog(s, task, work);
    var before, rest := days[..n], days[n..];
    assert before + rest == days;
    IncrementalRebuild(s.log, history, seen, w, before, rest, work.dates, work.obs, start, plan.latest,
                       s.stream.sourceRevision);
    RewrittenRowsAreExact(s.log, history, seen, w, before, rest, work.dates, work.obs, start, plan.latest,
                          s.stream.sourceRevision);
    FreshIsMatching(e, next, before + work.dates, ObsBefore(history, start) + Sort(work.obs));
  }

  lemma {:induction false} WorkWindow(e: Setting, s: System, task: Task, work: Work)
    requires Tracked(e, s) && Sound(e, s) && Allowed(e, s, Materialize(task, work))
    requires PlanOf(s, task).Rebuild? && PlanOf(s, task).start.Some?
    requires AnyWritten(work.rows, PlanOf(s, task).start, PlanOf(s, task).latest)
    ensures work.dates != [] && work.dates[0] in WorldOf(e, work.rows, s.bars).snaps && s.stream.stateThrough.Some?
  {
    hide PlanOf, Tracked, RowsRebuilt, Recognized, WorldOf, AnyWritten, AllCanonical, Effective;
    var plan := PlanOf(s, task);
    PlanFacts(s, task) by { SoundParts(e, s); }
    WrittenDays(e, s, work, plan.start, plan.latest);
    WindowOf(WorldOf(e, work.rows, s.bars), s.log, plan.start, plan.latest, work.dates, work.obs);
  }

  // ---------------------------------------------------------------------------------------
  // Every run

  /** The last publication of a run, if any, covered every current row. */
  ghost predicate LastCovers(e: Setting, steps: seq<Step>) {
    steps != [] ==>
      var init, step := steps[..|steps| - 1], steps[|steps| - 1];
      if Publishes(After(INITIAL, init), step) then Covers(e, After(INITIAL, init), step.task, step.work)
      else LastCovers(e, init)
  }

  /** The log holds the from-scratch timeline of a world; its current rows do, or do not. */
  ghost predicate RowsTracked(e: Setting, s: System, right: bool) {
    exists seen, dates, history ::
      Tracks(e, s, seen, dates, history) && (RowsMatch(s.log.current, history) <==> right)
  }

  lemma {:induction false} InitialRowsMatch(e: Setting)
    ensures RowsTracked(e, INITIAL, true)
  {
    InitialIsTracked(e);
    hide WorldOf, AllRows;
    var seen, dates, history :| Tracks(e, INITIAL, seen, dates, history);
    EmptyHistory(INITIAL.log, history);
    assert RowsMatch(INITIAL.log.current, history);
  }

  lemma {:induction false} PublicationTracksRows(e: Setting, s: System, right: bool)
    requires Watermarks(s) && TimelineFresh(e, s) && (CurrentRowsFresh(e, s) <==> right)
    ensures RowsTracked(e, s, right)
  {
    hide WorldOf, Represents, Lists, Watermarks, AllRows, RowsMatch, CurrentRowsFresh;
    var w := WorldOf(e, s.rows, s.bars);
    var dates, history :| DatesOf(w, dates) && Represents(s.log, history) && Lists(history, AllRows(w, NO_MEMO, dates));
    FreshIsMatching(e, s, dates, history);
    forall d | d in dates ensures s.stream.stateThrough.Some? && d <= s.stream.stateThrough.value {
      DaysBounded(e, s, d);
    }
    assert Tracks(e, s, w, dates, history);
  }

  lemma {:induction false} PublishingStep(e: Setting, s: System, task: Task, work: Work)
    requires Sound(e, s) && Tracked(e, s) && Allowed(e, s, Materialize(task, work)) && Restartable(e, s, task, work)
    requires Publishes(s, Materialize(task, work))
    ensures RowsTracked(e, Next(s, Materialize(task, work)), Covers(e, s, task, work))
  {
    var plan, step := PlanOf(s, task), Materialize(task, work);
    var next := Next(s, step);
    hide PlanOf, Sound, Tracked, Allowed, Next, AnyWritten, TimelineFresh, CurrentRowsFresh, RowsTracked, PublishedLog,
         EveryRowRefreshed, WorldOf, NoClosedSnapshots, SeedsSuffice, Watermarks, RowsRebuilt;
    PublishedStepIsFresh(e, s, task, work);
    if !AnyWritten(work.rows, plan.start, plan.latest) {
      NothingWrittenLeavesNoRows(e, s, task, work);
    } else if plan.start.None? {
      FullRowsAreFresh(e, s, task, work);
    } else {
      PartialRowsAreExact(e, s, task, work);
    }
    PublicationTracksRows(e, next, Covers(e, s, task, work));
  }

  lemma {:induction false} PublishedStepIsFresh(e: Setting, s: System, task: Task, work: Work)
    requires Sound(e, s) && Tracked(e, s) && Allowed(e, s, Materialize(task, work)) && Restartable(e, s, task, work)
    requires Publishes(s, Materialize(task, work))
    ensures var next := Next(s, Materialize(task, work)); TimelineFresh(e, next) && Watermarks(next)
  {
    hide PlanOf, Sound, Tracked, Restartable, TimelineFresh, Advance, PublishedLog, AllCanonical, Computed, Effective,
         Watermarks;
    var plan := PlanOf(s, task);
    var p := PublishedLog(s, plan.start, plan.latest, work);
    SoundParts(e, s);
    AdvanceUnfolds(s, task, work, p.log);
    AdvanceKeepsWatermarks(e, s, task, work, p.log);
    if plan.start.None? {
      TrackedWell(e, s);
      FullStepIsTracked(e, s, task, work);
    } else {
      PartialStepIsTracked(e, s, task, work);
    }
  }

  lemma {:induction false} QuietStep(e: Setting, s: System, step: Step, right: bool)
    requires RowsTracked(e, s, right) && Ordered(s.bars) && Allowed(e, s, step) && !Publishes(s, step)
    ensures RowsTracked(e, Next(s, step), right)
  {
    hide WorldOf, Represents, DatesOf, Lists, SameBefore, Ordered, RowsMatch, PlanOf, PublishedLog, Computed;
    var seen, dates, history :| Tracks(e, s, seen, dates, history) && (RowsMatch(s.log.current, history) <==> right);
    if step.SourceWrite? {
      SourceAgrees(e, s.rows, s.bars, step.bars, step.day);
    }
    assert Tracks(e, Next(s, step), seen, dates, history);
  }

  lemma {:induction false} RunTracksRows(e: Setting, steps: seq<Step>)
    requires AllowedRun(e, INITIAL, steps) && RestartableRun(e, INITIAL, steps)
    ensures RowsTracked(e, After(INITIAL, steps), LastCovers(e, steps))
  {
    if steps == [] {
      InitialRowsMatch(e);
    } else {
      var init, step := steps[..|steps| - 1], steps[|steps| - 1];
      RunTracksRows(e, init);
      RunKeepsTracked(e, init);
      RunKeepsSound(e, init);
      hide Tracked, Allowed, Sound, Restartable, RowsTracked, Publishes, Covers, Next;
      var s := After(INITIAL, init);
      SoundBars(e, s);
      if Publishes(s, step) {
        MaterializePublishes(s, step);
        PublishingStep(e, s, step.task, step.work);
      } else {
        QuietStep(e, s, step, LastCovers(e, init));
      }
    }
  }

  lemma {:induction false} MaterializePublishes(s: System, step: Step)
    requires Publishes(s, step)
    ensures step == Materialize(step.task, step.work)
  {
  }

  /** Every interleaving with sound restarts: the current rows of a clean stream are those of recognition
      from scratch, up to the revisions that wrote them, exactly when its last publication was full,
      wrote nothing, or left no target with a current row behind: each had an anchor before `start` or
      was offered on a rewritten day. */
  lemma {:induction false} CleanRowsAreExact(e: Setting, steps: seq<Step>)
    requires AllowedRun(e, INITIAL, steps) && RestartableRun(e, INITIAL, steps)
    requires After(INITIAL, steps).stream.dirtyFrom.None?
    ensures CurrentRowsFresh(e, After(INITIAL, steps)) <==> LastCovers(e, steps)
  {
    RunTracksRows(e, steps);
    var s := After(INITIAL, steps);
    hide After, AllowedRun, RestartableRun, WorldOf, Represents, DatesOf, Lists, AgreeUntil, RowsMatch,
         CurrentRowsFresh,
         LastCovers, AllRows;
    var seen, dates, history :|
      Tracks(e, s, seen, dates, history) && (RowsMatch(s.log.current, history) <==> LastCovers(e, steps));
    AgreeAll(seen, WorldOf(e, s.rows, s.bars));
    FreshIsMatching(e, s, dates, history);
  }
}
