/** Properties of event logs over several publications: full-rebuild equivalence of current rows,
    silent replays, live edges that are never announced twice, and stable paging. */
module LogRuns {
  import opened Common
  import opened States
  import opened Timeline
  import opened EventLog

  // ---------------------------------------------------------------------------------------
  // Current rows after a suffix rewrite

  lemma {:induction false} UpdateOverMerge<K, V>(a: map<K, V>, b: map<K, V>, k: K, v: V)
    ensures a + b[k := v] == (a + b)[k := v]
  {
  }

  function RowOf(facts: Facts, o: Observation, revision: int): CurrentRow {
    CurrentRow(o.day, FactAfter(Get(facts, o.target), o), o.transition, o.detail, revision)
  }

  lemma {:induction false} LastRowsStep(facts: Facts, init: seq<Observation>, o: Observation, revision: int)
    ensures LastRows(facts, init + [o], revision)
         == LastRows(facts, init, revision)[o.target := RowOf(FoldFacts(facts, init), o, revision)]
  {
    assert (init + [o])[..|init|] == init;
  }

  lemma {:induction false} LastRowsSplit(facts: Facts, a: seq<Observation>, b: seq<Observation>, revision: int)
    ensures LastRows(facts, a + b, revision)
         == LastRows(facts, a, revision) + LastRows(FoldFacts(facts, a), b, revision)
  {
    if b == [] {
      assert a + b == a;
      assert LastRows(facts, a, revision) + map[] == LastRows(facts, a, revision);
    } else {
      hide LastRows, FoldFacts, RowOf;
      var init, o := b[..|b| - 1], b[|b| - 1];
      var mid := FoldFacts(facts, a);
      var row := RowOf(FoldFacts(mid, init), o, revision);
      assert b == init + [o] && a + b == (a + init) + [o];
      calc {
        LastRows(facts, a + b, revision);
        { LastRowsStep(facts, a + init, o, revision); FoldSplits(facts, a, init); }
        LastRows(facts, a + init, revision)[o.target := row];
        { LastRowsSplit(facts, a, init, revision); }
        (LastRows(facts, a, revision) + LastRows(mid, init, revision))[o.target := row];
        { UpdateOverMerge(LastRows(facts, a, revision), LastRows(mid, init, revision), o.target, row); }
        LastRows(facts, a, revision) + LastRows(mid, init, revision)[o.target := row];
        { LastRowsStep(mid, init, o, revision); }
        LastRows(facts, a, revision) + LastRows(mid, b, revision);
      }
    }
  }

  /** Every target with a current row or a fact before `start` is observed again in the suffix. */
  ghost predicate CoversKnown(log: Log, history: seq<Observation>, suffix: seq<Observation>, start: Date) {
    forall t: Target :: t in log.current || t in LastRows(map[], ObsBefore(history, start), 0) ==>
      exists o :: o in suffix && o.target == t
  }

  lemma {:induction false} LastRowsTargets(facts: Facts, facts': Facts, obs: seq<Observation>, r: int, r': int)
    ensures LastRows(facts, obs, r).Keys == LastRows(facts', obs, r').Keys
  {
    if obs != [] {
      LastRowsTargets(facts, facts', obs[..|obs| - 1], r, r');
    }
  }

  /** Rewriting a suffix that covers every known target and rebuilding everything at once leave
      the same valid events and the same current rows. */
  lemma {:induction false} SuffixRewriteIsFullRebuild(
    log: Log, other: Log, history: seq<Observation>, suffix: seq<Observation>,
    start: Date, through: Date, revision: int)
    requires Represents(log, history) && WellFormed(other) && Fits(suffix, Some(start), through)
    requires Publish(log, suffix, Some(start), through, revision).Accepted?
    requires Publish(other, ObsBefore(history, start) + suffix, None, through, revision).Accepted?
    ensures var partial := Publish(log, suffix, Some(start), through, revision).log;
            var full := Publish(other, ObsBefore(history, start) + suffix, None, through, revision).log;
            && ValidChanges(partial.events) == ValidChanges(full.events)
            && (CoversKnown(log, history, suffix, start) ==> partial.current == full.current)
  {
    SameTimeline(log, other, history, suffix, start, through, revision);
    if CoversKnown(log, history, suffix, start) {
      SameCurrent(log, other, history, suffix, start, through, revision);
    }
  }

  lemma {:induction false} FullTimeline(log: Log, obs: seq<Observation>, through: Date, revision: int)
    requires WellFormed(log) && Publish(log, obs, None, through, revision).Accepted?
    ensures ValidChanges(Publish(log, obs, None, through, revision).log.events) == FoldChanges(map[], Sort(obs))
  {
    PublishedTimeline(log, obs, None, through, revision);
    hide *;
    NoStart(log);
  }

  lemma {:induction false} NoStart(log: Log)
    ensures Kept(ValidChanges(log.events), None) == [] && Anchors(log, None) == map[]
  {
  }

  lemma {:induction false} SameTimeline(
    log: Log, other: Log, history: seq<Observation>, suffix: seq<Observation>,
    start: Date, through: Date, revision: int)
    requires WellFormed(log) && Represents(log, history) && WellFormed(other) && Fits(suffix, Some(start), through)
    requires Sorted(history)
    requires Publish(log, suffix, Some(start), through, revision).Accepted?
    requires Publish(other, ObsBefore(history, start) + suffix, None, through, revision).Accepted?
    ensures ValidChanges(Publish(log, suffix, Some(start), through, revision).log.events)
         == ValidChanges(Publish(other, ObsBefore(history, start) + suffix, None, through, revision).log.events)
  {
    hide *;
    SuffixTimeline(log, history, suffix, start, through, revision);
    RewrittenHistory(history, suffix, start, through);
    FullTimeline(other, ObsBefore(history, start) + suffix, through, revision);
  }

  lemma {:induction false} PartialCurrent(log: Log, suffix: seq<Observation>, start: Date, through: Date, revision: int)
    requires Publish(log, suffix, Some(start), through, revision).Accepted?
    ensures Publish(log, suffix, Some(start), through, revision).log.current
         == log.current + LastRows(SeedAt(log.events, start - 1), Sort(suffix), revision)
  {
    hide LastRows, SeedAt, Sort, FoldChanges, WindowChanges, Invalidate, Numbered;
  }

  lemma {:induction false} FullCurrent(log: Log, obs: seq<Observation>, through: Date, revision: int)
    requires Publish(log, obs, None, through, revision).Accepted?
    ensures Publish(log, obs, None, through, revision).log.current == LastRows(map[], Sort(obs), revision)
  {
    hide LastRows, Sort, FoldChanges, WindowChanges, Invalidate, Numbered;
    var rows := LastRows(map[], Sort(obs), revision);
    assert map[] + rows == rows;
  }

  /** Merging rows over others leaves only the former when they cover the latter. */
  lemma {:induction false} Overwrites(prior: map<Target, CurrentRow>, rows: map<Target, CurrentRow>)
    requires forall t: Target :: t in prior ==> t in rows
    ensures prior + rows == rows
  {
  }

  lemma {:induction false} SuffixCovers(
    log: Log, head: seq<Observation>, suffix: seq<Observation>, facts: Facts, revision: int, t: Target)
    requires t in LastRows(map[], head, revision) <==> t in LastRows(map[], head, 0)
    requires t in log.current || t in LastRows(map[], head, 0) ==> exists o :: o in suffix && o.target == t
    requires t in log.current || t in LastRows(map[], head, revision)
    ensures t in LastRows(facts, Sort(suffix), revision)
  {
    hide LastRows, Sort;
    var o :| o in suffix && o.target == t;
    SortMembers(suffix, o);
    LastRowsFrom(facts, Sort(suffix), revision, t);
  }

  lemma {:induction false} SameCurrent(
    log: Log, other: Log, history: seq<Observation>, suffix: seq<Observation>,
    start: Date, through: Date, revision: int)
    requires Represents(log, history) && Sorted(history) && Fits(suffix, Some(start), through)
    requires Publish(log, suffix, Some(start), through, revision).Accepted?
    requires Publish(other, ObsBefore(history, start) + suffix, None, through, revision).Accepted?
    requires CoversKnown(log, history, suffix, start)
    ensures Publish(log, suffix, Some(start), through, revision).log.current
         == Publish(other, ObsBefore(history, start) + suffix, None, through, revision).log.current
  {
    hide Publish, LastRows, FoldFacts, Sort, ObsBefore, SeedAt, Represents, Fits, Sorted;
    var head, tail := ObsBefore(history, start), Sort(suffix);
    var facts := FoldFacts(map[], head);
    var rows, headRows := LastRows(facts, tail, revision), LastRows(map[], head, revision);
    forall t: Target | t in log.current || t in headRows ensures t in rows {
      LastRowsTargets(map[], map[], head, revision, 0);
      SuffixCovers(log, head, suffix, facts, revision, t);
    }
    Overwrites(log.current, rows);
    Overwrites(headRows, rows);
    SameRows(log, other, history, suffix, start, through, revision);
  }

  lemma {:induction false} SameRows(
    log: Log, other: Log, history: seq<Observation>, suffix: seq<Observation>,
    start: Date, through: Date, revision: int)
    requires Represents(log, history) && Sorted(history) && Fits(suffix, Some(start), through)
    requires Publish(log, suffix, Some(start), through, revision).Accepted?
    requires Publish(other, ObsBefore(history, start) + suffix, None, through, revision).Accepted?
    ensures var head := ObsBefore(history, start);
            var rows := LastRows(FoldFacts(map[], head), Sort(suffix), revision);
            && Publish(log, suffix, Some(start), through, revision).log.current == log.current + rows
            && Publish(other, head + suffix, None, through, revision).log.current
               == LastRows(map[], head, revision) + rows
  {
    hide *;
    PartialCurrent(log, suffix, start, through, revision);
    SeedsAreFacts(log, history, start - 1);
    FullCurrent(other, ObsBefore(history, start) + suffix, through, revision);
    RewrittenHistory(history, suffix, start, through);
    LastRowsSplit(map[], ObsBefore(history, start), Sort(suffix), revision);
  }

  // ---------------------------------------------------------------------------------------
  // Replaying a batch is silent

  /** Anchors depend only on the valid changes up to their day. */
  lemma {:induction false} SeedsFromChanges(a: Log, b: Log, day: Date)
    requires WellFormed(a) && WellFormed(b)
    requires ChangesBefore(ValidChanges(a.events), day + 1) == ChangesBefore(ValidChanges(b.events), day + 1)
    ensures SeedAt(a.events, day) == SeedAt(b.events, day)
  {
    hide ValidChanges, ChangesBefore, RankOne, LastChange, Through;
    var x, y := SeedAt(a.events, day), SeedAt(b.events, day);
    forall t: Target
      ensures t in x <==> t in y
      ensures t in x ==> x[t] == y[t]
    {
      RankOneIsLast(a.events, a.sequence, t, day);
      RankOneIsLast(b.events, b.sequence, t, day);
      var p, q := RankOne(a.events, t, day), RankOne(b.events, t, day);
      if p.Some? { assert p.value.change.target in Targets(a.events); }
      if q.Some? { assert q.value.change.target in Targets(b.events); }
    }
    assert x.Keys == y.Keys;
  }

  lemma {:induction false} BeforeOfKept(v: seq<Change>, more: seq<Change>, start: Date)
    requires forall c :: c in more ==> start <= c.day
    ensures ChangesBefore(ChangesBefore(v, start) + more, start) == ChangesBefore(v, start)
  {
    var head := ChangesBefore(v, start);
    ChangesBeforeSplits(head, more, start);
    NoneBefore(more, start);
    ChangesBeforeMembers(v, start);
    AllBefore(head, start);
    assert head + [] == head;
  }

  lemma {:induction false} Cancel<T>(a: seq<T>, b: seq<T>, c: seq<T>)
    requires a + b == a + c
    ensures b == c
  {
    assert b == (a + b)[|a|..] && c == (a + c)[|a|..];
  }

  lemma {:induction false} ValidThrough(
    log: Log, obs: seq<Observation>, start: Option<Date>, through: Date, revision: int)
    requires WellFormed(log) && Fits(obs, start, through)
    requires Publish(log, obs, start, through, revision).Accepted?
    ensures var next := Publish(log, obs, start, through, revision).log;
            WellFormed(next) && forall c :: c in ValidChanges(next.events) ==> c.day <= through
  {
    hide Publish, ValidChanges, Fits;
    PublishKeepsWellFormed(log, obs, start, through, revision);
    CurrentReaches(log, obs, start, through, revision);
  }

  /** After a publication, its own window holds exactly its own changes and its anchors still stand. */
  lemma {:induction false} WindowAfter(
    log: Log, obs: seq<Observation>, start: Option<Date>, through: Date, revision: int)
    requires WellFormed(log) && Fits(obs, start, through)
    requires Publish(log, obs, start, through, revision).Accepted?
    ensures var next := Publish(log, obs, start, through, revision).log;
            && Anchors(next, start) == Anchors(log, start)
            && WindowChanges(next.events, start, through) == FoldChanges(Anchors(log, start), Sort(obs))
  {
    hide Publish, ValidChanges, FoldChanges, Sort, Kept, Anchors, WindowChanges, Fits, InOrder, NumbersIncrease;
    var next := Publish(log, obs, start, through, revision).log;
    var changes := FoldChanges(Anchors(log, start), Sort(obs));
    PublishedTimeline(log, obs, start, through, revision);
    ValidThrough(log, obs, start, through, revision);
    BatchChangesFit(Anchors(log, start), obs, start, through);
    KeptAfter(log, next, start, changes);
    KeptThenWindow(next.events, start, through);
    Cancel(Kept(ValidChanges(log.events), start), changes, WindowChanges(next.events, start, through));
  }

  lemma {:induction false} KeptAfter(log: Log, next: Log, start: Option<Date>, changes: seq<Change>)
    requires WellFormed(log) && WellFormed(next)
    requires ValidChanges(next.events) == Kept(ValidChanges(log.events), start) + changes
    requires start.Some? ==> forall c :: c in changes ==> start.value <= c.day
    ensures Kept(ValidChanges(next.events), start) == Kept(ValidChanges(log.events), start)
    ensures Anchors(next, start) == Anchors(log, start)
  {
    hide ValidChanges, ChangesBefore, SeedAt, WellFormed;
    if start.Some? {
      BeforeOfKept(ValidChanges(log.events), changes, start.value);
      SeedsFromChanges(log, next, start.value - 1);
    }
  }

  /** Current rows that differ at most in the revision that wrote them. */
  ghost predicate SameButRevision(a: map<Target, CurrentRow>, b: map<Target, CurrentRow>) {
    forall t: Target :: (t in a <==> t in b) && (t in a ==> SameRow(a[t], b[t]))
  }

  predicate SameRow(a: CurrentRow, b: CurrentRow) { a == b.(revision := a.revision) }

  /** Replaying a batch writes nothing, whatever the source revision has become: it refreshes at most
      the revisions of current rows, and it moves the paging generation exactly when the current rows
      do not reach the target day. */
  lemma {:induction false} ReplayIsSilent(
    log: Log, obs: seq<Observation>, start: Option<Date>, through: Date, revision: int, later: int)
    requires WellFormed(log) && Fits(obs, start, through)
    requires Publish(log, obs, start, through, revision).Accepted?
    ensures var next := Publish(log, obs, start, through, revision).log;
            var again := Publish(next, obs, start, through, later);
            && again.Accepted? && again.written == 0
            && again.log.events == next.events && again.log.sequence == next.sequence
            && SameButRevision(again.log.current, next.current)
            && (later == revision ==> again.log.current == next.current)
            && (again.log.generation == next.generation <==> Through(next.current) == Some(through))
            && ((exists o :: o in obs && o.day == through) ==> again.log.generation == next.generation)
  {
    hide LastRows, Sort, FoldChanges, WindowChanges, Invalidate, Numbered, Anchors, WellFormed, Fits, SameButRevision;
    var next := Publish(log, obs, start, through, revision).log;
    WindowAfter(log, obs, start, through, revision);
    CurrentReaches(log, obs, start, through, revision);
    RowsAfterReplay(log, obs, start, through, revision, later);
    if o :| o in obs && o.day == through {
      assert Through(next.current).value == through;
    }
  }

  lemma {:induction false} LastRowsRevised(facts: Facts, obs: seq<Observation>, r: int, r': int)
    ensures SameButRevision(LastRows(facts, obs, r), LastRows(facts, obs, r'))
  {
    if obs != [] {
      LastRowsRevised(facts, obs[..|obs| - 1], r, r');
      hide FoldFacts, FactAfter;
    }
  }

  lemma {:induction false} RowsAfterReplay(
    log: Log, obs: seq<Observation>, start: Option<Date>, through: Date, revision: int, later: int)
    requires Publish(log, obs, start, through, revision).Accepted?
    ensures var next := Publish(log, obs, start, through, revision).log;
            var kept: map<Target, CurrentRow> := if start.None? then map[] else next.current;
            && SameButRevision(kept + LastRows(Anchors(log, start), Sort(obs), later), next.current)
            && (later == revision ==> kept + LastRows(Anchors(log, start), Sort(obs), later) == next.current)
  {
    hide LastRows, Sort, FoldChanges, WindowChanges, Invalidate, Numbered, Anchors, WellFormed, Fits;
    LastRowsRevised(Anchors(log, start), Sort(obs), later, revision);
  }

  // ---------------------------------------------------------------------------------------
  // Runs of publications

  datatype Batch = Batch(obs: seq<Observation>, start: Option<Date>, through: Date, revision: int)

  /** A stream's log together with its `state_through` watermark. */
  datatype Stream = Stream(log: Log, stateThrough: Option<Date>)

  const FRESH_STREAM := Stream(EMPTY_LOG, None)

  /** What recognition hands over: one row per day and target, and a non-empty batch ends at `through`. */
  ghost predicate Proper(b: Batch) {
    && Fits(b.obs, b.start, b.through)
    && Distinct(b.obs)
    && (b.obs == [] || exists o :: o in b.obs && o.day == b.through)
  }

  /** One materialization as the log sees it: refused behind the watermark, else published. */
  ghost function Materialize(s: Stream, b: Batch): (r: Stream) {
    if s.stateThrough.Some? && b.through < s.stateThrough.value then s
    else
      match Publish(s.log, b.obs, b.start, b.through, b.revision)
      case StaleTarget => s
      case Accepted(log, _) => Stream(log, Some(b.through))
  }

  ghost function Run(s: Stream, bs: seq<Batch>): (r: Stream) {
    if bs == [] then s else Materialize(Run(s, bs[..|bs| - 1]), bs[|bs| - 1])
  }

  /** Every live event ever stored lies at or before the watermark and, while rows exist, their latest day. */
  ghost predicate LiveBounded(s: Stream) {
    && WellFormed(s.log)
    && (s.log.current != map[] ==> s.stateThrough.Some? && Through(s.log.current).value <= s.stateThrough.value)
    && (forall e :: e in s.log.events && !e.restated ==>
          && s.stateThrough.Some? && e.change.day <= s.stateThrough.value
          && (s.log.current != map[] ==> e.change.day <= Through(s.log.current).value))
  }

  /** At most one live event was ever stored per target and day, revised ones included. */
  ghost predicate AnnouncedOnce(events: seq<Event>) {
    forall i, j :: 0 <= i < j < |events| && !events[i].restated && !events[j].restated ==>
      events[i].change.day != events[j].change.day || events[i].change.target != events[j].change.target
  }

  ghost predicate DistinctChanges(cs: seq<Change>) {
    forall i, j :: 0 <= i < j < |cs| ==> cs[i].day != cs[j].day || cs[i].target != cs[j].target
  }

  lemma {:induction false} FoldChangesDistinct(facts: Facts, obs: seq<Observation>)
    requires StrictlySorted(obs)
    ensures DistinctChanges(FoldChanges(facts, obs))
  {
    hide FoldFacts, FoldChanges, StrictlySorted, FactAfter;
    if obs == [] {
      FoldNothing(facts);
    } else {
      var init, o := obs[..|obs| - 1], obs[|obs| - 1];
      InitMembers(obs);
      FoldChangesDistinct(facts, init);
      FoldChangesDays(facts, init);
      var before := FoldChanges(facts, init);
      assert obs == init + [o];
      FoldLast(facts, init, o);
      forall i | 0 <= i < |before| ensures before[i].day != o.day || before[i].target != o.target {
        assert before[i] in before;
        var x :| x in init && x.day == before[i].day && x.target == before[i].target;
        EarlierRow(obs, x);
      }
    }
  }

  lemma {:induction false} EarlierRow(obs: seq<Observation>, x: Observation)
    requires StrictlySorted(obs) && obs != [] && x in obs[..|obs| - 1]
    ensures x.day != obs[|obs| - 1].day || x.target != obs[|obs| - 1].target
  {
    var k :| 0 <= k < |obs| - 1 && obs[k] == x;
    assert Before(obs[k], obs[|obs| - 1]);
  }

  lemma {:induction false} AnnouncedOnceExtends(
    events: seq<Event>, start: Option<Date>, through: Date, cs: seq<Change>,
    sequence: nat, previous: Option<Date>, revision: int)
    requires AnnouncedOnce(events) && DistinctChanges(cs)
    requires forall e :: e in events && !e.restated && previous.Some? ==> e.change.day <= previous.value
    ensures AnnouncedOnce(Invalidate(events, start, through) + Numbered(cs, sequence, previous, revision))
  {
    var prior, added := Invalidate(events, start, through), Numbered(cs, sequence, previous, revision);
    var all := prior + added;
    forall i, j | 0 <= i < j < |all| && !all[i].restated && !all[j].restated
      ensures all[i].change.day != all[j].change.day || all[i].change.target != all[j].change.target
    {
      if j < |events| {
        assert !events[i].restated && !events[j].restated;
      } else if i < |events| {
        assert events[i] in events;
      }
    }
  }

  lemma {:induction false} NextEvents(s: Stream, b: Batch)
    requires Publish(s.log, b.obs, b.start, b.through, b.revision).Accepted?
    ensures var next := Publish(s.log, b.obs, b.start, b.through, b.revision).log;
            var changes := FoldChanges(Anchors(s.log, b.start), Sort(b.obs));
            next.events == s.log.events ||
            next.events == Invalidate(s.log.events, b.start, b.through)
                           + Numbered(changes, s.log.sequence, Through(s.log.current), b.revision)
  {
    hide LastRows, Sort, FoldChanges, WindowChanges, Invalidate, Numbered, Anchors;
  }

  lemma {:induction false} NoChanges(facts: Facts)
    ensures FoldChanges(facts, Sort([])) == []
  {
  }

  lemma {:induction false} AcceptedIsNotStale(s: Stream, b: Batch)
    requires Publish(s.log, b.obs, b.start, b.through, b.revision).Accepted?
    ensures s.log.current != map[] ==> Through(s.log.current).value <= b.through
  {
  }

  lemma {:induction false} AcceptedStaysBounded(s: Stream, b: Batch)
    requires LiveBounded(s) && Proper(b)
    requires s.stateThrough.Some? ==> s.stateThrough.value <= b.through
    requires Publish(s.log, b.obs, b.start, b.through, b.revision).Accepted?
    ensures LiveBounded(Stream(Publish(s.log, b.obs, b.start, b.through, b.revision).log, Some(b.through)))
  {
    hide Publish, FoldChanges, Sort, Anchors, Invalidate, Numbered, WellFormed, Fits, Distinct;
    var next := Publish(s.log, b.obs, b.start, b.through, b.revision).log;
    var changes := FoldChanges(Anchors(s.log, b.start), Sort(b.obs));
    PublishKeepsWellFormed(s.log, b.obs, b.start, b.through, b.revision);
    CurrentReaches(s.log, b.obs, b.start, b.through, b.revision);
    BatchChangesFit(Anchors(s.log, b.start), b.obs, b.start, b.through);
    NextEvents(s, b);
    AcceptedIsNotStale(s, b);
    if b.obs == [] { NoChanges(Anchors(s.log, b.start)); }
    forall e | e in next.events && !e.restated
      ensures e.change.day <= b.through && (next.current != map[] ==> e.change.day <= Through(next.current).value)
    {
      LiveEventOrigin(s.log.events, b.start, b.through, changes, s.log.sequence, Through(s.log.current), b.revision, e);
    }
  }

  lemma {:induction false} LiveStaysBounded(s: Stream, b: Batch)
    requires LiveBounded(s) && Proper(b)
    ensures LiveBounded(Materialize(s, b))
  {
    hide Publish, LiveBounded, Proper;
    if Publish(s.log, b.obs, b.start, b.through, b.revision).Accepted?
       && (s.stateThrough.Some? ==> s.stateThrough.value <= b.through) {
      AcceptedStaysBounded(s, b);
    }
  }

  /** A live event after a publication was live before it, or is new and past the previous rows. */
  lemma {:induction false} LiveEventOrigin(
    events: seq<Event>, start: Option<Date>, through: Date, cs: seq<Change>,
    sequence: nat, previous: Option<Date>, revision: int, e: Event)
    requires e in events || e in Invalidate(events, start, through) + Numbered(cs, sequence, previous, revision)
    requires !e.restated
    ensures (exists x :: x in events && !x.restated && x.change == e.change)
         || (e.change in cs && previous.Some? && previous.value < e.change.day)
  {
    if e !in events {
      var prior, added := Invalidate(events, start, through), Numbered(cs, sequence, previous, revision);
      if e in prior {
        var i :| 0 <= i < |prior| && prior[i] == e;
        assert events[i] in events;
      } else {
        var i :| 0 <= i < |added| && added[i] == e;
      }
    }
  }

  lemma {:induction false} StepAnnouncesOnce(s: Stream, b: Batch)
    requires LiveBounded(s) && Proper(b) && AnnouncedOnce(s.log.events)
    ensures AnnouncedOnce(Materialize(s, b).log.events)
  {
    var r := Publish(s.log, b.obs, b.start, b.through, b.revision);
    if r.Accepted? {
      NextEvents(s, b);
      SortStrictly(b.obs);
      var changes := FoldChanges(Anchors(s.log, b.start), Sort(b.obs));
      FoldChangesDistinct(Anchors(s.log, b.start), Sort(b.obs));
      hide Publish, WellFormed, FoldChanges, Sort, Anchors;
      AnnouncedOnceExtends(s.log.events, b.start, b.through, changes, s.log.sequence, Through(s.log.current),
                           b.revision);
    }
  }

  lemma {:induction false} RunKeepsLive(bs: seq<Batch>)
    requires forall b :: b in bs ==> Proper(b)
    ensures LiveBounded(Run(FRESH_STREAM, bs))
    ensures AnnouncedOnce(Run(FRESH_STREAM, bs).log.events)
  {
    if bs != [] {
      RunKeepsLive(bs[..|bs| - 1]);
      assert bs[|bs| - 1] in bs;
      hide Materialize, LiveBounded, AnnouncedOnce, Proper;
      LiveStaysBounded(Run(FRESH_STREAM, bs[..|bs| - 1]), bs[|bs| - 1]);
      StepAnnouncesOnce(Run(FRESH_STREAM, bs[..|bs| - 1]), bs[|bs| - 1]);
    }
  }

  /** Over every run of materializations, at most one live event is stored per target and day. */
  lemma {:induction false} LiveEdgesAnnouncedOnce(bs: seq<Batch>, i: nat, j: nat)
    requires forall b :: b in bs ==> Proper(b)
    requires i < j < |Run(FRESH_STREAM, bs).log.events|
    requires var events := Run(FRESH_STREAM, bs).log.events;
             events[i].change.day == events[j].change.day && events[i].change.target == events[j].change.target
    ensures var events := Run(FRESH_STREAM, bs).log.events; events[i].restated || events[j].restated
  {
    RunKeepsLive(bs);
  }
}
