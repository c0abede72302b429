/** The persisted event log of one stream, and what one publication does to it. */
module EventLog {
  import opened Common
  import opened States
  import opened Timeline

  /** A stored event; revised ones stay in the log with `valid` cleared. */
  datatype Event = Event(number: nat, change: Change, valid: bool, restated: bool, revision: int)

  datatype CurrentRow = CurrentRow(day: Date, fact: Fact, transition: bool, detail: Detail, revision: int)

  datatype Log = Log(
    events: seq<Event>, current: map<Target, CurrentRow>, sequence: nat, generation: nat)

  const EMPTY_LOG := Log([], map[], 0, 0)

  datatype Published = Accepted(log: Log, written: nat) | StaleTarget

  function CurrentDays(current: map<Target, CurrentRow>): (r: set<Date>) {
    set t | t in current :: current[t].day
  }

  /** The latest day of any current row: the source's `previous_through`. */
  ghost function Through(current: map<Target, CurrentRow>): (r: Option<Date>)
    ensures r.None? <==> current == map[]
    ensures r.Some? ==> forall t :: t in current ==> current[t].day <= r.value
    ensures r.Some? ==> exists t :: t in current && current[t].day == r.value
  {
    if current == map[] then None
    else
      CurrentDaysInhabited(current);
      var m := Latest(CurrentDays(current));
      assert forall t :: t in current ==> current[t].day in CurrentDays(current);
      Some(m)
  }

  lemma {:induction false} EmptyMap(current: map<Target, CurrentRow>)
    requires forall t :: t !in current
    ensures current == map[]
  {
    assert current == map[];
  }

  lemma {:induction false} CurrentDaysInhabited(current: map<Target, CurrentRow>)
    requires current != map[]
    ensures CurrentDays(current) != {}
  {
    if forall t :: t !in current {
      EmptyMap(current);
    } else {
      var t :| t in current;
      assert current[t].day in CurrentDays(current);
    }
  }

  // ---------------------------------------------------------------------------------------
  // Queries

  /** The contents of the valid events, in log order. */
  function ValidChanges(events: seq<Event>): (r: seq<Change>) {
    if events == [] then []
    else
      ValidChanges(events[..|events| - 1])
      + if events[|events| - 1].valid then [events[|events| - 1].change] else []
  }

  /** Which events one publication replaces. */
  predicate InWindow(e: Event, start: Option<Date>, through: Date) {
    e.valid && e.change.day <= through && (start.None? || start.value <= e.change.day)
  }

  function WindowChanges(events: seq<Event>, start: Option<Date>, through: Date): (r: seq<Change>) {
    if events == [] then []
    else
      WindowChanges(events[..|events| - 1], start, through)
      + if InWindow(events[|events| - 1], start, through) then [events[|events| - 1].change] else []
  }

  predicate Candidate(e: Event, t: Target, day: Date) {
    e.valid && e.change.target == t && e.change.day <= day
  }

  predicate RanksAbove(a: Event, b: Event) {
    a.change.day > b.change.day || (a.change.day == b.change.day && a.number > b.number)
  }

  /** The valid event of `t` at or before `day` that ranks first by day, then by number. */
  function RankOne(events: seq<Event>, t: Target, day: Date): (r: Option<Event>)
    ensures r.Some? ==> r.value in events && Candidate(r.value, t, day)
    ensures forall e :: e in events && Candidate(e, t, day) ==> r.Some? && !RanksAbove(e, r.value)
  {
    if events == [] then None
    else
      var e := events[|events| - 1];
      var rest := RankOne(events[..|events| - 1], t, day);
      if Candidate(e, t, day) && (rest.None? || RanksAbove(e, rest.value)) then Some(e) else rest
  }

  function Targets(events: seq<Event>): (r: set<Target>) {
    set e | e in events :: e.change.target
  }

  /** Last confirmed fact at or before `day` for every target. */
  function SeedAt(events: seq<Event>, day: Date): (r: Facts) {
    map t | t in Targets(events) && RankOne(events, t, day).Some?
      :: RankOne(events, t, day).value.change.fact
  }

  // ---------------------------------------------------------------------------------------
  // One publication

  function Invalidate(events: seq<Event>, start: Option<Date>, through: Date): (r: seq<Event>)
    ensures |r| == |events|
  {
    seq(|events|, i requires 0 <= i < |events| =>
      if InWindow(events[i], start, through) then events[i].(valid := false) else events[i])
  }

  /** New events take the next numbers; days already published count as restatements. */
  function Numbered(cs: seq<Change>, sequence: nat, previous: Option<Date>, revision: int): (r: seq<Event>)
    ensures |r| == |cs|
  {
    seq(|cs|, i requires 0 <= i < |cs| =>
      Event(sequence + 1 + i, cs[i], true, previous.None? || cs[i].day <= previous.value, revision))
  }

  function LastRows(facts: Facts, obs: seq<Observation>, revision: int): (r: map<Target, CurrentRow>) {
    if obs == [] then map[]
    else
      var init, o := obs[..|obs| - 1], obs[|obs| - 1];
      LastRows(facts, init, revision)
      [o.target := CurrentRow(o.day, FactAfter(Get(FoldFacts(facts, init), o.target), o),
                              o.transition, o.detail, revision)]
  }

  function Anchors(log: Log, start: Option<Date>): (r: Facts) {
    if start.Some? then SeedAt(log.events, start.value - 1) else map[]
  }

  ghost function Publish(log: Log, obs: seq<Observation>, start: Option<Date>, through: Date, revision: int)
    : (r: Published)
  {
    var previous := Through(log.current);
    if previous.Some? && through < previous.value then StaleTarget
    else
      var ordered := Sort(obs);
      var anchors := Anchors(log, start);
      var changes := FoldChanges(anchors, ordered);
      var same := WindowChanges(log.events, start, through) == changes;
      var kept := if start.None? then map[] else log.current;
      var current := kept + LastRows(anchors, ordered, revision);
      var generation := if !same || previous != Some(through) then log.generation + 1 else log.generation;
      if same then Accepted(Log(log.events, current, log.sequence, generation), 0)
      else
        Accepted(
          Log(Invalidate(log.events, start, through) + Numbered(changes, log.sequence, previous, revision),
              current, log.sequence + |changes|, generation),
          |changes|)
  }

  // ---------------------------------------------------------------------------------------
  // What every log satisfies

  ghost predicate NumbersIncrease(events: seq<Event>, sequence: nat) {
    && (forall i :: 0 <= i < |events| ==> 0 < events[i].number <= sequence)
    && (forall i, j :: 0 <= i < j < |events| ==> events[i].number < events[j].number)
  }

  predicate ChangeNotAfter(a: Change, b: Change) {
    a.day < b.day || (a.day == b.day && a.target <= b.target)
  }

  ghost predicate InOrder(cs: seq<Change>) {
    forall i, j :: 0 <= i < j < |cs| ==> ChangeNotAfter(cs[i], cs[j])
  }

  /** Valid events lie in day and target order, none past the current rows. */
  ghost predicate WellFormed(log: Log) {
    && NumbersIncrease(log.events, log.sequence)
    && InOrder(ValidChanges(log.events))
    && (forall c :: c in ValidChanges(log.events) ==> log.current != map[] && c.day <= Through(log.current).value)
  }

  /** The caller's contract: a batch stays inside the window it replaces. */
  ghost predicate Fits(obs: seq<Observation>, start: Option<Date>, through: Date) {
    forall o :: o in obs ==> o.day <= through && (start.Some? ==> start.value <= o.day)
  }

  /** The part of a timeline that a publication from `start` leaves alone. */
  function Kept(cs: seq<Change>, start: Option<Date>): (r: seq<Change>) {
    if start.Some? then ChangesBefore(cs, start.value) else []
  }

  lemma {:induction false} ValidSplits(a: seq<Event>, b: seq<Event>)
    ensures ValidChanges(a + b) == ValidChanges(a) + ValidChanges(b)
  {
    if b == [] {
      assert a + b == a;
    } else {
      ValidSplits(a, b[..|b| - 1]);
      assert (a + b)[..|a + b| - 1] == a + b[..|b| - 1];
    }
  }

  lemma {:induction false} NumberedAreValid(cs: seq<Change>, sequence: nat, previous: Option<Date>, revision: int)
    ensures ValidChanges(Numbered(cs, sequence, previous, revision)) == cs
  {
    var es := Numbered(cs, sequence, previous, revision);
    if cs != [] {
      var init := cs[..|cs| - 1];
      NumberedAreValid(init, sequence, previous, revision);
      assert es[..|es| - 1] == Numbered(init, sequence, previous, revision);
      assert cs == init + [cs[|cs| - 1]];
    }
  }

  lemma {:induction false} InvalidateKeeps(events: seq<Event>, start: Option<Date>, through: Date)
    requires forall c :: c in ValidChanges(events) ==> c.day <= through
    ensures ValidChanges(Invalidate(events, start, through)) == Kept(ValidChanges(events), start)
  {
    if events != [] {
      var init, e := events[..|events| - 1], events[|events| - 1];
      var v := ValidChanges(init);
      var tail := if e.valid then [e.change] else [];
      assert ValidChanges(events) == v + tail;
      InvalidateKeeps(init, start, through);
      var r := Invalidate(events, start, through);
      assert r[..|r| - 1] == Invalidate(init, start, through);
      if start.Some? {
        ChangesBeforeSplits(v, tail, start.value);
        if e.valid {
          assert e.change in ValidChanges(events);
          assert tail[..0] == [];
        }
      } else if e.valid {
        assert e.change in ValidChanges(events);
      }
    }
  }

  function ChangesFrom(cs: seq<Change>, day: Date): (r: seq<Change>) {
    if cs == [] then []
    else ChangesFrom(cs[..|cs| - 1], day) + if day <= cs[|cs| - 1].day then [cs[|cs| - 1]] else []
  }

  lemma {:induction false} WindowIsRest(events: seq<Event>, start: Option<Date>, through: Date)
    requires forall c :: c in ValidChanges(events) ==> c.day <= through
    ensures WindowChanges(events, start, through) ==
            if start.Some? then ChangesFrom(ValidChanges(events), start.value) else ValidChanges(events)
  {
    if events != [] {
      var init, e := events[..|events| - 1], events[|events| - 1];
      var v := ValidChanges(init);
      var tail := if e.valid then [e.change] else [];
      assert ValidChanges(events) == v + tail;
      WindowIsRest(init, start, through);
      if e.valid {
        assert e.change in ValidChanges(events);
        assert (v + tail)[..|v + tail| - 1] == v;
      } else {
        assert v + tail == v;
      }
    }
  }

  lemma {:induction false} OrderedSplits(cs: seq<Change>, day: Date)
    requires InOrder(cs)
    ensures cs == ChangesBefore(cs, day) + ChangesFrom(cs, day)
    ensures cs != [] && cs[|cs| - 1].day < day ==> ChangesFrom(cs, day) == []
  {
    if cs != [] {
      OrderedSplits(cs[..|cs| - 1], day);
      assert cs == cs[..|cs| - 1] + [cs[|cs| - 1]];
      if |cs| >= 2 {
        assert ChangeNotAfter(cs[|cs| - 2], cs[|cs| - 1]);
      }
    }
  }

  /** An ordered timeline is the kept part followed by the window. */
  lemma {:induction false} KeptThenWindow(events: seq<Event>, start: Option<Date>, through: Date)
    requires forall c :: c in ValidChanges(events) ==> c.day <= through
    requires InOrder(ValidChanges(events))
    ensures ValidChanges(events) == Kept(ValidChanges(events), start) + WindowChanges(events, start, through)
  {
    WindowIsRest(events, start, through);
    if start.Some? {
      OrderedSplits(ValidChanges(events), start.value);
    }
  }

  /** After any publication the valid timeline is the kept prefix plus the refolded batch. */
  lemma {:induction false} PublishedTimeline(
    log: Log, obs: seq<Observation>, start: Option<Date>, through: Date, revision: int)
    requires WellFormed(log) && Publish(log, obs, start, through, revision).Accepted?
    ensures ValidChanges(Publish(log, obs, start, through, revision).log.events)
         == Kept(ValidChanges(log.events), start) + FoldChanges(Anchors(log, start), Sort(obs))
  {
    var v := ValidChanges(log.events);
    var changes := FoldChanges(Anchors(log, start), Sort(obs));
    assert forall c :: c in v ==> c.day <= through;
    KeptThenWindow(log.events, start, through);
    if WindowChanges(log.events, start, through) != changes {
      var prior := Invalidate(log.events, start, through);
      var added := Numbered(changes, log.sequence, Through(log.current), revision);
      InvalidateKeeps(log.events, start, through);
      NumberedAreValid(changes, log.sequence, Through(log.current), revision);
      ValidSplits(prior, added);
    }
  }

  lemma {:induction false} ValidIn(events: seq<Event>, e: Event)
    requires e in events && e.valid
    ensures e.change in ValidChanges(events)
  {
    var init, last := events[..|events| - 1], events[|events| - 1];
    if e != last {
      assert events == init + [last];
      ValidIn(init, e);
    }
  }

  // ---------------------------------------------------------------------------------------
  // Anchors are the facts of the history before the cut

  lemma {:induction false} RankOneIsLast(events: seq<Event>, sequence: nat, t: Target, day: Date)
    requires NumbersIncrease(events, sequence) && InOrder(ValidChanges(events))
    ensures var last := LastChange(ChangesBefore(ValidChanges(events), day + 1), t);
            var r := RankOne(events, t, day);
            last == if r.Some? then Some(r.value.change) else None
  {
    if events != [] {
      var init, e := events[..|events| - 1], events[|events| - 1];
      var v, all := ValidChanges(init), ValidChanges(events);
      var tail := if e.valid then [e.change] else [];
      assert all == v + tail;
      assert forall i :: 0 <= i < |v| ==> all[i] == v[i];
      RankOneIsLast(init, sequence, t, day);
      ChangesBeforeSplits(v, tail, day + 1);
      hide ValidChanges, NumbersIncrease;
      if e.valid {
        assert tail[..0] == [];
        LastChangeSplits(ChangesBefore(v, day + 1), ChangesBefore(tail, day + 1), t);
        var rest := RankOne(init, t, day);
        if Candidate(e, t, day) && rest.Some? {
          EarlierValid(init, e, rest.value);
        }
      } else {
        assert v + tail == v;
      }
    }
  }

  lemma {:induction false} EarlierValid(init: seq<Event>, e: Event, r: Event)
    requires r in init && r.valid && e.valid
    requires InOrder(ValidChanges(init) + [e.change])
    requires forall x :: x in init ==> x.number < e.number
    ensures RanksAbove(e, r)
  {
    var v := ValidChanges(init);
    ValidMember(init, r);
    var i :| 0 <= i < |v| && v[i] == r.change;
    var all := v + [e.change];
    assert ChangeNotAfter(all[i], all[|v|]);
  }

  lemma {:induction false} ValidMember(events: seq<Event>, r: Event)
    requires r in events && r.valid
    ensures r.change in ValidChanges(events)
  {
    if r != events[|events| - 1] {
      ValidMember(events[..|events| - 1], r);
    }
  }

  /** A log represents a history when its valid events are that history folded from nothing. */
  ghost predicate Represents(log: Log, history: seq<Observation>) {
    && WellFormed(log)
    && Sorted(history)
    && ValidChanges(log.events) == FoldChanges(map[], history)
  }

  lemma {:induction false} RepresentsWell(log: Log, history: seq<Observation>)
    requires Represents(log, history)
    ensures WellFormed(log)
  {
  }

  /** The anchors read back from the log are the facts of the history up to that day. */
  lemma {:induction false} SeedsAreFacts(log: Log, history: seq<Observation>, day: Date)
    requires Represents(log, history)
    ensures SeedAt(log.events, day) == FoldFacts(map[], ObsBefore(history, day + 1))
  {
    var head := ObsBefore(history, day + 1);
    var seeds, facts := SeedAt(log.events, day), FoldFacts(map[], head);
    forall t: Target
      ensures t in seeds <==> t in facts
      ensures t in seeds ==> seeds[t] == facts[t]
    {
      RankOneIsLast(log.events, log.sequence, t, day);
      CutChanges(history, day + 1);
      FactsAreLastChanges(head, t);
      var r := RankOne(log.events, t, day);
      if r.Some? { assert r.value.change.target in Targets(log.events); }
    }
    assert seeds.Keys == facts.Keys;
  }

  // ---------------------------------------------------------------------------------------
  // Publication keeps every log well formed

  lemma {:induction false} FoldChangesInOrder(facts: Facts, obs: seq<Observation>)
    requires Sorted(obs)
    ensures InOrder(FoldChanges(facts, obs))
  {
    if obs != [] {
      var init, o := obs[..|obs| - 1], obs[|obs| - 1];
      FoldChangesInOrder(facts, init);
      FoldChangesDays(facts, init);
      var before := FoldChanges(facts, init);
      assert FoldChanges(facts, obs) == before + ChangeOf(Get(FoldFacts(facts, init), o.target), o);
      hide FoldFacts, FoldChanges;
      forall i | 0 <= i < |before|
        ensures before[i].day < o.day || (before[i].day == o.day && before[i].target <= o.target)
      {
        assert before[i] in before;
        var x :| x in init && x.day == before[i].day && x.target == before[i].target;
        var k :| 0 <= k < |init| && init[k] == x;
        assert NotAfter(obs[k], obs[|obs| - 1]);
      }
    }
  }

  lemma {:induction false} ChangesBeforeMembers(cs: seq<Change>, day: Date)
    ensures forall c :: c in ChangesBefore(cs, day) <==> c in cs && c.day < day
  {
    if cs != [] {
      ChangesBeforeMembers(cs[..|cs| - 1], day);
      assert cs == cs[..|cs| - 1] + [cs[|cs| - 1]];
    }
  }

  lemma {:induction false} KeptInOrder(cs: seq<Change>, start: Option<Date>, more: seq<Change>)
    requires InOrder(cs) && InOrder(more)
    requires start.Some? ==> forall c :: c in more ==> start.value <= c.day
    ensures InOrder(Kept(cs, start) + more)
  {
    if start.Some? {
      OrderedSplits(cs, start.value);
      ChangesBeforeMembers(cs, start.value);
      var head := ChangesBefore(cs, start.value);
      var all := head + more;
      forall i, j | 0 <= i < j < |all| ensures ChangeNotAfter(all[i], all[j]) {
        if j < |head| {
          assert ChangeNotAfter(cs[i], cs[j]);
        } else if i < |head| {
          assert head[i] in head && more[j - |head|] in more;
        } else {
          assert ChangeNotAfter(more[i - |head|], more[j - |head|]);
        }
      }
    } else {
      assert [] + more == more;
    }
  }

  lemma {:induction false} LastRowsCover(facts: Facts, obs: seq<Observation>, revision: int, k: nat)
    requires Sorted(obs) && k < |obs|
    ensures obs[k].target in LastRows(facts, obs, revision)
    ensures obs[k].day <= LastRows(facts, obs, revision)[obs[k].target].day
  {
    if k < |obs| - 1 {
      LastRowsCover(facts, obs[..|obs| - 1], revision, k);
      assert NotAfter(obs[k], obs[|obs| - 1]);
    }
  }

  lemma {:induction false} LastRowsFrom(facts: Facts, obs: seq<Observation>, revision: int, t: Target)
    ensures t in LastRows(facts, obs, revision) <==> exists o :: o in obs && o.target == t
    ensures t in LastRows(facts, obs, revision) ==>
      exists o :: o in obs && o.target == t && o.day == LastRows(facts, obs, revision)[t].day
  {
    if obs != [] {
      var init, o := obs[..|obs| - 1], obs[|obs| - 1];
      LastRowsFrom(facts, init, revision, t);
      assert obs == init + [o];
      assert o in obs;
    }
  }

  lemma {:induction false} SortMembers(obs: seq<Observation>, o: Observation)
    ensures o in Sort(obs) <==> o in obs
  {
    assert o in multiset(Sort(obs)) <==> o in multiset(obs);
  }

  /** Every change of the refolded batch lies inside the batch's window. */
  lemma {:induction false} BatchChangesFit(facts: Facts, obs: seq<Observation>, start: Option<Date>, through: Date)
    requires Fits(obs, start, through)
    ensures forall c :: c in FoldChanges(facts, Sort(obs)) ==>
              c.day <= through && (start.Some? ==> start.value <= c.day)
  {
    FoldChangesDays(facts, Sort(obs));
    forall c | c in FoldChanges(facts, Sort(obs))
      ensures c.day <= through && (start.Some? ==> start.value <= c.day)
    {
      var o :| o in Sort(obs) && o.day == c.day && o.target == c.target;
      SortMembers(obs, o);
    }
  }

  lemma {:induction false} NumbersKeepIncreasing(events: seq<Event>, sequence: nat, start: Option<Date>, through: Date,
                              cs: seq<Change>, previous: Option<Date>, revision: int)
    requires NumbersIncrease(events, sequence)
    ensures NumbersIncrease(
              Invalidate(events, start, through) + Numbered(cs, sequence, previous, revision), sequence + |cs|)
  {
  }

  lemma {:induction false} NoRows(facts: Facts, revision: int)
    ensures LastRows(facts, Sort([]), revision) == map[]
  {
  }

  lemma {:induction false} CurrentReaches(
    log: Log, obs: seq<Observation>, start: Option<Date>, through: Date, revision: int)
    requires Fits(obs, start, through) && Publish(log, obs, start, through, revision).Accepted?
    ensures var current := Publish(log, obs, start, through, revision).log.current;
            && (forall t :: t in current ==> current[t].day <= through)
            && (forall o :: o in obs ==> current != map[] && o.day <= Through(current).value)
            && (obs == [] && start.Some? ==> current == log.current)
            && (obs == [] && start.None? ==> current == map[])
  {
    hide LastRows, Sort, Anchors, FoldChanges, WindowChanges, Invalidate, Numbered;
    var ordered, anchors := Sort(obs), Anchors(log, start);
    var rows := LastRows(anchors, ordered, revision);
    var kept: map<Target, CurrentRow> := if start.None? then map[] else log.current;
    var current := kept + rows;
    SortSorts(obs);
    forall t | t in current ensures current[t].day <= through {
      if t in rows {
        LastRowsFrom(anchors, ordered, revision, t);
        var o :| o in ordered && o.target == t && o.day == rows[t].day;
        SortMembers(obs, o);
      }
    }
    forall o | o in obs ensures current != map[] && o.day <= Through(current).value {
      SortMembers(obs, o);
      var k :| 0 <= k < |ordered| && ordered[k] == o;
      LastRowsCover(anchors, ordered, revision, k);
      assert o.target in current && o.day <= current[o.target].day;
    }
    if obs == [] {
      NoRows(anchors, revision);
      assert kept + map[] == kept;
    }
  }

  lemma {:induction false} PublishKeepsWellFormed(
    log: Log, obs: seq<Observation>, start: Option<Date>, through: Date, revision: int)
    requires WellFormed(log) && Fits(obs, start, through)
    requires Publish(log, obs, start, through, revision).Accepted?
    ensures WellFormed(Publish(log, obs, start, through, revision).log)
  {
    var anchors, ordered := Anchors(log, start), Sort(obs);
    var next := Publish(log, obs, start, through, revision).log;
    var v, changes := ValidChanges(log.events), FoldChanges(anchors, ordered);
    PublishedTimeline(log, obs, start, through, revision);
    SortSorts(obs);
    FoldChangesInOrder(anchors, ordered);
    BatchChangesFit(anchors, obs, start, through);
    KeptInOrder(v, start, changes);
    NumbersKeepIncreasing(log.events, log.sequence, start, through, changes, Through(log.current), revision);
    CurrentReaches(log, obs, start, through, revision);
    forall c | c in ValidChanges(next.events)
      ensures next.current != map[] && c.day <= Through(next.current).value
    {
      if c in changes {
        FoldChangesDays(anchors, ordered);
        var o :| o in ordered && o.day == c.day && o.target == c.target;
        SortMembers(obs, o);
      } else {
        KeptStaysCovered(log, obs, start, through, revision, c);
      }
    }
  }

  lemma {:induction false} KeptStaysCovered(
    log: Log, obs: seq<Observation>, start: Option<Date>, through: Date, revision: int, c: Change)
    requires WellFormed(log) && Fits(obs, start, through)
    requires Publish(log, obs, start, through, revision).Accepted?
    requires c in Kept(ValidChanges(log.events), start)
    ensures var current := Publish(log, obs, start, through, revision).log.current;
            current != map[] && c.day <= Through(current).value
  {
    ChangesBeforeMembers(ValidChanges(log.events), start.value);
    CurrentReaches(log, obs, start, through, revision);
    if obs != [] {
      assert obs[0] in obs;
    }
  }

  // ---------------------------------------------------------------------------------------
  // Rewriting a suffix gives what a full rebuild gives

  lemma {:induction false} InsertAfterPrefix(a: seq<Observation>, s: seq<Observation>, o: Observation)
    requires forall x :: x in a ==> NotAfter(x, o)
    ensures Insert(a + s, o) == a + Insert(s, o)
  {
    hide Insert;
    if s == [] {
      assert a + s == a;
      InsertLast(a, o);
    } else {
      var init, last := s[..|s| - 1], s[|s| - 1];
      assert (a + s)[..|a + s| - 1] == a + init && (a + s)[|a + s| - 1] == last;
      InsertStep(s, o);
      InsertStep(a + s, o);
      InsertAfterPrefix(a, init, o);
      assert (a + s) + [o] == a + (s + [o]);
      assert (a + Insert(init, o)) + [last] == a + (Insert(init, o) + [last]);
    }
  }

  lemma {:induction false} InsertLast(a: seq<Observation>, o: Observation)
    requires forall x :: x in a ==> NotAfter(x, o)
    ensures Insert(a, o) == a + [o] && Insert([], o) == [o]
  {
    assert a != [] ==> a[|a| - 1] in a;
  }

  lemma {:induction false} InsertStep(s: seq<Observation>, o: Observation)
    requires s != []
    ensures var init, last := s[..|s| - 1], s[|s| - 1];
            Insert(s, o) == if NotAfter(last, o) then s + [o] else Insert(init, o) + [last]
  {
  }

  lemma {:induction false} SortAfterPrefix(a: seq<Observation>, b: seq<Observation>)
    requires Sorted(a)
    requires forall x, y :: x in a && y in b ==> NotAfter(x, y)
    ensures Sort(a + b) == a + Sort(b)
  {
    if b == [] {
      assert a + b == a && a + Sort(b) == a;
      SortOfSorted(a);
    } else {
      var init, o := b[..|b| - 1], b[|b| - 1];
      assert (a + b)[..|a + b| - 1] == a + init;
      assert Sort(a + b) == Insert(Sort(a + init), o) && Sort(b) == Insert(Sort(init), o);
      hide Sort, Insert;
      SortAfterPrefix(a, init);
      InsertAfterPrefix(a, Sort(init), o);
    }
  }

  lemma {:induction false} RewrittenHistory(
    history: seq<Observation>, suffix: seq<Observation>, start: Date, through: Date)
    requires Sorted(history) && Fits(suffix, Some(start), through)
    ensures Sort(ObsBefore(history, start) + suffix) == ObsBefore(history, start) + Sort(suffix)
    ensures Sorted(ObsBefore(history, start) + Sort(suffix))
  {
    ObsBeforeIsPrefix(history, start);
    var head := ObsBefore(history, start);
    forall x, y | x in head && y in suffix ensures NotAfter(x, y) {
      var i :| 0 <= i < |head| && head[i] == x;
      assert history[i].day < start;
    }
    SortAfterPrefix(head, suffix);
    SortSorts(head + suffix);
  }

  lemma {:induction false} KeptPlusRefold(log: Log, history: seq<Observation>, tail: seq<Observation>, start: Date)
    requires Represents(log, history)
    ensures ChangesBefore(ValidChanges(log.events), start) + FoldChanges(SeedAt(log.events, start - 1), tail)
         == FoldChanges(map[], ObsBefore(history, start) + tail)
  {
    SeedsAreFacts(log, history, start - 1);
    CutChanges(history, start);
    FoldSplits(map[], ObsBefore(history, start), tail);
  }

  lemma {:induction false} SuffixTimeline(log: Log, history: seq<Observation>, suffix: seq<Observation>,
                       start: Date, through: Date, revision: int)
    requires WellFormed(log) && Represents(log, history)
    requires Publish(log, suffix, Some(start), through, revision).Accepted?
    ensures ValidChanges(Publish(log, suffix, Some(start), through, revision).log.events)
         == FoldChanges(map[], ObsBefore(history, start) + Sort(suffix))
  {
    hide *;
    SomeStart(log, start);
    PublishedTimeline(log, suffix, Some(start), through, revision);
    KeptPlusRefold(log, history, Sort(suffix), start);
  }

  lemma {:induction false} SomeStart(log: Log, start: Date)
    ensures Kept(ValidChanges(log.events), Some(start)) == ChangesBefore(ValidChanges(log.events), start)
    ensures Anchors(log, Some(start)) == SeedAt(log.events, start - 1)
  {
    hide ValidChanges, ChangesBefore, SeedAt;
  }

  /** Rewriting a suffix from its anchors represents the old history cut at `start` plus the batch. */
  lemma {:induction false} SuffixRewrite(log: Log, history: seq<Observation>, suffix: seq<Observation>,
                      start: Date, through: Date, revision: int)
    requires Represents(log, history) && Fits(suffix, Some(start), through)
    requires Publish(log, suffix, Some(start), through, revision).Accepted?
    ensures Represents(Publish(log, suffix, Some(start), through, revision).log,
                       ObsBefore(history, start) + Sort(suffix))
  {
    SuffixTimeline(log, history, suffix, start, through, revision);
    PublishKeepsWellFormed(log, suffix, Some(start), through, revision);
    RewrittenHistory(history, suffix, start, through);
  }

  /** A full publication represents its own batch, whatever the log held before. */
  lemma {:induction false} FullRebuild(log: Log, obs: seq<Observation>, through: Date, revision: int)
    requires WellFormed(log) && Fits(obs, None, through)
    requires Publish(log, obs, None, through, revision).Accepted?
    ensures Represents(Publish(log, obs, None, through, revision).log, Sort(obs))
  {
    PublishedTimeline(log, obs, None, through, revision);
    PublishKeepsWellFormed(log, obs, None, through, revision);
    SortSorts(obs);
    assert [] + FoldChanges(map[], Sort(obs)) == FoldChanges(map[], Sort(obs));
  }
}
