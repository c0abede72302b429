/** The compact State timeline: folding daily observations into changes, and the event log
    that stores, revises and replays them. */
module Timeline {
  import opened Common
  import opened States

  // ---------------------------------------------------------------------------------------
  // Observations in publication order

  predicate Before(a: Observation, b: Observation) {
    a.day < b.day || (a.day == b.day && a.target < b.target)
  }

  predicate NotAfter(a: Observation, b: Observation) {
    a.day < b.day || (a.day == b.day && a.target <= b.target)
  }

  ghost predicate Sorted(s: seq<Observation>) {
    forall i, j :: 0 <= i < j < |s| ==> NotAfter(s[i], s[j])
  }

  /** Sorted with at most one observation per day and target. */
  ghost predicate StrictlySorted(s: seq<Observation>) {
    forall i, j :: 0 <= i < j < |s| ==> Before(s[i], s[j])
  }

  /** No two observations share a day and a target. */
  ghost predicate Distinct(s: seq<Observation>) {
    forall i, j :: 0 <= i < j < |s| ==> s[i].day != s[j].day || s[i].target != s[j].target
  }

  function Insert(s: seq<Observation>, o: Observation): (r: seq<Observation>)
    ensures multiset(r) == multiset(s) + multiset{o}
  {
    if s == [] then [o]
    else
      var last := s[|s| - 1];
      assert s == s[..|s| - 1] + [last];
      if NotAfter(last, o) then s + [o] else Insert(s[..|s| - 1], o) + [last]
  }

  /** Stable sort by day, then by target. */
  function Sort(s: seq<Observation>): (r: seq<Observation>)
    ensures multiset(r) == multiset(s)
  {
    if s == [] then []
    else
      assert s == s[..|s| - 1] + [s[|s| - 1]];
      Insert(Sort(s[..|s| - 1]), s[|s| - 1])
  }

  lemma {:induction false} InsertKeepsSorted(s: seq<Observation>, o: Observation)
    requires Sorted(s)
    ensures Sorted(Insert(s, o))
  {
    if s != [] && !NotAfter(s[|s| - 1], o) {
      var init, last := s[..|s| - 1], s[|s| - 1];
      InsertKeepsSorted(init, o);
      var r := Insert(init, o);
      forall i | 0 <= i < |r| ensures NotAfter(r[i], last) {
        assert r[i] in multiset(r);
        assert r[i] in multiset(init) + multiset{o};
      }
    }
  }

  lemma {:induction false} SortSorts(s: seq<Observation>)
    ensures Sorted(Sort(s))
  {
    if s != [] {
      SortSorts(s[..|s| - 1]);
      InsertKeepsSorted(Sort(s[..|s| - 1]), s[|s| - 1]);
    }
  }

  lemma {:induction false} SortOfSorted(s: seq<Observation>)
    requires Sorted(s)
    ensures Sort(s) == s
  {
    if s != [] {
      SortOfSorted(s[..|s| - 1]);
      assert s == s[..|s| - 1] + [s[|s| - 1]];
    }
  }

  ghost predicate SameSet(a: seq<Observation>, b: seq<Observation>) {
    forall x :: x in a <==> x in b
  }

  lemma {:induction false} HeadIsMember(b: seq<Observation>)
    ensures b == [] || b[0] in b
  {
  }

  lemma {:induction false} LastDominates(a: seq<Observation>, x: Observation)
    requires StrictlySorted(a) && x in a
    ensures x == a[|a| - 1] || Before(x, a[|a| - 1])
  {
    var i :| 0 <= i < |a| && a[i] == x;
  }

  lemma {:induction false} SameLast(a: seq<Observation>, b: seq<Observation>)
    requires StrictlySorted(a) && StrictlySorted(b) && SameSet(a, b) && a != []
    ensures b != [] && a[|a| - 1] == b[|b| - 1]
  {
    assert a[0] in b;
    var x, y := a[|a| - 1], b[|b| - 1];
    assert x in b && y in a;
    LastDominates(a, y);
    LastDominates(b, x);
  }

  /** Dropping the last element of a strictly sorted list drops exactly that member. */
  lemma {:induction false} InitMembers(a: seq<Observation>)
    requires StrictlySorted(a) && a != []
    ensures StrictlySorted(a[..|a| - 1])
    ensures forall x :: x in a[..|a| - 1] <==> x in a && x != a[|a| - 1]
  {
  }

  lemma {:induction false} SameInit(a: seq<Observation>, b: seq<Observation>)
    requires StrictlySorted(a) && StrictlySorted(b) && SameSet(a, b)
    requires a != [] && b != [] && a[|a| - 1] == b[|b| - 1]
    ensures SameSet(a[..|a| - 1], b[..|b| - 1])
  {
    InitMembers(a);
    InitMembers(b);
    var p, q := a[..|a| - 1], b[..|b| - 1];
    forall x ensures x in p <==> x in q {
      assert x in p <==> x in a && x != a[|a| - 1];
    }
  }

  /** Two strictly sorted lists with the same members are the same list. */
  lemma {:induction false} SameMembers(a: seq<Observation>, b: seq<Observation>)
    requires StrictlySorted(a) && StrictlySorted(b) && SameSet(a, b)
    ensures a == b
    decreases |a|
  {
    if a == [] {
      HeadIsMember(b);
    } else {
      SameLast(a, b);
      SameInit(a, b);
      InitMembers(a);
      InitMembers(b);
      SameMembers(a[..|a| - 1], b[..|b| - 1]);
      assert a == a[..|a| - 1] + [a[|a| - 1]];
      assert b == b[..|b| - 1] + [b[|b| - 1]];
    }
  }

  lemma {:induction false} StrictIsSorted(obs: seq<Observation>)
    requires StrictlySorted(obs)
    ensures Sorted(obs)
  {
    forall i, j | 0 <= i < j < |obs| ensures NotAfter(obs[i], obs[j]) {
      assert Before(obs[i], obs[j]);
    }
  }

  lemma {:induction false} StrictJoin(a: seq<Observation>, b: seq<Observation>, start: Date)
    requires StrictlySorted(a) && StrictlySorted(b)
    requires forall o :: o in a ==> o.day < start
    requires forall o :: o in b ==> start <= o.day
    ensures StrictlySorted(a + b)
  {
    var r := a + b;
    forall i, j | 0 <= i < j < |r| ensures Before(r[i], r[j]) {
      if j < |a| {
        assert Before(a[i], a[j]);
      } else if i < |a| {
        assert a[i] in a && b[j - |a|] in b;
      } else {
        assert Before(b[i - |a|], b[j - |a|]);
      }
    }
  }

  lemma {:induction false} SortStrictly(s: seq<Observation>)
    requires Distinct(s)
    ensures StrictlySorted(Sort(s))
  {
    SortSorts(s);
    var r := Sort(s);
    forall i, j | 0 <= i < j < |r| ensures Before(r[i], r[j]) {
      if r[i].day == r[j].day && r[i].target == r[j].target {
        TwicePresent(r, s, i, j);
      }
    }
  }

  /** Equal keys at two places of a permutation come from two places of the original. */
  lemma {:induction false} TwicePresent(r: seq<Observation>, s: seq<Observation>, i: int, j: int)
    requires multiset(r) == multiset(s)
    requires 0 <= i < j < |r| && r[i].day == r[j].day && r[i].target == r[j].target
    ensures !Distinct(s)
  {
    var a, b := r[i], r[j];
    if a == b {
      CountAtLeastTwo(r, i, j);
      TwoPlaces(s, a);
    } else {
      assert a in multiset(s) && b in multiset(s);
      var p :| 0 <= p < |s| && s[p] == a;
      var q :| 0 <= q < |s| && s[q] == b;
      if p < q {
        assert s[p].day == s[q].day;
      } else {
        assert s[q].day == s[p].day;
      }
    }
  }

  lemma {:induction false} CountAtLeastTwo(r: seq<Observation>, i: int, j: int)
    requires 0 <= i < j < |r| && r[i] == r[j]
    ensures multiset(r)[r[i]] >= 2
  {
    assert r == r[..j] + r[j..];
    assert r[i] in r[..j] && r[i] in r[j..];
    assert multiset(r) == multiset(r[..j]) + multiset(r[j..]);
  }

  lemma {:induction false} TwoPlaces(s: seq<Observation>, a: Observation)
    requires multiset(s)[a] >= 2
    ensures !Distinct(s)
  {
    var last := s[|s| - 1];
    var init := s[..|s| - 1];
    assert s == init + [last];
    if last == a {
      assert a in multiset(init);
      var p :| 0 <= p < |init| && init[p] == a;
      assert s[p] == a && s[|s| - 1] == a;
    } else {
      TwoPlaces(init, a);
      var i, j :| 0 <= i < j < |init| && init[i].day == init[j].day && init[i].target == init[j].target;
      assert s[i].day == s[j].day && s[i].target == s[j].target;
    }
  }

  // ---------------------------------------------------------------------------------------
  // Folding observations into changes

  /** Why an event was written; `Lost` is the source's UNKNOWN kind. */
  datatype Kind = Baseline | Enter | Exit | Lost | Recover

  /** What is known about a target's present run of equal statuses. */
  datatype Fact = Fact(status: Status, since: Option<Date>, observed: Date, exact: bool)

  type Facts = map<Target, Fact>

  /** The content of one event: everything its signature compares. */
  datatype Change = Change(
    day: Date, target: Target, kind: Kind, fact: Fact, transition: bool, detail: Detail)

  function KindOf(prior: Option<Fact>, o: Observation): (k: Option<Kind>) {
    match prior
    case None => Some(Baseline)
    case Some(f) =>
      if o.status == f.status then None
      else if o.status == Unknown then Some(Lost)
      else if f.status == Unknown then
        Some(if o.status == Active && o.transition then Enter else Recover)
      else Some(if o.status == Active then Enter else Exit)
  }

  function FactAfter(prior: Option<Fact>, o: Observation): (f: Fact) {
    match KindOf(prior, o)
    case None => prior.value
    case Some(k) =>
      var exact := k == Enter || k == Exit;
      Fact(o.status, if exact then Some(o.day) else None, o.day, exact)
  }

  function ChangeOf(prior: Option<Fact>, o: Observation): (c: seq<Change>) {
    match KindOf(prior, o)
    case None => []
    case Some(k) => [Change(o.day, o.target, k, FactAfter(prior, o), o.transition, o.detail)]
  }

  function FoldFacts(facts: Facts, obs: seq<Observation>): (r: Facts) {
    if obs == [] then facts
    else
      var mid := FoldFacts(facts, obs[..|obs| - 1]);
      var o := obs[|obs| - 1];
      mid[o.target := FactAfter(Get(mid, o.target), o)]
  }

  function FoldChanges(facts: Facts, obs: seq<Observation>): (r: seq<Change>) {
    if obs == [] then []
    else
      var o := obs[|obs| - 1];
      FoldChanges(facts, obs[..|obs| - 1])
      + ChangeOf(Get(FoldFacts(facts, obs[..|obs| - 1]), o.target), o)
  }

  lemma {:induction false} FoldLast(facts: Facts, obs: seq<Observation>, o: Observation)
    ensures var mid := FoldFacts(facts, obs);
            && FoldFacts(facts, obs + [o]) == mid[o.target := FactAfter(Get(mid, o.target), o)]
            && FoldChanges(facts, obs + [o]) == FoldChanges(facts, obs) + ChangeOf(Get(mid, o.target), o)
  {
    assert (obs + [o])[..|obs|] == obs;
    hide ChangeOf, FactAfter;
  }

  lemma {:induction false} FoldNothing(facts: Facts)
    ensures FoldFacts(facts, []) == facts && FoldChanges(facts, []) == []
  {
  }

  lemma {:induction false} FoldSplits(facts: Facts, a: seq<Observation>, b: seq<Observation>)
    ensures FoldFacts(facts, a + b) == FoldFacts(FoldFacts(facts, a), b)
    ensures FoldChanges(facts, a + b) == FoldChanges(facts, a) + FoldChanges(FoldFacts(facts, a), b)
  {
    hide FoldFacts, FoldChanges, ChangeOf, FactAfter;
    if b == [] {
      assert a + b == a;
      FoldNothing(FoldFacts(facts, a));
    } else {
      var init, o := b[..|b| - 1], b[|b| - 1];
      assert b == init + [o] && a + b == (a + init) + [o];
      FoldSplits(facts, a, init);
      FoldLast(facts, a + init, o);
      FoldLast(FoldFacts(facts, a), init, o);
    }
  }

  /** The first observations, up to but excluding `day`. */
  function ObsBefore(obs: seq<Observation>, day: Date): (r: seq<Observation>) {
    if obs == [] then []
    else
      ObsBefore(obs[..|obs| - 1], day)
      + if obs[|obs| - 1].day < day then [obs[|obs| - 1]] else []
  }

  function ChangesBefore(cs: seq<Change>, day: Date): (r: seq<Change>) {
    if cs == [] then []
    else
      ChangesBefore(cs[..|cs| - 1], day)
      + if cs[|cs| - 1].day < day then [cs[|cs| - 1]] else []
  }

  lemma {:induction false} ChangesBeforeSplits(a: seq<Change>, b: seq<Change>, day: Date)
    ensures ChangesBefore(a + b, day) == ChangesBefore(a, day) + ChangesBefore(b, day)
  {
    if b == [] {
      assert a + b == a;
    } else {
      ChangesBeforeSplits(a, b[..|b| - 1], day);
      assert (a + b)[..|a + b| - 1] == a + b[..|b| - 1];
    }
  }

  /** A sorted list keeps nothing after its first observation at or past `day`. */
  lemma {:induction false} ObsBeforeIsPrefix(obs: seq<Observation>, day: Date)
    requires Sorted(obs)
    ensures ObsBefore(obs, day) <= obs
    ensures forall i :: 0 <= i < |obs| ==> (obs[i].day < day <==> i < |ObsBefore(obs, day)|)
  {
    if obs != [] {
      ObsBeforeIsPrefix(obs[..|obs| - 1], day);
    }
  }

  lemma {:induction false} FoldChangesDays(facts: Facts, obs: seq<Observation>)
    ensures forall c :: c in FoldChanges(facts, obs) ==> exists o :: o in obs && o.day == c.day && o.target == c.target
  {
    if obs != [] {
      var init, last := obs[..|obs| - 1], obs[|obs| - 1];
      FoldChangesDays(facts, init);
      assert obs == init + [last];
      forall c | c in FoldChanges(facts, obs)
        ensures exists o :: o in obs && o.day == c.day && o.target == c.target
      {
        if c in FoldChanges(facts, init) {
          var o :| o in init && o.day == c.day && o.target == c.target;
          assert o in obs;
        } else {
          assert last in obs;
        }
      }
    }
  }

  lemma {:induction false} AllBefore(cs: seq<Change>, day: Date)
    requires forall c :: c in cs ==> c.day < day
    ensures ChangesBefore(cs, day) == cs
  {
    if cs != [] {
      AllBefore(cs[..|cs| - 1], day);
      assert cs[|cs| - 1] in cs;
      assert cs == cs[..|cs| - 1] + [cs[|cs| - 1]];
    }
  }

  lemma {:induction false} NoneBefore(cs: seq<Change>, day: Date)
    requires forall c :: c in cs ==> day <= c.day
    ensures ChangesBefore(cs, day) == []
  {
    if cs != [] {
      NoneBefore(cs[..|cs| - 1], day);
      assert cs[|cs| - 1] in cs;
    }
  }

  lemma {:induction false} AllObsBefore(obs: seq<Observation>, day: Date)
    requires forall i :: 0 <= i < |obs| ==> obs[i].day < day
    ensures ObsBefore(obs, day) == obs
  {
    if obs != [] {
      var init, o := obs[..|obs| - 1], obs[|obs| - 1];
      AllObsBefore(init, day);
      assert obs == init + [o];
    }
  }

  /** Cutting the changes of a sorted history at a day is folding the history cut at that day. */
  lemma {:induction false} CutChanges(obs: seq<Observation>, day: Date)
    requires Sorted(obs)
    ensures ChangesBefore(FoldChanges(map[], obs), day) == FoldChanges(map[], ObsBefore(obs, day))
  {
    hide FoldChanges, FoldFacts, ChangesBefore, ObsBefore;
    ObsBeforeIsPrefix(obs, day);
    var head := ObsBefore(obs, day);
    var tail := obs[|head|..];
    assert obs == head + tail;
    var mid := FoldFacts(map[], head);
    FoldSplits(map[], head, tail);
    FoldChangesDays(map[], head);
    FoldChangesDays(mid, tail);
    AllBefore(FoldChanges(map[], head), day);
    NoneBefore(FoldChanges(mid, tail), day);
    ChangesBeforeSplits(FoldChanges(map[], head), FoldChanges(mid, tail), day);
  }

  // ---------------------------------------------------------------------------------------
  // Reading a target's last change back

  /** The last change of `t` in a list of changes. */
  function LastChange(cs: seq<Change>, t: Target): (r: Option<Change>)
    ensures r.Some? ==> r.value in cs && r.value.target == t
  {
    if cs == [] then None
    else if cs[|cs| - 1].target == t then Some(cs[|cs| - 1])
    else LastChange(cs[..|cs| - 1], t)
  }

  lemma {:induction false} LastChangeSplits(a: seq<Change>, b: seq<Change>, t: Target)
    ensures LastChange(a + b, t) == if LastChange(b, t).Some? then LastChange(b, t) else LastChange(a, t)
  {
    if b == [] {
      assert a + b == a;
    } else {
      assert (a + b)[..|a + b| - 1] == a + b[..|b| - 1];
      LastChangeSplits(a, b[..|b| - 1], t);
    }
  }

  /** The facts a fold ends with are exactly those of each target's last change. */
  lemma {:induction false} FactsAreLastChanges(obs: seq<Observation>, t: Target)
    ensures t in FoldFacts(map[], obs) <==> LastChange(FoldChanges(map[], obs), t).Some?
    ensures t in FoldFacts(map[], obs) ==>
      LastChange(FoldChanges(map[], obs), t).value.fact == FoldFacts(map[], obs)[t]
  {
    if obs != [] {
      var init, o := obs[..|obs| - 1], obs[|obs| - 1];
      FactsAreLastChanges(init, t);
      var c := ChangeOf(Get(FoldFacts(map[], init), o.target), o);
      LastChangeSplits(FoldChanges(map[], init), c, t);
      if c != [] {
        assert LastChange(c, t) == if c[0].target == t then Some(c[0]) else LastChange([], t);
      }
    }
  }

  // ---------------------------------------------------------------------------------------
  // The timeline is a minimal run-length encoding

  function ChangesOf(cs: seq<Change>, t: Target): (r: seq<Change>) {
    if cs == [] then []
    else ChangesOf(cs[..|cs| - 1], t) + if cs[|cs| - 1].target == t then [cs[|cs| - 1]] else []
  }

  function StatusesOf(obs: seq<Observation>, t: Target): (r: seq<Status>) {
    if obs == [] then []
    else StatusesOf(obs[..|obs| - 1], t) + if obs[|obs| - 1].target == t then [obs[|obs| - 1].status] else []
  }

  /** How many maximal runs of equal statuses a list has. */
  function Runs(s: seq<Status>): (n: nat) {
    if s == [] then 0
    else Runs(s[..|s| - 1]) + if |s| >= 2 && s[|s| - 2] == s[|s| - 1] then 0 else 1
  }

  /** A change's kind says what its status pair and its edge proof allow, and nothing else. */
  predicate KindFits(prev: Status, c: Change) {
    && (c.kind == Lost <==> c.fact.status == Unknown)
    && (c.kind == Exit <==> prev == Active && c.fact.status == Inactive)
    && (c.kind == Enter <==> c.fact.status == Active && (prev == Inactive || (prev == Unknown && c.transition)))
    && (c.kind == Recover <==>
          prev == Unknown && c.fact.status != Unknown && !(c.fact.status == Active && c.transition))
  }

  /** Only a proven entry or exit claims an exact start day. */
  predicate WellDated(c: Change) {
    && c.fact.observed == c.day
    && (c.fact.exact <==> c.kind == Enter || c.kind == Exit)
    && c.fact.since == if c.fact.exact then Some(c.day) else None
  }

  ghost predicate RunLength(cs: seq<Change>) {
    && (cs != [] ==> cs[0].kind == Baseline)
    && (forall i :: 0 <= i < |cs| ==> WellDated(cs[i]))
    && (forall i :: 0 < i < |cs| ==>
          cs[i].fact.status != cs[i - 1].fact.status && cs[i].kind != Baseline
          && KindFits(cs[i - 1].fact.status, cs[i]))
  }

  lemma {:induction false} LastOfTarget(cs: seq<Change>, t: Target)
    ensures LastChange(cs, t) ==
            var own := ChangesOf(cs, t); if own == [] then None else Some(own[|own| - 1])
  {
    if cs != [] {
      LastOfTarget(cs[..|cs| - 1], t);
    }
  }

  lemma {:induction false} ChangesOfSplits(a: seq<Change>, b: seq<Change>, t: Target)
    ensures ChangesOf(a + b, t) == ChangesOf(a, t) + ChangesOf(b, t)
  {
    if b == [] {
      assert a + b == a;
    } else {
      ChangesOfSplits(a, b[..|b| - 1], t);
      assert (a + b)[..|a + b| - 1] == a + b[..|b| - 1];
    }
  }

  lemma {:induction false} RunLengthExtends(cs: seq<Change>, prior: Option<Fact>, o: Observation)
    requires RunLength(cs)
    requires prior == if cs == [] then None else Some(cs[|cs| - 1].fact)
    ensures RunLength(cs + ChangeOf(prior, o))
  {
    var c := ChangeOf(prior, o);
    if c != [] {
      assert WellDated(c[0]);
      var r := cs + c;
      assert forall i :: 0 <= i < |cs| ==> r[i] == cs[i];
      if cs != [] {
        assert KindFits(cs[|cs| - 1].fact.status, c[0]);
      }
    } else {
      assert cs + c == cs;
    }
  }

  /** Every target's changes start with a baseline, alternate statuses and carry fitting kinds. */
  lemma {:induction false} TimelineIsRunLength(obs: seq<Observation>, t: Target)
    ensures RunLength(ChangesOf(FoldChanges(map[], obs), t))
  {
    if obs != [] {
      var init, o := obs[..|obs| - 1], obs[|obs| - 1];
      TimelineIsRunLength(init, t);
      var before := FoldChanges(map[], init);
      var prior := Get(FoldFacts(map[], init), o.target);
      var c := ChangeOf(prior, o);
      ChangesOfSplits(before, c, t);
      ChangesOfOne(prior, o, t);
      if o.target == t {
        FactsAreLastChanges(init, t);
        LastOfTarget(before, t);
        RunLengthExtends(ChangesOf(before, t), prior, o);
      } else {
        assert ChangesOf(before, t) + [] == ChangesOf(before, t);
      }
    }
  }

  /** A target's fact carries the status last observed of it. */
  lemma {:induction false} FactsFollowStatuses(obs: seq<Observation>, t: Target)
    ensures var facts, ss := FoldFacts(map[], obs), StatusesOf(obs, t);
            && (t in facts <==> ss != [])
            && (t in facts ==> facts[t].status == ss[|ss| - 1])
  {
    if obs != [] {
      FactsFollowStatuses(obs[..|obs| - 1], t);
    }
  }

  lemma {:induction false} RunsExtend(ss: seq<Status>, x: Status)
    ensures Runs(ss + [x]) == Runs(ss) + if ss != [] && ss[|ss| - 1] == x then 0 else 1
  {
    assert (ss + [x])[..|ss|] == ss;
  }

  lemma {:induction false} ChangesOfOne(prior: Option<Fact>, o: Observation, t: Target)
    ensures ChangesOf(ChangeOf(prior, o), t) == if o.target == t then ChangeOf(prior, o) else []
  {
    var c := ChangeOf(prior, o);
    if c != [] {
      assert c[..0] == [];
      assert ChangesOf(c, t) == ChangesOf(c[..0], t) + if c[0].target == t then [c[0]] else [];
    }
  }

  lemma {:induction false} ChangeOfLength(prior: Option<Fact>, o: Observation)
    ensures |ChangeOf(prior, o)| == if prior.Some? && prior.value.status == o.status then 0 else 1
  {
  }

  lemma {:induction false} NothingToEncode(t: Target)
    ensures ChangesOf([], t) == [] && Runs([]) == 0
  {
  }

  /** The encoding has one change per maximal run of equal statuses, hence none to spare. */
  lemma {:induction false} TimelineIsMinimal(obs: seq<Observation>, t: Target)
    ensures |ChangesOf(FoldChanges(map[], obs), t)| == Runs(StatusesOf(obs, t))
  {
    hide ChangeOf, ChangesOf, FoldFacts, Runs;
    if obs == [] {
      assert ChangesOf([], t) == [] && Runs([]) == 0 by { NothingToEncode(t); }
    } else {
      var init, o := obs[..|obs| - 1], obs[|obs| - 1];
      TimelineIsMinimal(init, t);
      var prior := Get(FoldFacts(map[], init), o.target);
      var before, c := FoldChanges(map[], init), ChangeOf(prior, o);
      assert FoldChanges(map[], obs) == before + c;
      ChangesOfSplits(before, c, t);
      ChangesOfOne(prior, o, t);
      var ss := StatusesOf(init, t);
      if o.target == t {
        assert StatusesOf(obs, t) == ss + [o.status];
        ChangeOfLength(prior, o);
        FactsFollowStatuses(init, t);
        RunsExtend(ss, o.status);
      } else {
        assert StatusesOf(obs, t) == ss;
      }
    }
  }

  lemma {:induction false} FactStatus(facts: Facts, obs: seq<Observation>, k: nat)
    requires k < |obs|
    requires forall j :: k < j < |obs| ==> obs[j].target != obs[k].target
    ensures obs[k].target in FoldFacts(facts, obs)
    ensures FoldFacts(facts, obs)[obs[k].target].status == obs[k].status
  {
    if k < |obs| - 1 {
      FactStatus(facts, obs[..|obs| - 1], k);
    }
  }

  /** Decoding: the last change at or before an observed day restores that day's status. */
  lemma {:induction false} TimelineDecodes(obs: seq<Observation>, k: nat)
    requires StrictlySorted(obs) && k < |obs|
    ensures var c := LastChange(ChangesBefore(FoldChanges(map[], obs), obs[k].day + 1), obs[k].target);
            c.Some? && c.value.fact.status == obs[k].status
  {
    hide FoldChanges, FoldFacts, LastChange, ChangesBefore, ObsBefore;
    var day := obs[k].day + 1;
    CutChanges(obs, day);
    ObsBeforeIsPrefix(obs, day);
    var head := ObsBefore(obs, day);
    FactsAreLastChanges(head, obs[k].target);
    FactStatus(map[], head, k);
  }
}
