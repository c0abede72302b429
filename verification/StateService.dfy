/** The imperative recognition pass: an engine with edge bits, and the loop over days and targets. */
module StateService {
  import opened Common
  import opened States
  import opened Timeline
  import opened Calendar
  import opened Recognition
  import opened Restart

  datatype Evaluation = Evaluation(active: bool, transition: bool, reason: Option<string>)

  class StateEngine {
    var lastActive: map<Target, bool>

    constructor ()
      ensures lastActive == map[]
    {
      lastActive := map[];
    }

    /** Evaluates one state; refusals count as inactive and carry their reason. */
    method EvaluateState(rules: Rules, t: Target, current: Reading, previous: Option<Reading>,
                         price: Option<real>, previousPrice: Option<real>, previousActive: Option<bool>)
      returns (r: Evaluation)
      modifies this
      ensures lastActive == old(lastActive)[t := r.active]
      ensures previous.None? ==> r == Evaluation(false, false, Some("missing_previous"))
      ensures previous.Some? ==>
        match rules.signal(t, current, previous.value, price, previousPrice)
        case Refusal(code) => r == Evaluation(false, false, Some(code))
        case Signal(active, edge) =>
          && r.reason == None && r.active == active
          && r.transition == (active && edge &&
               !(if previousActive.Some? then previousActive.value
                 else if t in old(lastActive) then old(lastActive)[t]
                 else InferPreviousActive(rules, t, previous.value)))
    {
      if previous.None? {
        lastActive := lastActive[t := false];
        return Evaluation(false, false, Some("missing_previous"));
      }
      match rules.signal(t, current, previous.value, price, previousPrice)
      case Refusal(code) =>
        lastActive := lastActive[t := false];
        r := Evaluation(false, false, Some(code));
      case Signal(active, edge) =>
        var was := previousActive;
        if was.None? { was := Get(lastActive, t); }
        if was.None? { was := Some(InferPreviousActive(rules, t, previous.value)); }
        lastActive := lastActive[t := active];
        r := Evaluation(active, active && edge && !was.value, None);
    }
  }

  /** One target of one day: the branch ladder of the recognition loop. */
  method Observe(engine: StateEngine, w: World, existing: map<(Date, Target), Status>,
                 computed: map<(Date, Target), Status>, d: Date, previous: Option<Date>,
                 t: Target, current: Reading, ghost memo: Memo)
    returns (o: Observation)
    requires existing + computed == memo.status
    requires Get(engine.lastActive, t) == Get(memo.lastActive, t)
    modifies engine
    ensures o == Judge(w, memo, d, previous, t, current)
    ensures forall x :: x != t ==> Get(engine.lastActive, x) == old(Get(engine.lastActive, x))
    ensures Get(engine.lastActive, t) ==
            if BitAfter(w, d, previous, t, current).Some? then BitAfter(w, d, previous, t, current)
            else old(Get(engine.lastActive, t))
  {
    if previous.None? {
      return Observation(d, t, Unknown, false, Unproven(CalendarUnavailable, Some(current), None));
    }
    var p := previous.value;
    var before := Lookback(w.snaps, previous, t);
    if before.None? {
      return Observation(d, t, Unknown, false, Unproven(MissingPreviousDay, Some(current), previous));
    }
    var prior := Get(computed, (p, t));
    if prior.None? { prior := Get(existing, (p, t)); }
    assert prior == Get(memo.status, (p, t));
    var previousActive := if prior.Some? then Some(prior.value == Active) else None;
    var price, previousPrice := Get(w.closes, d), Get(w.closes, p);
    var result := engine.EvaluateState(w.rules, t, current, before, price, previousPrice, previousActive);
    if result.reason.Some? {
      return Observation(d, t, Unknown, false, Unproven(Refused(result.reason.value), Some(current), previous));
    }
    o := Observation(d, t, if result.active then Active else Inactive,
                     result.transition && (w.rules.edgeMode(t) || prior == Some(Inactive)),
                     Evaluated(current, before.value, price, previousPrice));
  }

  /** `order` lists the members of `s` once each. */
  ghost predicate Enumerates(order: seq<Target>, s: set<Target>) {
    && (forall t :: t in order <==> t in s)
    && (forall i, j :: 0 <= i < j < |order| ==> order[i] != order[j])
  }

  /** Lists a set of targets in some order. */
  method Enumerate(s: set<Target>) returns (order: seq<Target>)
    ensures Enumerates(order, s)
  {
    order := [];
    var rest := s;
    while rest != {}
      invariant rest <= s
      invariant forall t :: t in order <==> t in s && t !in rest
      invariant forall i, j :: 0 <= i < j < |order| ==> order[i] != order[j]
      decreases |rest|
    {
      ghost var known := Member(rest);
      var t :| t in rest;
      order := order + [t];
      rest := rest - {t};
    }
  }

  /** `obs` holds the rows of the targets of `order`, in that order. */
  ghost predicate RowsInOrder(obs: seq<Observation>, rows: map<Target, Observation>, order: seq<Target>) {
    |obs| == |order| && forall k :: 0 <= k < |order| ==> order[k] in rows && obs[k] == rows[order[k]]
  }

  /** Observes every target the day offers; the engine ends with the day's edge bits. */
  method ObserveOffered(engine: StateEngine, w: World, existing: map<(Date, Target), Status>,
                        computed: map<(Date, Target), Status>, d: Date, previous: Option<Date>,
                        order: seq<Target>, ghost memo: Memo)
    returns (obs: seq<Observation>)
    requires d in w.snaps && existing + computed == memo.status && engine.lastActive == memo.lastActive
    requires Enumerates(order, w.snaps[d].current.Keys)
    modifies engine
    ensures RowsInOrder(obs, DayRows(w, memo, d, previous), order)
    ensures engine.lastActive == memo.lastActive + Bits(w, d, previous)
  {
    hide Judge, DayRows, BitAfter;
    obs := [];
    ghost var rows := DayRows(w, memo, d, previous);
    for i := 0 to |order|
      invariant |obs| == i
      invariant forall k :: 0 <= k < i ==> order[k] in rows && obs[k] == rows[order[k]]
      invariant BitsSoFar(w, d, previous, memo, engine.lastActive, order[..i])
    {
      var t := order[i];
      assert t in order && t !in order[..i];
      RowOfOffered(w, memo, d, previous, t);
      BitBefore(w, d, previous, memo, engine.lastActive, order[..i], t);
      ghost var bits := engine.lastActive;
      var o := Observe(engine, w, existing, computed, d, previous, t, w.snaps[d].current[t], memo);
      assert order[..i + 1] == order[..i] + [t];
      BitsGrow(w, d, previous, memo, bits, engine.lastActive, order[..i], t);
      obs := obs + [o];
    }
    assert order[..|order|] == order;
    BitsComplete(w, d, previous, memo, engine.lastActive, order);
  }

  lemma {:induction false} RowOfOffered(w: World, memo: Memo, d: Date, previous: Option<Date>, t: Target)
    requires d in w.snaps && t in w.snaps[d].current
    ensures t in DayRows(w, memo, d, previous)
    ensures DayRows(w, memo, d, previous)[t] == Judge(w, memo, d, previous, t, w.snaps[d].current[t])
  {
  }

  /** The edge bit of a target after the targets in `done` have been observed. */
  ghost function BitNow(
    w: World, d: Date, previous: Option<Date>, memo: Memo, done: seq<Target>, t: Target): Option<bool>
    requires d in w.snaps
  {
    if t in done && t in w.snaps[d].current && BitAfter(w, d, previous, t, w.snaps[d].current[t]).Some?
    then BitAfter(w, d, previous, t, w.snaps[d].current[t])
    else Get(memo.lastActive, t)
  }

  ghost predicate BitsSoFar(
    w: World, d: Date, previous: Option<Date>, memo: Memo, bits: map<Target, bool>, done: seq<Target>)
    requires d in w.snaps
  {
    forall t: Target :: Get(bits, t) == BitNow(w, d, previous, memo, done, t)
  }

  lemma {:induction false} BitBefore(
    w: World, d: Date, previous: Option<Date>, memo: Memo, bits: map<Target, bool>, done: seq<Target>, t: Target)
    requires d in w.snaps && BitsSoFar(w, d, previous, memo, bits, done) && t !in done
    ensures Get(bits, t) == Get(memo.lastActive, t)
  {
    assert Get(bits, t) == BitNow(w, d, previous, memo, done, t);
  }

  lemma {:induction false} BitsGrow(w: World, d: Date, previous: Option<Date>, memo: Memo,
                                    bits: map<Target, bool>, next: map<Target, bool>, done: seq<Target>, t: Target)
    requires d in w.snaps && t in w.snaps[d].current && t !in done
    requires BitsSoFar(w, d, previous, memo, bits, done)
    requires forall x :: x != t ==> Get(next, x) == Get(bits, x)
    requires var b := BitAfter(w, d, previous, t, w.snaps[d].current[t]);
             Get(next, t) == if b.Some? then b else Get(bits, t)
    ensures BitsSoFar(w, d, previous, memo, next, done + [t])
  {
    hide BitAfter;
    forall x: Target ensures Get(next, x) == BitNow(w, d, previous, memo, done + [t], x) {
      assert Get(bits, x) == BitNow(w, d, previous, memo, done, x);
    }
  }

  lemma {:induction false} BitsComplete(
    w: World, d: Date, previous: Option<Date>, memo: Memo, bits: map<Target, bool>, order: seq<Target>)
    requires d in w.snaps && BitsSoFar(w, d, previous, memo, bits, order)
    requires forall t :: t in order <==> t in w.snaps[d].current
    ensures bits == memo.lastActive + Bits(w, d, previous)
  {
    hide BitAfter;
    var want := memo.lastActive + Bits(w, d, previous);
    forall t: Target ensures t in bits <==> t in want ensures t in bits ==> bits[t] == want[t] {
      assert Get(bits, t) == BitNow(w, d, previous, memo, order, t);
    }
    assert bits.Keys == want.Keys;
  }

  /** UNKNOWN rows for the known targets that the day did not offer. */
  method FillMissing(w: World, d: Date, previous: Option<Date>, missing: seq<Target>, ghost memo: Memo)
    returns (obs: seq<Observation>)
    requires d in w.snaps
    requires forall t :: t in missing ==> t in memo.known && t !in w.snaps[d].current
    ensures RowsInOrder(obs, DayRows(w, memo, d, previous), missing)
  {
    hide Judge;
    obs := [];
    for i := 0 to |missing|
      invariant |obs| == i
      invariant forall k :: 0 <= k < i ==>
        missing[k] in DayRows(w, memo, d, previous) && obs[k] == DayRows(w, memo, d, previous)[missing[k]]
    {
      assert missing[i] in missing;
      obs := obs + [Fill(d, missing[i])];
    }
  }

  /** All rows of one day, and the order in which their targets were met. */
  method RecognizeDay(engine: StateEngine, w: World, existing: map<(Date, Target), Status>,
                      computed: map<(Date, Target), Status>, known: set<Target>, d: Date, previous: Option<Date>,
                      ghost memo: Memo)
    returns (day: seq<Observation>, order: seq<Target>)
    requires d in w.snaps && existing + computed == memo.status && engine.lastActive == memo.lastActive
    requires known == memo.known
    modifies engine
    ensures RowsInOrder(day, DayRows(w, memo, d, previous), order)
    ensures Enumerates(order, DayRows(w, memo, d, previous).Keys)
    ensures engine.lastActive == memo.lastActive + Bits(w, d, previous)
  {
    RowKeys(w, memo, d, previous);
    hide DayRows, Bits;
    var offered := Enumerate(w.snaps[d].current.Keys);
    var rows := ObserveOffered(engine, w, existing, computed, d, previous, offered, memo);
    var missing := Enumerate(known - w.snaps[d].current.Keys);
    var filled := FillMissing(w, d, previous, missing, memo);
    day, order := rows + filled, offered + missing;
    forall i, j | 0 <= i < j < |order| ensures order[i] != order[j] {
      if i < |offered| <= j { assert offered[i] in offered && missing[j - |offered|] in missing; }
    }
  }

  lemma {:induction false} RowKeys(w: World, memo: Memo, d: Date, previous: Option<Date>)
    requires d in w.snaps
    ensures DayRows(w, memo, d, previous).Keys == w.snaps[d].current.Keys + memo.known
    ensures forall t :: t in DayRows(w, memo, d, previous) ==>
      DayRows(w, memo, d, previous)[t].day == d && DayRows(w, memo, d, previous)[t].target == t
  {
    var rows := DayRows(w, memo, d, previous);
    forall t | t in rows ensures rows[t].day == d && rows[t].target == t {
      DayRowShape(w, memo, d, previous, t);
    }
  }

  /** The statuses of a day, keyed by day and target. */
  function StatusesOn(d: Date, day: seq<Observation>, order: seq<Target>): (m: map<(Date, Target), Status>)
    requires |day| == |order| && forall i, j :: 0 <= i < j < |order| ==> order[i] != order[j]
  {
    map k | 0 <= k < |order| :: (d, order[k]) := day[k].status
  }

  lemma {:induction false} StatusesMatch(
    d: Date, day: seq<Observation>, order: seq<Target>, rows: map<Target, Observation>)
    requires RowsInOrder(day, rows, order) && Enumerates(order, rows.Keys)
    ensures StatusesOn(d, day, order) == DayStatuses(d, rows)
  {
    var got := StatusesOn(d, day, order);
    var want := DayStatuses(d, rows);
    forall k | k in got ensures k in want && got[k] == want[k] {
      var i :| 0 <= i < |order| && k == (d, order[i]);
      assert order[i] in order;
    }
    forall k | k in want ensures k in got {
      var t :| t in rows && k == (d, t);
      assert t in order;
      var i :| 0 <= i < |order| && order[i] == t;
      assert k == (d, order[i]);
    }
    assert got.Keys == want.Keys;
  }

  lemma {:induction false} RowsAsSet(
    day: seq<Observation>, order: seq<Target>, rows: map<Target, Observation>, o: Observation)
    requires RowsInOrder(day, rows, order) && Enumerates(order, rows.Keys)
    ensures o in day <==> o in RowSet(rows)
  {
    if o in day {
      var i :| 0 <= i < |day| && day[i] == o;
      assert order[i] in order;
    }
    if o in RowSet(rows) {
      var t :| t in rows && rows[t] == o;
      assert t in order;
      var i :| 0 <= i < |order| && order[i] == t;
      assert day[i] == o;
    }
  }

  lemma {:induction false} EarlierDays(w: World, start: Memo, init: seq<Date>, d: Date, o: Observation)
    requires Offered(w, init) && o in AllRows(w, start, init)
    requires forall i :: 0 <= i < |init| ==> init[i] < d
    ensures o.day < d
  {
    if init == [] {
      NoDays(w, start);
    } else {
      RowsLieOnDates(w, start, init, o);
      var k :| 0 <= k < |init| && init[k] == o.day;
    }
  }

  lemma {:induction false} JoinDay(persisted: seq<Observation>, day: seq<Observation>, order: seq<Target>,
                                   rows: map<Target, Observation>, d: Date)
    requires Distinct(persisted) && forall o :: o in persisted ==> o.day < d
    requires RowsInOrder(day, rows, order) && Enumerates(order, rows.Keys)
    requires forall t :: t in rows ==> rows[t].day == d && rows[t].target == t
    ensures Distinct(persisted + day)
  {
    var r := persisted + day;
    forall i, j | 0 <= i < j < |r| ensures r[i].day != r[j].day || r[i].target != r[j].target {
      if j >= |persisted| {
        var y := j - |persisted|;
        assert order[y] in order && r[j] == rows[order[y]];
        if i < |persisted| {
          assert persisted[i] in persisted;
        } else {
          var x := i - |persisted|;
          assert order[x] in order && r[i] == rows[order[x]] && order[x] != order[y];
        }
      }
    }
  }

  /** The memo after a day, from the containers the loop keeps. */
  lemma {:induction false} MemoParts(w: World, memo: Memo, d: Date, previous: Option<Date>,
                                     existing: map<(Date, Target), Status>, computed: map<(Date, Target), Status>,
                                     statuses: map<(Date, Target), Status>, known: set<Target>, bits: map<Target, bool>)
    requires d in w.snaps && existing + computed == memo.status
    requires var rows := DayRows(w, memo, d, previous);
             statuses == DayStatuses(d, rows) && known == memo.known + rows.Keys
    requires bits == memo.lastActive + Bits(w, d, previous)
    ensures Memo(existing + (computed + statuses), known, bits) == DayMemo(w, memo, d, previous)
  {
    hide DayRows, Bits, DayStatuses;
    assert existing + (computed + statuses) == (existing + computed) + statuses;
  }

  /** The statuses the anchors stand for on the seed date. */
  method Existing(seeds: Facts, seedDate: Date) returns (existing: map<(Date, Target), Status>)
    ensures Memo(existing, seeds.Keys, map[]) == SeedMemo(seeds, seedDate)
  {
    existing := map t | t in seeds :: (seedDate, t) := seeds[t].status;
  }

  /** Every observation of a recognition pass over `dates`, seeded with the anchors of `seedDate`. */
  method Recognize(w: World, calendar: seq<Row>, dates: seq<Date>, seeds: Facts, seedDate: Date)
    returns (persisted: seq<Observation>)
    requires Ascending(calendar) && AsTable(calendar) == w.calendar && Offered(w, dates)
    ensures Distinct(persisted)
    ensures forall o :: o in persisted <==> o in AllRows(w, SeedMemo(seeds, seedDate), dates)
  {
    hide DayRows, DayMemo, PreviousOpen, AllRows, MemoAfter, RowsInOrder, Enumerates, Bits, Distinct, AsTable, RowSet,
         SeedMemo;
    var previousOpen := PreviousOpenDates(calendar, dates);
    var existing := Existing(seeds, seedDate);
    var computed: map<(Date, Target), Status> := map[];
    var known := seeds.Keys;
    var engine := new StateEngine();
    persisted := [];
    ghost var start := SeedMemo(seeds, seedDate);
    assert existing + map[] == existing;
    NothingYet(w, start);
    for i := 0 to |dates|
      invariant Memo(existing + computed, known, engine.lastActive) == MemoAfter(w, start, dates[..i])
      invariant Distinct(persisted)
      invariant forall o :: o in persisted <==> o in AllRows(w, start, dates[..i])
      invariant fresh(engine)
    {
      var d := dates[i];
      assert d in dates && previousOpen[d] == Pred(w, d);
      ghost var memo := MemoAfter(w, start, dates[..i]);
      var day, order := RecognizeDay(engine, w, existing, computed, known, d, previousOpen[d], memo);
      computed, known := Record(d, day, order, computed, known, engine.lastActive, w, previousOpen[d], existing, memo);
      Extend(w, start, dates, i, persisted, day, order);
      persisted := persisted + day;
    }
    assert dates[..|dates|] == dates;
  }

  lemma {:induction false} OrderLength(day: seq<Observation>, rows: map<Target, Observation>, order: seq<Target>)
    requires RowsInOrder(day, rows, order)
    ensures |day| == |order|
  {
  }

  /** Stores a finished day in the loop's containers. */
  method Record(d: Date, day: seq<Observation>, order: seq<Target>, computed: map<(Date, Target), Status>,
                known: set<Target>, ghost bits: map<Target, bool>, ghost w: World, ghost previous: Option<Date>,
                ghost existing: map<(Date, Target), Status>, ghost memo: Memo)
    returns (computed': map<(Date, Target), Status>, known': set<Target>)
    requires d in w.snaps && existing + computed == memo.status && known == memo.known
    requires RowsInOrder(day, DayRows(w, memo, d, previous), order)
    requires Enumerates(order, DayRows(w, memo, d, previous).Keys)
    requires bits == memo.lastActive + Bits(w, d, previous)
    ensures Memo(existing + computed', known', bits) == DayMemo(w, memo, d, previous)
  {
    hide DayRows, DayMemo, Bits, DayStatuses, StatusesOn, RowsInOrder;
    assert |day| == |order| by { OrderLength(day, DayRows(w, memo, d, previous), order); }
    var statuses := StatusesOn(d, day, order);
    StatusesMatch(d, day, order, DayRows(w, memo, d, previous));
    computed' := computed + statuses;
    known' := known + set t | t in order;
    assert (set t | t in order) == DayRows(w, memo, d, previous).Keys;
    MemoParts(w, memo, d, previous, existing, computed, statuses, known', bits);
  }

  lemma {:induction false} NothingYet(w: World, start: Memo)
    ensures Offered(w, []) && MemoAfter(w, start, []) == start && AllRows(w, start, []) == {} && Distinct([])
  {
  }

  lemma {:induction false} Extend(w: World, start: Memo, dates: seq<Date>, i: nat,
                                  persisted: seq<Observation>, day: seq<Observation>, order: seq<Target>)
    requires Offered(w, dates) && i < |dates| && Offered(w, dates[..i]) && Offered(w, dates[..i + 1])
    requires Distinct(persisted) && forall o :: o in persisted <==> o in AllRows(w, start, dates[..i])
    requires RowsInOrder(day, DayRows(w, MemoAfter(w, start, dates[..i]), dates[i], Pred(w, dates[i])), order)
    requires Enumerates(order, DayRows(w, MemoAfter(w, start, dates[..i]), dates[i], Pred(w, dates[i])).Keys)
    ensures Distinct(persisted + day)
    ensures forall o :: o in persisted + day <==> o in AllRows(w, start, dates[..i + 1])
    ensures MemoAfter(w, start, dates[..i + 1])
         == DayMemo(w, MemoAfter(w, start, dates[..i]), dates[i], Pred(w, dates[i]))
  {
    hide DayRows, DayMemo, PreviousOpen, AllRows, MemoAfter, RowsInOrder, Enumerates, Distinct, RowSet;
    var d, memo := dates[i], MemoAfter(w, start, dates[..i]);
    var rows := DayRows(w, memo, d, Pred(w, d));
    assert dates[..i + 1][..i] == dates[..i];
    LastStep(w, start, dates[..i + 1]);
    RowKeys(w, memo, d, Pred(w, d));
    forall o | o in persisted ensures o.day < d {
      EarlierDays(w, start, dates[..i], d, o);
    }
    JoinDay(persisted, day, order, rows, d);
    forall o ensures o in day <==> o in RowSet(rows) {
      RowsAsSet(day, order, rows, o);
    }
  }
}
