/** The indicator service: one pass per request, one pass over the days, then delete and upsert. */
module SnapshotService {
  import opened Common
  import opened States
  import opened Averages
  import opened Requests
  import opened Snapshots
  import Kdj

  const TYPES: seq<IndicatorType> := [MA, PROJECTED_MA, RSI, KDJ, BOLL, MACD]

  type Items = map<Request, Values>

  /** The items of one day and type among the requests handled so far. */
  ghost function ItemsOf(requests: set<Request>, candles: seq<Kdj.Candle>, t: IndicatorType, root: Root): (m: Items) {
    map r | r in requests && TypeOf(r) == t && Calculated(r, candles, root).Some? :: Calculated(r, candles, root).value
  }

  ghost function ItemsAt(
    requests: set<Request>, candles: seq<Kdj.Candle>, i: nat, t: IndicatorType, root: Root): (m: Items)
    requires i < |candles|
  {
    ItemsOf(requests, candles[..i + 1], t, root)
  }

  function GetItems(byDate: map<Key, Items>, k: Key): Items {
    if k in byDate then byDate[k] else map[]
  }

  /** `byDate` groups every item of the requests by day and type. */
  ghost predicate Grouped(byDate: map<Key, Items>, requests: set<Request>, bars: seq<Bar>, root: Root) {
    forall i, t :: 0 <= i < |bars| ==>
      GetItems(byDate, (bars[i].day, t)) == ItemsAt(requests, Candles(bars), i, t, root)
  }

  lemma {:induction false} ItemsGrow(
    requests: set<Request>, r: Request, candles: seq<Kdj.Candle>, i: nat, t: IndicatorType, root: Root)
    requires i < |candles| && r !in requests
    ensures var was, now := ItemsAt(requests, candles, i, t, root), ItemsAt(requests + {r}, candles, i, t, root);
            now == if TypeOf(r) == t && CalculatedAt(r, candles, i, root).Some?
                   then was[r := CalculatedAt(r, candles, i, root).value] else was
  {
    hide Calculated;
  }

  lemma {:induction false} NothingGrouped(bars: seq<Bar>, root: Root)
    ensures Grouped(map[], {}, bars, root)
  {
    forall i, t | 0 <= i < |bars|
      ensures GetItems(map[], (bars[i].day, t)) == ItemsAt({}, Candles(bars), i, t, root)
    {
      assert ItemsAt({}, Candles(bars), i, t, root) == map[];
    }
  }

  /** Adds the series of one request to the grouping. */
  method AddSeries(
    byDate: map<Key, Items>, r: Request, series: seq<Option<Values>>, bars: seq<Bar>, ghost done: set<Request>,
    root: Root)
    returns (next: map<Key, Items>)
    requires Ordered(bars) && r !in done && Grouped(byDate, done, bars, root) && |series| == |bars|
    requires forall i :: 0 <= i < |bars| ==> series[i] == CalculatedAt(r, Candles(bars), i, root)
    ensures Grouped(next, done + {r}, bars, root)
  {
    hide CalculatedAt, ItemsAt;
    next := byDate;
    for i := 0 to |bars|
      invariant forall j, t :: 0 <= j < i ==>
        GetItems(next, (bars[j].day, t)) == ItemsAt(done + {r}, Candles(bars), j, t, root)
      invariant forall j, t :: i <= j < |bars| ==>
        GetItems(next, (bars[j].day, t)) == ItemsAt(done, Candles(bars), j, t, root)
    {
      forall t ensures var was := ItemsAt(done, Candles(bars), i, t, root);
                       ItemsAt(done + {r}, Candles(bars), i, t, root) ==
                       if TypeOf(r) == t && series[i].Some? then was[r := series[i].value] else was
      {
        ItemsGrow(done, r, Candles(bars), i, t, root);
      }
      if series[i].Some? {
        var k := (bars[i].day, TypeOf(r));
        next := next[k := GetItems(next, k)[r := series[i].value]];
      }
    }
  }

  /** Calculates every request over all bars and groups the items by day and type. */
  method GroupItems(requests: seq<Request>, bars: seq<Bar>, root: Root) returns (byDate: map<Key, Items>)
    requires Ordered(bars) && (forall r :: r in requests ==> Canonical(r))
    requires forall i, j :: 0 <= i < j < |requests| ==> requests[i] != requests[j]
    ensures Grouped(byDate, SetOf(requests), bars, root)
  {
    hide Grouped, CalculatedAt;
    byDate := map[];
    NothingGrouped(bars, root);
    assert SetOf(requests[..0]) == {};
    for i := 0 to |requests|
      invariant Grouped(byDate, SetOf(requests[..i]), bars, root)
    {
      var r := requests[i];
      assert r in requests;
      assert Kdj.Ranged(Candles(bars));
      var series := SeriesForRequest(Candles(bars), r, root);
      assert r !in SetOf(requests[..i]);
      byDate := AddSeries(byDate, r, series, bars, SetOf(requests[..i]), root);
      assert SetOf(requests[..i + 1]) == SetOf(requests[..i]) + {r};
    }
    assert requests[..|requests|] == requests;
  }

  function SetOf(requests: seq<Request>): (s: set<Request>) {
    set r | r in requests
  }

  // ---------------------------------------------------------------------------------------
  // The pass over the days

  function EntriesFrom(items: Items, previous: map<Request, Values>): (m: map<Request, Entry>) {
    map r | r in items :: Entry(items[r], Get(previous, r), Delta(items[r], Get(previous, r)))
  }

  /** A day's entries, once its items are known and the dictionary holds the day before. */
  lemma {:induction false} EntriesMatch(
    requests: set<Request>, candles: seq<Kdj.Candle>, i: nat, t: IndicatorType, root: Root,
    previous: map<Request, Values>)
    requires i < |candles|
    requires forall r :: r in requests && TypeOf(r) == t ==> Get(previous, r) == Calculated(r, candles[..i], root)
    ensures EntriesFrom(ItemsAt(requests, candles, i, t, root), previous)
         == EntriesOf(requests, candles[..i + 1], t, root)
  {
    hide Calculated, Delta;
    var c := candles[..i + 1];
    assert c[..|c| - 1] == candles[..i];
    var a, b := EntriesFrom(ItemsAt(requests, candles, i, t, root), previous), EntriesOf(requests, c, t, root);
    assert a.Keys == b.Keys;
    assert forall r :: r in a ==> a[r] == b[r];
  }

  /** Nothing is forgotten: a request without an item on this bar had none on the bar before. */
  lemma {:induction false} RememberStep(
    requests: set<Request>, candles: seq<Kdj.Candle>, i: nat, t: IndicatorType, root: Root,
                                        previous: map<Request, Values>, r: Request)
    requires i < |candles| && Kdj.Ranged(candles) && r in requests && Canonical(r)
    requires TypeOf(r) == t ==> Get(previous, r) == Calculated(r, candles[..i], root)
    ensures TypeOf(r) == t ==> Get(previous + ItemsAt(requests, candles, i, t, root), r)
                               == CalculatedAt(r, candles, i, root)
    ensures TypeOf(r) != t ==> Get(previous + ItemsAt(requests, candles, i, t, root), r) == Get(previous, r)
  {
    hide Calculated, Canonical;
    if TypeOf(r) == t && CalculatedAt(r, candles, i, root).None? && Calculated(r, candles[..i], root).Some? {
      assert candles[..i + 1][..i] == candles[..i];
      ValuesPersist(r, candles[..i + 1], i, root);
    }
  }

  lemma {:induction false} NothingBefore(r: Request, root: Root)
    requires Canonical(r)
    ensures Calculated(r, [], root) == None
  {
    assert ClosesOf([]) == [];
    if r.MaRequest? {
      MaExists([], r.periods);
    }
  }

  /** Payloads of one type hold the from-scratch rows of the first `n` bars from `from` on. */
  ghost predicate PayloadsFor(
    payloads: Rows, requests: set<Request>, bars: seq<Bar>, n: nat, t: IndicatorType, from: Option<Date>, root: Root) {
    forall d :: Content(payloads, d, t) == PayloadAt(requests, bars, n, d, t, from, root)
  }

  ghost predicate AllPayloads(
    payloads: Rows, requests: set<Request>, bars: seq<Bar>, n: nat, from: Option<Date>, root: Root) {
    forall t :: PayloadsFor(payloads, requests, bars, n, t, from, root)
  }

  ghost function PayloadAt(
    requests: set<Request>, bars: seq<Bar>, n: nat, d: Date, t: IndicatorType, from: Option<Date>, root: Root)
    : Option<map<Request, Entry>>
  {
    if (exists i :: 0 <= i < n && i < |bars| && bars[i].day == d) && (from.None? || from.value <= d)
    then ContentAt(requests, bars, d, t, root) else None
  }

  /** One day and type: the payload row if it is persisted, and the values to remember. */
  method AddDay(
    payloads: Rows, previous: map<Request, Values>, items: Items, day: Date, t: IndicatorType, from: Option<Date>,
    mark: SourceMark,
                ghost requests: set<Request>, bars: seq<Bar>, i: nat, root: Root)
    returns (payloads': Rows, previous': map<Request, Values>)
    requires Ordered(bars) && i < |bars| && bars[i].day == day && (forall r :: r in requests ==> Canonical(r))
    requires items == ItemsAt(requests, Candles(bars), i, t, root)
    requires forall r :: r in requests && TypeOf(r) == t ==> Get(previous, r) == Calculated(r, Candles(bars)[..i], root)
    requires PayloadsFor(payloads, requests, bars, i, t, from, root)
    requires forall k :: k in payloads ==> payloads[k].source == mark
    ensures PayloadsFor(payloads', requests, bars, i + 1, t, from, root)
    ensures forall k :: k in payloads' ==> payloads'[k].source == mark
    ensures forall d, u :: u != t ==> Content(payloads', d, u) == Content(payloads, d, u)
    ensures forall r :: r in requests && TypeOf(r) == t ==> Get(previous', r) == CalculatedAt(r, Candles(bars), i, root)
    ensures forall r :: r in requests && TypeOf(r) != t ==> Get(previous', r) == Get(previous, r)
  {
    hide Calculated, CalculatedAt, ItemsAt, ItemsOf, EntriesFrom, EntriesOf, Canonical, ContentAt, PayloadAt;
    payloads', previous' := payloads, previous;
    EntriesMatch(requests, Candles(bars), i, t, root, previous);
    DayContent(requests, bars, i, t, root);
    PayloadGrows(requests, bars, i, t, from, root);
    if items != map[] {
      NonEmptyEntries(items, previous);
      if from.None? || from.value <= day {
        payloads' := payloads[(day, t) := SnapshotRow(EntriesFrom(items, previous), mark)];
      }
    } else {
      assert EntriesFrom(items, previous) == map[] by { EmptyEntries(previous); }
    }
    previous' := previous + items;
    forall d ensures Content(payloads', d, t) == PayloadAt(requests, bars, i + 1, d, t, from, root) {
      assert Content(payloads, d, t) == PayloadAt(requests, bars, i, d, t, from, root);
    }
    forall r | r in requests
      ensures TypeOf(r) == t ==> Get(previous', r) == CalculatedAt(r, Candles(bars), i, root)
      ensures TypeOf(r) != t ==> Get(previous', r) == Get(previous, r)
    {
      RememberStep(requests, Candles(bars), i, t, root, previous, r);
    }
  }

  lemma {:induction false} EmptyEntries(previous: map<Request, Values>)
    ensures EntriesFrom(map[], previous) == map[]
  {
  }

  lemma {:induction false} NonEmptyEntries(items: Items, previous: map<Request, Values>)
    requires items != map[]
    ensures EntriesFrom(items, previous) != map[]
  {
    ItemsInhabited(items);
    var r :| r in items;
    assert r in EntriesFrom(items, previous);
  }

  lemma {:induction false} ItemsInhabited(items: Items)
    ensures items == map[] || exists r :: r in items
  {
    if forall r :: r !in items {
      assert items == map[];
    }
  }

  lemma {:induction false} DayContent(requests: set<Request>, bars: seq<Bar>, i: nat, t: IndicatorType, root: Root)
    requires Ordered(bars) && i < |bars|
    ensures var entries := EntriesOf(requests, Candles(bars)[..i + 1], t, root);
            ContentAt(requests, bars, bars[i].day, t, root) == if entries == map[] then None else Some(entries)
  {
    UptoAt(bars, i);
    hide EntriesOf, Upto;
    assert Candles(bars[..i + 1]) == Candles(bars)[..i + 1];
  }

  lemma {:induction false} PayloadGrows(
    requests: set<Request>, bars: seq<Bar>, i: nat, t: IndicatorType, from: Option<Date>, root: Root)
    requires Ordered(bars) && i < |bars|
    ensures forall d :: d != bars[i].day ==>
      PayloadAt(requests, bars, i + 1, d, t, from, root) == PayloadAt(requests, bars, i, d, t, from, root)
    ensures PayloadAt(requests, bars, i, bars[i].day, t, from, root) == None
    ensures PayloadAt(requests, bars, i + 1, bars[i].day, t, from, root) ==
      if from.None? || from.value <= bars[i].day then ContentAt(requests, bars, bars[i].day, t, root) else None
  {
    hide ContentAt;
  }

  /** The payloads of every persisted day. */
  method CollectPayloads(
    byDate: map<Key, Items>, bars: seq<Bar>, from: Option<Date>, mark: SourceMark, ghost requests: set<Request>,
    root: Root)
    returns (payloads: Rows)
    requires Ordered(bars) && Grouped(byDate, requests, bars, root) && (forall r :: r in requests ==> Canonical(r))
    ensures AllPayloads(payloads, requests, bars, |bars|, from, root)
    ensures forall k :: k in payloads ==> payloads[k].source == mark
  {
    hide Calculated, CalculatedAt, ItemsAt, Canonical, PayloadsFor, Ordered;
    payloads := map[];
    var previous: map<Request, Values> := map[];
    forall r | r in requests ensures Get(previous, r) == Calculated(r, Candles(bars)[..0], root) {
      NothingBefore(r, root);
    }
    forall t ensures PayloadsFor(payloads, requests, bars, 0, t, from, root) {
      NoPayloads(requests, bars, t, from, root);
    }
    for i := 0 to |bars|
      invariant forall r :: r in requests ==> Get(previous, r) == Calculated(r, Candles(bars)[..i], root)
      invariant AllPayloads(payloads, requests, bars, i, from, root)
      invariant forall k :: k in payloads ==> payloads[k].source == mark
    {
      payloads, previous := AddTypes(payloads, previous, byDate, from, mark, requests, bars, i, root);
    }
  }

  lemma {:induction false} NoPayloads(
    requests: set<Request>, bars: seq<Bar>, t: IndicatorType, from: Option<Date>, root: Root)
    ensures PayloadsFor(map[], requests, bars, 0, t, from, root)
  {
    hide ContentAt;
  }

  /** All types of one day. */
  method AddTypes(
    payloads: Rows, previous: map<Request, Values>, byDate: map<Key, Items>, from: Option<Date>, mark: SourceMark,
                  ghost requests: set<Request>, bars: seq<Bar>, i: nat, root: Root)
    returns (payloads': Rows, previous': map<Request, Values>)
    requires Ordered(bars) && i < |bars| && Grouped(byDate, requests, bars, root)
    requires (forall r :: r in requests ==> Canonical(r))
    requires forall r :: r in requests ==> Get(previous, r) == Calculated(r, Candles(bars)[..i], root)
    requires AllPayloads(payloads, requests, bars, i, from, root)
    requires forall k :: k in payloads ==> payloads[k].source == mark
    ensures forall r :: r in requests ==> Get(previous', r) == Calculated(r, Candles(bars)[..i + 1], root)
    ensures AllPayloads(payloads', requests, bars, i + 1, from, root)
    ensures forall k :: k in payloads' ==> payloads'[k].source == mark
  {
    hide Calculated, ItemsAt, Canonical, PayloadsFor, Ordered, Content;
    payloads', previous' := payloads, previous;
    for j := 0 to |TYPES|
      invariant forall r :: r in requests && TypeOf(r) in TYPES[..j] ==>
                  Get(previous', r) == CalculatedAt(r, Candles(bars), i, root)
      invariant forall r :: r in requests && TypeOf(r) !in TYPES[..j] ==>
                  Get(previous', r) == Calculated(r, Candles(bars)[..i], root)
      invariant forall t :: PayloadsFor(payloads', requests, bars, Reached(i, j, t), t, from, root)
      invariant forall k :: k in payloads' ==> payloads'[k].source == mark
    {
      var t := TYPES[j];
      assert t !in TYPES[..j];
      assert TYPES[..j + 1] == TYPES[..j] + [t];
      ghost var before := payloads';
      assert PayloadsFor(before, requests, bars, Reached(i, j, t), t, from, root);
      payloads', previous' := AddDay(payloads', previous', GetItems(byDate, (bars[i].day, t)), bars[i].day, t, from,
                                     mark, requests, bars, i, root);
      ghost var next := j + 1;
      forall u ensures PayloadsFor(payloads', requests, bars, Reached(i, next, u), u, from, root) {
        if u != t {
          assert PayloadsFor(before, requests, bars, Reached(i, j, u), u, from, root);
          SameType(before, payloads', requests, bars, Reached(i, j, u), u, from, root);
        }
      }
    }
    ghost var n := i + 1;
    forall t ensures PayloadsFor(payloads', requests, bars, n, t, from, root) {
      EveryType(t);
      assert PayloadsFor(payloads', requests, bars, Reached(i, |TYPES|, t), t, from, root);
    }
    forall r | r in requests ensures Get(previous', r) == Calculated(r, Candles(bars)[..i + 1], root) {
      EveryType(TypeOf(r));
    }
  }

  /** How many bars the payloads of type `t` cover after `j` types of bar `i`. */
  ghost function Reached(i: nat, j: nat, t: IndicatorType): nat
    requires j <= |TYPES|
  {
    if t in TYPES[..j] then i + 1 else i
  }

  lemma {:induction false} EveryType(t: IndicatorType)
    ensures t in TYPES[..|TYPES|]
  {
    assert TYPES[..|TYPES|] == TYPES;
    assert TYPES[0] == MA && TYPES[1] == PROJECTED_MA && TYPES[2] == RSI;
    assert TYPES[3] == KDJ && TYPES[4] == BOLL && TYPES[5] == MACD;
  }

  lemma {:induction false} SameType(
    a: Rows, b: Rows, requests: set<Request>, bars: seq<Bar>, n: nat, t: IndicatorType, from: Option<Date>, root: Root)
    requires PayloadsFor(a, requests, bars, n, t, from, root)
    requires forall d :: Content(b, d, t) == Content(a, d, t)
    ensures PayloadsFor(b, requests, bars, n, t, from, root)
  {
    hide PayloadAt, Content;
    forall d ensures Content(b, d, t) == PayloadAt(requests, bars, n, d, t, from, root) {
      assert Content(a, d, t) == PayloadAt(requests, bars, n, d, t, from, root);
    }
  }

  // ---------------------------------------------------------------------------------------
  // Delete and upsert

  class SnapshotRepository {
    var rows: Rows

    constructor ()
      ensures rows == map[]
    {
      rows := map[];
    }

    /** Rebuilds the rows from `from` up to `end` over the bars on or before `end`; without a bar
        nothing happens. */
    method RebuildHistory(
      requests: seq<Request>, bars: seq<Bar>, from: Option<Date>, end: Date, mark: SourceMark, root: Root)
      returns (written: Option<nat>)
      requires Ordered(bars) && (forall b :: b in bars ==> b.day <= end)
      requires forall r :: r in requests ==> Canonical(r)
      requires forall i, j :: 0 <= i < j < |requests| ==> requests[i] != requests[j]
      modifies this
      ensures written == None <==> bars == []
      ensures bars == [] ==> rows == old(rows)
      ensures bars != [] ==> RewrittenFrom(old(rows), rows, SetOf(requests), bars, from, end, root)
      ensures bars != [] ==> forall k :: k in rows ==>
        if Rewritten(k.0, from, end) then rows[k].source == mark else k in old(rows) && rows[k] == old(rows)[k]
      ensures written.Some? ==> written.value == |set k | k in rows && Rewritten(k.0, from, end)|
      ensures written == Some(0) <==> bars != [] && forall k :: k in rows ==> !Rewritten(k.0, from, end)
    {
      hide AllPayloads, Grouped, ContentAt, Canonical, Fills, RewrittenFrom;
      if bars == [] {
        return None;
      }
      var byDate := GroupItems(requests, bars, root);
      var payloads := CollectPayloads(byDate, bars, from, mark, SetOf(requests), root);
      ghost var was := rows;
      PayloadsFill(payloads, SetOf(requests), bars, from, end, root);
      rows := map k | k in rows && !Rewritten(k.0, from, end) :: rows[k];
      rows := rows + payloads;
      Replaced(was, payloads, rows, SetOf(requests), bars, from, end, mark, root);
      written := Some(|payloads|);
      RowsInhabited(payloads);
      assert (set k | k in rows && Rewritten(k.0, from, end)) == payloads.Keys;
    }
  }

  /** Deleting the window and upserting the payloads leaves the rewritten table. */
  lemma {:induction false} Replaced(
    was: Rows, payloads: Rows, rows: Rows, requests: set<Request>, bars: seq<Bar>, from: Option<Date>, end: Date,
    mark: SourceMark, root: Root)
    requires Fills(payloads, requests, bars, from, end, root)
    requires forall k :: k in payloads ==> payloads[k].source == mark
    requires rows == (map k | k in was && !Rewritten(k.0, from, end) :: was[k]) + payloads
    ensures RewrittenFrom(was, rows, requests, bars, from, end, root)
    ensures forall k :: k in rows ==>
      (if Rewritten(k.0, from, end) then k in payloads && rows[k].source == mark else k in was && rows[k] == was[k])
    ensures forall k :: k in payloads ==> k in rows && Rewritten(k.0, from, end)
  {
    hide ContentAt, Rewritten;
    forall d, t ensures Content(rows, d, t) == RewrittenContent(was, requests, bars, from, end, root, d, t) {
      assert Content(payloads, d, t) == if Rewritten(d, from, end) then ContentAt(requests, bars, d, t, root) else None;
    }
    forall k | k in payloads ensures k in rows && Rewritten(k.0, from, end) {
      assert Content(payloads, k.0, k.1).Some?;
    }
  }

  /** The payloads are the from-scratch rows of the window and nothing else. */
  ghost predicate Fills(
    payloads: Rows, requests: set<Request>, bars: seq<Bar>, from: Option<Date>, end: Date, root: Root) {
    forall d, t :: Content(payloads, d, t) ==
                   if Rewritten(d, from, end) then ContentAt(requests, bars, d, t, root) else None
  }

  lemma {:induction false} RowsInhabited(rows: Rows)
    ensures |rows| == 0 ==> rows == map[]
    ensures |rows| > 0 ==> exists k :: k in rows
  {
    if forall k :: k !in rows {
      assert rows == map[];
    }
  }

  lemma {:induction false} PayloadsFill(
    payloads: Rows, requests: set<Request>, bars: seq<Bar>, from: Option<Date>, end: Date, root: Root)
    requires Ordered(bars) && (forall b :: b in bars ==> b.day <= end)
    requires AllPayloads(payloads, requests, bars, |bars|, from, root)
    ensures Fills(payloads, requests, bars, from, end, root)
  {
    hide ContentAt;
    forall d, t
      ensures Content(payloads, d, t)
           == if Rewritten(d, from, end) then ContentAt(requests, bars, d, t, root) else None
    {
      assert PayloadsFor(payloads, requests, bars, |bars|, t, from, root);
      if i :| 0 <= i < |bars| && bars[i].day == d {
        assert bars[i] in bars;
      } else if ContentAt(requests, bars, d, t, root).Some? {
        RowsNeedBars(requests, bars, d, t, root);
      }
    }
  }
}
