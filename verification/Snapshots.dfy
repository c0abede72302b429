/** Indicator snapshots: the materialization pass, and why rewriting a suffix of days is enough. */
module Snapshots {
  import opened Common
  import opened States
  import opened Averages
  import opened Requests
  import Kdj

  datatype Bar = Bar(day: Date, candle: Kdj.Candle)

  /** Daily bars in query order: unique days, high and low never missing. */
  ghost predicate Ordered(bars: seq<Bar>) {
    && (forall i, j :: 0 <= i < j < |bars| ==> bars[i].day < bars[j].day)
    && (forall i :: 0 <= i < |bars| ==> Kdj.HasRange(bars[i].candle))
  }

  function Candles(bars: seq<Bar>): (r: seq<Kdj.Candle>)
    ensures |r| == |bars|
    ensures forall i :: 0 <= i < |bars| ==> r[i] == bars[i].candle
  {
    seq(|bars|, i requires 0 <= i < |bars| => bars[i].candle)
  }

  /** How many bars lie on or before `d`. */
  function CountUpto(bars: seq<Bar>, d: Date): (n: nat)
    ensures n <= |bars|
    ensures n > 0 ==> bars[n - 1].day <= d
    ensures forall i :: n <= i < |bars| ==> d < bars[i].day
  {
    if bars == [] then 0
    else if bars[|bars| - 1].day <= d then |bars|
    else CountUpto(bars[..|bars| - 1], d)
  }

  /** The bars on or before `d`. */
  function Upto(bars: seq<Bar>, d: Date): (r: seq<Bar>) {
    bars[..CountUpto(bars, d)]
  }

  /** Two bar series that differ only on or after `d`. */
  ghost predicate SameBefore(a: seq<Bar>, b: seq<Bar>, d: Date) {
    Upto(a, d - 1) == Upto(b, d - 1)
  }

  lemma {:induction false} UptoTwice(bars: seq<Bar>, d: Date, e: Date)
    requires Ordered(bars) && d <= e
    ensures Upto(Upto(bars, e), d) == Upto(bars, d)
  {
    var n, m := CountUpto(bars, d), CountUpto(bars, e);
    assert n <= m;
    var k := CountUpto(bars[..m], d);
    assert k == n;
  }

  lemma {:induction false} SameBeforeEarlier(a: seq<Bar>, b: seq<Bar>, d: Date, e: Date)
    requires Ordered(a) && Ordered(b) && SameBefore(a, b, e) && d < e
    ensures Upto(a, d) == Upto(b, d)
  {
    UptoTwice(a, d, e - 1);
    UptoTwice(b, d, e - 1);
  }

  lemma {:induction false} UptoOrdered(bars: seq<Bar>, d: Date)
    requires Ordered(bars)
    ensures Ordered(Upto(bars, d))
    ensures forall i :: 0 <= i < |Upto(bars, d)| ==> Upto(bars, d)[i].day <= d
    ensures forall b :: b in Upto(bars, d) <==> b in bars && b.day <= d
  {
  }

  lemma {:induction false} UptoAt(bars: seq<Bar>, i: nat)
    requires Ordered(bars) && i < |bars|
    ensures Upto(bars, bars[i].day) == bars[..i + 1]
  {
  }

  // ---------------------------------------------------------------------------------------
  // What a day's rows hold

  /** One variant of a snapshot row. */
  datatype Entry = Entry(values: Values, previous: Option<Values>, delta: Option<Values>)

  /** Which publication wrote a row, and up to which day its writing restated published days. */
  datatype SourceMark = SourceMark(revision: int, restatedThrough: Date)

  datatype SnapshotRow = SnapshotRow(variants: map<Request, Entry>, source: SourceMark)

  type Key = (Date, IndicatorType)

  type Rows = map<Key, SnapshotRow>

  /** Changes of the fields present on both days; nothing when there is none. */
  function Delta(values: Values, previous: Option<Values>): (r: Option<Values>) {
    match previous
    case None => None
    case Some(p) => Wrap(map f | f in values && f in p :: values[f] - p[f])
  }

  /** The variant of `r` on the last of `candles`; its previous values are those of the bar before. */
  ghost function EntryOf(r: Request, candles: seq<Kdj.Candle>, root: Root): (e: Option<Entry>)
    requires candles != []
  {
    match Calculated(r, candles, root)
    case None => None
    case Some(values) =>
      var previous := Calculated(r, candles[..|candles| - 1], root);
      Some(Entry(values, previous, Delta(values, previous)))
  }

  ghost function EntriesOf(requests: set<Request>, candles: seq<Kdj.Candle>, t: IndicatorType, root: Root)
    : (m: map<Request, Entry>)
    requires candles != []
  {
    map r | r in requests && TypeOf(r) == t && EntryOf(r, candles, root).Some? :: EntryOf(r, candles, root).value
  }

  /** The row of day `d` from scratch: a function of the bars on or before `d` alone. */
  ghost function ContentOf(requests: set<Request>, upto: seq<Bar>, d: Date, t: IndicatorType, root: Root)
    : (m: Option<map<Request, Entry>>)
  {
    if upto == [] || upto[|upto| - 1].day != d then None
    else
      var entries := EntriesOf(requests, Candles(upto), t, root);
      if entries == map[] then None else Some(entries)
  }

  ghost function ContentAt(requests: set<Request>, bars: seq<Bar>, d: Date, t: IndicatorType, root: Root)
    : (m: Option<map<Request, Entry>>)
  {
    ContentOf(requests, Upto(bars, d), d, t, root)
  }

  function Content(rows: Rows, d: Date, t: IndicatorType): (m: Option<map<Request, Entry>>) {
    if (d, t) in rows then Some(rows[(d, t)].variants) else None
  }

  /** Every row is the from-scratch row of the bars. */
  ghost predicate FreshRows(rows: Rows, key: set<Request>, bars: seq<Bar>, root: Root) {
    forall d, t :: Content(rows, d, t) == ContentAt(key, bars, d, t, root)
  }

  /** The days one materialization deletes and rewrites. */
  predicate Rewritten(d: Date, from: Option<Date>, end: Date) {
    d <= end && (from.None? || from.value <= d)
  }

  /** What one materialization leaves: the window holds the from-scratch rows, the rest is untouched. */
  ghost predicate RewrittenFrom(
    rows: Rows, next: Rows, requests: set<Request>, bars: seq<Bar>, from: Option<Date>, end: Date, root: Root) {
    forall d, t :: Content(next, d, t) == RewrittenContent(rows, requests, bars, from, end, root, d, t)
  }

  ghost function RewrittenContent(
    rows: Rows, requests: set<Request>, bars: seq<Bar>, from: Option<Date>, end: Date, root: Root, d: Date,
    t: IndicatorType)
    : Option<map<Request, Entry>>
  {
    if Rewritten(d, from, end) then ContentAt(requests, bars, d, t, root) else Content(rows, d, t)
  }

  /** Causality: bars that change only on or after `e` leave every earlier row as it was. */
  lemma {:induction false} EarlierRowsKeep(
    requests: set<Request>, a: seq<Bar>, b: seq<Bar>, e: Date, d: Date, t: IndicatorType, root: Root)
    requires Ordered(a) && Ordered(b) && SameBefore(a, b, e) && d < e
    ensures ContentAt(requests, a, d, t, root) == ContentAt(requests, b, d, t, root)
  {
    SameBeforeEarlier(a, b, d, e);
    hide *;
    SameUpto(requests, a, b, d, t, root);
  }

  lemma {:induction false} SameUpto(
    requests: set<Request>, a: seq<Bar>, b: seq<Bar>, d: Date, t: IndicatorType, root: Root)
    requires Upto(a, d) == Upto(b, d)
    ensures ContentAt(requests, a, d, t, root) == ContentAt(requests, b, d, t, root)
  {
    hide ContentOf;
  }

  /** Deleting and rewriting the rows from `e` over changed bars gives what a full rebuild over them
      gives, when the table held the full rebuild of the old bars and only days from `e` changed. */
  lemma {:induction false} SuffixRebuildIsFullRebuild(
    requests: set<Request>, was: seq<Bar>, bars: seq<Bar>, e: Date, end: Date, root: Root,
    rows: Rows, partial: Rows, full: Rows)
    requires Ordered(was) && Ordered(bars) && SameBefore(was, bars, e)
    requires forall d, t :: Content(rows, d, t) == ContentAt(requests, was, d, t, root)
    requires forall k :: k in rows ==> k.0 <= end
    requires RewrittenFrom(rows, partial, requests, bars, Some(e), end, root)
    requires RewrittenFrom(rows, full, requests, bars, None, end, root)
    ensures forall d, t :: Content(partial, d, t) == Content(full, d, t)
  {
    hide ContentAt, Upto, SameBefore;
    forall d, t ensures Content(partial, d, t) == Content(full, d, t) {
      if d < e {
        EarlierRowsKeep(requests, was, bars, e, d, t, root);
      }
    }
  }

  /** A day without a bar has no row. */
  lemma {:induction false} RowsNeedBars(requests: set<Request>, bars: seq<Bar>, d: Date, t: IndicatorType, root: Root)
    requires Ordered(bars) && ContentAt(requests, bars, d, t, root).Some?
    ensures exists b :: b in bars && b.day == d
  {
    hide EntriesOf;
    var n := CountUpto(bars, d);
    assert Upto(bars, d) == bars[..n];
    assert bars[n - 1] in bars;
  }

  /** Rows persist: once a type has a row, every later bar day has one too. */
  lemma {:induction false} RowsPersist(
    requests: set<Request>, bars: seq<Bar>, d: Date, i: nat, t: IndicatorType, root: Root)
    requires Ordered(bars) && (forall r :: r in requests ==> Canonical(r))
    requires ContentAt(requests, bars, d, t, root).Some?
    requires i < |bars| && d <= bars[i].day
    ensures ContentAt(requests, bars, bars[i].day, t, root).Some?
  {
    hide Calculated, Canonical, Delta;
    var upto, later := Upto(bars, d), bars[..i + 1];
    UptoAt(bars, i);
    var entries := EntriesOf(requests, Candles(upto), t, root);
    var r := Member(entries.Keys);
    assert EntryOf(r, Candles(upto), root).Some?;
    var c := Candles(later);
    assert c[..|upto|] == Candles(upto) by { UptoCount(bars, d, i); }
    assert Kdj.Ranged(c);
    ValuesPersist(r, c, |upto|, root);
    assert r in EntriesOf(requests, c, t, root);
  }

  lemma {:induction false} UptoCount(bars: seq<Bar>, d: Date, i: nat)
    requires Ordered(bars) && i < |bars| && d <= bars[i].day
    ensures |Upto(bars, d)| <= i + 1 && Upto(bars, d) == bars[..i + 1][..|Upto(bars, d)|]
  {
  }
}
