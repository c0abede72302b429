/** What state targets are about: which of them a day's variants offer, and which can be looked back on. */
module Subjects {
  import opened Common
  import opened States
  import opened Averages
  import opened Requests
  import opened Snapshots
  import opened Publication
  import Kdj

  const SHORT_PERIOD := 5
  const LONG_PERIOD := 10

  /** What a state target reads: two averages of one bundle, or a variant by its key. */
  datatype Subject = MaPair(short: int, long: int) | Keyed(request: Request)

  /** The pair a bundle stands for: its only two periods, or the default pair of a wider bundle. */
  predicate OffersPair(periods: set<int>, short: int, long: int) {
    if |periods| == 2 then short < long && periods == {short, long}
    else short == SHORT_PERIOD && long == LONG_PERIOD && {SHORT_PERIOD, LONG_PERIOD} <= periods
  }

  /** The variants of one day and type. */
  function VariantsOf(r: DayRow, t: IndicatorType): (m: map<Request, Entry>) {
    if t in r then r[t] else map[]
  }

  /** The subjects that the variants of a day are iterated for. */
  predicate OfferedOn(r: DayRow, s: Subject) {
    match s
    case MaPair(short, long) =>
      exists q :: q in VariantsOf(r, MA) && q.MaRequest? && OffersPair(q.periods, short, long)
    case Keyed(request) => !request.MaRequest? && request in VariantsOf(r, TypeOf(request))
  }

  /** The variant a type stands for when none is named. */
  function DefaultRequest(t: IndicatorType): (r: Request) {
    match t
    case MA => MaRequest({SHORT_PERIOD, LONG_PERIOD})
    case PROJECTED_MA => ProjectedMaRequest(5)
    case RSI => RsiRequest(14)
    case KDJ => KdjRequest(9, 3, 3)
    case BOLL => BollRequest(20, 2.0)
    case MACD => MacdRequest(12, 26, 9)
  }

  /** The variants calculated without being asked for are exactly the defaults of the six types. */
  lemma {:induction false} DefaultsAreDefault(r: Request)
    ensures r in DEFAULTS <==> r == DefaultRequest(TypeOf(r))
  {
  }

  /** The default variant of a day, or for averages a bundle that contains its periods. */
  predicate DefaultOn(r: DayRow, t: IndicatorType) {
    || DefaultRequest(t) in VariantsOf(r, t)
    || (t == MA && exists q :: q in VariantsOf(r, MA) && q.MaRequest? && {SHORT_PERIOD, LONG_PERIOD} <= q.periods)
  }

  function SubjectType(s: Subject): IndicatorType { if s.MaPair? then MA else TypeOf(s.request) }

  /** The subjects a later day can look back on: a pair in any bundle that has both values, a variant by
      its key, and failing that the default variant of the type. */
  predicate FoundOn(r: DayRow, s: Subject) {
    || (match s
        case MaPair(short, long) =>
          exists q :: q in VariantsOf(r, MA) && MaOf(short) in VariantsOf(r, MA)[q].values
                      && MaOf(long) in VariantsOf(r, MA)[q].values
        case Keyed(request) => request in VariantsOf(r, TypeOf(request)))
    || DefaultOn(r, SubjectType(s))
  }

  /** A projection that offers exactly the targets whose subjects the day's variants offer; what it looks
      back on is left open. */
  ghost predicate OffersBySubject(e: Setting, about: Target -> Subject) {
    forall r, t :: t in e.project(r).current <==> OfferedOn(r, about(t))
  }

  /** A bundle stands for one pair at most: two periods for themselves, the shorter first; more for the
      default pair they contain. */
  lemma {:induction false} OnePairPerBundle(periods: set<int>, short: int, long: int)
    ensures OffersPair(periods, short, long) ==> short < long && {short, long} <= periods
    ensures OffersPair(periods, short, long) && periods != {short, long} ==>
              short == SHORT_PERIOD && long == LONG_PERIOD && |periods| > 2
    ensures short < long ==> OffersPair({short, long}, short, long)
    ensures {SHORT_PERIOD, LONG_PERIOD} < periods ==> OffersPair(periods, SHORT_PERIOD, LONG_PERIOD)
  {
    var pair := {SHORT_PERIOD, LONG_PERIOD};
    if pair <= periods && periods != pair {
      Larger(pair, periods);
    }
    assert short != long ==> |{short, long}| == 2;
  }

  lemma {:induction false} Larger(a: set<int>, b: set<int>)
    requires a <= b && a != b
    ensures |a| < |b|
  {
    if b - a == {} {
      NothingMore(a, b);
    }
    var x := Member(b - a);
    Fits(a + {x}, b);
  }

  lemma {:induction false} NothingMore(a: set<int>, b: set<int>)
    requires a <= b && b - a == {}
    ensures a == b
  {
    forall x ensures x in a <==> x in b {
      assert x in b - a <==> x in b && x !in a;
    }
  }

  lemma {:induction false} Fits(a: set<int>, b: set<int>)
    requires a <= b
    ensures |a| <= |b|
  {
    if a != {} {
      var x := Member(a);
      Fits(a - {x}, b - {x});
    }
  }

  // ---------------------------------------------------------------------------------------
  // Offered once, offered ever after

  lemma {:induction false} EntryPersists(
    key: set<Request>, bars: seq<Bar>, d: Date, e: Date, t: IndicatorType, q: Request, root: Root)
    requires Ordered(bars) && AllCanonical(key) && d <= e && Upto(bars, d) != []
    requires q in EntriesOf(key, Candles(Upto(bars, d)), t, root)
    ensures Upto(bars, e) != [] && q in EntriesOf(key, Candles(Upto(bars, e)), t, root)
  {
    hide Calculated, Canonical, Delta;
    UptoTwice(bars, d, e);
    UptoOrdered(bars, e);
    var early, late := Candles(Upto(bars, d)), Candles(Upto(bars, e));
    assert early == late[..|early|] by { UptoGrows(bars, d, e); }
    assert EntryOf(q, early, root).Some?;
    RangedUpto(bars, e);
    ValuesPersist(q, late, |early|, root);
  }

  lemma {:induction false} RangedUpto(bars: seq<Bar>, e: Date)
    requires Ordered(bars)
    ensures Kdj.Ranged(Candles(Upto(bars, e)))
  {
  }

  lemma {:induction false} UptoGrows(bars: seq<Bar>, d: Date, e: Date)
    requires Ordered(bars) && d <= e
    ensures |Upto(bars, d)| <= |Upto(bars, e)| && Candles(Upto(bars, d)) == Candles(Upto(bars, e))[..|Upto(bars, d)|]
  {
    var n, m := CountUpto(bars, d), CountUpto(bars, e);
    assert n <= m;
  }

  /** Every row up to `latest` is the from-scratch row. */
  ghost predicate FreshUpto(rows: Rows, key: set<Request>, bars: seq<Bar>, latest: Date, root: Root) {
    forall d, t :: d <= latest ==> Content(rows, d, t) == ContentAt(key, bars, d, t, root)
  }

  /** The variants of a day that has rows. */
  lemma {:induction false} VariantsAre(
    rows: Rows, key: set<Request>, bars: seq<Bar>, latest: Date, root: Root, d: Date, t: IndicatorType)
    requires FreshUpto(rows, key, bars, latest, root) && d <= latest
    requires var upto := Upto(bars, d); upto != [] && upto[|upto| - 1].day == d
    ensures VariantsOf(RowsOn(rows, d), t) == EntriesOf(key, Candles(Upto(bars, d)), t, root)
  {
    hide EntriesOf, Upto;
    assert Content(rows, d, t) == ContentAt(key, bars, d, t, root);
  }

  lemma {:induction false} RowDayIsBarDay(
    rows: Rows, key: set<Request>, bars: seq<Bar>, latest: Date, root: Root, d: Date, t: IndicatorType)
    requires FreshUpto(rows, key, bars, latest, root) && d <= latest && (d, t) in rows
    ensures var upto := Upto(bars, d); upto != [] && upto[|upto| - 1].day == d
  {
    hide EntriesOf, Upto;
    assert Content(rows, d, t) == ContentAt(key, bars, d, t, root);
  }

  /** A subject offered on a day is offered on every later day that has rows. */
  lemma {:induction false} OfferedPersists(
    rows: Rows, key: set<Request>, bars: seq<Bar>, latest: Date, root: Root, d: Date, e: Date, u: IndicatorType,
    s: Subject)
    requires Ordered(bars) && AllCanonical(key) && FreshUpto(rows, key, bars, latest, root)
    requires d <= e <= latest && (e, u) in rows && OfferedOn(RowsOn(rows, d), s)
    ensures OfferedOn(RowsOn(rows, e), s)
  {
    hide FreshUpto, Ordered, AllCanonical, EntriesOf, Upto, OffersPair, RowsOn;
    var t := SubjectType(s);
    var q: Request;
    match s {
      case MaPair(short, long) =>
        q :| q in VariantsOf(RowsOn(rows, d), MA) && q.MaRequest? && OffersPair(q.periods, short, long);
      case Keyed(request) => q := request;
    }
    RowOfVariant(rows, d, t, q);
    RowDayIsBarDay(rows, key, bars, latest, root, d, t);
    RowDayIsBarDay(rows, key, bars, latest, root, e, u);
    VariantsAre(rows, key, bars, latest, root, d, t);
    VariantsAre(rows, key, bars, latest, root, e, t);
    EntryPersists(key, bars, d, e, t, q, root);
  }

  lemma {:induction false} RowOfVariant(rows: Rows, d: Date, t: IndicatorType, q: Request)
    requires q in VariantsOf(RowsOn(rows, d), t)
    ensures (d, t) in rows
  {
  }
}
