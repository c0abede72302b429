/** Indicator requests: their merged set, the history they need and the values they yield. */
module Requests {
  import opened Common
  import opened States
  import opened Averages
  import Momentum
  import Kdj

  const MAX_PERIOD := 10000
  const MAX_MA_PERIODS := 32

  datatype IndicatorType = MA | PROJECTED_MA | RSI | KDJ | BOLL | MACD

  /** A request after canonicalization; a request is its own content-addressed key. */
  datatype Request =
    | MaRequest(periods: set<int>)
    | ProjectedMaRequest(period: int)
    | RsiRequest(period: int)
    | KdjRequest(period: int, kPeriod: int, dPeriod: int)
    | BollRequest(period: int, multiplier: real)
    | MacdRequest(fast: int, slow: int, signal: int)

  function TypeOf(r: Request): IndicatorType {
    match r
    case MaRequest(_) => MA
    case ProjectedMaRequest(_) => PROJECTED_MA
    case RsiRequest(_) => RSI
    case KdjRequest(_, _, _) => KDJ
    case BollRequest(_, _) => BOLL
    case MacdRequest(_, _, _) => MACD
  }

  predicate Period(p: int) { 0 < p <= MAX_PERIOD }

  /** What canonicalization accepts. */
  ghost predicate Canonical(r: Request) {
    match r
    case MaRequest(periods) => periods != {} && |periods| <= MAX_MA_PERIODS && forall p :: p in periods ==> Period(p)
    case ProjectedMaRequest(period) => Period(period)
    case RsiRequest(period) => Period(period)
    case KdjRequest(period, k, d) => Period(period) && Period(k) && Period(d)
    case BollRequest(period, multiplier) => Period(period) && multiplier > 0.0
    case MacdRequest(fast, slow, signal) => Period(fast) && Period(slow) && Period(signal) && fast < slow
  }

  const DEFAULTS: set<Request> := {
    MaRequest({5, 10}), ProjectedMaRequest(5), RsiRequest(14), KdjRequest(9, 3, 3),
    BollRequest(20, 2.0), MacdRequest(12, 26, 9)}

  /** The defaults and every distinct request. */
  function Merge(requests: set<Request>): (merged: set<Request>) {
    DEFAULTS + requests
  }

  // ---------------------------------------------------------------------------------------
  // Needed history

  ghost function Needs(r: Request): (n: int)
    requires Canonical(r)
  {
    match r
    case MaRequest(periods) => Latest(periods)
    case ProjectedMaRequest(period) => period
    case RsiRequest(period) => period + 1
    case KdjRequest(period, _, _) => period
    case BollRequest(period, _) => period
    case MacdRequest(_, slow, signal) => slow + signal - 1
  }

  ghost function ClosesOf(bars: seq<Kdj.Candle>): seq<real> { Kdj.Closes(bars) }

  /** Every value the request asks for exists on the last bar. */
  ghost predicate Complete(r: Request, bars: seq<Kdj.Candle>, root: Root) {
    var closes := ClosesOf(bars);
    match r
    case MaRequest(periods) => forall p :: p in periods ==> Sma(closes, p).Ok?
    case ProjectedMaRequest(period) => ProjectedMa(closes, period).Ok?
    case RsiRequest(period) => Momentum.RelativeStrength(closes, period).Ok?
    case KdjRequest(period, k, d) => Kdj.Calculate(bars, period, k, d).Ok?
    case BollRequest(period, multiplier) => Bollinger(closes, period, multiplier, root).Ok?
    case MacdRequest(fast, slow, signal) => Momentum.Convergence(closes, fast, slow, signal).Ok?
  }

  lemma {:induction false} CompleteFromNeeds(r: Request, bars: seq<Kdj.Candle>, root: Root)
    requires Canonical(r) && Kdj.Ranged(bars)
    ensures Complete(r, bars, root) <==> |bars| >= Needs(r)
  {
    if r.MaRequest? {
      assert Latest(r.periods) in r.periods;
    }
  }

  /** The running maximum over the merged requests. */
  method RequiredHistoryBars(merged: seq<Request>) returns (required: int)
    requires forall r :: r in merged ==> Canonical(r)
    ensures required >= 1
    ensures forall r :: r in merged ==> Needs(r) <= required
    ensures required == 1 || exists r :: r in merged && Needs(r) == required
  {
    required := 1;
    for i := 0 to |merged|
      invariant required >= 1
      invariant forall k :: 0 <= k < i ==> Needs(merged[k]) <= required
      invariant required == 1 || exists k :: 0 <= k < i && Needs(merged[k]) == required
    {
      assert merged[i] in merged;
      var need := Need(merged[i]);
      if required < need { required := need; }
    }
  }

  /** One branch of the maximum. */
  method Need(r: Request) returns (n: int)
    requires Canonical(r)
    ensures n == Needs(r)
  {
    match r
    case MaRequest(periods) => n := Longest(periods);
    case ProjectedMaRequest(period) => n := period;
    case RsiRequest(period) => n := period + 1;
    case KdjRequest(period, _, _) => n := period;
    case BollRequest(period, _) => n := period;
    case MacdRequest(_, slow, signal) => n := slow + signal - 1;
  }

  method Longest(periods: set<int>) returns (m: int)
    requires periods != {}
    ensures m == Latest(periods)
  {
    var rest := periods;
    ghost var known := Member(rest);
    m :| m in rest;
    while rest != {}
      invariant rest <= periods && m in periods
      invariant forall p :: p in periods && p !in rest ==> p <= m
      decreases |rest|
    {
      ghost var known := Member(rest);
      var p :| p in rest;
      if m < p { m := p; }
      rest := rest - {p};
    }
  }

  /** All merged requests are complete on the last bar exactly when the bar count reaches the
      required history. */
  lemma {:induction false} CompleteWhenEnoughHistory(
    requests: set<Request>, merged: seq<Request>, required: int, bars: seq<Kdj.Candle>, root: Root)
    requires forall r :: r in merged <==> r in Merge(requests)
    requires forall r :: r in merged ==> Canonical(r)
    requires forall r :: r in merged ==> Needs(r) <= required
    requires required == 1 || exists r :: r in merged && Needs(r) == required
    requires Kdj.Ranged(bars)
    ensures (forall r :: r in merged ==> Complete(r, bars, root)) <==> |bars| >= required
  {
    assert RsiRequest(14) in merged;
    hide Complete;
    forall r | r in merged ensures Complete(r, bars, root) <==> |bars| >= Needs(r) {
      CompleteFromNeeds(r, bars, root);
    }
    assert Needs(RsiRequest(14)) == 15;
  }

  // ---------------------------------------------------------------------------------------
  // Values

  function ProjectedValues(p: Projected): Values {
    map[Named("value") := p.value, Named("projected_close") := p.projectedClose]
  }

  function RsiValues(r: Momentum.Rsi): Values {
    map[Named("value") := r.value, Named("average_gain") := r.gain, Named("average_loss") := r.loss]
  }

  function KdjValues(r: Kdj.KdjResult): Values {
    map[Named("rsv") := r.rsv, Named("k") := r.k, Named("d") := r.d, Named("j") := r.j]
  }

  function BandValues(b: Bands): Values {
    map[Named("upper") := b.upper, Named("middle") := b.middle, Named("lower") := b.lower, Named("width") := b.width]
  }

  function MacdValues(m: Momentum.Macd): Values {
    map[Named("diff") := m.diff, Named("dea") := m.dea, Named("histogram") := m.histogram]
  }

  /** The moving averages that exist; a bundle may be partial while its longer periods warm up. */
  function MaValues(closes: seq<real>, periods: set<int>): Values {
    map p | p in periods && Sma(closes, p).Ok? :: MaOf(p) := Sma(closes, p).value
  }

  function Wrap(values: Values): Option<Values> {
    if values == map[] then None else Some(values)
  }

  /** The values of a request on the last of `bars`, by the batch functions. */
  ghost function Calculated(r: Request, bars: seq<Kdj.Candle>, root: Root): (v: Option<Values>) {
    var closes := ClosesOf(bars);
    match r
    case MaRequest(periods) => Wrap(MaValues(closes, periods))
    case ProjectedMaRequest(period) =>
      (match Slot(ProjectedMa(closes, period)) case Some(x) => Some(ProjectedValues(x)) case None => None)
    case RsiRequest(period) =>
      (match Slot(Momentum.RelativeStrength(closes, period)) case Some(x) => Some(RsiValues(x)) case None => None)
    case KdjRequest(period, k, d) =>
      (match Slot(Kdj.Calculate(bars, period, k, d)) case Some(x) => Some(KdjValues(x)) case None => None)
    case BollRequest(period, multiplier) =>
      (match Slot(Bollinger(closes, period, multiplier, root)) case Some(x) => Some(BandValues(x)) case None => None)
    case MacdRequest(fast, slow, signal) =>
      (match Slot(Momentum.Convergence(closes, fast, slow, signal))
       case Some(x) => Some(MacdValues(x))
       case None => None)
  }

  /** The values of a request on the bar at index `i`. */
  ghost function CalculatedAt(r: Request, bars: seq<Kdj.Candle>, i: nat, root: Root): (v: Option<Values>)
    requires i < |bars|
  {
    Calculated(r, bars[..i + 1], root)
  }

  lemma {:induction false} ClosesOfPrefix(bars: seq<Kdj.Candle>, n: nat)
    requires n <= |bars|
    ensures ClosesOf(bars[..n]) == ClosesOf(bars)[..n]
  {
  }

  /** Once a request has values it keeps having them as bars are added. */
  lemma {:induction false} ValuesPersist(r: Request, bars: seq<Kdj.Candle>, n: nat, root: Root)
    requires Canonical(r) && Kdj.Ranged(bars) && n <= |bars|
    requires Calculated(r, bars[..n], root).Some?
    ensures Calculated(r, bars, root).Some?
  {
    ClosesOfPrefix(bars, n);
    if r.MaRequest? {
      MaExists(ClosesOf(bars[..n]), r.periods);
      var p :| p in r.periods && Sma(ClosesOf(bars[..n]), p).Ok?;
      assert Sma(ClosesOf(bars), p).Ok?;
      assert MaOf(p) in MaValues(ClosesOf(bars), r.periods);
    } else {
      assert Kdj.Ranged(bars[..n]);
    }
  }

  lemma {:induction false} MaExists(closes: seq<real>, periods: set<int>)
    ensures MaValues(closes, periods) == map[] || exists p :: p in periods && Sma(closes, p).Ok?
  {
    if forall p :: p in periods ==> !Sma(closes, p).Ok? {
      assert MaValues(closes, periods) == map[];
    }
  }

  // ---------------------------------------------------------------------------------------
  // The one-pass series of a request

  /** The averages of every period of an MA bundle, one series each. */
  method BundleSeries(closes: seq<real>, periods: set<int>) returns (series: map<int, seq<Option<real>>>)
    requires forall p :: p in periods ==> Period(p)
    ensures series.Keys == periods
    ensures forall p :: p in periods ==> |series[p]| == |closes|
    ensures forall p, i :: p in periods && 0 <= i < |closes| ==> series[p][i] == SmaAt(closes, i, p)
  {
    hide SmaAt;
    series := map[];
    var rest := periods;
    while rest != {}
      invariant rest <= periods && series.Keys == periods - rest
      invariant forall p :: p in series ==> |series[p]| == |closes|
      invariant forall p, i :: p in series && 0 <= i < |closes| ==> series[p][i] == SmaAt(closes, i, p)
      decreases |rest|
    {
      ghost var known := Member(rest);
      var p :| p in rest;
      var r := SmaSeries(closes, p);
      series := series[p := r.value];
      rest := rest - {p};
    }
  }

  lemma {:induction false} BundleAt(bars: seq<Kdj.Candle>, i: nat, periods: set<int>, values: Values)
    requires i < |bars|
    requires values == map p | p in periods && SmaAt(ClosesOf(bars), i, p).Some?
                         :: MaOf(p) := SmaAt(ClosesOf(bars), i, p).value
    ensures values == MaValues(ClosesOf(bars[..i + 1]), periods)
  {
    ClosesOfPrefix(bars, i + 1);
    hide Sma;
  }

  /** The production series of a request: each slot holds the batch values of its prefix. */
  method SeriesForRequest(bars: seq<Kdj.Candle>, r: Request, root: Root) returns (out: seq<Option<Values>>)
    requires Canonical(r) && Kdj.Ranged(bars)
    ensures |out| == |bars|
    ensures forall i :: 0 <= i < |bars| ==> out[i] == CalculatedAt(r, bars, i, root)
  {
    hide SmaAt, ProjectedMaAt, BollingerAt, Momentum.RsiAt, Momentum.MacdAt, Kdj.KdjAt, CalculatedAt, Kdj.Closes;
    var closes := Kdj.Closes(bars);
    var projected, rsi, kdj, boll, macd;
    var bundle: map<int, seq<Option<real>>> := map[];
    ghost var pops;
    match r {
      case MaRequest(periods) => bundle := BundleSeries(closes, periods);
      case ProjectedMaRequest(period) => projected := ProjectedMaSeries(closes, period);
      case RsiRequest(period) => rsi := Momentum.RsiSeries(closes, period);
      case KdjRequest(period, k, d) => kdj, pops := Kdj.KdjSeries(bars, period, k, d);
      case BollRequest(period, multiplier) => boll := BollingerSeries(closes, period, multiplier, root);
      case MacdRequest(fast, slow, signal) => macd := Momentum.MacdSeries(closes, fast, slow, signal);
    }
    out := [];
    for i := 0 to |bars|
      invariant |out| == i
      invariant forall k :: 0 <= k < i ==> out[k] == CalculatedAt(r, bars, k, root)
    {
      SlotsAt(r, bars, i, root);
      var slot: Option<Values> := None;
      match r {
        case MaRequest(periods) =>
          var values := map p | p in periods && bundle[p][i].Some? :: MaOf(p) := bundle[p][i].value;
          BundleAt(bars, i, periods, values);
          slot := Wrap(values);
        case ProjectedMaRequest(_) =>
          if projected.value[i].Some? { slot := Some(ProjectedValues(projected.value[i].value)); }
        case RsiRequest(_) => if rsi.value[i].Some? { slot := Some(RsiValues(rsi.value[i].value)); }
        case KdjRequest(_, _, _) => if kdj.value[i].Some? { slot := Some(KdjValues(kdj.value[i].value)); }
        case BollRequest(_, _) => if boll.value[i].Some? { slot := Some(BandValues(boll.value[i].value)); }
        case MacdRequest(_, _, _) => if macd.value[i].Some? { slot := Some(MacdValues(macd.value[i].value)); }
      }
      out := out + [slot];
    }
  }

  function Mapped<T>(slot: Option<T>, f: T -> Values): Option<Values> {
    match slot case Some(x) => Some(f(x)) case None => None
  }

  /** Which series slot each kind of request reads. */
  lemma {:induction false} SlotsAt(r: Request, bars: seq<Kdj.Candle>, i: nat, root: Root)
    requires i < |bars|
    ensures var closes := Kdj.Closes(bars);
            CalculatedAt(r, bars, i, root) ==
            match r
            case MaRequest(periods) => Wrap(MaValues(ClosesOf(bars[..i + 1]), periods))
            case ProjectedMaRequest(period) => Mapped(ProjectedMaAt(closes, i, period), ProjectedValues)
            case RsiRequest(period) => Mapped(Momentum.RsiAt(closes, i, period), RsiValues)
            case KdjRequest(period, k, d) => Mapped(Kdj.KdjAt(bars, i, period, k, d), KdjValues)
            case BollRequest(period, multiplier) => Mapped(BollingerAt(closes, i, period, multiplier, root), BandValues)
            case MacdRequest(fast, slow, signal) => Mapped(Momentum.MacdAt(closes, i, fast, slow, signal), MacdValues)
  {
    hide ProjectedMa, Bollinger, Momentum.RelativeStrength, Momentum.Convergence, Kdj.Calculate,
         ProjectedValues, RsiValues, KdjValues, BandValues, MacdValues;
    ClosesOfPrefix(bars, i + 1);
  }
}
