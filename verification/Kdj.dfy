/** KDJ: the monotone-deque pass refines the window-by-window calculation. */
module Kdj {
  import opened Common
  import opened Averages

  /** A candle; high and low may be missing, as for close-only series. */
  datatype Candle = Candle(high: Option<real>, low: Option<real>, close: real)

  /** What a constructed candle guarantees. */
  predicate ValidCandle(c: Candle) {
    && c.close > 0.0
    && (c.high.Some? ==> c.high.value > 0.0)
    && (c.low.Some? ==> c.low.value > 0.0)
    && (c.high.Some? && c.low.Some? ==> c.low.value <= c.close <= c.high.value)
  }

  predicate HasRange(c: Candle) { c.high.Some? && c.low.Some? }

  datatype KdjResult = KdjResult(rsv: real, k: real, d: real, j: real)

  datatype State = State(rsv: real, k: real, d: real)

  const SEED := State(50.0, 50.0, 50.0)

  // ---------------------------------------------------------------------------------------
  // Batch definition

  ghost predicate Ranged(candles: seq<Candle>) {
    forall i :: 0 <= i < |candles| ==> HasRange(candles[i])
  }

  function Highs(candles: seq<Candle>): (r: seq<real>)
    requires Ranged(candles)
    ensures |r| == |candles|
  {
    seq(|candles|, i requires 0 <= i < |candles| && Ranged(candles) => candles[i].high.value)
  }

  function Lows(candles: seq<Candle>): (r: seq<real>)
    requires Ranged(candles)
    ensures |r| == |candles|
  {
    seq(|candles|, i requires 0 <= i < |candles| && Ranged(candles) => candles[i].low.value)
  }

  function Negated(s: seq<real>): (r: seq<real>)
    ensures |r| == |s|
    ensures forall i :: 0 <= i < |s| ==> r[i] == -s[i]
  {
    seq(|s|, i requires 0 <= i < |s| => -s[i])
  }

  function Maximum(s: seq<real>): (m: real)
    requires s != []
  {
    if |s| == 1 then s[0]
    else
      var m := Maximum(s[..|s| - 1]);
      if m < s[|s| - 1] then s[|s| - 1] else m
  }

  function Minimum(s: seq<real>): (m: real)
    requires s != []
  {
    if |s| == 1 then s[0]
    else
      var m := Minimum(s[..|s| - 1]);
      if s[|s| - 1] < m then s[|s| - 1] else m
  }

  lemma {:induction false} MaximumBounds(s: seq<real>, i: nat)
    requires i < |s|
    ensures s[i] <= Maximum(s)
  {
    if |s| > 1 && i < |s| - 1 {
      MaximumBounds(s[..|s| - 1], i);
    }
  }

  lemma {:induction false} MaximumIsReached(s: seq<real>) returns (i: nat)
    requires s != []
    ensures i < |s| && s[i] == Maximum(s)
  {
    if |s| == 1 {
      i := 0;
    } else {
      i := MaximumIsReached(s[..|s| - 1]);
      if Maximum(s[..|s| - 1]) < s[|s| - 1] { i := |s| - 1; }
    }
  }

  /** The least element is the greatest of the negated ones. */
  lemma {:induction false} MinimumByNegation(s: seq<real>)
    requires s != []
    ensures Minimum(s) == -Maximum(Negated(s))
  {
    if |s| > 1 {
      MinimumByNegation(s[..|s| - 1]);
      assert Negated(s)[..|s| - 1] == Negated(s[..|s| - 1]);
    }
  }

  /** A value that bounds a window and occurs in it is its maximum. */
  lemma {:induction false} MaximumIs(s: seq<real>, k: nat)
    requires k < |s| && forall i :: 0 <= i < |s| ==> s[i] <= s[k]
    ensures Maximum(s) == s[k]
  {
    var i := MaximumIsReached(s);
    MaximumBounds(s, k);
  }

  lemma {:induction false} MinimumBounds(s: seq<real>, i: nat)
    requires i < |s|
    ensures Minimum(s) <= s[i]
  {
    MinimumByNegation(s);
    MaximumBounds(Negated(s), i);
  }

  function Rsv(highest: real, lowest: real, close: real): real {
    if highest - lowest == 0.0 then 50.0 else (close - lowest) / (highest - lowest) * 100.0
  }

  function Advance(s: State, rsv: real, kPeriod: int, dPeriod: int): State
    requires kPeriod > 0 && dPeriod > 0
  {
    var k := Smooth(s.k, rsv, kPeriod);
    State(rsv, k, Smooth(s.d, k, dPeriod))
  }

  function ResultOf(s: State): KdjResult {
    KdjResult(s.rsv, s.k, s.d, 3.0 * s.k - 2.0 * s.d)
  }

  /** Running state after the first `n` candles; before a full window it is the seed. */
  function After(
    highs: seq<real>, lows: seq<real>, closes: seq<real>, period: int, kPeriod: int, dPeriod: int, n: nat): State
    requires |highs| == |lows| == |closes| && n <= |closes| && period > 0 && kPeriod > 0 && dPeriod > 0
  {
    if n < period then SEED
    else
      Advance(After(highs, lows, closes, period, kPeriod, dPeriod, n - 1),
              Rsv(Maximum(highs[n - period..n]), Minimum(lows[n - period..n]), closes[n - 1]), kPeriod, dPeriod)
  }

  function Closes(candles: seq<Candle>): (r: seq<real>)
    ensures |r| == |candles|
  {
    seq(|candles|, i requires 0 <= i < |candles| => candles[i].close)
  }

  ghost function Calculate(candles: seq<Candle>, period: int, kPeriod: int, dPeriod: int): (r: Outcome<KdjResult>) {
    if period <= 0 || kPeriod <= 0 || dPeriod <= 0 then InvalidParameter
    else if |candles| < period then InsufficientData(period)
    else if !Ranged(candles) then InvalidInput
    else
      Ok(ResultOf(After(Highs(candles), Lows(candles), Closes(candles), period, kPeriod, dPeriod, |candles|)))
  }

  // ---------------------------------------------------------------------------------------
  // Bounds

  lemma {:induction false} RsvInRange(highest: real, lowest: real, close: real)
    requires lowest <= close <= highest
    ensures 0.0 <= Rsv(highest, lowest, close) <= 100.0
  {
    var spread := highest - lowest;
    if spread != 0.0 {
      var q := (close - lowest) / spread;
      assert q * spread == close - lowest;
      assert 0.0 <= q;
      assert q <= 1.0;
    }
  }

  lemma {:induction false} ScaleBounds(a: real, k: real)
    requires 0.0 <= a <= 100.0 && k >= 0.0
    ensures 0.0 <= a * k <= 100.0 * k
  {
    assert (100.0 - a) * k >= 0.0;
  }

  lemma {:induction false} QuotientBounds(t: real, n: real)
    requires n > 0.0 && 0.0 <= t <= 100.0 * n
    ensures 0.0 <= t / n <= 100.0
  {
    var q := t / n;
    assert q * n == t;
    assert (100.0 - q) * n == 100.0 * n - t;
    SignOfFactor(q, n);
    SignOfFactor(100.0 - q, n);
  }

  lemma {:induction false} SignOfFactor(q: real, n: real)
    requires n > 0.0 && q * n >= 0.0
    ensures q >= 0.0
  {
  }

  lemma {:induction false} SmoothInRange(average: real, x: real, period: int)
    requires period > 0 && 0.0 <= average <= 100.0 && 0.0 <= x <= 100.0
    ensures 0.0 <= Smooth(average, x, period) <= 100.0
  {
    var n := period as real;
    var total := average * (period - 1) as real + x;
    assert (period - 1) as real == n - 1.0;
    ScaleBounds(average, n - 1.0);
    assert 0.0 <= total <= 100.0 * n;
    QuotientBounds(total, n);
  }

  lemma {:induction false} AfterStep(
    highs: seq<real>, lows: seq<real>, closes: seq<real>, period: int, kPeriod: int, dPeriod: int, n: nat)
    requires |highs| == |lows| == |closes| && 0 < period <= n <= |closes| && kPeriod > 0 && dPeriod > 0
    ensures After(highs, lows, closes, period, kPeriod, dPeriod, n) ==
            Advance(After(highs, lows, closes, period, kPeriod, dPeriod, n - 1),
                    Rsv(Maximum(highs[n - period..n]), Minimum(lows[n - period..n]), closes[n - 1]), kPeriod, dPeriod)
  {
    hide Advance, Rsv, Maximum, Minimum;
  }

  ghost predicate InRange(s: State) {
    0.0 <= s.rsv <= 100.0 && 0.0 <= s.k <= 100.0 && 0.0 <= s.d <= 100.0
  }

  lemma {:induction false} AfterInRange(
    highs: seq<real>, lows: seq<real>, closes: seq<real>, period: int, kPeriod: int, dPeriod: int, n: nat)
    requires |highs| == |lows| == |closes| && n <= |closes| && period > 0 && kPeriod > 0 && dPeriod > 0
    requires forall i :: 0 <= i < |closes| ==> lows[i] <= closes[i] <= highs[i]
    ensures InRange(After(highs, lows, closes, period, kPeriod, dPeriod, n))
  {
    hide After, Rsv, Smooth, Maximum, Minimum;
    if n < period {
      SeedFirst(highs, lows, closes, period, kPeriod, dPeriod, n);
    } else {
      AfterStep(highs, lows, closes, period, kPeriod, dPeriod, n);
      AfterInRange(highs, lows, closes, period, kPeriod, dPeriod, n - 1);
      var s := After(highs, lows, closes, period, kPeriod, dPeriod, n - 1);
      var hi, lo := highs[n - period..n], lows[n - period..n];
      MaximumBounds(hi, period - 1);
      MinimumBounds(lo, period - 1);
      var rsv := Rsv(Maximum(hi), Minimum(lo), closes[n - 1]);
      RsvInRange(Maximum(hi), Minimum(lo), closes[n - 1]);
      SmoothInRange(s.k, rsv, kPeriod);
      SmoothInRange(s.d, Smooth(s.k, rsv, kPeriod), dPeriod);
    }
  }

  /** For valid candles RSV, K and D stay in [0, 100] and J in [-200, 300]. */
  lemma {:induction false} KdjInRange(candles: seq<Candle>, period: int, kPeriod: int, dPeriod: int)
    requires forall c :: c in candles ==> ValidCandle(c)
    requires Calculate(candles, period, kPeriod, dPeriod).Ok?
    ensures var r := Calculate(candles, period, kPeriod, dPeriod).value;
            0.0 <= r.rsv <= 100.0 && 0.0 <= r.k <= 100.0 && 0.0 <= r.d <= 100.0 && -200.0 <= r.j <= 300.0
  {
    hide After;
    var highs, lows, closes := Highs(candles), Lows(candles), Closes(candles);
    forall i | 0 <= i < |closes| ensures lows[i] <= closes[i] <= highs[i] {
      assert candles[i] in candles;
    }
    AfterInRange(highs, lows, closes, period, kPeriod, dPeriod, |candles|);
  }

  // ---------------------------------------------------------------------------------------
  // The deque pass

  /** A deque of indices over the last window `[lo, hi)` of `keys`: indices increase, keys decrease
      strictly, and every key of the window is at most that of the first deque entry behind it. */
  ghost predicate Monotone(keys: seq<real>, deque: seq<nat>, lo: int, hi: nat) {
    && hi <= |keys|
    && (forall a :: 0 <= a < |deque| ==> lo <= deque[a] < hi)
    && (forall a, b :: 0 <= a < b < |deque| ==> deque[a] < deque[b] && keys[deque[b]] < keys[deque[a]])
    && (forall i :: Max(lo, 0) <= i < hi ==> Covered(keys, deque, i))
  }

  ghost predicate Covered(keys: seq<real>, deque: seq<nat>, i: nat)
    requires i < |keys|
  {
    exists a :: 0 <= a < |deque| && i <= deque[a] < |keys| && keys[i] <= keys[deque[a]]
  }

  /** Drops the dominated tail and appends the new index; `pops` counts the drops. */
  method Push(keys: seq<real>, deque: seq<nat>, lo: int, index: nat) returns (next: seq<nat>, ghost pops: nat)
    requires index < |keys| && lo <= index && Monotone(keys, deque, lo, index)
    ensures Monotone(keys, next, lo, index + 1)
    ensures next != [] && |next| == |deque| + 1 - pops
  {
    next, pops := deque, 0;
    while next != [] && keys[next[|next| - 1]] <= keys[index]
      invariant next <= deque && |next| == |deque| - pops
      invariant forall a :: |next| <= a < |deque| ==> keys[deque[a]] <= keys[index]
    {
      next := next[..|next| - 1];
      pops := pops + 1;
    }
    PushKeepsMonotone(keys, deque, next, lo, index);
    next := next + [index];
  }

  lemma {:induction false} PushKeepsMonotone(keys: seq<real>, deque: seq<nat>, kept: seq<nat>, lo: int, index: nat)
    requires index < |keys| && lo <= index && Monotone(keys, deque, lo, index)
    requires kept <= deque && (kept != [] ==> keys[index] < keys[kept[|kept| - 1]])
    requires forall a :: |kept| <= a < |deque| ==> keys[deque[a]] <= keys[index]
    ensures Monotone(keys, kept + [index], lo, index + 1)
  {
    var next := kept + [index];
    forall a, b | 0 <= a < b < |next| ensures next[a] < next[b] && keys[next[b]] < keys[next[a]] {
      if b == |kept| && a < |kept| - 1 {
        assert keys[deque[|kept| - 1]] < keys[deque[a]];
      }
    }
    forall i | Max(lo, 0) <= i < index + 1 ensures Covered(keys, next, i) {
      if i == index {
        assert next[|kept|] == index;
      } else {
        assert Covered(keys, deque, i);
        var a :| 0 <= a < |deque| && i <= deque[a] < |keys| && keys[i] <= keys[deque[a]];
        if a < |kept| { assert next[a] == deque[a]; } else { assert next[|kept|] == index; }
      }
    }
  }

  /** Drops indices that left the window; `pops` counts the drops. */
  method Expire(
    keys: seq<real>, deque: seq<nat>, lo: int, cutoff: int, hi: nat) returns (next: seq<nat>, ghost pops: nat)
    requires Monotone(keys, deque, lo, hi) && lo <= cutoff < hi
    ensures Monotone(keys, next, cutoff, hi)
    ensures |next| == |deque| - pops
  {
    next, pops := deque, 0;
    while next != [] && next[0] < cutoff
      invariant pops <= |deque| && next == deque[pops..]
      invariant forall a :: 0 <= a < pops ==> deque[a] < cutoff
    {
      next := next[1..];
      pops := pops + 1;
    }
    ExpireKeepsMonotone(keys, deque, pops, lo, cutoff, hi);
  }

  lemma {:induction false} ExpireKeepsMonotone(
    keys: seq<real>, deque: seq<nat>, pops: nat, lo: int, cutoff: int, hi: nat)
    requires Monotone(keys, deque, lo, hi) && lo <= cutoff && pops <= |deque|
    requires forall a :: 0 <= a < pops ==> deque[a] < cutoff
    requires pops < |deque| ==> cutoff <= deque[pops]
    ensures Monotone(keys, deque[pops..], cutoff, hi)
  {
    var next := deque[pops..];
    forall a | 0 <= a < |next| ensures cutoff <= next[a] < hi {
      assert next[a] == deque[pops + a];
      assert a > 0 ==> deque[pops] < deque[pops + a];
    }
    forall i | Max(cutoff, 0) <= i < hi ensures Covered(keys, next, i) {
      assert Covered(keys, deque, i);
      var a :| 0 <= a < |deque| && i <= deque[a] < |keys| && keys[i] <= keys[deque[a]];
      assert next[a - pops] == deque[a];
    }
  }

  /** The head of a monotone deque is the maximum of its window. */
  lemma {:induction false} HeadIsMaximum(keys: seq<real>, deque: seq<nat>, lo: nat, hi: nat)
    requires lo < hi <= |keys| && Monotone(keys, deque, lo, hi)
    ensures deque != [] && deque[0] < |keys| && keys[deque[0]] == Maximum(keys[lo..hi])
  {
    assert Covered(keys, deque, lo);
    var window, k := keys[lo..hi], deque[0] - lo;
    forall i | 0 <= i < |window| ensures window[i] <= window[k] {
      assert Covered(keys, deque, lo + i);
      var a :| 0 <= a < |deque| && lo + i <= deque[a] < |keys| && keys[lo + i] <= keys[deque[a]];
      assert a > 0 ==> keys[deque[a]] < keys[deque[0]];
    }
    MaximumIs(window, k);
  }

  /** The batch KDJ of the prefix that ends at index `i`. */
  ghost function KdjAt(candles: seq<Candle>, i: nat, period: int, kPeriod: int, dPeriod: int): (slot: Option<KdjResult>)
    requires i < |candles|
  {
    Slot(Calculate(candles[..i + 1], period, kPeriod, dPeriod))
  }

  lemma {:induction false} AfterOfPrefix(highs: seq<real>, lows: seq<real>, closes: seq<real>,
                                         period: int, kPeriod: int, dPeriod: int, n: nat, m: nat)
    requires |highs| == |lows| == |closes| && n <= m <= |closes| && period > 0 && kPeriod > 0 && dPeriod > 0
    ensures After(highs[..m], lows[..m], closes[..m], period, kPeriod, dPeriod, n)
         == After(highs, lows, closes, period, kPeriod, dPeriod, n)
  {
    hide After, Advance, Rsv, Maximum, Minimum;
    if n < period {
      SeedFirst(highs, lows, closes, period, kPeriod, dPeriod, n);
      SeedFirst(highs[..m], lows[..m], closes[..m], period, kPeriod, dPeriod, n);
    } else {
      AfterStep(highs, lows, closes, period, kPeriod, dPeriod, n);
      AfterStep(highs[..m], lows[..m], closes[..m], period, kPeriod, dPeriod, n);
      AfterOfPrefix(highs, lows, closes, period, kPeriod, dPeriod, n - 1, m);
      assert highs[..m][n - period..n] == highs[n - period..n];
      assert lows[..m][n - period..n] == lows[n - period..n];
    }
  }

  lemma {:induction false} SeriesOfPrefix(candles: seq<Candle>, n: nat)
    requires Ranged(candles) && n <= |candles|
    ensures Ranged(candles[..n])
    ensures Highs(candles[..n]) == Highs(candles)[..n]
    ensures Lows(candles[..n]) == Lows(candles)[..n]
    ensures Closes(candles[..n]) == Closes(candles)[..n]
  {
  }

  lemma {:induction false} KdjOfPrefix(candles: seq<Candle>, i: nat, period: int, kPeriod: int, dPeriod: int)
    requires i < |candles| && Ranged(candles) && period > 0 && kPeriod > 0 && dPeriod > 0
    ensures KdjAt(candles, i, period, kPeriod, dPeriod) ==
            if i + 1 < period then None
            else Some(ResultOf(After(Highs(candles), Lows(candles), Closes(candles), period, kPeriod, dPeriod, i + 1)))
  {
    hide After, ResultOf, Highs, Lows, Closes;
    SeriesOfPrefix(candles, i + 1);
    AfterOfPrefix(Highs(candles), Lows(candles), Closes(candles), period, kPeriod, dPeriod, i + 1, i + 1);
  }

  /** Moves a deque one bar forward: dominated indices go at the tail, expired ones at the head. */
  method MoveDeque(keys: seq<real>, deque: seq<nat>, period: int, index: nat) returns (next: seq<nat>, ghost pops: nat)
    requires period > 0 && index < |keys| && Monotone(keys, deque, index - period, index)
    ensures Monotone(keys, next, index - period + 1, index + 1)
    ensures |next| == |deque| + 1 - pops
  {
    hide Monotone;
    ghost var p1, p2;
    next, p1 := Push(keys, deque, index - period, index);
    next, p2 := Expire(keys, next, index - period, index - period + 1, index + 1);
    pops := p1 + p2;
  }

  /** The smoothing of one bar from the two deque heads. */
  method Smoothed(highs: seq<real>, lows: seq<real>, closes: seq<real>, period: int, kPeriod: int, dPeriod: int,
                  index: nat, high: real, low: real, s: State)
    returns (next: State)
    requires |highs| == |lows| == |closes| && 0 < period <= index + 1 <= |closes| && kPeriod > 0 && dPeriod > 0
    requires high == Maximum(highs[index + 1 - period..index + 1])
    requires low == Minimum(lows[index + 1 - period..index + 1])
    requires s == After(highs, lows, closes, period, kPeriod, dPeriod, index)
    ensures next == After(highs, lows, closes, period, kPeriod, dPeriod, index + 1)
  {
    hide Rsv, Maximum, Minimum, Smooth;
    var rsv := Rsv(high, low, closes[index]);
    var k := Smooth(s.k, rsv, kPeriod);
    next := State(rsv, k, Smooth(s.d, k, dPeriod));
  }

  /** Minima by the deque over negated keys. */
  lemma {:induction false} HeadIsMinimum(lows: seq<real>, deque: seq<nat>, lo: nat, hi: nat)
    requires lo < hi <= |lows| && Monotone(Negated(lows), deque, lo, hi)
    ensures deque != [] && deque[0] < |lows| && lows[deque[0]] == Minimum(lows[lo..hi])
  {
    HeadIsMaximum(Negated(lows), deque, lo, hi);
    assert Negated(lows)[lo..hi] == Negated(lows[lo..hi]);
    MinimumByNegation(lows[lo..hi]);
  }

  lemma {:induction false} EmptyDeque(keys: seq<real>, lo: int)
    ensures Monotone(keys, [], lo, 0)
  {
  }

  /** The deque pass equals the batch KDJ of every prefix, and pops at most twice per bar. */
  method KdjSeries(candles: seq<Candle>, period: int, kPeriod: int, dPeriod: int)
    returns (r: Outcome<seq<Option<KdjResult>>>, ghost pops: nat)
    ensures period <= 0 || kPeriod <= 0 || dPeriod <= 0 ==> r == InvalidParameter
    ensures period > 0 && kPeriod > 0 && dPeriod > 0 && !Ranged(candles) ==> r == InvalidInput
    ensures period > 0 && kPeriod > 0 && dPeriod > 0 && Ranged(candles) ==>
              r.Ok? && |r.value| == |candles| &&
              forall i :: 0 <= i < |candles| ==> r.value[i] == KdjAt(candles, i, period, kPeriod, dPeriod)
    ensures pops <= 2 * |candles|
  {
    hide After, KdjAt, Highs, Lows, Closes, Monotone, Negated, Maximum, Minimum, ResultOf;
    pops := 0;
    if period <= 0 || kPeriod <= 0 || dPeriod <= 0 { return InvalidParameter, 0; }
    for i := 0 to |candles|
      invariant forall k :: 0 <= k < i ==> HasRange(candles[k])
    {
      if !HasRange(candles[i]) { return InvalidInput, 0; }
    }
    var highs, lows, closes := Highs(candles), Lows(candles), Closes(candles);
    var negated := Negated(lows);
    var output: seq<Option<KdjResult>> := [];
    var maxima: seq<nat>, minima: seq<nat> := [], [];
    var s := SEED;
    EmptyDeque(highs, 1 - period);
    EmptyDeque(negated, 1 - period);
    SeedFirst(highs, lows, closes, period, kPeriod, dPeriod, 0);
    for index := 0 to |candles|
      invariant |output| == index
      invariant Monotone(highs, maxima, index - period, index) || index == 0
      invariant Monotone(negated, minima, index - period, index) || index == 0
      invariant index == 0 ==> maxima == minima == []
      invariant pops + |maxima| + |minima| == 2 * index
      invariant s == After(highs, lows, closes, period, kPeriod, dPeriod, index)
      invariant forall i :: 0 <= i < index ==> output[i] == KdjAt(candles, i, period, kPeriod, dPeriod)
    {
      if index == 0 {
        EmptyDeque(highs, -period);
        EmptyDeque(negated, -period);
      }
      ghost var p1, p2;
      maxima, p1 := MoveDeque(highs, maxima, period, index);
      minima, p2 := MoveDeque(negated, minima, period, index);
      pops := pops + p1 + p2;
      KdjOfPrefix(candles, index, period, kPeriod, dPeriod);
      var slot := None;
      if index >= period - 1 {
        HeadIsMaximum(highs, maxima, index + 1 - period, index + 1);
        HeadIsMinimum(lows, minima, index + 1 - period, index + 1);
        s := Smoothed(highs, lows, closes, period, kPeriod, dPeriod, index, highs[maxima[0]], lows[minima[0]], s);
        slot := Some(ResultOf(s));
      } else {
        SeedFirst(highs, lows, closes, period, kPeriod, dPeriod, index);
        SeedFirst(highs, lows, closes, period, kPeriod, dPeriod, index + 1);
      }
      output := output + [slot];
    }
    r := Ok(output);
  }

  lemma {:induction false} SeedFirst(
    highs: seq<real>, lows: seq<real>, closes: seq<real>, period: int, kPeriod: int, dPeriod: int, n: nat)
    requires |highs| == |lows| == |closes| && n <= |closes| && n < period && kPeriod > 0 && dPeriod > 0
    ensures After(highs, lows, closes, period, kPeriod, dPeriod, n) == SEED
  {
  }
}
