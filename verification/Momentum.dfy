/** Recursively smoothed indicators: Wilder's RSI and the seeded-EMA MACD. */
module Momentum {
  import opened Common
  import opened Averages

  // ---------------------------------------------------------------------------------------
  // RSI

  datatype Rsi = Rsi(value: real, gain: real, loss: real)

  function Changes(closes: seq<real>): (r: seq<real>)
    ensures |r| == if closes == [] then 0 else |closes| - 1
  {
    if closes == [] then [] else seq(|closes| - 1, i requires 0 <= i < |closes| - 1 => closes[i + 1] - closes[i])
  }

  function Gains(changes: seq<real>): (r: seq<real>)
    ensures |r| == |changes|
  {
    seq(|changes|, i requires 0 <= i < |changes| => NonNegative(changes[i]))
  }

  function Losses(changes: seq<real>): (r: seq<real>)
    ensures |r| == |changes|
  {
    seq(|changes|, i requires 0 <= i < |changes| => NonNegative(-changes[i]))
  }

  /** Wilder's average of the first `n` values: a plain mean, then smoothed one by one. */
  function Wilder(xs: seq<real>, period: int, n: nat): real
    requires 0 < period <= n <= |xs|
    decreases n
  {
    if n == period then Mean(Sum(xs[..period]), period) else Smooth(Wilder(xs, period, n - 1), xs[n - 1], period)
  }

  function Strength(gain: real, loss: real): real
    requires gain >= 0.0 && loss >= 0.0
  {
    if loss == 0.0 then if gain == 0.0 then 50.0 else 100.0
    else if gain == 0.0 then 0.0
    else 100.0 - 100.0 / (1.0 + gain / loss)
  }

  lemma {:induction false} SumNonNegative(xs: seq<real>)
    requires forall i :: 0 <= i < |xs| ==> xs[i] >= 0.0
    ensures Sum(xs) >= 0.0
  {
    if xs != [] {
      SumNonNegative(xs[..|xs| - 1]);
    }
  }

  lemma {:induction false} SmoothNonNegative(average: real, x: real, period: int)
    requires period > 0 && average >= 0.0 && x >= 0.0
    ensures Smooth(average, x, period) >= 0.0
  {
    assert average * (period - 1) as real >= 0.0;
    QuotientNonNegative(average * (period - 1) as real + x, period as real);
  }

  lemma {:induction false} QuotientNonNegative(a: real, b: real)
    requires a >= 0.0 && b > 0.0
    ensures a / b >= 0.0
  {
  }

  lemma {:induction false} WilderNonNegative(xs: seq<real>, period: int, n: nat)
    requires 0 < period <= n <= |xs|
    requires forall i :: 0 <= i < |xs| ==> xs[i] >= 0.0
    ensures Wilder(xs, period, n) >= 0.0
    decreases n
  {
    hide Smooth, Sum;
    if n == period {
      SumNonNegative(xs[..period]);
      QuotientNonNegative(Sum(xs[..period]), period as real);
    } else {
      WilderNonNegative(xs, period, n - 1);
      SmoothNonNegative(Wilder(xs, period, n - 1), xs[n - 1], period);
    }
  }

  /** Averages use only the values they average. */
  lemma {:induction false} WilderOfPrefix(xs: seq<real>, period: int, n: nat, m: nat)
    requires 0 < period <= n <= m <= |xs|
    ensures Wilder(xs[..m], period, n) == Wilder(xs, period, n)
    decreases n
  {
    hide Smooth, Sum, Mean;
    if n == period {
      assert xs[..m][..period] == xs[..period];
    } else {
      WilderOfPrefix(xs, period, n - 1, m);
    }
  }

  function RsiOf(gain: real, loss: real): (r: Rsi)
    requires gain >= 0.0 && loss >= 0.0
  {
    Rsi(Strength(gain, loss), gain, loss)
  }

  function RelativeStrength(closes: seq<real>, period: int): (r: Outcome<Rsi>) {
    if period <= 0 then InvalidParameter
    else if |closes| < period + 1 then InsufficientData(period + 1)
    else
      var changes := Changes(closes);
      var gains, losses := Gains(changes), Losses(changes);
      WilderNonNegative(gains, period, |changes|);
      WilderNonNegative(losses, period, |changes|);
      Ok(RsiOf(Wilder(gains, period, |changes|), Wilder(losses, period, |changes|)))
  }

  /** RSI stays within its scale. */
  lemma {:induction false} RsiInRange(closes: seq<real>, period: int)
    requires 0 < period < |closes|
    ensures 0.0 <= RelativeStrength(closes, period).value.value <= 100.0
  {
    hide Strength, Wilder, Gains, Losses, Changes;
    var n := |closes| - 1;
    WilderSigns(closes, period, n);
    StrengthInRange(Wilder(Gains(Changes(closes)), period, n), Wilder(Losses(Changes(closes)), period, n));
  }

  lemma {:induction false} StrengthInRange(gain: real, loss: real)
    requires gain >= 0.0 && loss >= 0.0
    ensures 0.0 <= Strength(gain, loss) <= 100.0
  {
    if gain > 0.0 && loss > 0.0 {
      var rs := gain / loss;
      assert rs > 0.0;
      var q := 100.0 / (1.0 + rs);
      assert q * (1.0 + rs) == 100.0;
      assert 0.0 < q;
      assert q * rs > 0.0;
      assert q * (1.0 + rs) == q + q * rs;
    }
  }

  /** The batch RSI of the prefix that ends at index `i`. */
  ghost function RsiAt(closes: seq<real>, i: nat, period: int): (slot: Option<Rsi>)
    requires i < |closes|
  {
    Slot(RelativeStrength(closes[..i + 1], period))
  }

  lemma {:induction false} ChangesOfPrefix(closes: seq<real>, n: nat)
    requires 0 < n <= |closes|
    ensures Changes(closes[..n]) == Changes(closes)[..n - 1]
  {
  }

  lemma {:induction false} GainsOfPrefix(xs: seq<real>, n: nat)
    requires n <= |xs|
    ensures Gains(xs[..n]) == Gains(xs)[..n] && Losses(xs[..n]) == Losses(xs)[..n]
  {
    hide NonNegative;
  }

  lemma {:induction false} WilderSigns(closes: seq<real>, period: int, n: nat)
    requires 0 < period <= n < |closes|
    ensures Wilder(Gains(Changes(closes)), period, n) >= 0.0
    ensures Wilder(Losses(Changes(closes)), period, n) >= 0.0
  {
    WilderNonNegative(Gains(Changes(closes)), period, n);
    WilderNonNegative(Losses(Changes(closes)), period, n);
  }

  lemma {:induction false} RsiOfPrefix(closes: seq<real>, i: nat, period: int)
    requires i < |closes| && period > 0
    ensures period <= i ==> Wilder(Gains(Changes(closes)), period, i) >= 0.0
                            && Wilder(Losses(Changes(closes)), period, i) >= 0.0
    ensures RsiAt(closes, i, period) ==
            if i < period then None
            else Some(RsiOf(Wilder(Gains(Changes(closes)), period, i), Wilder(Losses(Changes(closes)), period, i)))
  {
    hide Wilder, Gains, Losses, Changes, RsiOf;
    if period <= i {
      var changes := Changes(closes);
      WilderSigns(closes, period, i);
      ChangesOfPrefix(closes, i + 1);
      GainsOfPrefix(changes, i);
      WilderOfPrefix(Gains(changes), period, i, i);
      WilderOfPrefix(Losses(changes), period, i, i);
    }
  }

  /** One Wilder step, or the initial mean at the first complete window. */
  method WilderStep(xs: seq<real>, period: int, n: nat, average: real) returns (next: real)
    requires 0 < period <= n <= |xs|
    requires n > period ==> average == Wilder(xs, period, n - 1)
    ensures next == Wilder(xs, period, n)
  {
    hide Sum, Mean, Smooth;
    if n == period {
      next := Mean(Sum(xs[..period]), period);
    } else {
      next := Smooth(average, xs[n - 1], period);
    }
  }

  /** The single Wilder pass equals the batch RSI of every prefix. */
  method RsiSeries(closes: seq<real>, period: int) returns (r: Outcome<seq<Option<Rsi>>>)
    ensures period <= 0 ==> r == InvalidParameter
    ensures period > 0 ==>
              r.Ok? && |r.value| == |closes| &&
              forall i :: 0 <= i < |closes| ==> r.value[i] == RsiAt(closes, i, period)
  {
    hide *;
    if period <= 0 { return InvalidParameter; }
    var changes := Changes(closes);
    var gains, losses := Gains(changes), Losses(changes);
    var output: seq<Option<Rsi>> := [];
    var gain, loss := 0.0, 0.0;
    for index := 0 to |closes|
      invariant |output| == index
      invariant index > period ==> gain == Wilder(gains, period, index - 1) && loss == Wilder(losses, period, index - 1)
      invariant forall i :: 0 <= i < index ==> output[i] == RsiAt(closes, i, period)
    {
      RsiOfPrefix(closes, index, period);
      var slot := None;
      if index >= period {
        gain := WilderStep(gains, period, index, gain);
        loss := WilderStep(losses, period, index, loss);
        slot := Some(RsiOf(gain, loss));
      }
      output := output + [slot];
    }
    r := Ok(output);
  }

  // ---------------------------------------------------------------------------------------
  // MACD

  datatype Macd = Macd(diff: real, dea: real, histogram: real)

  /** One exponential step with the source's weight `2 / (period + 1)`. */
  function Blend(previous: real, x: real, period: int): real
    requires period > 0
  {
    var alpha := 2.0 / (period as real + 1.0);
    alpha * x + (1.0 - alpha) * previous
  }

  /** The EMA at index `i`, seeded by the mean of the first `period` values. */
  function EmaAt(xs: seq<real>, period: int, i: nat): real
    requires 0 < period <= i + 1 <= |xs|
    decreases i
  {
    if i + 1 == period then Mean(Sum(xs[..period]), period) else Blend(EmaAt(xs, period, i - 1), xs[i], period)
  }

  lemma {:induction false} EmaOfPrefix(xs: seq<real>, period: int, i: nat, n: nat)
    requires 0 < period <= i + 1 <= n <= |xs|
    ensures EmaAt(xs[..n], period, i) == EmaAt(xs, period, i)
    decreases i
  {
    hide Blend, Mean, Sum;
    if i + 1 == period {
      assert xs[..n][..period] == xs[..period];
    } else {
      EmaOfPrefix(xs, period, i - 1, n);
    }
  }

  /** The seeded EMA series, built in one pass. */
  method Ema(xs: seq<real>, period: int) returns (output: seq<Option<real>>)
    requires 0 < period <= |xs|
    ensures |output| == |xs|
    ensures forall i :: 0 <= i < |xs| ==>
              output[i] == if i + 1 < period then None else Some(EmaAt(xs, period, i))
  {
    hide Blend, Mean, Sum;
    var previous := Mean(Sum(xs[..period]), period);
    output := seq(period - 1, _ => None) + [Some(previous)];
    for i := period to |xs|
      invariant |output| == i
      invariant previous == EmaAt(xs, period, i - 1)
      invariant forall k :: 0 <= k < i ==>
                  output[k] == if k + 1 < period then None else Some(EmaAt(xs, period, k))
    {
      previous := Blend(previous, xs[i], period);
      output := output + [Some(previous)];
    }
  }

  /** Fast minus slow EMA, from the first index where both exist. */
  function Diffs(closes: seq<real>, fast: int, slow: int): (d: seq<real>)
    requires 0 < fast < slow <= |closes|
    ensures |d| == |closes| - slow + 1
  {
    seq(|closes| - slow + 1, k requires 0 <= k < |closes| - slow + 1 =>
      EmaAt(closes, fast, slow - 1 + k) - EmaAt(closes, slow, slow - 1 + k))
  }

  function MacdOf(diff: real, dea: real): Macd {
    Macd(diff, dea, diff - dea)
  }

  function Convergence(closes: seq<real>, fast: int, slow: int, signal: int): (r: Outcome<Macd>) {
    if fast <= 0 || slow <= 0 || signal <= 0 || fast >= slow then InvalidParameter
    else if |closes| < slow + signal - 1 then InsufficientData(slow + signal - 1)
    else
      var diffs := Diffs(closes, fast, slow);
      Ok(MacdOf(diffs[|diffs| - 1], EmaAt(diffs, signal, |diffs| - 1)))
  }

  /** The batch MACD of the prefix that ends at index `i`. */
  ghost function MacdAt(closes: seq<real>, i: nat, fast: int, slow: int, signal: int): (slot: Option<Macd>)
    requires i < |closes|
  {
    Slot(Convergence(closes[..i + 1], fast, slow, signal))
  }

  lemma {:induction false} DiffsOfPrefix(closes: seq<real>, fast: int, slow: int, n: nat)
    requires 0 < fast < slow <= n <= |closes|
    ensures Diffs(closes[..n], fast, slow) == Diffs(closes, fast, slow)[..n - slow + 1]
  {
    hide EmaAt;
    var a, b := Diffs(closes[..n], fast, slow), Diffs(closes, fast, slow)[..n - slow + 1];
    forall k | 0 <= k < |a| ensures a[k] == b[k] {
      EmaOfPrefix(closes, fast, slow - 1 + k, n);
      EmaOfPrefix(closes, slow, slow - 1 + k, n);
    }
  }

  lemma {:induction false} MacdOfPrefix(closes: seq<real>, i: nat, fast: int, slow: int, signal: int)
    requires i < |closes| && 0 < fast < slow && signal > 0
    ensures MacdAt(closes, i, fast, slow, signal) ==
            if i + 1 < slow + signal - 1 then None
            else
              var diffs, k := Diffs(closes, fast, slow), i + 1 - slow;
              Some(MacdOf(diffs[k], EmaAt(diffs, signal, k)))
  {
    hide EmaAt, MacdOf, Diffs;
    if i + 1 >= slow + signal - 1 {
      DiffsOfPrefix(closes, fast, slow, i + 1);
      EmaOfPrefix(Diffs(closes, fast, slow), signal, i + 1 - slow, i + 2 - slow);
    }
  }

  /** The difference series, as the series form collects it. */
  method CollectDiffs(closes: seq<real>, fast: int, slow: int) returns (diffs: seq<real>)
    requires 0 < fast < slow <= |closes|
    ensures diffs == Diffs(closes, fast, slow)
  {
    hide EmaAt;
    var fastValues := Ema(closes, fast);
    var slowValues := Ema(closes, slow);
    diffs := [];
    for index := slow - 1 to |closes|
      invariant |diffs| == index - slow + 1
      invariant forall k :: 0 <= k < |diffs| ==> diffs[k] == Diffs(closes, fast, slow)[k]
    {
      diffs := diffs + [fastValues[index].value - slowValues[index].value];
    }
  }

  /** The series form equals the batch MACD of every prefix. */
  method MacdSeries(closes: seq<real>, fast: int, slow: int, signal: int) returns (r: Outcome<seq<Option<Macd>>>)
    ensures fast <= 0 || slow <= 0 || signal <= 0 || fast >= slow ==> r == InvalidParameter
    ensures 0 < fast < slow && signal > 0 ==>
              r.Ok? && |r.value| == |closes| &&
              forall i :: 0 <= i < |closes| ==> r.value[i] == MacdAt(closes, i, fast, slow, signal)
  {
    hide *;
    if fast <= 0 || slow <= 0 || signal <= 0 || fast >= slow { return InvalidParameter; }
    var output: seq<Option<Macd>> := seq(|closes|, _ => None);
    forall i | 0 <= i < |closes| && i + 1 < slow + signal - 1
      ensures MacdAt(closes, i, fast, slow, signal) == None
    {
      MacdOfPrefix(closes, i, fast, slow, signal);
    }
    if |closes| < slow { return Ok(output); }
    var diffs := CollectDiffs(closes, fast, slow);
    if |diffs| < signal { return Ok(output); }
    var signals := Ema(diffs, signal);
    for pos := 0 to |diffs|
      invariant |output| == |closes|
      invariant forall i :: 0 <= i < slow - 1 + pos ==> output[i] == MacdAt(closes, i, fast, slow, signal)
      invariant forall i :: slow - 1 + pos <= i < |closes| ==> output[i] == None
    {
      var index := slow - 1 + pos;
      MacdOfPrefix(closes, index, fast, slow, signal);
      if signals[pos].Some? {
        output := output[index := Some(MacdOf(diffs[pos], signals[pos].value))];
      }
    }
    r := Ok(output);
  }
}
