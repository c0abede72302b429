/** What indicator values mean: laws that tie them to the closes and candles they were computed from. */
module IndicatorLaws {
  import opened Common
  import opened States
  import opened Averages
  import opened Requests
  import Momentum
  import Kdj

  // ---------------------------------------------------------------------------------------
  // Averages of a line

  /** The value `i` steps along a straight line. */
  function Line(start: real, slope: real, i: int): real { start + slope * i as real }

  /** The line read half a period back. */
  function Lagging(start: real, slope: real, x: real, period: int): real {
    start + slope * (x - (period as real - 1.0) / 2.0)
  }

  /** The values lie on a straight line. */
  ghost predicate OnLine(s: seq<real>, start: real, slope: real) {
    forall i :: 0 <= i < |s| ==> s[i] == Line(start, slope, i)
  }

  lemma {:induction false} Split(slope: real, a: real, b: real)
    ensures slope * (a + b) == slope * a + slope * b
    ensures slope * (a - b) == slope * a - slope * b
  {
  }

  lemma {:induction false} LineSum(s: seq<real>, start: real, slope: real)
    requires OnLine(s, start, slope)
    ensures Sum(s) == |s| as real * start + slope * LineCount(|s|)
  {
    if s != [] {
      var init, n := s[..|s| - 1], |s| - 1;
      LineSum(init, start, slope);
      assert LineCount(|s|) == LineCount(n) + n as real by { CountStep(n); }
      Split(slope, LineCount(n), n as real);
      assert |s| as real * start == n as real * start + start by { Split(start, n as real, 1.0); }
    }
  }

  /** The sum of the first `n` indices. */
  function LineCount(n: int): real { n as real * (n as real - 1.0) / 2.0 }

  lemma {:induction false} CountStep(n: int)
    ensures LineCount(n + 1) == LineCount(n) + n as real
  {
    assert (n + 1) as real == n as real + 1.0;
    assert (n as real + 1.0) * (n as real) == n as real * (n as real - 1.0) + 2.0 * n as real;
  }

  /** The mean of a line is its middle. */
  lemma {:induction false} LineMean(s: seq<real>, start: real, slope: real)
    requires OnLine(s, start, slope) && s != []
    ensures Mean(Sum(s), |s|) == start + slope * ((|s| as real - 1.0) / 2.0)
  {
    LineSum(s, start, slope);
    hide Sum;
    var n := |s| as real;
    var middle := start + slope * ((n - 1.0) / 2.0);
    assert n * middle == n * start + slope * LineCount(|s|) by { MiddleTimes(n, start, slope); }
    Quotient(Sum(s), n, middle);
  }

  lemma {:induction false} MiddleTimes(n: real, start: real, slope: real)
    ensures n * (start + slope * ((n - 1.0) / 2.0)) == n * start + slope * (n * (n - 1.0) / 2.0)
  {
    var h := (n - 1.0) / 2.0;
    assert n * (n - 1.0) / 2.0 == n * h;
    Split(n, start, slope * h);
    assert n * (slope * h) == slope * (n * h);
  }

  lemma {:induction false} Quotient(total: real, n: real, q: real)
    requires n > 0.0 && total == n * q
    ensures total / n == q
  {
  }

  /** On a line the simple average lags half its period. */
  lemma {:induction false} SmaOfLine(closes: seq<real>, period: int, start: real, slope: real)
    requires OnLine(closes, start, slope) && 0 < period <= |closes|
    ensures Sma(closes, period).value == Lagging(start, slope, |closes| as real - 1.0, period)
  {
    var k := |closes| - period;
    var w := closes[k..];
    forall i | 0 <= i < |w| ensures w[i] == Line(Line(start, slope, k), slope, i) {
      Split(slope, k as real, i as real);
      assert (k + i) as real == k as real + i as real;
    }
    LineMean(w, Line(start, slope, k), slope);
    hide Sum;
    Split(slope, k as real, (period as real - 1.0) / 2.0);
  }

  /** Appending a close moves the average by the entering minus the leaving close, a period's share of it. */
  lemma {:induction false} SmaSlides(closes: seq<real>, period: int, x: real)
    requires 0 < period <= |closes|
    ensures period as real * (Sma(closes + [x], period).value - Sma(closes, period).value)
         == x - closes[|closes| - period]
  {
    var longer, n := closes + [x], |closes|;
    var a, b := longer[n + 1 - period..], closes[n - period..];
    assert a == (b + [x])[1..];
    SumDropsHead(b + [x]);
    SumAppends(b, x);
    hide Sum;
    MeanTimes(Sum(a), period);
    MeanTimes(Sum(b), period);
  }

  lemma {:induction false} MeanTimes(total: real, n: int)
    requires n > 0
    ensures n as real * Mean(total, n) == total
  {
  }

  // ---------------------------------------------------------------------------------------
  // Exponential averages of a line

  lemma {:induction false} EmaSeed(xs: seq<real>, period: int)
    requires 0 < period <= |xs|
    ensures Momentum.EmaAt(xs, period, period - 1) == Mean(Sum(xs[..period]), |xs[..period]|)
  {
    hide Sum, Mean;
  }

  lemma {:induction false} EmaNext(xs: seq<real>, period: int, i: nat)
    requires 0 < period <= i < |xs|
    ensures Momentum.EmaAt(xs, period, i) == Momentum.Blend(Momentum.EmaAt(xs, period, i - 1), xs[i], period)
  {
    hide Momentum.Blend, Mean, Sum;
  }

  lemma {:induction false} HeadOnLine(xs: seq<real>, n: nat, start: real, slope: real)
    requires OnLine(xs, start, slope) && n <= |xs|
    ensures OnLine(xs[..n], start, slope)
  {
    hide Line;
  }

  lemma {:induction false} SeedLag(start: real, slope: real, period: int)
    ensures Lagging(start, slope, period as real - 1.0, period) == start + slope * ((period as real - 1.0) / 2.0)
  {
  }

  lemma {:induction false} ValueOnLine(xs: seq<real>, start: real, slope: real, i: nat)
    requires OnLine(xs, start, slope) && i < |xs|
    ensures xs[i] == start + slope * i as real
  {
  }

  /** On a line the seeded exponential average lags half its period at every index. */
  lemma {:induction false} EmaOfLine(xs: seq<real>, period: int, i: nat, start: real, slope: real)
    requires OnLine(xs, start, slope) && 0 < period <= i + 1 <= |xs|
    ensures Momentum.EmaAt(xs, period, i) == Lagging(start, slope, i as real, period)
    decreases i
  {
    hide *;
    if i + 1 == period {
      EmaSeed(xs, period);
      HeadOnLine(xs, period, start, slope);
      LineMean(xs[..period], start, slope);
      SeedLag(start, slope, period);
    } else {
      EmaNext(xs, period, i);
      EmaOfLine(xs, period, i - 1, start, slope);
      ValueOnLine(xs, start, slope, i);
      BlendOfLine(start, slope, i as real, period);
    }
  }

  lemma {:induction false} BlendOfLine(start: real, slope: real, x: real, period: int)
    requires period > 0
    ensures Momentum.Blend(Lagging(start, slope, x - 1.0, period), start + slope * x, period)
         == Lagging(start, slope, x, period)
  {
    var p := period as real;
    var alpha, lag := 2.0 / (p + 1.0), (p - 1.0) / 2.0;
    assert alpha * (p + 1.0) == 2.0;
    assert 1.0 + lag == (p + 1.0) / 2.0;
    assert alpha * (1.0 + lag) == 1.0;
    var here, drop := start + slope * x, slope * (1.0 + lag);
    Split(slope, x, 1.0 + lag);
    Split(slope, x, lag);
    Split(slope, 1.0, lag);
    assert alpha * drop == slope by { Reorder3(alpha, slope, 1.0 + lag); }
    BlendDown(alpha, here, drop);
  }

  lemma {:induction false} Reorder3(a: real, b: real, c: real)
    ensures a * (b * c) == b * (a * c)
  {
  }

  lemma {:induction false} BlendDown(alpha: real, here: real, drop: real)
    ensures alpha * here + (1.0 - alpha) * (here - drop) == here - drop + alpha * drop
  {
  }

  /** How far the averages of two periods stand apart on a line. */
  function Gap(slope: real, fast: int, slow: int): real { slope * ((slow - fast) as real / 2.0) }

  lemma {:induction false} LagsApart(start: real, slope: real, x: real, fast: int, slow: int)
    ensures Lagging(start, slope, x, fast) - Lagging(start, slope, x, slow) == Gap(slope, fast, slow)
  {
    var a, b := x - (fast as real - 1.0) / 2.0, x - (slow as real - 1.0) / 2.0;
    Split(slope, a, b);
    assert a - b == (slow - fast) as real / 2.0;
  }

  lemma {:induction false} DiffAt(closes: seq<real>, fast: int, slow: int, k: nat)
    requires 0 < fast < slow <= |closes| && k < |closes| - slow + 1
    ensures Momentum.Diffs(closes, fast, slow)[k]
         == Momentum.EmaAt(closes, fast, slow - 1 + k) - Momentum.EmaAt(closes, slow, slow - 1 + k)
  {
    hide Momentum.EmaAt;
  }

  lemma {:induction false} FlatLine(s: seq<real>, x: real)
    requires forall k :: 0 <= k < |s| ==> s[k] == x
    ensures OnLine(s, x, 0.0)
  {
  }

  lemma {:induction false} FlatLag(x: real, i: real, period: int)
    ensures Lagging(x, 0.0, i, period) == x
  {
  }

  /** On a line both MACD lines stand at the difference of the two lags, and the histogram at zero. */
  lemma {:induction false} MacdOfLine(
    closes: seq<real>, fast: int, slow: int, signal: int, start: real, slope: real)
    requires OnLine(closes, start, slope) && 0 < fast < slow && 0 < signal && slow + signal - 1 <= |closes|
    ensures var m := Momentum.Convergence(closes, fast, slow, signal).value;
            m.diff == Gap(slope, fast, slow) && m.dea == Gap(slope, fast, slow) && m.histogram == 0.0
  {
    hide Momentum.EmaAt, Momentum.Diffs, OnLine, Lagging, Gap;
    var diffs, gap := Momentum.Diffs(closes, fast, slow), Gap(slope, fast, slow);
    forall k | 0 <= k < |diffs| ensures diffs[k] == gap {
      var i := slow - 1 + k;
      DiffAt(closes, fast, slow, k);
      EmaOfLine(closes, fast, i, start, slope);
      EmaOfLine(closes, slow, i, start, slope);
      LagsApart(start, slope, i as real, fast, slow);
    }
    FlatLine(diffs, gap);
    EmaOfLine(diffs, signal, |diffs| - 1, gap, 0.0);
    FlatLag(gap, (|diffs| - 1) as real, signal);
  }

  lemma {:induction false} BlendStep(previous: real, x: real, period: int)
    requires period > 0
    ensures (period as real + 1.0) * (Momentum.Blend(previous, x, period) - previous) == 2.0 * (x - previous)
  {
    var p := period as real + 1.0;
    var alpha := 2.0 / p;
    assert p * alpha == 2.0;
    assert Momentum.Blend(previous, x, period) - previous == alpha * (x - previous);
    assert p * (alpha * (x - previous)) == (p * alpha) * (x - previous);
  }

  /** The signal line moves two parts in `signal + 1` of the way to the new difference. */
  lemma {:induction false} SignalStep(closes: seq<real>, fast: int, slow: int, signal: int, x: real)
    requires 0 < fast < slow && 0 < signal && slow + signal - 1 <= |closes|
    ensures var was := Momentum.Convergence(closes, fast, slow, signal).value;
            var m := Momentum.Convergence(closes + [x], fast, slow, signal).value;
            && (signal as real + 1.0) * (m.dea - was.dea) == 2.0 * (m.diff - was.dea)
            && m.histogram == m.diff - m.dea
  {
    hide Momentum.Blend;
    var longer, n := closes + [x], |closes|;
    assert longer[..n] == closes;
    Momentum.DiffsOfPrefix(longer, fast, slow, n);
    var diffs, was := Momentum.Diffs(longer, fast, slow), Momentum.Diffs(closes, fast, slow);
    assert was == diffs[..|was|];
    Momentum.EmaOfPrefix(diffs, signal, |was| - 1, |was|);
    BlendStep(Momentum.EmaAt(diffs, signal, |was| - 1), diffs[|was|], signal);
  }

  // ---------------------------------------------------------------------------------------
  // RSI

  lemma {:induction false} StrengthShare(gain: real, loss: real)
    requires gain >= 0.0 && loss >= 0.0
    ensures if gain + loss > 0.0 then Momentum.Strength(gain, loss) * (gain + loss) == 100.0 * gain
            else Momentum.Strength(gain, loss) == 50.0
  {
    if gain > 0.0 && loss > 0.0 {
      var rs := gain / loss;
      assert rs * loss == gain && rs > 0.0;
      var q := 100.0 / (1.0 + rs);
      assert q * (1.0 + rs) == 100.0;
      assert q * (loss + rs * loss) == (q * (1.0 + rs)) * loss;
      assert (100.0 - q) * (gain + loss) == 100.0 * (gain + loss) - q * (gain + loss);
    }
  }

  /** The RSI is the share of the average gain in the average movement; 50 without any. */
  lemma {:induction false} RsiIsShare(closes: seq<real>, period: int)
    requires 0 < period < |closes|
    ensures Momentum.RelativeStrength(closes, period).Ok?
    ensures var r := Momentum.RelativeStrength(closes, period).value;
            && r.gain >= 0.0 && r.loss >= 0.0
            && (r.gain + r.loss > 0.0 ==> r.value * (r.gain + r.loss) == 100.0 * r.gain)
            && (r.gain + r.loss == 0.0 ==> r.value == 50.0)
  {
    hide Momentum.Strength, Momentum.Wilder, Momentum.Gains, Momentum.Losses, Momentum.Changes;
    var n := |closes| - 1;
    Momentum.WilderSigns(closes, period, n);
    StrengthShare(Momentum.Wilder(Momentum.Gains(Momentum.Changes(closes)), period, n),
                  Momentum.Wilder(Momentum.Losses(Momentum.Changes(closes)), period, n));
  }

  function Rise(a: real, b: real): real { if a < b then b - a else 0.0 }

  lemma {:induction false} SmoothStep(average: real, x: real, period: int)
    requires period > 0
    ensures period as real * Smooth(average, x, period) == (period as real - 1.0) * average + x
  {
    assert (period - 1) as real == period as real - 1.0;
  }

  lemma {:induction false} WilderStep(xs: seq<real>, period: int, n: nat)
    requires 0 < period <= n < |xs|
    ensures period as real * Momentum.Wilder(xs, period, n + 1)
         == (period as real - 1.0) * Momentum.Wilder(xs[..n], period, n) + xs[n]
  {
    hide Smooth, Sum;
    Momentum.WilderOfPrefix(xs, period, n, n);
    SmoothStep(Momentum.Wilder(xs, period, n), xs[n], period);
  }

  lemma {:induction false} NewChange(closes: seq<real>, x: real)
    requires closes != []
    ensures var changes, n := Momentum.Changes(closes + [x]), |closes| - 1;
            && |changes| == n + 1
            && Momentum.Gains(changes)[..n] == Momentum.Gains(Momentum.Changes(closes))
            && Momentum.Losses(changes)[..n] == Momentum.Losses(Momentum.Changes(closes))
            && Momentum.Gains(changes)[n] == Rise(closes[n], x) && Momentum.Losses(changes)[n] == Rise(x, closes[n])
  {
    var longer, n := closes + [x], |closes| - 1;
    assert longer[..n + 1] == closes;
    Momentum.ChangesOfPrefix(longer, n + 1);
    Momentum.GainsOfPrefix(Momentum.Changes(longer), n);
  }

  /** Wilder's averages take up the new rise or fall with weight one in `period`. */
  lemma {:induction false} RsiStep(closes: seq<real>, period: int, x: real)
    requires 0 < period < |closes|
    ensures var was := Momentum.RelativeStrength(closes, period).value;
            var r, last := Momentum.RelativeStrength(closes + [x], period).value, closes[|closes| - 1];
            && period as real * r.gain == (period as real - 1.0) * was.gain + Rise(last, x)
            && period as real * r.loss == (period as real - 1.0) * was.loss + Rise(x, last)
  {
    hide Momentum.Strength, Momentum.Wilder, Momentum.Gains, Momentum.Losses, Momentum.Changes, Rise;
    var changes, n := Momentum.Changes(closes + [x]), |closes| - 1;
    NewChange(closes, x);
    WilderStep(Momentum.Gains(changes), period, n);
    WilderStep(Momentum.Losses(changes), period, n);
  }

  lemma {:induction false} WilderSeed(xs: seq<real>, period: int)
    requires 0 < period == |xs|
    ensures period as real * Momentum.Wilder(xs, period, period) == Sum(xs)
  {
    assert xs[..period] == xs;
    hide Sum;
    MeanTimes(Sum(xs), period);
  }

  /** The rises between consecutive closes. */
  function Rises(closes: seq<real>): (r: seq<real>)
    requires closes != []
    ensures |r| == |closes| - 1 && forall i :: 0 <= i < |r| ==> r[i] == Rise(closes[i], closes[i + 1])
  {
    seq(|closes| - 1, i requires 0 <= i < |closes| - 1 => Rise(closes[i], closes[i + 1]))
  }

  lemma {:induction false} GainsAreRises(closes: seq<real>)
    requires closes != []
    ensures Momentum.Gains(Momentum.Changes(closes)) == Rises(closes)
    ensures Momentum.Losses(Momentum.Changes(closes)) == Rises(Mirrored(closes))
  {
    hide *;
    var changes := Momentum.Changes(closes);
    forall i | 0 <= i < |changes|
      ensures Momentum.Gains(changes)[i] == Rises(closes)[i]
      ensures Momentum.Losses(changes)[i] == Rises(Mirrored(closes))[i]
    {
      GainAt(closes, i);
    }
    SameReals(Momentum.Gains(changes), Rises(closes));
    SameReals(Momentum.Losses(changes), Rises(Mirrored(closes)));
  }

  lemma {:induction false} GainAt(closes: seq<real>, i: nat)
    requires i + 1 < |closes|
    ensures Momentum.Gains(Momentum.Changes(closes))[i] == Rise(closes[i], closes[i + 1])
    ensures Momentum.Losses(Momentum.Changes(closes))[i] == Rise(-closes[i], -closes[i + 1])
  {
    hide Rise;
    RiseOfChange(closes[i], closes[i + 1]);
  }

  lemma {:induction false} SameReals(a: seq<real>, b: seq<real>)
    requires |a| == |b| && forall i :: 0 <= i < |a| ==> a[i] == b[i]
    ensures a == b
  {
  }

  lemma {:induction false} RiseOfChange(a: real, b: real)
    ensures NonNegative(b - a) == Rise(a, b) && NonNegative(-(b - a)) == Rise(-a, -b)
  {
  }

  /** They start as the plain means of the first rises and falls. */
  lemma {:induction false} RsiSeed(closes: seq<real>, period: int)
    requires 0 < period == |closes| - 1
    ensures var r := Momentum.RelativeStrength(closes, period).value;
            && period as real * r.gain == Sum(Rises(closes))
            && period as real * r.loss == Sum(Rises(Mirrored(closes)))
  {
    hide *;
    GainsAreRises(closes);
    AveragesAre(closes, period);
    WilderSeed(Rises(closes), period);
    WilderSeed(Rises(Mirrored(closes)), period);
  }

  lemma {:induction false} AveragesAre(closes: seq<real>, period: int)
    requires 0 < period < |closes|
    ensures Momentum.RelativeStrength(closes, period).Ok?
    ensures var r, changes := Momentum.RelativeStrength(closes, period).value, Momentum.Changes(closes);
            && |changes| == |closes| - 1
            && r.gain == Momentum.Wilder(Momentum.Gains(changes), period, |changes|)
            && r.loss == Momentum.Wilder(Momentum.Losses(changes), period, |changes|)
  {
    hide Momentum.Strength, Momentum.Wilder, Momentum.Gains, Momentum.Losses, Momentum.Changes;
  }

  /** The closes turned upside down. */
  function Mirrored(closes: seq<real>): (r: seq<real>)
    ensures |r| == |closes| && forall i :: 0 <= i < |closes| ==> r[i] == -closes[i]
  {
    seq(|closes|, i requires 0 <= i < |closes| => -closes[i])
  }

  lemma {:induction false} MirrorSwaps(closes: seq<real>)
    ensures var a, b := Momentum.Changes(closes), Momentum.Changes(Mirrored(closes));
            Momentum.Gains(b) == Momentum.Losses(a) && Momentum.Losses(b) == Momentum.Gains(a)
  {
    var a, b := Momentum.Changes(closes), Momentum.Changes(Mirrored(closes));
    assert forall i :: 0 <= i < |a| ==> b[i] == -a[i];
  }

  lemma {:induction false} AveragesSwap(closes: seq<real>, period: int)
    requires 0 < period < |closes|
    ensures var r := Momentum.RelativeStrength(closes, period).value;
            var m := Momentum.RelativeStrength(Mirrored(closes), period).value;
            m.gain == r.loss && m.loss == r.gain
  {
    MirrorSwaps(closes);
    hide Momentum.Strength, Momentum.Wilder, Momentum.Gains, Momentum.Losses, Momentum.Changes;
  }

  /** Turning the closes upside down turns the RSI around 50. */
  lemma {:induction false} RsiMirrors(closes: seq<real>, period: int)
    requires 0 < period < |closes|
    ensures Momentum.RelativeStrength(Mirrored(closes), period).value.value
         == 100.0 - Momentum.RelativeStrength(closes, period).value.value
  {
    hide *;
    AveragesSwap(closes, period);
    RsiIsShare(closes, period);
    RsiIsShare(Mirrored(closes), period);
    var r, m := Momentum.RelativeStrength(closes, period).value, Momentum.RelativeStrength(Mirrored(closes),
                                                                                           period).value;
    if r.gain + r.loss > 0.0 {
      SharesAddUp(r.value, m.value, r.gain, r.loss);
    }
  }

  lemma {:induction false} SharesAddUp(x: real, y: real, gain: real, loss: real)
    requires gain + loss > 0.0 && x * (gain + loss) == 100.0 * gain && y * (gain + loss) == 100.0 * loss
    ensures y == 100.0 - x
  {
    assert (gain + loss) * (x + y - 100.0) == 0.0;
    Quotient(0.0, gain + loss, x + y - 100.0);
  }

  /** Some value is positive and still remembered: with period 1 only the last one is. */
  ghost predicate Remembered(xs: seq<real>, period: int, n: nat)
    requires n <= |xs|
  {
    exists i :: 0 <= i < n && xs[i] > 0.0 && (period > 1 || i == n - 1)
  }

  lemma {:induction false} SumPositive(xs: seq<real>)
    requires forall i :: 0 <= i < |xs| ==> xs[i] >= 0.0
    ensures Sum(xs) > 0.0 <==> exists i :: 0 <= i < |xs| && xs[i] > 0.0
  {
    if xs != [] {
      var init, n := xs[..|xs| - 1], |xs| - 1;
      Momentum.SumNonNegative(init);
      SumPositive(init);
      assert forall i :: 0 <= i < n ==> init[i] == xs[i];
    }
  }

  lemma {:induction false} WilderPositive(xs: seq<real>, period: int, n: nat)
    requires 0 < period <= n <= |xs| && forall i :: 0 <= i < |xs| ==> xs[i] >= 0.0
    ensures Momentum.Wilder(xs, period, n) >= 0.0
    ensures Momentum.Wilder(xs, period, n) > 0.0 <==> Remembered(xs, period, n)
    decreases n
  {
    Momentum.WilderNonNegative(xs, period, n);
    hide Sum, Smooth;
    if n == period {
      var head := xs[..period];
      SumPositive(head);
      assert forall i :: 0 <= i < period ==> head[i] == xs[i];
      MeanTimes(Sum(head), period);
      SignOf(period as real, Mean(Sum(head), period));
    } else {
      WilderPositive(xs, period, n - 1);
      var was, x := Momentum.Wilder(xs, period, n - 1), xs[n - 1];
      SmoothStep(was, x, period);
      SignOf(period as real, Smooth(was, x, period));
      SignOf(period as real - 1.0, was);
      RememberedStep(xs, period, n);
    }
  }

  lemma {:induction false} SignOf(n: real, q: real)
    requires q >= 0.0
    ensures n > 0.0 ==> (n * q > 0.0 <==> q > 0.0)
    ensures n == 0.0 ==> n * q == 0.0
  {
  }

  lemma {:induction false} RememberedStep(xs: seq<real>, period: int, n: nat)
    requires 0 < n <= |xs|
    ensures Remembered(xs, period, n) <==> xs[n - 1] > 0.0 || (period > 1 && Remembered(xs, period, n - 1))
  {
  }

  lemma {:induction false} RisingAverages(closes: seq<real>, period: int)
    requires 0 < period < |closes| && forall i :: 0 <= i < |closes| - 1 ==> closes[i] <= closes[i + 1]
    ensures var r := Momentum.RelativeStrength(closes, period).value;
            r.loss == 0.0 && (r.gain > 0.0 <==> RiseRemembered(closes, period))
  {
    var changes, n := Momentum.Changes(closes), |closes| - 1;
    var gains, losses := Momentum.Gains(changes), Momentum.Losses(changes);
    assert forall i :: 0 <= i < n ==> gains[i] == closes[i + 1] - closes[i] && losses[i] == 0.0;
    hide Momentum.Strength, Momentum.Wilder, Momentum.Gains, Momentum.Losses, Momentum.Changes;
    WilderPositive(gains, period, n);
    WilderPositive(losses, period, n);
    RememberedRise(closes, gains, period);
  }

  /** Some rise is remembered: with period 1 the averages remember the last change alone. */
  ghost predicate RiseRemembered(closes: seq<real>, period: int) {
    exists i :: 0 <= i < |closes| - 1 && closes[i] < closes[i + 1] && (period > 1 || i == |closes| - 2)
  }

  /** On closes that never fall the RSI is 100 when some rise is remembered, else 50. */
  lemma {:induction false} RsiOfRisingCloses(closes: seq<real>, period: int)
    requires 0 < period < |closes| && forall i :: 0 <= i < |closes| - 1 ==> closes[i] <= closes[i + 1]
    ensures Momentum.RelativeStrength(closes, period).value.value
         == if RiseRemembered(closes, period) then 100.0 else 50.0
  {
    hide *;
    RisingAverages(closes, period);
    RsiIsShare(closes, period);
    var r := Momentum.RelativeStrength(closes, period).value;
    if r.gain > 0.0 {
      FullShare(r.value, r.gain);
    }
  }

  lemma {:induction false} FullShare(x: real, gain: real)
    requires gain > 0.0 && x * (gain + 0.0) == 100.0 * gain
    ensures x == 100.0
  {
  }

  lemma {:induction false} RememberedRise(closes: seq<real>, gains: seq<real>, period: int)
    requires closes != [] && |gains| == |closes| - 1
    requires forall i :: 0 <= i < |gains| ==> gains[i] == closes[i + 1] - closes[i]
    ensures Remembered(gains, period, |gains|) <==> RiseRemembered(closes, period)
  {
    if i :| 0 <= i < |closes| - 1 && closes[i] < closes[i + 1] && (period > 1 || i == |closes| - 2) {
      assert gains[i] > 0.0;
    }
    if i :| 0 <= i < |gains| && gains[i] > 0.0 && (period > 1 || i == |gains| - 1) {
      assert closes[i] < closes[i + 1];
    }
  }

  /** On closes that never rise it is 0 when some fall is remembered, else 50. */
  lemma {:induction false} RsiOfFallingCloses(closes: seq<real>, period: int)
    requires 0 < period < |closes| && forall i :: 0 <= i < |closes| - 1 ==> closes[i] >= closes[i + 1]
    ensures Momentum.RelativeStrength(closes, period).value.value
         == if RiseRemembered(Mirrored(closes), period) then 0.0 else 50.0
  {
    hide Momentum.RelativeStrength, RiseRemembered;
    RsiOfRisingCloses(Mirrored(closes), period);
    RsiMirrors(closes, period);
  }

  // ---------------------------------------------------------------------------------------
  // KDJ

  /** The greatest of the last values, by its bounds. */
  ghost predicate IsHighest(s: seq<real>, period: nat, x: real) {
    && period <= |s|
    && (forall i :: |s| - period <= i < |s| ==> s[i] <= x) && exists i :: |s| - period <= i < |s| && s[i] == x
  }

  ghost predicate IsLowest(s: seq<real>, period: nat, x: real) {
    && period <= |s|
    && (forall i :: |s| - period <= i < |s| ==> x <= s[i]) && exists i :: |s| - period <= i < |s| && s[i] == x
  }

  lemma {:induction false} HighestIsMaximum(s: seq<real>, period: nat, x: real)
    requires 0 < period && IsHighest(s, period, x)
    ensures Kdj.Maximum(s[|s| - period..|s|]) == x
  {
    var w := s[|s| - period..|s|];
    var i :| |s| - period <= i < |s| && s[i] == x;
    assert w[i - (|s| - period)] == x;
    forall j | 0 <= j < |w| ensures w[j] <= x { assert w[j] == s[|s| - period + j]; }
    Kdj.MaximumIs(w, i - (|s| - period));
  }

  lemma {:induction false} LowestIsMinimum(s: seq<real>, period: nat, x: real)
    requires 0 < period && IsLowest(s, period, x)
    ensures Kdj.Minimum(s[|s| - period..|s|]) == x
  {
    hide Kdj.Maximum, Kdj.Minimum;
    var n := Kdj.Negated(s);
    var w := s[|s| - period..|s|];
    var i :| |s| - period <= i < |s| && s[i] == x;
    assert n[i] == -x;
    assert IsHighest(n, period, -x);
    HighestIsMaximum(n, period, -x);
    assert n[|s| - period..|s|] == Kdj.Negated(w);
    Kdj.MinimumByNegation(w);
  }

  lemma {:induction false} RsvShare(high: real, low: real, close: real)
    ensures high != low ==> Kdj.Rsv(high, low, close) * (high - low) == 100.0 * (close - low)
    ensures high == low ==> Kdj.Rsv(high, low, close) == 50.0
  {
    if high != low {
      var q := (close - low) / (high - low);
      assert q * (high - low) == close - low;
      assert (q * 100.0) * (high - low) == 100.0 * (q * (high - low));
    }
  }

  /** K and D of the candles before the last one; 50 before the first complete window. */
  ghost function Before(candles: seq<Kdj.Candle>, period: int, kPeriod: int, dPeriod: int): (s: (real, real))
    requires candles != []
  {
    match Kdj.Calculate(candles[..|candles| - 1], period, kPeriod, dPeriod)
    case Ok(r) => (r.k, r.d)
    case _ => (50.0, 50.0)
  }

  lemma {:induction false} StateBefore(candles: seq<Kdj.Candle>, period: int, kPeriod: int, dPeriod: int)
    requires Kdj.Ranged(candles) && 0 < period <= |candles| && kPeriod > 0 && dPeriod > 0
    ensures var s := Kdj.After(Kdj.Highs(candles), Kdj.Lows(candles), Kdj.Closes(candles), period, kPeriod, dPeriod,
                               |candles| - 1);
            Before(candles, period, kPeriod, dPeriod) == (s.k, s.d)
  {
    hide *;
    var n := |candles|;
    var highs, lows, closes := Kdj.Highs(candles), Kdj.Lows(candles), Kdj.Closes(candles);
    Kdj.SeriesOfPrefix(candles, n - 1);
    Kdj.AfterOfPrefix(highs, lows, closes, period, kPeriod, dPeriod, n - 1, n - 1);
    if n - 1 < period {
      NothingBefore(candles, period, kPeriod, dPeriod);
      Kdj.SeedFirst(highs, lows, closes, period, kPeriod, dPeriod, n - 1);
    } else {
      CalculateIs(candles[..n - 1], period, kPeriod, dPeriod);
      ResultBefore(candles, period, kPeriod, dPeriod,
                   Kdj.After(highs, lows, closes, period, kPeriod, dPeriod, n - 1));
    }
  }

  lemma {:induction false} NothingBefore(candles: seq<Kdj.Candle>, period: int, kPeriod: int, dPeriod: int)
    requires 0 < |candles| <= period
    ensures Before(candles, period, kPeriod, dPeriod) == (50.0, 50.0) == (Kdj.SEED.k, Kdj.SEED.d)
  {
  }

  lemma {:induction false} ResultBefore(
    candles: seq<Kdj.Candle>, period: int, kPeriod: int, dPeriod: int, s: Kdj.State)
    requires candles != []
    requires Kdj.Calculate(candles[..|candles| - 1], period, kPeriod, dPeriod) == Ok(Kdj.ResultOf(s))
    ensures Before(candles, period, kPeriod, dPeriod) == (s.k, s.d)
  {
    hide Kdj.Calculate;
  }

  lemma {:induction false} ResultIs(
    candles: seq<Kdj.Candle>, period: int, kPeriod: int, dPeriod: int, high: real, low: real)
    requires Kdj.Ranged(candles) && 0 < period <= |candles| && kPeriod > 0 && dPeriod > 0
    requires IsHighest(Kdj.Highs(candles), period, high) && IsLowest(Kdj.Lows(candles), period, low)
    ensures var s := Kdj.After(Kdj.Highs(candles), Kdj.Lows(candles), Kdj.Closes(candles), period, kPeriod, dPeriod,
                               |candles| - 1);
            Kdj.Calculate(candles, period, kPeriod, dPeriod)
            == Ok(Kdj.ResultOf(Kdj.Advance(s, Kdj.Rsv(high, low, candles[|candles| - 1].close), kPeriod, dPeriod)))
  {
    hide *;
    var highs, lows, closes := Kdj.Highs(candles), Kdj.Lows(candles), Kdj.Closes(candles);
    LastClose(candles);
    HighestIsMaximum(highs, period, high);
    LowestIsMinimum(lows, period, low);
    Kdj.AfterStep(highs, lows, closes, period, kPeriod, dPeriod, |candles|);
    CalculateIs(candles, period, kPeriod, dPeriod);
  }

  lemma {:induction false} LastClose(candles: seq<Kdj.Candle>)
    requires candles != []
    ensures Kdj.Closes(candles)[|candles| - 1] == candles[|candles| - 1].close
  {
  }

  lemma {:induction false} CalculateIs(candles: seq<Kdj.Candle>, period: int, kPeriod: int, dPeriod: int)
    requires Kdj.Ranged(candles) && 0 < period <= |candles| && kPeriod > 0 && dPeriod > 0
    ensures Kdj.Calculate(candles, period, kPeriod, dPeriod)
         == Ok(Kdj.ResultOf(Kdj.After(Kdj.Highs(candles), Kdj.Lows(candles), Kdj.Closes(candles), period, kPeriod,
                                      dPeriod,
                                      |candles|)))
  {
    hide Kdj.After, Kdj.Highs, Kdj.Lows, Kdj.Closes, Kdj.ResultOf;
  }

  lemma {:induction false} AdvanceLaw(s: Kdj.State, rsv: real, kPeriod: int, dPeriod: int)
    requires kPeriod > 0 && dPeriod > 0
    ensures var r := Kdj.ResultOf(Kdj.Advance(s, rsv, kPeriod, dPeriod));
            && r.rsv == rsv && kPeriod as real * r.k == (kPeriod as real - 1.0) * s.k + rsv
            && dPeriod as real * r.d == (dPeriod as real - 1.0) * s.d + r.k && r.j == 3.0 * r.k - 2.0 * r.d
  {
    hide Smooth;
    SmoothStep(s.k, rsv, kPeriod);
    SmoothStep(s.d, Smooth(s.k, rsv, kPeriod), dPeriod);
  }

  /** RSV places the close between the lowest low and the highest high of the period; K takes it up with
      weight one in `kPeriod`, D takes K up with weight one in `dPeriod`, both from 50. */
  lemma {:induction false} KdjStep(
    candles: seq<Kdj.Candle>, period: int, kPeriod: int, dPeriod: int, high: real, low: real)
    requires Kdj.Ranged(candles) && 0 < period <= |candles| && kPeriod > 0 && dPeriod > 0
    requires IsHighest(Kdj.Highs(candles), period, high) && IsLowest(Kdj.Lows(candles), period, low)
    ensures var r, was := Kdj.Calculate(candles, period, kPeriod, dPeriod).value, Before(candles, period, kPeriod,
                                                                                         dPeriod);
            && (high != low ==> r.rsv * (high - low) == 100.0 * (candles[|candles| - 1].close - low))
            && (high == low ==> r.rsv == 50.0)
            && kPeriod as real * r.k == (kPeriod as real - 1.0) * was.0 + r.rsv
            && dPeriod as real * r.d == (dPeriod as real - 1.0) * was.1 + r.k
            && r.j == 3.0 * r.k - 2.0 * r.d
  {
    hide *;
    StateBefore(candles, period, kPeriod, dPeriod);
    ResultIs(candles, period, kPeriod, dPeriod, high, low);
    RsvShare(high, low, candles[|candles| - 1].close);
    AdvanceLaw(Kdj.After(Kdj.Highs(candles), Kdj.Lows(candles), Kdj.Closes(candles), period, kPeriod, dPeriod,
                         |candles| - 1),
               Kdj.Rsv(high, low, candles[|candles| - 1].close), kPeriod, dPeriod);
  }

  // ---------------------------------------------------------------------------------------
  // Bands

  /** With a square root, the bands lie around the average at the multiple of the standard deviation. */
  lemma {:induction false} BandsAreDeviations(closes: seq<real>, period: int, multiplier: real, root: Root)
    requires 0 < period <= |closes| && multiplier > 0.0
    requires forall v: real :: v >= 0.0 ==> root.sqrt(v) >= 0.0 && root.sqrt(v) * root.sqrt(v) == v
    ensures var b, window := Bollinger(closes, period, multiplier, root).value, closes[|closes| - period..];
            && b.middle == Sma(closes, period).value
            && b.upper - b.middle == b.middle - b.lower && b.upper >= b.middle
            && period as real * ((b.upper - b.middle) * (b.upper - b.middle))
               == (multiplier * multiplier) * SquaredDeviations(window, b.middle)
            && (if b.middle == 0.0 then b.width == 0.0 else b.width * b.middle == b.upper - b.lower)
  {
    var window := closes[|closes| - period..];
    var middle := Sma(closes, period).value;
    var total := SquaredDeviations(window, middle);
    DeviationsNonNegative(window, middle);
    hide Sum, SquaredDeviations;
    MeanTimes(total, period);
    var variance := Mean(total, period);
    Momentum.QuotientNonNegative(total, period as real);
    var d := root.sqrt(variance);
    assert NonNegative(variance) == variance;
    BandSquare(multiplier, d, variance, period as real, total);
    assert multiplier * d >= 0.0;
    var b := Bollinger(closes, period, multiplier, root).value;
    assert b.upper - b.middle == multiplier * d;
    if b.middle != 0.0 {
      WidthTimes(b.upper - b.lower, b.middle);
    }
  }

  lemma {:induction false} WidthTimes(a: real, n: real)
    requires n != 0.0
    ensures a / n * n == a
  {
  }

  lemma {:induction false} BandSquare(multiplier: real, d: real, variance: real, n: real, total: real)
    requires d * d == variance && n * variance == total
    ensures n * ((multiplier * d) * (multiplier * d)) == (multiplier * multiplier) * total
  {
    assert (multiplier * d) * (multiplier * d) == (multiplier * multiplier) * (d * d);
    assert n * ((multiplier * multiplier) * variance) == (multiplier * multiplier) * (n * variance);
  }

  lemma {:induction false} DeviationsNonNegative(s: seq<real>, m: real)
    ensures SquaredDeviations(s, m) >= 0.0
  {
    if s != [] {
      DeviationsNonNegative(s[..|s| - 1], m);
      assert Square(s[|s| - 1] - m) >= 0.0;
    }
  }

  // ---------------------------------------------------------------------------------------
  // The fields of a request's variant

  lemma {:induction false} KdjFields(q: Request, bars: seq<Kdj.Candle>, root: Root)
    requires q.KdjRequest? && Kdj.Calculate(bars, q.period, q.kPeriod, q.dPeriod).Ok?
    ensures var v, r := Calculated(q, bars, root), Kdj.Calculate(bars, q.period, q.kPeriod, q.dPeriod).value;
            && v.Some? && v.value.Keys == {Named("rsv"), Named("k"), Named("d"), Named("j")}
            && v.value[Named("rsv")] == r.rsv && v.value[Named("k")] == r.k && v.value[Named("d")] == r.d
            && v.value[Named("j")] == r.j
  {
    hide Kdj.Calculate;
  }

  lemma {:induction false} CanonicalKdj(q: Request)
    requires q.KdjRequest? && Canonical(q)
    ensures q.period > 0 && q.kPeriod > 0 && q.dPeriod > 0
  {
  }

  lemma {:induction false} BeforeIs(candles: seq<Kdj.Candle>, period: int, kPeriod: int, dPeriod: int)
    requires candles != [] && Kdj.Calculate(candles[..|candles| - 1], period, kPeriod, dPeriod).Ok?
    ensures var r := Kdj.Calculate(candles[..|candles| - 1], period, kPeriod, dPeriod).value;
            Before(candles, period, kPeriod, dPeriod) == (r.k, r.d)
  {
    hide Kdj.Calculate;
  }

  /** The KDJ variant of a bar follows from its candles and from the variant of the bar before. */
  lemma {:induction false} KdjVariant(q: Request, bars: seq<Kdj.Candle>, root: Root, high: real, low: real)
    requires q.KdjRequest? && Canonical(q) && Kdj.Ranged(bars) && q.period < |bars|
    requires IsHighest(Kdj.Highs(bars), q.period, high) && IsLowest(Kdj.Lows(bars), q.period, low)
    ensures Calculated(q, bars, root).Some? && Calculated(q, bars[..|bars| - 1], root).Some?
    ensures var v, was := Calculated(q, bars, root).value, Calculated(q, bars[..|bars| - 1], root).value;
            && v.Keys == was.Keys == {Named("rsv"), Named("k"), Named("d"), Named("j")}
            && (high != low ==> v[Named("rsv")] * (high - low) == 100.0 * (bars[|bars| - 1].close - low))
            && q.kPeriod as real * v[Named("k")] == (q.kPeriod as real - 1.0) * was[Named("k")] + v[Named("rsv")]
            && q.dPeriod as real * v[Named("d")] == (q.dPeriod as real - 1.0) * was[Named("d")] + v[Named("k")]
            && v[Named("j")] == 3.0 * v[Named("k")] - 2.0 * v[Named("d")]
  {
    hide *;
    CanonicalKdj(q);
    Kdj.SeriesOfPrefix(bars, |bars| - 1);
    CalculateIs(bars, q.period, q.kPeriod, q.dPeriod);
    CalculateIs(bars[..|bars| - 1], q.period, q.kPeriod, q.dPeriod);
    BeforeIs(bars, q.period, q.kPeriod, q.dPeriod);
    KdjFields(q, bars, root);
    KdjFields(q, bars[..|bars| - 1], root);
    KdjStep(bars, q.period, q.kPeriod, q.dPeriod, high, low);
  }

  /** The RSI variant shows the share of its average gain. */
  lemma {:induction false} RsiVariant(q: Request, bars: seq<Kdj.Candle>, root: Root)
    requires q.RsiRequest? && Canonical(q) && q.period < |bars|
    ensures Calculated(q, bars, root).Some?
    ensures var v := Calculated(q, bars, root).value;
            && v.Keys == {Named("value"), Named("average_gain"), Named("average_loss")}
            && var gain, loss := v[Named("average_gain")], v[Named("average_loss")];
               && gain >= 0.0 && loss >= 0.0
               && (if gain + loss > 0.0 then v[Named("value")] * (gain + loss) == 100.0 * gain
                   else v[Named("value")] == 50.0)
  {
    RsiIsShare(ClosesOf(bars), q.period);
    hide Momentum.RelativeStrength;
  }

  /** On closes along a line every average of a bundle lags half its period. */
  lemma {:induction false} BundleVariant(
    q: Request, bars: seq<Kdj.Candle>, root: Root, p: int, start: real, slope: real)
    requires q.MaRequest? && Canonical(q) && p in q.periods && p <= |bars| && OnLine(ClosesOf(bars), start, slope)
    ensures Calculated(q, bars, root).Some? && MaOf(p) in Calculated(q, bars, root).value
    ensures Calculated(q, bars, root).value[MaOf(p)] == Lagging(start, slope, |bars| as real - 1.0, p)
  {
    SmaOfLine(ClosesOf(bars), p, start, slope);
    hide OnLine, Lagging, Mean;
    assert MaOf(p) in MaValues(ClosesOf(bars), q.periods);
  }

  /** On closes along a line the MACD variant stands at the difference of the two lags. */
  lemma {:induction false} MacdVariant(q: Request, bars: seq<Kdj.Candle>, root: Root, start: real, slope: real)
    requires q.MacdRequest? && Canonical(q) && q.slow + q.signal - 1 <= |bars| && OnLine(ClosesOf(bars), start, slope)
    ensures Calculated(q, bars, root) == Some(map[
              Named("diff") := Gap(slope, q.fast, q.slow), Named("dea") := Gap(slope, q.fast, q.slow),
              Named("histogram") := 0.0])
  {
    MacdOfLine(ClosesOf(bars), q.fast, q.slow, q.signal, start, slope);
    hide OnLine, Gap, Momentum.Diffs, Momentum.EmaAt, Momentum.MacdOf;
  }

  /** The projected variant is the average of the closes with the last one repeated. */
  lemma {:induction false} ProjectedVariant(q: Request, bars: seq<Kdj.Candle>, root: Root)
    requires q.ProjectedMaRequest? && Canonical(q) && q.period <= |bars|
    ensures var closes := ClosesOf(bars); var last := closes[|bars| - 1];
            Calculated(q, bars, root)
            == Some(map[Named("value") := Sma(closes + [last], q.period).value, Named("projected_close") := last])
  {
    ProjectionExtends(ClosesOf(bars), q.period);
    hide Sma, ProjectedMa;
  }

  /** The bands of a variant lie around its middle at the multiple of the standard deviation. */
  lemma {:induction false} BandVariant(q: Request, bars: seq<Kdj.Candle>, root: Root)
    requires q.BollRequest? && Canonical(q) && q.period <= |bars|
    requires forall v: real :: v >= 0.0 ==> root.sqrt(v) >= 0.0 && root.sqrt(v) * root.sqrt(v) == v
    ensures Calculated(q, bars, root).Some?
    ensures var v, closes := Calculated(q, bars, root).value, ClosesOf(bars);
            && v.Keys == {Named("upper"), Named("middle"), Named("lower"), Named("width")}
            && var middle, up := v[Named("middle")], v[Named("upper")] - v[Named("middle")];
               && middle == Sma(closes, q.period).value && up == middle - v[Named("lower")] && up >= 0.0
               && q.period as real * (up * up)
                  == (q.multiplier * q.multiplier) * SquaredDeviations(closes[|closes| - q.period..], middle)
  {
    BandsAreDeviations(ClosesOf(bars), q.period, q.multiplier, root);
    hide SquaredDeviations, BandsOf, Mean;
  }
}
