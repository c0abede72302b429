/** Windowed indicators: simple and projected moving averages, and Bollinger bands. */
module Averages {
  import opened Common

  /** How an indicator call ends; the failures are the source's exceptions. */
  datatype Outcome<+T> = Ok(value: T) | InvalidParameter | InvalidInput | InsufficientData(required: int)

  /** One slot of a series: the value, or nothing while data is insufficient. */
  function Slot<T>(o: Outcome<T>): Option<T> {
    if o.Ok? then Some(o.value) else None
  }

  function Sum(s: seq<real>): real {
    if s == [] then 0.0 else Sum(s[..|s| - 1]) + s[|s| - 1]
  }

  function Mean(total: real, n: int): real
    requires n > 0
  {
    total / n as real
  }

  /** One smoothing step with weight `1 / period`. */
  function Smooth(average: real, x: real, period: int): real
    requires period > 0
  {
    (average * (period - 1) as real + x) / period as real
  }

  lemma {:induction false} SumAppends(s: seq<real>, x: real)
    ensures Sum(s + [x]) == Sum(s) + x
  {
    assert (s + [x])[..|s|] == s;
  }

  lemma {:induction false} SumDropsHead(s: seq<real>)
    requires s != []
    ensures Sum(s[1..]) == Sum(s) - s[0]
  {
    if |s| == 1 {
      assert s[1..] == [] && s[..0] == [];
    } else {
      var init := s[..|s| - 1];
      SumDropsHead(init);
      assert s[1..][..|s| - 2] == init[1..];
    }
  }

  /** The last `period` values before index `n`. */
  function Window(s: seq<real>, n: nat, period: nat): (w: seq<real>)
    requires n <= |s|
  {
    if n < period then s[..n] else s[n - period..n]
  }

  lemma {:induction false} EmptyWindow(s: seq<real>, period: nat)
    ensures Window(s, 0, period) == [] && Sum(Window(s, 0, period)) == 0.0
  {
  }

  lemma {:induction false} WindowSteps(s: seq<real>, i: nat, period: nat)
    requires i < |s| && period >= 1
    ensures Window(s, i + 1, period) ==
            var grown := Window(s, i, period) + [s[i]]; if i >= period then grown[1..] else grown
  {
    var grown := Window(s, i, period) + [s[i]];
    if i >= period {
      assert grown == s[i - period..i + 1];
      assert grown[1..] == s[i + 1 - period..i + 1];
    } else {
      assert grown == s[..i + 1];
    }
  }

  /** Sliding a window one step adds the entering value and drops the leaving one. */
  lemma {:induction false} WindowSlides(s: seq<real>, i: nat, period: nat)
    requires i < |s| && period >= 1
    ensures Sum(Window(s, i + 1, period))
         == Sum(Window(s, i, period)) + s[i] - (if i >= period then s[i - period] else 0.0)
  {
    var w := Window(s, i, period);
    WindowSteps(s, i, period);
    SumAppends(w, s[i]);
    if i >= period {
      SumDropsHead(w + [s[i]]);
      assert (w + [s[i]])[0] == s[i - period];
    }
    hide Sum;
  }

  // ---------------------------------------------------------------------------------------
  // Simple moving average

  function Sma(closes: seq<real>, period: int): (r: Outcome<real>) {
    if period <= 0 then InvalidParameter
    else if |closes| < period then InsufficientData(period)
    else Ok(Mean(Sum(closes[|closes| - period..]), period))
  }

  lemma {:induction false} SmaOfPrefix(closes: seq<real>, i: nat, period: int)
    requires i < |closes| && period > 0
    ensures SmaAt(closes, i, period) ==
            if i + 1 < period then None else Some(Mean(Sum(Window(closes, i + 1, period)), period))
  {
    hide Sum;
    if i + 1 >= period {
      assert closes[..i + 1][i + 1 - period..] == Window(closes, i + 1, period);
    }
  }

  /** The batch average of the prefix that ends at index `i`. */
  ghost function SmaAt(closes: seq<real>, i: nat, period: int): (slot: Option<real>)
    requires i < |closes|
  {
    Slot(Sma(closes[..i + 1], period))
  }

  /** One bar of the running-sum pass. */
  method SmaStep(closes: seq<real>, index: nat, period: int, running: real) returns (running': real, slot: Option<real>)
    requires index < |closes| && period > 0 && running == Sum(Window(closes, index, period))
    ensures running' == Sum(Window(closes, index + 1, period))
    ensures slot == SmaAt(closes, index, period)
  {
    WindowSlides(closes, index, period);
    SmaOfPrefix(closes, index, period);
    hide SmaAt, Window, Mean, Sum;
    running' := running + closes[index];
    if index >= period {
      running' := running' - closes[index - period];
    }
    slot := None;
    if index >= period - 1 {
      slot := Some(Mean(running', period));
    }
  }

  /** The running-sum pass equals the batch average of every prefix. */
  method SmaSeries(closes: seq<real>, period: int) returns (r: Outcome<seq<Option<real>>>)
    ensures period <= 0 ==> r == InvalidParameter
    ensures period > 0 ==>
              r.Ok? && |r.value| == |closes| &&
              forall i :: 0 <= i < |closes| ==> r.value[i] == SmaAt(closes, i, period)
  {
    hide *;
    if period <= 0 { return InvalidParameter; }
    var output: seq<Option<real>> := [];
    var running := 0.0;
    EmptyWindow(closes, period);
    for index := 0 to |closes|
      invariant running == Sum(Window(closes, index, period))
      invariant |output| == index
      invariant forall i :: 0 <= i < index ==> output[i] == SmaAt(closes, i, period)
    {
      var slot;
      running, slot := SmaStep(closes, index, period, running);
      output := output + [slot];
    }
    r := Ok(output);
  }

  // ---------------------------------------------------------------------------------------
  // Projected moving average: the next session's average if the close repeats

  datatype Projected = Projected(value: real, projectedClose: real)

  function ProjectedMa(closes: seq<real>, period: int): (r: Outcome<Projected>) {
    if period <= 0 then InvalidParameter
    else if |closes| < period then InsufficientData(period)
    else
      var last := closes[|closes| - 1];
      var window := if period == 1 then [last] else closes[|closes| - (period - 1)..] + [last];
      Ok(Projected(Mean(Sum(window), period), last))
  }

  lemma {:induction false} MeanOfOne(x: real)
    ensures Mean(Sum([x]), 1) == x
  {
    assert [x][..0] == [];
    assert Sum([x]) == x;
  }

  lemma {:induction false} ProjectedOfPrefix(closes: seq<real>, i: nat, period: int)
    requires i < |closes| && period > 0
    ensures ProjectedMaAt(closes, i, period) ==
            if i + 1 < period then None
            else if period == 1 then Some(Projected(closes[i], closes[i]))
            else Some(Projected(Mean(Sum(closes[i - period + 2..i + 1]) + closes[i], period), closes[i]))
  {
    if period == 1 {
      assert closes[..i + 1][i] == closes[i];
      MeanOfOne(closes[i]);
    } else if i + 1 >= period {
      var tail := closes[i - period + 2..i + 1];
      SumAppends(tail, closes[i]);
      assert closes[..i + 1][i + 1 - (period - 1)..] == tail;
    }
  }

  /** The batch projection of the prefix that ends at index `i`. */
  ghost function ProjectedMaAt(closes: seq<real>, i: nat, period: int): (slot: Option<Projected>)
    requires i < |closes|
  {
    Slot(ProjectedMa(closes[..i + 1], period))
  }

  method ProjectedMaSeries(closes: seq<real>, period: int) returns (r: Outcome<seq<Option<Projected>>>)
    ensures period <= 0 ==> r == InvalidParameter
    ensures period > 0 ==>
              r.Ok? && |r.value| == |closes| &&
              forall i :: 0 <= i < |closes| ==> r.value[i] == ProjectedMaAt(closes, i, period)
  {
    hide *;
    if period <= 0 { return InvalidParameter; }
    var output: seq<Option<Projected>> := [];
    for index := 0 to |closes|
      invariant |output| == index
      invariant forall i :: 0 <= i < index ==> output[i] == ProjectedMaAt(closes, i, period)
    {
      ProjectedOfPrefix(closes, index, period);
      var slot := None;
      if index >= period - 1 {
        var close := closes[index];
        var value := close;
        if period != 1 {
          value := Mean(Sum(closes[index - period + 2..index + 1]) + close, period);
        }
        slot := Some(Projected(value, close));
      }
      output := output + [slot];
    }
    r := Ok(output);
  }

  /** Projection is the ordinary average of the series extended by its own last close. */
  lemma {:induction false} ProjectionExtends(closes: seq<real>, period: int)
    requires 1 <= period <= |closes|
    ensures var last := closes[|closes| - 1];
            ProjectedMa(closes, period) == Ok(Projected(Sma(closes + [last], period).value, last))
  {
    var last := closes[|closes| - 1];
    var longer := closes + [last];
    if period == 1 {
      assert longer[|longer| - 1..] == [last];
    } else {
      assert longer[|longer| - period..] == closes[|closes| - (period - 1)..] + [last];
    }
  }

  // ---------------------------------------------------------------------------------------
  // Bollinger bands

  datatype Bands = Bands(upper: real, middle: real, lower: real, width: real)

  function NonNegative(x: real): real { if x > 0.0 then x else 0.0 }

  function BandWidth(upper: real, lower: real, middle: real): real {
    if middle == 0.0 then 0.0 else (upper - lower) / middle
  }

  /** The square root, left abstract. */
  datatype Root = Root(sqrt: real -> real)

  /** Bands around a mean. */
  function BandsOf(middle: real, variance: real, multiplier: real, root: Root): (b: Bands) {
    var deviation := root.sqrt(NonNegative(variance));
    var upper, lower := middle + multiplier * deviation, middle - multiplier * deviation;
    Bands(upper, middle, lower, BandWidth(upper, lower, middle))
  }

  function Square(x: real): real { x * x }

  function SquaredDeviations(s: seq<real>, m: real): real {
    if s == [] then 0.0 else SquaredDeviations(s[..|s| - 1], m) + Square(s[|s| - 1] - m)
  }

  function Squares(s: seq<real>): (r: seq<real>)
    ensures |r| == |s|
  {
    seq(|s|, i requires 0 <= i < |s| => Square(s[i]))
  }

  function Bollinger(closes: seq<real>, period: int, multiplier: real, root: Root): (r: Outcome<Bands>) {
    if period <= 0 || multiplier <= 0.0 then InvalidParameter
    else if |closes| < period then InsufficientData(period)
    else
      var window := closes[|closes| - period..];
      var middle := Mean(Sum(window), period);
      Ok(BandsOf(middle, Mean(SquaredDeviations(window, middle), period), multiplier, root))
  }

  /** The mean of squares minus the square of the mean. */
  function SpreadOf(squares: real, middle: real, n: int): real
    requires n > 0
  {
    Mean(squares, n) - middle * middle
  }

  lemma {:induction false} SquaresOfWindow(s: seq<real>, n: nat, period: nat)
    requires n <= |s|
    ensures Squares(Window(s, n, period)) == Window(Squares(s), n, period)
  {
    hide Square;
  }

  lemma {:induction false} SquaresStep(s: seq<real>)
    requires s != []
    ensures Sum(Squares(s)) == Sum(Squares(s[..|s| - 1])) + Square(s[|s| - 1])
  {
    hide Square;
    assert Squares(s)[..|s| - 1] == Squares(s[..|s| - 1]);
  }

  /** The expanded form of a sum of squared deviations. */
  function Expanded(squares: real, sum: real, n: real, m: real): real {
    squares - 2.0 * m * sum + n * (m * m)
  }

  lemma {:induction false} ExpandedStep(squares: real, sum: real, n: real, m: real, x: real)
    ensures Expanded(squares + Square(x), sum + x, n + 1.0, m) == Expanded(squares, sum, n, m) + Square(x - m)
  {
    assert 2.0 * m * (sum + x) == 2.0 * m * sum + 2.0 * m * x;
    assert (n + 1.0) * (m * m) == n * (m * m) + m * m;
    assert (x - m) * (x - m) == x * x - 2.0 * m * x + m * m;
  }

  /** Squared deviations from any point, by the sums alone. */
  lemma {:induction false} DeviationsExpand(s: seq<real>, m: real)
    ensures SquaredDeviations(s, m) == Expanded(Sum(Squares(s)), Sum(s), |s| as real, m)
  {
    if s == [] {
      assert Squares(s) == [];
      assert 0.0 * (m * m) == 0.0;
    } else {
      hide Expanded, Square, Squares;
      var init, x := s[..|s| - 1], s[|s| - 1];
      DeviationsExpand(init, m);
      SquaresStep(s);
      ExpandedStep(Sum(Squares(init)), Sum(init), |init| as real, m, x);
      assert |s| as real == |init| as real + 1.0;
    }
  }

  /** Variance identity: mean squared deviation is mean of squares minus square of mean. */
  lemma {:induction false} VarianceIdentity(s: seq<real>)
    requires s != []
    ensures var m := Mean(Sum(s), |s|);
            Mean(SquaredDeviations(s, m), |s|) == SpreadOf(Sum(Squares(s)), m, |s|)
  {
    hide Sum, Squares, SquaredDeviations;
    var n, m := |s| as real, Mean(Sum(s), |s|);
    DeviationsExpand(s, m);
    MeanCancels(n, m, Sum(s), Sum(Squares(s)));
  }

  lemma {:induction false} MeanCancels(n: real, m: real, sum: real, squares: real)
    requires n > 0.0 && m == sum / n
    ensures Expanded(squares, sum, n, m) / n == squares / n - m * m
  {
    assert sum == m * n;
    assert m * sum == n * (m * m) by { Reorder(m, n); }
    assert 2.0 * m * sum == 2.0 * (m * sum);
    DivideDifference(squares, n, m * m);
  }

  lemma {:induction false} Reorder(m: real, n: real)
    ensures m * (m * n) == n * (m * m)
  {
  }

  lemma {:induction false} DivideDifference(a: real, n: real, q: real)
    requires n > 0.0
    ensures (a - n * q) / n == a / n - q
  {
    var x := a / n;
    assert a == x * n;
    assert a - n * q == (x - q) * n;
  }

  /** The batch bands of the prefix that ends at index `i`. */
  ghost function BollingerAt(
    closes: seq<real>, i: nat, period: int, multiplier: real, root: Root): (slot: Option<Bands>)
    requires i < |closes|
  {
    Slot(Bollinger(closes[..i + 1], period, multiplier, root))
  }

  lemma {:induction false} BollingerOfPrefix(closes: seq<real>, i: nat, period: int, multiplier: real, root: Root)
    requires i < |closes| && period > 0 && multiplier > 0.0
    ensures BollingerAt(closes, i, period, multiplier, root) ==
            if i + 1 < period then None
            else
              var middle := Mean(Sum(Window(closes, i + 1, period)), period);
              var squares := Sum(Window(Squares(closes), i + 1, period));
              Some(BandsOf(middle, SpreadOf(squares, middle, period), multiplier, root))
  {
    hide BandsOf, Sum, Squares, SquaredDeviations, Mean, SpreadOf;
    if i + 1 >= period {
      var window := Window(closes, i + 1, period);
      assert closes[..i + 1][i + 1 - period..] == window;
      SquaresOfWindow(closes, i + 1, period);
      VarianceIdentity(window);
    }
  }

  /** Moves both running sums one bar forward. */
  method SlideSums(closes: seq<real>, index: nat, period: nat, running: real, squares: real)
    returns (running': real, squares': real)
    requires index < |closes| && period >= 1
    requires running == Sum(Window(closes, index, period))
    requires squares == Sum(Window(Squares(closes), index, period))
    ensures running' == Sum(Window(closes, index + 1, period))
    ensures squares' == Sum(Window(Squares(closes), index + 1, period))
  {
    WindowSlides(closes, index, period);
    WindowSlides(Squares(closes), index, period);
    hide Window, Sum, Square;
    running' := running + closes[index];
    squares' := squares + Square(closes[index]);
    if index >= period {
      running' := running' - closes[index - period];
      squares' := squares' - Square(closes[index - period]);
    }
  }

  /** The bands of a complete window, from its two running sums. */
  method CloseWindow(closes: seq<real>, index: nat, period: int, multiplier: real, root: Root,
                     running: real, squares: real) returns (slot: Option<Bands>)
    requires index < |closes| && period > 0 && multiplier > 0.0
    requires running == Sum(Window(closes, index + 1, period))
    requires squares == Sum(Window(Squares(closes), index + 1, period))
    ensures slot == BollingerAt(closes, index, period, multiplier, root)
  {
    BollingerOfPrefix(closes, index, period, multiplier, root);
    hide *;
    slot := None;
    if index >= period - 1 {
      var middle := Mean(running, period);
      slot := Some(BandsOf(middle, SpreadOf(squares, middle, period), multiplier, root));
    }
  }

  /** The running-sums pass equals the batch bands of every prefix. */
  method BollingerSeries(closes: seq<real>, period: int, multiplier: real, root: Root)
    returns (r: Outcome<seq<Option<Bands>>>)
    ensures period <= 0 || multiplier <= 0.0 ==> r == InvalidParameter
    ensures period > 0 && multiplier > 0.0 ==>
              r.Ok? && |r.value| == |closes| &&
              forall i :: 0 <= i < |closes| ==> r.value[i] == BollingerAt(closes, i, period, multiplier, root)
  {
    hide *;
    if period <= 0 || multiplier <= 0.0 { return InvalidParameter; }
    var output: seq<Option<Bands>> := [];
    var running, squares := 0.0, 0.0;
    EmptyWindow(closes, period);
    EmptyWindow(Squares(closes), period);
    for index := 0 to |closes|
      invariant running == Sum(Window(closes, index, period))
      invariant squares == Sum(Window(Squares(closes), index, period))
      invariant |output| == index
      invariant forall i :: 0 <= i < index ==>
                  output[i] == BollingerAt(closes, i, period, multiplier, root)
    {
      running, squares := SlideSums(closes, index, period, running, squares);
      var slot := CloseWindow(closes, index, period, multiplier, root, running, squares);
      output := output + [slot];
    }
    r := Ok(output);
  }

  /** The bands enclose the mean. */
  lemma {:induction false} BandsEnclose(closes: seq<real>, period: int, multiplier: real, root: Root)
    requires 1 <= period <= |closes| && multiplier > 0.0
    requires forall v: real :: v >= 0.0 ==> root.sqrt(v) >= 0.0
    ensures var b := Bollinger(closes, period, multiplier, root).value; b.lower <= b.middle <= b.upper
  {
    var window := closes[|closes| - period..];
    var middle := Mean(Sum(window), period);
    var deviation := root.sqrt(NonNegative(Mean(SquaredDeviations(window, middle), period)));
    assert deviation >= 0.0;
    assert multiplier * deviation >= 0.0;
  }
}
