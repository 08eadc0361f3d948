/** The technical indicators drawn for one ticker (funds.py, `calcular_rsi` and
    `calcular_macd`), over exact reals; "no value" (pandas' NaN) is `None`. */
module Indicators {
  import opened Values

  /** The default spans of `calcular_macd` and the default window of `calcular_rsi`. */
  const FastSpan: nat := 12
  const SlowSpan: nat := 26
  const SignalSpan: nat := 9
  const RsiWindow: nat := 14

  function Sum(s: seq<real>): real
  {
    if s == [] then 0.0 else Sum(s[..|s| - 1]) + s[|s| - 1]
  }

  lemma {:induction false} SumNonNegative(s: seq<real>)
    requires forall k :: 0 <= k < |s| ==> s[k] >= 0.0
    ensures Sum(s) >= 0.0
  {
    if s != [] {
      SumNonNegative(s[..|s| - 1]);
    }
  }

  lemma {:induction false} SumPositive(s: seq<real>, k: nat)
    requires forall i :: 0 <= i < |s| ==> s[i] >= 0.0
    requires k < |s| && s[k] > 0.0
    ensures Sum(s) > 0.0
  {
    var init := s[..|s| - 1];
    if k == |s| - 1 {
      SumNonNegative(init);
    } else {
      SumPositive(init, k);
    }
  }

  lemma {:induction false} SumZero(s: seq<real>)
    requires forall k :: 0 <= k < |s| ==> s[k] == 0.0
    ensures Sum(s) == 0.0
  {
    if s != [] {
      SumZero(s[..|s| - 1]);
    }
  }

  // ---------------------------------------------------------------- MACD

  /** The smoothing factor pandas derives from a span: alpha = 2 / (span + 1). */
  function Alpha(span: nat): (a: real)
    requires span >= 1
    ensures 0.0 < a <= 1.0
  {
    2.0 / (span as real + 1.0)
  }

  /** `ewm(alpha=a, adjust=False).mean()`: y[0] = x[0] and y[t] = (1 - a) y[t-1] + a x[t]. */
  function Ema(xs: seq<real>, a: real): (ys: seq<real>)
    ensures |ys| == |xs|
    ensures |xs| > 0 ==> ys[0] == xs[0]
    decreases |xs|
  {
    if |xs| <= 1 then xs
    else
      var prev := Ema(xs[..|xs| - 1], a);
      prev + [(1.0 - a) * prev[|prev| - 1] + a * xs[|xs| - 1]]
  }

  /** The average of a prefix does not look at later prices. */
  lemma {:induction false} EmaPrefix(xs: seq<real>, a: real, k: nat)
    requires k <= |xs|
    ensures Ema(xs[..k], a) == Ema(xs, a)[..k]
    decreases |xs|
  {
    if k < |xs| {
      var init := xs[..|xs| - 1];
      EmaPrefix(init, a, k);
      assert init[..k] == xs[..k];
    } else {
      assert xs[..k] == xs;
    }
  }

  /** The recursion pandas applies, stated index by index. */
  lemma EmaStep(xs: seq<real>, a: real, t: nat)
    requires 0 < t < |xs|
    ensures Ema(xs, a)[t] == (1.0 - a) * Ema(xs, a)[t - 1] + a * xs[t]
  {
    EmaPrefix(xs, a, t + 1);
    EmaPrefix(xs, a, t);
    assert xs[..t + 1][..t] == xs[..t];
  }

  /** A constant series is its own average. */
  lemma {:induction false} EmaOfConstant(xs: seq<real>, a: real, c: real)
    requires forall k :: 0 <= k < |xs| ==> xs[k] == c
    ensures forall k :: 0 <= k < |xs| ==> Ema(xs, a)[k] == c
    decreases |xs|
  {
    if |xs| > 1 {
      EmaOfConstant(xs[..|xs| - 1], a, c);
    }
  }

  /** A blend (1 - a) y + a x with 0 <= a <= 1 lies between any bounds of y and x. */
  lemma Blend(y: real, x: real, a: real, lo: real, hi: real)
    requires 0.0 <= a <= 1.0 && lo <= y <= hi && lo <= x <= hi
    ensures lo <= (1.0 - a) * y + a * x <= hi
  {
    ProductNonNegative(1.0 - a, y - lo);
    ProductNonNegative(a, x - lo);
    ProductNonNegative(1.0 - a, hi - y);
    ProductNonNegative(a, hi - x);
    assert (1.0 - a) * y + a * x - lo == (1.0 - a) * (y - lo) + a * (x - lo);
    assert hi - ((1.0 - a) * y + a * x) == (1.0 - a) * (hi - y) + a * (hi - x);
  }

  lemma ProductNonNegative(u: real, v: real)
    requires u >= 0.0 && v >= 0.0
    ensures u * v >= 0.0
  {
  }

  /** With 0 <= a <= 1 the average stays within the bounds of the prices. */
  lemma {:induction false} EmaBounded(xs: seq<real>, a: real, lo: real, hi: real)
    requires 0.0 <= a <= 1.0
    requires forall k :: 0 <= k < |xs| ==> lo <= xs[k] <= hi
    ensures forall k :: 0 <= k < |xs| ==> lo <= Ema(xs, a)[k] <= hi
    decreases |xs|
  {
    if |xs| > 1 {
      var init := xs[..|xs| - 1];
      EmaBounded(init, a, lo, hi);
      var n := |xs|;
      EmaPrefix(xs, a, n - 1);
      EmaStep(xs, a, n - 1);
      var ys := Ema(xs, a);
      assert ys[n - 2] == Ema(init, a)[n - 2];
      Blend(ys[n - 2], xs[n - 1], a, lo, hi);
      forall k | 0 <= k < n
        ensures lo <= ys[k] <= hi
      {
        if k < n - 1 {
          assert ys[k] == Ema(init, a)[k];
        }
      }
    }
  }

  /** The pointwise difference of two aligned series. */
  function Minus(u: seq<real>, v: seq<real>): (d: seq<real>)
    requires |u| == |v|
    ensures |d| == |u|
    ensures forall k :: 0 <= k < |d| ==> d[k] == u[k] - v[k]
  {
    seq(|u|, k requires 0 <= k < |u| => u[k] - v[k])
  }

  /** The three series `calcular_macd` returns. */
  datatype MacdLines = MacdLines(macd: seq<real>, signal: seq<real>, histogram: seq<real>)

  /** `calcular_macd`: the fast minus the slow average, its own average, and their difference. */
  function Macd(close: seq<real>, fast: nat, slow: nat, signal: nat): (r: MacdLines)
    requires fast >= 1 && slow >= 1 && signal >= 1
    ensures |r.macd| == |close| && |r.signal| == |close| && |r.histogram| == |close|
    ensures forall k :: 0 <= k < |close| ==> r.histogram[k] == r.macd[k] - r.signal[k]
    ensures |close| > 0 ==> r.macd[0] == 0.0 && r.signal[0] == 0.0 && r.histogram[0] == 0.0
    ensures r.macd == Minus(Ema(close, Alpha(fast)), Ema(close, Alpha(slow)))
    ensures r.signal == Ema(r.macd, Alpha(signal))
  {
    var exp1 := Ema(close, Alpha(fast));
    var exp2 := Ema(close, Alpha(slow));
    var macd := Minus(exp1, exp2);
    var signalLine := Ema(macd, Alpha(signal));
    MacdLines(macd, signalLine, Minus(macd, signalLine))
  }

  /** A flat price series has all three MACD series at zero. */
  lemma MacdOfConstant(close: seq<real>, c: real, fast: nat, slow: nat, signal: nat)
    requires fast >= 1 && slow >= 1 && signal >= 1
    requires forall k :: 0 <= k < |close| ==> close[k] == c
    ensures var r := Macd(close, fast, slow, signal);
      forall k :: 0 <= k < |close| ==> r.macd[k] == 0.0 && r.signal[k] == 0.0 && r.histogram[k] == 0.0
  {
    EmaOfConstant(close, Alpha(fast), c);
    EmaOfConstant(close, Alpha(slow), c);
    var macd := Minus(Ema(close, Alpha(fast)), Ema(close, Alpha(slow)));
    EmaOfConstant(macd, Alpha(signal), 0.0);
  }

  // ---------------------------------------------------------------- RSI

  /** `delta.where(delta > 0, 0)`: the rise from the previous close, or zero. The first delta is
      NaN, and NaN > 0 is false, so the first gain is zero. */
  function Gains(close: seq<real>): (g: seq<real>)
    ensures |g| == |close|
    ensures forall k :: 0 <= k < |g| ==> g[k] >= 0.0
    ensures |g| > 0 ==> g[0] == 0.0
    ensures forall k :: 1 <= k < |g| ==> (g[k] > 0.0 <==> close[k] > close[k - 1])
  {
    seq(|close|, k requires 0 <= k < |close| =>
      if k > 0 && close[k] - close[k - 1] > 0.0 then close[k] - close[k - 1] else 0.0)
  }

  /** `-delta.where(delta < 0, 0)`: the fall from the previous close, or zero. */
  function Losses(close: seq<real>): (l: seq<real>)
    ensures |l| == |close|
    ensures forall k :: 0 <= k < |l| ==> l[k] >= 0.0
    ensures |l| > 0 ==> l[0] == 0.0
    ensures forall k :: 1 <= k < |l| ==> (l[k] > 0.0 <==> close[k] < close[k - 1])
  {
    seq(|close|, k requires 0 <= k < |close| =>
      if k > 0 && close[k] - close[k - 1] < 0.0 then -(close[k] - close[k - 1]) else 0.0)
  }

  /** Gain and loss split each price change: at most one is non-zero, and their difference is
      the change itself. */
  lemma GainLossSplit(close: seq<real>, k: nat)
    requires 1 <= k < |close|
    ensures Gains(close)[k] - Losses(close)[k] == close[k] - close[k - 1]
    ensures Gains(close)[k] == 0.0 || Losses(close)[k] == 0.0
  {
  }

  /** The window of w values ending at index k. */
  function Window(xs: seq<real>, w: nat, k: nat): seq<real>
    requires w >= 1 && w - 1 <= k < |xs|
  {
    xs[k + 1 - w..k + 1]
  }

  /** `rolling(window=w).mean()`: from index w - 1 on, the sum of the last w values divided by
      w, with no value before; means of non-negative values are non-negative. */
  function RollingMean(xs: seq<real>, w: nat): (m: seq<Option<real>>)
    requires w >= 1
    ensures |m| == |xs|
    ensures forall k :: 0 <= k < |xs| ==> (m[k].None? <==> k + 1 < w)
    ensures forall k :: w - 1 <= k < |xs| ==> m[k] == Some(Sum(Window(xs, w, k)) / w as real)
    ensures (forall i :: 0 <= i < |xs| ==> xs[i] >= 0.0) ==>
      forall k :: 0 <= k < |xs| && m[k].Some? ==> m[k].value >= 0.0
  {
    MeansOfNonNegative(xs, w);
    seq(|xs|, k requires 0 <= k < |xs| =>
      if k + 1 < w then None else Some(Sum(Window(xs, w, k)) / w as real))
  }

  /** Means of non-negative values are non-negative. */
  lemma MeansOfNonNegative(xs: seq<real>, w: nat)
    requires w >= 1
    ensures (forall i :: 0 <= i < |xs| ==> xs[i] >= 0.0) ==>
      forall k :: w - 1 <= k < |xs| ==> Sum(Window(xs, w, k)) / w as real >= 0.0
  {
    if forall i :: 0 <= i < |xs| ==> xs[i] >= 0.0 {
      forall k | w - 1 <= k < |xs|
        ensures Sum(Window(xs, w, k)) / w as real >= 0.0
      {
        SumNonNegative(Window(xs, w, k));
        MeanOfSum(Sum(Window(xs, w, k)), w as real);
      }
    }
  }

  /** Facts about the mean of a non-negative sum over a window of length wr. */
  lemma MeanOfSum(s: real, wr: real)
    requires s >= 0.0 && wr >= 1.0
    ensures (s / wr) * wr == s
    ensures s / wr >= 0.0
    ensures s / wr == 0.0 <==> s == 0.0
  {
  }

  /** A quotient is the number that multiplied by the divisor gives the dividend. */
  lemma Quotient(a: real, b: real, q: real)
    requires b != 0.0 && q * b == a
    ensures a / b == q
  {
  }

  /** `100 - 100 / (1 + avg_gain / avg_loss)` with IEEE's special cases: a zero average loss
      with a positive average gain makes RS infinite and RSI 100; two zero averages make 0/0,
      NaN. */
  function RsiOfAverages(g: real, l: real): (r: Option<real>)
    requires g >= 0.0 && l >= 0.0
    ensures r.Some? <==> g + l > 0.0
    ensures r.Some? ==> r.value * (g + l) == 100.0 * g && r.value == 100.0 * g / (g + l)
    ensures r.Some? ==> 0.0 <= r.value <= 100.0
  {
    if l > 0.0 then
      GainShare(g, l);
      Some(100.0 - 100.0 / (1.0 + g / l))
    else if g > 0.0 then
      Quotient(100.0 * g, g + l, 100.0);
      Some(100.0)
    else None
  }

  /** The formula pandas evaluates is 100 times the gains' share of all movement. */
  lemma GainShare(g: real, l: real)
    requires g >= 0.0 && l > 0.0
    ensures var v := 100.0 - 100.0 / (1.0 + g / l);
      && v * (g + l) == 100.0 * g && v == 100.0 * g / (g + l)
      && 0.0 <= v <= 100.0
  {
    var rs := g / l;
    var d := 1.0 + rs;
    var t := 100.0 / d;
    assert rs * l == g;
    assert g + l == l * d;
    assert t * d == 100.0;
    assert t * (g + l) == (t * d) * l;
    var v := 100.0 - t;
    assert v * (g + l) == 100.0 * g;
    Quotient(100.0 * g, g + l, v);
  }

  /** `calcular_rsi`: the Relative Strength Index over windows of w closes. */
  function Rsi(close: seq<real>, w: nat): (r: seq<Option<real>>)
    requires w >= 1
    ensures |r| == |close|
    ensures forall k :: 0 <= k < |close| && k + 1 < w ==> r[k] == None
    ensures forall k :: 0 <= k < |close| && r[k].Some? ==> 0.0 <= r[k].value <= 100.0
  {
    var avgGain := RollingMean(Gains(close), w);
    var avgLoss := RollingMean(Losses(close), w);
    seq(|close|, k requires 0 <= k < |close| =>
      if avgGain[k].Some? && avgLoss[k].Some? then RsiOfAverages(avgGain[k].value, avgLoss[k].value)
      else None)
  }

  /** Dividing both sums by the window length does not change the gains' share. */
  lemma ShareOfMeans(g: real, l: real, wr: real)
    requires g >= 0.0 && l >= 0.0 && wr >= 1.0
    ensures g / wr >= 0.0 && l / wr >= 0.0
    ensures RsiOfAverages(g / wr, l / wr) == RsiOfSums(g, l)
  {
    var gm, lm := g / wr, l / wr;
    MeanOfSum(g, wr);
    MeanOfSum(l, wr);
    if g + l > 0.0 {
      assert (gm + lm) * wr == g + l;
      var v := RsiOfAverages(gm, lm).value;
      assert v * (gm + lm) == 100.0 * gm;
      assert v * (g + l) == (v * (gm + lm)) * wr;
      Quotient(100.0 * g, g + l, v);
    }
  }

  /** The average gain and average loss at index k are the window sums over the window length. */
  lemma AveragesAt(close: seq<real>, w: nat, k: nat)
    requires w >= 1 && w - 1 <= k < |close|
    ensures RollingMean(Gains(close), w)[k] == Some(Sum(Window(Gains(close), w, k)) / w as real)
    ensures RollingMean(Losses(close), w)[k] == Some(Sum(Window(Losses(close), w, k)) / w as real)
    ensures Rsi(close, w)[k] == RsiOfAverages(RollingMean(Gains(close), w)[k].value,
                                              RollingMean(Losses(close), w)[k].value)
  {
  }

  /** 100 times the gains' share of all movement, undefined when nothing moved. */
  function RsiOfSums(g: real, l: real): Option<real>
  {
    if g + l > 0.0 then Some(100.0 * g / (g + l)) else None
  }

  /** Every defined RSI value is 100 times the window's gains over the window's total
      movement; it is undefined exactly when the window has no movement at all. */
  lemma RsiIsGainShare(close: seq<real>, w: nat, k: nat)
    requires w >= 1 && w - 1 <= k < |close|
    ensures Rsi(close, w)[k] == RsiOfSums(Sum(Window(Gains(close), w, k)), Sum(Window(Losses(close), w, k)))
  {
    var g, l := Sum(Window(Gains(close), w, k)), Sum(Window(Losses(close), w, k));
    SumNonNegative(Window(Gains(close), w, k));
    SumNonNegative(Window(Losses(close), w, k));
    ShareOfMeans(g, l, w as real);
    AveragesAt(close, w, k);
  }

  /** All gains is a share of 100, all losses a share of 0. */
  lemma SharesAtExtremes(g: real, l: real)
    ensures g > 0.0 && l == 0.0 ==> RsiOfSums(g, l) == Some(100.0)
    ensures g == 0.0 && l > 0.0 ==> RsiOfSums(g, l) == Some(0.0)
  {
    if g > 0.0 && l == 0.0 {
      Quotient(100.0 * g, g + l, 100.0);
    }
  }

  /** In a window where prices only rose, RSI is 100. */
  lemma RsiAfterRises(close: seq<real>, w: nat, k: nat)
    requires w >= 2 && w - 1 <= k < |close|
    requires forall j :: k + 1 - w <= j <= k && 1 <= j ==> close[j - 1] < close[j]
    ensures Rsi(close, w)[k] == Some(100.0)
  {
    var gw, lw := Window(Gains(close), w, k), Window(Losses(close), w, k);
    assert forall i :: 0 <= i < |gw| ==> gw[i] >= 0.0;
    assert gw[w - 1] == Gains(close)[k] > 0.0;
    SumPositive(gw, w - 1);
    assert forall i :: 0 <= i < |lw| ==> lw[i] == 0.0;
    SumZero(lw);
    RsiIsGainShare(close, w, k);
    SharesAtExtremes(Sum(gw), Sum(lw));
  }


  /** In a window where prices only fell, RSI is 0. */
  lemma RsiAfterFalls(close: seq<real>, w: nat, k: nat)
    requires w >= 2 && w - 1 <= k < |close|
    requires forall j :: k + 1 - w <= j <= k && 1 <= j ==> close[j - 1] > close[j]
    ensures Rsi(close, w)[k] == Some(0.0)
  {
    var gw, lw := Window(Gains(close), w, k), Window(Losses(close), w, k);
    assert forall i :: 0 <= i < |lw| ==> lw[i] >= 0.0;
    assert lw[w - 1] == Losses(close)[k] > 0.0;
    SumPositive(lw, w - 1);
    assert forall i :: 0 <= i < |gw| ==> gw[i] == 0.0;
    SumZero(gw);
    RsiIsGainShare(close, w, k);
    SharesAtExtremes(Sum(gw), Sum(lw));
  }


  /** A steadily rising series has RSI exactly 100 from the first full window on. */
  lemma RsiOfRisingSeries(close: seq<real>, w: nat)
    requires w >= 2
    requires forall j :: 1 <= j < |close| ==> close[j - 1] < close[j]
    ensures forall k :: w - 1 <= k < |close| ==> Rsi(close, w)[k] == Some(100.0)
  {
    forall k | w - 1 <= k < |close| {
      RsiAfterRises(close, w, k);
    }
  }

  /** A steadily falling series has RSI exactly 0 from the first full window on. */
  lemma RsiOfFallingSeries(close: seq<real>, w: nat)
    requires w >= 2
    requires forall j :: 1 <= j < |close| ==> close[j - 1] > close[j]
    ensures forall k :: w - 1 <= k < |close| ==> Rsi(close, w)[k] == Some(0.0)
  {
    forall k | w - 1 <= k < |close| {
      RsiAfterFalls(close, w, k);
    }
  }

  /** The screener's defaults: smoothing factors 2/13, 2/27 and 1/5 for spans 12, 26 and 9, and
      an RSI that has no value for the first 13 closes. */
  lemma DefaultParameters(close: seq<real>)
    ensures Alpha(FastSpan) == 2.0 / 13.0 && Alpha(SlowSpan) == 2.0 / 27.0 && Alpha(SignalSpan) == 0.2
    ensures |Macd(close, FastSpan, SlowSpan, SignalSpan).histogram| == |close|
    ensures forall k :: 0 <= k < |close| && k < RsiWindow - 1 ==> Rsi(close, RsiWindow)[k] == None
    ensures forall k :: RsiWindow - 1 <= k < |close| ==>
      Rsi(close, RsiWindow)[k]
        == RsiOfSums(Sum(Window(Gains(close), RsiWindow, k)), Sum(Window(Losses(close), RsiWindow, k)))
  {
    forall k | RsiWindow - 1 <= k < |close| {
      RsiIsGainShare(close, RsiWindow, k);
    }
  }
}
