/** The technical-indicator library (`TechnicalIndicators` in
    core/pattern_detection.py): RSI, SMA, the EMA recurrence and MACD over a
    price list. */
module Indicators {
  import opened Numeric

  /** RSI reported when there are too few prices. */
  const RsiNeutral: real := 50.0

  /** `np.diff`: the sample-to-sample changes. */
  function Deltas(p: seq<real>): (d: seq<real>)
    ensures |p| >= 1 ==> |d| == |p| - 1
    ensures |p| < 2 ==> d == []
    ensures forall i :: 0 <= i < |d| ==> d[i] == p[i + 1] - p[i]
  {
    if |p| < 2 then [] else seq(|p| - 1, i requires 0 <= i < |p| - 1 => p[i + 1] - p[i])
  }

  /** `np.where(deltas > 0, deltas, 0)` */
  function Gains(d: seq<real>): (g: seq<real>)
    ensures |g| == |d|
    ensures forall i :: 0 <= i < |d| ==> g[i] == (if d[i] > 0.0 then d[i] else 0.0) && g[i] >= 0.0
  {
    seq(|d|, i requires 0 <= i < |d| => if d[i] > 0.0 then d[i] else 0.0)
  }

  /** `np.where(deltas < 0, -deltas, 0)` */
  function Losses(d: seq<real>): (l: seq<real>)
    ensures |l| == |d|
    ensures forall i :: 0 <= i < |d| ==> l[i] == (if d[i] < 0.0 then -d[i] else 0.0) && l[i] >= 0.0
  {
    seq(|d|, i requires 0 <= i < |d| => if d[i] < 0.0 then -d[i] else 0.0)
  }

  /** The last `period` changes, the window RSI averages over. */
  function RsiWindow(prices: seq<real>, period: int): (w: seq<real>)
    requires period >= 1 && |prices| >= period + 1
    ensures |w| == period
    ensures forall j :: 0 <= j < period ==>
      w[j] == prices[|prices| - period + j] - prices[|prices| - period + j - 1]
  {
    var d := Deltas(prices);
    d[|d| - period..]
  }

  /** No price falls over the last `period + 1` prices. */
  ghost predicate NoLossWindow(prices: seq<real>, period: int)
    requires period >= 1 && |prices| >= period + 1
  {
    forall j :: |prices| - period <= j < |prices| ==> prices[j - 1] <= prices[j]
  }

  /** The average loss over the window is zero exactly when no price falls. */
  lemma RsiLossFree(prices: seq<real>, period: int)
    requires period >= 1 && |prices| >= period + 1
    ensures Mean(Losses(RsiWindow(prices, period))) >= 0.0
    ensures Mean(Losses(RsiWindow(prices, period))) == 0.0 <==> NoLossWindow(prices, period)
  {
    var w := RsiWindow(prices, period);
    var l := Losses(w);
    MeanZero(l);
    if NoLossWindow(prices, period) {
      forall j | 0 <= j < period ensures l[j] == 0.0 {
        var k := |prices| - period + j;
        assert prices[k - 1] <= prices[k];
      }
    }
    if forall j :: 0 <= j < period ==> l[j] == 0.0 {
      forall k | |prices| - period <= k < |prices| ensures prices[k - 1] <= prices[k] {
        assert l[k - (|prices| - period)] == 0.0;
      }
    }
  }

  /** `100 - 100 / (1 + g / l)` lies in [0, 100) for g >= 0 and l > 0. */
  lemma RsiFormulaRange(g: real, l: real)
    requires g >= 0.0 && l > 0.0
    ensures 0.0 <= 100.0 - 100.0 / (1.0 + g / l) < 100.0
  {
    var rs := g / l;
    assert rs >= 0.0;
    var q := 100.0 / (1.0 + rs);
    assert q * (1.0 + rs) == 100.0;
    assert q > 0.0;
    assert q <= 100.0;
  }

  /** `calculate_rsi`: 50 with too few prices, 100 when the average loss is 0,
      otherwise `100 - 100 / (1 + RS)`, which lies in [0, 100). */
  function Rsi(prices: seq<real>, period: int): (r: real)
    requires period >= 1
    ensures |prices| < period + 1 ==> r == RsiNeutral
    ensures 0.0 <= r <= 100.0
    ensures |prices| >= period + 1 ==> (r == 100.0 <==> NoLossWindow(prices, period))
  {
    if |prices| < period + 1 then RsiNeutral
    else
      var w := RsiWindow(prices, period);
      var avgGain := Mean(Gains(w));
      var avgLoss := Mean(Losses(w));
      RsiLossFree(prices, period);
      MeanZero(Gains(w));
      if avgLoss == 0.0 then 100.0
      else
        RsiFormulaRange(avgGain, avgLoss);
        100.0 - 100.0 / (1.0 + avgGain / avgLoss)
  }

  /** The window `calculate_sma` averages: all prices when there are fewer
      than `period`, otherwise the last `period`. */
  function SmaWindow(prices: seq<real>, period: int): (w: seq<real>)
    requires period >= 1
    ensures |prices| < period ==> w == prices
    ensures |prices| >= period ==> |w| == period && w == prices[|prices| - period..]
  {
    if |prices| < period then prices else prices[|prices| - period..]
  }

  /** `calculate_sma`: 0.0 for an empty list, else the mean of its window. */
  function Sma(prices: seq<real>, period: int): (r: real)
    requires period >= 1
    ensures prices == [] ==> r == 0.0
    ensures prices != [] ==> r == Mean(SmaWindow(prices, period))
  {
    if |prices| < period then (if prices == [] then 0.0 else Mean(prices))
    else Mean(prices[|prices| - period..])
  }

  /** The SMA of a non-empty list lies between the least and the greatest
      price of its window. */
  lemma SmaWithinWindow(prices: seq<real>, period: int, lo: real, hi: real)
    requires period >= 1 && prices != []
    requires forall i :: 0 <= i < |prices| ==> lo <= prices[i] <= hi
    ensures lo <= Sma(prices, period) <= hi
  {
    var w := SmaWindow(prices, period);
    assert forall i :: 0 <= i < |w| ==> w[i] in prices;
    MeanBounds(w, lo, hi);
  }

  /** `alpha = 2 / (period + 1)`. */
  function Alpha(period: int): (a: real)
    requires period >= 1
    ensures 0.0 < a <= 1.0
  {
    2.0 / (period as real + 1.0)
  }

  /** The EMA recurrence: `ema[0] = data[0]`,
      `ema[i] = alpha * data[i] + (1 - alpha) * ema[i-1]`. */
  function EmaAt(data: seq<real>, alpha: real, i: nat): real
    requires i < |data|
  {
    if i == 0 then data[0] else alpha * data[i] + (1.0 - alpha) * EmaAt(data, alpha, i - 1)
  }

  /** `_ema`: one smoothed value per input sample, filled in place. */
  method Ema(data: seq<real>, period: int) returns (ema: seq<real>)
    requires period >= 1 && |data| >= 1
    ensures |ema| == |data|
    ensures forall i :: 0 <= i < |data| ==> ema[i] == EmaAt(data, Alpha(period), i)
  {
    var alpha := Alpha(period);
    var a := new real[|data|];
    a[0] := data[0];
    var i := 1;
    while i < |data|
      invariant 1 <= i <= |data|
      invariant forall k :: 0 <= k < i ==> a[k] == EmaAt(data, alpha, k)
    {
      a[i] := alpha * data[i] + (1.0 - alpha) * a[i - 1];
      assert a[i] == EmaAt(data, alpha, i);
      i := i + 1;
    }
    ema := a[..];
  }

  /** Each EMA value is a convex combination of the inputs so far, so it stays
      within any bounds of the inputs. */
  lemma {:induction false} EmaWithinBounds(data: seq<real>, alpha: real, i: nat, lo: real, hi: real)
    requires 0.0 <= alpha <= 1.0 && i < |data|
    requires forall k :: 0 <= k < |data| ==> lo <= data[k] <= hi
    ensures lo <= EmaAt(data, alpha, i) <= hi
  {
    if i > 0 {
      EmaWithinBounds(data, alpha, i - 1, lo, hi);
      ConvexWithin(alpha, data[i], EmaAt(data, alpha, i - 1), lo, hi);
    }
  }

  lemma ConvexWithin(alpha: real, x: real, y: real, lo: real, hi: real)
    requires 0.0 <= alpha <= 1.0 && lo <= x <= hi && lo <= y <= hi
    ensures lo <= alpha * x + (1.0 - alpha) * y <= hi
  {
    MulNonNegative(alpha, x - lo);
    MulNonNegative(1.0 - alpha, y - lo);
    MulNonNegative(alpha, hi - x);
    MulNonNegative(1.0 - alpha, hi - y);
  }

  /** A constant input has a constant EMA. */
  lemma {:induction false} EmaOfConstant(data: seq<real>, alpha: real, i: nat, c: real)
    requires i < |data|
    requires forall k :: 0 <= k < |data| ==> data[k] == c
    ensures EmaAt(data, alpha, i) == c
  {
    if i > 0 {
      EmaOfConstant(data, alpha, i - 1, c);
    }
  }

  datatype MacdResult = MacdResult(macd: real, signal: real, histogram: real)

  /** `ema_fast - ema_slow`, sample by sample. */
  function MacdLine(prices: seq<real>, fast: int, slow: int): (line: seq<real>)
    requires fast >= 1 && slow >= 1
    ensures |line| == |prices|
  {
    seq(|prices|, i requires 0 <= i < |prices| => EmaAt(prices, Alpha(fast), i) - EmaAt(prices, Alpha(slow), i))
  }

  /** `calculate_macd`: all zeros with fewer than `slow` prices; otherwise the
      last MACD value, the last value of its own EMA (the signal line), and
      their difference. */
  function Macd(prices: seq<real>, fast: int, slow: int, signal: int): (r: MacdResult)
    requires fast >= 1 && slow >= 1 && signal >= 1
    ensures |prices| < slow ==> r == MacdResult(0.0, 0.0, 0.0)
    ensures r.histogram == r.macd - r.signal
    ensures |prices| >= slow ==>
      r.macd == EmaAt(prices, Alpha(fast), |prices| - 1) - EmaAt(prices, Alpha(slow), |prices| - 1)
    ensures |prices| >= slow ==>
      r.signal == EmaAt(MacdLine(prices, fast, slow), Alpha(signal), |prices| - 1)
  {
    if |prices| < slow then MacdResult(0.0, 0.0, 0.0)
    else
      var line := MacdLine(prices, fast, slow);
      var last := |prices| - 1;
      var m := line[last];
      var s := EmaAt(line, Alpha(signal), last);
      MacdResult(m, s, m - s)
  }

  /** A flat price list has a zero MACD, signal and histogram. */
  lemma MacdOfConstant(prices: seq<real>, fast: int, slow: int, signal: int, c: real)
    requires fast >= 1 && slow >= 1 && signal >= 1
    requires forall k :: 0 <= k < |prices| ==> prices[k] == c
    ensures Macd(prices, fast, slow, signal) == MacdResult(0.0, 0.0, 0.0)
  {
    if |prices| >= slow {
      var line := MacdLine(prices, fast, slow);
      forall k | 0 <= k < |prices| ensures line[k] == 0.0 {
        EmaOfConstant(prices, Alpha(fast), k, c);
        EmaOfConstant(prices, Alpha(slow), k, c);
      }
      EmaOfConstant(line, Alpha(signal), |prices| - 1, 0.0);
    }
  }
}
