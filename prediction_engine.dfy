/** The technical-analysis forecaster: a trend over the last twenty prices is
    mapped piecewise to an expected change, scaled by optional indicator and
    pattern factors, and spread over the horizon as daily forecast points. */
module PredictionEngine {
  import opened Outcomes
  import opened Numeric
  import opened Indicators
  import opened PatternDetection

  /** One day of the horizon: its date (in days) and the price with its band. */
  datatype ForecastDay = ForecastDay(date: int, price: real, upper: real, lower: real)

  datatype Prediction = Prediction(
    current: real, high: real, low: real, predicted: real,
    confidence: int, points: seq<ForecastDay>, patterns: seq<PatternMatch>)

  /** The price current_price falls back to when there are no prices at all. */
  const FallbackPrice: real := 1000.0

  // ---------------------------------------------------------------- trend

  /** The window the last ten prices are compared with: the ten before
      them when there are twenty prices, otherwise the first ten. */
  function Older(prices: seq<real>): (w: seq<real>)
    requires |prices| >= 10
    ensures |w| == 10
  {
    var n := |prices|;
    if n >= 20 then prices[n - 20..n - 10] else prices[..10]
  }

  /** `_calculate_trend`: the relative move of the recent mean over the older
      mean; 0 below ten prices or when the older mean is 0. The older window
      always holds ten prices here, so the `if older` fallback never applies. */
  function Trend(prices: seq<real>): real
  {
    if |prices| < 10 then 0.0
    else
      var recentAvg := Mean(Last(prices, 10));
      var olderAvg := Mean(Older(prices));
      if olderAvg == 0.0 then 0.0 else (recentAvg - olderAvg) / olderAvg
  }

  /** Whether `_calculate_trend` returned its literal `0.0` (line 103)
      because the older mean is 0. Every other result is a numpy scalar
      (lines 99-105), and so is every value computed from it; a numpy
      scalar divided by 0 (line 134) gives inf or nan instead of raising,
      while the Python floats that follow the literal raise
      ZeroDivisionError. */
  predicate FloatTrend(prices: seq<real>)
    requires |prices| >= 10
  {
    Mean(Older(prices)) == 0.0
  }

  /** Positive prices never take the literal-`0.0` path. */
  lemma PositiveNotFloatTrend(prices: seq<real>)
    requires |prices| >= 10 && AllPositive(prices)
    ensures Mean(Older(prices)) > 0.0 && !FloatTrend(prices)
  {
    var older := Older(prices);
    var n := |prices|;
    assert forall i :: 0 <= i < 10 ==> older[i] == prices[if n >= 20 then n - 20 + i else i];
    MeanPositive(older);
  }

  /** For positive prices the trend is positive exactly when the recent ten
      average above the older ten, and negative exactly when below. */
  lemma TrendSign(prices: seq<real>)
    requires |prices| >= 10 && AllPositive(prices)
    ensures Trend(prices) > 0.0 <==> Mean(Last(prices, 10)) > Mean(Older(prices))
    ensures Trend(prices) < 0.0 <==> Mean(Last(prices, 10)) < Mean(Older(prices))
  {
    var older := Older(prices);
    var n := |prices|;
    assert forall i :: 0 <= i < 10 ==> older[i] == prices[if n >= 20 then n - 20 + i else i];
    MeanPositive(older);
    var o := Mean(older);
    var d := Mean(Last(prices, 10)) - o;
    var q := d / o;
    assert q * o == d;
    if d > 0.0 && q <= 0.0 {
      MulNonNegative(-q, o);
    }
    if d < 0.0 && q >= 0.0 {
      MulNonNegative(q, o);
    }
    if d == 0.0 {
      assert q == 0.0;
    }
  }

  /** A flat price history has no trend. */
  lemma TrendOfConstant(prices: seq<real>, c: real)
    requires forall i :: 0 <= i < |prices| ==> prices[i] == c
    ensures Trend(prices) == 0.0
  {
    if |prices| >= 10 {
      var n := |prices|;
      var recent := Last(prices, 10);
      var older := Older(prices);
      assert forall i :: 0 <= i < 10 ==> recent[i] == prices[n - 10 + i];
      assert forall i :: 0 <= i < 10 ==> older[i] == prices[if n >= 20 then n - 20 + i else i];
      MeanConstant(recent, c);
      MeanConstant(older, c);
      RelativeMoveOfEqual(Mean(recent), Mean(older));
    }
  }

  /** Equal means make no move, whatever the older mean. */
  lemma RelativeMoveOfEqual(recentAvg: real, olderAvg: real)
    requires recentAvg == olderAvg
    ensures (if olderAvg == 0.0 then 0.0 else (recentAvg - olderAvg) / olderAvg) == 0.0
  {
  }

  // ---------------------------------------------------------------- expected change

  /** The piecewise mapping from trend to expected change; the first
      threshold is strict. */
  function BaseChange(trend: real): real
  {
    if trend > 0.02 then 0.05 + trend * 2.0
    else if trend > 0.0 then 0.02 + trend
    else if trend < -0.02 then -0.03 + trend * 1.5
    else trend
  }

  /** The change has the sign of the trend, and a positive trend adds at
      least 2%. */
  lemma BaseChangeSign(trend: real)
    ensures trend > 0.0 ==> BaseChange(trend) > 0.02
    ensures trend < 0.0 ==> BaseChange(trend) < 0.0
    ensures trend == 0.0 ==> BaseChange(trend) == 0.0
  {
  }

  /** A stronger trend never predicts a smaller change. */
  lemma BaseChangeMonotone(t1: real, t2: real)
    requires t1 <= t2
    ensures BaseChange(t1) <= BaseChange(t2)
  {
  }

  /** The RSI adjustment: damped when overbought, boosted when oversold. */
  function RsiFactor(prices: seq<real>, useRsi: bool): real
  {
    if !useRsi then 1.0
    else
      var rsi := Rsi(prices, 14);
      if rsi > 70.0 then 0.7 else if rsi < 30.0 then 1.3 else 1.0
  }

  /** The MACD adjustment: up for a positive histogram, down otherwise. */
  function MacdFactor(prices: seq<real>, useMacd: bool): real
  {
    if !useMacd then 1.0
    else if Macd(prices, 12, 26, 9).histogram > 0.0 then 1.1
    else 0.9
  }

  /** The product of 1.15 per bull flag and 1.1 per golden cross. */
  function PatternFactor(patterns: seq<PatternMatch>): real
  {
    if patterns == [] then 1.0
    else
      PatternFactor(patterns[..|patterns| - 1]) * KindFactor(patterns[|patterns| - 1].kind)
  }

  lemma {:induction false} PatternFactorPositive(patterns: seq<PatternMatch>)
    ensures PatternFactor(patterns) >= 1.0
  {
    if patterns != [] {
      PatternFactorPositive(patterns[..|patterns| - 1]);
    }
  }

  /** The factor a single pattern type contributes. */
  function KindFactor(kind: PatternType): real
  {
    match kind
    case BullFlag => 1.15
    case GoldenCross => 1.1
    case _ => 1.0
  }

  lemma KeepFactor(kind: PatternType, d: Detection)
    ensures PatternFactor(Keep(kind, d)) == if d.detected then KindFactor(kind) else 1.0
  {
    if d.detected {
      assert Keep(kind, d)[..0] == [];
    }
  }

  /** The factor of the list `detect_all_patterns` returns, built from the
      four detector results: only a bull flag and a golden cross count. */
  lemma CollectFactor(bf: Detection, hs: Detection, db: Detection, gc: Detection)
    ensures var ms := Keep(BullFlag, bf) + Keep(HeadShoulders, hs) + Keep(DoubleBottom, db) + Keep(GoldenCross, gc);
      PatternFactor(ms) == PatternFactor(Keep(BullFlag, bf)) * PatternFactor(Keep(GoldenCross, gc))
  {
    var k0, k1, k2, k3 := Keep(BullFlag, bf), Keep(HeadShoulders, hs), Keep(DoubleBottom, db), Keep(GoldenCross, gc);
    KeepFactor(HeadShoulders, hs);
    KeepFactor(DoubleBottom, db);
    FactorAppend(k0, k1);
    var f01 := PatternFactor(k0 + k1);
    assert f01 == PatternFactor(k0);
    FactorAppend(k0 + k1, k2);
    assert PatternFactor(k0 + k1 + k2) == f01;
    FactorAppend(k0 + k1 + k2, k3);
  }

  lemma {:induction false} FactorAppend(a: seq<PatternMatch>, b: seq<PatternMatch>)
    requires |b| <= 1
    ensures PatternFactor(a + b) == PatternFactor(a) * PatternFactor(b)
  {
    if b != [] {
      assert (a + b)[..|a + b| - 1] == a;
      assert b[..0] == [];
    } else {
      assert a + b == a;
    }
  }

  /** Each type is listed at most once, so the pattern factor is one of
      1, 1.1, 1.15 or 1.265. */
  lemma AllPatternsFactor(prices: seq<real>, sqrt: real -> real)
    requires SqrtNonNegative(sqrt) && AllPatterns(prices, sqrt).Ok?
    ensures var f := PatternFactor(AllPatterns(prices, sqrt).value);
      f == 1.0 || f == 1.1 || f == 1.15 || f == 1.265
  {
    var bf := DetectBullFlag(prices, sqrt);
    var hs := HeadShouldersResult(prices).value;
    var db := DoubleBottomResult(prices).value;
    var gc := DetectGoldenCross(prices, 50, 200).value;
    CollectFactor(bf, hs, db, gc);
    KeepFactor(BullFlag, bf);
    KeepFactor(GoldenCross, gc);
  }

  /** The pattern loop over `patterns` (lines 59-64). */
  method PatternAdjustment(patterns: seq<PatternMatch>) returns (adjustment: real)
    ensures adjustment == PatternFactor(patterns)
  {
    adjustment := 1.0;
    for i := 0 to |patterns|
      invariant adjustment == PatternFactor(patterns[..i])
    {
      assert patterns[..i + 1][..i] == patterns[..i];
      if patterns[i].kind == BullFlag {
        adjustment := adjustment * 1.15;
      } else if patterns[i].kind == GoldenCross {
        adjustment := adjustment * 1.1;
      }
    }
    assert patterns[..|patterns|] == patterns;
  }

  /** The expected change: the piecewise value of the trend scaled by the
      RSI, MACD and pattern factors in turn. */
  function ChangeOf(trend: real, rsiFactor: real, macdFactor: real, patternFactor: real): real
  {
    BaseChange(trend) * rsiFactor * macdFactor * patternFactor
  }

  /** Scaling by a positive factor keeps the sign. */
  lemma SignKept(x: real, f: real)
    requires f > 0.0
    ensures x > 0.0 <==> x * f > 0.0
    ensures x < 0.0 <==> x * f < 0.0
  {
    if x > 0.0 {
      MulPositive(x, f);
    } else if x < 0.0 {
      MulPositive(-x, f);
    }
  }

  /** Positive factors applied after the piecewise mapping keep the sign of the trend. */
  lemma ChangeOfSign(trend: real, rsiFactor: real, macdFactor: real, patternFactor: real)
    requires rsiFactor > 0.0 && macdFactor > 0.0 && patternFactor > 0.0
    ensures trend > 0.0 <==> ChangeOf(trend, rsiFactor, macdFactor, patternFactor) > 0.0
    ensures trend < 0.0 <==> ChangeOf(trend, rsiFactor, macdFactor, patternFactor) < 0.0
  {
    var b := BaseChange(trend);
    BaseChangeSign(trend);
    SignKept(b, rsiFactor);
    SignKept(b * rsiFactor, macdFactor);
    SignKept(b * rsiFactor * macdFactor, patternFactor);
  }

  /** Every factor the engine applies is positive, so its change keeps the
      sign of the trend. */
  lemma ChangeSign(prices: seq<real>, useRsi: bool, useMacd: bool, patterns: seq<PatternMatch>)
    ensures var c := ChangeOf(Trend(prices), RsiFactor(prices, useRsi), MacdFactor(prices, useMacd), PatternFactor(patterns));
      && (Trend(prices) > 0.0 <==> c > 0.0)
      && (Trend(prices) < 0.0 <==> c < 0.0)
  {
    PatternFactorPositive(patterns);
    ChangeOfSign(Trend(prices), RsiFactor(prices, useRsi), MacdFactor(prices, useMacd), PatternFactor(patterns));
  }

  // ---------------------------------------------------------------- confidence

  /** The confidence before the [50, 95] clamp. */
  function ConfidenceScore(useRsi: bool, useMacd: bool, numPatterns: nat, n: nat): int
  {
    70
      + (if useRsi then 5 else 0)
      + (if useMacd then 5 else 0)
      + (if numPatterns > 0 then MinInt(10, numPatterns * 3) else 0)
      + (if n > 50 then 5 else if n < 20 then -10 else 0)
  }

  /** `_calculate_confidence`, accumulated step by step and clamped. */
  method Confidence(useRsi: bool, useMacd: bool, numPatterns: nat, n: nat) returns (c: int)
    ensures c == Clamp(ConfidenceScore(useRsi, useMacd, numPatterns, n), 50, 95)
  {
    var base := 70;
    if useRsi {
      base := base + 5;
    }
    if useMacd {
      base := base + 5;
    }
    if numPatterns > 0 {
      base := base + MinInt(10, numPatterns * 3);
    }
    if n > 50 {
      base := base + 5;
    } else if n < 20 {
      base := base - 10;
    }
    c := MinInt(95, MaxInt(50, base));
  }

  /** The score already lies in [60, 95], so neither end of the clamp is
      ever reached. */
  lemma ConfidenceUnclamped(useRsi: bool, useMacd: bool, numPatterns: nat, n: nat)
    ensures 60 <= ConfidenceScore(useRsi, useMacd, numPatterns, n) <= 95
    ensures Clamp(ConfidenceScore(useRsi, useMacd, numPatterns, n), 50, 95)
         == ConfidenceScore(useRsi, useMacd, numPatterns, n)
  {
  }

  /** Using an indicator, or finding more patterns, never lowers the confidence. */
  lemma ConfidenceMonotone(useRsi: bool, useMacd: bool, p1: nat, p2: nat, n: nat)
    requires p1 <= p2
    ensures ConfidenceScore(useRsi, useMacd, p1, n) <= ConfidenceScore(useRsi, useMacd, p2, n)
    ensures ConfidenceScore(false, useMacd, p1, n) <= ConfidenceScore(true, useMacd, p1, n)
    ensures ConfidenceScore(useRsi, false, p1, n) <= ConfidenceScore(useRsi, true, p1, n)
  {
  }

  // ---------------------------------------------------------------- forecast points

  /**
   * Point `day` of the horizon. `sine(day, horizon)` stands for
   * sin(day * pi / horizon); the straight-line price moves it by 2% of
   * itself times that value, and the band is +/-2% of the result.
   */
  function PointAt(current: real, predicted: real, horizon: int, today: int,
                   sine: (int, int) -> real, day: int): ForecastDay
    requires horizon != 0
  {
    var daily := (predicted - current) / (horizon as real);
    var base := current + daily * (day as real);
    var price := base + base * 0.02 * sine(day, horizon);
    ForecastDay(today + day, price, price * 1.02, price * 0.98)
  }

  function PointsOf(current: real, predicted: real, horizon: int, today: int,
                    sine: (int, int) -> real): seq<ForecastDay>
  {
    seq(MaxInt(horizon, 0), i requires 0 <= i < MaxInt(horizon, 0) => PointAt(current, predicted, horizon, today, sine, i + 1))
  }

  /** `_generate_forecast_points`: one point per day 1..horizon. The
      division before the loop raises for a zero horizon only when the
      predicted price is a Python float (`pythonFloats`); on a numpy scalar
      it yields inf or nan, which the empty loop never reads (0.0 stands
      for it). */
  method ForecastPoints(current: real, predicted: real, horizon: int, today: int,
                        sine: (int, int) -> real, pythonFloats: bool) returns (r: Outcome<seq<ForecastDay>>)
    ensures r.Raised? <==> horizon == 0 && pythonFloats
    ensures r.Raised? ==> r.error == ZeroDivisionError
    ensures r.Ok? ==> r.value == PointsOf(current, predicted, horizon, today, sine)
    ensures r.Ok? && horizon <= 0 ==> r.value == []
  {
    if horizon == 0 && pythonFloats {
      return Raised(ZeroDivisionError);
    }
    var points: seq<ForecastDay> := [];
    var daily := if horizon != 0 then (predicted - current) / (horizon as real) else 0.0;
    var day := 1;
    while day <= horizon
      invariant 1 <= day <= MaxInt(horizon, 0) + 1
      invariant |points| == day - 1
      invariant forall m :: 0 <= m < day - 1 ==> points[m] == PointAt(current, predicted, horizon, today, sine, m + 1)
    {
      var price := current + daily * (day as real);
      var variance := price * 0.02 * sine(day, horizon);
      price := price + variance;
      points := points + [ForecastDay(today + day, price, price * 1.02, price * 0.98)];
      day := day + 1;
    }
    r := Ok(points);
  }

  /** Dates run today+1, today+2, ...; the band is +/-2% of the price, so a
      non-negative price lies inside it. */
  lemma PointShape(current: real, predicted: real, horizon: int, today: int,
                   sine: (int, int) -> real, day: int)
    requires horizon != 0
    ensures PointAt(current, predicted, horizon, today, sine, 1).date == today + 1
    ensures PointAt(current, predicted, horizon, today, sine, day + 1).date
         == PointAt(current, predicted, horizon, today, sine, day).date + 1
    ensures var p := PointAt(current, predicted, horizon, today, sine, day);
      && p.upper == p.price * 1.02 && p.lower == p.price * 0.98
      && (p.price >= 0.0 ==> p.lower <= p.price <= p.upper)
  {
  }

  /** Where the sine term vanishes on the last day (sin(pi) = 0), the last
      point lands exactly on the predicted price. */
  lemma LastPointIsPredicted(current: real, predicted: real, horizon: int, today: int,
                             sine: (int, int) -> real)
    requires horizon >= 1 && sine(horizon, horizon) == 0.0
    ensures PointAt(current, predicted, horizon, today, sine, horizon).price == predicted
  {
    var h := horizon as real;
    var daily := (predicted - current) / h;
    assert daily * h == predicted - current;
  }

  /** A sine term within [-1, 1] keeps a non-negative price within 2% of the
      straight line from the current to the predicted price. */
  lemma PointNearLine(current: real, predicted: real, horizon: int, today: int,
                      sine: (int, int) -> real, day: int)
    requires horizon != 0 && -1.0 <= sine(day, horizon) <= 1.0
    requires current + (predicted - current) / (horizon as real) * (day as real) >= 0.0
    ensures var base := current + (predicted - current) / (horizon as real) * (day as real);
      var p := PointAt(current, predicted, horizon, today, sine, day);
      base * 0.98 <= p.price <= base * 1.02
  {
    var base := current + (predicted - current) / (horizon as real) * (day as real);
    var s := sine(day, horizon);
    MulNonNegative(base * 0.02, 1.0 - s);
    MulNonNegative(base * 0.02, 1.0 + s);
  }

  // ---------------------------------------------------------------- predict

  /** `_default_prediction`: the last price (1000.0 for none) with a +/-5% range. */
  function DefaultPrediction(prices: seq<real>): Prediction
  {
    var current := if prices == [] then FallbackPrice else prices[|prices| - 1];
    Prediction(current, current * 1.05, current * 0.95, current, 50, [], [])
  }

  /** The current price moved by the expected change. */
  function PredictedPrice(current: real, change: real): real
  {
    current * (1.0 + change)
  }

  /** From a positive current price, the prediction rises exactly when the
      change is positive and falls exactly when it is negative. */
  lemma PredictedPriceDirection(current: real, change: real)
    requires current > 0.0
    ensures PredictedPrice(current, change) > current <==> change > 0.0
    ensures PredictedPrice(current, change) < current <==> change < 0.0
  {
    assert PredictedPrice(current, change) - current == current * change;
    SignKept(change, current);
  }

  /** `predict` as a value: the default below ten prices; otherwise the
      exception of the pattern detectors or of the point generator, if any. */
  function PredictionOf(prices: seq<real>, horizon: int, useRsi: bool, useMacd: bool,
                        today: int, sine: (int, int) -> real, sqrt: real -> real): Outcome<Prediction>
    requires SqrtNonNegative(sqrt)
  {
    if |prices| < 10 then Ok(DefaultPrediction(prices))
    else
      var patterns := AllPatterns(prices, sqrt);
      if patterns.Raised? then Raised(patterns.error)
      else
        Outlook(prices[|prices| - 1],
                ChangeOf(Trend(prices), RsiFactor(prices, useRsi), MacdFactor(prices, useMacd), PatternFactor(patterns.value)),
                horizon, today, sine,
                Clamp(ConfidenceScore(useRsi, useMacd, |patterns.value|, |prices|), 50, 95),
                patterns.value, FloatTrend(prices))
  }

  /** Lines 66-89 as a value: the predicted price with its +/-3% range and
      the forecast points, or the division of a Python float by a zero
      horizon. */
  function Outlook(current: real, change: real, horizon: int, today: int, sine: (int, int) -> real,
                   confidence: int, patterns: seq<PatternMatch>, pythonFloats: bool): Outcome<Prediction>
  {
    if horizon == 0 && pythonFloats then Raised(ZeroDivisionError)
    else
      var predicted := PredictedPrice(current, change);
      Ok(Prediction(current, predicted * 1.03, predicted * 0.97, predicted, confidence,
                    PointsOf(current, predicted, horizon, today, sine), patterns))
  }

  /** The RSI step of `predict` (lines 43-48). */
  method RsiAdjust(prices: seq<real>, useRsi: bool, change: real) returns (adjusted: real)
    ensures adjusted == change * RsiFactor(prices, useRsi)
  {
    adjusted := change;
    if useRsi {
      var rsi := Rsi(prices, 14);
      if rsi > 70.0 {
        adjusted := change * 0.7;
      } else if rsi < 30.0 {
        adjusted := change * 1.3;
      }
    }
  }

  /** The MACD step of `predict` (lines 50-55). */
  method MacdAdjust(prices: seq<real>, useMacd: bool, change: real) returns (adjusted: real)
    ensures adjusted == change * MacdFactor(prices, useMacd)
  {
    adjusted := change;
    if useMacd {
      var macd := Macd(prices, 12, 26, 9);
      if macd.histogram > 0.0 {
        adjusted := change * 1.1;
      } else {
        adjusted := change * 0.9;
      }
    }
  }

  /** The change of lines 30-55: the piecewise value of the trend after the
      RSI and MACD steps. */
  method IndicatorChange(prices: seq<real>, trend: real, useRsi: bool, useMacd: bool) returns (change: real)
    ensures change == BaseChange(trend) * RsiFactor(prices, useRsi) * MacdFactor(prices, useMacd)
  {
    change := BaseChange(trend);
    change := RsiAdjust(prices, useRsi, change);
    change := MacdAdjust(prices, useMacd, change);
  }

  /** The expected change of lines 30-66: the piecewise value of the trend
      after the RSI, MACD and pattern steps. */
  method ExpectedChange(prices: seq<real>, trend: real, useRsi: bool, useMacd: bool,
                        patterns: seq<PatternMatch>) returns (change: real)
    ensures change == ChangeOf(trend, RsiFactor(prices, useRsi), MacdFactor(prices, useMacd), PatternFactor(patterns))
  {
    var afterMacd := IndicatorChange(prices, trend, useRsi, useMacd);
    var adjustment := PatternAdjustment(patterns);
    change := afterMacd * adjustment;
    ChangeSteps(trend, RsiFactor(prices, useRsi), MacdFactor(prices, useMacd), adjustment, afterMacd, change);
  }

  /** Multiplying the factors in one at a time gives the expected change. */
  lemma ChangeSteps(trend: real, rsiFactor: real, macdFactor: real, patternFactor: real,
                    afterMacd: real, change: real)
    requires afterMacd == BaseChange(trend) * rsiFactor * macdFactor
    requires change == afterMacd * patternFactor
    ensures change == ChangeOf(trend, rsiFactor, macdFactor, patternFactor)
  {
  }

  /** `PredictionEngine.predict`. `today` is the date of `datetime.now()`. */
  method Predict(prices: seq<real>, horizon: int, useRsi: bool, useMacd: bool,
                 today: int, sine: (int, int) -> real, sqrt: real -> real) returns (r: Outcome<Prediction>)
    requires SqrtNonNegative(sqrt)
    ensures r == PredictionOf(prices, horizon, useRsi, useMacd, today, sine, sqrt)
  {
    if |prices| < 10 {
      return Ok(DefaultPrediction(prices));
    }
    r := PredictFromTen(prices, horizon, useRsi, useMacd, today, sine, sqrt);
  }

  /** `predict` from ten prices on (lines 26-89). The detectors run before
      the change is computed: the trend, RSI and MACD steps cannot raise and
      change nothing, so the order is not observable. */
  method PredictFromTen(prices: seq<real>, horizon: int, useRsi: bool, useMacd: bool,
                        today: int, sine: (int, int) -> real, sqrt: real -> real) returns (r: Outcome<Prediction>)
    requires SqrtNonNegative(sqrt) && |prices| >= 10
    ensures r == PredictionOf(prices, horizon, useRsi, useMacd, today, sine, sqrt)
  {
    var patterns := DetectAllPatterns(prices, sqrt);
    if patterns.Raised? {
      return Raised(patterns.error);
    }
    var current := prices[|prices| - 1];
    var change := ExpectedChange(prices, Trend(prices), useRsi, useMacd, patterns.value);
    var confidence := Confidence(useRsi, useMacd, |patterns.value|, |prices|);
    r := Finish(current, change, horizon, today, sine, confidence, patterns.value, FloatTrend(prices));
  }

  /** The end of `predict` (lines 66-89) once the change is known. */
  method Finish(current: real, change: real, horizon: int, today: int, sine: (int, int) -> real,
                confidence: int, patterns: seq<PatternMatch>, pythonFloats: bool) returns (r: Outcome<Prediction>)
    ensures r == Outlook(current, change, horizon, today, sine, confidence, patterns, pythonFloats)
  {
    var predicted := PredictedPrice(current, change);
    var high := predicted * 1.03;
    var low := predicted * 0.97;
    var points := ForecastPoints(current, predicted, horizon, today, sine, pythonFloats);
    if points.Raised? {
      return Raised(points.error);
    }
    r := Ok(Prediction(current, high, low, predicted, confidence, points.value, patterns));
  }

  /** Below ten prices: the current price (1000.0 for none), a +/-5% range,
      confidence 50 and neither points nor patterns. */
  lemma PredictShort(prices: seq<real>, horizon: int, useRsi: bool, useMacd: bool,
                     today: int, sine: (int, int) -> real, sqrt: real -> real)
    requires SqrtNonNegative(sqrt) && |prices| < 10
    ensures var r := PredictionOf(prices, horizon, useRsi, useMacd, today, sine, sqrt);
      && r.Ok?
      && r.value.current == (if prices == [] then 1000.0 else prices[|prices| - 1])
      && r.value.predicted == r.value.current
      && r.value.high == r.value.current * 1.05 && r.value.low == r.value.current * 0.95
      && (r.value.current >= 0.0 ==> r.value.low <= r.value.predicted <= r.value.high)
      && r.value.confidence == 50 && r.value.points == [] && r.value.patterns == []
  {
  }

  /** From ten prices on: the call fails only through a detector, or through
      a zero horizon when the older mean is 0 (the one case computed on
      Python floats); otherwise it yields one point per day (none for a
      horizon below 1), the detected patterns, a confidence in [60, 95] and
      a range of +/-3% around the prediction. */
  lemma PredictShape(prices: seq<real>, horizon: int, useRsi: bool, useMacd: bool,
                     today: int, sine: (int, int) -> real, sqrt: real -> real)
    requires SqrtNonNegative(sqrt) && |prices| >= 10
    ensures var r := PredictionOf(prices, horizon, useRsi, useMacd, today, sine, sqrt);
      && (r.Raised? <==> AllPatterns(prices, sqrt).Raised? || (horizon == 0 && Mean(Older(prices)) == 0.0))
      && (r.Raised? ==> r.error == ZeroDivisionError)
      && (r.Ok? ==>
           && r.value.current == prices[|prices| - 1]
           && r.value.patterns == AllPatterns(prices, sqrt).value
           && |r.value.points| == MaxInt(horizon, 0)
           && r.value.high == r.value.predicted * 1.03 && r.value.low == r.value.predicted * 0.97
           && 60 <= r.value.confidence <= 95
           && (r.value.predicted >= 0.0 ==> r.value.low <= r.value.predicted <= r.value.high))
  {
    var patterns := AllPatterns(prices, sqrt);
    if patterns.Ok? {
      ConfidenceUnclamped(useRsi, useMacd, |patterns.value|, |prices|);
    }
  }

  /** For positive prices the call succeeds whatever the horizon, and the
      predicted price is above the current one exactly when the trend is up,
      and below exactly when it is down. */
  lemma PredictDirection(prices: seq<real>, horizon: int, useRsi: bool, useMacd: bool,
                         today: int, sine: (int, int) -> real, sqrt: real -> real)
    requires SqrtNonNegative(sqrt) && |prices| >= 10 && AllPositive(prices)
    ensures var r := PredictionOf(prices, horizon, useRsi, useMacd, today, sine, sqrt);
      && r.Ok?
      && (r.value.predicted > r.value.current <==> Trend(prices) > 0.0)
      && (r.value.predicted < r.value.current <==> Trend(prices) < 0.0)
  {
    AllPatternsPositive(prices, sqrt);
    PositiveNotFloatTrend(prices);
    var patterns := AllPatterns(prices, sqrt).value;
    ChangeSign(prices, useRsi, useMacd, patterns);
    PredictedPriceDirection(prices[|prices| - 1], ChangeOf(Trend(prices), RsiFactor(prices, useRsi), MacdFactor(prices, useMacd), PatternFactor(patterns)));
  }

  /** With exactly ten prices both windows are the whole list: no trend. */
  lemma TenPricesNoTrend(prices: seq<real>)
    requires |prices| == 10
    ensures Trend(prices) == 0.0
  {
    assert Last(prices, 10) == prices == Older(prices);
    RelativeMoveOfEqual(Mean(Last(prices, 10)), Mean(Older(prices)));
  }

  /** Prices 1, 2, ..., 10 with a zero horizon: the two windows coincide, so
      the trend is 0 and the prediction is the last price, with no points
      and no exception. */
  lemma ZeroHorizonExample(useRsi: bool, useMacd: bool, today: int,
                           sine: (int, int) -> real, sqrt: real -> real)
    requires SqrtNonNegative(sqrt)
    ensures var r := PredictionOf([1.0, 2.0, 3.0, 4.0, 5.0, 6.0, 7.0, 8.0, 9.0, 10.0], 0, useRsi, useMacd, today, sine, sqrt);
      r.Ok? && r.value.predicted == 10.0 && r.value.points == []
  {
    var prices := [1.0, 2.0, 3.0, 4.0, 5.0, 6.0, 7.0, 8.0, 9.0, 10.0];
    assert AllPositive(prices);
    TenPricesNoTrend(prices);
    PredictDirection(prices, 0, useRsi, useMacd, today, sine, sqrt);
    PredictShape(prices, 0, useRsi, useMacd, today, sine, sqrt);
  }
}
