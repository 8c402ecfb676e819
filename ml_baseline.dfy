/** The regression baseline: a straight line fitted to the log prices is
    projected forward, with a band and a confidence driven by the spread of
    the residuals around that line. `np.polyfit`, `log`, `exp` and the
    square root inside `np.std` are parameters. */
module MLBaseline {
  import opened Outcomes
  import opened Numeric
  import opened PatternDetection
  import PredictionEngine

  /** The floor `np.maximum` puts under every price before the logarithm. */
  const LogFloor: real := 0.000000001

  /** The slope and intercept `np.polyfit(x, y, 1)` returns. */
  datatype LineFit = LineFit(slope: real, intercept: real)

  /** The date the points count from: the last timestamp, or today's date
      when there are none. */
  function BaseDate(timestamps: seq<int>, today: int): (d: int)
    ensures timestamps == [] ==> d == today
    ensures timestamps != [] ==> d == timestamps[|timestamps| - 1]
  {
    if timestamps == [] then today else timestamps[|timestamps| - 1]
  }

  /** The last price, or 1000.0 when there is none. */
  function CurrentPrice(prices: seq<real>): real
  {
    if prices == [] then PredictionEngine.FallbackPrice else prices[|prices| - 1]
  }

  // ---------------------------------------------------------------- default prediction

  /** A point of the flat default forecast: the current price with a +/-1% band. */
  function FlatPoint(price: real, base: int, day: int): PredictionEngine.ForecastDay
  {
    PredictionEngine.ForecastDay(base + day, price, price * 1.01, price * 0.99)
  }

  function FlatPoints(price: real, base: int, horizon: int): seq<PredictionEngine.ForecastDay>
  {
    seq(MaxInt(horizon, 0), i requires 0 <= i < MaxInt(horizon, 0) => FlatPoint(price, base, i + 1))
  }

  /** The loop of `_default_prediction` (lines 105-117). */
  method DefaultPoints(price: real, base: int, horizon: int) returns (points: seq<PredictionEngine.ForecastDay>)
    ensures points == FlatPoints(price, base, horizon)
  {
    points := [];
    var day := 1;
    while day <= horizon
      invariant 1 <= day <= MaxInt(horizon, 0) + 1
      invariant points == FlatPoints(price, base, day - 1)
    {
      points := points + [PredictionEngine.ForecastDay(base + day, price, price * 1.01, price * 0.99)];
      day := day + 1;
    }
  }

  /** `_default_prediction` as a value. */
  function DefaultPredictionOf(prices: seq<real>, timestamps: seq<int>, horizon: int, today: int): PredictionEngine.Prediction
  {
    var current := CurrentPrice(prices);
    var points := FlatPoints(current, BaseDate(timestamps, today), horizon);
    var predicted := if points != [] then points[|points| - 1].price else current;
    PredictionEngine.Prediction(current, predicted * 1.02, predicted * 0.98, predicted, 50, points, [])
  }

  /** `_default_prediction`. */
  method DefaultPrediction(prices: seq<real>, timestamps: seq<int>, horizon: int, today: int) returns (p: PredictionEngine.Prediction)
    ensures p == DefaultPredictionOf(prices, timestamps, horizon, today)
  {
    var current := if prices == [] then PredictionEngine.FallbackPrice else prices[|prices| - 1];
    var points := DefaultPoints(current, BaseDate(timestamps, today), horizon);
    var predicted := if points != [] then points[|points| - 1].price else current;
    p := PredictionEngine.Prediction(current, predicted * 1.02, predicted * 0.98, predicted, 50, points, []);
  }

  /** The default forecast stays at the current price (1000.0 for no
      prices): one flat point per day with a +/-1% band, dated base+1,
      base+2, ..., a +/-2% range, confidence 50 and no patterns. */
  lemma DefaultShape(prices: seq<real>, timestamps: seq<int>, horizon: int, today: int)
    ensures var p := DefaultPredictionOf(prices, timestamps, horizon, today);
      && p.current == (if prices == [] then 1000.0 else prices[|prices| - 1])
      && p.predicted == p.current
      && p.high == p.current * 1.02 && p.low == p.current * 0.98
      && p.confidence == 50 && p.patterns == []
      && |p.points| == MaxInt(horizon, 0)
      && (forall i :: 0 <= i < |p.points| ==>
            && p.points[i].date == BaseDate(timestamps, today) + i + 1
            && p.points[i].price == p.current
            && p.points[i].upper == p.current * 1.01
            && p.points[i].lower == p.current * 0.99)
  {
  }

  /** For a non-negative price the default range and every band enclose the price. */
  lemma DefaultBands(prices: seq<real>, timestamps: seq<int>, horizon: int, today: int)
    requires CurrentPrice(prices) >= 0.0
    ensures var p := DefaultPredictionOf(prices, timestamps, horizon, today);
      && p.low <= p.predicted <= p.high
      && forall i :: 0 <= i < |p.points| ==> p.points[i].lower <= p.points[i].price <= p.points[i].upper
  {
  }

  // ---------------------------------------------------------------- fitted line

  /** `np.log(np.maximum(prices, 1e-9))`. */
  function LogPrices(prices: seq<real>, log: real -> real): (y: seq<real>)
    ensures |y| == |prices|
  {
    seq(|prices|, i requires 0 <= i < |prices| => log(MaxReal(prices[i], LogFloor)))
  }

  /** The distances of the log prices from the fitted line at x = 0, 1, ... */
  function Residuals(y: seq<real>, line: LineFit): (res: seq<real>)
    ensures |res| == |y|
  {
    seq(|y|, i requires 0 <= i < |y| => y[i] - LineAt(line, i))
  }

  /** `np.std(residuals)` (the population deviation) for two or more
      residuals, 0 otherwise. */
  function Volatility(residuals: seq<real>, sqrt: real -> real): real
  {
    if |residuals| > 1 then sqrt(Variance(residuals)) else 0.0
  }

  lemma VolatilityNonNegative(residuals: seq<real>, sqrt: real -> real)
    requires SqrtNonNegative(sqrt)
    ensures Volatility(residuals, sqrt) >= 0.0
  {
    if |residuals| > 1 {
      assert 0.0 <= Variance(residuals);
    }
  }

  /** The relative half-width of every band: the volatility, but at least 1%. */
  function Band(vol: real): (b: real)
    ensures b >= 0.01 && b >= vol
  {
    MaxReal(0.01, vol)
  }

  /** The fitted log price at index `idx`. */
  function LineAt(line: LineFit, idx: int): real
  {
    line.intercept + line.slope * (idx as real)
  }

  /** Point `day` of the projection: the exponential of the line at index
      `start + day`, with the volatility band around it. */
  function TrendPoint(line: LineFit, vol: real, exp: real -> real, start: int, base: int, day: int): PredictionEngine.ForecastDay
  {
    var price := exp(LineAt(line, start + day));
    PredictionEngine.ForecastDay(base + day, price, price * (1.0 + Band(vol)), price * (1.0 - Band(vol)))
  }

  function TrendPoints(line: LineFit, vol: real, exp: real -> real, start: int, base: int, horizon: int): seq<PredictionEngine.ForecastDay>
  {
    seq(MaxInt(horizon, 0), i requires 0 <= i < MaxInt(horizon, 0) => TrendPoint(line, vol, exp, start, base, i + 1))
  }

  /** `_generate_forecast_points` (lines 67-95). */
  method GeneratePoints(line: LineFit, vol: real, exp: real -> real, start: int, base: int, horizon: int)
    returns (points: seq<PredictionEngine.ForecastDay>)
    ensures points == TrendPoints(line, vol, exp, start, base, horizon)
  {
    points := [];
    var day := 1;
    while day <= horizon
      invariant 1 <= day <= MaxInt(horizon, 0) + 1
      invariant points == TrendPoints(line, vol, exp, start, base, day - 1)
    {
      var idx := start + day;
      var logPrice := LineAt(line, idx);
      var price := exp(logPrice);
      var upper := price * (1.0 + MaxReal(0.01, vol));
      var lower := price * (1.0 - MaxReal(0.01, vol));
      assert PredictionEngine.ForecastDay(base + day, price, upper, lower) == TrendPoint(line, vol, exp, start, base, day);
      TrendPointsSnoc(line, vol, exp, start, base, day - 1);
      points := points + [PredictionEngine.ForecastDay(base + day, price, upper, lower)];
      day := day + 1;
    }
  }

  lemma TrendPointsSnoc(line: LineFit, vol: real, exp: real -> real, start: int, base: int, k: nat)
    ensures TrendPoints(line, vol, exp, start, base, k + 1)
         == TrendPoints(line, vol, exp, start, base, k) + [TrendPoint(line, vol, exp, start, base, k + 1)]
  {
  }

  /** A non-negative price lies inside its band, which is at least 1% wide
      on each side. */
  lemma BandOrder(price: real, vol: real)
    requires price >= 0.0
    ensures price * (1.0 - Band(vol)) <= price <= price * (1.0 + Band(vol))
    ensures price * (1.0 - Band(vol)) <= price * 0.99 && price * 1.01 <= price * (1.0 + Band(vol))
  {
    var b := Band(vol);
    MulNonNegative(price, b - 0.01);
  }

  /** Point `day` is dated `day` days after the base and sits on the line at
      index `start + day`; for a non-negative price it lies inside its band. */
  lemma TrendPointShape(line: LineFit, vol: real, exp: real -> real, start: int, base: int, day: int)
    ensures var p := TrendPoint(line, vol, exp, start, base, day);
      && p.date == base + day
      && p.price == exp(LineAt(line, start + day))
      && (p.price >= 0.0 ==> p.lower <= p.price <= p.upper)
  {
    var price := exp(LineAt(line, start + day));
    assert TrendPoint(line, vol, exp, start, base, day)
        == PredictionEngine.ForecastDay(base + day, price, price * (1.0 + Band(vol)), price * (1.0 - Band(vol)));
    if price >= 0.0 {
      BandOrder(price, vol);
    }
  }

  // ---------------------------------------------------------------- confidence

  /** The confidence before the [40, 95] clamp. */
  function ConfidenceScore(vol: real, sampleSize: nat): int
  {
    70 - Trunc(MinReal(20.0, vol * 50.0))
      + (if sampleSize < 10 then -10 else if sampleSize > 50 then 5 else 0)
  }

  /** `_calculate_confidence`, accumulated step by step and clamped. */
  method CalculateConfidence(vol: real, sampleSize: nat) returns (c: int)
    ensures c == Clamp(ConfidenceScore(vol, sampleSize), 40, 95)
  {
    c := 70;
    c := c - Trunc(MinReal(20.0, vol * 50.0));
    if sampleSize < 10 {
      c := c - 10;
    } else if sampleSize > 50 {
      c := c + 5;
    }
    c := MinInt(95, MaxInt(40, c));
  }

  /** For a non-negative volatility the score lies in [40, 75], so the clamp
      changes nothing and the confidence never exceeds 75. */
  lemma ConfidenceRange(vol: real, sampleSize: nat)
    requires vol >= 0.0
    ensures 40 <= ConfidenceScore(vol, sampleSize) <= 75
    ensures Clamp(ConfidenceScore(vol, sampleSize), 40, 95) == ConfidenceScore(vol, sampleSize)
  {
    var m := MinReal(20.0, vol * 50.0);
    assert 0.0 <= m <= 20.0;
    assert Trunc(m) as real <= m;
  }

  /** A larger volatility never raises the confidence, and more samples never lower it. */
  lemma ConfidenceMonotone(v1: real, v2: real, n1: nat, n2: nat)
    requires 0.0 <= v1 <= v2 && n1 <= n2
    ensures ConfidenceScore(v2, n1) <= ConfidenceScore(v1, n1)
    ensures ConfidenceScore(v1, n1) <= ConfidenceScore(v1, n2)
  {
    var a := MinReal(20.0, v1 * 50.0);
    var b := MinReal(20.0, v2 * 50.0);
    assert 0.0 <= a <= b;
    assert Trunc(a) as real <= a && b < Trunc(b) as real + 1.0;
  }

  // ---------------------------------------------------------------- predict

  /** `predict` as a value: the default below three prices; otherwise the
      projection of the line fitted to the log prices. */
  function PredictionOf(prices: seq<real>, timestamps: seq<int>, horizon: int, today: int,
                        fit: seq<real> -> LineFit, log: real -> real, exp: real -> real,
                        sqrt: real -> real): Outcome<PredictionEngine.Prediction>
  {
    var n := |prices|;
    if n < 3 then Ok(DefaultPredictionOf(prices, timestamps, horizon, today))
    else
      var y := LogPrices(prices, log);
      var line := fit(y);
      Projection(prices[n - 1], line, Volatility(Residuals(y, line), sqrt), n, BaseDate(timestamps, today), horizon, exp)
  }

  /** Lines 33-55 as a value, for `n` prices: the points along the fitted
      line, the last of them as the prediction with its band, or the
      IndexError of `forecast_points[-1]` when the horizon yields no point. */
  function Projection(current: real, line: LineFit, vol: real, n: nat, base: int, horizon: int,
                      exp: real -> real): Outcome<PredictionEngine.Prediction>
  {
    var points := TrendPoints(line, vol, exp, n - 1, base, horizon);
    if points == [] then Raised(IndexError)
    else
      var predicted := points[|points| - 1].price;
      Ok(PredictionEngine.Prediction(current, predicted * (1.0 + Band(vol)), predicted * (1.0 - Band(vol)),
                    predicted, Clamp(ConfidenceScore(vol, n), 40, 95), points, []))
  }

  /** `MLForecastBaseline.predict`; `today` is the date of `datetime.now()`. */
  method Predict(prices: seq<real>, timestamps: seq<int>, horizon: int, today: int,
                 fit: seq<real> -> LineFit, log: real -> real, exp: real -> real,
                 sqrt: real -> real) returns (r: Outcome<PredictionEngine.Prediction>)
    ensures r == PredictionOf(prices, timestamps, horizon, today, fit, log, exp, sqrt)
  {
    if |prices| < 3 {
      var p := DefaultPrediction(prices, timestamps, horizon, today);
      return Ok(p);
    }
    var current := prices[|prices| - 1];
    var y := LogPrices(prices, log);
    var line := fit(y);
    var residuals := Residuals(y, line);
    var vol := Volatility(residuals, sqrt);
    r := Project(current, line, vol, |prices|, BaseDate(timestamps, today), horizon, exp);
  }

  /** Lines 33-55 of `predict`, once the line and the volatility are known. */
  method Project(current: real, line: LineFit, vol: real, n: nat, base: int, horizon: int,
                 exp: real -> real) returns (r: Outcome<PredictionEngine.Prediction>)
    ensures r == Projection(current, line, vol, n, base, horizon, exp)
  {
    var points := GeneratePoints(line, vol, exp, n - 1, base, horizon);
    assert |points| == MaxInt(horizon, 0);
    if points == [] {
      return Raised(IndexError);
    }
    var predicted := points[|points| - 1].price;
    var high := predicted * (1.0 + Band(vol));
    var low := predicted * (1.0 - Band(vol));
    var confidence := CalculateConfidence(vol, n);
    r := Ok(PredictionEngine.Prediction(current, high, low, predicted, confidence, points, []));
  }

  /** The projection fails, with IndexError, exactly when the horizon is not
      positive; otherwise there is one point per day, dated base+1, base+2,
      ... and taken from the line at index n-1+day, the prediction is the
      last point with the same band, and for a non-negative volatility and
      three or more prices the confidence lies in [40, 75]. */
  lemma ProjectionShape(current: real, line: LineFit, vol: real, n: nat, base: int, horizon: int,
                        exp: real -> real)
    requires vol >= 0.0
    ensures var r := Projection(current, line, vol, n, base, horizon, exp);
      && (r.Raised? <==> horizon <= 0)
      && (r.Raised? ==> r.error == IndexError)
      && (r.Ok? ==>
           && r.value.current == current
           && |r.value.points| == horizon
           && r.value.predicted == r.value.points[horizon - 1].price
           && 40 <= r.value.confidence <= 75
           && r.value.patterns == []
           && (r.value.predicted >= 0.0 ==> r.value.low <= r.value.predicted <= r.value.high)
           && forall i :: 0 <= i < horizon ==>
                && r.value.points[i].date == base + i + 1
                && r.value.points[i].price == exp(LineAt(line, n + i))
                && (r.value.points[i].price >= 0.0 ==>
                      r.value.points[i].lower <= r.value.points[i].price <= r.value.points[i].upper))
  {
    ConfidenceRange(vol, n);
    var points := TrendPoints(line, vol, exp, n - 1, base, horizon);
    forall i | 0 <= i < |points|
      ensures points[i].date == base + i + 1
      ensures points[i].price == exp(LineAt(line, n + i))
      ensures points[i].price >= 0.0 ==> points[i].lower <= points[i].price <= points[i].upper
    {
      TrendPointShape(line, vol, exp, n - 1, base, i + 1);
    }
    if points != [] && points[|points| - 1].price >= 0.0 {
      BandOrder(points[|points| - 1].price, vol);
    }
  }

  /** From three prices on, `predict` is the projection of the fitted line,
      whose shape the lemma above gives, with a non-negative volatility. */
  lemma PredictShape(prices: seq<real>, timestamps: seq<int>, horizon: int, today: int,
                     fit: seq<real> -> LineFit, log: real -> real, exp: real -> real,
                     sqrt: real -> real)
    requires |prices| >= 3 && SqrtNonNegative(sqrt)
    ensures var y := LogPrices(prices, log);
      var vol := Volatility(Residuals(y, fit(y)), sqrt);
      && vol >= 0.0
      && PredictionOf(prices, timestamps, horizon, today, fit, log, exp, sqrt)
         == Projection(prices[|prices| - 1], fit(y), vol, |prices|, BaseDate(timestamps, today), horizon, exp)
  {
    var y := LogPrices(prices, log);
    VolatilityNonNegative(Residuals(y, fit(y)), sqrt);
  }

  /** Twenty prices and a five-day horizon give exactly five points. */
  lemma TwentyPricesFivePoints(prices: seq<real>, timestamps: seq<int>, today: int,
                               fit: seq<real> -> LineFit, log: real -> real, exp: real -> real,
                               sqrt: real -> real)
    requires |prices| == 20 && SqrtNonNegative(sqrt)
    ensures var r := PredictionOf(prices, timestamps, 5, today, fit, log, exp, sqrt);
      r.Ok? && |r.value.points| == 5
  {
    PredictShape(prices, timestamps, 5, today, fit, log, exp, sqrt);
    var y := LogPrices(prices, log);
    ProjectionShape(prices[19], fit(y), Volatility(Residuals(y, fit(y)), sqrt), 20, BaseDate(timestamps, today), 5, exp);
  }
}
