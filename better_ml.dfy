/** The random-forest forecaster: trained on lag windows of the price
    series and rolled forward one prediction at a time. The fitted forest is
    represented by the training set it was fitted on; its prediction for a
    window and the spread of its estimators' predictions are parameters. */
module BetterML {
  import opened Outcomes
  import opened Numeric
  import opened PatternDetection
  import PredictionEngine
  import MLBaseline

  /** The lag windows `X` and their next prices `y` the forest is fitted on. */
  datatype TrainingSet = TrainingSet(inputs: seq<seq<real>>, targets: seq<real>)

  /** The training set `_train` builds: for every i from w on, the w prices
      before index i and the price at i. */
  function LagPairs(prices: seq<real>, w: nat): TrainingSet
    requires w <= |prices|
  {
    TrainingSet(
      seq(|prices| - w, k requires 0 <= k < |prices| - w => prices[k..k + w]),
      seq(|prices| - w, k requires 0 <= k < |prices| - w => prices[k + w]))
  }

  /** There are n - w pairs; every input is a run of w consecutive prices
      and its target is the price right after it. */
  lemma LagPairsShape(prices: seq<real>, w: nat)
    requires w <= |prices|
    ensures var t := LagPairs(prices, w);
      && |t.inputs| == |t.targets| == |prices| - w
      && forall k :: 0 <= k < |prices| - w ==>
           |t.inputs[k]| == w && t.inputs[k] + [t.targets[k]] == prices[k..k + w + 1]
  {
    var t := LagPairs(prices, w);
    forall k | 0 <= k < |prices| - w
      ensures t.inputs[k] + [t.targets[k]] == prices[k..k + w + 1]
    {
      assert prices[k..k + w + 1] == prices[k..k + w] + [prices[k + w]];
    }
  }

  // ---------------------------------------------------------------- recursive forecast

  /** `np.roll(window, -1)` followed by overwriting the last slot. */
  function Shift(window: seq<real>, next: real): (w: seq<real>)
    requires |window| >= 1
    ensures |w| == |window|
  {
    window[1..] + [next]
  }

  /** The window the forest sees at step k of the forecast. */
  function WindowAt(model: TrainingSet, start: seq<real>, regressor: (TrainingSet, seq<real>) -> real,
                    k: nat): (w: seq<real>)
    requires |start| >= 1
    ensures |w| == |start|
  {
    if k == 0 then start
    else
      var prev := WindowAt(model, start, regressor, k - 1);
      Shift(prev, regressor(model, prev))
  }

  /** The prediction at step k. */
  function PredAt(model: TrainingSet, start: seq<real>, regressor: (TrainingSet, seq<real>) -> real,
                  k: nat): real
    requires |start| >= 1
  {
    regressor(model, WindowAt(model, start, regressor, k))
  }

  /** After a step the window keeps its size, drops its oldest price and
      ends with the prediction just made. */
  lemma WindowStep(model: TrainingSet, start: seq<real>, regressor: (TrainingSet, seq<real>) -> real, k: nat)
    requires |start| >= 1
    ensures var w := WindowAt(model, start, regressor, k);
      var w' := WindowAt(model, start, regressor, k + 1);
      && |w'| == |w| == |start|
      && w'[..|w'| - 1] == w[1..]
      && w'[|w'| - 1] == PredAt(model, start, regressor, k)
  {
  }

  /** Once the window has been shifted k times, its last k slots hold the k
      predictions made so far, oldest first. */
  lemma {:induction false} WindowHoldsPredictions(model: TrainingSet, start: seq<real>,
                                                  regressor: (TrainingSet, seq<real>) -> real, k: nat, j: nat)
    requires |start| >= 1 && j < k && k - j <= |start|
    ensures WindowAt(model, start, regressor, k)[|start| - (k - j)] == PredAt(model, start, regressor, j)
  {
    var w := WindowAt(model, start, regressor, k - 1);
    if j < k - 1 {
      WindowHoldsPredictions(model, start, regressor, k - 1, j);
      assert WindowAt(model, start, regressor, k)[|start| - (k - j)] == w[1..][|start| - (k - j)];
    }
  }

  /** The upper band: the prediction plus the estimator spread, but at least 1%. */
  function Upper(pred: real, std: real): real
  {
    pred + MaxReal(0.01 * pred, std)
  }

  /** The lower band, floored at 0. */
  function Lower(pred: real, std: real): real
  {
    MaxReal(0.0, pred - MaxReal(0.01 * pred, std))
  }

  /** The spread of the estimators' predictions is a standard deviation. */
  ghost predicate SpreadNonNegative(spread: (TrainingSet, seq<real>) -> real)
  {
    forall t, w :: spread(t, w) >= 0.0
  }

  /** With a non-negative spread the upper band is never below the
      prediction, the lower band is never negative, and for a non-negative
      prediction the lower band is not above it. */
  lemma BandOrder(pred: real, std: real)
    requires std >= 0.0
    ensures Upper(pred, std) >= pred
    ensures Lower(pred, std) >= 0.0
    ensures pred >= 0.0 ==> Lower(pred, std) <= pred
  {
  }

  function Preds(model: TrainingSet, start: seq<real>, regressor: (TrainingSet, seq<real>) -> real,
                 h: nat): seq<real>
    requires |start| >= 1
  {
    seq(h, k requires 0 <= k < h => PredAt(model, start, regressor, k))
  }

  function Uppers(model: TrainingSet, start: seq<real>, regressor: (TrainingSet, seq<real>) -> real,
                  spread: (TrainingSet, seq<real>) -> real, h: nat): seq<real>
    requires |start| >= 1
  {
    seq(h, k requires 0 <= k < h =>
      Upper(PredAt(model, start, regressor, k), spread(model, WindowAt(model, start, regressor, k))))
  }

  function Lowers(model: TrainingSet, start: seq<real>, regressor: (TrainingSet, seq<real>) -> real,
                  spread: (TrainingSet, seq<real>) -> real, h: nat): seq<real>
    requires |start| >= 1
  {
    seq(h, k requires 0 <= k < h =>
      Lower(PredAt(model, start, regressor, k), spread(model, WindowAt(model, start, regressor, k))))
  }

  /** The first loop of `predict` (lines 65-77): predict, record the bands,
      shift the window. */
  method Rollout(model: TrainingSet, start: seq<real>, regressor: (TrainingSet, seq<real>) -> real,
                 spread: (TrainingSet, seq<real>) -> real, h: nat)
    returns (preds: seq<real>, upper: seq<real>, lower: seq<real>)
    requires |start| >= 1
    ensures preds == Preds(model, start, regressor, h)
    ensures upper == Uppers(model, start, regressor, spread, h)
    ensures lower == Lowers(model, start, regressor, spread, h)
  {
    var lastWindow := start;
    preds, upper, lower := [], [], [];
    for k := 0 to h
      invariant lastWindow == WindowAt(model, start, regressor, k)
      invariant preds == Preds(model, start, regressor, k)
      invariant upper == Uppers(model, start, regressor, spread, k)
      invariant lower == Lowers(model, start, regressor, spread, k)
    {
      var nextPred := regressor(model, lastWindow);
      var std := spread(model, lastWindow);
      preds := preds + [nextPred];
      upper := upper + [nextPred + MaxReal(0.01 * nextPred, std)];
      lower := lower + [MaxReal(0.0, nextPred - MaxReal(0.01 * nextPred, std))];
      lastWindow := lastWindow[1..] + [nextPred];
    }
  }

  /** The forecast points built from the predictions and their bands. */
  function PointsFrom(preds: seq<real>, upper: seq<real>, lower: seq<real>, base: int): seq<PredictionEngine.ForecastDay>
    requires |upper| == |preds| && |lower| == |preds|
  {
    seq(|preds|, i requires 0 <= i < |preds| => PredictionEngine.ForecastDay(base + i + 1, preds[i], upper[i], lower[i]))
  }

  /** The second loop of `predict` (lines 83-92). */
  method BuildPoints(preds: seq<real>, upper: seq<real>, lower: seq<real>, base: int)
    returns (points: seq<PredictionEngine.ForecastDay>)
    requires |upper| == |preds| && |lower| == |preds|
    ensures points == PointsFrom(preds, upper, lower, base)
  {
    points := [];
    for i := 0 to |preds|
      invariant points == PointsFrom(preds[..i], upper[..i], lower[..i], base)
    {
      points := points + [PredictionEngine.ForecastDay(base + i + 1, preds[i], upper[i], lower[i])];
    }
    assert preds[..|preds|] == preds && upper[..|preds|] == upper && lower[..|preds|] == lower;
  }

  // ---------------------------------------------------------------- confidence

  /** `np.abs(np.diff(preds))`. */
  function AbsDiffs(preds: seq<real>): (d: seq<real>)
    requires |preds| >= 1
    ensures |d| == |preds| - 1
  {
    seq(|preds| - 1, i requires 0 <= i < |preds| - 1 => Abs(preds[i + 1] - preds[i]))
  }

  /** Line 98 and the clamp of line 105; the mean needs at least one
      difference, that is two predictions. */
  function ConfidenceOf(preds: seq<real>): int
    requires |preds| >= 2
  {
    Clamp(MaxInt(50, 90 - Trunc(Mean(AbsDiffs(preds)) * 100.0)), 40, 95)
  }

  /** The mean move is never negative, so the confidence lies in [50, 90];
      predictions that never move get exactly 90. */
  lemma ConfidenceRange(preds: seq<real>)
    requires |preds| >= 2
    ensures 50 <= ConfidenceOf(preds) <= 90
    ensures (forall i :: 0 <= i < |preds| ==> preds[i] == preds[0]) ==> ConfidenceOf(preds) == 90
  {
    var d := AbsDiffs(preds);
    MeanZero(d);
    assert Mean(d) * 100.0 >= 0.0;
    if forall i :: 0 <= i < |preds| ==> preds[i] == preds[0] {
      MeanConstant(d, 0.0);
    }
  }

  // ---------------------------------------------------------------- predict

  /** `predict` as a value, for a trained model, the prices and the window
      size: the ValueError of an untrained model; the ValueError of
      `int(nan)` when fewer than two predictions leave no difference to
      average; otherwise the rolled-forward forecast. */
  function PredictionFrom(model: Option<TrainingSet>, prices: seq<real>, timestamps: seq<int>, window: nat,
                          horizon: int, today: int, regressor: (TrainingSet, seq<real>) -> real,
                          spread: (TrainingSet, seq<real>) -> real): (r: Outcome<PredictionEngine.Prediction>)
    requires model.Some? ==> 1 <= window <= |prices|
  {
    if model.None? then Raised(ValueError)
    else
      RolledForecast(model.value, Last(prices, window), prices[|prices| - 1], MLBaseline.BaseDate(timestamps, today),
                     MaxInt(horizon, 0), regressor, spread)
  }

  /** Lines 58-108 as a value: `h` steps from the window `start`. */
  function RolledForecast(model: TrainingSet, start: seq<real>, current: real, base: int, h: nat,
                          regressor: (TrainingSet, seq<real>) -> real,
                          spread: (TrainingSet, seq<real>) -> real): Outcome<PredictionEngine.Prediction>
    requires |start| >= 1
  {
    var preds := Preds(model, start, regressor, h);
    if h < 2 then Raised(ValueError)
    else
      var predicted := preds[h - 1];
      Ok(PredictionEngine.Prediction(
        current, predicted * 1.02, predicted * 0.98, predicted,
        ConfidenceOf(preds),
        PointsFrom(preds, Uppers(model, start, regressor, spread, h), Lowers(model, start, regressor, spread, h), base),
        []))
  }

  /** Lines 58-108 of `predict`: the two loops, then the confidence, which
      raises ValueError for fewer than two predictions. */
  method Forecast(model: TrainingSet, start: seq<real>, current: real, base: int, h: nat,
                  regressor: (TrainingSet, seq<real>) -> real,
                  spread: (TrainingSet, seq<real>) -> real) returns (r: Outcome<PredictionEngine.Prediction>)
    requires |start| >= 1
    ensures r == RolledForecast(model, start, current, base, h, regressor, spread)
  {
    var preds, upper, lower := Rollout(model, start, regressor, spread, h);
    var points := BuildPoints(preds, upper, lower, base);
    var predicted := if preds != [] then preds[|preds| - 1] else current;
    if |preds| < 2 {
      return Raised(ValueError);
    }
    var confidence := MaxInt(50, 90 - Trunc(Mean(AbsDiffs(preds)) * 100.0));
    r := Ok(PredictionEngine.Prediction(current, predicted * 1.02, predicted * 0.98, predicted,
                       MinInt(95, MaxInt(40, confidence)), points, []));
  }

  /** A trained model with at least two days to forecast yields one point
      per day, dated base+1, base+2, ..., at the successive predictions with
      their bands; the prediction is the last of them with a +/-2% range,
      and the confidence lies in [50, 90]. Every other case raises
      ValueError. */
  lemma PredictShape(model: Option<TrainingSet>, prices: seq<real>, timestamps: seq<int>, window: nat,
                     horizon: int, today: int, regressor: (TrainingSet, seq<real>) -> real,
                     spread: (TrainingSet, seq<real>) -> real)
    requires model.Some? ==> 1 <= window <= |prices|
    requires SpreadNonNegative(spread)
    ensures var r := PredictionFrom(model, prices, timestamps, window, horizon, today, regressor, spread);
      && (r.Raised? <==> model.None? || horizon < 2)
      && (r.Raised? ==> r.error == ValueError)
      && (r.Ok? ==>
           && r.value.current == prices[|prices| - 1]
           && |r.value.points| == horizon
           && r.value.predicted == r.value.points[horizon - 1].price
           && r.value.high == r.value.predicted * 1.02 && r.value.low == r.value.predicted * 0.98
           && 50 <= r.value.confidence <= 90
           && r.value.patterns == []
           && forall i :: 0 <= i < horizon ==>
                && r.value.points[i].date == MLBaseline.BaseDate(timestamps, today) + i + 1
                && r.value.points[i].price == PredAt(model.value, Last(prices, window), regressor, i)
                && r.value.points[i].upper >= r.value.points[i].price
                && r.value.points[i].lower >= 0.0)
  {
    if model.Some? && horizon >= 2 {
      var start := Last(prices, window);
      var preds := Preds(model.value, start, regressor, horizon);
      ConfidenceRange(preds);
      forall i | 0 <= i < horizon
        ensures Upper(PredAt(model.value, start, regressor, i), spread(model.value, WindowAt(model.value, start, regressor, i)))
             >= PredAt(model.value, start, regressor, i)
        ensures Lower(PredAt(model.value, start, regressor, i), spread(model.value, WindowAt(model.value, start, regressor, i)))
             >= 0.0
      {
        BandOrder(PredAt(model.value, start, regressor, i), spread(model.value, WindowAt(model.value, start, regressor, i)));
      }
    }
  }

  // ---------------------------------------------------------------- the forecaster object

  class BetterMLForecast {
    var prices: seq<real>
    var timestamps: seq<int>
    var window: int
    var model: Option<TrainingSet>

    /** The window is at least 3, and a model exists exactly when there are
        more prices than the window, fitted on their lag pairs. */
    ghost predicate Valid()
      reads this
    {
      && window >= 3
      && (model.Some? <==> |prices| >= window + 1)
      && (model.Some? ==> model.value == LagPairs(prices, window))
    }

    /** `__init__` once the library is known to be present. */
    constructor (prices: seq<real>, timestamps: seq<int>, window: int)
      ensures this.prices == prices && this.timestamps == timestamps
      ensures this.window == MaxInt(3, window)
      ensures this.model == if |prices| >= MaxInt(3, window) + 1
                            then Some(LagPairs(prices, MaxInt(3, window))) else None
      ensures Valid()
    {
      this.prices := prices;
      this.timestamps := timestamps;
      this.window := MaxInt(3, window);
      this.model := None;
      new;
      if |this.prices| >= this.window + 1 {
        Train();
      }
    }

    /** `_train`: collects the lag pairs and fits the forest on them. */
    method Train()
      modifies this
      requires 1 <= window <= |prices|
      ensures prices == old(prices) && timestamps == old(timestamps) && window == old(window)
      ensures model == Some(LagPairs(prices, window))
    {
      var inputs: seq<seq<real>> := [];
      var targets: seq<real> := [];
      var i := window;
      while i < |prices|
        invariant window <= i <= |prices|
        invariant |inputs| == |targets| == i - window
        invariant forall k :: 0 <= k < i - window ==> inputs[k] == prices[k..k + window]
        invariant forall k :: 0 <= k < i - window ==> targets[k] == prices[k + window]
      {
        inputs := inputs + [prices[i - window..i]];
        targets := targets + [prices[i]];
        i := i + 1;
      }
      assert inputs == LagPairs(prices, window).inputs;
      assert targets == LagPairs(prices, window).targets;
      model := Some(TrainingSet(inputs, targets));
    }

    /** `predict`; `today` is the date of `datetime.now()`. Nothing of the
        object changes. */
    method Predict(horizon: int, today: int, regressor: (TrainingSet, seq<real>) -> real,
                   spread: (TrainingSet, seq<real>) -> real) returns (r: Outcome<PredictionEngine.Prediction>)
      requires Valid()
      ensures r == PredictionFrom(model, prices, timestamps, window, horizon, today, regressor, spread)
    {
      if model.None? {
        return Raised(ValueError);
      }
      r := Forecast(model.value, Last(prices, window), prices[|prices| - 1], MLBaseline.BaseDate(timestamps, today),
                    MaxInt(horizon, 0), regressor, spread);
    }
  }

  /** The module flag `SKLEARN_AVAILABLE` is the parameter `available`:
      construction raises ImportError without the library. */
  method Create(prices: seq<real>, timestamps: seq<int>, window: int, available: bool)
    returns (r: Outcome<BetterMLForecast>)
    ensures r.Raised? <==> !available
    ensures r.Raised? ==> r.error == ImportError
    ensures r.Ok? ==>
      && fresh(r.value) && r.value.Valid()
      && r.value.prices == prices && r.value.timestamps == timestamps && r.value.window == MaxInt(3, window)
      && (r.value.model.Some? <==> |prices| >= MaxInt(3, window) + 1)
  {
    if !available {
      return Raised(ImportError);
    }
    var f := new BetterMLForecast(prices, timestamps, window);
    r := Ok(f);
  }
}
