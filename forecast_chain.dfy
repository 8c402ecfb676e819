/** How the forecast view picks a model (forecast/views.py, lines 69-80):
    the random-forest forecast when the library is present and its
    prediction does not raise, and the log-linear baseline otherwise. */
module ForecastChain {
  import opened Outcomes
  import PredictionEngine
  import PatternDetection
  import MLBaseline
  import BetterML

  /** The window `BetterMLForecast(prices, timestamps)` uses by default. */
  const DefaultWindow: nat := 10

  /** The model the constructor trains with the default window. */
  function ModelFor(prices: seq<real>): Option<BetterML.TrainingSet>
  {
    if |prices| >= DefaultWindow + 1 then Some(BetterML.LagPairs(prices, DefaultWindow)) else None
  }

  /** The ensemble attempt: ImportError without the library, otherwise what
      `predict` returns or raises. */
  function EnsembleOf(prices: seq<real>, timestamps: seq<int>, horizon: int, today: int, available: bool,
                      regressor: (BetterML.TrainingSet, seq<real>) -> real,
                      spread: (BetterML.TrainingSet, seq<real>) -> real): Outcome<PredictionEngine.Prediction>
  {
    if !available then Raised(ImportError)
    else BetterML.PredictionFrom(ModelFor(prices), prices, timestamps, DefaultWindow, horizon, today, regressor, spread)
  }

  /** The prediction the view stores: the ensemble's when it succeeds, the
      baseline's (which may itself raise) otherwise. */
  function ForecastFor(prices: seq<real>, timestamps: seq<int>, horizon: int, today: int, available: bool,
                       regressor: (BetterML.TrainingSet, seq<real>) -> real,
                       spread: (BetterML.TrainingSet, seq<real>) -> real,
                       fit: seq<real> -> MLBaseline.LineFit, log: real -> real, exp: real -> real,
                       sqrt: real -> real): Outcome<PredictionEngine.Prediction>
  {
    var ensemble := EnsembleOf(prices, timestamps, horizon, today, available, regressor, spread);
    if ensemble.Ok? then ensemble
    else MLBaseline.PredictionOf(prices, timestamps, horizon, today, fit, log, exp, sqrt)
  }

  /** Lines 69-80: construct and run the ensemble inside a `try`, fall back
      to the baseline when no prediction came out. */
  method RunForecast(prices: seq<real>, timestamps: seq<int>, horizon: int, today: int, available: bool,
                     regressor: (BetterML.TrainingSet, seq<real>) -> real,
                     spread: (BetterML.TrainingSet, seq<real>) -> real,
                     fit: seq<real> -> MLBaseline.LineFit, log: real -> real, exp: real -> real,
                     sqrt: real -> real) returns (r: Outcome<PredictionEngine.Prediction>)
    ensures r == ForecastFor(prices, timestamps, horizon, today, available, regressor, spread, fit, log, exp, sqrt)
  {
    var ensemble := TryEnsemble(prices, timestamps, horizon, today, available, regressor, spread);
    if ensemble.Ok? {
      r := ensemble;
    } else {
      r := MLBaseline.Predict(prices, timestamps, horizon, today, fit, log, exp, sqrt);
    }
  }

  /** Lines 70-75: the `try` around constructing and running the ensemble. */
  method TryEnsemble(prices: seq<real>, timestamps: seq<int>, horizon: int, today: int, available: bool,
                     regressor: (BetterML.TrainingSet, seq<real>) -> real,
                     spread: (BetterML.TrainingSet, seq<real>) -> real) returns (r: Outcome<PredictionEngine.Prediction>)
    ensures r == EnsembleOf(prices, timestamps, horizon, today, available, regressor, spread)
  {
    var better := BetterML.Create(prices, timestamps, DefaultWindow, available);
    if better.Raised? {
      return Raised(better.error);
    }
    assert better.value.model == ModelFor(prices);
    r := better.value.Predict(horizon, today, regressor, spread);
  }

  /** The view raises (the baseline's IndexError) exactly when there are at
      least three prices and the horizon is not positive. The ensemble's
      forecast is used exactly when the library is present, there are more
      prices than the window and at least two days are asked for; in every
      other case the baseline's is. */
  lemma ForecastChoice(prices: seq<real>, timestamps: seq<int>, horizon: int, today: int, available: bool,
                       regressor: (BetterML.TrainingSet, seq<real>) -> real,
                       spread: (BetterML.TrainingSet, seq<real>) -> real,
                       fit: seq<real> -> MLBaseline.LineFit, log: real -> real, exp: real -> real,
                       sqrt: real -> real)
    requires BetterML.SpreadNonNegative(spread) && PatternDetection.SqrtNonNegative(sqrt)
    ensures var r := ForecastFor(prices, timestamps, horizon, today, available, regressor, spread, fit, log, exp, sqrt);
      && (r.Raised? <==> |prices| >= 3 && horizon <= 0)
      && (r.Raised? ==> r.error == IndexError)
      && (available && |prices| >= 11 && horizon >= 2 ==>
            r == EnsembleOf(prices, timestamps, horizon, today, available, regressor, spread) && r.Ok?)
      && (!(available && |prices| >= 11 && horizon >= 2) ==>
            r == MLBaseline.PredictionOf(prices, timestamps, horizon, today, fit, log, exp, sqrt))
  {
    if available {
      BetterML.PredictShape(ModelFor(prices), prices, timestamps, DefaultWindow, horizon, today, regressor, spread);
    }
    if |prices| >= 3 {
      MLBaseline.PredictShape(prices, timestamps, horizon, today, fit, log, exp, sqrt);
      var y := MLBaseline.LogPrices(prices, log);
      MLBaseline.ProjectionShape(prices[|prices| - 1], fit(y), MLBaseline.Volatility(MLBaseline.Residuals(y, fit(y)), sqrt),
                                 |prices|, MLBaseline.BaseDate(timestamps, today), horizon, exp);
    }
  }
}
