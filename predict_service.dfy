/** Backend/ML/predict_service.py: the history handed to the trained regressor is
    shaped to the model's feature count, and the prediction is clamped at zero. The
    model loaded by `load_model` is the parameters `nFeatures` and `predict`. */
module PredictService {
  import opened PyValues

  function Zeros(n: nat): (z: seq<real>)
    ensures |z| == n && forall i :: 0 <= i < n ==> z[i] == 0.0
  {
    seq(n, _ => 0.0)
  }

  /** `list(history or [])`. */
  function HistoryList(history: Option<seq<real>>): seq<real> {
    if history.Some? then history.value else []
  }

  /** The feature vector: a short history padded with zeros on the left, a long one cut
      to `hist[-n_features:]`, which for `n_features == 0` is the whole list. */
  function Shape(history: Option<seq<real>>, nFeatures: nat): seq<real> {
    var hist := HistoryList(history);
    if |hist| < nFeatures then Zeros(nFeatures - |hist|) + hist
    else if nFeatures == 0 then hist
    else hist[|hist| - nFeatures..]
  }

  /** `predict_next_usage(history)`: the model's prediction on the shaped history, never
      below zero. */
  function PredictNextUsage(history: Option<seq<real>>, nFeatures: nat, predict: seq<real> -> real): (r: real)
    ensures r >= 0.0
    ensures r >= predict(Shape(history, nFeatures))
    ensures r == 0.0 || r == predict(Shape(history, nFeatures))
  {
    var pred := predict(Shape(history, nFeatures));
    if 0.0 >= pred then 0.0 else pred
  }

  /** A missing history is shaped as an empty one: all zeros. */
  lemma ShapeNoHistory(nFeatures: nat)
    ensures Shape(None, nFeatures) == Shape(Some([]), nFeatures)
    ensures Shape(None, nFeatures) == Zeros(nFeatures)
  {
  }

  /** With a positive feature count the vector has exactly `nFeatures` entries; a short
      history becomes its suffix after zeros, a long one contributes its last entries. */
  lemma ShapeSpec(history: Option<seq<real>>, nFeatures: nat)
    requires nFeatures > 0
    ensures var r := Shape(history, nFeatures);
      var hist := HistoryList(history);
      && |r| == nFeatures
      && (|hist| < nFeatures ==>
            var pad := nFeatures - |hist|;
            (forall i :: 0 <= i < pad ==> r[i] == 0.0) &&
            (forall i :: pad <= i < nFeatures ==> r[i] == hist[i - pad]))
      && (|hist| >= nFeatures ==>
            forall i :: 0 <= i < nFeatures ==> r[i] == hist[|hist| - nFeatures + i])
  {
  }

  /** A history of exactly `nFeatures` values is passed on unchanged. */
  lemma ShapeExact(hist: seq<real>)
    ensures Shape(Some(hist), |hist|) == hist
  {
  }

  /** A feature count of zero keeps the whole history (Python's `hist[-0:]`). */
  lemma ShapeZeroFeatures(hist: seq<real>)
    ensures Shape(Some(hist), 0) == hist
  {
  }

  /** Entries older than the last `nFeatures` do not affect the prediction. */
  lemma PredictIgnoresOldHistory(older: seq<real>, recent: seq<real>, predict: seq<real> -> real)
    requires |recent| > 0
    ensures PredictNextUsage(Some(older + recent), |recent|, predict) == PredictNextUsage(Some(recent), |recent|, predict)
  {
    var hist := older + recent;
    assert hist[|hist| - |recent|..] == recent;
  }
}
