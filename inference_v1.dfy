/**
 * The decision rules of the per-crop regression inference: severity of a
 * deficiency score, its display colour, the overall status, the detected
 * class, and the defaults used when a model emits fewer outputs than the
 * four nutrients.
 */
module Inference {
  import opened Severity

  const NutrientNames: seq<string> := ["nitrogen", "phosphorus", "potassium", "magnesium"]

  /** The key `max(scores, key=scores.get)` picks from the dict
      {nitrogen, phosphorus, potassium, magnesium}: the first nutrient, in
      that order, whose score is the maximum. */
  function DetectedNutrient(v: Npk): (i: nat)
    ensures i < 4
    ensures v.Values()[i] == Max4(v)
    ensures forall j :: 0 <= j < i ==> v.Values()[j] < Max4(v)
  {
    if v.n >= v.p && v.n >= v.k && v.n >= v.mg then 0
    else if v.p >= v.k && v.p >= v.mg then 1
    else if v.k >= v.mg then 2
    else 3
  }

  /** `determine_detected_class`: `<nutrient>_deficiency` for the first
      maximal nutrient once the maximum reaches 0.4, otherwise `healthy`. */
  function DetectedClass(v: Npk): (r: string)
    ensures r == "healthy" <==> Max4(v) < 0.4
    ensures r != "healthy" ==> r == NutrientNames[DetectedNutrient(v)] + "_deficiency"
  {
    if Max4(v) >= AttentionThreshold then NutrientNames[DetectedNutrient(v)] + "_deficiency"
    else "healthy"
  }

  /** The detected class is `healthy` exactly when the overall status is. */
  lemma DetectedClassAgreesWithStatus(v: Npk)
    ensures DetectedClass(v) == "healthy" <==> OverallStatus(v) == Healthy
  {
  }

  /** A reported deficiency class names a nutrient whose own severity is the
      overall status, so the class never names a milder nutrient. */
  lemma {:induction false} DetectedNutrientIsWorst(v: Npk)
    requires DetectedClass(v) != "healthy"
    ensures OfDeficiency(v.Values()[DetectedNutrient(v)]) == OverallStatus(v)
    ensures OverallStatus(v) != Healthy
  {
    assert v.Values()[DetectedNutrient(v)] == Max4(v);
  }

  /** Scores and confidences of one prediction, as `predict_npk` reports them. */
  datatype Outputs = Outputs(scores: Npk, confidences: Npk)

  /** Output `i` of the model, or `default` when the model has fewer outputs. */
  function OutputOr(xs: seq<real>, i: nat, default: real): (r: real)
    ensures i < |xs| ==> r == xs[i]
    ensures i >= |xs| ==> r == default
  {
    if i < |xs| then xs[i] else default
  }

  /** The defaulting in `predict_npk`: a missing score is 0.0 and a missing
      confidence 0.8, so a three-output model reports no magnesium
      deficiency. */
  function ModelOutputs(predictions: seq<real>, confidences: seq<real>): (r: Outputs)
    ensures forall i :: 0 <= i < 4 && i < |predictions| ==> r.scores.Values()[i] == predictions[i]
    ensures forall i :: |predictions| <= i < 4 ==> r.scores.Values()[i] == 0.0
    ensures forall i :: 0 <= i < 4 && i < |confidences| ==> r.confidences.Values()[i] == confidences[i]
    ensures forall i :: |confidences| <= i < 4 ==> r.confidences.Values()[i] == 0.8
  {
    Outputs(
      Npk(OutputOr(predictions, 0, 0.0), OutputOr(predictions, 1, 0.0),
          OutputOr(predictions, 2, 0.0), OutputOr(predictions, 3, 0.0)),
      Npk(OutputOr(confidences, 0, 0.8), OutputOr(confidences, 1, 0.8),
          OutputOr(confidences, 2, 0.8), OutputOr(confidences, 3, 0.8)))
  }

  /** A model without a magnesium head never makes magnesium the detected
      deficiency unless every other score is negative. */
  lemma ThreeOutputsNoMagnesium(predictions: seq<real>, confidences: seq<real>)
    requires |predictions| == 3
    requires predictions[0] >= 0.0
    ensures ModelOutputs(predictions, confidences).scores.mg == 0.0
    ensures DetectedNutrient(ModelOutputs(predictions, confidences).scores) != 3
  {
  }
}
