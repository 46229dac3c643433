/**
 * The rules of the unified multi-crop classifier: which class is taken as
 * the prediction (restricted to the requested crop when it has classes),
 * the fixed deficiency profile of each class, and the scaled scores,
 * confidence and statuses reported for it.
 */
module UnifiedInference {
  import opened Optional
  import opened Text
  import opened Severity

  /** `CLASS_TO_NPK`: the deficiency profile of each known class. */
  const ClassToNpk: map<string, Npk> := map[
    "maize_ALL Present" := Npk(0.0, 0.0, 0.0, 0.0),
    "maize_ALLAB" := Npk(0.0, 0.0, 0.0, 0.0),
    "maize_NAB" := Npk(0.85, 0.1, 0.1, 0.0),
    "maize_PAB" := Npk(0.1, 0.85, 0.1, 0.0),
    "maize_KAB" := Npk(0.1, 0.1, 0.85, 0.0),
    "maize_ZNAB" := Npk(0.1, 0.1, 0.1, 0.7),
    "rice_Nitrogen(N)" := Npk(0.85, 0.1, 0.1, 0.0),
    "rice_Phosphorus(P)" := Npk(0.1, 0.85, 0.1, 0.0),
    "rice_Potassium(K)" := Npk(0.1, 0.1, 0.85, 0.0),
    "tomato_Tomato - Healthy" := Npk(0.0, 0.0, 0.0, 0.0),
    "tomato_Tomato - Nitrogen Deficiency" := Npk(0.85, 0.1, 0.1, 0.0),
    "tomato_Tomato - Potassium Deficiency" := Npk(0.1, 0.1, 0.85, 0.0),
    "tomato_Tomato - Nitrogen and Potassium Deficiency" := Npk(0.75, 0.1, 0.75, 0.0),
    "tomato_Tomato - Leaf Miner" := Npk(0.2, 0.2, 0.2, 0.0),
    "tomato_Tomato - Mite" := Npk(0.2, 0.2, 0.2, 0.0),
    "tomato_Tomato - Jassid and Mite" := Npk(0.3, 0.2, 0.3, 0.0),
    "wheat_control" := Npk(0.0, 0.0, 0.0, 0.0),
    "wheat_deficiency" := Npk(0.75, 0.3, 0.3, 0.0)
  ]

  /** The profile used for a class the table does not know. */
  const UnknownProfile: Npk := Npk(0.3, 0.3, 0.3, 0.0)

  /** The classes that stand for a plant with every nutrient present. */
  const HealthyClasses: set<string> :=
    {"maize_ALL Present", "maize_ALLAB", "tomato_Tomato - Healthy", "wheat_control"}

  predicate InProfileRange(v: Npk) {
    0.0 <= v.n <= 0.85 && 0.0 <= v.p <= 0.85 && 0.0 <= v.k <= 0.85 && 0.0 <= v.mg <= 0.85
  }

  /** `CLASS_TO_NPK.get(top_class, default)`: the table entry or the
      default; every profile, known or not, lies in [0, 0.85], and the
      healthy classes have none. */
  function Profile(cls: string): (r: Npk)
    ensures cls in ClassToNpk ==> r == ClassToNpk[cls]
    ensures cls !in ClassToNpk ==> r == UnknownProfile
    ensures InProfileRange(r)
    ensures cls in HealthyClasses ==> r == Npk(0.0, 0.0, 0.0, 0.0)
  {
    if cls in ClassToNpk then ClassToNpk[cls] else UnknownProfile
  }

  /** The crop restriction is used when a crop is given (non-empty) and at
      least one label starts with the lower-cased crop and `_`. */
  predicate FilterApplies(labels: seq<string>, crop: Option<string>) {
    crop.Some? && crop.value != ""
    && exists j :: 0 <= j < |labels| && StartsWith(labels[j], Lower(crop.value) + "_")
  }

  /**
   * The chosen class index. With the crop restriction in force, the
   * candidates are the labels with the crop prefix, sorted by probability
   * in descending order with Python's stable sort, so the head is the
   * earliest label of maximal probability among them. Without it, the
   * head of the global descending order: some label of maximal probability
   * (how ties are broken there is left open).
   */
  method SelectTopClass(labels: seq<string>, probs: seq<real>, crop: Option<string>) returns (i: nat)
    requires |labels| == |probs| > 0
    ensures i < |labels|
    ensures FilterApplies(labels, crop) ==>
      && StartsWith(labels[i], Lower(crop.value) + "_")
      && (forall j :: 0 <= j < |labels| && StartsWith(labels[j], Lower(crop.value) + "_") ==> probs[j] <= probs[i])
      && (forall j :: 0 <= j < i && StartsWith(labels[j], Lower(crop.value) + "_") ==> probs[j] < probs[i])
    ensures !FilterApplies(labels, crop) ==> forall j :: 0 <= j < |probs| ==> probs[j] <= probs[i]
  {
    var top := 0;
    var j := 1;
    while j < |probs|
      invariant 1 <= j <= |probs| && top < j
      invariant forall m :: 0 <= m < j ==> probs[m] <= probs[top]
    {
      if probs[j] > probs[top] {
        top := j;
      }
      j := j + 1;
    }
    if crop.Some? && crop.value != "" {
      var prefix := Lower(crop.value) + "_";
      var best := -1;
      j := 0;
      while j < |labels|
        invariant 0 <= j <= |labels|
        invariant -1 <= best < j
        invariant best == -1 <==> forall m :: 0 <= m < j ==> !StartsWith(labels[m], prefix)
        invariant best >= 0 ==> StartsWith(labels[best], prefix)
        invariant best >= 0 ==> forall m :: 0 <= m < j && StartsWith(labels[m], prefix) ==> probs[m] <= probs[best]
        invariant best >= 0 ==> forall m :: 0 <= m < best && StartsWith(labels[m], prefix) ==> probs[m] < probs[best]
      {
        if StartsWith(labels[j], prefix) && (best == -1 || probs[j] > probs[best]) {
          best := j;
        }
        j := j + 1;
      }
      if best >= 0 {
        return best;
      }
    }
    i := top;
  }

  /** The scores, confidence and statuses `predict_unified` reports. */
  datatype Prediction = Prediction(scores: Npk, confidence: real, severities: seq<Level>, overall: Level)

  /** Each of the four values multiplied by `c`. */
  function Scaled(v: Npk, c: real): Npk {
    Npk(v.n * c, v.p * c, v.k * c, v.mg * c)
  }

  /** `min(0.98, confidence + 0.1)` */
  function BaseConfidence(confidence: real): (r: real)
    ensures r <= 0.98 && r <= confidence + 0.1
    ensures r == 0.98 || r == confidence + 0.1
  {
    if 0.98 <= confidence + 0.1 then 0.98 else confidence + 0.1
  }

  /**
   * Each score is the class profile scaled by the top confidence; the
   * reported confidence is the top confidence plus 0.1, capped at 0.98;
   * each severity is the deficiency severity of its score and the overall
   * status that of the largest score.
   */
  function Predict(cls: string, confidence: real): (r: Prediction)
    ensures r.scores == Scaled(Profile(cls), confidence)
    ensures r.confidence == BaseConfidence(confidence)
    ensures |r.severities| == 4
    ensures forall i :: 0 <= i < 4 ==> r.severities[i] == OfDeficiency(r.scores.Values()[i])
    ensures r.overall == OverallStatus(r.scores)
  {
    var s := Scaled(Profile(cls), confidence);
    Prediction(s, BaseConfidence(confidence),
               [OfDeficiency(s.n), OfDeficiency(s.p), OfDeficiency(s.k), OfDeficiency(s.mg)],
               OverallStatus(s))
  }

  lemma ScaledAtMost(x: real, c: real)
    requires 0.0 <= x <= 0.85 && 0.0 <= c <= 1.0
    ensures 0.0 <= x * c <= 0.85
  {
    assert 0.0 <= x * c by {
      if x == 0.0 || c == 0.0 {
      } else {
        assert x > 0.0 && c > 0.0;
      }
    }
    assert x * c <= x by {
      assert x - x * c == x * (1.0 - c);
    }
  }

  /** For a confidence in [0, 1], every score lies in [0, 0.85]. */
  lemma {:induction false} PredictedScoresBounded(cls: string, confidence: real)
    requires 0.0 <= confidence <= 1.0
    ensures InProfileRange(Predict(cls, confidence).scores)
  {
    var v := Profile(cls);
    ScaledAtMost(v.n, confidence);
    ScaledAtMost(v.p, confidence);
    ScaledAtMost(v.k, confidence);
    ScaledAtMost(v.mg, confidence);
  }

  /** A healthy class yields zero scores and a healthy status at any confidence. */
  lemma HealthyClassIsHealthy(cls: string, confidence: real)
    requires cls in HealthyClasses
    ensures Predict(cls, confidence).scores == Npk(0.0, 0.0, 0.0, 0.0)
    ensures Predict(cls, confidence).overall == Healthy
  {
  }

  /** The overall status is the worst per-nutrient severity, so it is never
      milder than any of them. */
  lemma {:induction false} OverallIsWorstSeverity(cls: string, confidence: real)
    ensures var r := Predict(cls, confidence);
      r.overall == Worst(Worst(Worst(r.severities[0], r.severities[1]), r.severities[2]), r.severities[3])
  {
  }
}
