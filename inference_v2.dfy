/**
 * The rules of the disease-classifier inference: reading nutrient
 * deficiencies out of a class name, the crop a class belongs to, the
 * probability-weighted deficiency over all classes, and the statuses
 * derived from the resulting health scores.
 */
module InferenceV2 {
  import opened Text
  import opened Severity

  /** A class name that marks a plant without deficiency. */
  predicate IsHealthyName(s: string) {
    Contains(s, "healthy") || Contains(s, "control") || Contains(s, "all_present")
  }

  /** A class name carrying one of the disease markers (disease, leaf spot,
      jasmonate, powdery mildew). */
  predicate IsDiseaseName(s: string) {
    Contains(s, "_dm") || Contains(s, "_ls") || Contains(s, "_jas") || Contains(s, "_pm")
  }

  predicate NitrogenHint(s: string) {
    Contains(s, "nitrogen") || Contains(s, "_n_") || EndsWith(s, "_n") || Contains(s, "nab")
  }

  predicate PhosphorusHint(s: string) {
    Contains(s, "phosphorus") || Contains(s, "_p_") || EndsWith(s, "_p") || Contains(s, "pab")
  }

  predicate PotassiumHint(s: string) {
    Contains(s, "potassium") || Contains(s, "_k_") || EndsWith(s, "_k") || Contains(s, "kab")
  }

  predicate MagnesiumHint(s: string) {
    Contains(s, "magnesium") || Contains(s, "_mg") || Contains(s, "mg_")
  }

  predicate NitrogenPotassium(s: string) {
    Contains(s, "_n_k") || Contains(s, "n_k_")
  }

  predicate PotassiumMagnesium(s: string) {
    Contains(s, "_k_mg") || Contains(s, "k_mg_")
  }

  predicate NitrogenMagnesium(s: string) {
    Contains(s, "_n_mg") || Contains(s, "n_mg_")
  }

  /** The values the parser can produce. */
  predicate ParsedValue(x: real) {
    x == 0.0 || x == 0.3 || x == 0.65 || x == 0.7 || x == 0.75 || x == 0.8
  }

  predicate ParsedValues(v: Npk) {
    ParsedValue(v.n) && ParsedValue(v.p) && ParsedValue(v.k) && ParsedValue(v.mg)
  }

  /**
   * What the parser yields for an already lower-cased name, rule by rule
   * and nutrient by nutrient: a healthy marker gives zeros; otherwise a
   * disease marker gives 0.3 for N, P and K; otherwise `allab` and `znab`
   * fix all four values; otherwise each nutrient takes the last rule that
   * mentions it (a combined rule at 0.65 over its single hint at 0.75).
   * The wheat rule sets N to 0.7 after all but the disease rule.
   */
  function ClassNutrients(s: string): (r: Npk)
    ensures ParsedValues(r)
    ensures 0.0 <= r.n <= 0.8 && 0.0 <= r.p <= 0.8 && 0.0 <= r.k <= 0.8 && 0.0 <= r.mg <= 0.8
  {
    var wheat := Contains(s, "wheat_deficiency");
    if IsHealthyName(s) then Npk(0.0, 0.0, 0.0, 0.0)
    else if IsDiseaseName(s) then Npk(0.3, 0.3, 0.3, 0.0)
    else if Contains(s, "allab") then Npk(if wheat then 0.7 else 0.8, 0.8, 0.8, 0.0)
    else if Contains(s, "znab") then Npk(if wheat then 0.7 else 0.0, 0.0, 0.0, 0.3)
    else
      Npk(
        if wheat then 0.7
        else if NitrogenPotassium(s) || NitrogenMagnesium(s) then 0.65
        else if NitrogenHint(s) then 0.75
        else 0.0,
        if PhosphorusHint(s) then 0.75 else 0.0,
        if NitrogenPotassium(s) || PotassiumMagnesium(s) then 0.65
        else if PotassiumHint(s) then 0.75
        else 0.0,
        if PotassiumMagnesium(s) || NitrogenMagnesium(s) then 0.65
        else if MagnesiumHint(s) then 0.75
        else 0.0)
  }

  /** `parse_class_to_nutrients`: the rules applied in order to a dict of
      four entries, each later rule overwriting what earlier ones wrote. */
  method ParseClassToNutrients(className: string) returns (r: Npk)
    ensures r == ClassNutrients(Lower(className))
  {
    var s := Lower(className);
    var n, p, k, mg := 0.0, 0.0, 0.0, 0.0;
    if IsHealthyName(s) {
      return Npk(n, p, k, mg);
    }
    if NitrogenHint(s) {
      n := 0.75;
    }
    if PhosphorusHint(s) {
      p := 0.75;
    }
    if PotassiumHint(s) {
      k := 0.75;
    }
    if MagnesiumHint(s) {
      mg := 0.75;
    }
    if NitrogenPotassium(s) {
      n, k := 0.65, 0.65;
    }
    if PotassiumMagnesium(s) {
      k, mg := 0.65, 0.65;
    }
    if NitrogenMagnesium(s) {
      n, mg := 0.65, 0.65;
    }
    if Contains(s, "allab") {
      n, p, k, mg := 0.8, 0.8, 0.8, 0.0;
    } else if Contains(s, "znab") {
      n, p, k, mg := 0.0, 0.0, 0.0, 0.3;
    }
    if Contains(s, "wheat_deficiency") {
      n := 0.7;
    }
    if IsDiseaseName(s) {
      n, p, k, mg := 0.3, 0.3, 0.3, 0.0;
    }
    r := Npk(n, p, k, mg);
  }

  /** Lower-casing is idempotent, so names that differ only in ASCII case
      parse alike. */
  lemma {:induction false} LowerIdempotent(s: string)
    ensures Lower(Lower(s)) == Lower(s)
  {
    assert forall i :: 0 <= i < |s| ==> LowerChar(LowerChar(s[i])) == LowerChar(s[i]);
  }

  /** Any name with a healthy marker yields all zeros. */
  lemma {:induction false} HealthyNameIsZero(s: string, marker: string)
    requires marker in {"healthy", "control", "all_present"}
    requires Contains(s, marker)
    ensures ClassNutrients(s) == Npk(0.0, 0.0, 0.0, 0.0)
  {
  }

  /** A non-healthy name with a disease marker yields exactly 0.3 for N, P
      and K and nothing for magnesium, whatever else it mentions. */
  lemma DiseaseNameIsMinor(s: string)
    requires !IsHealthyName(s) && IsDiseaseName(s)
    ensures ClassNutrients(s) == Npk(0.3, 0.3, 0.3, 0.0)
  {
  }

  /** `znab` contains `nab`, yet only magnesium is set: the zinc rule
      overwrites the nitrogen hint. */
  lemma {:induction false} ZincAbsentOnlyMagnesium(s: string)
    requires !IsHealthyName(s) && !IsDiseaseName(s)
    requires !Contains(s, "allab") && Contains(s, "znab") && !Contains(s, "wheat_deficiency")
    ensures NitrogenHint(s)
    ensures ClassNutrients(s) == Npk(0.0, 0.0, 0.0, 0.3)
  {
    ZnabContainsNab(s);
  }

  /** Every occurrence of `znab` is an occurrence of `nab`. */
  lemma {:induction false} ZnabContainsNab(s: string)
    requires Contains(s, "znab")
    ensures Contains(s, "nab")
    decreases |s|
  {
    if StartsWith(s, "znab") {
      assert s[1..][..3] == "nab";
      ContainsAt(s, "nab", 1);
    } else {
      ZnabContainsNab(s[1..]);
    }
  }

  /** `allab` sets N, P and K to 0.8 and clears magnesium. */
  lemma AllAbsent(s: string)
    requires !IsHealthyName(s) && !IsDiseaseName(s)
    requires Contains(s, "allab") && !Contains(s, "wheat_deficiency")
    ensures ClassNutrients(s) == Npk(0.8, 0.8, 0.8, 0.0)
  {
  }

  const CropAliases: map<string, string> := map[
    "ashgourd" := "ashgourd",
    "ash" := "ashgourd",
    "banana" := "banana",
    "bittergourd" := "bittergourd",
    "bitter" := "bittergourd",
    "coffee" := "coffee",
    "eggplant" := "eggplant",
    "maize" := "maize",
    "rice" := "rice",
    "snakegourd" := "snakegourd",
    "snake" := "snakegourd",
    "wheat" := "wheat"
  ]

  /** `get_crop_from_class`: the alias-table image of the text before the
      first `_` of the lower-cased name, or that text itself. `split` never
      returns an empty list, so the `'unknown'` fallback is never reached. */
  function CropFromClass(className: string): (r: string)
    ensures var t := FirstToken(Lower(className), '_');
      (t in CropAliases ==> r == CropAliases[t]) && (t !in CropAliases ==> r == t)
    ensures r in CropAliases.Values || StartsWith(Lower(className), r)
  {
    var t := FirstToken(Lower(className), '_');
    if t in CropAliases then CropAliases[t] else t
  }

  /** A class named `<alias>_<rest>` belongs to the crop the alias stands for. */
  lemma {:induction false} CropOfPrefixedClass(alias: string, rest: string)
    requires alias in CropAliases
    ensures CropFromClass(alias + "_" + rest) == CropAliases[alias]
  {
    var name := alias + "_" + rest;
    assert Lower(alias) == alias;
    assert Lower(name)[..|alias|] == alias;
    assert Lower(name)[|alias|] == '_';
    LowerFirstToken(Lower(name), alias);
  }

  /** The first token of `a + "_" + …` is `a` when `a` has no `_`. */
  lemma {:induction false} LowerFirstToken(s: string, a: string)
    requires |a| < |s| && s[..|a|] == a && s[|a|] == '_'
    requires '_' !in a
    ensures FirstToken(s, '_') == a
    decreases |a|
  {
    if |a| > 0 {
      assert s[1..][..|a| - 1] == a[1..];
      LowerFirstToken(s[1..], a[1..]);
    }
  }

  /** Whether a class takes part in the weighted deficiency. */
  predicate Counted(prob: real) {
    prob > 0.001
  }

  /** The class name of model output `i`; outputs beyond the label list are
      named `class_<i>`. */
  function LabelOf(labels: seq<string>, i: nat): (r: string)
    ensures i < |labels| ==> r == labels[i]
    ensures i >= |labels| ==> StartsWith(r, "class_")
  {
    if i < |labels| then labels[i] else "class_" + NatToString(i)
  }

  function Scale(w: real, v: Npk): Npk {
    Npk(w * v.n, w * v.p, w * v.k, w * v.mg)
  }

  function Add(a: Npk, b: Npk): Npk {
    Npk(a.n + b.n, a.p + b.p, a.k + b.k, a.mg + b.mg)
  }

  /** The accumulated weighted deficiencies and total weight over the first
      `m` outputs. */
  function Accumulated(probs: seq<real>, labels: seq<string>, m: nat): (r: (Npk, real))
    requires m <= |probs|
  {
    if m == 0 then (Npk(0.0, 0.0, 0.0, 0.0), 0.0)
    else
      var prev := Accumulated(probs, labels, m - 1);
      if Counted(probs[m - 1]) then
        (Add(prev.0, Scale(probs[m - 1], ClassNutrients(Lower(LabelOf(labels, m - 1))))),
         prev.1 + probs[m - 1])
      else prev
  }

  /** Within a bound `b * total` with `b` the parser's largest value. */
  predicate Bounded(v: Npk, total: real) {
    && 0.0 <= v.n <= 0.8 * total && 0.0 <= v.p <= 0.8 * total
    && 0.0 <= v.k <= 0.8 * total && 0.0 <= v.mg <= 0.8 * total
  }

  /** Every accumulated sum lies between 0 and 0.8 times the accumulated
      weight, because it is a sum of positive weights times values in
      [0, 0.8]. */
  lemma {:induction false} AccumulatedBounded(probs: seq<real>, labels: seq<string>, m: nat)
    requires m <= |probs|
    ensures Accumulated(probs, labels, m).1 >= 0.0
    ensures Bounded(Accumulated(probs, labels, m).0, Accumulated(probs, labels, m).1)
  {
    if m > 0 {
      AccumulatedBounded(probs, labels, m - 1);
      var w := probs[m - 1];
      if Counted(w) {
        var v := ClassNutrients(Lower(LabelOf(labels, m - 1)));
        ScaledBounded(w, v);
      }
    }
  }

  lemma ScaledBounded(w: real, v: Npk)
    requires w > 0.0
    requires 0.0 <= v.n <= 0.8 && 0.0 <= v.p <= 0.8 && 0.0 <= v.k <= 0.8 && 0.0 <= v.mg <= 0.8
    ensures Bounded(Scale(w, v), w)
  {
    assert w * v.n <= w * 0.8;
    assert w * v.p <= w * 0.8;
    assert w * v.k <= w * 0.8;
    assert w * v.mg <= w * 0.8;
  }

  /** Dividing by the total weight when it is positive. */
  function Normalised(acc: (Npk, real)): Npk {
    if acc.1 > 0.0 then
      Npk(acc.0.n / acc.1, acc.0.p / acc.1, acc.0.k / acc.1, acc.0.mg / acc.1)
    else acc.0
  }

  /** The normalised weighted deficiency of the classes' parsed values. */
  function WeightedDeficiencies(probs: seq<real>, labels: seq<string>): Npk {
    Normalised(Accumulated(probs, labels, |probs|))
  }

  /** Each weighted deficiency is a weighted mean of values in [0, 0.8],
      so it lies in [0, 0.8]. */
  lemma {:induction false} WeightedDeficienciesBounded(probs: seq<real>, labels: seq<string>)
    ensures var d := WeightedDeficiencies(probs, labels);
      0.0 <= d.n <= 0.8 && 0.0 <= d.p <= 0.8 && 0.0 <= d.k <= 0.8 && 0.0 <= d.mg <= 0.8
  {
    var acc := Accumulated(probs, labels, |probs|);
    AccumulatedBounded(probs, labels, |probs|);
    if acc.1 > 0.0 {
      DivideBounded(acc.0.n, acc.1);
      DivideBounded(acc.0.p, acc.1);
      DivideBounded(acc.0.k, acc.1);
      DivideBounded(acc.0.mg, acc.1);
    } else {
      assert acc.1 == 0.0;
    }
  }

  lemma DivideBounded(a: real, t: real)
    requires t > 0.0 && 0.0 <= a <= 0.8 * t
    ensures 0.0 <= a / t <= 0.8
  {
    assert a / t * t == a;
  }

  /** The loop of `predict_v2` that accumulates `prob * parsed` over every
      class with probability above 0.001 and then divides by the total
      weight. */
  method WeightedDeficiency(probs: seq<real>, labels: seq<string>) returns (d: Npk)
    ensures d == WeightedDeficiencies(probs, labels)
    ensures 0.0 <= d.n <= 0.8 && 0.0 <= d.p <= 0.8 && 0.0 <= d.k <= 0.8 && 0.0 <= d.mg <= 0.8
  {
    var sum := Npk(0.0, 0.0, 0.0, 0.0);
    var total := 0.0;
    var i := 0;
    while i < |probs|
      invariant 0 <= i <= |probs|
      invariant (sum, total) == Accumulated(probs, labels, i)
    {
      var prob := probs[i];
      if Counted(prob) {
        var className := LabelOf(labels, i);
        var parsed := ParseClassToNutrients(className);
        sum := Add(sum, Scale(prob, parsed));
        total := total + prob;
      }
      i := i + 1;
    }
    if total > 0.0 {
      d := Npk(sum.n / total, sum.p / total, sum.k / total, sum.mg / total);
    } else {
      d := sum;
    }
    WeightedDeficienciesBounded(probs, labels);
  }

  /** What `predict_v2` reports from the weighted deficiencies. */
  datatype Assessment = Assessment(health: Npk, severities: seq<Level>, overall: Level)

  /** Health is `1 - deficiency`; each nutrient's severity comes from its
      health score and the overall status from the smallest one. */
  function Assess(d: Npk): (r: Assessment)
    ensures r.health == Npk(1.0 - d.n, 1.0 - d.p, 1.0 - d.k, 1.0 - d.mg)
    ensures |r.severities| == 4
    ensures forall i :: 0 <= i < 4 ==> r.severities[i] == OfHealth(r.health.Values()[i])
    ensures r.overall == OfHealth(Min4(r.health))
  {
    var h := Npk(1.0 - d.n, 1.0 - d.p, 1.0 - d.k, 1.0 - d.mg);
    Assessment(h, [OfHealth(h.n), OfHealth(h.p), OfHealth(h.k), OfHealth(h.mg)], OfHealth(Min4(h)))
  }

  /** For the weighted deficiencies every health score lies in [0.2, 1], and
      the overall status is the worst per-nutrient severity. */
  lemma {:induction false} AssessmentOfWeighted(probs: seq<real>, labels: seq<string>)
    ensures var r := Assess(WeightedDeficiencies(probs, labels));
      && 0.2 <= r.health.n <= 1.0 && 0.2 <= r.health.p <= 1.0
      && 0.2 <= r.health.k <= 1.0 && 0.2 <= r.health.mg <= 1.0
      && r.overall == Worst(Worst(Worst(r.severities[0], r.severities[1]), r.severities[2]), r.severities[3])
  {
    WeightedDeficienciesBounded(probs, labels);
    MinHealthIsWorst(Assess(WeightedDeficiencies(probs, labels)).health);
  }
}
