/**
 * The health engine proper: classification of a scan's overall score and
 * of single nutrients, trends between two values, the overall score of a
 * scan, and the comparison of a scan with its predecessor and baseline.
 *
 * A stored scan holds DEFICIENCY scores (higher is worse), either as
 * fractions 0..1 or as percentages; the engine reports HEALTH scores,
 * `100 - deficiency`.
 */
module HealthEngine {
  import opened Optional
  import opened Text
  import Calendar
  import opened HealthConfig

  datatype Nutrient = N | P | K | Mg {
    /** The key prefix used in a scan row (`n_score`, `mg_severity`, ...). */
    function Key(): string {
      match this
      case N => "n"
      case P => "p"
      case K => "k"
      case Mg => "mg"
    }

    /** Position in the fixed order n, p, k, mg. */
    function Index(): nat {
      match this
      case N => 0
      case P => 1
      case K => 2
      case Mg => 3
    }
  }

  /**
   * A scan row as the engine receives it: a dictionary whose keys may be
   * missing. `None` is a missing key; `otherKeys` records whether the row
   * holds any key not listed here (it matters only for the truth value of
   * the dictionary).
   */
  datatype Scan = Scan(
    nScore: Option<real>, pScore: Option<real>, kScore: Option<real>, mgScore: Option<real>,
    nSeverity: Option<string>, pSeverity: Option<string>,
    kSeverity: Option<string>, mgSeverity: Option<string>,
    nConfidence: Option<real>, pConfidence: Option<real>,
    kConfidence: Option<real>, mgConfidence: Option<real>,
    createdAt: Option<string>,
    otherKeys: bool)
  {
    function Score(n: Nutrient): Option<real> {
      match n
      case N => nScore
      case P => pScore
      case K => kScore
      case Mg => mgScore
    }

    function Severity(n: Nutrient): Option<string> {
      match n
      case N => nSeverity
      case P => pSeverity
      case K => kSeverity
      case Mg => mgSeverity
    }

    function Confidence(n: Nutrient): Option<real> {
      match n
      case N => nConfidence
      case P => pConfidence
      case K => kConfidence
      case Mg => mgConfidence
    }

    /** `bool(scan)`: a dictionary is true exactly when it has a key. */
    predicate Truthy() {
      || nScore.Some? || pScore.Some? || kScore.Some? || mgScore.Some?
      || nSeverity.Some? || pSeverity.Some? || kSeverity.Some? || mgSeverity.Some?
      || nConfidence.Some? || pConfidence.Some? || kConfidence.Some? || mgConfidence.Some?
      || createdAt.Some? || otherKeys
    }
  }

  /** The nutrients a scan is reported on: n, p and k always, mg when the
      row has an `mg_score` key. */
  function NutrientsOf(s: Scan): (r: seq<Nutrient>)
    ensures |r| >= 3 && r[..3] == [N, P, K]
    ensures Mg in r <==> s.mgScore.Some?
    ensures forall i :: 0 <= i < |r| ==> r[i].Index() == i
  {
    if s.mgScore.Some? then [N, P, K, Mg] else [N, P, K]
  }

  // ------------------------------------------------------------------
  // Health classification
  // ------------------------------------------------------------------

  datatype HealthStatus = Critical | Attention | Healthy {
    function Name(): string {
      match this
      case Critical => "critical"
      case Attention => "attention"
      case Healthy => "healthy"
    }

    /** `status.title()` */
    function Title(): string {
      match this
      case Critical => "Critical"
      case Attention => "Attention"
      case Healthy => "Healthy"
    }

    /** Critical < Attention < Healthy. */
    function Rank(): nat {
      match this
      case Critical => 0
      case Attention => 1
      case Healthy => 2
    }
  }

  /** The tier an overall score falls in. */
  function StatusOf(c: Config, score: real): HealthStatus {
    if score < c.attentionMin then Critical
    else if score < c.healthyMin then Attention
    else Healthy
  }

  /** In a well-formed configuration the three tiers are the three bands
      below `attentionMin`, from it up to `healthyMin`, and from `healthyMin`. */
  lemma StatusBands(c: Config, score: real)
    requires WellFormed(c)
    ensures StatusOf(c, score) == Critical <==> score < c.attentionMin
    ensures StatusOf(c, score) == Attention <==> c.attentionMin <= score < c.healthyMin
    ensures StatusOf(c, score) == Healthy <==> c.healthyMin <= score
  {
  }

  /** With the built-in thresholds: critical below 50, attention 50 up to
      80, healthy from 80. */
  lemma DefaultStatusBands(score: real)
    ensures StatusOf(DefaultConfig(), score) == Critical <==> score < 50.0
    ensures StatusOf(DefaultConfig(), score) == Attention <==> 50.0 <= score < 80.0
    ensures StatusOf(DefaultConfig(), score) == Healthy <==> 80.0 <= score
  {
  }

  /** A higher score never lands in a worse tier. */
  lemma StatusMonotone(c: Config, a: real, b: real)
    requires WellFormed(c) && a <= b
    ensures StatusOf(c, a).Rank() <= StatusOf(c, b).Rank()
  {
  }

  function TextOf(c: Config, st: HealthStatus): TierText {
    match st
    case Critical => c.criticalText
    case Attention => c.attentionText
    case Healthy => c.healthyText
  }

  function IntervalOf(c: Config, st: HealthStatus): Interval {
    match st
    case Critical => c.rescanCritical
    case Attention => c.rescanAttention
    case Healthy => c.rescanHealthy
  }

  /** `(min_days + max_days) // 2`; Python's floor division by 2 and
      Dafny's `/` by a positive divisor agree on every integer. */
  function Midpoint(iv: Interval): (r: int)
    ensures iv.minDays <= iv.maxDays ==> iv.minDays <= r <= iv.maxDays
  {
    (iv.minDays + iv.maxDays) / 2
  }

  /** The three dates of a window opened on day `base` are representable. */
  predicate WindowFits(base: int, iv: Interval) {
    && 1 <= base + iv.minDays <= Calendar.MaxOrdinal
    && 1 <= base + iv.maxDays <= Calendar.MaxOrdinal
    && 1 <= base + Midpoint(iv) <= Calendar.MaxOrdinal
  }

  /** The rendered days of a rescan window: when it opens, when it closes,
      and the recommended day at its midpoint. */
  datatype Window = Window(minDate: string, maxDate: string, recommended: string)

  function WindowDates(base: int, iv: Interval): (w: Window)
    requires WindowFits(base, iv)
    ensures w.minDate == Calendar.IsoDate(base + iv.minDays)
    ensures w.maxDate == Calendar.IsoDate(base + iv.maxDays)
    ensures w.recommended == Calendar.IsoDate(base + Midpoint(iv))
  {
    Window(
      Calendar.IsoDate(base + iv.minDays),
      Calendar.IsoDate(base + iv.maxDays),
      Calendar.IsoDate(base + Midpoint(iv)))
  }

  datatype HealthClassification = HealthClassification(
    status: HealthStatus,
    caption: string,
    captionHi: string,
    color: string,
    severity: string,
    rescanInterval: string,
    rescanIntervalHi: string,
    nextScan: Window)     // recommended_next_scan, _min and _max

  /**
   * `classify_health`, with the current date passed in as the ordinal
   * `today`. The dates are the days the window of the score's tier opens,
   * closes and (at its midpoint) is best rescanned; `Midpoint` keeps the
   * last inside the window.
   */
  function ClassifyHealth(c: Config, score: real, today: int): (r: HealthClassification)
    requires WindowFits(today, IntervalOf(c, StatusOf(c, score)))
    ensures r.status == StatusOf(c, score)
    ensures r.nextScan == WindowDates(today, IntervalOf(c, r.status))
    ensures r.caption == TextOf(c, r.status).caption.GetOr(r.status.Title())
    ensures r.captionHi == TextOf(c, r.status).captionHi.GetOr(r.status.Title())
    ensures r.color == TextOf(c, r.status).color.GetOr("#6B7280")
    ensures r.severity == TextOf(c, r.status).severity.GetOr(r.status.Name())
    ensures r.rescanInterval
              == IntervalOf(c, r.status).caption.GetOr(IntToString(Midpoint(IntervalOf(c, r.status))) + " days")
    ensures r.rescanIntervalHi
              == IntervalOf(c, r.status).captionHi.GetOr(IntToString(Midpoint(IntervalOf(c, r.status))) + " दिन")
  {
    var st := StatusOf(c, score);
    var text := TextOf(c, st);
    var iv := IntervalOf(c, st);
    var avg := Midpoint(iv);
    HealthClassification(
      st,
      text.caption.GetOr(st.Title()),
      text.captionHi.GetOr(st.Title()),
      text.color.GetOr("#6B7280"),
      text.severity.GetOr(st.Name()),
      iv.caption.GetOr(IntToString(avg) + " days"),
      iv.captionHi.GetOr(IntToString(avg) + " दिन"),
      WindowDates(today, iv))
  }

  // ------------------------------------------------------------------
  // Nutrient classification
  // ------------------------------------------------------------------

  datatype NutrientStatus = Deficient | Optimal | Excess
  datatype NutrientAction = RecommendFertilizer | NoAction | AvoidFertilization

  datatype NutrientClassification = NutrientClassification(
    status: NutrientStatus,
    action: NutrientAction,
    caption: string,
    captionHi: string,
    needsFertilizer: bool,
    warning: Option<string>)

  /**
   * `classify_nutrient`: the score is read as a deficiency percentage and
   * turned into a health value `100 - score`, which is compared with the
   * nutrient tiers. Fertilizer is asked for exactly when the nutrient is
   * deficient, and only an excess carries a warning.
   */
  function ClassifyNutrient(c: Config, score: real): (r: NutrientClassification)
    ensures r.needsFertilizer <==> r.status == Deficient
    ensures r.warning.Some? <==> r.status == Excess
    ensures r.action == RecommendFertilizer <==> r.status == Deficient
    ensures r.action == AvoidFertilization <==> r.status == Excess
    ensures r.status == Deficient <==> 100.0 - score <= c.deficientMax
    ensures r.status == Optimal <==> c.deficientMax < 100.0 - score <= c.optimalMax
    ensures r.status == Excess <==> c.deficientMax < 100.0 - score && c.optimalMax < 100.0 - score
    ensures r.status == Deficient ==>
              r.caption == c.deficientText.caption.GetOr("Deficient")
              && r.captionHi == c.deficientText.captionHi.GetOr("कमी")
    ensures r.status == Optimal ==>
              r.caption == c.optimalText.caption.GetOr("Optimal")
              && r.captionHi == c.optimalText.captionHi.GetOr("उचित")
    ensures r.status == Excess ==>
              r.caption == c.excessText.caption.GetOr("Excess")
              && r.captionHi == c.excessText.captionHi.GetOr("अधिक")
    ensures r.warning.Some? ==> r.warning.value == "Avoid additional fertilization"
  {
    var health := 100.0 - score;
    if health <= c.deficientMax then
      NutrientClassification(Deficient, RecommendFertilizer,
        c.deficientText.caption.GetOr("Deficient"), c.deficientText.captionHi.GetOr("कमी"),
        true, None)
    else if health <= c.optimalMax then
      NutrientClassification(Optimal, NoAction,
        c.optimalText.caption.GetOr("Optimal"), c.optimalText.captionHi.GetOr("उचित"),
        false, None)
    else
      NutrientClassification(Excess, AvoidFertilization,
        c.excessText.caption.GetOr("Excess"), c.excessText.captionHi.GetOr("अधिक"),
        false, Some("Avoid additional fertilization"))
  }

  /** With the built-in thresholds a deficiency of 60 or more is deficient,
      20 up to 60 is optimal, and below 20 is an excess. */
  lemma DefaultNutrientBands(score: real)
    ensures ClassifyNutrient(DefaultConfig(), score).status == Deficient <==> 60.0 <= score
    ensures ClassifyNutrient(DefaultConfig(), score).status == Optimal <==> 20.0 <= score < 60.0
    ensures ClassifyNutrient(DefaultConfig(), score).status == Excess <==> score < 20.0
  {
  }

  /** Scores are stored as fractions, but `ClassifyNutrient` reads its
      argument as a percentage: with the built-in thresholds every stored
      fraction classifies as an excess. */
  lemma StoredFractionIsExcess(x: real)
    requires 0.0 <= x <= 1.0
    ensures ClassifyNutrient(DefaultConfig(), x).status == Excess
    ensures !ClassifyNutrient(DefaultConfig(), x).needsFertilizer
  {
  }

  // ------------------------------------------------------------------
  // Trends
  // ------------------------------------------------------------------

  datatype Direction = Stable | Increase | Decrease
  datatype Significance = NoChange | Minor | Significant

  datatype Trend = Trend(
    delta: real,
    deltaPercent: real,
    direction: Direction,
    significance: Significance,
    arrow: string)

  function Abs(x: real): real {
    if x < 0.0 then -x else x
  }

  /**
   * `calculate_trend`: a change within `epsilon` either way is stable; a
   * larger one is an increase or a decrease, and it is significant when it
   * reaches `significant_increase` (10 unless configured) or
   * `significant_decrease` (-10 unless configured). The percentage change
   * is relative to `previous`, and 0 when `previous` is 0.
   */
  function CalculateTrend(c: Config, current: real, previous: real): (r: Trend)
    ensures r.delta == current - previous
    ensures previous != 0.0 ==> r.deltaPercent * previous == r.delta * 100.0
    ensures previous == 0.0 ==> r.deltaPercent == 0.0
    ensures r.direction == Stable <==> Abs(r.delta) <= c.epsilon
    ensures r.direction == Stable <==> r.significance == NoChange
    ensures r.direction == Increase ==>
              (r.significance == Significant <==> r.delta >= c.significantIncrease.GetOr(10.0))
    ensures r.direction == Decrease ==>
              (r.significance == Significant <==> r.delta <= c.significantDecrease.GetOr(-10.0))
  {
    var delta := current - previous;
    var sigInc := c.significantIncrease.GetOr(10.0);
    var sigDec := c.significantDecrease.GetOr(-10.0);
    var direction :=
      if Abs(delta) <= c.epsilon then Stable
      else if delta > 0.0 then Increase
      else Decrease;
    var significance :=
      if direction == Stable then NoChange
      else if direction == Increase then (if delta >= sigInc then Significant else Minor)
      else (if delta <= sigDec then Significant else Minor);
    Trend(
      delta,
      if previous != 0.0 then delta / previous * 100.0 else 0.0,
      direction,
      significance,
      if delta > c.epsilon then "↑" else if delta < -c.epsilon then "↓" else "→")
  }

  /** With a non-negative `epsilon`, the direction is decided by the sign of
      the change beyond the dead band, and the arrow always agrees with it. */
  lemma TrendArrowAgrees(c: Config, current: real, previous: real)
    requires 0.0 <= c.epsilon
    ensures var t := CalculateTrend(c, current, previous);
      && (t.direction == Increase <==> t.delta > c.epsilon)
      && (t.direction == Decrease <==> t.delta < -c.epsilon)
      && (t.arrow == "↑" <==> t.direction == Increase)
      && (t.arrow == "↓" <==> t.direction == Decrease)
      && (t.arrow == "→" <==> t.direction == Stable)
  {
  }

  /** Swapping the two values swaps increase and decrease and keeps a
      stable trend stable. */
  lemma TrendSwap(c: Config, a: real, b: real)
    requires 0.0 <= c.epsilon
    ensures CalculateTrend(c, a, b).direction == Stable <==> CalculateTrend(c, b, a).direction == Stable
    ensures CalculateTrend(c, a, b).direction == Increase <==> CalculateTrend(c, b, a).direction == Decrease
  {
  }

  // ------------------------------------------------------------------
  // Overall score
  // ------------------------------------------------------------------

  /** A stored score of at most 1 is a fraction and is scaled to a percentage. */
  function Percent(x: real): real {
    if x <= 1.0 then x * 100.0 else x
  }

  function Sum(xs: seq<real>): real {
    if xs == [] then 0.0 else xs[0] + Sum(xs[1..])
  }

  /** The health values the overall score averages: one per reported
      nutrient, a missing n, p or k score counting as 0. */
  function HealthValues(s: Scan): (r: seq<real>)
    ensures |r| == |NutrientsOf(s)|
    ensures forall i :: 0 <= i < |r| ==> r[i] == 100.0 - Percent(s.Score(NutrientsOf(s)[i]).GetOr(0.0))
  {
    var ns := NutrientsOf(s);
    seq(|ns|, i requires 0 <= i < |ns| => 100.0 - Percent(s.Score(ns[i]).GetOr(0.0)))
  }

  /** `calculate_overall_score`: the unweighted mean of the health values
      of the reported nutrients, magnesium included exactly when present. */
  function OverallScore(s: Scan): (r: real)
    ensures r * (|HealthValues(s)| as real) == Sum(HealthValues(s))
  {
    var n := Percent(s.nScore.GetOr(0.0));
    var p := Percent(s.pScore.GetOr(0.0));
    var k := Percent(s.kScore.GetOr(0.0));
    var h := HealthValues(s);
    if s.mgScore.Some? then
      assert h[1..][1..][1..][1..] == [];
      assert Sum(h[1..][1..][1..]) == h[3];
      assert Sum(h[1..][1..]) == h[2] + h[3];
      assert Sum(h) == h[0] + h[1] + h[2] + h[3];
      ((100.0 - n) + (100.0 - p) + (100.0 - k) + (100.0 - Percent(s.mgScore.value))) / 4.0
    else
      assert h[1..][1..][1..] == [];
      assert Sum(h[1..][1..]) == h[2];
      assert Sum(h) == h[0] + h[1] + h[2];
      ((100.0 - n) + (100.0 - p) + (100.0 - k)) / 3.0
  }

  lemma {:induction false} SumBounds(xs: seq<real>, lo: real, hi: real)
    requires forall i :: 0 <= i < |xs| ==> lo <= xs[i] <= hi
    ensures lo * (|xs| as real) <= Sum(xs) <= hi * (|xs| as real)
  {
    if xs != [] {
      SumBounds(xs[1..], lo, hi);
    }
  }

  /** Scores between 0 and 100, stored either way, give an overall score
      between 0 and 100. */
  lemma OverallScoreBounded(s: Scan)
    requires forall n: Nutrient :: s.Score(n).Some? ==> 0.0 <= s.Score(n).value <= 100.0
    ensures 0.0 <= OverallScore(s) <= 100.0
  {
    var h := HealthValues(s);
    forall i | 0 <= i < |h|
      ensures 0.0 <= h[i] <= 100.0
    {
      var n := NutrientsOf(s)[i];
      assert s.Score(n).Some? ==> 0.0 <= s.Score(n).value <= 100.0;
    }
    SumBounds(h, 0.0, 100.0);
  }

  // ------------------------------------------------------------------
  // Comparison with earlier scans
  // ------------------------------------------------------------------

  /** How one nutrient compares with an earlier scan: the trend, the
      earlier value and the earlier scan's date (`""` when it has none). */
  datatype PastPoint = PastPoint(trend: Trend, value: real, date: string)

  datatype NutrientComparison = NutrientComparison(
    current: real,
    vsPrevious: Option<PastPoint>,
    vsBaseline: Option<PastPoint>)

  datatype Comparison = Comparison(
    hasHistory: bool,
    hasBaseline: bool,
    comparisons: map<Nutrient, NutrientComparison>,
    overallTrend: Option<Trend>)

  /** `p` is the comparison of `current` with nutrient `n` of `past`: present
      exactly when there is an earlier scan holding that nutrient's score. */
  predicate ComparedWith(c: Config, current: real, past: Option<Scan>, n: Nutrient, p: Option<PastPoint>) {
    && (p.Some? <==> past.Some? && past.value.Score(n).Some?)
    && (p.Some? ==>
          && p.value.value == past.value.Score(n).value
          && p.value.trend == CalculateTrend(c, current, p.value.value)
          && p.value.date == past.value.createdAt.GetOr(""))
  }

  function PastPointOf(c: Config, current: real, past: Option<Scan>, n: Nutrient): (r: Option<PastPoint>)
    ensures ComparedWith(c, current, past, n, r)
  {
    if past.Some? && past.value.Truthy() && past.value.Score(n).Some? then
      var v := past.value.Score(n).value;
      Some(PastPoint(CalculateTrend(c, current, v), v, past.value.createdAt.GetOr("")))
    else
      None
  }

  /**
   * `compare_scans`: one entry per reported nutrient of the current scan,
   * each compared with the previous and the baseline scan where those hold
   * the nutrient; the overall trend is present exactly when there is a
   * non-empty previous scan.
   */
  method CompareScans(c: Config, current: Scan, previous: Option<Scan>, baseline: Option<Scan>)
    returns (r: Comparison)
    ensures r.hasHistory == previous.Some?
    ensures r.hasBaseline == baseline.Some?
    ensures forall n :: n in r.comparisons <==> n in NutrientsOf(current)
    ensures forall n :: n in r.comparisons ==>
              && r.comparisons[n].current == current.Score(n).GetOr(0.0)
              && ComparedWith(c, r.comparisons[n].current, previous, n, r.comparisons[n].vsPrevious)
              && ComparedWith(c, r.comparisons[n].current, baseline, n, r.comparisons[n].vsBaseline)
    ensures r.overallTrend.Some? <==> previous.Some? && previous.value.Truthy()
    ensures r.overallTrend.Some? ==>
              r.overallTrend.value == CalculateTrend(c, OverallScore(current), OverallScore(previous.value))
  {
    var nutrients := NutrientsOf(current);
    var comparisons: map<Nutrient, NutrientComparison> := map[];
    var i := 0;
    while i < |nutrients|
      invariant 0 <= i <= |nutrients|
      invariant forall n :: n in comparisons <==> n in nutrients[..i]
      invariant forall n :: n in comparisons ==>
                  && comparisons[n].current == current.Score(n).GetOr(0.0)
                  && ComparedWith(c, comparisons[n].current, previous, n, comparisons[n].vsPrevious)
                  && ComparedWith(c, comparisons[n].current, baseline, n, comparisons[n].vsBaseline)
    {
      var n := nutrients[i];
      var value := current.Score(n).GetOr(0.0);
      var entry := NutrientComparison(
        value,
        PastPointOf(c, value, previous, n),
        PastPointOf(c, value, baseline, n));
      comparisons := comparisons[n := entry];
      assert nutrients[..i + 1] == nutrients[..i] + [n];
      i := i + 1;
    }
    assert nutrients[..i] == nutrients;
    var overall: Option<Trend> := None;
    if previous.Some? && previous.value.Truthy() {
      overall := Some(CalculateTrend(c, OverallScore(current), OverallScore(previous.value)));
    }
    r := Comparison(previous.Some?, baseline.Some?, comparisons, overall);
  }
}
