/**
 * The severity rules the inference modules share: a deficiency score (0 is
 * healthy, 1 is severe) is critical from 0.7 and needs attention from 0.4;
 * a health score (1 is healthy) is critical below 0.5 and needs attention
 * below 0.8. The overall status of four scores is the severity of the
 * worst one.
 */
module Severity {

  /** Per-nutrient values for N, P, K and Mg (deficiencies or health scores). */
  datatype Npk = Npk(n: real, p: real, k: real, mg: real) {
    function Values(): seq<real> {
      [n, p, k, mg]
    }
  }

  datatype Level = Healthy | Attention | Critical {
    function Name(): string {
      match this
      case Healthy => "healthy"
      case Attention => "attention"
      case Critical => "critical"
    }

    /** Healthy < Attention < Critical. */
    function Rank(): nat {
      match this
      case Healthy => 0
      case Attention => 1
      case Critical => 2
    }
  }

  /** The more severe of two levels. */
  function Worst(a: Level, b: Level): (r: Level)
    ensures r.Rank() >= a.Rank() && r.Rank() >= b.Rank()
    ensures r == a || r == b
  {
    if a.Rank() >= b.Rank() then a else b
  }

  const CriticalThreshold: real := 0.7
  const AttentionThreshold: real := 0.4

  /** `get_severity` / `_get_severity` of a deficiency score. */
  function OfDeficiency(score: real): (r: Level)
    ensures r == Critical <==> score >= 0.7
    ensures r == Attention <==> 0.4 <= score < 0.7
    ensures r == Healthy <==> score < 0.4
  {
    if score >= CriticalThreshold then Critical
    else if score >= AttentionThreshold then Attention
    else Healthy
  }

  /** A larger deficiency is never milder. */
  lemma OfDeficiencyMonotone(a: real, b: real)
    requires a <= b
    ensures OfDeficiency(a).Rank() <= OfDeficiency(b).Rank()
  {
  }

  /** `_get_severity_from_health` of a health score. */
  function OfHealth(health: real): (r: Level)
    ensures r == Critical <==> health < 0.5
    ensures r == Attention <==> 0.5 <= health < 0.8
    ensures r == Healthy <==> 0.8 <= health
  {
    if health < 0.5 then Critical
    else if health < 0.8 then Attention
    else Healthy
  }

  /** A larger health score is never more severe. */
  lemma OfHealthAntitone(a: real, b: real)
    requires a <= b
    ensures OfHealth(b).Rank() <= OfHealth(a).Rank()
  {
  }

  function Max2(a: real, b: real): real {
    if a >= b then a else b
  }

  function Min2(a: real, b: real): real {
    if a <= b then a else b
  }

  /** `max(n, p, k, mg)` */
  function Max4(v: Npk): (r: real)
    ensures r >= v.n && r >= v.p && r >= v.k && r >= v.mg
    ensures r == v.n || r == v.p || r == v.k || r == v.mg
  {
    Max2(Max2(Max2(v.n, v.p), v.k), v.mg)
  }

  /** `min(n, p, k, mg)` */
  function Min4(v: Npk): (r: real)
    ensures r <= v.n && r <= v.p && r <= v.k && r <= v.mg
    ensures r == v.n || r == v.p || r == v.k || r == v.mg
  {
    Min2(Min2(Min2(v.n, v.p), v.k), v.mg)
  }

  /** `determine_overall_status`: the severity of the largest deficiency,
      which is the worst of the four per-nutrient severities, so it is
      never milder than any of them. */
  function OverallStatus(v: Npk): (r: Level)
    ensures r == Worst(Worst(Worst(OfDeficiency(v.n), OfDeficiency(v.p)), OfDeficiency(v.k)), OfDeficiency(v.mg))
  {
    OfDeficiencyMonotone(v.n, Max4(v));
    OfDeficiencyMonotone(v.p, Max4(v));
    OfDeficiencyMonotone(v.k, Max4(v));
    OfDeficiencyMonotone(v.mg, Max4(v));
    OfDeficiency(Max4(v))
  }

  /** The status computed from the smallest health score is the worst of the
      four per-nutrient health severities. */
  lemma {:induction false} MinHealthIsWorst(h: Npk)
    ensures OfHealth(Min4(h))
      == Worst(Worst(Worst(OfHealth(h.n), OfHealth(h.p)), OfHealth(h.k)), OfHealth(h.mg))
  {
    OfHealthAntitone(Min4(h), h.n);
    OfHealthAntitone(Min4(h), h.p);
    OfHealthAntitone(Min4(h), h.k);
    OfHealthAntitone(Min4(h), h.mg);
  }

  /** `get_severity_color`: a fixed colour per known level name, grey for
      any other string. */
  function SeverityColor(severity: string): (r: string)
    ensures severity != "critical" && severity != "attention" && severity != "healthy" ==> r == "#6B7280"
    ensures r != "#6B7280" <==> severity in {"critical", "attention", "healthy"}
  {
    if severity == "critical" then "#D63D3D"
    else if severity == "attention" then "#F5A623"
    else if severity == "healthy" then "#208F78"
    else "#6B7280"
  }

  /** The three level names get three different colours. */
  lemma ColorsDistinct()
    ensures SeverityColor(Critical.Name()) != SeverityColor(Attention.Name())
    ensures SeverityColor(Attention.Name()) != SeverityColor(Healthy.Name())
    ensures SeverityColor(Critical.Name()) != SeverityColor(Healthy.Name())
  {
  }
}
