/**
 * The recommendation and reporting half of the health engine: rescan
 * windows, fertilizer recommendations ordered by priority, the report that
 * aggregates a scan, and the data behind the charts.
 */
module HealthReport {
  import opened Optional
  import opened Text
  import Calendar
  import opened HealthConfig
  import opened HealthEngine

  /** The `"high"`, `"medium"`, `"low"` of urgencies and priorities. */
  datatype Level = High | Medium | Low {
    function Name(): string {
      match this
      case High => "high"
      case Medium => "medium"
      case Low => "low"
    }

    /** The sort key `{"high": 0, "medium": 1, "low": 2}`. */
    function Rank(): nat {
      match this
      case High => 0
      case Medium => 1
      case Low => 2
    }
  }

  // ------------------------------------------------------------------
  // Rescan recommendation
  // ------------------------------------------------------------------

  /** The rescan tier named by a status string, in any letter case:
      `unhealthy`/`critical`, `good`/`healthy`, and everything else
      (including `average` and `attention`) falls back to attention. */
  function RescanKey(status: string): (r: HealthStatus)
    ensures r == Critical <==> Lower(status) == "unhealthy" || Lower(status) == "critical"
    ensures r == Healthy <==> Lower(status) == "good" || Lower(status) == "healthy"
  {
    var key := Lower(status);
    if key == "unhealthy" || key == "critical" then Critical
    else if key == "good" || key == "healthy" then Healthy
    else Attention
  }

  /** The names the classifier writes select their own tier again, so a
      report's rescan window is the one of its classification. */
  lemma RescanKeyOfStatusName(st: HealthStatus)
    ensures RescanKey(st.Name()) == st
  {
    match st
    case Critical =>
      assert Lower("critical") == "critical";
    case Attention =>
      assert Lower("attention") == "attention";
      assert "attention" != "unhealthy" && "attention" != "critical";
      assert "attention" != "good" && "attention" != "healthy";
    case Healthy =>
      assert Lower("healthy") == "healthy";
  }

  function UrgencyOf(st: HealthStatus): Level {
    match st
    case Critical => High
    case Attention => Medium
    case Healthy => Low
  }

  datatype RescanRecommendation = RescanRecommendation(
    intervalCaption: string,
    intervalCaptionHi: string,
    window: Window,
    urgency: Level)

  /**
   * `generate_rescan_recommendation`: the window of the status's tier,
   * counted from the last scan's day or, without one, from `today`. The
   * urgency is high exactly for the critical tier and low exactly for the
   * healthy one. A tier without its own label is captioned "15-20 days",
   * whatever its window.
   */
  function RescanRecommendationFor(c: Config, status: string, lastScan: Option<int>, today: int)
    : (r: RescanRecommendation)
    requires WindowFits(lastScan.GetOr(today), IntervalOf(c, RescanKey(status)))
    ensures r.window == WindowDates(lastScan.GetOr(today), IntervalOf(c, RescanKey(status)))
    ensures r.urgency == High <==> RescanKey(status) == Critical
    ensures r.urgency == Low <==> RescanKey(status) == Healthy
    ensures r.intervalCaption == IntervalOf(c, RescanKey(status)).caption.GetOr("15-20 days")
    ensures r.intervalCaptionHi == IntervalOf(c, RescanKey(status)).captionHi.GetOr("15-20 दिन")
  {
    var key := RescanKey(status);
    var iv := IntervalOf(c, key);
    RescanRecommendation(
      iv.caption.GetOr("15-20 days"),
      iv.captionHi.GetOr("15-20 दिन"),
      WindowDates(lastScan.GetOr(today), iv),
      UrgencyOf(key))
  }

  // ------------------------------------------------------------------
  // Fertilizer recommendations
  // ------------------------------------------------------------------

  datatype FertilizerAction = Apply | Avoid  // "apply_fertilizer", "avoid_fertilization"

  datatype FertilizerRec = FertilizerRec(
    nutrient: Nutrient,
    name: string,
    nameHi: string,
    score: real,
    severity: string,
    action: FertilizerAction,
    actionCaption: string,
    actionCaptionHi: string,
    priority: Level)

  /** English and Hindi nutrient names. */
  function NutrientName(n: Nutrient): (string, string) {
    match n
    case N => ("Nitrogen", "नाइट्रोजन")
    case P => ("Phosphorus", "फॉस्फोरस")
    case K => ("Potassium", "पोटेशियम")
    case Mg => ("Magnesium", "मैग्नीशियम")
  }

  /** A nutrient asks for fertilizer when `ClassifyNutrient` says so or the
      scan rates it `attention` or `critical`. */
  predicate Triggered(c: Config, s: Scan, n: Nutrient) {
    var severity := s.Severity(n).GetOr("healthy");
    ClassifyNutrient(c, s.Score(n).GetOr(0.0)).needsFertilizer
      || severity == "attention" || severity == "critical"
  }

  /** The recommendation for one nutrient, before sorting. */
  function Candidate(c: Config, s: Scan, n: Nutrient): Option<FertilizerRec> {
    var score := s.Score(n).GetOr(0.0);
    var severity := s.Severity(n).GetOr("healthy");
    var (en, hi) := NutrientName(n);
    if Triggered(c, s, n) then
      Some(FertilizerRec(n, en, hi, score, severity, Apply,
        "Apply " + en + " fertilizer", hi + " उर्वरक डालें",
        if severity == "critical" then High else Medium))
    else if ClassifyNutrient(c, score).status == Excess then
      Some(FertilizerRec(n, en, hi, score, "excess", Avoid,
        "Avoid " + en + " fertilization", hi + " उर्वरक न डालें", Low))
    else
      None
  }

  /** Which nutrients get a recommendation, of which kind and priority:
      an application exactly when triggered, at high priority exactly when
      the scan rates the nutrient critical; otherwise a low-priority warning
      exactly when the nutrient is in excess. */
  lemma CandidateCases(c: Config, s: Scan, n: Nutrient)
    ensures var r := Candidate(c, s, n);
      && (r.Some? && r.value.action == Apply <==> Triggered(c, s, n))
      && (r.Some? && r.value.action == Avoid <==>
            !Triggered(c, s, n) && ClassifyNutrient(c, s.Score(n).GetOr(0.0)).status == Excess)
      && (r.Some? ==> r.value.nutrient == n)
      && (r.Some? ==> (r.value.priority == High <==> s.Severity(n) == Some("critical")))
      && (r.Some? ==> (r.value.priority == Low <==> r.value.action == Avoid))
  {
  }

  function OptionToSeq<T>(o: Option<T>): seq<T> {
    if o.Some? then [o.value] else []
  }

  /** The recommendations in nutrient order, as the loop collects them. */
  function Candidates(c: Config, s: Scan, ns: seq<Nutrient>): seq<FertilizerRec> {
    if ns == [] then []
    else Candidates(c, s, ns[..|ns| - 1]) + OptionToSeq(Candidate(c, s, ns[|ns| - 1]))
  }

  /** The collected recommendations keep the order of the nutrients they
      come from, so no nutrient is recommended twice. */
  lemma {:induction false} CandidatesInNutrientOrder(c: Config, s: Scan, ns: seq<Nutrient>)
    requires forall i, j :: 0 <= i < j < |ns| ==> ns[i].Index() < ns[j].Index()
    ensures forall i :: 0 <= i < |Candidates(c, s, ns)| ==> Candidates(c, s, ns)[i].nutrient in ns
    ensures forall i, j :: 0 <= i < j < |Candidates(c, s, ns)| ==>
              Candidates(c, s, ns)[i].nutrient.Index() < Candidates(c, s, ns)[j].nutrient.Index()
  {
    if ns != [] {
      var init, last := ns[..|ns| - 1], ns[|ns| - 1];
      assert forall i :: 0 <= i < |init| ==> init[i] == ns[i];
      CandidatesInNutrientOrder(c, s, init);
      var xs := Candidates(c, s, init);
      var tail := OptionToSeq(Candidate(c, s, last));
      CandidateCases(c, s, last);
      assert forall k :: 0 <= k < |tail| ==> tail[k].nutrient == last;
      forall i | 0 <= i < |xs|
        ensures xs[i].nutrient in ns && xs[i].nutrient.Index() < last.Index()
      {
        var k :| 0 <= k < |init| && init[k] == xs[i].nutrient;
        assert ns[k] == init[k];
      }
      var all := xs + tail;
      assert Candidates(c, s, ns) == all;
      forall i, j | 0 <= i < j < |all|
        ensures all[i].nutrient.Index() < all[j].nutrient.Index()
      {
        if j < |xs| {
          assert all[i] == xs[i] && all[j] == xs[j];
        } else {
          assert all[i] == xs[i] && all[j] == tail[j - |xs|];
        }
      }
      forall i | 0 <= i < |all|
        ensures all[i].nutrient in ns
      {
        if i >= |xs| {
          assert all[i] == tail[i - |xs|];
        }
      }
    }
  }

  /** Every recommendation is an application or a warning, and only the
      warnings have low priority. */
  predicate WellTagged(xs: seq<FertilizerRec>) {
    forall i :: 0 <= i < |xs| ==> (xs[i].priority == Low <==> xs[i].action == Avoid)
  }

  lemma {:induction false} CandidatesWellTagged(c: Config, s: Scan, ns: seq<Nutrient>)
    ensures WellTagged(Candidates(c, s, ns))
  {
    if ns != [] {
      CandidatesWellTagged(c, s, ns[..|ns| - 1]);
      CandidateCases(c, s, ns[|ns| - 1]);
    }
  }

  /** The recommendations of one priority, in their original order. */
  function WithPriority(xs: seq<FertilizerRec>, l: Level): (r: seq<FertilizerRec>)
    ensures |r| <= |xs|
    ensures forall i :: 0 <= i < |r| ==> r[i].priority == l
  {
    if xs == [] then []
    else (if xs[0].priority == l then [xs[0]] else []) + WithPriority(xs[1..], l)
  }

  /** `sort(key=priority_order)`: Python's sort is stable, so sorting by
      the three priorities is the concatenation of the three priority groups,
      each in its original order. */
  function ByPriority(xs: seq<FertilizerRec>): (r: seq<FertilizerRec>)
    ensures SortedByPriority(r)
    ensures multiset(r) == multiset(xs)
    ensures forall l :: WithPriority(r, l) == WithPriority(xs, l)
  {
    GroupsSorted(xs);
    WithPriorityMultiset(xs);
    GroupsStable(xs);
    WithPriority(xs, High) + WithPriority(xs, Medium) + WithPriority(xs, Low)
  }

  predicate SortedByPriority(xs: seq<FertilizerRec>) {
    forall i, j :: 0 <= i < j < |xs| ==> xs[i].priority.Rank() <= xs[j].priority.Rank()
  }

  lemma {:induction false} WithPriorityAppend(a: seq<FertilizerRec>, b: seq<FertilizerRec>, l: Level)
    ensures WithPriority(a + b, l) == WithPriority(a, l) + WithPriority(b, l)
  {
    if a == [] {
      assert a + b == b;
    } else {
      var head := if a[0].priority == l then [a[0]] else [];
      assert (a + b)[0] == a[0];
      assert (a + b)[1..] == a[1..] + b;
      WithPriorityAppend(a[1..], b, l);
      calc {
        WithPriority(a + b, l);
        head + WithPriority(a[1..] + b, l);
        head + (WithPriority(a[1..], l) + WithPriority(b, l));
        (head + WithPriority(a[1..], l)) + WithPriority(b, l);
      }
    }
  }

  lemma {:induction false} WithPriorityTwice(xs: seq<FertilizerRec>, l: Level, m: Level)
    ensures WithPriority(WithPriority(xs, l), m) == if l == m then WithPriority(xs, l) else []
  {
    if xs != [] {
      WithPriorityTwice(xs[1..], l, m);
      var head := if xs[0].priority == l then [xs[0]] else [];
      WithPriorityAppend(head, WithPriority(xs[1..], l), m);
    }
  }

  lemma {:induction false} WithPriorityMultiset(xs: seq<FertilizerRec>)
    ensures multiset(WithPriority(xs, High)) + multiset(WithPriority(xs, Medium))
              + multiset(WithPriority(xs, Low)) == multiset(xs)
  {
    if xs != [] {
      var x, t := xs[0], xs[1..];
      WithPriorityMultiset(t);
      assert xs == [x] + t;
      assert multiset(xs) == multiset{x} + multiset(t);
      match x.priority
      case High =>
        assert WithPriority(xs, High) == [x] + WithPriority(t, High);
        assert WithPriority(xs, Medium) == WithPriority(t, Medium);
        assert WithPriority(xs, Low) == WithPriority(t, Low);
      case Medium =>
        assert WithPriority(xs, High) == WithPriority(t, High);
        assert WithPriority(xs, Medium) == [x] + WithPriority(t, Medium);
        assert WithPriority(xs, Low) == WithPriority(t, Low);
      case Low =>
        assert WithPriority(xs, High) == WithPriority(t, High);
        assert WithPriority(xs, Medium) == WithPriority(t, Medium);
        assert WithPriority(xs, Low) == [x] + WithPriority(t, Low);
    }
  }

  /** The three priority groups, laid end to end, run high, then medium,
      then low. */
  lemma GroupsSorted(xs: seq<FertilizerRec>)
    ensures SortedByPriority(WithPriority(xs, High) + WithPriority(xs, Medium) + WithPriority(xs, Low))
  {
    var h, m, o := WithPriority(xs, High), WithPriority(xs, Medium), WithPriority(xs, Low);
    var r := h + m + o;
    forall i | 0 <= i < |r|
      ensures r[i].priority.Rank() == if i < |h| then 0 else if i < |h| + |m| then 1 else 2
    {
      if i < |h| {
        assert r[i] == h[i];
      } else if i < |h| + |m| {
        assert r[i] == m[i - |h|];
      } else {
        assert r[i] == o[i - |h| - |m|];
      }
    }
  }

  /** Laying the three priority groups end to end keeps each priority's
      elements in their input order. */
  lemma GroupsStable(xs: seq<FertilizerRec>)
    ensures forall l :: WithPriority(WithPriority(xs, High) + WithPriority(xs, Medium) + WithPriority(xs, Low), l)
                        == WithPriority(xs, l)
  {
    var h, m, o := WithPriority(xs, High), WithPriority(xs, Medium), WithPriority(xs, Low);
    forall l
      ensures WithPriority(h + m + o, l) == WithPriority(xs, l)
    {
      WithPriorityAppend(h + m, o, l);
      WithPriorityAppend(h, m, l);
      WithPriorityTwice(xs, High, l);
      WithPriorityTwice(xs, Medium, l);
      WithPriorityTwice(xs, Low, l);
    }
  }

  /**
   * `generate_fertilizer_recommendations`: the nutrients' recommendations,
   * collected in n, p, k, mg order and then sorted by priority. (The crop
   * passed to the source function is not used by it and is not a parameter
   * here.)
   */
  method FertilizerRecommendations(c: Config, s: Scan) returns (recs: seq<FertilizerRec>)
    ensures recs == ByPriority(Candidates(c, s, NutrientsOf(s)))
  {
    var nutrients := NutrientsOf(s);
    var collected: seq<FertilizerRec> := [];
    var i := 0;
    while i < |nutrients|
      invariant 0 <= i <= |nutrients|
      invariant collected == Candidates(c, s, nutrients[..i])
    {
      var rec := Candidate(c, s, nutrients[i]);
      if rec.Some? {
        collected := collected + [rec.value];
      }
      assert nutrients[..i + 1][..i] == nutrients[..i];
      i := i + 1;
    }
    assert nutrients[..i] == nutrients;
    recs := ByPriority(collected);
  }

  /** Recommendations of the same priority stay in n, p, k, mg order. */
  lemma FertilizerTiesInNutrientOrder(c: Config, s: Scan, l: Level)
    ensures var ties := WithPriority(ByPriority(Candidates(c, s, NutrientsOf(s))), l);
      forall i, j :: 0 <= i < j < |ties| ==> ties[i].nutrient.Index() < ties[j].nutrient.Index()
  {
    var ns := NutrientsOf(s);
    var xs := Candidates(c, s, ns);
    CandidatesInNutrientOrder(c, s, ns);
    WithPriorityKeepsOrder(xs, l);
  }

  lemma {:induction false} WithPriorityKeepsOrder(xs: seq<FertilizerRec>, l: Level)
    requires forall i, j :: 0 <= i < j < |xs| ==> xs[i].nutrient.Index() < xs[j].nutrient.Index()
    ensures forall i, j :: 0 <= i < j < |WithPriority(xs, l)| ==>
              WithPriority(xs, l)[i].nutrient.Index() < WithPriority(xs, l)[j].nutrient.Index()
    ensures forall i :: 0 <= i < |WithPriority(xs, l)| ==> WithPriority(xs, l)[i] in xs
  {
    if xs != [] {
      WithPriorityKeepsOrder(xs[1..], l);
      var rest := WithPriority(xs[1..], l);
      forall i | 0 <= i < |rest|
        ensures xs[0].nutrient.Index() < rest[i].nutrient.Index()
      {
        var k :| 0 <= k < |xs[1..]| && xs[1..][k] == rest[i];
        assert xs[k + 1] == rest[i];
      }
    }
  }

  // ------------------------------------------------------------------
  // Report
  // ------------------------------------------------------------------

  datatype FarmerInfo = FarmerInfo(
    farmerId: Option<string>,
    name: string,
    contactInfo: Option<string>,
    location: Option<string>)

  const GuestFarmer := FarmerInfo(None, "Guest User", None, None)

  /** The crop record's `id`, `name`, `name_hi`, `icon` and `season`. */
  datatype CropInfo = CropInfo(
    id: Option<int>,
    name: Option<string>,
    nameHi: Option<string>,
    icon: Option<string>,
    season: Option<string>)

  datatype NutrientReport = NutrientReport(
    score: real,        // deficiency, as a percentage for n, p and k
    confidence: real,
    severity: string,
    healthScore: real)

  datatype Summary = Summary(
    totalIssues: nat,
    criticalNutrients: seq<Nutrient>,
    attentionNutrients: seq<Nutrient>)

  datatype Report = Report(
    farmer: FarmerInfo,
    field: CropInfo,
    scanDate: Option<string>,
    nutrients: map<Nutrient, NutrientReport>,
    overallScore: real,
    classification: HealthClassification,
    comparison: Comparison,
    rescan: RescanRecommendation,
    fertilizer: seq<FertilizerRec>,
    summary: Summary)

  /** The report entry of one nutrient: n, p and k are shown as percentages,
      magnesium as stored. */
  function NutrientReportOf(s: Scan, n: Nutrient): (r: NutrientReport)
    ensures r.score + r.healthScore == 100.0
    ensures n != Mg ==> r.score == Percent(s.Score(n).GetOr(0.0))
    ensures n == Mg ==> r.score == s.mgScore.GetOr(0.0)
  {
    var raw := s.Score(n).GetOr(0.0);
    var shown := if n == Mg then raw else Percent(raw);
    NutrientReport(shown, s.Confidence(n).GetOr(0.0), s.Severity(n).GetOr("healthy"), 100.0 - shown)
  }

  /** `len([r for r in recs if r["action"] == "apply_fertilizer"])` */
  function CountApplications(xs: seq<FertilizerRec>): nat {
    if xs == [] then 0
    else (if xs[0].action == Apply then 1 else 0) + CountApplications(xs[1..])
  }

  /** `[r["nutrient"] for r in recs if r["priority"] == l]` */
  function NutrientsAt(xs: seq<FertilizerRec>, l: Level): (r: seq<Nutrient>)
    ensures |r| <= |xs|
  {
    if xs == [] then []
    else (if xs[0].priority == l then [xs[0].nutrient] else []) + NutrientsAt(xs[1..], l)
  }

  /** Every application is either critical or needs attention, so the
      issue count is the length of those two lists together. */
  lemma {:induction false} IssuesAreCriticalPlusAttention(xs: seq<FertilizerRec>)
    requires WellTagged(xs)
    ensures CountApplications(xs) == |NutrientsAt(xs, High)| + |NutrientsAt(xs, Medium)|
  {
    if xs != [] {
      assert WellTagged(xs[1..]) by {
        forall i | 0 <= i < |xs[1..]|
          ensures xs[1..][i].priority == Low <==> xs[1..][i].action == Avoid
        {
          assert xs[1..][i] == xs[i + 1];
        }
      }
      IssuesAreCriticalPlusAttention(xs[1..]);
    }
  }

  lemma {:induction false} WellTaggedByPriority(xs: seq<FertilizerRec>)
    requires WellTagged(xs)
    ensures WellTagged(ByPriority(xs))
  {
    var r := ByPriority(xs);
    forall i | 0 <= i < |r|
      ensures r[i].priority == Low <==> r[i].action == Avoid
    {
      assert r[i] in multiset(xs);
    }
  }

  /** A nutrient listed as critical is one the scan rates `critical`. */
  lemma {:induction false} CriticalListedMeansCritical(c: Config, s: Scan, ns: seq<Nutrient>, n: Nutrient)
    requires n in NutrientsAt(ByPriority(Candidates(c, s, ns)), High)
    ensures s.Severity(n) == Some("critical")
  {
    var xs := Candidates(c, s, ns);
    var r := ByPriority(xs);
    var i := NutrientsAtIndex(r, High, n);
    assert r[i] in multiset(xs);
    var k := CandidateSource(c, s, ns, r[i]);
    CandidateCases(c, s, ns[k]);
  }

  /** A nutrient in `NutrientsAt(xs, l)` comes from an element of priority `l`. */
  lemma {:induction false} NutrientsAtIndex(xs: seq<FertilizerRec>, l: Level, n: Nutrient) returns (i: nat)
    requires n in NutrientsAt(xs, l)
    ensures i < |xs| && xs[i].nutrient == n && xs[i].priority == l
  {
    if xs[0].priority == l && xs[0].nutrient == n {
      i := 0;
    } else {
      var j := NutrientsAtIndex(xs[1..], l, n);
      i := j + 1;
    }
  }

  /** Every collected recommendation is the candidate of one of the nutrients. */
  lemma {:induction false} CandidateSource(c: Config, s: Scan, ns: seq<Nutrient>, x: FertilizerRec)
    returns (k: nat)
    requires x in Candidates(c, s, ns)
    ensures k < |ns| && Candidate(c, s, ns[k]) == Some(x)
  {
    var init := ns[..|ns| - 1];
    if x in Candidates(c, s, init) {
      k := CandidateSource(c, s, init, x);
    } else {
      k := |ns| - 1;
    }
  }

  /** The summary block of a report. */
  function SummaryOf(recs: seq<FertilizerRec>): Summary {
    Summary(CountApplications(recs), NutrientsAt(recs, High), NutrientsAt(recs, Medium))
  }

  /** A report's summary counts as issues exactly its critical and its
      attention nutrients, and a nutrient listed as critical is one the scan
      rates `critical`. */
  lemma FertilizerSummary(c: Config, s: Scan)
    ensures var sum := SummaryOf(ByPriority(Candidates(c, s, NutrientsOf(s))));
      sum.totalIssues == |sum.criticalNutrients| + |sum.attentionNutrients|
    ensures forall n :: n in SummaryOf(ByPriority(Candidates(c, s, NutrientsOf(s)))).criticalNutrients ==>
              s.Severity(n) == Some("critical")
  {
    var ns := NutrientsOf(s);
    CandidatesWellTagged(c, s, ns);
    WellTaggedByPriority(Candidates(c, s, ns));
    IssuesAreCriticalPlusAttention(ByPriority(Candidates(c, s, ns)));
    forall n | n in NutrientsAt(ByPriority(Candidates(c, s, ns)), High)
      ensures s.Severity(n) == Some("critical")
    {
      CriticalListedMeansCritical(c, s, ns, n);
    }
  }

  /** The per-nutrient block of a report, one entry per reported nutrient. */
  method NutrientReports(s: Scan) returns (m: map<Nutrient, NutrientReport>)
    ensures forall n :: n in m <==> n in NutrientsOf(s)
    ensures forall n :: n in m ==> m[n] == NutrientReportOf(s, n)
  {
    m := map[];
    var ns := NutrientsOf(s);
    var i := 0;
    while i < |ns|
      invariant 0 <= i <= |ns|
      invariant forall n :: n in m <==> n in ns[..i]
      invariant forall n :: n in m ==> m[n] == NutrientReportOf(s, n)
    {
      m := m[ns[i] := NutrientReportOf(s, ns[i])];
      assert ns[..i + 1] == ns[..i] + [ns[i]];
      i := i + 1;
    }
    assert ns[..i] == ns;
  }

  /** The day a scan's `created_at` denotes, or `today` when it has none;
      `None` when it is present but not an ISO date. */
  function RescanBase(s: Scan, today: int): Option<int> {
    if s.createdAt.Some? then Calendar.ParseIsoDate(s.createdAt.value) else Some(today)
  }

  /** The report can be produced: `created_at`, when present, is an ISO date,
      and the rescan window counted from it stays in the calendar. */
  predicate ReportSucceeds(c: Config, s: Scan, today: int) {
    && RescanBase(s, today).Some?
    && WindowFits(RescanBase(s, today).value, IntervalOf(c, StatusOf(c, OverallScore(s))))
  }

  /**
   * `generate_report_data`, with the current date passed in as `today`.
   * It fails exactly when the scan's `created_at` is not an ISO date, or
   * when the rescan window counted from it leaves the representable
   * calendar. A report shows every reported nutrient with deficiency and
   * health adding up to 100, classifies the overall score, and counts the
   * rescan window of that same classification from the scan's own day.
   */
  method GenerateReport(c: Config, s: Scan, crop: CropInfo, previous: Option<Scan>,
                        baseline: Option<Scan>, farmer: Option<FarmerInfo>, today: int)
    returns (r: Result<Report>)
    requires WindowFits(today, IntervalOf(c, StatusOf(c, OverallScore(s))))
    ensures r.Ok? <==> ReportSucceeds(c, s, today)
    ensures r.Ok? ==>
      && r.value.overallScore == OverallScore(s)
      && r.value.classification == ClassifyHealth(c, OverallScore(s), today)
      && r.value.rescan.window == WindowDates(RescanBase(s, today).value, IntervalOf(c, r.value.classification.status))
      && r.value.rescan.urgency == UrgencyOf(r.value.classification.status)
    ensures r.Ok? ==>
      && r.value.rescan.intervalCaption == IntervalOf(c, r.value.classification.status).caption.GetOr("15-20 days")
      && r.value.rescan.intervalCaptionHi == IntervalOf(c, r.value.classification.status).captionHi.GetOr("15-20 दिन")
      && r.value.field == crop
      && r.value.scanDate == s.createdAt
    ensures r.Ok? ==>
      && (forall n :: n in r.value.nutrients <==> n in NutrientsOf(s))
      && (forall n :: n in r.value.nutrients ==> r.value.nutrients[n] == NutrientReportOf(s, n))
      && (forall n :: n in r.value.nutrients ==>
            r.value.nutrients[n].score + r.value.nutrients[n].healthScore == 100.0)
    ensures r.Ok? ==>
      && r.value.comparison.hasHistory == previous.Some?
      && r.value.comparison.hasBaseline == baseline.Some?
      && (forall n :: n in r.value.comparison.comparisons <==> n in NutrientsOf(s))
      && (forall n :: n in r.value.comparison.comparisons ==>
            var e := r.value.comparison.comparisons[n];
            && e.current == s.Score(n).GetOr(0.0)
            && ComparedWith(c, e.current, previous, n, e.vsPrevious)
            && ComparedWith(c, e.current, baseline, n, e.vsBaseline))
      && (r.value.comparison.overallTrend.Some? <==> previous.Some? && previous.value.Truthy())
      && (r.value.comparison.overallTrend.Some? ==>
            r.value.comparison.overallTrend.value == CalculateTrend(c, OverallScore(s), OverallScore(previous.value)))
    ensures r.Ok? ==>
      && r.value.fertilizer == ByPriority(Candidates(c, s, NutrientsOf(s)))
      && r.value.summary == SummaryOf(r.value.fertilizer)
      && r.value.farmer == farmer.GetOr(GuestFarmer)
  {
    var overall := OverallScore(s);
    var health := ClassifyHealth(c, overall, today);
    var comparison := CompareScans(c, s, previous, baseline);
    var base := RescanBase(s, today);
    if base.None? {
      return Err("Invalid isoformat string");
    }
    var status := health.status.Name();
    RescanKeyOfStatusName(health.status);
    if !WindowFits(base.value, IntervalOf(c, RescanKey(status))) {
      return Err("date value out of range");
    }
    var rescan := RescanRecommendationFor(c, status, base, today);
    var fertilizer := FertilizerRecommendations(c, s);
    var nutrients := NutrientReports(s);
    r := Ok(Report(farmer.GetOr(GuestFarmer), crop, s.createdAt, nutrients, overall,
                   health, comparison, rescan, fertilizer, SummaryOf(fertilizer)));
  }

  // ------------------------------------------------------------------
  // Chart data
  // ------------------------------------------------------------------

  datatype Dataset = Dataset(caption: string, data: seq<real>, color: string)

  /** The radar chart's reference bands. */
  datatype Zones = Zones(
    healthyMin: real, healthyColor: string,
    attentionMin: real, attentionMax: real, attentionColor: string,
    criticalMax: real, criticalColor: string)

  datatype Chart =
    | LineChart(labels: seq<string>, datasets: seq<Dataset>)
    | BarChart(labels: seq<string>, datasets: seq<Dataset>, changes: seq<real>)
    | RadarChart(labels: seq<string>, datasets: seq<Dataset>, zones: Zones)
    | ChartError(kind: string, error: string)

  /** `colors.get(key, default)` */
  function ColorOr(c: Config, key: string, default: string): string {
    if key in c.graphColors then c.graphColors[key] else default
  }

  /** The health a chart shows for a nutrient: the stored score subtracted
      from 100 as it is, without scaling fractions. */
  function ChartHealth(s: Scan, n: Nutrient): real {
    100.0 - s.Score(n).GetOr(0.0)
  }

  /** `s[:10]` */
  function Prefix10(s: string): (r: string)
    ensures |r| <= 10 && |r| <= |s| && r == s[..|r|]
  {
    if |s| <= 10 then s else s[..10]
  }

  const ChartNutrients: seq<Nutrient> := [N, P, K]
  const ChartLabels: seq<string> := ["Nitrogen", "Phosphorus", "Potassium"]

  /** The health of n, p and k in one scan. */
  function HealthTriple(s: Scan): seq<real> {
    [ChartHealth(s, N), ChartHealth(s, P), ChartHealth(s, K)]
  }

  function HealthSeries(scans: seq<Scan>, n: Nutrient): (r: seq<real>)
    ensures |r| == |scans|
    ensures forall i :: 0 <= i < |scans| ==> r[i] == ChartHealth(scans[i], n)
  {
    seq(|scans|, i requires 0 <= i < |scans| => ChartHealth(scans[i], n))
  }

  /**
   * `generate_graph_data`: a line chart of every scan's n, p, k health, a
   * bar chart of the last two scans and their change, or a radar chart of
   * the last scan; a bar chart needs two scans and a radar chart one, and
   * any other kind is an error naming it.
   */
  function GraphData(c: Config, scans: seq<Scan>, kind: string): (r: Chart)
    ensures kind == "line" ==>
              && r.LineChart? && |r.labels| == |scans| && |r.datasets| == 3
              && r.datasets[0].caption == "Nitrogen Health" && r.datasets[0].color == ColorOr(c, "nitrogen", "#E53935")
              && r.datasets[1].caption == "Phosphorus Health" && r.datasets[1].color == ColorOr(c, "phosphorus", "#FB8C00")
              && r.datasets[2].caption == "Potassium Health" && r.datasets[2].color == ColorOr(c, "potassium", "#43A047")
              && (forall i :: 0 <= i < |scans| ==> r.labels[i] == Prefix10(scans[i].createdAt.GetOr("")))
              && forall j, i :: 0 <= j < 3 && 0 <= i < |scans| ==>
                   |r.datasets[j].data| == |scans| && r.datasets[j].data[i] == ChartHealth(scans[i], ChartNutrients[j])
    ensures kind == "bar" ==>
              && (|scans| < 2 ==> r == ChartError("bar", "Need at least 2 scans for comparison"))
              && (|scans| >= 2 ==>
                    && r.BarChart? && r.labels == ChartLabels
                    && |r.datasets| == 2 && |r.changes| == 3 && |r.labels| == 3
                    && r.datasets[0].data == HealthTriple(scans[|scans| - 2])
                    && r.datasets[1].data == HealthTriple(scans[|scans| - 1])
                    && r.datasets[0].caption == "Previous" && r.datasets[0].color == "#9CA3AF"
                    && r.datasets[1].caption == "Current" && r.datasets[1].color == ColorOr(c, "healthy_zone", "#4C763B")
                    && forall j :: 0 <= j < 3 ==> r.changes[j] == r.datasets[1].data[j] - r.datasets[0].data[j])
    ensures kind == "radar" ==>
              && (|scans| == 0 ==> r == ChartError("radar", "No scan data available"))
              && (|scans| > 0 ==>
                    && r.RadarChart? && r.labels == ChartLabels
                    && |r.datasets| == 1 && |r.labels| == 3
                    && r.datasets[0].data == HealthTriple(scans[|scans| - 1])
                    && r.datasets[0].caption == "Nutrient Health"
                    && r.datasets[0].color == ColorOr(c, "healthy_zone", "#4C763B")
                    && r.zones == Zones(70.0, ColorOr(c, "healthy_zone", "#4C763B"),
                                        50.0, 70.0, ColorOr(c, "attention_zone", "#FA8112"),
                                        50.0, ColorOr(c, "critical_zone", "#FF6363"))
                    && r.zones.criticalMax <= r.zones.attentionMin < r.zones.attentionMax <= r.zones.healthyMin)
    ensures kind != "line" && kind != "bar" && kind != "radar" ==>
              r == ChartError(kind, "Unknown graph type: " + kind)
  {
    if kind == "line" then
      LineChart(
        seq(|scans|, i requires 0 <= i < |scans| => Prefix10(scans[i].createdAt.GetOr(""))),
        [Dataset("Nitrogen Health", HealthSeries(scans, N), ColorOr(c, "nitrogen", "#E53935")),
         Dataset("Phosphorus Health", HealthSeries(scans, P), ColorOr(c, "phosphorus", "#FB8C00")),
         Dataset("Potassium Health", HealthSeries(scans, K), ColorOr(c, "potassium", "#43A047"))])
    else if kind == "bar" then
      if |scans| < 2 then ChartError("bar", "Need at least 2 scans for comparison")
      else
        var previous := HealthTriple(scans[|scans| - 2]);
        var current := HealthTriple(scans[|scans| - 1]);
        BarChart(
          ChartLabels,
          [Dataset("Previous", previous, "#9CA3AF"),
           Dataset("Current", current, ColorOr(c, "healthy_zone", "#4C763B"))],
          [current[0] - previous[0], current[1] - previous[1], current[2] - previous[2]])
    else if kind == "radar" then
      if |scans| == 0 then ChartError("radar", "No scan data available")
      else
        RadarChart(
          ChartLabels,
          [Dataset("Nutrient Health", HealthTriple(scans[|scans| - 1]), ColorOr(c, "healthy_zone", "#4C763B"))],
          Zones(70.0, ColorOr(c, "healthy_zone", "#4C763B"),
                50.0, 70.0, ColorOr(c, "attention_zone", "#FA8112"),
                50.0, ColorOr(c, "critical_zone", "#FF6363")))
    else
      ChartError(kind, "Unknown graph type: " + kind)
  }
}
