/**
 * Helpers of the web application that decide something: whether an
 * uploaded file name has an accepted image extension, which fertilizer
 * advice (English and Hindi) a scan calls for, and which user a request
 * belongs to.
 */
module AppHelpers {
  import opened Optional
  import opened Text

  /** `ALLOWED_EXTENSIONS` */
  const AllowedExtensions: set<string> := {"png", "jpg", "jpeg", "webp"}

  /** The text after the last `.` of `s`, i.e. `s.rsplit('.', 1)[1]` when
      `s` contains a dot. */
  function AfterLastDot(s: string): (r: string)
    ensures |r| <= |s| && r == s[|s| - |r|..]
    ensures '.' !in r
    ensures '.' in s ==> |r| < |s| && s[|s| - |r| - 1] == '.'
    ensures '.' !in s ==> r == s
  {
    if |s| == 0 || s[|s| - 1] == '.' then s[|s|..]
    else AfterLastDot(s[..|s| - 1]) + [s[|s| - 1]]
  }

  /** `allowed_file`: the name has a dot, and the lower-cased text after the
      last dot is an accepted extension. */
  function AllowedFile(filename: string): (r: bool)
    ensures r <==> exists i :: 0 <= i < |filename| && filename[i] == '.'
                     && '.' !in filename[i + 1..] && Lower(filename[i + 1..]) in AllowedExtensions
  {
    if '.' in filename then
      var ext := AfterLastDot(filename);
      var i := |filename| - |ext| - 1;
      assert filename[i + 1..] == ext;
      LastDotUnique(filename, i);
      Lower(ext) in AllowedExtensions
    else
      false
  }

  /** When no dot follows the dot at `i`, every earlier dot has one after
      it, and no later character is a dot. */
  lemma LastDotUnique(s: string, i: nat)
    requires i < |s| && s[i] == '.' && '.' !in s[i + 1..]
    ensures forall j :: 0 <= j < i && s[j] == '.' ==> '.' in s[j + 1..]
    ensures forall j :: i < j < |s| ==> s[j] != '.'
  {
    forall j | 0 <= j < i && s[j] == '.'
      ensures '.' in s[j + 1..]
    {
      assert s[j + 1..][i - j - 1] == '.';
    }
    forall j | i < j < |s|
      ensures s[j] != '.'
    {
      assert s[i + 1..][j - i - 1] == s[j];
    }
  }

  /** A text in English and in Hindi. */
  datatype Bilingual = Bilingual(en: string, hi: string)

  /** The advice for each of N, P and K for one crop. */
  datatype CropAdvice = CropAdvice(n: Bilingual, p: Bilingual, k: Bilingual)

  /** `FERTILIZER_RECOMMENDATIONS`, keyed by crop id. */
  const FertilizerAdvice: map<int, CropAdvice> := map[
    1 := CropAdvice(
      Bilingual("Apply 50-70 kg Urea per acre. Split into 2-3 doses during growth stages.", "प्रति एकड़ 50-70 किलो यूरिया डालें। विकास चरणों में 2-3 खुराक में बांटें।"),
      Bilingual("Apply 25-35 kg DAP per acre at sowing time.", "बुवाई के समय प्रति एकड़ 25-35 किलो डीएपी डालें।"),
      Bilingual("Apply 20-30 kg MOP (Muriate of Potash) per acre.", "प्रति एकड़ 20-30 किलो एमओपी (म्यूरेट ऑफ पोटाश) डालें।")),
    2 := CropAdvice(
      Bilingual("Apply 60-80 kg Urea per acre. Apply in 3 splits: basal, tillering, panicle initiation.", "प्रति एकड़ 60-80 किलो यूरिया डालें। 3 बार में: बेसल, टिलरिंग, पैनिकल शुरुआत।"),
      Bilingual("Apply 30-40 kg DAP per acre as basal dose before transplanting.", "रोपाई से पहले बेसल खुराक के रूप में प्रति एकड़ 30-40 किलो डीएपी डालें।"),
      Bilingual("Apply 25-35 kg MOP per acre in two splits.", "प्रति एकड़ 25-35 किलो एमओपी दो बार में डालें।")),
    3 := CropAdvice(
      Bilingual("Apply 15-20 kg Urea per 1000 sq.m. Apply in multiple doses throughout growth.", "प्रति 1000 वर्ग मीटर 15-20 किलो यूरिया डालें। पूरी वृद्धि के दौरान कई खुराक में।"),
      Bilingual("Apply 10-15 kg DAP per 1000 sq.m at transplanting.", "रोपाई के समय प्रति 1000 वर्ग मीटर 10-15 किलो डीएपी डालें।"),
      Bilingual("Apply 12-18 kg MOP per 1000 sq.m. Important for fruit quality.", "प्रति 1000 वर्ग मीटर 12-18 किलो एमओपी डालें। फल की गुणवत्ता के लिए महत्वपूर्ण।")),
    4 := CropAdvice(
      Bilingual("Apply 40-60 kg Urea per acre. Split into 3 doses during growth.", "प्रति एकड़ 40-60 किलो यूरिया डालें। विकास के दौरान 3 खुराक में बांटें।"),
      Bilingual("Apply 20-30 kg DAP per acre at sowing.", "बुवाई के समय प्रति एकड़ 20-30 किलो डीएपी डालें।"),
      Bilingual("Apply 18-25 kg MOP per acre. Essential for boll development.", "प्रति एकड़ 18-25 किलो एमओपी डालें। गूलर विकास के लिए आवश्यक।")),
    5 := CropAdvice(
      Bilingual("Apply 60-80 kg Urea per acre. Split into 3 doses: at sowing, knee-high, and tasseling.", "प्रति एकड़ 60-80 किलो यूरिया डालें। 3 बार में: बुवाई, घुटने तक ऊंचाई, और तसल निकलने पर।"),
      Bilingual("Apply 25-35 kg DAP per acre as basal dose at sowing.", "बुवाई के समय बेसल खुराक के रूप में प्रति एकड़ 25-35 किलो डीएपी डालें।"),
      Bilingual("Apply 20-30 kg MOP per acre. Important for grain filling.", "प्रति एकड़ 20-30 किलो एमओपी डालें। दाना भरने के लिए महत्वपूर्ण।")),
    6 := CropAdvice(
      Bilingual("Apply 200-250g Urea per plant per year in 4-5 splits.", "प्रति पौधा प्रति वर्ष 200-250 ग्राम यूरिया 4-5 बार में डालें।"),
      Bilingual("Apply 100-150g SSP per plant at planting and flowering.", "रोपाई और फूल आने पर प्रति पौधा 100-150 ग्राम एसएसपी डालें।"),
      Bilingual("Apply 250-300g MOP per plant per year in 3-4 splits. Critical for fruit quality.", "प्रति पौधा प्रति वर्ष 250-300 ग्राम एमओपी 3-4 बार में डालें। फल गुणवत्ता के लिए महत्वपूर्ण।")),
    7 := CropAdvice(
      Bilingual("Apply 40-60g Urea per plant in 2-3 splits during rainy season.", "बारिश के मौसम में प्रति पौधा 40-60 ग्राम यूरिया 2-3 बार में डालें।"),
      Bilingual("Apply 20-30g SSP per plant at start of monsoon.", "मानसून की शुरुआत में प्रति पौधा 20-30 ग्राम एसएसपी डालें।"),
      Bilingual("Apply 30-40g MOP per plant in 2 splits. Important for bean quality.", "प्रति पौधा 30-40 ग्राम एमओपी 2 बार में डालें। बीन गुणवत्ता के लिए महत्वपूर्ण।")),
    8 := CropAdvice(
      Bilingual("Apply 10-15 kg Urea per 1000 sq.m in 3-4 splits during growth.", "वृद्धि के दौरान प्रति 1000 वर्ग मीटर 10-15 किलो यूरिया 3-4 बार में डालें।"),
      Bilingual("Apply 8-12 kg DAP per 1000 sq.m at transplanting.", "रोपाई के समय प्रति 1000 वर्ग मीटर 8-12 किलो डीएपी डालें।"),
      Bilingual("Apply 10-15 kg MOP per 1000 sq.m. Essential for fruit development.", "प्रति 1000 वर्ग मीटर 10-15 किलो एमओपी डालें। फल विकास के लिए आवश्यक।")),
    9 := CropAdvice(
      Bilingual("Apply 12-18 kg Urea per 1000 sq.m in 4-5 splits.", "प्रति 1000 वर्ग मीटर 12-18 किलो यूरिया 4-5 बार में डालें।"),
      Bilingual("Apply 10-15 kg DAP per 1000 sq.m at transplanting.", "रोपाई के समय प्रति 1000 वर्ग मीटर 10-15 किलो डीएपी डालें।"),
      Bilingual("Apply 12-15 kg MOP per 1000 sq.m. Important for fruit quality and yield.", "प्रति 1000 वर्ग मीटर 12-15 किलो एमओपी डालें। फल गुणवत्ता और उपज के लिए महत्वपूर्ण।")),
    10 := CropAdvice(
      Bilingual("Apply 8-12 kg Urea per 1000 sq.m in 3-4 splits during vine growth.", "बेल वृद्धि के दौरान प्रति 1000 वर्ग मीटर 8-12 किलो यूरिया 3-4 बार में डालें।"),
      Bilingual("Apply 6-10 kg DAP per 1000 sq.m at sowing/transplanting.", "बुवाई/रोपाई के समय प्रति 1000 वर्ग मीटर 6-10 किलो डीएपी डालें।"),
      Bilingual("Apply 10-14 kg MOP per 1000 sq.m. Important for fruit size.", "प्रति 1000 वर्ग मीटर 10-14 किलो एमओपी डालें। फल आकार के लिए महत्वपूर्ण।")),
    11 := CropAdvice(
      Bilingual("Apply 10-15 kg Urea per 1000 sq.m in 3-4 splits.", "प्रति 1000 वर्ग मीटर 10-15 किलो यूरिया 3-4 बार में डालें।"),
      Bilingual("Apply 8-12 kg DAP per 1000 sq.m at sowing.", "बुवाई के समय प्रति 1000 वर्ग मीटर 8-12 किलो डीएपी डालें।"),
      Bilingual("Apply 10-15 kg MOP per 1000 sq.m for better fruiting.", "बेहतर फलन के लिए प्रति 1000 वर्ग मीटर 10-15 किलो एमओपी डालें।")),
    12 := CropAdvice(
      Bilingual("Apply 8-12 kg Urea per 1000 sq.m in 3-4 splits during growth.", "वृद्धि के दौरान प्रति 1000 वर्ग मीटर 8-12 किलो यूरिया 3-4 बार में डालें।"),
      Bilingual("Apply 6-10 kg DAP per 1000 sq.m at sowing.", "बुवाई के समय प्रति 1000 वर्ग मीटर 6-10 किलो डीएपी डालें।"),
      Bilingual("Apply 8-12 kg MOP per 1000 sq.m for fruit quality.", "फल गुणवत्ता के लिए प्रति 1000 वर्ग मीटर 8-12 किलो एमओपी डालें।")),
    13 := CropAdvice(
      Bilingual("Apply 10-14 kg Urea per 1000 sq.m in 3-4 splits.", "प्रति 1000 वर्ग मीटर 10-14 किलो यूरिया 3-4 बार में डालें।"),
      Bilingual("Apply 8-10 kg DAP per 1000 sq.m at sowing.", "बुवाई के समय प्रति 1000 वर्ग मीटर 8-10 किलो डीएपी डालें।"),
      Bilingual("Apply 10-12 kg MOP per 1000 sq.m. Important for long fruit development.", "प्रति 1000 वर्ग मीटर 10-12 किलो एमओपी डालें। लंबे फल विकास के लिए महत्वपूर्ण।"))
  ]

  /** The advice of a crop; an unknown crop id gets crop 1's advice. */
  function AdviceFor(cropId: int): (r: CropAdvice)
    ensures cropId in FertilizerAdvice ==> r == FertilizerAdvice[cropId]
    ensures cropId !in FertilizerAdvice ==> r == FertilizerAdvice[1]
  {
    if cropId in FertilizerAdvice then FertilizerAdvice[cropId] else FertilizerAdvice[1]
  }

  /** One nutrient's entry of the recommendation dict; `urgency` is absent
      from an entry that is not needed. */
  datatype Advice = Advice(en: string, hi: string, needed: bool, urgency: Option<string>)

  const NotNeeded: Advice := Advice("", "", false, None)

  datatype Recommendations = Recommendations(n: Advice, p: Advice, k: Advice)

  /** What one nutrient's entry must be for a deficiency `score` and the
      crop's advice `text`. */
  predicate EntryFor(a: Advice, score: real, text: Bilingual) {
    && (a.needed <==> score >= 0.4)
    && (a.needed ==> a == Advice(text.en, text.hi, true, Some(if score >= 0.7 then "high" else "medium")))
    && (!a.needed ==> a == NotNeeded)
  }

  /**
   * `generate_recommendations`: every entry starts empty and not needed;
   * an entry whose score reaches 0.4 is replaced by the crop's advice,
   * urgent (`high`) from 0.7. The priority follows the largest of the
   * three scores: `critical` from 0.7, `attention` from 0.4, else `healthy`.
   */
  method GenerateRecommendations(cropId: int, nScore: real, pScore: real, kScore: real)
    returns (recs: Recommendations, priority: string)
    ensures EntryFor(recs.n, nScore, AdviceFor(cropId).n)
    ensures EntryFor(recs.p, pScore, AdviceFor(cropId).p)
    ensures EntryFor(recs.k, kScore, AdviceFor(cropId).k)
    ensures priority == "critical" <==> (nScore >= 0.7 || pScore >= 0.7 || kScore >= 0.7)
    ensures priority == "healthy" <==> !(recs.n.needed || recs.p.needed || recs.k.needed)
    ensures priority in {"critical", "attention", "healthy"}
  {
    var advice := AdviceFor(cropId);
    recs := Recommendations(NotNeeded, NotNeeded, NotNeeded);
    if nScore >= 0.4 {
      recs := recs.(n := Advice(advice.n.en, advice.n.hi, true, Some(if nScore >= 0.7 then "high" else "medium")));
    }
    if pScore >= 0.4 {
      recs := recs.(p := Advice(advice.p.en, advice.p.hi, true, Some(if pScore >= 0.7 then "high" else "medium")));
    }
    if kScore >= 0.4 {
      recs := recs.(k := Advice(advice.k.en, advice.k.hi, true, Some(if kScore >= 0.7 then "high" else "medium")));
    }
    var maxScore := if nScore >= pScore then nScore else pScore;
    maxScore := if maxScore >= kScore then maxScore else kScore;
    if maxScore >= 0.7 {
      priority := "critical";
    } else if maxScore >= 0.4 {
      priority := "attention";
    } else {
      priority := "healthy";
    }
  }

  /** The all-zero UUID used for requests that carry no valid user id. */
  const LegacyUserId: string := "00000000-0000-0000-0000-000000000000"

  /** `get_user_id` on the optional `X-User-ID` header: the header when it is
      present with exactly 36 characters, otherwise the legacy id; either way
      a 36-character id. */
  function GetUserId(header: Option<string>): (r: string)
    ensures header.Some? && |header.value| == 36 ==> r == header.value
    ensures !(header.Some? && |header.value| == 36) ==> r == LegacyUserId
    ensures |r| == 36
  {
    var userId := header.GetOr(LegacyUserId);
    if userId == "" || |userId| != 36 then LegacyUserId else userId
  }
}
