# FasalVaidya crop-health rules in Dafny

FasalVaidya scans a crop leaf and reports the deficiency of nitrogen (N),
phosphorus (P), potassium (K) and sometimes magnesium (Mg). This project
models the deterministic logic around the scans and proves properties of it:

- **Health engine** (`health_config.dfy`, `health_engine.dfy`,
  `health_report.dfy`, with the date arithmetic in `calendar.dfy`):
  - the thresholds configuration and the process-wide cache that holds it;
  - classification of the overall score into critical, attention and healthy,
    with rescan dates;
  - per-nutrient classification;
  - trends, and comparison of a scan with its previous and baseline scans;
  - the overall score;
  - rescan and fertilizer recommendations;
  - the report aggregate and the chart series.
- **Severity rules** (`severity.dfy`), shared by the inference modules:
  - a deficiency score is critical from 0.7 and needs attention from 0.4;
  - a health score is critical below 0.5 and needs attention below 0.8;
  - the overall status is the severity of the worst nutrient.
- **Inference post-processing**:
  - per-crop regression (`inference_v1.dfy`);
  - class-based classifier, meaning the class-name parser, crop aliases and
    weighted deficiency (`inference_v2.dfy`);
  - unified multi-crop classifier, meaning the class table, crop-filtered
    top class and score scaling (`unified_inference.dfy`).
- **Web helpers** (`app_helpers.dfy`): upload extension check, advice text
  per crop and score, and user id from a header.
- **Dataset labelling**:
  - folder and file-name label parsers of the two training scripts
    (`train_labels.dfy`);
  - class-name normalisation and oversampling of the balanced training
    script (`balanced_dataset.dfy`);
  - the PlantVillage keyword categoriser (`plantvillage.dfy`);
  - class-name standardisation of the confidence evaluation
    (`confidence_names.dfy`).

`text.dfy` holds the string operations the rules use: ASCII lower and upper
case, `startswith`, `in`, `replace`, `split(...)[0]` and `strip`.

Modelling conventions:

- **Scores** are `real`.
- **A stored scan** is a datatype whose fields are `Option`s; `None` is a
  missing key.
- **The current date** is a parameter. It is a day number counted as in
  Python's `date.toordinal()`.
- **Randomness:**
  - `random.choices` and `random.sample` are arbitrary choices that satisfy
    what those functions guarantee.
  - Model predictions are inputs.
- **State changes in the source:**
  - Code that changes state step by step is a `method` proved against a
    specification function.
  - The configuration cache is a class with one field.

A stored score is a fraction in 0..1, but `classify_nutrient` reads its
argument as a percentage. With the default thresholds, every stored fraction
therefore classifies as an excess. `HealthEngine.StoredFractionIsExcess`
states this, and the model keeps the behaviour.

## Model

| member | source | states |
|---|---|---|
| HealthConfig.DefaultConfig | backend/ml/health_engine.py:23-44 | The fallback configuration has attention from 50, healthy from 80, epsilon 5, deficient up to 40 and optimal up to 80. Its tiers and windows are in order. |
| HealthConfig.LoadConfig | backend/ml/health_engine.py:18-44 | A missing file gives the defaults, a loaded file gives its content, and every other failure is an error. |
| HealthConfig.ConfigCache.constructor | backend/ml/health_engine.py:48 | Nothing is cached at import time. |
| HealthConfig.ConfigCache.GetConfig | backend/ml/health_engine.py:51-56 | With a cached configuration, it returns it and leaves the cache unchanged. Without one, it loads the file and caches a successful result. |
| HealthConfig.ConfigCache.ReloadConfig | backend/ml/health_engine.py:59-63 | Always loads the file. The cache becomes the loaded configuration, and a failure leaves the cache unchanged. |
| HealthEngine.NutrientsOf | backend/ml/health_engine.py:225-227 | The reported nutrients are n, p and k in order, plus mg exactly when the scan has an `mg_score` key. |
| HealthEngine.StatusBands | backend/ml/health_engine.py:88-99 | In a well-formed configuration, critical holds iff the score is below `attention.min_score`, attention iff it is from there up to `healthy.min_score`, and healthy iff it is from `healthy.min_score`. |
| HealthEngine.DefaultStatusBands | backend/ml/health_engine.py:88-99 | With the defaults: critical iff the score is below 50, attention iff 50 ≤ score < 80, healthy iff score ≥ 80. A boundary score goes to the higher tier. |
| HealthEngine.StatusMonotone | backend/ml/health_engine.py:88-99 | A higher score never gets a worse tier. |
| HealthEngine.Midpoint | backend/ml/health_engine.py:102 | The recommended offset `(min+max)//2` lies within the window. |
| HealthEngine.WindowDates | backend/ml/health_engine.py:102-115 | The three dates are the ISO renderings of the window's opening day, closing day and midpoint day. |
| HealthEngine.ClassifyHealth | backend/ml/health_engine.py:70-116 | The status is the score's tier and the dates are that tier's window counted from today. Label, Hindi label, colour and severity are the tier's configured values, falling back to the title, the title, `#6B7280` and the status name. The rescan interval texts are the window's labels, falling back to the midpoint followed by " days" / " दिन". |
| HealthEngine.ClassifyNutrient | backend/ml/health_engine.py:119-161 | With health = 100 - score: deficient iff health ≤ `deficient.max_score`, optimal iff it is above that and ≤ `optimal.max_score`, and excess iff it is above both. Fertilizer is requested exactly when deficient. A warning ("Avoid additional fertilization") and "avoid" are given exactly for an excess. Each tier's labels are its configured ones, falling back to Deficient/कमी, Optimal/उचित and Excess/अधिक. |
| HealthEngine.DefaultNutrientBands | backend/ml/health_engine.py:135-161 | With the defaults: deficient iff score ≥ 60, optimal iff 20 ≤ score < 60, excess iff score < 20. |
| HealthEngine.StoredFractionIsExcess | backend/ml/health_engine.py:135-161 | Under the defaults, a raw fraction in [0,1] is always classified as an excess that needs no fertilizer. |
| HealthEngine.CalculateTrend | backend/ml/health_engine.py:168-203 | Stable iff \|delta\| ≤ epsilon. An increase is significant iff delta ≥ `significant_increase` (default 10); a decrease is significant iff delta ≤ `significant_decrease` (default -10). `delta_percent·previous = 100·delta`, and `delta_percent` is 0 when previous is 0. |
| HealthEngine.TrendArrowAgrees | backend/ml/health_engine.py:184-202 | With epsilon ≥ 0: increase iff delta > ε, decrease iff delta < -ε. The arrow ↑/↓/→ is shown exactly for increase, decrease and stable. |
| HealthEngine.TrendSwap | backend/ml/health_engine.py:168-203 | Swapping current and previous swaps increase and decrease and keeps stable. |
| HealthEngine.HealthValues | backend/ml/health_engine.py:272-303 | There is one health value `100 - percent(score)` per reported nutrient, and a missing n/p/k score counts as 0. |
| HealthEngine.OverallScore | backend/ml/health_engine.py:266-306 | The overall score is the unweighted mean of the health values, including mg exactly when `mg_score` is present. |
| HealthEngine.OverallScoreBounded | backend/ml/health_engine.py:266-306 | Scores in [0,100], stored as fractions or as percentages, give an overall score in [0,100]. |
| HealthEngine.PastPointOf | backend/ml/health_engine.py:239-253 | A nutrient's comparison with an earlier scan exists iff that scan is given and holds the nutrient's score. It then carries that value, the trend against it and the earlier scan's date. |
| HealthEngine.CompareScans | backend/ml/health_engine.py:206-263 | `has_history` and `has_baseline` are presence flags. There is one entry per reported nutrient, each compared with the previous and the baseline scan. `overall_trend` is present iff a non-empty previous scan is given, and is the trend of the two overall scores. |
| HealthReport.RescanKey | backend/ml/health_engine.py:329-338 | Case-insensitively: unhealthy/critical map to critical, good/healthy map to healthy, and everything else maps to attention. |
| HealthReport.RescanKeyOfStatusName | backend/ml/health_engine.py:329-338 | Each status name the classifier writes maps back to its own tier. |
| HealthReport.RescanRecommendationFor | backend/ml/health_engine.py:313-350 | The window comes from the status's tier, counted from the last scan's day or else today. Urgency is high iff critical and low iff healthy. The captions are the window's labels, falling back to "15-20 days" and "15-20 दिन". |
| HealthReport.CandidateCases | backend/ml/health_engine.py:375-405 | `apply_fertilizer` iff `needs_fertilizer` or the severity is attention/critical, with high priority iff critical. Otherwise `avoid_fertilization` at low priority iff the nutrient is in excess. |
| HealthReport.CandidatesInNutrientOrder | backend/ml/health_engine.py:366-405 | The collected recommendations are in n, p, k, mg order, at most one per nutrient. |
| HealthReport.CandidatesWellTagged | backend/ml/health_engine.py:375-405 | Only the "avoid" entries have low priority. |
| HealthReport.WithPriority | backend/ml/health_engine.py:409 | The entries of one priority, in their original order. |
| HealthReport.WithPriorityAppend | backend/ml/health_engine.py:409 | Selecting one priority distributes over concatenation. |
| HealthReport.WithPriorityTwice | backend/ml/health_engine.py:409 | Selecting a priority twice is selecting it once. Selecting two different priorities leaves nothing. |
| HealthReport.WithPriorityMultiset | backend/ml/health_engine.py:409 | The three priority groups together are exactly the input. |
| HealthReport.ByPriority | backend/ml/health_engine.py:408-409 | After the sort, priorities run high, then medium, then low. The result is a permutation of the input, and it keeps the input order within each priority, i.e. the sort is stable. |
| HealthReport.GroupsSorted | backend/ml/health_engine.py:408-409 | The high, medium and low groups laid end to end are in priority order. |
| HealthReport.GroupsStable | backend/ml/health_engine.py:408-409 | Laying the groups end to end keeps each priority's elements in input order. |
| HealthReport.FertilizerRecommendations | backend/ml/health_engine.py:353-411 | The loop's result is the stable priority sort of the per-nutrient candidates, collected in n, p, k, mg order. |
| HealthReport.FertilizerTiesInNutrientOrder | backend/ml/health_engine.py:353-411 | Recommendations of equal priority stay in n, p, k, mg order. |
| HealthReport.WithPriorityKeepsOrder | backend/ml/health_engine.py:409 | Selecting one priority keeps nutrient order and invents no entry. |
| HealthReport.NutrientReportOf | backend/ml/health_engine.py:446-552 | n, p and k are shown as percentages and mg as stored. In every case score + health_score = 100. |
| HealthReport.IssuesAreCriticalPlusAttention | backend/ml/health_engine.py:537-541 | The number of applications equals the number of high entries plus the number of medium entries. |
| HealthReport.WellTaggedByPriority | backend/ml/health_engine.py:408-409 | Sorting keeps "only avoid entries are low". |
| HealthReport.CriticalListedMeansCritical | backend/ml/health_engine.py:539-540 | A nutrient in `critical_nutrients` is one whose scan severity is `critical`. |
| HealthReport.NutrientsAtIndex | backend/ml/health_engine.py:539-540 | A listed nutrient comes from an entry of that priority. |
| HealthReport.CandidateSource | backend/ml/health_engine.py:366-405 | Every collected entry is the candidate of some nutrient. |
| HealthReport.FertilizerSummary | backend/ml/health_engine.py:537-541 | `total_issues` equals the length of `critical_nutrients` plus that of `attention_nutrients`. Critical entries are the scan's critical nutrients. |
| HealthReport.NutrientReports | backend/ml/health_engine.py:502-552 | There is one entry per reported nutrient, as `NutrientReportOf` gives it. |
| HealthReport.GenerateReport | backend/ml/health_engine.py:418-554 | Fails iff `created_at` is not an ISO date or its window leaves the calendar. Otherwise the report carries the overall score, its classification, and that tier's rescan window and urgency from the scan's day, with its English and Hindi captions (each with its fallback, "15-20 days" / "15-20 दिन"). It carries the crop info and `created_at` as given, and one entry per nutrient equal to `NutrientReportOf` (n, p, k as percentages, mg raw, score + health = 100). Its comparison has the presence flags, per-nutrient comparisons and overall trend that `CompareScans` promises. It also has the sorted fertilizer list with its summary, and the guest farmer when none is given. |
| HealthReport.Prefix10 | backend/ml/health_engine.py:583 | `s[:10]` is a prefix of at most 10 characters. |
| HealthReport.HealthSeries | backend/ml/health_engine.py:587-597 | There is one value per scan, equal to 100 minus that scan's raw score. |
| HealthReport.GraphData | backend/ml/health_engine.py:561-686 | `line` charts every scan's n, p, k health, labelled by the first 10 characters of each `created_at`. Its three datasets are captioned "Nitrogen Health", "Phosphorus Health" and "Potassium Health", coloured by the configured nitrogen, phosphorus and potassium colours or their defaults. `bar` with fewer than 2 scans is the error "Need at least 2 scans for comparison"; otherwise it is a bar chart of the last two scans with `changes` = current - previous. Its datasets are "Previous" in grey #9CA3AF and "Current" in the configured healthy-zone colour or its default. `radar` with no scans is the error "No scan data available"; otherwise it is a radar chart of the last scan, with one dataset, "Nutrient Health", in the healthy-zone colour. Its zones are the fixed healthy ≥ 70, attention 50-70 and critical < 50, each with its configured colour or the built-in default. Bar and radar charts are labelled Nitrogen, Phosphorus, Potassium. Any other type gives the error "Unknown graph type: " followed by the type. |
| Calendar.DaysBeforeNextYear | backend/ml/health_engine.py:103 | The day count before year y+1 equals the count before year y plus y's length. |
| Calendar.YearIsTwelveMonths | backend/ml/health_engine.py:103 | The twelve month lengths add up to the year length. |
| Calendar.FromOrdinal | backend/ml/health_engine.py:103-115 | Every day number in range is a valid date whose ordinal is that number. |
| Calendar.OrdinalRoundTrip | backend/ml/health_engine.py:103-115 | Converting a valid date to its ordinal and back gives the same date. |
| Calendar.YearUnique | backend/ml/health_engine.py:103-115 | A day number has a single (year, day-of-year) reading. |
| Calendar.MonthUnique | backend/ml/health_engine.py:103-115 | A day of the year has a single (month, day) reading. |
| Calendar.ToOrdinal | backend/ml/health_engine.py:103-115 | The day number of a date lies within its own year, and every representable date has a day number from 1 to that of 9999-12-31. |
| Calendar.IsoDate | backend/ml/health_engine.py:113-115 | `strftime("%Y-%m-%d")` with a four-digit zero-padded year gives ten characters with dashes at positions 4 and 7. |
| Calendar.ParseIsoDate | backend/ml/health_engine.py:471 | `fromisoformat` (Python 3.7 to 3.10 grammar) succeeds iff the string starts with `YYYY-MM-DD` digits forming a valid date, whatever follows at index 10 and beyond. The result is a day in range whose calendar date is the one written. |
| Calendar.RenderedFields | backend/ml/health_engine.py:113-115 | Year, month and day of a rendered date read back as written. |
| Calendar.IsoDateRoundTrip | backend/ml/health_engine.py:471 | Parsing a rendered date gives back the same day. |
| Severity.Worst | backend/ml/inference_v2.py:567-573 | The more severe of two levels. |
| Severity.OfDeficiency | backend/ml/inference.py:332-339 | Critical iff score ≥ 0.7, attention iff 0.4 ≤ score < 0.7, healthy iff score < 0.4. Shared with `_get_severity` (inference_v2.py:620-627) and the unified `get_severity` (unified_inference.py:201-208). |
| Severity.OfDeficiencyMonotone | backend/ml/inference.py:332-339 | A larger deficiency is never milder. |
| Severity.OfHealth | backend/ml/inference_v2.py:630-637 | Critical iff health < 0.5, attention iff 0.5 ≤ health < 0.8, healthy iff health ≥ 0.8. |
| Severity.OfHealthAntitone | backend/ml/inference_v2.py:630-637 | A larger health score is never more severe. |
| Severity.Max4 | backend/ml/inference.py:510 | `max(n,p,k,mg)` bounds all four values and is one of them. |
| Severity.Min4 | backend/ml/inference_v2.py:567 | `min(...)` is bounded by all four values and is one of them. |
| Severity.OverallStatus | backend/ml/inference.py:508-517 | `determine_overall_status` (and its identical copy at backend/ml/unified_inference.py:327-336) is the severity of the largest deficiency, and equals the worst of the four per-nutrient severities. |
| Severity.MinHealthIsWorst | backend/ml/inference_v2.py:567-573 | The status of the minimum health is the worst per-nutrient health severity. |
| Severity.SeverityColor | backend/ml/inference.py:342-349 | critical, attention and healthy each get a fixed colour. Every other string, and only those, gets `#6B7280`. |
| Severity.ColorsDistinct | backend/ml/inference.py:342-349 | The three levels get three different colours. |
| Inference.DetectedNutrient | backend/ml/inference.py:522-531 | `max(scores, key=scores.get)` is the first nutrient in N, P, K, Mg order that attains the maximum. |
| Inference.DetectedClass | backend/ml/inference.py:520-536 | `healthy` iff max < 0.4. Otherwise `<nutrient>_deficiency` for the first maximal nutrient. |
| Inference.DetectedClassAgreesWithStatus | backend/ml/inference.py:508-536 | The detected class is `healthy` exactly when the overall status is. |
| Inference.DetectedNutrientIsWorst | backend/ml/inference.py:508-536 | The named nutrient's severity is the overall status, and that status is not healthy. |
| Inference.OutputOr | backend/ml/inference.py:416-425 | Output i if the model has it, else the default. |
| Inference.ModelOutputs | backend/ml/inference.py:416-425 | Missing scores are 0.0 and missing confidences are 0.8. Present outputs are kept. |
| Inference.ThreeOutputsNoMagnesium | backend/ml/inference.py:416-425 | A three-output model reports Mg = 0. With a non-negative N score, Mg is never the detected nutrient. |
| InferenceV2.ClassNutrients | backend/ml/inference_v2.py:81-147 | Every parsed value is one of 0, 0.3, 0.65, 0.7, 0.75 and 0.8, so it lies in [0, 0.8]. |
| InferenceV2.ParseClassToNutrients | backend/ml/inference_v2.py:81-147 | The sequential overwrites equal the declarative last-rule-wins reading of the lower-cased name. |
| InferenceV2.LowerIdempotent | backend/ml/inference_v2.py:90 | Lower-casing twice is lower-casing once, so the parser depends only on the lower-cased name. |
| InferenceV2.HealthyNameIsZero | backend/ml/inference_v2.py:92-99 | A name containing `healthy`, `control` or `all_present` yields all zeros. |
| InferenceV2.DiseaseNameIsMinor | backend/ml/inference_v2.py:142-145 | A non-healthy name with `_dm`, `_ls`, `_jas` or `_pm` yields exactly (0.3, 0.3, 0.3, 0). |
| InferenceV2.ZincAbsentOnlyMagnesium | backend/ml/inference_v2.py:103-135 | `znab` also matches the `nab` hint, yet yields only mg = 0.3. |
| InferenceV2.ZnabContainsNab | backend/ml/inference_v2.py:103-104 | Every name containing `znab` contains `nab`. |
| InferenceV2.AllAbsent | backend/ml/inference_v2.py:132-133 | `allab` (without a wheat or disease marker) yields N = P = K = 0.8 and mg = 0. |
| InferenceV2.CropFromClass | backend/ml/inference_v2.py:150-170 | The result is the alias image of the first `_` token, or that token itself. Either way it is an alias image or a prefix of the lower-cased name, so `'unknown'` is unreachable. |
| InferenceV2.CropOfPrefixedClass | backend/ml/inference_v2.py:150-170 | `<alias>_<rest>` belongs to the alias's crop. |
| InferenceV2.LabelOf | backend/ml/inference_v2.py:529 | Labels beyond the list are named `class_<i>`. |
| InferenceV2.AccumulatedBounded | backend/ml/inference_v2.py:524-534 | The accumulated weight is non-negative, and each accumulated sum lies in [0, 0.8·weight]. |
| InferenceV2.WeightedDeficienciesBounded | backend/ml/inference_v2.py:524-539 | Each normalised weighted deficiency lies in [0, 0.8]. |
| InferenceV2.WeightedDeficiency | backend/ml/inference_v2.py:524-539 | The loop equals the prefix-recursive specification, and its result lies in [0, 0.8]. |
| InferenceV2.Assess | backend/ml/inference_v2.py:549-573 | Health is 1 - deficiency. Severities come from health, and the overall status from the minimum health. |
| InferenceV2.AssessmentOfWeighted | backend/ml/inference_v2.py:524-573 | Every health lies in [0.2, 1], and the overall status is the worst per-nutrient severity. |
| UnifiedInference.Profile | backend/ml/unified_inference.py:52-78 | A table class gets its table profile, and an unknown class gets (0.3, 0.3, 0.3, 0) (line 272). Every profile lies in [0, 0.85]. Healthy/control/ALL Present/ALLAB classes have all zeros. |
| UnifiedInference.SelectTopClass | backend/ml/unified_inference.py:259-269 | With the crop filter in force, the result carries the crop prefix, has the maximal probability among prefixed labels, and is the earliest such label. Otherwise it has the global maximum. |
| UnifiedInference.BaseConfidence | backend/ml/unified_inference.py:281 | `min(0.98, c + 0.1)` is at most both 0.98 and c + 0.1, and equals one of them. |
| UnifiedInference.Predict | backend/ml/unified_inference.py:271-309 | Scores are the profile times the confidence, and each severity is that score's severity. The overall status is that of the maximum. |
| UnifiedInference.ScaledAtMost | backend/ml/unified_inference.py:275-278 | A value in [0, 0.85] times a confidence in [0, 1] stays in [0, 0.85]. |
| UnifiedInference.PredictedScoresBounded | backend/ml/unified_inference.py:272-278 | For a confidence in [0, 1], every score lies in [0, 0.85]. |
| UnifiedInference.HealthyClassIsHealthy | backend/ml/unified_inference.py:52-78 | A healthy class gives zero scores and a healthy status. |
| UnifiedInference.OverallIsWorstSeverity | backend/ml/unified_inference.py:303-309 | The overall status is the worst per-nutrient severity. |
| AppHelpers.AfterLastDot | backend/app.py:584 | `rsplit('.',1)[1]` is the dot-free suffix after the last dot. |
| AppHelpers.AllowedFile | backend/app.py:581-584 | True iff there is a dot with no dot after it, and the lower-cased text after it is png, jpg, jpeg or webp. |
| AppHelpers.LastDotUnique | backend/app.py:584 | The last dot is unique. |
| AppHelpers.AdviceFor | backend/app.py:589 | Looked up in the table of lines 180-363, a known crop gets its own advice, and an unknown id gets crop 1's. |
| AppHelpers.GenerateRecommendations | backend/app.py:587-633 | Needed iff score ≥ 0.4, with urgency high iff ≥ 0.7 and otherwise medium. An unneeded entry is exactly `{en:'', hi:'', needed:False}` with no urgency. Priority is critical iff some score ≥ 0.7, healthy iff nothing is needed, and always one of the three values. |
| AppHelpers.GetUserId | backend/app.py:380-394 | The header iff it is present with exactly 36 characters, else the all-zero id. Either way the id has 36 characters. |
| TrainLabels.FolderLabels | backend/ml/train_npk_model.py:150-166 | At most one of N/P/K is set from the folder, each flag 0 or 1. |
| TrainLabels.MultiLabels | backend/ml/train_npk_model.py:169-177 | The flags from file-name tokens are 0 or 1. |
| TrainLabels.Letters | backend/ml/train_npk_model.py:180-186 | One letter per set flag, at most three. |
| TrainLabels.DeficiencyLabel | backend/ml/train_npk_model.py:144-190 | The flags are 0 or 1. |
| TrainLabels.ParseDeficiencyLabel | backend/ml/train_npk_model.py:144-190 | The imperative parser equals the specification `DeficiencyLabel`. |
| TrainLabels.UnlabelledFolder | backend/ml/train_npk_model.py:150-166 | A folder with no keyword and no exact name sets no flag and is `healthy`. |
| TrainLabels.NoKeywordLetters | backend/ml/train_npk_model.py:156-164 | A lower-case folder lacking g, h and p matches no keyword. |
| TrainLabels.MultiFolderHasNoFolderLabel | backend/ml/train_npk_model.py:156-169 | `more-deficiencies` gets no folder flag, so only the file name decides. |
| TrainLabels.FolderPrecedence | backend/ml/train_npk_model.py:156-164 | Outside `more-deficiencies` at most one flag is set, with the precedence nitrogen, then phosphorus, then potasium (iff in each case). |
| TrainLabels.ExactNamesRedundant | backend/ml/train_npk_model.py:156-164 | The exact-name alternatives are already covered by the keywords. |
| TrainLabels.CorrectSpellingHasNoKeyword | backend/ml/train_npk_model.py:156-164 | `potassium-k` contains none of the keywords. |
| TrainLabels.CorrectSpellingIsHealthy | backend/ml/train_npk_model.py:150-166 | The correctly spelled `potassium-K` folder yields no flags and `healthy`. |
| TrainLabels.MultiFolderTokens | backend/ml/train_npk_model.py:169-188 | In `more-deficiencies`, each flag is set iff its `N_`/`_N` (etc.) token occurs in the upper-cased name. The class is `other_deficiency` iff no flag is set. |
| TrainLabels.JoinedClassIsNotOther | backend/ml/train_npk_model.py:183-188 | A class built from set letters is never `other_deficiency`. |
| TrainLabels.MultiClassNames | backend/ml/train_npk_model.py:180-188 | For any 0/1 flags, each of the letters N, P, K occurs in the class iff its flag is set. A class naming any letter ends with `_deficiency`. |
| TrainLabels.MultiClassInjective | backend/ml/train_npk_model.py:180-188 | Different flag sets give different classes, so the class determines the flags. |
| TrainLabels.JoinedLetters | backend/ml/train_npk_model.py:185 | A letter occurs in `'_'.join(parts)` of one-letter parts iff it is one of the parts. |
| TrainLabels.NpkLabel | backend/ml/train_npk_model_transfer.py:390-419 | A length-3 list of 0/1 values. |
| TrainLabels.ParseNpkLabel | backend/ml/train_npk_model_transfer.py:390-419 | The in-place list updates equal the specification `NpkLabel`. |
| TrainLabels.ParsersAgree | backend/ml/train_npk_model_transfer.py:403-417 | For every file and folder, `parse_npk_label` is the [N, P, K] of `parse_deficiency_label`. |
| TrainLabels.UnrecognisedFolderIsZero | backend/ml/train_npk_model_transfer.py:397-408 | A healthy or unrecognised folder yields [0, 0, 0]. |
| BalancedNpk.MappingIntoTargets | backend/ml/models/train_balanced_npk.py:64-100 | Every mapped class is a target class. |
| BalancedNpk.NormalizeClassName | backend/ml/models/train_balanced_npk.py:119-127 | On the stripped name: an exact lookup, then a lower-case lookup, and None iff both miss. Every non-None result is a target class. |
| BalancedNpk.NonEmptyCounts | backend/ml/models/train_balanced_npk.py:204-206 | Only positive counts. The list is empty iff every class is empty. |
| BalancedNpk.Insert | backend/ml/models/train_balanced_npk.py:208 | Sorted insertion keeps the list sorted and adds the element to the multiset. |
| BalancedNpk.Sort | backend/ml/models/train_balanced_npk.py:208 | A sorted permutation of the counts. |
| BalancedNpk.Median | backend/ml/models/train_balanced_npk.py:208 | The median of sorted counts lies between their minimum and maximum. |
| BalancedNpk.TargetCount | backend/ml/models/train_balanced_npk.py:208 | `max(500, int(median))` is at least both and equals one of them. |
| BalancedNpk.MedianWithinCounts | backend/ml/models/train_balanced_npk.py:208 | The median is bounded below and above by actual counts. |
| BalancedNpk.Choices | backend/ml/models/train_balanced_npk.py:219-221 | `needed` images drawn from the class. |
| BalancedNpk.Sample | backend/ml/models/train_balanced_npk.py:223-225 | `k` images forming a sub-multiset of the class. |
| BalancedNpk.BalanceClass | backend/ml/models/train_balanced_npk.py:211-227 | An empty class stays empty. A short class is extended to the target, keeping its images first. A class over twice the target is sampled down to the target. Any other class is unchanged. Every image comes from the class. |
| BalancedNpk.TargetsDistinct | backend/ml/models/train_balanced_npk.py:90-100 | The nine target classes are distinct. |
| BalancedNpk.BalanceTargets | backend/ml/models/train_balanced_npk.py:210-229 | `KeyError` iff a target class is missing. Otherwise the keys are kept, non-target classes are unchanged, and every target class is balanced. |
| BalancedNpk.OversampleMinorityClasses | backend/ml/models/train_balanced_npk.py:197-229 | With no images, the input is returned. It fails iff there are images and a target class is missing. Otherwise every target class is balanced to between `max(500, median)` and twice that, in the sense of `BalanceClass`. |
| PlantVillage.CategoryOf | backend/ml/prepare_plantvillage_data.py:235-261 | `healthy` first. Then nitrogen-like keywords, then potassium-like, then phosphorus-like, else general stress (iff in each case). |
| PlantVillage.InCategory | backend/ml/prepare_plantvillage_data.py:234-261 | A category's list holds only input classes of that category. |
| PlantVillage.InCategoryAppend | backend/ml/prepare_plantvillage_data.py:234-261 | The category lists keep the input order. |
| PlantVillage.CategoriesPartition | backend/ml/prepare_plantvillage_data.py:234-261 | The five lists together are exactly the input, counted with multiplicity. |
| PlantVillage.ExactlyOneCategory | backend/ml/prepare_plantvillage_data.py:234-261 | Every class is listed under its own category and no other. |
| PlantVillage.MapPlantVillage | backend/ml/prepare_plantvillage_data.py:226-261 | The loop fills exactly the five categories, each with its `InCategory` list. |
| StandardizeNames.TableValuesPrefixed | backend/test_confidence_v2.py:106-167 | Every table identifier starts with its crop and `_`. |
| StandardizeNames.CropPrefixed | backend/test_confidence_v2.py:106-167 | All identifiers of any one crop in the table start with that crop and `_`. |
| StandardizeNames.TableCrops | backend/test_confidence_v2.py:106-167 | The table's crops are the nine listed. |
| StandardizeNames.CleanSuffix | backend/test_confidence_v2.py:174-175 | The fallback suffix has no upper-case letter, space or hyphen. |
| StandardizeNames.StandardizeClassName | backend/test_confidence_v2.py:103-176 | A table hit gives the table entry. Otherwise the result is crop + `_` + the cleaned suffix. Always it starts with crop + `_`. |
| StandardizeNames.PrefixedNameSameAsBare | backend/test_confidence_v2.py:174-176 | Outside the table, `crop_rest` and `rest` standardise alike, because every `crop_` occurrence is removed first. |
| StandardizeNames.StandardNameKept | backend/test_confidence_v2.py:174-176 | A name already in standard form, with no second `crop_`, is returned unchanged. |
| StandardizeNames.ContainsLongerPattern | backend/test_confidence_v2.py:174 | A string holding `crop__` holds `crop_`. |
| Text.ReplaceAll | backend/test_confidence_v2.py:174-175 | `str.replace` leaves a string without the pattern unchanged. |
| Text.ReplaceCharPointwise | backend/test_confidence_v2.py:175 | Replacing one character by another rewrites exactly its positions and keeps the length. |
| Text.FirstToken | backend/ml/inference_v2.py:152-169 | `split(sep)[0]` is a sep-free prefix, followed by sep when shorter than the whole string. |
| Text.Strip | backend/ml/models/train_balanced_npk.py:121 | `strip()` leaves no leading or trailing whitespace and never lengthens the string. A string without either is returned unchanged. |

## Left out

- **Infrastructure:** Flask routes, the SQLite database, TensorFlow models,
  image processing, Grad-CAM, logging and file I/O. They are not decision
  logic. Model predictions, header values, file contents and the current
  date enter the model as parameters. The source reads `datetime.now()`
  separately for each window date, so a call that spans midnight can mix two
  days. The single `today` parameter does not capture this.
- **Rounding:** `round(x, n)` in the engine, report and inference results is
  presentation-only. It is not modelled, and the values are exact reals.
- **Report fields:** the report's `generated_at`, `report_version`, scan id
  and uuid are not modelled. The time-of-day part of `created_at` is ignored,
  and only its date is used.
- **Config file types:** keys the engine reads with `[...]` are mandatory
  fields of the configuration datatype, so a file lacking one (which would
  raise) is not represented. The `.get` fallback of
  `rescan_config.get(key, rescan_config["attention"])` never applies, since
  all three windows are mandatory.
- **None-valued keys:** a scan key that is present with the value `None` is
  not distinguished from a missing key.
- **Farmer info:** `farmer_info or {...}` also replaces an empty dict by
  the guest farmer. `GenerateReport` takes an `Option<FarmerInfo>`, which has
  no empty value, so only `None` falls back.
- **Fertilizer crop id:** `generate_fertilizer_recommendations` receives a
  crop id it does not use, and the model has no such parameter.
- **`Calendar.IsoDate`:** pads every year to four digits. CPython before 3.13
  on glibc writes `%Y` without padding, so a year below 1000 renders shorter
  there (year 500 as `500-01-08`). Only years 1000-9999 render alike.
- **Dates out of range:** Python raises `OverflowError` when a window date
  leaves the calendar (years 1-9999). `ClassifyHealth` and
  `RescanRecommendationFor` require the window to fit. `GenerateReport`
  returns an error for a `created_at` date whose window does not fit.
- **`Calendar.ParseIsoDate`:** follows the `fromisoformat` grammar of Python 3.7 to 3.10.
  Only the date part is checked; the separator at index 10 may be any
  character, and a malformed time part after it is accepted here although
  Python raises. The extra formats of Python 3.11 and later (`YYYYMMDD`,
  week dates) are rejected.
- **`HealthEngine.CalculateTrend`:** a negative epsilon is allowed by the
  type, but `TrendArrowAgrees` assumes a non-negative one, as every
  configuration of the project has.
- **`UnifiedInference.SelectTopClass`:**
  - requires as many labels as probabilities and at least one. The source
    takes `top_classes` from the model's outputs, which always exist.
  - Without the crop filter, how the global sort breaks ties is left open:
    the result is some label of maximal probability.
- **Crop filter in `predict_v2`:** the crop filter that zeroes
  other crops' probabilities (inference_v2.py:470-495) is not modelled.
  The weighted deficiency takes the probabilities as given.
- **`predict_v2` confidences:** `confidence_level` and the per-nutrient
  confidence fields derived from the top probability are not modelled.
- **Case handling:** `Text.Lower`, `Text.Upper` and `Text.Strip` handle
  ASCII letters and the six characters of Python's `string.whitespace` only.
  `str.strip()` also removes the ASCII separators \x1c-\x1f and Unicode
  spaces, and Python's Unicode case mapping applies beyond ASCII; neither is
  modelled.
- **Randomness:** `BalancedNpk.Choices` and `BalancedNpk.Sample` stand for
  `random.choices` and `random.sample`. Which images they pick, the seed, and
  that `random.sample` picks uniformly without replacement by position are
  not modelled. Only the count and the provenance of the images are.
- **Dict copy:** `BalancedNpk.OversampleMinorityClasses` takes the
  class-to-images dict as a value. That the caller's lists are not mutated
  (the source copies them) is therefore built in rather than proved.
- **Median on floats:** `BalancedNpk.Median` works on natural counts.
  `np.median`'s float average is truncated by `int` exactly as integer
  division does for non-negative values.
- **PlantVillage mapping:** `PlantVillage.MapPlantVillage` models only the
  categorising loop of `map_plantvillage_to_npk`. Directory listing and
  printing are left out.
