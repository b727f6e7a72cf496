# fintech-risk: multi-signal risk decision and fusion, in Dafny

This project models the part of fintech-risk that turns the signals of its risk engines
into one auditable `RiskDecision`, and proves properties of that model.

- **Fraud engine.** A transaction record goes through the following steps:
  - it is scored by the fraud scorer, which covers the isolation-forest or classifier
    branch, the `_scale_to_unit` clamp and the optional calibrator;
  - it is vectorised (numeric columns first, then one one-hot block per categorical
    column) and its feature names are laid out the same way;
  - its features are ranked by `|x - baseline|`;
  - the top three are mapped to reason codes through `FEATURE_TO_REASON`, with
    first-seen deduplication and one evidence item per mapped feature.
- **Text engine.** A customer text is fused from four sources, in this order:
  - rule hits, which name reasons;
  - label-similarity hits at or above 0.70, which also name reasons;
  - past cases at or above 0.75, which add evidence only;
  - taxonomy documents, which add evidence only.

  Its base score is the best label similarity.
- **Orchestrator.** It runs whichever engines the request asks for, fraud first. It
  concatenates their reasons, evidence and provenance, blends their base scores by
  maximum, and hands the result to the decision engine.
- **Decision engine.** It scores every taxonomy category that lists an observed reason as
  `min(1, base * severity + min(0.10, 0.03 * distinct matches))` and bands that score.
  - It falls back to `no_risk` when nothing matched, or when the base is below 0.60 with
    at most one distinct reason.
  - Otherwise the winner is the first category that maximises (score, severity, match
    count).
  - The decision records the sorted reason set, the per-category breakdown and the
    caller's metadata.
- **Surroundings:**
  - the taxonomy schema's validation and reason iteration;
  - the service's rule that an explanation failure never blocks the audit write;
  - the audit writer's actor, entity, version and reason-code fields.

**Modelling conventions:**
- Scores are `real`.
- The taxonomy is an ordered sequence of (key, category) pairs, so dictionary insertion
  order is explicit.
- `ReasonCode` is a six-constructor datatype.
- JSON-like values (evidence values, metadata, raw input) are a small `Json` datatype.
- Python exceptions are the `Err` case of a `Result`.
- The collaborators the core calls but does not define are function-valued fields of the
  records that hold them. These are the model's `predict_proba` and `score_samples`,
  `apply_rules`, the embedding client, the case and RAG retrievers, the explainer, the
  audit writer and the square root inside the cosine.

**Imperative code and the specifications it is proved against:**
- The source's imperative functions are Dafny methods; those with loops carry their
  invariants. Each method is proved equal to a specification function:
  - `DecisionEngine.Decide` against `Decision`;
  - `Orchestrator.Score` against `ScoreOf`, recording the engine calls it makes;
  - `FraudExplain.TopContributions` and `ContributionsToReasonsAndEvidence`;
  - `FraudEngine.FeatureNames` and `Detect`;
  - `TextEngine.Detect` and its four loops;
  - `FraudVectorizer.OneHot`, which writes into an `array2`;
  - `FraudVectorizer.VectorizeDataframe`;
  - `Service.Score`, recording the collaborator calls it makes.
- The lemmas state what the source promises about those functions.

Sorting is one stable insertion sort (`Sorting.SortDesc`), whose lemmas give what
Python's `sorted(..., reverse=True)` promises. It is used for the per-category breakdown,
for `top_hits` and, on the indices from the last down to the first, for `argsort`: equal
weights then come out in the order a stable `argsort(...)[::-1]` gives.

## Model

| member | source | states |
|---|---|---|
| `DecisionEngine.BandFor` | libs/risk/decisioning/engine.py:23-33 | the band is "unknown" exactly when the category has no thresholds |
| `DecisionEngine.MediumBetweenThresholds` | libs/risk/decisioning/engine.py:29-33 | "high" exactly when the score reaches score_high; "medium" only for score_medium <= score < score_high, so never when score_medium >= score_high |
| `DecisionEngine.BandMonotone` | libs/risk/decisioning/engine.py:29-33 | a higher score never gets a lower band, whatever order the two thresholds are in |
| `DecisionEngine.Matched` | libs/risk/decisioning/engine.py:55 | the matched list holds exactly the observed reasons the category lists, duplicates kept |
| `DecisionEngine.CandidateScoreBounds` | libs/risk/decisioning/engine.py:58-60 | the boost lies in [0, 0.10] and is at least 0.03 with one match; the score never exceeds 1 or base*severity + 0.10, and lies in [0, 1] when base and severity do |
| `DecisionEngine.BoostCapExample` | libs/risk/decisioning/engine.py:59-60 | with base 0.9 and severity 1, four or more distinct matches cap the boost at 0.10 and the score at exactly 1 |
| `DecisionEngine.Candidate` | libs/risk/decisioning/engine.py:52-68 | a category is a candidate exactly when its key is not "no_risk" and it lists an observed reason; the candidate carries its key and severity |
| `DecisionEngine.CandidateOf` | libs/risk/decisioning/engine.py:58-68 | a candidate's matched reasons are the sorted distinct matches, its count their number, its score the capped formula and its band that score's band |
| `DecisionEngine.Candidates` | libs/risk/decisioning/engine.py:51-68 | no candidate is "no_risk" or banded "unknown"; each scores at most 1 and has a match count equal to its at least one matched reasons |
| `DecisionEngine.CandidateNames` | libs/risk/decisioning/engine.py:52-57 | the candidates' names are exactly the keys of the categories, other than "no_risk", that list an observed reason |
| `DecisionEngine.CandidatesFromTaxonomy` | libs/risk/decisioning/engine.py:52-68 | every candidate is the candidate of the category its name keys, and candidates follow taxonomy order |
| `DecisionEngine.CandidateIncluded` | libs/risk/decisioning/engine.py:52-68 | a category that yields a candidate has it among the candidates |
| `DecisionEngine.CandidateAt` | libs/risk/decisioning/engine.py:52-68 | the p-th candidate is the candidate of the category its name keys |
| `DecisionEngine.CandidatePosition` | libs/risk/decisioning/engine.py:52-68 | the candidate of category j appears among the candidates at a position whose key is j |
| `DecisionEngine.CandidateOrderAt` | libs/risk/decisioning/engine.py:52-68 | earlier candidates come from earlier categories |
| `DecisionEngine.CandidatesStep` | libs/risk/decisioning/engine.py:52-68 | one turn of the category loop appends that category's candidate, if any |
| `DecisionEngine.SingleCategory` | libs/risk/decisioning/engine.py:52-68 | a one-category taxonomy has that category's candidate, if any, as its only candidate |
| `DecisionEngine.CandidatesInUnit` | libs/risk/decisioning/engine.py:58-60 | with a non-negative base and severities in [0, 1], every candidate scores in [0, 1] |
| `DecisionEngine.KeyIndex` | libs/risk/decisioning/engine.py:52 | the position of the first category with a given key, or the length when none has it |
| `DecisionEngine.BestIndex` | libs/risk/decisioning/engine.py:86 | `max` by (score, severity, matched_count): no candidate has a larger key, and every earlier one has a strictly smaller key |
| `DecisionEngine.BestBeatsAll` | libs/risk/decisioning/engine.py:86 | the best candidate is its category's candidate; no category's candidate beats it, and every earlier category's is strictly worse |
| `DecisionEngine.DecisionWinner` | libs/risk/decisioning/engine.py:86-91 | outside no-risk, the decision's category, score, severity and band are the winner's, and the winner is the earliest category with the largest (score, severity, count) |
| `DecisionEngine.WinnerDecision` | libs/risk/decisioning/engine.py:86-114 | the winner's category and score become the decision's, its band and severity the metadata's; evidence and provenance are passed through, the reasons are the observed set, and the metadata keys are the caller's plus the five the decision writes |
| `DecisionEngine.SoleCandidateWins` | libs/risk/decisioning/engine.py:86-91 | with a base of at least 0.60, a sole candidate scoring in [0, 1] becomes the decision with its score and band |
| `DecisionEngine.DecisionNoRisk` | libs/risk/decisioning/engine.py:70-84 | the decision is "no_risk" exactly when there are no candidates or base < 0.60 with at most one distinct reason; it then scores clamp(base, 0, 1) with severity 0, band "low" and a single "no_risk" breakdown entry holding all observed reasons |
| `DecisionEngine.ShouldNoRisk` | libs/risk/decisioning/engine.py:36-41 | without candidates the fallback always applies; with one it applies for a base below 0.60 with at most one distinct reason, and never for a base of 0.60 or more or for two distinct reasons |
| `DecisionEngine.NoRiskDecision` | libs/risk/decisioning/engine.py:70-84 | category "no_risk", score the base clamped into [0, 1], band "low" and severity 0 in the metadata, the base recorded as is; evidence, provenance and the observed reasons carried over |
| `DecisionEngine.Decision` | libs/risk/decisioning/engine.py:48-114 | a decision scores in [0, 1], passes evidence and provenance through and carries exactly the observed reasons; the validation error arises only when some category is a candidate |
| `DecisionEngine.LowSingleReasonIsNoRisk` | libs/risk/decisioning/engine.py:39-40 | a base in [0, 0.60) with one distinct reason is "no_risk" at the base score, whatever the taxonomy |
| `DecisionEngine.DecisionBreakdown` | libs/risk/decisioning/engine.py:93-102 | outside no-risk, per_category_scores is every candidate, scores non-increasing, equal scores in taxonomy order, headed by the decision's score |
| `DecisionEngine.TopScoreIsBest` | libs/risk/decisioning/engine.py:86-102 | the first breakdown entry scores as much as the winner |
| `DecisionEngine.OutMeta` | libs/risk/decisioning/engine.py:104-111 | the output metadata has the caller's keys plus the five decision keys; the decision's values override, and every other caller value is kept |
| `DecisionEngine.DecisionMetadata` | libs/risk/decisioning/engine.py:104-111 | every decision's metadata keeps the caller keys it does not own and records the base score and the sorted observed reasons |
| `DecisionEngine.DecisionCarries` | libs/risk/decisioning/engine.py:113-114 | evidence and provenance pass through unchanged; the reasons are all observed reasons, distinct and sorted by value |
| `DecisionEngine.DecisionDefined` | libs/risk/decisioning/engine.py:70-114 | with a validated taxonomy, a non-negative base always decides, and every decision scores in [0, 1] |
| `DecisionEngine.Decide` | libs/risk/decisioning/engine.py:48-114 | the category loop, winner choice and metadata update compute `Decision`; a decision scores in [0, 1], carries evidence and provenance through and has the sorted distinct reasons |
| `DecisionEngine.FraudHighScenario` | libs/risk/decisioning/engine.py:48-114 | a fraud_high category with severity 0.9, base 0.75 and two matched reasons decides fraud_high at 0.735, banded "medium" |
| `DecisionEngine.ScenarioCandidate` | libs/risk/decisioning/engine.py:58-68 | in that scenario the category's candidate scores 0.735 and is banded "medium" |
| `DecisionTypes.FromString` | libs/risk/decisioning/reasons.py:4-12 | lookup by value returns only a member with that value |
| `DecisionTypes.FromStringIff` | libs/risk/decisioning/reasons.py:4-12 | lookup by value finds a member exactly when the string is that member's value |
| `DecisionTypes.ValueInjective` | libs/risk/decisioning/reasons.py:5-12 | distinct members have distinct values |
| `DecisionTypes.RankIsValueOrder` | libs/risk/decisioning/reasons.py:5-12 | ordering members by rank is ordering their values as Python orders strings |
| `DecisionTypes.SortedCodes` | libs/risk/decisioning/engine.py:110-113 | `sorted(set(rs))`: exactly the observed members, distinct, ascending by value, as many as the distinct observed reasons |
| `DecisionTypes.CodesJson` | libs/risk/decisioning/engine.py:110 | the list of the codes' values, position by position |
| `Taxonomy.ValidateThresholds` | libs/risk/taxonomy/schema.py:3-5 | thresholds validate exactly when both scores are present and in [0, 1], with no order required between them |
| `Taxonomy.ValidateCategory` | libs/risk/taxonomy/schema.py:7-11 | a category validates exactly when label, severity in [0, 1] and valid thresholds are present; reasons default to empty |
| `Taxonomy.ValidateCategories` | libs/risk/taxonomy/schema.py:17 | the categories validate exactly when each does, keeping keys and order |
| `Taxonomy.ValidateTaxonomy` | libs/risk/taxonomy/schema.py:13-17 | a taxonomy validates exactly when version, owner and every category do; categories default to empty; the result is a valid taxonomy |
| `Taxonomy.IterReasonCodesMember` | libs/risk/taxonomy/schema.py:19-22 | a reason is yielded exactly when some category lists it |
| `Taxonomy.IterReasonCodesLength` | libs/risk/taxonomy/schema.py:19-22 | duplicates across categories are kept: one item per listed reason |
| `Taxonomy.IterReasonCodesAppend` | libs/risk/taxonomy/schema.py:19-22 | yielding goes category by category in insertion order |
| `FraudExplain.FeatureToReason` | libs/ml/fraud/explain.py:18-26 | exactly the seven mapped features have a reason, and it is one of the three fraud reasons |
| `FraudExplain.BaseFeature` | libs/ml/fraud/explain.py:65 | `split("=")[0]`: the longest prefix without '=' |
| `FraudExplain.BaseFeatureOfOneHot` | libs/ml/fraud/explain.py:65-66 | a one-hot name "c=cat" maps through its column c, a plain name through itself |
| `FraudExplain.BaselineOrZeros` | libs/ml/fraud/explain.py:35-39 | the baseline has the vector's length and is all zeros when none is given |
| `FraudExplain.Weights` | libs/ml/fraud/explain.py:41 | each weight is non-negative and is x[i] - b[i] or b[i] - x[i] |
| `FraudExplain.TopIndices` | libs/ml/fraud/explain.py:42 | min(k, n) indices are chosen, each a position of the weights |
| `FraudExplain.SortedIndices` | libs/ml/fraud/explain.py:42 | the full descending order holds each index once, with weights non-increasing |
| `FraudExplain.TopIndicesProps` | libs/ml/fraud/explain.py:42 | the chosen indices are distinct positions with non-increasing weights, and no index left out outweighs a chosen one |
| `FraudExplain.TopIndicesTieOrder` | libs/ml/fraud/explain.py:42 | among equal weights the later index comes first, as a stable ascending argsort reversed puts them |
| `FraudExplain.TopContributionsOf` | libs/ml/fraud/explain.py:44-54 | min(k, n) contributions |
| `FraudExplain.TopContributions` | libs/ml/fraud/explain.py:29-54 | the append loop builds `TopContributionsOf`, min(k, n) items |
| `FraudExplain.TopContributionsOrder` | libs/ml/fraud/explain.py:42-53 | weights never increase along the result |
| `FraudExplain.TopContributionsFrom` | libs/ml/fraud/explain.py:46-52 | each item's feature, weight, value and baseline come from one index i, with weight |x[i] - b[i]| |
| `FraudExplain.TopContributionsNoBaseline` | libs/ml/fraud/explain.py:35-37 | without a baseline each item has baseline 0 and weight |x[i]| |
| `FraudExplain.TopContributionsDominate` | libs/ml/fraud/explain.py:42 | no feature left out weighs more than a kept one |
| `FraudExplain.TopContributionAt` | libs/ml/fraud/explain.py:45-53 | the j-th contribution is built from the j-th chosen index |
| `FraudExplain.MappedReasons` | libs/ml/fraud/explain.py:64-70 | at most one reason per contribution, each a fraud reason |
| `FraudExplain.MappedEvidence` | libs/ml/fraud/explain.py:70-80 | one "fraud.explain" item with no threshold per mapped contribution |
| `FraudExplain.ContributionEvidence` | libs/ml/fraud/explain.py:72-80 | a "fraud.explain" item without threshold whose value names the column (the feature before any "="), that column's raw input value and the weight, with the baseline in its metadata |
| `FraudExplain.MappedPairs` | libs/ml/fraud/explain.py:64-80 | the i-th evidence item names a feature that maps to the i-th mapped reason |
| `FraudExplain.DedupReasons` | libs/ml/fraud/explain.py:82-88 | the seen-set loop keeps first occurrences in order: distinct, with the same set |
| `FraudExplain.ContributionsToReasonsAndEvidence` | libs/ml/fraud/explain.py:57-88 | the loops return the deduplicated mapped reasons and the undeduplicated evidence |
| `FraudExplain.ReasonsTraceToEvidence` | libs/ml/fraud/explain.py:64-88 | the reasons are distinct with the mapped set, no more than the evidence items, and each is backed by an item whose feature maps to it |
| `FraudFeatures.Dump` | libs/risk/fraud/schema.py:4-16 | `model_dump()` has the nine field names with the record's values |
| `FraudFeatures.Denominator` | libs/risk/fraud/features.py:14 | the denominator is positive: the 30-day average when positive, else 1 |
| `FraudFeatures.DeriveFeatures` | libs/risk/fraud/features.py:10-17 | velocities are the counts, ratio * denominator is the amount; it fails exactly on a negative count or amount |
| `FraudFeatures.DeriveFeaturesValid` | libs/risk/fraud/features.py:4-17 | a schema-valid record always derives three non-negative features; a zero average leaves the amount as the ratio |
| `FraudEngine.OneHotNames` | libs/risk/fraud/engine.py:29-30 | one "c=cat" name per category, in order |
| `FraudEngine.NameBlocks` | libs/risk/fraud/engine.py:28-30 | one block of one-hot names per categorical column, in column order |
| `FraudEngine.AppendOneHotNames` | libs/risk/fraud/engine.py:29-30 | the inner loop appends the column's one-hot names |
| `FraudEngine.FeatureNames` | libs/risk/fraud/engine.py:26-30 | the nested loops give the numeric columns then the one-hot names; a column without categories is the KeyError |
| `FraudEngine.FeatureNamesLength` | libs/risk/fraud/engine.py:26-30 | as many names as numeric columns plus all categories |
| `FraudEngine.FeatureNamesLayout` | libs/risk/fraud/engine.py:26-30 | numeric names first in order; the name at block b's offset plus j is "c=cat" for that column and category |
| `FraudEngine.NamesDescribeVector` | libs/risk/fraud/engine.py:24-30 | the names match the vector entry by entry: a numeric name labels its value, "c=cat" labels that one-hot cell |
| `FraudEngine.DefaultFeatureNames` | libs/ml/fraud/vectorizer.py:13-16 | the default layout names 15 features: 7 numeric, 3 currencies, 5 countries |
| `FraudEngine.Detect` | libs/risk/fraud/engine.py:21-36 | the detect method computes `DetectOf` |
| `FraudEngine.DetectOf` | libs/risk/fraud/engine.py:21-36 | a detection scores in [0, 1], its reasons are distinct and its provenance names the fraud engine |
| `FraudEngine.DetectSignals` | libs/risk/fraud/engine.py:21-36 | base score is the scorer's score in [0, 1]; at most 3 evidence items and no more reasons, distinct fraud reasons each backed by evidence; provenance "fraud_engine" with the bundle's name and version |
| `FraudEngine.DetectDefined` | libs/risk/fraud/engine.py:21-36 | a schema-valid record covering the layout always detects, unless a Platt calibrator leaves [0, 1] |
| `FraudEngine.DetectAttribution` | libs/risk/fraud/engine.py:24-32 | attribution sees the record's own vector with a zero baseline: each weight is |x[i]| under the layout's name |
| `FraudScoring.EffectiveHi` | libs/risk/fraud/scorer.py:12 | the bound used is always above lo, so there is no division by zero |
| `FraudScoring.ScaleToUnit` | libs/risk/fraud/scorer.py:11-13 | the result lies in [0, 1] |
| `FraudScoring.ScaleToUnitEnds` | libs/risk/fraud/scorer.py:11-13 | x <= lo gives 0, x >= hi (hi > lo) gives 1, and in between the linear position |
| `FraudScoring.ScaleToUnitMonotone` | libs/risk/fraud/scorer.py:13 | non-decreasing in x |
| `FraudScoring.ScaleToUnitDegenerate` | libs/risk/fraud/scorer.py:12 | with hi <= lo, a step of width 1e-6 above lo |
| `FraudScoring.ScalingBounds` | libs/risk/fraud/scorer.py:29-38 | p01/p99 are used only when both are numbers (`NumericValue`), else 0 and 1 stay |
| `FraudScoring.Calibrate` | libs/risk/fraud/scorer.py:59-63 | isotonic output lies in [0, 1] |
| `FraudScoring.Raw01` | libs/risk/fraud/scorer.py:40-57 | the raw score lies in [0, 1] on both branches |
| `FraudScoring.Score` | libs/risk/fraud/scorer.py:48-65 | score and raw_score lie in [0, 1]; model type passes through; without a calibrator score equals raw_score |
| `FraudScoring.ScoreBranches` | libs/risk/fraud/scorer.py:48-65 | probability types use the probability clamped to [0, 1]; raw_score is raw01 and score the calibrated raw01; without a Platt calibrator it never fails |
| `TextSimilarity.NormOrOne` | libs/risk/text/similarity.py:10-11 | a zero norm counts as 1, so the divisor is never zero |
| `TextSimilarity.Cosine` | libs/risk/text/similarity.py:8-12 | the similarity lies in [0, 1] |
| `TextSimilarity.CosineZeroVector` | libs/risk/text/similarity.py:9-12 | a zero query vector scores 0 against every vector |
| `TextSimilarity.Scored` | libs/risk/text/similarity.py:15 | every label with its similarity, in label order |
| `TextSimilarity.TopHits` | libs/risk/text/similarity.py:14-17 | min(k, number of labels) hits |
| `TextSimilarity.TopHitsFromLabels` | libs/risk/text/similarity.py:15-17 | each hit is a label with its own similarity in [0, 1] |
| `TextSimilarity.TopHitsDistinct` | libs/risk/text/similarity.py:15-17 | no label is hit twice |
| `TextSimilarity.TopHitsOrder` | libs/risk/text/similarity.py:16-17 | scores are non-increasing, and hits with equal scores keep the labels' insertion order |
| `TextSimilarity.TopHitsDominate` | libs/risk/text/similarity.py:16-17 | a label left out scores no higher than any hit |
| `Sorting.SortDescProps` | libs/risk/decisioning/engine.py:102 | `sorted(..., reverse=True)` is a permutation, largest first, and stable |
| `TextEngine.CodeOf` | libs/risk/text/engine.py:23-27 | `_to_reason`'s result as zero or one code |
| `TextEngine.RuleCodes` | libs/risk/text/engine.py:43-45 | at most one reason per rule hit |
| `TextEngine.RuleCodesMember` | libs/risk/text/engine.py:43-45 | a reason is a rule reason exactly when some hit's string converts to it |
| `TextEngine.RuleReasonsByValue` | libs/risk/text/engine.py:23-45 | with `_to_reason`, exactly when some rule hit carries the reason's value |
| `TextEngine.SimilarityCodes` | libs/risk/text/engine.py:54-56 | at most one reason per similarity hit |
| `TextEngine.SimilarityCodesMember` | libs/risk/text/engine.py:54-57 | a reason is a similarity reason exactly when a hit at or above 0.70 has a label converting to it |
| `TextEngine.SimilarityReasonsByValue` | libs/risk/text/engine.py:54-59 | with `_to_reason`, exactly when a hit at or above 0.70 carries the reason's value |
| `TextEngine.RuleEvidenceOf` | libs/risk/text/engine.py:43-48 | one "text.rules" item per rule hit, whatever its reason string |
| `TextEngine.SimilarityEvidenceOf` | libs/risk/text/engine.py:54-60 | similarity items are "text.embedding_similarity" with threshold 0.70 |
| `TextEngine.SimilarityEvidenceMember` | libs/risk/text/engine.py:54-60 | every hit at or above 0.70 has its item, even with a seen reason, and every item is such a hit's |
| `TextEngine.CaseEvidenceOf` | libs/risk/text/engine.py:62-67 | case items are "text.case_retrieval" with threshold 0.75 |
| `TextEngine.CaseEvidenceMember` | libs/risk/text/engine.py:65-67 | every case at or above 0.75 has its item and every item is such a case's |
| `TextEngine.RagEvidenceOf` | libs/risk/text/engine.py:69-73 | one "rag.taxonomy" item per retrieved document, in order |
| `TextEngine.Take` | libs/risk/text/engine.py:67 | `s[:n]` is a prefix of length at most n, all of s when short |
| `TextEngine.MaxScore` | libs/risk/text/engine.py:52 | the maximum hit score, 0 with no hits |
| `TextEngine.RuleLoop` | libs/risk/text/engine.py:42-48 | the rule loop's reasons are the deduplicated rule codes, its seen set their set, its evidence one item per hit |
| `TextEngine.SimilarityLoop` | libs/risk/text/engine.py:54-60 | the similarity loop continues the dedup across rule and similarity codes and adds one item per hit at or above 0.70 |
| `TextEngine.AppendCaseEvidence` | libs/risk/text/engine.py:65-67 | the case loop appends the case items |
| `TextEngine.AppendRagEvidence` | libs/risk/text/engine.py:72-73 | the RAG loop appends one item per document |
| `TextEngine.Detect` | libs/risk/text/engine.py:37-76 | the detect method computes `DetectOf` |
| `TextEngine.DetectOf` | libs/risk/text/engine.py:37-76 | the base score lies in [0, 1], the reasons are distinct and the provenance names the text engine |
| `TextEngine.TextReasons` | libs/risk/text/engine.py:40-59 | reasons are distinct, exactly the values named by rule hits or by hits at or above 0.70, rule reasons first in first-seen order |
| `TextEngine.TextEvidenceLayout` | libs/risk/text/engine.py:42-73 | evidence is the rule items, then similarity, then case, then RAG items |
| `TextEngine.EvidenceRankAt` | libs/risk/text/engine.py:42-73 | the stage of each evidence item is fixed by its position |
| `TextEngine.TextEvidenceOrder` | libs/risk/text/engine.py:42-73 | the evidence sources never go back to an earlier stage |
| `TextEngine.RuleReasonBacked` | libs/risk/text/engine.py:43-48 | the rule item of a hit naming a reason backs it |
| `TextEngine.SimilarityReasonBacked` | libs/risk/text/engine.py:54-60 | a hit at or above 0.70 naming a reason has an item backing it |
| `TextEngine.TextReasonsTraceToEvidence` | libs/risk/text/engine.py:43-60 | every reason is backed by an item of the stream that produced it |
| `TextEngine.RetrievalEvidenceOnly` | libs/risk/text/engine.py:62-73 | without the retrievers, reasons, base score and provenance are unchanged, and the evidence is a prefix |
| `TextEngine.TextBase` | libs/risk/text/engine.py:50-76 | base is the best top-hit score in [0, 1], 0 without labels, at least 0.70 when a hit names a reason, unchanged by the rules; provenance "text_risk_engine", "embeddings:<model>", "v1" |
| `FraudVectorizer.Missing` | libs/ml/fraud/vectorizer.py:19 | exactly the required columns absent from the frame |
| `FraudVectorizer.EnsureColumns` | libs/ml/fraud/vectorizer.py:18-21 | an error exactly when a column is missing, naming every missing column |
| `FraudVectorizer.NumericRow` | libs/ml/fraud/vectorizer.py:37 | each numeric entry is its cell's value, in column order; otherwise some cell does not convert |
| `FraudVectorizer.NumericValue` | libs/ml/fraud/vectorizer.py:37 | integers and floats convert to themselves, booleans to 1.0 and 0.0, and nothing else converts; on a JSON value this is also the `isinstance(v, (int, float))` test and `float(v)` of libs/risk/fraud/scorer.py:37-38 |
| `FraudVectorizer.NumericMatrix` | libs/ml/fraud/vectorizer.py:37 | defined exactly when every row converts, row by row |
| `FraudVectorizer.IndexMap` | libs/ml/fraud/vectorizer.py:27 | each category maps to its last position in the list |
| `FraudVectorizer.OneHotRowShape` | libs/ml/fraud/vectorizer.py:28-31 | a listed value gets exactly one 1.0, at its category's position; any other value gets all zeros |
| `FraudVectorizer.OneHotCell` | libs/ml/fraud/vectorizer.py:27-31 | a cell is 1.0 exactly when the value is a string listed at that position and not listed again later, as the dict comprehension keeps the last index; otherwise 0.0 |
| `FraudVectorizer.OneHot` | libs/ml/fraud/vectorizer.py:24-32 | the loop writes a zero matrix with 1.0 at each listed value's category index |
| `FraudVectorizer.FirstUnlisted` | libs/ml/fraud/vectorizer.py:39-40 | none exactly when every categorical column has a category list |
| `FraudVectorizer.OneHotColumn` | libs/ml/fraud/vectorizer.py:40-41 | one column's block, row by row |
| `FraudVectorizer.ConcatBlocks` | libs/ml/fraud/vectorizer.py:42-45 | joining the numeric part and the blocks gives each row's vector |
| `FraudVectorizer.VectorizeDataframe` | libs/ml/fraud/vectorizer.py:35-46 | the method computes `Vectorize`: missing columns first, then conversion, then the KeyError |
| `FraudVectorizer.Vectorize` | libs/ml/fraud/vectorizer.py:35-46 | a matrix, one row per frame row, exactly when every column is present, every numeric cell converts and every categorical column has a category list; a missing column is reported before anything else, and the KeyError only after conversion succeeded |
| `FraudVectorizer.VectorizeSingle` | libs/ml/fraud/vectorizer.py:55-57 | one row when it succeeds; a sample lacking a required column is the missing-column error |
| `FraudVectorizer.VectorLayout` | libs/ml/fraud/vectorizer.py:37-45 | every row has |numeric| + sum of category-list lengths entries, numeric values first in column order |
| `FraudVectorizer.VectorBlockAt` | libs/ml/fraud/vectorizer.py:38-45 | block b sits after the numeric part and the earlier blocks, holding column b's one-hot cells |
| `FraudVectorizer.VectorizeSingleShape` | libs/ml/fraud/vectorizer.py:55-57 | a sample vectorises exactly when its columns exist, its numeric cells convert and every categorical column has a list; the result is one row |
| `FraudVectorizer.ExtractLabels` | libs/ml/fraud/vectorizer.py:49-52 | None exactly when the label column is absent; otherwise one label per row |
| `FraudVectorizer.IntValue` | libs/ml/fraud/vectorizer.py:52 | integers convert to themselves, booleans to 1 and 0, floats truncate toward zero (within 1 of the value, on its side of zero); nothing else converts |
| `Orchestrator.MaxOrZero` | libs/risk/orchestrator.py:42 | the maximum of the base scores, or 0.0 when there are none |
| `Orchestrator.Score` | libs/risk/orchestrator.py:22-45 | the method computes `ScoreOf` and makes exactly the engine calls `Invocations` lists |
| `Orchestrator.ScoreOf` | libs/risk/orchestrator.py:22-45 | an engine error propagates; a decision scores in [0, 1] under the orchestrator's provenance |
| `Orchestrator.Invocations` | libs/risk/orchestrator.py:28-40 | at most two calls; the fraud engine is called exactly with a transaction; a text call needs a case and comes last |
| `Orchestrator.EngineCallsOnce` | libs/risk/orchestrator.py:28-40 | fraud runs once exactly with a transaction, and first; text runs once exactly with a case and no fraud error |
| `Orchestrator.CollectParts` | libs/risk/orchestrator.py:28-42 | reasons, evidence and provenance are concatenated fraud first, undeduplicated; the base is the blend |
| `Orchestrator.BlendInUnit` | libs/risk/orchestrator.py:42 | the blend lies in [0, 1] and is at least each present base score |
| `Orchestrator.SignalsInUnit` | libs/risk/orchestrator.py:28-40 | both engines' base scores lie in [0, 1] |
| `Orchestrator.ScoreDecides` | libs/risk/orchestrator.py:42-45 | `score` decides on the collected signals of the engines that ran |
| `Orchestrator.DecideCollected` | libs/risk/orchestrator.py:42-45 | the decision carries the concatenated evidence, the union of reasons, the orchestrator provenance, the blended base, the presence flags and the engine provenances |
| `Orchestrator.OrchestratorMeta` | libs/risk/orchestrator.py:43-45 | the decision keeps the request's inputs_present and provenance entries next to the base score |
| `Orchestrator.OrchestratedDecision` | libs/risk/orchestrator.py:22-45 | every orchestrated decision has fraud-then-text evidence, the union of reasons, the fixed provenance, the blended base in [0, 1] and the presence flags |
| `Orchestrator.ScoreDefined` | libs/risk/orchestrator.py:22-45 | with a validated taxonomy and a fraud part that detects, `score` always decides, in [0, 1] |
| `Orchestrator.EmptyRequestNoRisk` | libs/risk/orchestrator.py:42-45 | an empty request calls no engine and decides "no_risk" at 0, with no reasons or evidence |
| `Service.Score` | libs/risk/service.py:22-37 | the method computes `ResultFor` and makes exactly the calls `CallsFor` lists |
| `Service.ResultFor` | libs/risk/service.py:22-37 | fails exactly when the orchestrator does; otherwise returns its decision unchanged, with no explanation unless asked for with an explainer configured |
| `Service.CallsFor` | libs/risk/service.py:22-37 | the orchestrator is called once, first; the audit writer exactly when a decision came back, and last; the explainer exactly when a decision came back, explanation was asked for and an explainer is configured |
| `Service.Respond` | libs/risk/service.py:25-37 | after the decision, explain if asked, then write the audit record |
| `Service.ExplanationNeverBlocksAudit` | libs/risk/service.py:25-37 | a decision is returned unchanged with the writer's result; orchestrator once first, audit once last, explainer only when asked and configured; a failing explainer leaves None |
| `Service.ServiceFailsOnlyWithOrchestrator` | libs/risk/service.py:23 | the service fails exactly when the orchestrator does, and then neither explains nor audits |
| `Audit.ReasonCodesColumn` | libs/audit/writer.py:174 | the reason values in decision order |
| `Audit.ReasonCodesRoundTrip` | libs/audit/writer.py:174 | each entry converts back to the decision's reason at that position |
| `Audit.OrchestratedVersions` | libs/audit/writer.py:91-93 | orchestrated decisions are audited as "multi_engine" "v1" without prompt version |
| `Audit.ActorAndEntityOfRequest` | libs/audit/writer.py:76-88 | the actor is the text part's customer id; the entity is the case when it has a non-empty id, else "transaction" with a fraud part, else none |
| `Audit.PickActor` | libs/audit/writer.py:76-78 | the text part's customer_id when the text part is a dict (an empty one gives None), else None |
| `Audit.PickEntity` | libs/audit/writer.py:81-88 | "text_case" with the case id exactly when the text part is a dict with a truthy case_id; otherwise no id, and "transaction" when the fraud part is a dict, else no type |
| `Audit.ModelPromptVersions` | libs/audit/writer.py:91-93 | the decision provenance's model name, model version and prompt version, in that order |

## Left out

- Database I/O is not modelled. This covers the audit table's DDL and insert, the connection, `hash_payload` and the JSON encoding of columns. Only the `reason_codes` column before encoding, the actor and entity choice and the version columns are modelled.
- The model internals are not modelled: training, calibration fitting and artifact loading. A bundle's model is its `predict_proba` and `score_samples` on the feature row. A calibrator is the function it computes.
- FraudScoring.ScalingBounds: the constructor's reading of `metrics.json` from disk is not modelled. The model starts from the two JSON values it reads.
- Embedding clients, the label index loader, the case and RAG retrievers and `apply_rules` are functions of the case text. Their network and regular-expression work is not modelled.
- TextSimilarity.Cosine: the square root is a parameter, so the proved bounds hold for any value it returns.
- Floating point is not modelled. Scores are exact reals, float32 casts and rounding are dropped, and 1e-6 is the exact real.
- FraudExplain.TopIndices: numpy's default `argsort` is not stable, so the source's order among equal weights is unspecified. The model takes the order of a stable `argsort` reversed, which is decreasing index; an unstable sort may pick other tied indices at the k cut. `TopIndicesProps` states what holds whatever the tie order.
- Seen-sets over `.value` strings are sets of reason codes. This is equivalent because values are injective (DecisionTypes.ValueInjective).
- FraudVectorizer.OneHotCell: `astype(str)` of a non-string cell is not modelled, so a non-string cell matches no category. The fraud record's categorical fields are strings.
- FraudVectorizer.NumericValue: a numeric string cell, which pandas would parse, is rejected.
- FraudVectorizer.NumericRow: a null cell, or a column that one row of a multi-row frame lacks, is NaN in the source after `astype("float32")` and raises nothing; the model has no NaN among its reals and reports `NotNumeric`. The fraud engine never reaches this case, because it vectorises a complete validated record.
- FraudVectorizer.ExtractLabels: a numeric-string label such as "1", which `astype("int64")` parses, is rejected as `NotInteger`.
- Audit.ActorAndEntityOfRequest: `str(case_id)` is the identity here, because the case id is a string by schema.
- Service.Score: an exception raised by the audit writer is not modelled; the writer always returns a result.
- Orchestrator.Score: only fraud-engine exceptions are modelled. The text engine always returns its signals.
- TextCase validation (non-empty text, channel values) is not modelled.
- `top_hits` with a negative `k` is not modelled, because `k` is a natural number. The engines always pass 3.
- Band "unknown" is unreachable in decisions, because validated categories always carry thresholds. The 0.85 and 0.60 fallbacks of `_band_for` are unreachable for the same reason.
- DecisionEngine.Decide: a negative base can make the winner's score negative. RiskDecision's validation then raises, which is modelled as `Err`. The orchestrator never passes a negative base.
- FraudScoring.Score: a Platt calibrator's output outside [0, 1] fails FraudScoreOutput's validation, which is modelled as `Err`.
- LLM explanation generation, prompts, the web UI, the HTTP app, dependency wiring, settings, synthetic data generation and the model registry are not part of this model.
