/** libs/risk/decisioning/engine.py: category scoring, banding, the no-risk
    fallback, winner selection and the per-category breakdown. */
module DecisionEngine {
  import opened Wrappers
  import opened Seqs
  import opened Sorting
  import opened DecisionTypes
  import opened Taxonomy
  import opened Numbers

  datatype Band = Low | Medium | High | Unknown

  function BandName(b: Band): string {
    match b
    case Low => "low"
    case Medium => "medium"
    case High => "high"
    case Unknown => "unknown"
  }

  /** `_band_for`; None stands for a category without thresholds. */
  function BandFor(score: real, t: Option<Thresholds>): (b: Band)
    ensures b == Unknown <==> t.None?
  {
    match t
    case None => Unknown
    case Some(th) =>
      if score >= th.scoreHigh then High
      else if score >= th.scoreMedium then Medium
      else Low
  }

  function BandRank(b: Band): nat {
    match b
    case Unknown => 0
    case Low => 0
    case Medium => 1
    case High => 2
  }

  /** A higher score never gets a lower band, whatever order the thresholds are in. */
  lemma BandMonotone(s1: real, s2: real, t: Thresholds)
    requires s1 <= s2
    ensures BandRank(BandFor(s1, Some(t))) <= BandRank(BandFor(s2, Some(t)))
  {
  }

  /** "medium" lies between the two thresholds, so it never occurs when score_medium >= score_high. */
  lemma MediumBetweenThresholds(s: real, t: Thresholds)
    ensures BandFor(s, Some(t)) == Medium ==> t.scoreMedium <= s < t.scoreHigh
    ensures BandFor(s, Some(t)) == High <==> s >= t.scoreHigh
  {
  }

  /** `_CategoryScore`, also the shape of each per-category breakdown entry. */
  datatype CategoryScore = CategoryScore(
    category: string,
    severity: real,
    matchedReasons: seq<ReasonCode>,
    matchedCount: nat,
    score: real,
    band: Band)

  /** `[r for r in rs if r in cfg.reasons]`: observed reasons the category lists, duplicates kept. */
  function Matched(rs: seq<ReasonCode>, cfg: CategoryConfig): (m: seq<ReasonCode>)
    ensures forall x :: x in m <==> x in rs && Value(x) in cfg.reasons
    ensures |m| <= |rs|
  {
    if rs == [] then []
    else
      var rest := Matched(rs[1..], cfg);
      assert forall x :: x in rs <==> x == rs[0] || x in rs[1..];
      (if Value(rs[0]) in cfg.reasons then [rs[0]] else []) + rest
  }

  /** The corroboration boost for `n` distinct matched reasons. */
  function Boost(n: nat): real {
    Min(0.10, 0.03 * n as real)
  }

  function CandidateScore(base: real, severity: real, n: nat): real {
    Min(1.0, base * severity + Boost(n))
  }

  /** The boost is at most 0.10 and never negative; the score never exceeds 1, and
      stays in [0, 1] when base and severity do. */
  lemma CandidateScoreBounds(base: real, severity: real, n: nat)
    ensures 0.0 <= Boost(n) <= 0.10
    ensures n >= 1 ==> Boost(n) >= 0.03
    ensures CandidateScore(base, severity, n) <= 1.0
    ensures CandidateScore(base, severity, n) <= base * severity + 0.10
    ensures InUnit(base) && InUnit(severity) ==> InUnit(CandidateScore(base, severity, n))
  {
    if InUnit(base) && InUnit(severity) {
      MulUnit(base, severity);
    }
  }

  lemma MulUnit(a: real, b: real)
    requires InUnit(a) && InUnit(b)
    ensures InUnit(a * b)
  {
    assert 0.0 <= a * b by {
      if a > 0.0 && b > 0.0 {
        assert a * b > 0.0 * b;
      }
    }
    assert a * b <= 1.0 * b;
  }

  /** Some observed reason is listed by the category. */
  predicate Lists(rs: seq<ReasonCode>, listed: seq<string>) {
    exists r :: r in rs && Value(r) in listed
  }

  /** The scored entry for one taxonomy category, or None when it is skipped. */
  function Candidate(name: string, cfg: CategoryConfig, rs: seq<ReasonCode>, base: real): (c: Option<CategoryScore>)
    ensures c.Some? <==> name != "no_risk" && Lists(rs, cfg.reasons)
    ensures c.Some? ==> c.value.category == name && c.value.severity == cfg.severity
  {
    if name == "no_risk" then None
    else
      var matched := Matched(rs, cfg);
      if matched == [] then None
      else
        assert matched[0] in matched;
        var distinct := SortedCodes(matched);
        assert matched[0] in distinct;
        var score := CandidateScore(base, cfg.severity, |distinct|);
        Some(CategoryScore(name, cfg.severity, distinct, |distinct|, score,
                           BandFor(score, Some(cfg.thresholds))))
  }

  /** A category not keyed "no_risk" with matched reasons is scored from their sorted,
      de-duplicated codes. */
  lemma CandidateOf(name: string, cfg: CategoryConfig, rs: seq<ReasonCode>, base: real)
    requires name != "no_risk" && Matched(rs, cfg) != []
    ensures var distinct := SortedCodes(Matched(rs, cfg));
            var score := CandidateScore(base, cfg.severity, |distinct|);
            Candidate(name, cfg, rs, base) ==
              Some(CategoryScore(name, cfg.severity, distinct, |distinct|, score, BandFor(score, Some(cfg.thresholds))))
  {
  }

  /** The candidates, in taxonomy order. None is named "no_risk", each carries at least
      one matched reason, none scores above 1 and none has band "unknown". */
  function Candidates(cats: seq<(string, CategoryConfig)>, rs: seq<ReasonCode>, base: real): (cs: seq<CategoryScore>)
    ensures |cs| <= |cats|
    ensures forall c :: c in cs ==> c.category != "no_risk" && c.band != Unknown && c.score <= 1.0 &&
                                    1 <= c.matchedCount == |c.matchedReasons|
  {
    CandidatesShape(cats, rs, base);
    FilterMap(cats, CandidateFor(rs, base))
  }

  /** `Candidate` as a function of one taxonomy entry. */
  function CandidateFor(rs: seq<ReasonCode>, base: real): ((string, CategoryConfig)) -> Option<CategoryScore> {
    (e: (string, CategoryConfig)) => Candidate(e.0, e.1, rs, base)
  }

  lemma CandidatesShape(cats: seq<(string, CategoryConfig)>, rs: seq<ReasonCode>, base: real)
    ensures forall c :: c in FilterMap(cats, CandidateFor(rs, base)) ==>
              c.category != "no_risk" && c.band != Unknown && c.score <= 1.0 && 1 <= c.matchedCount == |c.matchedReasons|
  {
    forall c | c in FilterMap(cats, CandidateFor(rs, base))
      ensures c.category != "no_risk" && c.band != Unknown && c.score <= 1.0 && 1 <= c.matchedCount == |c.matchedReasons|
    {
      FilterMapFrom(cats, CandidateFor(rs, base), c);
      var i :| 0 <= i < |cats| && CandidateFor(rs, base)(cats[i]) == Some(c);
      CandidateShape(cats[i].0, cats[i].1, rs, base);
    }
  }

  lemma CandidateShape(name: string, cfg: CategoryConfig, rs: seq<ReasonCode>, base: real)
    requires Candidate(name, cfg, rs, base).Some?
    ensures var c := Candidate(name, cfg, rs, base).value;
            c.band != Unknown && c.score <= 1.0 && 1 <= c.matchedCount == |c.matchedReasons|
  {
    CandidateScoreBounds(base, cfg.severity, |SortedCodes(Matched(rs, cfg))|);
  }

  /** Position of the first category with key `name` (|cats| when there is none). */
  function KeyIndex(cats: seq<(string, CategoryConfig)>, name: string): (i: nat)
    ensures i <= |cats|
    ensures i < |cats| ==> cats[i].0 == name
    ensures forall j :: 0 <= j < i ==> cats[j].0 != name
  {
    if cats == [] then 0
    else if cats[0].0 == name then 0
    else 1 + KeyIndex(cats[1..], name)
  }

  /** Every candidate comes from a category of the taxonomy, is scored as that
      category, and the candidates follow taxonomy order. */
  lemma CandidatesFromTaxonomy(cats: seq<(string, CategoryConfig)>, rs: seq<ReasonCode>, base: real)
    requires DistinctKeys(cats)
    ensures forall p :: 0 <= p < |Candidates(cats, rs, base)| ==>
              var c := Candidates(cats, rs, base)[p];
              var i := KeyIndex(cats, c.category);
              i < |cats| && Candidate(cats[i].0, cats[i].1, rs, base) == Some(c)
    ensures forall p, q :: 0 <= p < q < |Candidates(cats, rs, base)| ==>
              KeyIndex(cats, Candidates(cats, rs, base)[p].category) <
              KeyIndex(cats, Candidates(cats, rs, base)[q].category)
  {
    var cs := Candidates(cats, rs, base);
    var idx := FilterMapOrigins(cats, CandidateFor(rs, base));
    forall p | 0 <= p < |cs| ensures KeyIndex(cats, cs[p].category) == idx[p] {
      assert CandidateFor(rs, base)(cats[idx[p]]) == Some(cs[p]);
      KeyIndexOfKey(cats, idx[p]);
    }
  }


  /** A category that produces a candidate appears among the candidates. */
  lemma CandidateIncluded(cats: seq<(string, CategoryConfig)>, rs: seq<ReasonCode>, base: real, i: nat)
    requires i < |cats|
    requires Candidate(cats[i].0, cats[i].1, rs, base).Some?
    ensures Candidate(cats[i].0, cats[i].1, rs, base).value in Candidates(cats, rs, base)
  {
    FilterMapIncluded(cats, CandidateFor(rs, base), i);
  }

  lemma CandidatesStep(cats: seq<(string, CategoryConfig)>, i: nat, rs: seq<ReasonCode>, base: real)
    requires i < |cats|
    ensures var c := Candidate(cats[i].0, cats[i].1, rs, base);
            Candidates(cats[..i + 1], rs, base) == Candidates(cats[..i], rs, base) + (if c.Some? then [c.value] else [])
  {
    FilterMapStep(cats, CandidateFor(rs, base), i);
  }

  /** Python's tuple order on (score, severity, matched_count). */
  predicate KeyLess(a: CategoryScore, b: CategoryScore) {
    a.score < b.score ||
    (a.score == b.score && (a.severity < b.severity ||
                            (a.severity == b.severity && a.matchedCount < b.matchedCount)))
  }

  predicate SameKey(a: CategoryScore, b: CategoryScore) {
    a.score == b.score && a.severity == b.severity && a.matchedCount == b.matchedCount
  }

  /** `max(cs, key=...)`: the index of the first element with the largest key. */
  function BestIndex(cs: seq<CategoryScore>): (b: nat)
    requires cs != []
    ensures b < |cs|
    ensures forall j :: 0 <= j < |cs| ==> !KeyLess(cs[b], cs[j])
    ensures forall j :: 0 <= j < b ==> KeyLess(cs[j], cs[b])
  {
    if |cs| == 1 then 0
    else
      var b := BestIndex(cs[..|cs| - 1]);
      assert forall j :: 0 <= j < |cs| - 1 ==> cs[..|cs| - 1][j] == cs[j];
      if KeyLess(cs[b], cs[|cs| - 1]) then |cs| - 1 else b
  }

  /** `_should_no_risk`: without candidates the decision always falls back to "no_risk";
      with one, only a base below 0.60 backed by at most one distinct reason does. */
  function ShouldNoRisk(base: real, distinctObserved: nat, cs: seq<CategoryScore>): (b: bool)
    ensures cs == [] ==> b
    ensures base < 0.60 && distinctObserved <= 1 ==> b
    ensures cs != [] && base >= 0.60 ==> !b
    ensures cs != [] && distinctObserved >= 2 ==> !b
  {
    cs == [] || (base < 0.60 && distinctObserved <= 1)
  }

  function ScoreOf(c: CategoryScore): real { c.score }

  function CategoryJson(c: CategoryScore): Json {
    JObj(map["category" := JStr(c.category), "score" := JNum(c.score), "band" := JStr(BandName(c.band)),
             "severity" := JNum(c.severity), "matched_count" := JInt(c.matchedCount),
             "matched_reasons" := CodesJson(c.matchedReasons)])
  }

  function BreakdownJson(cs: seq<CategoryScore>): Json {
    JList(seq(|cs|, i requires 0 <= i < |cs| => CategoryJson(cs[i])))
  }

  /** The keys `decide` writes over the caller's metadata. */
  const DecisionKeys: set<string> :=
    {"risk_band", "severity", "base_score", "matched_reason_codes", "per_category_scores"}

  /** `dict(metadata or {})` followed by `update({...})`: the decision's keys win, every
      other caller key is kept with its value, and nothing else is added. */
  function OutMeta(caller: map<string, Json>, band: Band, severity: real, base: real,
                   observed: seq<ReasonCode>, breakdown: seq<CategoryScore>): (m: map<string, Json>)
    ensures m.Keys == caller.Keys + DecisionKeys
    ensures forall k :: k in caller && k !in DecisionKeys ==> m[k] == caller[k]
    ensures m["base_score"] == JNum(base) && m["risk_band"] == JStr(BandName(band))
    ensures m["severity"] == JNum(severity) && m["matched_reason_codes"] == CodesJson(observed)
    ensures m["per_category_scores"] == BreakdownJson(breakdown)
  {
    caller + map["risk_band" := JStr(BandName(band)), "severity" := JNum(severity),
                 "base_score" := JNum(base), "matched_reason_codes" := CodesJson(observed),
                 "per_category_scores" := BreakdownJson(breakdown)]
  }

  function CallerMeta(metadata: Option<map<string, Json>>): map<string, Json> {
    if metadata.Some? then metadata.value else map[]
  }

  /** The decision of the no-risk branch. */
  function NoRiskDecision(reasons: seq<ReasonCode>, evidence: seq<Evidence>, base: real,
                          prov: Provenance, metadata: Option<map<string, Json>>): (d: RiskDecision)
    ensures d.riskCategory == "no_risk" && InUnit(d.riskScore)
    ensures InUnit(base) ==> d.riskScore == base
    ensures base < 0.0 ==> d.riskScore == 0.0
    ensures base > 1.0 ==> d.riskScore == 1.0
    ensures d.evidence == evidence && d.provenance == prov
    ensures forall x :: x in d.reasons <==> x in reasons
    ensures d.metadata.Keys == CallerMeta(metadata).Keys + DecisionKeys
    ensures d.metadata["risk_band"] == JStr("low") && d.metadata["severity"] == JNum(0.0)
    ensures d.metadata["base_score"] == JNum(base)
  {
    var observed := SortedCodes(reasons);
    var s := Min(1.0, Max(0.0, base));
    RiskDecision(s, "no_risk", observed, evidence, prov,
                 OutMeta(CallerMeta(metadata), Low, 0.0, base, observed,
                         [CategoryScore("no_risk", 0.0, observed, |Elems(reasons)|, s, Low)]))
  }

  /** The decision for the winning candidate `best`, before RiskDecision validates it. */
  function WinnerDecision(best: CategoryScore, cands: seq<CategoryScore>, reasons: seq<ReasonCode>,
                          evidence: seq<Evidence>, base: real, prov: Provenance,
                          metadata: Option<map<string, Json>>): (d: RiskDecision)
    ensures d.riskScore == best.score && d.riskCategory == best.category
    ensures d.evidence == evidence && d.provenance == prov
    ensures forall x :: x in d.reasons <==> x in reasons
    ensures d.metadata.Keys == CallerMeta(metadata).Keys + DecisionKeys
    ensures d.metadata["risk_band"] == JStr(BandName(best.band)) && d.metadata["severity"] == JNum(best.severity)
  {
    var observed := SortedCodes(reasons);
    RiskDecision(best.score, best.category, observed, evidence, prov,
                 OutMeta(CallerMeta(metadata), best.band, best.severity, base, observed,
                         SortDesc(cands, ScoreOf)))
  }

  /** What `decide` returns. Err is the validation error RiskDecision raises when the
      winning score is outside [0, 1] (reachable only with a negative base score). */
  function Decision(tax: TaxonomyConfig, reasons: seq<ReasonCode>, evidence: seq<Evidence>, base: real,
                    prov: Provenance, metadata: Option<map<string, Json>>): (r: Result<RiskDecision, string>)
    ensures r.Ok? ==> InUnit(r.value.riskScore) && r.value.evidence == evidence && r.value.provenance == prov
    ensures r.Ok? ==> forall x :: x in r.value.reasons <==> x in reasons
    ensures r.Err? ==> Candidates(tax.categories, reasons, base) != []
  {
    var cands := Candidates(tax.categories, reasons, base);
    if ShouldNoRisk(base, |Elems(reasons)|, cands) then
      Ok(NoRiskDecision(reasons, evidence, base, prov, metadata))
    else
      var best := cands[BestIndex(cands)];
      if InUnit(best.score) then Ok(WinnerDecision(best, cands, reasons, evidence, base, prov, metadata))
      else Err("risk_score must be in [0, 1]")
  }

  /** `DecisionEngine.decide`. */
  method Decide(tax: TaxonomyConfig, reasons: seq<ReasonCode>, evidence: seq<Evidence>, base: real,
                prov: Provenance, metadata: Option<map<string, Json>>)
    returns (res: Result<RiskDecision, string>)
    ensures res == Decision(tax, reasons, evidence, base, prov, metadata)
    ensures res.Ok? ==> InUnit(res.value.riskScore)
    ensures res.Ok? ==> res.value.evidence == evidence && res.value.provenance == prov
    ensures res.Ok? ==> (forall x :: x in res.value.reasons <==> x in reasons) && Distinct(res.value.reasons)
    ensures res.Ok? ==> forall i, j :: 0 <= i < j < |res.value.reasons| ==>
                          StrLess(Value(res.value.reasons[i]), Value(res.value.reasons[j]))
  {
    var rsSet := Elems(reasons);
    var cats := tax.categories;
    var candidates: seq<CategoryScore> := [];
    var i := 0;
    while i < |cats|
      invariant 0 <= i <= |cats|
      invariant candidates == Candidates(cats[..i], reasons, base)
    {
      var (category, cfg) := cats[i];
      CandidatesStep(cats, i, reasons, base);
      var entry := Candidate(category, cfg, reasons, base);
      if entry.Some? {
        candidates := candidates + [entry.value];
      }
      i := i + 1;
    }
    assert cats[..i] == cats;

    var observed := SortedCodes(reasons);
    var finalCategory: string, finalScore: real, severity: real, riskBand: Band;
    var perCategory: seq<CategoryScore>;
    if ShouldNoRisk(base, |rsSet|, candidates) {
      finalCategory := "no_risk";
      finalScore := Min(1.0, Max(0.0, base));
      severity := 0.0;
      riskBand := Low;
      perCategory := [CategoryScore("no_risk", 0.0, observed, |rsSet|, finalScore, Low)];
    } else {
      var best := candidates[BestIndex(candidates)];
      finalCategory := best.category;
      finalScore := best.score;
      severity := best.severity;
      riskBand := best.band;
      perCategory := SortDesc(candidates, ScoreOf);
    }
    var outMeta := CallerMeta(metadata);
    outMeta := OutMeta(outMeta, riskBand, severity, base, observed, perCategory);
    if InUnit(finalScore) {
      res := Ok(RiskDecision(finalScore, finalCategory, observed, evidence, prov, outMeta));
    } else {
      res := Err("risk_score must be in [0, 1]");
    }
  }

  lemma KeyIndexOfKey(cats: seq<(string, CategoryConfig)>, j: nat)
    requires DistinctKeys(cats) && j < |cats|
    ensures KeyIndex(cats, cats[j].0) == j
  {
  }

  /** A category becomes a candidate exactly when it is not keyed "no_risk" and lists
      at least one observed reason; the candidates are those categories and no others. */
  lemma CandidateNames(cats: seq<(string, CategoryConfig)>, rs: seq<ReasonCode>, base: real)
    requires DistinctKeys(cats)
    ensures (set c | c in Candidates(cats, rs, base) :: c.category) ==
            (set i | 0 <= i < |cats| && cats[i].0 != "no_risk" && Lists(rs, cats[i].1.reasons) :: cats[i].0)
  {
    var cs := Candidates(cats, rs, base);
    CandidatesFromTaxonomy(cats, rs, base);
    forall i | 0 <= i < |cats| && Candidate(cats[i].0, cats[i].1, rs, base).Some?
      ensures Candidate(cats[i].0, cats[i].1, rs, base).value in cs
    {
      CandidateIncluded(cats, rs, base, i);
    }
    forall c | c in cs
      ensures KeyIndex(cats, c.category) < |cats| && Candidate(cats[KeyIndex(cats, c.category)].0, cats[KeyIndex(cats, c.category)].1, rs, base) == Some(c)
    {
      var p :| 0 <= p < |cs| && cs[p] == c;
    }
  }

  /** No-risk is chosen exactly when `_should_no_risk` holds (no candidates, or a base
      below 0.60 with at most one distinct reason); it then clamps the base into [0, 1]
      with severity 0, band "low" and a single "no_risk" breakdown entry. */
  lemma DecisionNoRisk(tax: TaxonomyConfig, reasons: seq<ReasonCode>, evidence: seq<Evidence>, base: real,
                       prov: Provenance, metadata: Option<map<string, Json>>)
    ensures var d := Decision(tax, reasons, evidence, base, prov, metadata);
            (d.Ok? && d.value.riskCategory == "no_risk") <==>
            ShouldNoRisk(base, |Elems(reasons)|, Candidates(tax.categories, reasons, base))
    ensures var d := Decision(tax, reasons, evidence, base, prov, metadata);
            ShouldNoRisk(base, |Elems(reasons)|, Candidates(tax.categories, reasons, base)) ==>
              d.Ok? && d.value.riskScore == (if base < 0.0 then 0.0 else if base > 1.0 then 1.0 else base) &&
              d.value.metadata["severity"] == JNum(0.0) && d.value.metadata["risk_band"] == JStr("low") &&
              d.value.metadata["per_category_scores"] ==
                BreakdownJson([CategoryScore("no_risk", 0.0, d.value.reasons, |d.value.reasons|, d.value.riskScore, Low)])
  {
    var cs := Candidates(tax.categories, reasons, base);
    if !ShouldNoRisk(base, |Elems(reasons)|, cs) {
      assert cs[BestIndex(cs)] in cs;
    }
  }

  /** A low base score with a single distinct reason is never escalated, whatever the taxonomy. */
  lemma LowSingleReasonIsNoRisk(tax: TaxonomyConfig, r: ReasonCode, n: nat, evidence: seq<Evidence>, base: real,
                                prov: Provenance, metadata: Option<map<string, Json>>)
    requires 0.0 <= base < 0.60
    ensures var d := Decision(tax, seq(n, _ => r), evidence, base, prov, metadata);
            d.Ok? && d.value.riskCategory == "no_risk" && d.value.riskScore == base
  {
    var rs := seq(n, _ => r);
    if n == 0 {
      assert Elems(rs) == {};
    } else {
      assert rs[0] == r;
      assert Elems(rs) == {r};
    }
    DecisionNoRisk(tax, rs, evidence, base, prov, metadata);
  }

  /** With a non-negative base and severities in [0, 1], every candidate scores in [0, 1]. */
  lemma {:induction false} CandidatesInUnit(cats: seq<(string, CategoryConfig)>, rs: seq<ReasonCode>, base: real)
    requires base >= 0.0
    requires forall i :: 0 <= i < |cats| ==> InUnit(cats[i].1.severity)
    ensures forall c :: c in Candidates(cats, rs, base) ==> InUnit(c.score)
  {
    if cats != [] {
      var n := |cats| - 1;
      CandidatesInUnit(cats[..n], rs, base);
      var cfg := cats[n].1;
      var m := SortedCodes(Matched(rs, cfg));
      CandidateScoreBounds(base, cfg.severity, |m|);
      assert 0.0 <= base * cfg.severity by {
        if base > 0.0 && cfg.severity > 0.0 {
          assert base * cfg.severity > 0.0 * cfg.severity;
        }
      }
    }
  }

  /** With a validated taxonomy the decision never fails for a non-negative base, and
      every decision it makes scores in [0, 1]. */
  lemma DecisionDefined(tax: TaxonomyConfig, reasons: seq<ReasonCode>, evidence: seq<Evidence>, base: real,
                        prov: Provenance, metadata: Option<map<string, Json>>)
    requires ValidTaxonomy(tax)
    ensures var d := Decision(tax, reasons, evidence, base, prov, metadata);
            (base >= 0.0 ==> d.Ok?) && (d.Ok? ==> InUnit(d.value.riskScore))
  {
    var cs := Candidates(tax.categories, reasons, base);
    if !ShouldNoRisk(base, |Elems(reasons)|, cs) && base >= 0.0 {
      CandidatesInUnit(tax.categories, reasons, base);
      assert cs[BestIndex(cs)] in cs;
    }
  }

  /** The p-th candidate is the candidate of the category its name keys. */
  lemma CandidateAt(cats: seq<(string, CategoryConfig)>, rs: seq<ReasonCode>, base: real, p: nat)
    requires DistinctKeys(cats)
    requires p < |Candidates(cats, rs, base)|
    ensures var c := Candidates(cats, rs, base)[p];
            var i := KeyIndex(cats, c.category);
            i < |cats| && Candidate(cats[i].0, cats[i].1, rs, base) == Some(c)
  {
    CandidatesFromTaxonomy(cats, rs, base);
  }

  /** The candidate of category j sits at a position whose key is j. */
  lemma CandidatePosition(cats: seq<(string, CategoryConfig)>, rs: seq<ReasonCode>, base: real, j: nat)
      returns (p: nat)
    requires DistinctKeys(cats) && j < |cats|
    requires Candidate(cats[j].0, cats[j].1, rs, base).Some?
    ensures p < |Candidates(cats, rs, base)|
    ensures Candidates(cats, rs, base)[p] == Candidate(cats[j].0, cats[j].1, rs, base).value
    ensures KeyIndex(cats, Candidates(cats, rs, base)[p].category) == j
  {
    CandidateIncluded(cats, rs, base, j);
    var cs := Candidates(cats, rs, base);
    p :| 0 <= p < |cs| && cs[p] == Candidate(cats[j].0, cats[j].1, rs, base).value;
    KeyIndexOfKey(cats, j);
  }

  lemma CandidateOrderAt(cats: seq<(string, CategoryConfig)>, rs: seq<ReasonCode>, base: real, p: nat, q: nat)
    requires DistinctKeys(cats)
    requires p < q < |Candidates(cats, rs, base)|
    ensures KeyIndex(cats, Candidates(cats, rs, base)[p].category) <
            KeyIndex(cats, Candidates(cats, rs, base)[q].category)
  {
    CandidatesFromTaxonomy(cats, rs, base);
  }

  /** The winner is a category of the taxonomy that matched; no candidate beats it on
      (score, severity, matched_count), and every category before it in taxonomy order
      is strictly worse, so a full tie goes to the earliest category. */
  lemma DecisionWinner(tax: TaxonomyConfig, reasons: seq<ReasonCode>, evidence: seq<Evidence>, base: real,
                       prov: Provenance, metadata: Option<map<string, Json>>)
    requires DistinctKeys(tax.categories)
    requires Decision(tax, reasons, evidence, base, prov, metadata).Ok?
    requires Decision(tax, reasons, evidence, base, prov, metadata).value.riskCategory != "no_risk"
    ensures var d := Decision(tax, reasons, evidence, base, prov, metadata).value;
            var cats := tax.categories;
            var w := KeyIndex(cats, d.riskCategory);
            w < |cats| && Candidate(cats[w].0, cats[w].1, reasons, base).Some? &&
            var win := Candidate(cats[w].0, cats[w].1, reasons, base).value;
            d.riskScore == win.score && d.metadata["severity"] == JNum(win.severity) &&
            d.metadata["risk_band"] == JStr(BandName(win.band)) &&
            forall j :: 0 <= j < |cats| && Candidate(cats[j].0, cats[j].1, reasons, base).Some? ==>
              !KeyLess(win, Candidate(cats[j].0, cats[j].1, reasons, base).value) &&
              (j < w ==> KeyLess(Candidate(cats[j].0, cats[j].1, reasons, base).value, win))
  {
    var cats := tax.categories;
    var cs := Candidates(cats, reasons, base);
    assert !ShouldNoRisk(base, |Elems(reasons)|, cs);
    var best := cs[BestIndex(cs)];
    assert Decision(tax, reasons, evidence, base, prov, metadata).value ==
           WinnerDecision(best, cs, reasons, evidence, base, prov, metadata);
    BestBeatsAll(cats, reasons, base);
  }

  /** The best candidate is its category's candidate; no category's candidate beats it
      and every category before it has a strictly worse one. */
  lemma BestBeatsAll(cats: seq<(string, CategoryConfig)>, reasons: seq<ReasonCode>, base: real)
    requires DistinctKeys(cats) && Candidates(cats, reasons, base) != []
    ensures var cs := Candidates(cats, reasons, base);
            var best := cs[BestIndex(cs)];
            var w := KeyIndex(cats, best.category);
            w < |cats| && Candidate(cats[w].0, cats[w].1, reasons, base) == Some(best) &&
            forall j :: 0 <= j < |cats| && Candidate(cats[j].0, cats[j].1, reasons, base).Some? ==>
              !KeyLess(best, Candidate(cats[j].0, cats[j].1, reasons, base).value) &&
              (j < w ==> KeyLess(Candidate(cats[j].0, cats[j].1, reasons, base).value, best))
  {
    var cs := Candidates(cats, reasons, base);
    var b := BestIndex(cs);
    var best := cs[b];
    CandidateAt(cats, reasons, base, b);
    var w := KeyIndex(cats, best.category);
    forall j | 0 <= j < |cats| && Candidate(cats[j].0, cats[j].1, reasons, base).Some?
      ensures !KeyLess(best, Candidate(cats[j].0, cats[j].1, reasons, base).value)
      ensures j < w ==> KeyLess(Candidate(cats[j].0, cats[j].1, reasons, base).value, best)
    {
      var p := CandidatePosition(cats, reasons, base, j);
      if j < w {
        if p > b {
          CandidateOrderAt(cats, reasons, base, b, p);
        }
        assert p < b;
      }
    }
  }

  /** Outside the no-risk branch the breakdown lists every candidate once (a permutation),
      scores never increase along it, equal scores keep taxonomy order, and its first
      entry carries the winning score. */
  lemma DecisionBreakdown(tax: TaxonomyConfig, reasons: seq<ReasonCode>, evidence: seq<Evidence>, base: real,
                          prov: Provenance, metadata: Option<map<string, Json>>)
    requires Decision(tax, reasons, evidence, base, prov, metadata).Ok?
    requires Decision(tax, reasons, evidence, base, prov, metadata).value.riskCategory != "no_risk"
    ensures var d := Decision(tax, reasons, evidence, base, prov, metadata).value;
            var cs := Candidates(tax.categories, reasons, base);
            var pc := SortDesc(cs, ScoreOf);
            d.metadata["per_category_scores"] == BreakdownJson(pc) &&
            multiset(pc) == multiset(cs) && |pc| == |cs| > 0 &&
            NonIncreasing(pc, ScoreOf) &&
            (forall v :: WithKey(pc, ScoreOf, v) == WithKey(cs, ScoreOf, v)) &&
            pc[0].score == d.riskScore
  {
    var cs := Candidates(tax.categories, reasons, base);
    DecisionNoRisk(tax, reasons, evidence, base, prov, metadata);
    assert Decision(tax, reasons, evidence, base, prov, metadata).value ==
           WinnerDecision(cs[BestIndex(cs)], cs, reasons, evidence, base, prov, metadata);
    SortDescProps(cs, ScoreOf);
    TopScoreIsBest(cs);
  }

  /** The first entry of the sorted candidates scores as much as the best candidate. */
  lemma TopScoreIsBest(cs: seq<CategoryScore>)
    requires cs != []
    ensures SortDesc(cs, ScoreOf) != [] && SortDesc(cs, ScoreOf)[0].score == cs[BestIndex(cs)].score
  {
    var best := cs[BestIndex(cs)];
    var pc := SortDesc(cs, ScoreOf);
    SortDescProps(cs, ScoreOf);
    assert pc[0] in multiset(cs);
    assert best in multiset(pc);
    var p :| 0 <= p < |cs| && cs[p] == pc[0];
    var q :| 0 <= q < |pc| && pc[q] == best;
    assert ScoreOf(pc[0]) >= ScoreOf(pc[q]);
  }

  /** The output metadata keeps every caller key the decision does not own, adds the
      decision's five keys, and records the base score and the sorted observed reasons. */
  lemma DecisionMetadata(tax: TaxonomyConfig, reasons: seq<ReasonCode>, evidence: seq<Evidence>, base: real,
                         prov: Provenance, metadata: Option<map<string, Json>>)
    requires Decision(tax, reasons, evidence, base, prov, metadata).Ok?
    ensures var d := Decision(tax, reasons, evidence, base, prov, metadata).value;
            var caller := CallerMeta(metadata);
            d.metadata.Keys == caller.Keys + DecisionKeys &&
            (forall k :: k in caller && k !in DecisionKeys ==> d.metadata[k] == caller[k]) &&
            d.metadata["base_score"] == JNum(base) &&
            d.metadata["matched_reason_codes"] == CodesJson(d.reasons)
  {
  }

  /** A decision passes the evidence and the provenance through unchanged, and its reasons
      are the observed reasons as a sorted set. */
  lemma DecisionCarries(tax: TaxonomyConfig, reasons: seq<ReasonCode>, evidence: seq<Evidence>, base: real,
                        prov: Provenance, metadata: Option<map<string, Json>>)
    requires Decision(tax, reasons, evidence, base, prov, metadata).Ok?
    ensures var d := Decision(tax, reasons, evidence, base, prov, metadata).value;
            d.evidence == evidence && d.provenance == prov &&
            (forall x :: x in d.reasons <==> x in reasons) && Distinct(d.reasons) &&
            forall i, j :: 0 <= i < j < |d.reasons| ==> StrLess(Value(d.reasons[i]), Value(d.reasons[j]))
  {
    assert Decision(tax, reasons, evidence, base, prov, metadata).value.reasons == SortedCodes(reasons);
  }

  /** The boost cap: with base 0.9 and severity 1.0, four or more distinct matched
      reasons already reach the ceiling and the score stays exactly 1.0. */
  lemma BoostCapExample(n: nat)
    requires n >= 4
    ensures CandidateScore(0.9, 1.0, n) == 1.0
    ensures Boost(n) == 0.10
  {
  }

  function ScenarioConfig(): CategoryConfig {
    CategoryConfig("Fraud (high)", 0.9, ["high_transaction_velocity", "unusual_transaction_amount"],
                   Thresholds(0.8, 0.5))
  }

  lemma ScenarioCandidate()
    ensures var c := Candidate("fraud_high", ScenarioConfig(), [HighTransactionVelocity, UnusualAmount], 0.75);
            c.Some? && c.value.category == "fraud_high" && c.value.score == 0.735 && c.value.band == Medium
  {
    ScenarioMatched();
    ScenarioDistinct();
    CandidateOf("fraud_high", ScenarioConfig(), [HighTransactionVelocity, UnusualAmount], 0.75);
    ScenarioScore();
  }

  lemma ScenarioScore()
    ensures CandidateScore(0.75, 0.9, 2) == 0.735
    ensures BandFor(0.735, Some(Thresholds(0.8, 0.5))) == Medium
  {
    assert Boost(2) == 0.06;
  }

  lemma ScenarioMatched()
    ensures Matched([HighTransactionVelocity, UnusualAmount], ScenarioConfig()) == [HighTransactionVelocity, UnusualAmount]
  {
    var cfg := ScenarioConfig();
    var rs := [HighTransactionVelocity, UnusualAmount];
    assert Value(HighTransactionVelocity) in cfg.reasons;
    assert Value(UnusualAmount) in cfg.reasons;
    assert Matched(rs[1..], cfg) == [UnusualAmount];
  }

  lemma ScenarioDistinct()
    ensures |SortedCodes([HighTransactionVelocity, UnusualAmount])| == 2
  {
    DistinctCard([HighTransactionVelocity, UnusualAmount]);
  }

  /** The worked scenario: a single "fraud_high" category (severity 0.9, thresholds
      0.8/0.5) and a base of 0.75 with two matching reasons yields "fraud_high" at
      0.75 * 0.9 + 0.06 = 0.735, banded "medium". */
  lemma FraudHighScenario(evidence: seq<Evidence>, prov: Provenance)
    ensures var tax := TaxonomyConfig("v1", "risk", None, [("fraud_high", ScenarioConfig())]);
            var d := Decision(tax, [HighTransactionVelocity, UnusualAmount], evidence, 0.75, prov, None);
            d.Ok? && d.value.riskCategory == "fraud_high" && d.value.riskScore == 0.735 &&
            d.value.metadata["risk_band"] == JStr("medium")
  {
    var rs := [HighTransactionVelocity, UnusualAmount];
    ScenarioCandidate();
    SingleCategory("fraud_high", ScenarioConfig(), rs, 0.75);
    SoleCandidateWins(TaxonomyConfig("v1", "risk", None, [("fraud_high", ScenarioConfig())]), rs, evidence, 0.75, prov, None,
                      Candidate("fraud_high", ScenarioConfig(), rs, 0.75).value);
  }

  /** With a base of at least 0.60, a sole candidate scoring in [0, 1] is the decision:
      its category, its score and its band. */
  lemma SoleCandidateWins(tax: TaxonomyConfig, reasons: seq<ReasonCode>, evidence: seq<Evidence>, base: real,
                          prov: Provenance, metadata: Option<map<string, Json>>, c: CategoryScore)
    requires Candidates(tax.categories, reasons, base) == [c]
    requires base >= 0.60 && InUnit(c.score)
    ensures var d := Decision(tax, reasons, evidence, base, prov, metadata);
            d.Ok? && d.value.riskCategory == c.category && d.value.riskScore == c.score &&
            d.value.metadata["risk_band"] == JStr(BandName(c.band))
  {
    assert BestIndex([c]) == 0;
    assert Decision(tax, reasons, evidence, base, prov, metadata) ==
           Ok(WinnerDecision(c, [c], reasons, evidence, base, prov, metadata));
  }

  /** A one-category taxonomy has that category's candidate, if any, as its only one. */
  lemma SingleCategory(name: string, cfg: CategoryConfig, rs: seq<ReasonCode>, base: real)
    ensures var c := Candidate(name, cfg, rs, base);
            Candidates([(name, cfg)], rs, base) == if c.Some? then [c.value] else []
  {
    var cats := [(name, cfg)];
    CandidatesStep(cats, 0, rs, base);
    assert cats[..1] == cats && cats[..0] == [];
  }


}
