/** libs/risk/orchestrator.py: one risk request runs the fraud engine on its transaction
    and the text engine on its case, whichever are present, blends their signals and has
    the decision engine decide. */
module Orchestrator {
  import opened Wrappers
  import opened Seqs
  import opened DecisionTypes
  import opened Taxonomy
  import opened Numbers
  import DecisionEngine
  import FraudFeatures
  import FraudScoring
  import FraudEngine
  import TextEngine

  /** `RiskRequest`: both parts optional. */
  datatype RiskRequest = RiskRequest(fraud: Option<FraudFeatures.FraudFeatureVector>, text: Option<TextEngine.TextCase>)

  /** `RiskOrchestrator`: the decision engine's taxonomy and the two engines. */
  datatype RiskOrchestrator = RiskOrchestrator(
    taxonomy: TaxonomyConfig,
    fraudScorer: FraudScoring.Scorer,
    textEngine: TextEngine.TextRiskEngine)

  /** An engine call `score` makes. */
  datatype EngineCall = FraudDetect | TextDetect

  /** The provenance of every orchestrated decision. */
  const OrchestratorProvenance: Provenance := Provenance("risk_orchestrator", Some("multi_engine"), Some("v1"), None)

  /** `req.model_dump()`: an absent part dumps as null. */
  function RequestDump(req: RiskRequest): map<string, Json> {
    map["fraud" := if req.fraud.Some? then JObj(FraudFeatures.Dump(req.fraud.value)) else JNull,
        "text" := if req.text.Some? then JObj(TextEngine.CaseDump(req.text.value)) else JNull]
  }

  /** The fraud engine's signal for the request's transaction, if it has one and its
      detection succeeds. */
  function FraudSignal(o: RiskOrchestrator, req: RiskRequest): Option<Signal> {
    if req.fraud.Some? && FraudEngine.DetectOf(o.fraudScorer, req.fraud.value).Ok?
    then Some(FraudEngine.AsSignal(FraudEngine.DetectOf(o.fraudScorer, req.fraud.value).value)) else None
  }

  /** The text engine's signal for the request's case, if it has one. */
  function TextSignal(o: RiskOrchestrator, req: RiskRequest): Option<Signal> {
    if req.text.Some? then Some(TextEngine.AsSignal(TextEngine.DetectOf(o.textEngine, req.text.value))) else None
  }

  /** The present signals, fraud first. */
  function Collect(f: Option<Signal>, t: Option<Signal>): seq<Signal> {
    (if f.Some? then [f.value] else []) + (if t.Some? then [t.value] else [])
  }

  /** The signals of the engines the request asks for. Err is an error the fraud engine
      raises, which ends the request before the text engine runs. */
  function SignalsOf(o: RiskOrchestrator, req: RiskRequest): Result<seq<Signal>, string> {
    if req.fraud.Some? && FraudEngine.DetectOf(o.fraudScorer, req.fraud.value).Err?
    then Err(FraudEngine.DetectOf(o.fraudScorer, req.fraud.value).error)
    else Ok(Collect(FraudSignal(o, req), TextSignal(o, req)))
  }

  /** The engines `score` calls, in order. */
  function Invocations(o: RiskOrchestrator, req: RiskRequest): (calls: seq<EngineCall>)
    ensures |calls| <= 2
    ensures FraudDetect in calls <==> req.fraud.Some?
    ensures TextDetect in calls ==> req.text.Some? && calls[|calls| - 1] == TextDetect
  {
    (if req.fraud.Some? then [FraudDetect] else []) +
    (if req.text.Some? && (req.fraud.None? || FraudEngine.DetectOf(o.fraudScorer, req.fraud.value).Ok?)
     then [TextDetect] else [])
  }

  function BaseScores(sigs: seq<Signal>): (bs: seq<real>)
    ensures |bs| == |sigs|
    ensures forall i :: 0 <= i < |sigs| ==> bs[i] == sigs[i].baseScore
  {
    seq(|sigs|, i requires 0 <= i < |sigs| => sigs[i].baseScore)
  }

  /** `float(max(xs)) if xs else 0.0`. */
  function MaxOrZero(xs: seq<real>): (m: real)
    ensures xs == [] ==> m == 0.0
    ensures xs != [] ==> exists i :: 0 <= i < |xs| && m == xs[i]
    ensures forall i :: 0 <= i < |xs| ==> xs[i] <= m
  {
    if xs == [] then 0.0
    else if |xs| == 1 then xs[0]
    else
      var init := xs[..|xs| - 1];
      assert forall i :: 0 <= i < |init| ==> xs[i] == init[i];
      Max(MaxOrZero(init), xs[|xs| - 1])
  }

  /** The signals' reasons, concatenated in signal order with duplicates kept. */
  function AllReasons(sigs: seq<Signal>): seq<ReasonCode> {
    if sigs == [] then [] else AllReasons(sigs[..|sigs| - 1]) + sigs[|sigs| - 1].reasons
  }

  /** The signals' evidence, concatenated in signal order. */
  function AllEvidence(sigs: seq<Signal>): seq<Evidence> {
    if sigs == [] then [] else AllEvidence(sigs[..|sigs| - 1]) + sigs[|sigs| - 1].evidence
  }

  /** The `meta` dict: the engines' provenance records in call order, and which parts of
      the request are present. */
  function RequestMeta(req: RiskRequest, provs: seq<Provenance>): map<string, Json> {
    map["provenance" := JList(seq(|provs|, i requires 0 <= i < |provs| => ProvenanceJson(provs[i]))),
        "inputs_present" := JObj(map["fraud" := JBool(req.fraud.Some?), "text" := JBool(req.text.Some?)])]
  }

  function Provenances(sigs: seq<Signal>): (ps: seq<Provenance>)
    ensures |ps| == |sigs|
    ensures forall i :: 0 <= i < |sigs| ==> ps[i] == sigs[i].provenance
  {
    seq(|sigs|, i requires 0 <= i < |sigs| => sigs[i].provenance)
  }

  /** What `score` returns. */
  function ScoreOf(o: RiskOrchestrator, req: RiskRequest): (r: Result<RiskDecision, string>)
    ensures SignalsOf(o, req).Err? ==> r.Err?
    ensures r.Ok? ==> InUnit(r.value.riskScore) && r.value.provenance == OrchestratorProvenance
  {
    var sigs := SignalsOf(o, req);
    if sigs.Err? then Err(sigs.error)
    else
      DecisionEngine.Decision(o.taxonomy, AllReasons(sigs.value), AllEvidence(sigs.value),
                              MaxOrZero(BaseScores(sigs.value)), OrchestratorProvenance,
                              Some(RequestMeta(req, Provenances(sigs.value))))
  }

  /** `RiskOrchestrator.score`, with the engine calls it makes. */
  method Score(o: RiskOrchestrator, req: RiskRequest) returns (res: Result<RiskDecision, string>, invoked: seq<EngineCall>)
    ensures res == ScoreOf(o, req)
    ensures invoked == Invocations(o, req)
  {
    var reasons: seq<ReasonCode> := [];
    var evidence: seq<Evidence> := [];
    var prov: seq<Provenance> := [];
    var baseScores: seq<real> := [];
    ghost var sigs: seq<Signal> := [];
    invoked := [];

    if req.fraud.Some? {
      var fs := FraudEngine.Detect(o.fraudScorer, req.fraud.value);
      invoked := invoked + [FraudDetect];
      if fs.Err? {
        return Err(fs.error), invoked;
      }
      baseScores := baseScores + [fs.value.baseScore];
      reasons := reasons + fs.value.reasons;
      evidence := evidence + fs.value.evidence;
      prov := prov + [fs.value.provenance];
      Snoc(sigs, FraudEngine.AsSignal(fs.value));
      sigs := sigs + [FraudEngine.AsSignal(fs.value)];
    }
    assert SignalsOf(o, req).Ok?;
    assert sigs == Collect(FraudSignal(o, req), None);
    assert invoked == if req.fraud.Some? then [FraudDetect] else [];
    assert Gathered(sigs, reasons, evidence, baseScores, prov);

    if req.text.Some? {
      var ts := TextEngine.Detect(o.textEngine, req.text.value);
      invoked := invoked + [TextDetect];
      baseScores := baseScores + [ts.baseScore];
      reasons := reasons + ts.reasons;
      evidence := evidence + ts.evidence;
      prov := prov + [ts.provenance];
      Snoc(sigs, TextEngine.AsSignal(ts));
      sigs := sigs + [TextEngine.AsSignal(ts)];
    }
    assert sigs == Collect(FraudSignal(o, req), TextSignal(o, req));
    assert Gathered(sigs, reasons, evidence, baseScores, prov);
    ScoreDecides(o, req);

    var base := MaxOrZero(baseScores);
    var meta := RequestMeta(req, prov);
    res := DecisionEngine.Decide(o.taxonomy, reasons, evidence, base, OrchestratorProvenance, Some(meta));
  }

  /** The lists `score` accumulates are the parts of the signals gathered so far. */
  ghost predicate Gathered(sigs: seq<Signal>, reasons: seq<ReasonCode>, evidence: seq<Evidence>,
                           baseScores: seq<real>, prov: seq<Provenance>) {
    reasons == AllReasons(sigs) && evidence == AllEvidence(sigs) &&
    baseScores == BaseScores(sigs) && prov == Provenances(sigs)
  }

  /** Appending one signal appends its parts. */
  lemma Snoc(sigs: seq<Signal>, x: Signal)
    ensures AllReasons(sigs + [x]) == AllReasons(sigs) + x.reasons
    ensures AllEvidence(sigs + [x]) == AllEvidence(sigs) + x.evidence
    ensures BaseScores(sigs + [x]) == BaseScores(sigs) + [x.baseScore]
    ensures Provenances(sigs + [x]) == Provenances(sigs) + [x.provenance]
  {
    assert (sigs + [x])[..|sigs|] == sigs;
  }

  /** A present signal's parts, empty for an absent one. */
  function ReasonsOf(s: Option<Signal>): seq<ReasonCode> { if s.Some? then s.value.reasons else [] }
  function EvidenceOf(s: Option<Signal>): seq<Evidence> { if s.Some? then s.value.evidence else [] }
  function BaseOf(s: Option<Signal>): Option<real> { if s.Some? then Some(s.value.baseScore) else None }
  function ProvenanceOf(s: Option<Signal>): seq<Provenance> { if s.Some? then [s.value.provenance] else [] }

  /** The blend as a reference definition: the larger of the present base scores, the
      only one when one is present, 0 when none is. */
  function Blend(f: Option<real>, t: Option<real>): real {
    match (f, t)
    case (Some(a), Some(b)) => Max(a, b)
    case (Some(a), None) => a
    case (None, Some(b)) => b
    case (None, None) => 0.0
  }

  /** Collecting concatenates the parts, fraud's first with no deduplication, and the
      maximum of the collected base scores is the blend. */
  lemma CollectParts(f: Option<Signal>, t: Option<Signal>)
    ensures var sigs := Collect(f, t);
            AllReasons(sigs) == ReasonsOf(f) + ReasonsOf(t) &&
            AllEvidence(sigs) == EvidenceOf(f) + EvidenceOf(t) &&
            Provenances(sigs) == ProvenanceOf(f) + ProvenanceOf(t) &&
            MaxOrZero(BaseScores(sigs)) == Blend(BaseOf(f), BaseOf(t))
  {
    if f.Some? && t.Some? {
      TwoParts(f.value, t.value);
    } else if f.Some? {
      OneParts(f.value);
    } else if t.Some? {
      OneParts(t.value);
    } else {
      assert Collect(f, t) == [];
    }
  }

  lemma OneParts(x: Signal)
    ensures AllReasons([x]) == x.reasons && AllEvidence([x]) == x.evidence
    ensures Provenances([x]) == [x.provenance] && MaxOrZero(BaseScores([x])) == x.baseScore
  {
    assert [x][..0] == [];
  }

  lemma TwoParts(x: Signal, y: Signal)
    ensures AllReasons([x, y]) == x.reasons + y.reasons && AllEvidence([x, y]) == x.evidence + y.evidence
    ensures Provenances([x, y]) == [x.provenance, y.provenance]
    ensures MaxOrZero(BaseScores([x, y])) == Max(x.baseScore, y.baseScore)
  {
    OneParts(x);
    Snoc([x], y);
    assert [x] + [y] == [x, y];
    assert BaseScores([x, y])[..1] == [x.baseScore];
  }

  /** Deciding collected signals: the decision passes the evidence through, fraud's
      before text's; its reasons are the signals' reasons as a sorted set; its provenance
      is the orchestrator's whatever engines ran; and its metadata records the blended
      base, which parts were present and the engines' provenance records in call order. */
  lemma DecideCollected(tax: TaxonomyConfig, req: RiskRequest, f: Option<Signal>, t: Option<Signal>)
    requires var sigs := Collect(f, t);
             DecisionEngine.Decision(tax, AllReasons(sigs), AllEvidence(sigs), MaxOrZero(BaseScores(sigs)),
                                     OrchestratorProvenance, Some(RequestMeta(req, Provenances(sigs)))).Ok?
    ensures var sigs := Collect(f, t);
            var d := DecisionEngine.Decision(tax, AllReasons(sigs), AllEvidence(sigs), MaxOrZero(BaseScores(sigs)),
                                             OrchestratorProvenance, Some(RequestMeta(req, Provenances(sigs)))).value;
            d.evidence == EvidenceOf(f) + EvidenceOf(t) &&
            (forall r :: r in d.reasons <==> r in ReasonsOf(f) || r in ReasonsOf(t)) &&
            Distinct(d.reasons) &&
            d.provenance == OrchestratorProvenance &&
            "base_score" in d.metadata && d.metadata["base_score"] == JNum(Blend(BaseOf(f), BaseOf(t))) &&
            "inputs_present" in d.metadata &&
            d.metadata["inputs_present"] == JObj(map["fraud" := JBool(req.fraud.Some?), "text" := JBool(req.text.Some?)]) &&
            "provenance" in d.metadata &&
            d.metadata["provenance"] == RequestMeta(req, ProvenanceOf(f) + ProvenanceOf(t))["provenance"]
  {
    var sigs := Collect(f, t);
    CollectParts(f, t);
    DecisionEngine.DecisionCarries(tax, AllReasons(sigs), AllEvidence(sigs), MaxOrZero(BaseScores(sigs)),
                                   OrchestratorProvenance, Some(RequestMeta(req, Provenances(sigs))));
    OrchestratorMeta(tax, AllReasons(sigs), AllEvidence(sigs), MaxOrZero(BaseScores(sigs)), req, Provenances(sigs));
  }

  /** The decision keeps the request's `meta` entries next to the base score it records. */
  lemma OrchestratorMeta(tax: TaxonomyConfig, reasons: seq<ReasonCode>, evidence: seq<Evidence>, base: real,
                         req: RiskRequest, provs: seq<Provenance>)
    requires DecisionEngine.Decision(tax, reasons, evidence, base, OrchestratorProvenance, Some(RequestMeta(req, provs))).Ok?
    ensures var d := DecisionEngine.Decision(tax, reasons, evidence, base, OrchestratorProvenance, Some(RequestMeta(req, provs))).value;
            "base_score" in d.metadata && d.metadata["base_score"] == JNum(base) &&
            "inputs_present" in d.metadata && d.metadata["inputs_present"] == RequestMeta(req, provs)["inputs_present"] &&
            "provenance" in d.metadata && d.metadata["provenance"] == RequestMeta(req, provs)["provenance"]
  {
    DecisionEngine.DecisionMetadata(tax, reasons, evidence, base, OrchestratorProvenance, Some(RequestMeta(req, provs)));
    assert "inputs_present" !in DecisionEngine.DecisionKeys && "provenance" !in DecisionEngine.DecisionKeys;
  }

  /** The blended base lies in [0, 1] when the present base scores do. */
  lemma BlendInUnit(f: Option<real>, t: Option<real>)
    requires f.Some? ==> InUnit(f.value)
    requires t.Some? ==> InUnit(t.value)
    ensures InUnit(Blend(f, t))
    ensures f.Some? ==> Blend(f, t) >= f.value
    ensures t.Some? ==> Blend(f, t) >= t.value
  {
  }

  /** Both engines' base scores lie in [0, 1]. */
  lemma SignalsInUnit(o: RiskOrchestrator, req: RiskRequest)
    ensures FraudSignal(o, req).Some? ==> InUnit(FraudSignal(o, req).value.baseScore)
    ensures TextSignal(o, req).Some? ==> InUnit(TextSignal(o, req).value.baseScore)
  {
    if FraudSignal(o, req).Some? {
      FraudEngine.DetectSignals(o.fraudScorer, req.fraud.value);
    }
    if req.text.Some? {
      TextEngine.TextBase(o.textEngine, req.text.value);
    }
  }

  /** `score` decides on the collected signals of the engines that ran. */
  lemma ScoreDecides(o: RiskOrchestrator, req: RiskRequest)
    requires SignalsOf(o, req).Ok?
    ensures var sigs := Collect(FraudSignal(o, req), TextSignal(o, req));
            ScoreOf(o, req) ==
              DecisionEngine.Decision(o.taxonomy, AllReasons(sigs), AllEvidence(sigs), MaxOrZero(BaseScores(sigs)),
                                      OrchestratorProvenance, Some(RequestMeta(req, Provenances(sigs))))
  {
  }

  /** The orchestrated decision: fraud's evidence before text's, the engines' reasons as
      a sorted set, the orchestrator's provenance, and metadata with the blended base (the
      maximum of the present base scores, 0 with none) and the presence flags. */
  lemma OrchestratedDecision(o: RiskOrchestrator, req: RiskRequest)
    requires ScoreOf(o, req).Ok?
    ensures var d := ScoreOf(o, req).value;
            var f := FraudSignal(o, req);
            var t := TextSignal(o, req);
            d.evidence == EvidenceOf(f) + EvidenceOf(t) &&
            (forall r :: r in d.reasons <==> r in ReasonsOf(f) || r in ReasonsOf(t)) &&
            d.provenance == OrchestratorProvenance &&
            "base_score" in d.metadata && d.metadata["base_score"] == JNum(Blend(BaseOf(f), BaseOf(t))) &&
            InUnit(Blend(BaseOf(f), BaseOf(t))) &&
            "inputs_present" in d.metadata && d.metadata["inputs_present"] == JObj(map["fraud" := JBool(req.fraud.Some?), "text" := JBool(req.text.Some?)])
  {
    var f := FraudSignal(o, req);
    var t := TextSignal(o, req);
    ScoreDecides(o, req);
    DecideCollected(o.taxonomy, req, f, t);
    SignalsInUnit(o, req);
    BlendInUnit(BaseOf(f), BaseOf(t));
  }

  /** With a validated taxonomy and a fraud part that detects without error, `score`
      always decides, with a risk score in [0, 1]. */
  lemma ScoreDefined(o: RiskOrchestrator, req: RiskRequest)
    requires ValidTaxonomy(o.taxonomy)
    requires req.fraud.Some? ==> FraudEngine.DetectOf(o.fraudScorer, req.fraud.value).Ok?
    ensures ScoreOf(o, req).Ok? && InUnit(ScoreOf(o, req).value.riskScore)
  {
    var f := FraudSignal(o, req);
    var t := TextSignal(o, req);
    var sigs := Collect(f, t);
    ScoreDecides(o, req);
    CollectParts(f, t);
    SignalsInUnit(o, req);
    BlendInUnit(BaseOf(f), BaseOf(t));
    DecisionEngine.DecisionDefined(o.taxonomy, AllReasons(sigs), AllEvidence(sigs), MaxOrZero(BaseScores(sigs)),
                                   OrchestratorProvenance, Some(RequestMeta(req, Provenances(sigs))));
  }

  /** An empty request calls no engine and decides "no_risk" at score 0, with no reasons
      and no evidence, whatever the taxonomy. */
  lemma EmptyRequestNoRisk(o: RiskOrchestrator)
    ensures Invocations(o, RiskRequest(None, None)) == []
    ensures var d := ScoreOf(o, RiskRequest(None, None));
            d.Ok? && d.value.riskCategory == "no_risk" && d.value.riskScore == 0.0 &&
            d.value.reasons == [] && d.value.evidence == []
  {
    var req := RiskRequest(None, None);
    assert Collect(FraudSignal(o, req), TextSignal(o, req)) == [];
    ScoreDecides(o, req);
    assert AllReasons([]) == [] && AllEvidence([]) == [] && MaxOrZero(BaseScores([])) == 0.0;
    DecisionEngine.DecisionNoRisk(o.taxonomy, [], [], 0.0, OrchestratorProvenance, Some(RequestMeta(req, Provenances([]))));
  }

  /** Each engine runs at most once, fraud before text: the fraud engine exactly when the
      request has a transaction, the text engine exactly when it has a case and the fraud
      engine, if it ran, did not raise. */
  lemma EngineCallsOnce(o: RiskOrchestrator, req: RiskRequest)
    ensures var calls := Invocations(o, req);
            multiset(calls)[FraudDetect] == (if req.fraud.Some? then 1 else 0) &&
            multiset(calls)[TextDetect] ==
              (if req.text.Some? && (req.fraud.None? || FraudEngine.DetectOf(o.fraudScorer, req.fraud.value).Ok?)
               then 1 else 0) &&
            (TextDetect in calls ==> calls[|calls| - 1] == TextDetect) &&
            (FraudDetect in calls ==> calls[0] == FraudDetect)
  {
    CallsInOrder(req.fraud.Some?,
                 req.text.Some? && (req.fraud.None? || FraudEngine.DetectOf(o.fraudScorer, req.fraud.value).Ok?));
  }

  /** At most one call of each engine, fraud first. */
  lemma CallsInOrder(fraudRan: bool, textRan: bool)
    ensures var calls := (if fraudRan then [FraudDetect] else []) + (if textRan then [TextDetect] else []);
            multiset(calls)[FraudDetect] == (if fraudRan then 1 else 0) &&
            multiset(calls)[TextDetect] == (if textRan then 1 else 0) &&
            (TextDetect in calls ==> calls[|calls| - 1] == TextDetect) &&
            (FraudDetect in calls ==> calls[0] == FraudDetect)
  {
    var calls := (if fraudRan then [FraudDetect] else []) + (if textRan then [TextDetect] else []);
    if fraudRan && textRan {
      assert calls == [FraudDetect, TextDetect];
    } else if fraudRan {
      assert calls == [FraudDetect];
    } else if textRan {
      assert calls == [TextDetect];
    } else {
      assert calls == [];
    }
  }
}
