/** libs/risk/text/engine.py: the text engine fuses rule matches, label similarity, past
    cases and taxonomy documents about one customer text into a signal. Rules and
    similarity name reasons; retrieval only adds evidence. */
module TextEngine {
  import opened Wrappers
  import opened Seqs
  import opened Numbers
  import opened DecisionTypes
  import opened TextSimilarity

  /** `TextCase`. */
  datatype TextCase = TextCase(caseId: string, channel: string, text: string, customerId: Option<string>, language: string)

  /** `RuleMatch`: a rule's reason string, the match span and the matched text. */
  datatype RuleMatch = RuleMatch(reason: string, span: (int, int), matchedText: string)

  /** `RetrievedCase`. */
  datatype RetrievedCase = RetrievedCase(caseId: string, score: real, text: string, meta: map<string, Json>)

  /** `VectorDoc`. */
  datatype VectorDoc = VectorDoc(docId: string, text: string, metadata: map<string, Json>)

  /** `LabelIndex`: the embedding model and one vector per label, in insertion order. */
  datatype LabelIndex = LabelIndex(model: string, vectors: seq<(string, seq<real>)>)

  /** `TextRiskEngine`. Each collaborator is the function of the case text it computes:
      `apply_rules`, the embedding vector, and the optional case retriever and RAG
      retriever asked for 3 items; `sqrt` is the square root the cosine uses. */
  datatype TextRiskEngine = TextRiskEngine(
    rules: string -> seq<RuleMatch>,
    embed: string -> seq<real>,
    labelIndex: LabelIndex,
    caseRetriever: Option<string -> seq<RetrievedCase>>,
    rag: Option<string -> seq<VectorDoc>>,
    sqrt: real -> real)

  /** `TextSignals`. */
  datatype TextSignals = TextSignals(
    baseScore: real,
    reasons: seq<ReasonCode>,
    evidence: seq<Evidence>,
    provenance: Provenance,
    debug: map<string, Json>)

  /** The fields of the engine's output that the orchestrator reads. */
  function AsSignal(t: TextSignals): Signal {
    Signal(t.baseScore, t.reasons, t.evidence, t.provenance)
  }

  /** `TextCase.model_dump()`. */
  function CaseDump(c: TextCase): map<string, Json> {
    map["case_id" := JStr(c.caseId), "channel" := JStr(c.channel), "text" := JStr(c.text),
        "customer_id" := OptStr(c.customerId), "language" := JStr(c.language)]
  }

  const SimilarityThreshold: real := 0.70
  const CaseThreshold: real := 0.75
  const TopLabels: nat := 3

  /** `s[:n]`. */
  function Take(s: string, n: nat): (r: string)
    ensures |r| <= n && r <= s
    ensures |s| <= n ==> r == s
  {
    if |s| <= n then s else s[..n]
  }

  /** `_to_reason`'s result as a list of zero or one codes. */
  function CodeOf(o: Option<ReasonCode>): (rs: seq<ReasonCode>)
    ensures |rs| <= 1
    ensures forall r :: r in rs <==> o == Some(r)
  {
    if o.Some? then [o.value] else []
  }

  function CaseMeta(c: TextCase): map<string, Json> {
    map["case_id" := JStr(c.caseId), "channel" := JStr(c.channel)]
  }

  function RuleEvidence(h: RuleMatch, c: TextCase): Evidence {
    Evidence("text.rules", "Matched rule phrase for " + h.reason,
             JObj(map["span" := JList([JInt(h.span.0), JInt(h.span.1)]), "text" := JStr(h.matchedText)]),
             None, CaseMeta(c))
  }

  function SimilarityEvidence(hit: SimilarityHit, c: TextCase, model: string): Evidence {
    Evidence("text.embedding_similarity", "High semantic similarity to risk label",
             JObj(map["label" := JStr(hit.labelName), "score" := JNum(hit.score)]),
             Some(SimilarityThreshold), CaseMeta(c)["embedding_model" := JStr(model)])
  }

  function CaseEvidence(r: RetrievedCase, c: TextCase): Evidence {
    Evidence("text.case_retrieval", "Similar past case retrieved (evidence only)",
             JObj(map["case_id" := JStr(r.caseId), "score" := JNum(r.score), "text" := JStr(Take(r.text, 280))]),
             Some(CaseThreshold), CaseMeta(c))
  }

  function RagEvidence(d: VectorDoc, c: TextCase): Evidence {
    Evidence("rag.taxonomy", "Retrieved taxonomy context (evidence only)",
             JObj(map["doc_id" := JStr(d.docId), "type" := Get(d.metadata, "type"),
                      "category" := Get(d.metadata, "category"), "text" := JStr(Take(d.text, 400))]),
             None, CaseMeta(c))
  }

  /** The reasons the rule hits name through `toReason`, in hit order, duplicates kept. */
  function RuleCodes(hs: seq<RuleMatch>, toReason: string -> Option<ReasonCode>): (rs: seq<ReasonCode>)
    ensures |rs| <= |hs|
  {
    if hs == [] then [] else RuleCodes(hs[..|hs| - 1], toReason) + CodeOf(toReason(hs[|hs| - 1].reason))
  }

  lemma RuleCodesStep(hs: seq<RuleMatch>, i: nat, toReason: string -> Option<ReasonCode>)
    requires i < |hs|
    ensures RuleCodes(hs[..i + 1], toReason) == RuleCodes(hs[..i], toReason) + CodeOf(toReason(hs[i].reason))
  {
    assert hs[..i + 1][..i] == hs[..i];
  }

  lemma RuleEvidenceStep(hs: seq<RuleMatch>, i: nat, c: TextCase)
    requires i < |hs|
    ensures RuleEvidenceOf(hs[..i + 1], c) == RuleEvidenceOf(hs[..i], c) + [RuleEvidence(hs[i], c)]
  {
    assert hs[..i + 1][..i] == hs[..i];
  }

  /** A reason is among the rule reasons exactly when some rule hit's reason string
      converts to it. */
  lemma {:induction false} RuleCodesMember(hs: seq<RuleMatch>, toReason: string -> Option<ReasonCode>, r: ReasonCode)
    ensures r in RuleCodes(hs, toReason) <==> exists i :: 0 <= i < |hs| && toReason(hs[i].reason) == Some(r)
  {
    if hs != [] {
      var init := hs[..|hs| - 1];
      RuleCodesMember(init, toReason, r);
      if r in RuleCodes(init, toReason) {
        var i :| 0 <= i < |init| && toReason(init[i].reason) == Some(r);
        assert hs[i] == init[i];
      }
      if exists i :: 0 <= i < |hs| && toReason(hs[i].reason) == Some(r) {
        var i :| 0 <= i < |hs| && toReason(hs[i].reason) == Some(r);
        if i < |init| {
          assert init[i] == hs[i];
        }
      }
    }
  }

  /** With `_to_reason`, a reason is among the rule reasons exactly when some rule hit
      carries its value. */
  lemma RuleReasonsByValue(hs: seq<RuleMatch>, r: ReasonCode)
    ensures r in RuleCodes(hs, FromString) <==> exists i :: 0 <= i < |hs| && hs[i].reason == Value(r)
  {
    RuleCodesMember(hs, FromString, r);
    forall i | 0 <= i < |hs| ensures FromString(hs[i].reason) == Some(r) <==> hs[i].reason == Value(r) {
      FromStringIff(hs[i].reason, r);
    }
  }

  /** The reasons the similarity hits at or above the threshold name, in hit order. */
  function SimilarityCodes(hits: seq<SimilarityHit>, toReason: string -> Option<ReasonCode>): (rs: seq<ReasonCode>)
    ensures |rs| <= |hits|
  {
    if hits == [] then []
    else
      var last := hits[|hits| - 1];
      SimilarityCodes(hits[..|hits| - 1], toReason) +
        (if last.score >= SimilarityThreshold then CodeOf(toReason(last.labelName)) else [])
  }

  lemma SimilarityCodesStep(hits: seq<SimilarityHit>, j: nat, toReason: string -> Option<ReasonCode>)
    requires j < |hits|
    ensures SimilarityCodes(hits[..j + 1], toReason) == SimilarityCodes(hits[..j], toReason) +
              (if hits[j].score >= SimilarityThreshold then CodeOf(toReason(hits[j].labelName)) else [])
  {
    assert hits[..j + 1][..j] == hits[..j];
  }

  /** A reason is among the similarity reasons exactly when a hit at or above the
      threshold carries a label that converts to it. */
  lemma {:induction false} SimilarityCodesMember(hits: seq<SimilarityHit>, toReason: string -> Option<ReasonCode>, r: ReasonCode)
    ensures r in SimilarityCodes(hits, toReason) <==>
            exists i :: 0 <= i < |hits| && hits[i].score >= SimilarityThreshold && toReason(hits[i].labelName) == Some(r)
  {
    if hits != [] {
      var init := hits[..|hits| - 1];
      SimilarityCodesMember(init, toReason, r);
      if r in SimilarityCodes(init, toReason) {
        var i :| 0 <= i < |init| && init[i].score >= SimilarityThreshold && toReason(init[i].labelName) == Some(r);
        assert hits[i] == init[i];
      }
      if exists i :: 0 <= i < |hits| && hits[i].score >= SimilarityThreshold && toReason(hits[i].labelName) == Some(r) {
        var i :| 0 <= i < |hits| && hits[i].score >= SimilarityThreshold && toReason(hits[i].labelName) == Some(r);
        if i < |init| {
          assert init[i] == hits[i];
        }
      }
    }
  }

  /** With `_to_reason`, a reason is among the similarity reasons exactly when a hit at
      or above the threshold carries its value as label. */
  lemma SimilarityReasonsByValue(hits: seq<SimilarityHit>, r: ReasonCode)
    ensures r in SimilarityCodes(hits, FromString) <==>
            exists i :: 0 <= i < |hits| && hits[i].score >= SimilarityThreshold && hits[i].labelName == Value(r)
  {
    SimilarityCodesMember(hits, FromString, r);
    forall i | 0 <= i < |hits| ensures FromString(hits[i].labelName) == Some(r) <==> hits[i].labelName == Value(r) {
      FromStringIff(hits[i].labelName, r);
    }
  }

  /** One "text.rules" item per rule hit, in hit order, whatever its reason string. */
  function RuleEvidenceOf(hs: seq<RuleMatch>, c: TextCase): (ev: seq<Evidence>)
    ensures |ev| == |hs|
    ensures forall i :: 0 <= i < |hs| ==> ev[i] == RuleEvidence(hs[i], c)
  {
    if hs == [] then [] else RuleEvidenceOf(hs[..|hs| - 1], c) + [RuleEvidence(hs[|hs| - 1], c)]
  }

  /** One similarity item per hit at or above the threshold, in hit order. */
  function SimilarityEvidenceOf(hits: seq<SimilarityHit>, c: TextCase, model: string): (ev: seq<Evidence>)
    ensures |ev| <= |hits|
    ensures forall e :: e in ev ==> e.source == "text.embedding_similarity" && e.threshold == Some(SimilarityThreshold)
  {
    if hits == [] then []
    else
      var last := hits[|hits| - 1];
      SimilarityEvidenceOf(hits[..|hits| - 1], c, model) +
        (if last.score >= SimilarityThreshold then [SimilarityEvidence(last, c, model)] else [])
  }

  /** Every hit at or above the threshold has its item, and every item is such a hit's. */
  lemma {:induction false} SimilarityEvidenceMember(hits: seq<SimilarityHit>, c: TextCase, model: string)
    ensures var ev := SimilarityEvidenceOf(hits, c, model);
            (forall i :: 0 <= i < |hits| && hits[i].score >= SimilarityThreshold ==>
               SimilarityEvidence(hits[i], c, model) in ev) &&
            (forall j :: 0 <= j < |ev| ==>
               exists i :: 0 <= i < |hits| && hits[i].score >= SimilarityThreshold &&
                           ev[j] == SimilarityEvidence(hits[i], c, model))
  {
    if hits != [] {
      var init := hits[..|hits| - 1];
      SimilarityEvidenceMember(init, c, model);
      var ev0 := SimilarityEvidenceOf(init, c, model);
      var ev := SimilarityEvidenceOf(hits, c, model);
      forall i | 0 <= i < |hits| && hits[i].score >= SimilarityThreshold
        ensures SimilarityEvidence(hits[i], c, model) in ev
      {
        if i < |init| {
          assert hits[i] == init[i];
        }
      }
      forall j | 0 <= j < |ev|
        ensures exists i :: 0 <= i < |hits| && hits[i].score >= SimilarityThreshold &&
                            ev[j] == SimilarityEvidence(hits[i], c, model)
      {
        if j < |ev0| {
          assert ev[j] == ev0[j];
          var i :| 0 <= i < |init| && init[i].score >= SimilarityThreshold && ev0[j] == SimilarityEvidence(init[i], c, model);
          assert hits[i] == init[i];
        } else {
          assert ev[j] == SimilarityEvidence(hits[|hits| - 1], c, model);
        }
      }
    }
  }

  /** One item per retrieved case scoring at or above its threshold, in retrieval order. */
  function CaseEvidenceOf(rs: seq<RetrievedCase>, c: TextCase): (ev: seq<Evidence>)
    ensures |ev| <= |rs|
    ensures forall e :: e in ev ==> e.source == "text.case_retrieval" && e.threshold == Some(CaseThreshold)
  {
    if rs == [] then []
    else
      var last := rs[|rs| - 1];
      CaseEvidenceOf(rs[..|rs| - 1], c) + (if last.score >= CaseThreshold then [CaseEvidence(last, c)] else [])
  }

  /** Every retrieved case at or above the threshold has its item, and every item is
      such a case's. */
  lemma {:induction false} CaseEvidenceMember(rs: seq<RetrievedCase>, c: TextCase)
    ensures var ev := CaseEvidenceOf(rs, c);
            (forall i :: 0 <= i < |rs| && rs[i].score >= CaseThreshold ==> CaseEvidence(rs[i], c) in ev) &&
            (forall j :: 0 <= j < |ev| ==>
               exists i :: 0 <= i < |rs| && rs[i].score >= CaseThreshold && ev[j] == CaseEvidence(rs[i], c))
  {
    if rs != [] {
      var init := rs[..|rs| - 1];
      CaseEvidenceMember(init, c);
      var ev0 := CaseEvidenceOf(init, c);
      var ev := CaseEvidenceOf(rs, c);
      forall i | 0 <= i < |rs| && rs[i].score >= CaseThreshold
        ensures CaseEvidence(rs[i], c) in ev
      {
        if i < |init| {
          assert rs[i] == init[i];
        }
      }
      forall j | 0 <= j < |ev|
        ensures exists i :: 0 <= i < |rs| && rs[i].score >= CaseThreshold && ev[j] == CaseEvidence(rs[i], c)
      {
        if j < |ev0| {
          assert ev[j] == ev0[j];
          var i :| 0 <= i < |init| && init[i].score >= CaseThreshold && ev0[j] == CaseEvidence(init[i], c);
          assert rs[i] == init[i];
        } else {
          assert ev[j] == CaseEvidence(rs[|rs| - 1], c);
        }
      }
    }
  }

  /** One "rag.taxonomy" item per retrieved document, in retrieval order. */
  function RagEvidenceOf(ds: seq<VectorDoc>, c: TextCase): (ev: seq<Evidence>)
    ensures |ev| == |ds|
    ensures forall i :: 0 <= i < |ds| ==> ev[i] == RagEvidence(ds[i], c)
  {
    seq(|ds|, i requires 0 <= i < |ds| => RagEvidence(ds[i], c))
  }

  /** `max((h.score for h in hits), default=0.0)`. */
  function MaxScore(hits: seq<SimilarityHit>): (m: real)
    ensures hits == [] ==> m == 0.0
    ensures hits != [] ==> exists i :: 0 <= i < |hits| && m == hits[i].score
    ensures forall i :: 0 <= i < |hits| ==> hits[i].score <= m
  {
    if hits == [] then 0.0
    else if |hits| == 1 then hits[0].score
    else
      var init := hits[..|hits| - 1];
      var m := Max(MaxScore(init), hits[|hits| - 1].score);
      assert forall i :: 0 <= i < |init| ==> hits[i] == init[i];
      m
  }

  function TextProvenance(e: TextRiskEngine): Provenance {
    Provenance("text_risk_engine", Some("embeddings:" + e.labelIndex.model), Some("v1"), None)
  }

  /** The `debug` dict: rule reasons, hits, retrieved cases and documents. */
  function Debug(ruleHits: seq<RuleMatch>, hits: seq<SimilarityHit>, cases: seq<RetrievedCase>, docs: seq<VectorDoc>): map<string, Json> {
    map["rule_hits" := JList(seq(|ruleHits|, i requires 0 <= i < |ruleHits| => JStr(ruleHits[i].reason))),
        "top_hits" := JList(seq(|hits|, i requires 0 <= i < |hits| =>
                         JObj(map["label" := JStr(hits[i].labelName), "score" := JNum(hits[i].score)]))),
        "retrieved_cases" := JList(seq(|cases|, i requires 0 <= i < |cases| =>
                         JObj(map["case_id" := JStr(cases[i].caseId), "score" := JNum(cases[i].score)]))),
        "rag_docs" := JList(seq(|docs|, i requires 0 <= i < |docs| =>
                         JObj(map["doc_id" := JStr(docs[i].docId), "type" := Get(docs[i].metadata, "type")])))]
  }

  function RuleHits(e: TextRiskEngine, c: TextCase): seq<RuleMatch> { e.rules(c.text) }

  function Hits(e: TextRiskEngine, c: TextCase): seq<SimilarityHit> {
    TopHits(e.embed(c.text), e.labelIndex.vectors, TopLabels, e.sqrt)
  }

  function Retrieved(e: TextRiskEngine, c: TextCase): seq<RetrievedCase> {
    if e.caseRetriever.Some? then e.caseRetriever.value(c.text) else []
  }

  function Docs(e: TextRiskEngine, c: TextCase): seq<VectorDoc> {
    if e.rag.Some? then e.rag.value(c.text) else []
  }

  /** The reasons `detect` collects from the rule hits and the label hits. */
  function ReasonsOf(ruleHits: seq<RuleMatch>, hits: seq<SimilarityHit>): seq<ReasonCode> {
    Dedup(RuleCodes(ruleHits, FromString) + SimilarityCodes(hits, FromString))
  }

  /** The evidence `detect` collects, stage by stage. */
  function EvidenceOf(ruleHits: seq<RuleMatch>, hits: seq<SimilarityHit>, cases: seq<RetrievedCase>,
                      docs: seq<VectorDoc>, c: TextCase, model: string): seq<Evidence> {
    RuleEvidenceOf(ruleHits, c) + SimilarityEvidenceOf(hits, c, model) + CaseEvidenceOf(cases, c) + RagEvidenceOf(docs, c)
  }

  /** What `detect` returns. */
  function DetectOf(e: TextRiskEngine, c: TextCase): (out: TextSignals)
    ensures 0.0 <= out.baseScore <= 1.0
    ensures Distinct(out.reasons)
    ensures out.provenance.engine == "text_risk_engine"
  {
    var ruleHits := RuleHits(e, c);
    var hits := Hits(e, c);
    TopHitsFromLabels(e.embed(c.text), e.labelIndex.vectors, TopLabels, e.sqrt);
    TextSignals(
      Min(1.0, MaxScore(hits)),
      ReasonsOf(ruleHits, hits),
      EvidenceOf(ruleHits, hits, Retrieved(e, c), Docs(e, c), c, e.labelIndex.model),
      TextProvenance(e),
      Debug(ruleHits, hits, Retrieved(e, c), Docs(e, c)))
  }

  /** `TextRiskEngine.detect`. */
  method Detect(e: TextRiskEngine, c: TextCase) returns (out: TextSignals)
    ensures out == DetectOf(e, c)
  {
    var ruleHits := e.rules(c.text);
    var reasons, seen, evidence := RuleLoop(ruleHits, c, FromString);

    var hits := TopHits(e.embed(c.text), e.labelIndex.vectors, TopLabels, e.sqrt);
    var base := MaxScore(hits);

    var simEvidence;
    reasons, seen, simEvidence :=
      SimilarityLoop(RuleCodes(ruleHits, FromString), reasons, seen, hits, c, e.labelIndex.model, FromString);
    evidence := evidence + simEvidence;

    var retrieved: seq<RetrievedCase> := [];
    if e.caseRetriever.Some? {
      retrieved := e.caseRetriever.value(c.text);
    }
    evidence := AppendCaseEvidence(evidence, retrieved, c);

    var docs: seq<VectorDoc> := [];
    if e.rag.Some? {
      docs := e.rag.value(c.text);
    }
    evidence := AppendRagEvidence(evidence, docs, c);

    out := TextSignals(Min(1.0, base), reasons, evidence, TextProvenance(e), Debug(ruleHits, hits, retrieved, docs));
  }

  /** The rule-hit loop: a reason for each hit naming a code not yet seen, an item for
      every hit. `toReason` is `_to_reason`. */
  method RuleLoop(ruleHits: seq<RuleMatch>, c: TextCase, toReason: string -> Option<ReasonCode>)
      returns (reasons: seq<ReasonCode>, seen: set<ReasonCode>, evidence: seq<Evidence>)
    ensures reasons == Dedup(RuleCodes(ruleHits, toReason))
    ensures seen == Elems(RuleCodes(ruleHits, toReason))
    ensures evidence == RuleEvidenceOf(ruleHits, c)
  {
    reasons, seen, evidence := [], {}, [];
    var i := 0;
    assert ruleHits[..i] == [];
    assert Elems(RuleCodes(ruleHits[..i], toReason)) == {};
    while i < |ruleHits|
      invariant 0 <= i <= |ruleHits|
      invariant reasons == Dedup(RuleCodes(ruleHits[..i], toReason))
      invariant seen == Elems(RuleCodes(ruleHits[..i], toReason))
      invariant evidence == RuleEvidenceOf(ruleHits[..i], c)
    {
      var h := ruleHits[i];
      RuleLoopStep(ruleHits, c, toReason, i, reasons, seen, evidence);
      var r := toReason(h.reason);
      if r.Some? && r.value !in seen {
        seen := seen + {r.value};
        reasons := reasons + [r.value];
      } else if r.Some? {
        seen := seen + {r.value};
      }
      evidence := evidence + [RuleEvidence(h, c)];
      i := i + 1;
    }
    assert ruleHits[..i] == ruleHits;
  }

  /** One turn of the rule-hit loop keeps its invariant. */
  lemma RuleLoopStep(ruleHits: seq<RuleMatch>, c: TextCase, toReason: string -> Option<ReasonCode>, i: nat,
                     reasons: seq<ReasonCode>, seen: set<ReasonCode>, evidence: seq<Evidence>)
    requires i < |ruleHits|
    requires reasons == Dedup(RuleCodes(ruleHits[..i], toReason))
    requires seen == Elems(RuleCodes(ruleHits[..i], toReason))
    requires evidence == RuleEvidenceOf(ruleHits[..i], c)
    ensures toReason(ruleHits[i].reason).Some? && toReason(ruleHits[i].reason).value !in seen ==>
              reasons + [toReason(ruleHits[i].reason).value] == Dedup(RuleCodes(ruleHits[..i + 1], toReason))
    ensures toReason(ruleHits[i].reason).Some? && toReason(ruleHits[i].reason).value in seen ==>
              reasons == Dedup(RuleCodes(ruleHits[..i + 1], toReason))
    ensures toReason(ruleHits[i].reason).Some? ==>
              seen + {toReason(ruleHits[i].reason).value} == Elems(RuleCodes(ruleHits[..i + 1], toReason))
    ensures toReason(ruleHits[i].reason).None? ==>
              reasons == Dedup(RuleCodes(ruleHits[..i + 1], toReason)) &&
              seen == Elems(RuleCodes(ruleHits[..i + 1], toReason))
    ensures evidence + [RuleEvidence(ruleHits[i], c)] == RuleEvidenceOf(ruleHits[..i + 1], c)
  {
    RuleCodesStep(ruleHits, i, toReason);
    RuleEvidenceStep(ruleHits, i, c);
    SeenStep(RuleCodes(ruleHits[..i], toReason), toReason(ruleHits[i].reason), reasons, seen);
  }

  /** One step of a `seen`-set loop: the converted code, if there is one and it was not
      seen yet, is appended to the reasons; it is added to the set either way. */
  lemma SeenStep(prefix: seq<ReasonCode>, o: Option<ReasonCode>, reasons: seq<ReasonCode>, seen: set<ReasonCode>)
    requires reasons == Dedup(prefix) && seen == Elems(prefix)
    ensures (if o.Some? && o.value !in seen then reasons + [o.value] else reasons) == Dedup(prefix + CodeOf(o))
    ensures (if o.Some? then seen + {o.value} else seen) == Elems(prefix + CodeOf(o))
  {
    if o.Some? {
      assert CodeOf(o) == [o.value];
      DedupSnoc(prefix, o.value);
    } else {
      assert prefix + CodeOf(o) == prefix;
    }
  }

  /** The similarity loop: for each hit at or above the threshold, its reason if it names
      a code not yet seen, and an item whether or not the reason was new. */
  method SimilarityLoop(ruleCodes: seq<ReasonCode>, reasons0: seq<ReasonCode>, seen0: set<ReasonCode>,
                        hits: seq<SimilarityHit>, c: TextCase, model: string, toReason: string -> Option<ReasonCode>)
      returns (reasons: seq<ReasonCode>, seen: set<ReasonCode>, evidence: seq<Evidence>)
    requires reasons0 == Dedup(ruleCodes) && seen0 == Elems(ruleCodes)
    ensures reasons == Dedup(ruleCodes + SimilarityCodes(hits, toReason))
    ensures seen == Elems(ruleCodes + SimilarityCodes(hits, toReason))
    ensures evidence == SimilarityEvidenceOf(hits, c, model)
  {
    reasons, seen, evidence := reasons0, seen0, [];
    assert ruleCodes + SimilarityCodes(hits[..0], toReason) == ruleCodes;
    var j := 0;
    while j < |hits|
      invariant 0 <= j <= |hits|
      invariant reasons == Dedup(ruleCodes + SimilarityCodes(hits[..j], toReason))
      invariant seen == Elems(ruleCodes + SimilarityCodes(hits[..j], toReason))
      invariant evidence == SimilarityEvidenceOf(hits[..j], c, model)
    {
      var hit := hits[j];
      SimilarityCodesStep(hits, j, toReason);
      assert hits[..j + 1][..j] == hits[..j];
      ghost var prefix := ruleCodes + SimilarityCodes(hits[..j], toReason);
      if hit.score >= SimilarityThreshold {
        var r := toReason(hit.labelName);
        assert ruleCodes + SimilarityCodes(hits[..j + 1], toReason) == prefix + CodeOf(r);
        SeenStep(prefix, r, reasons, seen);
        if r.Some? && r.value !in seen {
          seen := seen + {r.value};
          reasons := reasons + [r.value];
        } else if r.Some? {
          seen := seen + {r.value};
        }
        evidence := evidence + [SimilarityEvidence(hit, c, model)];
      } else {
        assert ruleCodes + SimilarityCodes(hits[..j + 1], toReason) == prefix;
      }
      j := j + 1;
    }
    assert hits[..j] == hits;
  }

  /** The RAG loop: an item for every retrieved document. */
  method AppendRagEvidence(evidence: seq<Evidence>, docs: seq<VectorDoc>, c: TextCase)
      returns (out: seq<Evidence>)
    ensures out == evidence + RagEvidenceOf(docs, c)
  {
    out := evidence;
    var k := 0;
    while k < |docs|
      invariant 0 <= k <= |docs|
      invariant out == evidence + RagEvidenceOf(docs[..k], c)
    {
      assert RagEvidenceOf(docs[..k + 1], c) == RagEvidenceOf(docs[..k], c) + [RagEvidence(docs[k], c)];
      out := out + [RagEvidence(docs[k], c)];
      k := k + 1;
    }
    assert docs[..k] == docs;
  }

  /** The case-retrieval loop: appends an item for each case at or above its threshold. */
  method AppendCaseEvidence(evidence: seq<Evidence>, retrieved: seq<RetrievedCase>, c: TextCase)
      returns (out: seq<Evidence>)
    ensures out == evidence + CaseEvidenceOf(retrieved, c)
  {
    out := evidence;
    var k := 0;
    while k < |retrieved|
      invariant 0 <= k <= |retrieved|
      invariant out == evidence + CaseEvidenceOf(retrieved[..k], c)
    {
      var r := retrieved[k];
      assert retrieved[..k + 1][..k] == retrieved[..k];
      assert retrieved[..k + 1][k] == r;
      if r.score >= CaseThreshold {
        out := out + [CaseEvidence(r, c)];
      }
      k := k + 1;
    }
    assert retrieved[..k] == retrieved;
  }

  /** The reasons are distinct; a reason is present exactly when a rule hit carries its
      value or a label hit at or above the threshold does; and the rule reasons come
      first, in hit order, followed by the new similarity reasons. */
  lemma TextReasons(ruleHits: seq<RuleMatch>, hits: seq<SimilarityHit>)
    ensures var reasons := ReasonsOf(ruleHits, hits);
            Distinct(reasons) &&
            (forall r :: r in reasons <==>
               (exists i :: 0 <= i < |ruleHits| && ruleHits[i].reason == Value(r)) ||
               (exists j :: 0 <= j < |hits| && hits[j].score >= SimilarityThreshold && hits[j].labelName == Value(r))) &&
            reasons == Dedup(RuleCodes(ruleHits, FromString)) +
                       DedupFrom(SimilarityCodes(hits, FromString), Elems(RuleCodes(ruleHits, FromString)))
  {
    var ruleCodes := RuleCodes(ruleHits, FromString);
    var simCodes := SimilarityCodes(hits, FromString);
    var reasons := ReasonsOf(ruleHits, hits);
    DedupFromAppend(ruleCodes, simCodes, {});
    assert {} + Elems(ruleCodes) == Elems(ruleCodes);
    forall r ensures r in reasons <==> r in ruleCodes || r in simCodes {
      assert r in reasons <==> r in Elems(reasons);
      assert r in ruleCodes + simCodes <==> r in Elems(ruleCodes + simCodes);
    }
    forall r ensures r in ruleCodes <==> exists i :: 0 <= i < |ruleHits| && ruleHits[i].reason == Value(r) {
      RuleReasonsByValue(ruleHits, r);
    }
    forall r ensures r in simCodes <==>
        exists j :: 0 <= j < |hits| && hits[j].score >= SimilarityThreshold && hits[j].labelName == Value(r) {
      SimilarityReasonsByValue(hits, r);
    }
  }

  /** The evidence sources in the order `detect` appends them. */
  function SourceRank(source: string): nat {
    if source == "text.rules" then 0
    else if source == "text.embedding_similarity" then 1
    else if source == "text.case_retrieval" then 2
    else 3
  }

  /** The evidence is one rule item per rule hit, in hit order, then the similarity
      items, the case items and one taxonomy item per document, each block from its own
      source, so the sources never go back to an earlier stage. */
  lemma TextEvidenceLayout(ruleHits: seq<RuleMatch>, hits: seq<SimilarityHit>, cases: seq<RetrievedCase>,
                           docs: seq<VectorDoc>, c: TextCase, model: string)
    ensures var ev := EvidenceOf(ruleHits, hits, cases, docs, c, model);
            var n := |ruleHits|;
            var m := n + |SimilarityEvidenceOf(hits, c, model)|;
            var k := m + |CaseEvidenceOf(cases, c)|;
            |ev| == k + |docs| &&
            (forall i :: 0 <= i < n ==> ev[i] == RuleEvidence(ruleHits[i], c)) &&
            (forall i :: n <= i < m ==> ev[i] == SimilarityEvidenceOf(hits, c, model)[i - n]) &&
            (forall i :: m <= i < k ==> ev[i] == CaseEvidenceOf(cases, c)[i - m]) &&
            (forall i :: k <= i < |ev| ==> ev[i] == RagEvidence(docs[i - k], c))
  {
    Concat4(RuleEvidenceOf(ruleHits, c), SimilarityEvidenceOf(hits, c, model), CaseEvidenceOf(cases, c),
            RagEvidenceOf(docs, c));
  }

  /** The stage an evidence item comes from, by position. */
  lemma EvidenceRankAt(ruleHits: seq<RuleMatch>, hits: seq<SimilarityHit>, cases: seq<RetrievedCase>,
                       docs: seq<VectorDoc>, c: TextCase, model: string, i: nat)
    requires i < |EvidenceOf(ruleHits, hits, cases, docs, c, model)|
    ensures var n := |ruleHits|;
            var m := n + |SimilarityEvidenceOf(hits, c, model)|;
            var k := m + |CaseEvidenceOf(cases, c)|;
            SourceRank(EvidenceOf(ruleHits, hits, cases, docs, c, model)[i].source) ==
              if i < n then 0 else if i < m then 1 else if i < k then 2 else 3
  {
    var ev := EvidenceOf(ruleHits, hits, cases, docs, c, model);
    var simEv := SimilarityEvidenceOf(hits, c, model);
    var caseEv := CaseEvidenceOf(cases, c);
    TextEvidenceLayout(ruleHits, hits, cases, docs, c, model);
    var n := |ruleHits|;
    var m := n + |simEv|;
    var k := m + |caseEv|;
    if n <= i < m {
      assert simEv[i - n] in simEv;
    } else if m <= i < k {
      assert caseEv[i - m] in caseEv;
    }
  }

  /** The evidence sources never go back to an earlier stage. */
  lemma TextEvidenceOrder(ruleHits: seq<RuleMatch>, hits: seq<SimilarityHit>, cases: seq<RetrievedCase>,
                          docs: seq<VectorDoc>, c: TextCase, model: string)
    ensures var ev := EvidenceOf(ruleHits, hits, cases, docs, c, model);
            forall i, j :: 0 <= i < j < |ev| ==> SourceRank(ev[i].source) <= SourceRank(ev[j].source)
  {
    var ev := EvidenceOf(ruleHits, hits, cases, docs, c, model);
    forall i, j | 0 <= i < j < |ev| ensures SourceRank(ev[i].source) <= SourceRank(ev[j].source) {
      EvidenceRankAt(ruleHits, hits, cases, docs, c, model, i);
      EvidenceRankAt(ruleHits, hits, cases, docs, c, model, j);
    }
  }

  /** A reason's value, as the rule items and the similarity items record it. */
  predicate BackedBy(ev: Evidence, r: ReasonCode) {
    (ev.source == "text.rules" && ev.description == "Matched rule phrase for " + Value(r)) ||
    (ev.source == "text.embedding_similarity" && ev.value.JObj? &&
     "label" in ev.value.fields && ev.value.fields["label"] == JStr(Value(r)))
  }

  /** Every reason is backed by an evidence item: the rule item of a hit naming it, or
      the similarity item of a label hit naming it. */
  lemma TextReasonsTraceToEvidence(ruleHits: seq<RuleMatch>, hits: seq<SimilarityHit>, cases: seq<RetrievedCase>,
                                   docs: seq<VectorDoc>, c: TextCase, model: string)
    ensures var ev := EvidenceOf(ruleHits, hits, cases, docs, c, model);
            forall r :: r in ReasonsOf(ruleHits, hits) ==> exists k :: 0 <= k < |ev| && BackedBy(ev[k], r)
  {
    var ev := EvidenceOf(ruleHits, hits, cases, docs, c, model);
    TextReasons(ruleHits, hits);
    forall r | r in ReasonsOf(ruleHits, hits) ensures exists k :: 0 <= k < |ev| && BackedBy(ev[k], r) {
      if exists i :: 0 <= i < |ruleHits| && ruleHits[i].reason == Value(r) {
        var i :| 0 <= i < |ruleHits| && ruleHits[i].reason == Value(r);
        RuleReasonBacked(ruleHits, hits, cases, docs, c, model, i, r);
      } else {
        var j :| 0 <= j < |hits| && hits[j].score >= SimilarityThreshold && hits[j].labelName == Value(r);
        SimilarityReasonBacked(ruleHits, hits, cases, docs, c, model, j, r);
      }
    }
  }

  /** The rule item of a hit naming a reason backs that reason. */
  lemma RuleReasonBacked(ruleHits: seq<RuleMatch>, hits: seq<SimilarityHit>, cases: seq<RetrievedCase>,
                         docs: seq<VectorDoc>, c: TextCase, model: string, i: nat, r: ReasonCode)
    requires i < |ruleHits| && ruleHits[i].reason == Value(r)
    ensures var ev := EvidenceOf(ruleHits, hits, cases, docs, c, model);
            i < |ev| && BackedBy(ev[i], r)
  {
    TextEvidenceLayout(ruleHits, hits, cases, docs, c, model);
  }

  /** The similarity item of a label hit naming a reason backs that reason. */
  lemma SimilarityReasonBacked(ruleHits: seq<RuleMatch>, hits: seq<SimilarityHit>, cases: seq<RetrievedCase>,
                               docs: seq<VectorDoc>, c: TextCase, model: string, j: nat, r: ReasonCode)
    requires j < |hits| && hits[j].score >= SimilarityThreshold && hits[j].labelName == Value(r)
    ensures var ev := EvidenceOf(ruleHits, hits, cases, docs, c, model);
            exists k :: 0 <= k < |ev| && BackedBy(ev[k], r)
  {
    var ev := EvidenceOf(ruleHits, hits, cases, docs, c, model);
    var simEv := SimilarityEvidenceOf(hits, c, model);
    var n := |ruleHits|;
    TextEvidenceLayout(ruleHits, hits, cases, docs, c, model);
    SimilarityEvidenceMember(hits, c, model);
    var se := SimilarityEvidence(hits[j], c, model);
    var q :| 0 <= q < |simEv| && simEv[q] == se;
    assert ev[n + q] == se;
    assert BackedBy(se, r);
  }

  /** Case retrieval and the taxonomy retriever only add evidence: without them the
      reasons, the base score and the provenance are the same, and the evidence is a
      prefix of the evidence with them. */
  lemma RetrievalEvidenceOnly(e: TextRiskEngine, c: TextCase)
    ensures var bare := DetectOf(e.(caseRetriever := None, rag := None), c);
            var full := DetectOf(e, c);
            bare.reasons == full.reasons && bare.baseScore == full.baseScore &&
            bare.provenance == full.provenance && bare.evidence <= full.evidence
  {
    var e0 := e.(caseRetriever := None, rag := None);
    var ruleHits := RuleHits(e, c);
    var hits := Hits(e, c);
    var model := e.labelIndex.model;
    var pre := RuleEvidenceOf(ruleHits, c) + SimilarityEvidenceOf(hits, c, model);
    assert Retrieved(e0, c) == [] && Docs(e0, c) == [];
    assert EvidenceOf(ruleHits, hits, [], [], c, model) == pre;
    assert EvidenceOf(ruleHits, hits, Retrieved(e, c), Docs(e, c), c, model) ==
           pre + (CaseEvidenceOf(Retrieved(e, c), c) + RagEvidenceOf(Docs(e, c), c));
  }

  /** The base score is the best label similarity, in [0, 1], 0 without labels and at
      least the threshold whenever a label hit names a reason; the rules never change it. */
  lemma TextBase(e: TextRiskEngine, c: TextCase)
    ensures var out := DetectOf(e, c);
            var hits := Hits(e, c);
            0.0 <= out.baseScore <= 1.0 && out.baseScore == MaxScore(hits) &&
            (e.labelIndex.vectors == [] ==> out.baseScore == 0.0) &&
            (forall j :: 0 <= j < |hits| ==> hits[j].score <= out.baseScore) &&
            (SimilarityCodes(hits, FromString) != [] ==> out.baseScore >= SimilarityThreshold) &&
            out.provenance == Provenance("text_risk_engine", Some("embeddings:" + e.labelIndex.model), Some("v1"), None)
    ensures forall rules :: DetectOf(e.(rules := rules), c).baseScore == DetectOf(e, c).baseScore
  {
    var hits := Hits(e, c);
    TopHitsFromLabels(e.embed(c.text), e.labelIndex.vectors, TopLabels, e.sqrt);
    if hits != [] {
      var i :| 0 <= i < |hits| && MaxScore(hits) == hits[i].score;
    }
    var simCodes := SimilarityCodes(hits, FromString);
    if simCodes != [] {
      SimilarityCodesMember(hits, FromString, simCodes[0]);
    }
  }
}
