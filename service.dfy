/** libs/risk/service.py: one scoring call decides, optionally explains, and always
    writes the audit record. The explainer and the audit writer are the functions they
    compute; an explainer Err is an exception it raises. */
module Service {
  import opened Wrappers
  import opened DecisionTypes
  import opened Taxonomy
  import Orchestrator

  /** `AuditWriteResult`: the id the writer returns. */
  datatype AuditWriteResult = AuditWriteResult(auditId: string)

  /** `RiskServiceResult`; an explanation is a JSON-like value here. */
  datatype RiskServiceResult = RiskServiceResult(decision: RiskDecision, audit: AuditWriteResult, explanation: Option<Json>)

  /** `RiskService`: the orchestrator, the audit writer's `write(decision, raw_input)` and
      the optional explainer's `generate(decision, taxonomy)`. */
  datatype RiskService = RiskService(
    orchestrator: Orchestrator.RiskOrchestrator,
    auditWriter: (RiskDecision, map<string, Json>) -> AuditWriteResult,
    explainer: Option<(RiskDecision, TaxonomyConfig) -> Result<Json, string>>)

  /** A collaborator call `score` makes. */
  datatype ServiceCall = OrchestratorScore | Explain | AuditWrite

  /** The explanation: asked for only with `explain` and an explainer; a raised
      exception leaves None. */
  function ExplanationOf(svc: RiskService, d: RiskDecision, explain: bool): Option<Json> {
    if explain && svc.explainer.Some? then
      var r := svc.explainer.value(d, svc.orchestrator.taxonomy);
      if r.Ok? then Some(r.value) else None
    else None
  }

  /** What `score` returns once the orchestrator returned `decided`. Err is an exception
      from the orchestrator, which propagates. */
  function ResultFor(svc: RiskService, req: Orchestrator.RiskRequest, decided: Result<RiskDecision, string>,
                     explain: bool): (r: Result<RiskServiceResult, string>)
    ensures r.Err? <==> decided.Err?
    ensures r.Ok? ==> r.value.decision == decided.value
    ensures r.Ok? && !(explain && svc.explainer.Some?) ==> r.value.explanation.None?
  {
    if decided.Err? then Err(decided.error)
    else Ok(RiskServiceResult(decided.value, svc.auditWriter(decided.value, Orchestrator.RequestDump(req)),
                              ExplanationOf(svc, decided.value, explain)))
  }

  /** The collaborator calls `score` makes, in order, once the orchestrator returned `decided`. */
  function CallsFor(svc: RiskService, decided: Result<RiskDecision, string>, explain: bool): (calls: seq<ServiceCall>)
    ensures calls != [] && calls[0] == OrchestratorScore && OrchestratorScore !in calls[1..]
    ensures AuditWrite in calls <==> decided.Ok?
    ensures Explain in calls <==> decided.Ok? && explain && svc.explainer.Some?
    ensures decided.Ok? ==> calls[|calls| - 1] == AuditWrite
  {
    [OrchestratorScore] +
    if decided.Err? then []
    else (if explain && svc.explainer.Some? then [Explain] else []) + [AuditWrite]
  }

  /** `RiskService.score`, with the calls it makes. */
  method Score(svc: RiskService, req: Orchestrator.RiskRequest, explain: bool)
      returns (res: Result<RiskServiceResult, string>, calls: seq<ServiceCall>)
    ensures res == ResultFor(svc, req, Orchestrator.ScoreOf(svc.orchestrator, req), explain)
    ensures calls == CallsFor(svc, Orchestrator.ScoreOf(svc.orchestrator, req), explain)
  {
    var decision, _ := Orchestrator.Score(svc.orchestrator, req);
    res, calls := Respond(svc, req, decision, explain);
  }

  /** The rest of `score` once the orchestrator returned `decision`: explain if asked,
      then write the audit record. */
  method Respond(svc: RiskService, req: Orchestrator.RiskRequest, decision: Result<RiskDecision, string>, explain: bool)
      returns (res: Result<RiskServiceResult, string>, calls: seq<ServiceCall>)
    ensures res == ResultFor(svc, req, decision, explain)
    ensures calls == CallsFor(svc, decision, explain)
  {
    calls := [OrchestratorScore];
    if decision.Err? {
      return Err(decision.error), calls;
    }

    var explanation: Option<Json> := None;
    if explain && svc.explainer.Some? {
      calls := calls + [Explain];
      var r := svc.explainer.value(decision.value, svc.orchestrator.taxonomy);
      if r.Ok? {
        explanation := Some(r.value);
      } else {
        explanation := None;
      }
    }

    var audit := svc.auditWriter(decision.value, Orchestrator.RequestDump(req));
    calls := calls + [AuditWrite];
    res := Ok(RiskServiceResult(decision.value, audit, explanation));
  }

  /** Once the orchestrator decides, the service returns that decision unchanged, with
      the writer's own result for the audit written on the request's dump; a failing or
      absent explanation never prevents it. The orchestrator is called exactly once, the
      audit is written exactly once and last, and the explainer is called only when an
      explanation is asked for and an explainer is configured. */
  lemma ExplanationNeverBlocksAudit(svc: RiskService, req: Orchestrator.RiskRequest,
                                    decided: Result<RiskDecision, string>, explain: bool)
    requires decided.Ok?
    ensures var res := ResultFor(svc, req, decided, explain);
            var d := decided.value;
            res.Ok? && res.value.decision == d &&
            res.value.audit == svc.auditWriter(d, Orchestrator.RequestDump(req)) &&
            (!explain || svc.explainer.None? || svc.explainer.value(d, svc.orchestrator.taxonomy).Err? ==>
               res.value.explanation == None)
    ensures var calls := CallsFor(svc, decided, explain);
            multiset(calls)[OrchestratorScore] == 1 && calls[0] == OrchestratorScore &&
            multiset(calls)[AuditWrite] == 1 && calls[|calls| - 1] == AuditWrite &&
            (Explain in calls <==> explain && svc.explainer.Some?)
  {
    var calls := CallsFor(svc, decided, explain);
    if explain && svc.explainer.Some? {
      assert calls == [OrchestratorScore, Explain, AuditWrite];
    } else {
      assert calls == [OrchestratorScore, AuditWrite];
    }
  }

  /** The service fails exactly when the orchestrator does, and then neither explains nor
      writes an audit record. */
  lemma ServiceFailsOnlyWithOrchestrator(svc: RiskService, req: Orchestrator.RiskRequest,
                                         decided: Result<RiskDecision, string>, explain: bool)
    ensures ResultFor(svc, req, decided, explain).Err? <==> decided.Err?
    ensures decided.Err? ==> CallsFor(svc, decided, explain) == [OrchestratorScore]
  {
  }
}
