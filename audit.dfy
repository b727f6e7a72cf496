/** libs/audit/writer.py: the columns of an audit row that come from the request and the
    decision rather than from the database or the clock. */
module Audit {
  import opened Wrappers
  import opened DecisionTypes
  import Orchestrator
  import TextEngine
  import FraudFeatures

  /** `raw_input.get("text") or {}`. */
  function TextPartOf(raw: map<string, Json>): Json {
    if Truthy(Get(raw, "text")) then Get(raw, "text") else JObj(map[])
  }

  /** `_pick_actor`: the text part's `customer_id` when the text part is a dict, else None
      (JNull). */
  function PickActor(raw: map<string, Json>): (a: Json)
    ensures Get(raw, "text").JObj? ==> a == Get(Get(raw, "text").fields, "customer_id")
    ensures !Get(raw, "text").JObj? ==> a == JNull
  {
    var t := TextPartOf(raw);
    if t.JObj? then Get(t.fields, "customer_id") else JNull
  }

  /** The entity columns: a type and an id, each possibly None. The id is the `case_id`
      value itself; `str()` on it is not modelled. */
  datatype Entity = Entity(entityType: Option<string>, entityId: Json)

  /** `_pick_entity`: a text case with a truthy id first, then a transaction, else nothing. */
  function PickEntity(raw: map<string, Json>): (e: Entity)
    ensures e.entityType == Some("text_case") <==>
              Get(raw, "text").JObj? && Truthy(Get(Get(raw, "text").fields, "case_id"))
    ensures e.entityType == Some("text_case") ==> e.entityId == Get(Get(raw, "text").fields, "case_id")
    ensures e.entityType != Some("text_case") ==> e.entityId == JNull
    ensures e.entityType.Some? ==> e.entityType == Some("text_case") || e.entityType == Some("transaction")
    ensures e.entityType.None? <==> e.entityType != Some("text_case") && !Get(raw, "fraud").JObj?
  {
    var t := TextPartOf(raw);
    if t.JObj? && Truthy(Get(t.fields, "case_id")) then Entity(Some("text_case"), Get(t.fields, "case_id"))
    else if Get(raw, "fraud").JObj? then Entity(Some("transaction"), JNull)
    else Entity(None, JNull)
  }

  /** `_extract_model_prompt_versions`. */
  function ModelPromptVersions(d: RiskDecision): (v: (Option<string>, Option<string>, Option<string>))
    ensures v.0 == d.provenance.modelName && v.1 == d.provenance.modelVersion
    ensures v.2 == d.provenance.promptVersion
  {
    (d.provenance.modelName, d.provenance.modelVersion, d.provenance.promptVersion)
  }

  /** The `reason_codes` column before JSON encoding: `[r.value for r in decision.reasons]`. */
  function ReasonCodesColumn(d: RiskDecision): (col: seq<string>)
    ensures |col| == |d.reasons|
    ensures forall i :: 0 <= i < |col| ==> col[i] == Value(d.reasons[i])
  {
    seq(|d.reasons|, i requires 0 <= i < |d.reasons| => Value(d.reasons[i]))
  }

  /** The column loses nothing: each entry converts back to the decision's reason at
      the same position. */
  lemma ReasonCodesRoundTrip(d: RiskDecision)
    ensures var col := ReasonCodesColumn(d);
            forall i :: 0 <= i < |col| ==> FromString(col[i]) == Some(d.reasons[i])
  {
    var col := ReasonCodesColumn(d);
    forall i | 0 <= i < |col| ensures FromString(col[i]) == Some(d.reasons[i]) {
      FromStringIff(col[i], d.reasons[i]);
    }
  }

  /** Whatever the request, an orchestrated decision is audited under the orchestrator's
      model name and version and no prompt version. */
  lemma OrchestratedVersions(o: Orchestrator.RiskOrchestrator, req: Orchestrator.RiskRequest)
    requires Orchestrator.ScoreOf(o, req).Ok?
    ensures ModelPromptVersions(Orchestrator.ScoreOf(o, req).value) == (Some("multi_engine"), Some("v1"), None)
  {
    Orchestrator.OrchestratedDecision(o, req);
  }

  /** On a request's dump, the actor is the case's customer id when there is a case, and
      the entity is the case when it has a non-empty id, otherwise the transaction when
      there is one, otherwise nothing. */
  lemma ActorAndEntityOfRequest(req: Orchestrator.RiskRequest)
    ensures var raw := Orchestrator.RequestDump(req);
            PickActor(raw) == (if req.text.Some? then OptStr(req.text.value.customerId) else JNull) &&
            PickEntity(raw) ==
              if req.text.Some? && req.text.value.caseId != "" then Entity(Some("text_case"), JStr(req.text.value.caseId))
              else if req.fraud.Some? then Entity(Some("transaction"), JNull)
              else Entity(None, JNull)
  {
    var raw := Orchestrator.RequestDump(req);
    if req.text.Some? {
      var d := TextEngine.CaseDump(req.text.value);
      assert "case_id" in d;
      assert Truthy(Get(raw, "text"));
    } else {
      assert TextPartOf(raw) == JObj(map[]);
    }
    if req.fraud.Some? {
      assert Get(raw, "fraud").JObj?;
    }
  }
}
