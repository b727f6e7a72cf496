/** The value types of libs/risk/decisioning: reason codes, evidence, provenance,
    the final decision, and the per-engine signal the orchestrator consumes. */
module DecisionTypes {
  import opened Wrappers
  import opened Seqs

  /** The closed set of risk indicators shared by every engine and the taxonomy. */
  datatype ReasonCode =
    | HighTransactionVelocity
    | UnusualAmount
    | DistressLanguage
    | RepeatComplaint
    | MisleadingInformation
    | AccountBehaviorChange

  /** The enum member's string value. */
  function Value(r: ReasonCode): string {
    match r
    case HighTransactionVelocity => "high_transaction_velocity"
    case UnusualAmount => "unusual_transaction_amount"
    case DistressLanguage => "distress_language_detected"
    case RepeatComplaint => "repeat_complaint"
    case MisleadingInformation => "misleading_information"
    case AccountBehaviorChange => "account_behavior_change"
  }

  /** `ReasonCode(s)`: lookup by value; None where the enum constructor raises. */
  function FromString(s: string): (r: Option<ReasonCode>)
    ensures r.Some? ==> Value(r.value) == s
  {
    Lookup(s, AllCodes)
  }

  /** The first member of `cs` whose value is `s`. */
  function Lookup(s: string, cs: seq<ReasonCode>): (r: Option<ReasonCode>)
    ensures r.Some? ==> r.value in cs && Value(r.value) == s
  {
    if cs == [] then None
    else if Value(cs[0]) == s then Some(cs[0])
    else Lookup(s, cs[1..])
  }

  /** Distinct members have distinct values: their first characters already differ. */
  lemma ValueInjective(a: ReasonCode, b: ReasonCode)
    requires Value(a) == Value(b)
    ensures a == b
  {
    assert Value(a)[0] == "adhmru"[Rank(a)] by {
      match a
      case AccountBehaviorChange =>
      case DistressLanguage =>
      case HighTransactionVelocity =>
      case MisleadingInformation =>
      case RepeatComplaint =>
      case UnusualAmount =>
    }
    assert Value(b)[0] == "adhmru"[Rank(b)] by {
      match b
      case AccountBehaviorChange =>
      case DistressLanguage =>
      case HighTransactionVelocity =>
      case MisleadingInformation =>
      case RepeatComplaint =>
      case UnusualAmount =>
    }
  }

  lemma {:induction false} LookupFinds(s: string, cs: seq<ReasonCode>, r: ReasonCode)
    requires r in cs && Value(r) == s
    ensures Lookup(s, cs) == Some(r)
  {
    if Value(cs[0]) == s {
      ValueInjective(cs[0], r);
    } else {
      assert r in cs[1..];
      LookupFinds(s, cs[1..], r);
    }
  }

  /** Lookup by value finds exactly the member whose value it is. */
  lemma FromStringIff(s: string, r: ReasonCode)
    ensures FromString(s) == Some(r) <==> s == Value(r)
  {
    if s == Value(r) {
      assert AllCodes[Rank(r)] == r;
      LookupFinds(s, AllCodes, r);
    }
  }

  /** Python's `<` on str: lexicographic on code points. */
  predicate StrLess(a: string, b: string) {
    if a == [] then b != []
    else if b == [] then false
    else if a[0] != b[0] then a[0] < b[0]
    else StrLess(a[1..], b[1..])
  }

  /** Position of a member's value in ascending string order. */
  function Rank(r: ReasonCode): nat {
    match r
    case AccountBehaviorChange => 0
    case DistressLanguage => 1
    case HighTransactionVelocity => 2
    case MisleadingInformation => 3
    case RepeatComplaint => 4
    case UnusualAmount => 5
  }

  /** Every member, in ascending order of its value. */
  const AllCodes: seq<ReasonCode> :=
    [AccountBehaviorChange, DistressLanguage, HighTransactionVelocity,
     MisleadingInformation, RepeatComplaint, UnusualAmount]

  /** Ordering members by Rank is ordering their values as Python sorts strings. */
  lemma RankIsValueOrder(a: ReasonCode, b: ReasonCode)
    ensures Rank(a) < Rank(b) <==> StrLess(Value(a), Value(b))
  {
    var va, vb := Value(a), Value(b);
    assert va[0] == "adhmru"[Rank(a)] by {
      match a
      case AccountBehaviorChange =>
      case DistressLanguage =>
      case HighTransactionVelocity =>
      case MisleadingInformation =>
      case RepeatComplaint =>
      case UnusualAmount =>
    }
    assert vb[0] == "adhmru"[Rank(b)] by {
      match b
      case AccountBehaviorChange =>
      case DistressLanguage =>
      case HighTransactionVelocity =>
      case MisleadingInformation =>
      case RepeatComplaint =>
      case UnusualAmount =>
    }
    if a == b {
      assert !StrLess(va, vb) by { StrLessIrreflexive(va); }
    } else {
      assert Rank(a) != Rank(b);
      assert va[0] != vb[0];
    }
  }

  lemma {:induction false} StrLessIrreflexive(s: string)
    ensures !StrLess(s, s)
  {
    if s != [] {
      StrLessIrreflexive(s[1..]);
    }
  }

  /** The members of `cs` that occur in `rs`, in the order of `cs`. */
  function KeepObserved(cs: seq<ReasonCode>, rs: seq<ReasonCode>): seq<ReasonCode> {
    if cs == [] then [] else (if cs[0] in rs then [cs[0]] else []) + KeepObserved(cs[1..], rs)
  }

  lemma {:induction false} KeepObservedProps(cs: seq<ReasonCode>, rs: seq<ReasonCode>)
    requires forall i, j :: 0 <= i < j < |cs| ==> Rank(cs[i]) < Rank(cs[j])
    ensures forall x :: x in KeepObserved(cs, rs) <==> x in cs && x in rs
    ensures forall i, j :: 0 <= i < j < |KeepObserved(cs, rs)| ==>
              Rank(KeepObserved(cs, rs)[i]) < Rank(KeepObserved(cs, rs)[j])
  {
    if cs != [] {
      var tail := KeepObserved(cs[1..], rs);
      KeepObservedProps(cs[1..], rs);
      var r := KeepObserved(cs, rs);
      if cs[0] in rs {
        assert r == [cs[0]] + tail;
        forall j | 0 < j < |r| ensures Rank(r[0]) < Rank(r[j]) {
          assert r[j] == tail[j - 1];
          assert r[j] in cs[1..];
          var k :| 0 <= k < |cs[1..]| && cs[1..][k] == r[j];
          assert cs[k + 1] == r[j];
        }
      } else {
        assert r == tail;
      }
    }
  }

  /** `sorted(set(rs))` on reason codes: the distinct observed members, ascending. */
  function SortedCodes(rs: seq<ReasonCode>): (r: seq<ReasonCode>)
    ensures forall x :: x in r <==> x in rs
    ensures forall i, j :: 0 <= i < j < |r| ==> StrLess(Value(r[i]), Value(r[j]))
    ensures Distinct(r)
    ensures |r| == |Elems(rs)|
  {
    var r := KeepObserved(AllCodes, rs);
    KeepObservedProps(AllCodes, rs);
    assert forall x: ReasonCode :: x in AllCodes by {
      forall x: ReasonCode ensures x in AllCodes { assert AllCodes[Rank(x)] == x; }
    }
    forall i, j | 0 <= i < j < |r| ensures StrLess(Value(r[i]), Value(r[j])) {
      RankIsValueOrder(r[i], r[j]);
    }
    assert Elems(r) == Elems(rs);
    DistinctCard(r);
    r
  }

  /** A JSON-like value: what the source keeps in `dict[str, Any]` fields. */
  datatype Json =
    | JNull
    | JBool(boolValue: bool)
    | JInt(intValue: int)
    | JNum(numValue: real)
    | JStr(str: string)
    | JList(items: seq<Json>)
    | JObj(fields: map<string, Json>)

  /** `d.get(k)`. */
  function Get(d: map<string, Json>, k: string): Json {
    if k in d then d[k] else JNull
  }

  /** Python truthiness of a JSON-like value. */
  predicate Truthy(j: Json) {
    match j
    case JNull => false
    case JBool(b) => b
    case JInt(i) => i != 0
    case JNum(x) => x != 0.0
    case JStr(s) => s != ""
    case JList(items) => items != []
    case JObj(fields) => fields != map[]
  }

  function OptStr(s: Option<string>): Json {
    match s
    case None => JNull
    case Some(v) => JStr(v)
  }

  function OptNum(x: Option<real>): Json {
    match x
    case None => JNull
    case Some(v) => JNum(v)
  }

  /** `[r.value for r in rs]`. */
  function CodesJson(rs: seq<ReasonCode>): (j: Json)
    ensures j.JList? && |j.items| == |rs|
    ensures forall i :: 0 <= i < |rs| ==> j.items[i] == JStr(Value(rs[i]))
  {
    JList(seq(|rs|, i requires 0 <= i < |rs| => JStr(Value(rs[i]))))
  }

  /** One observation that supports a reason code or gives context. */
  datatype Evidence = Evidence(
    source: string,
    description: string,
    value: Json,
    threshold: Option<real>,
    metadata: map<string, Json>)

  /** Which engine, model and prompt produced a signal or decision. */
  datatype Provenance = Provenance(
    engine: string,
    modelName: Option<string>,
    modelVersion: Option<string>,
    promptVersion: Option<string>)

  /** `p.model_dump()`. */
  function ProvenanceJson(p: Provenance): Json {
    JObj(map["engine" := JStr(p.engine), "model_name" := OptStr(p.modelName),
             "model_version" := OptStr(p.modelVersion), "prompt_version" := OptStr(p.promptVersion)])
  }

  /** The unit of record. The source validates 0 <= risk_score <= 1 when it builds one. */
  datatype RiskDecision = RiskDecision(
    riskScore: real,
    riskCategory: string,
    reasons: seq<ReasonCode>,
    evidence: seq<Evidence>,
    provenance: Provenance,
    metadata: map<string, Json>)

  /** The fields of an engine's output that the orchestrator reads. */
  datatype Signal = Signal(
    baseScore: real,
    reasons: seq<ReasonCode>,
    evidence: seq<Evidence>,
    provenance: Provenance)
}
