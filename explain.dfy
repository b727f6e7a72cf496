/** libs/ml/fraud/explain.py: top-k feature attribution by distance from a baseline,
    and the mapping of attributed features to reason codes and evidence. */
module FraudExplain {
  import opened Wrappers
  import opened Seqs
  import opened Sorting
  import opened DecisionTypes
  import opened Numbers

  /** `Contribution`: one attributed feature. */
  datatype Contribution = Contribution(feature: string, weight: real, value: Option<real>, baseline: Option<real>)

  /** The features `FEATURE_TO_REASON` lists. */
  const MappedFeatures: set<string> :=
    {"txns_1h", "txns_24h", "txn_amount", "avg_txn_amount_30d", "failed_logins_24h", "device_change_7d", "txn_country"}

  /** The reasons fraud attribution can ever name. */
  const FraudReasons: set<ReasonCode> := {HighTransactionVelocity, UnusualAmount, AccountBehaviorChange}

  /** `FEATURE_TO_REASON.get(f)`: velocity features name high velocity, amount features an
      unusual amount, login/device/country features an account behaviour change. */
  function FeatureToReason(f: string): (r: Option<ReasonCode>)
    ensures r.Some? <==> f in MappedFeatures
    ensures r.Some? ==> r.value in FraudReasons
  {
    if f == "txns_1h" || f == "txns_24h" then Some(HighTransactionVelocity)
    else if f == "txn_amount" || f == "avg_txn_amount_30d" then Some(UnusualAmount)
    else if f == "failed_logins_24h" || f == "device_change_7d" || f == "txn_country" then Some(AccountBehaviorChange)
    else None
  }

  /** `f.split("=")[0]`: the longest prefix of `f` without '='. */
  function BaseFeature(f: string): (r: string)
    ensures r <= f
    ensures '=' !in r
    ensures |r| < |f| ==> f[|r|] == '='
  {
    if f == [] || f[0] == '=' then []
    else [f[0]] + BaseFeature(f[1..])
  }

  /** A one-hot feature name "c=cat" maps through its column c, and a plain name through itself. */
  lemma {:induction false} BaseFeatureOfOneHot(col: string, cat: string)
    requires '=' !in col
    ensures BaseFeature(col + "=" + cat) == col
    ensures BaseFeature(col) == col
  {
    if col != [] {
      assert (col + "=" + cat)[0] == col[0];
      assert (col + "=" + cat)[1..] == col[1..] + "=" + cat;
      BaseFeatureOfOneHot(col[1..], cat);
    } else {
      assert (col + "=" + cat)[0] == '=';
    }
  }

  function Abs(x: real): real { if x < 0.0 then -x else x }

  /** `b1`: the given baseline, or zeros shaped like `x`. */
  function BaselineOrZeros(x: seq<real>, baseline: Option<seq<real>>): (b: seq<real>)
    requires baseline.Some? ==> |baseline.value| == |x|
    ensures |b| == |x|
    ensures baseline.None? ==> forall i :: 0 <= i < |b| ==> b[i] == 0.0
  {
    if baseline.Some? then baseline.value else seq(|x|, _ => 0.0)
  }

  /** `np.abs(x1 - b1)`. */
  function Weights(x: seq<real>, b: seq<real>): (w: seq<real>)
    requires |b| == |x|
    ensures |w| == |x|
    ensures forall i :: 0 <= i < |w| ==> w[i] >= 0.0 && (w[i] == x[i] - b[i] || w[i] == b[i] - x[i])
  {
    seq(|x|, i requires 0 <= i < |x| => Abs(x[i] - b[i]))
  }

  function WeightOf(w: seq<real>): int -> real {
    (i: int) => if 0 <= i < |w| then w[i] else 0.0
  }

  /** `np.argsort(weights)[::-1][:k]`: the indices of the k largest weights, largest first.
      Equal weights come out in decreasing index order, as a stable argsort reversed gives. */
  function TopIndices(w: seq<real>, k: nat): (t: seq<int>)
    ensures |t| == MinNat(k, |w|)
    ensures forall j :: 0 <= j < |t| ==> 0 <= t[j] < |w|
  {
    SortedIndices(w);
    SortDesc(AllIndices(w), WeightOf(w))[..MinNat(k, |w|)]
  }

  /** The indices of `w` from the last down to 0: a stable descending sort of these puts
      equal weights in the order `argsort(...)[::-1]` does for a stable argsort. */
  function AllIndices(w: seq<real>): (r: seq<int>)
    ensures |r| == |w|
    ensures forall i :: 0 <= i < |w| ==> r[i] == |w| - 1 - i
    ensures Distinct(r)
  {
    seq(|w|, i requires 0 <= i < |w| => |w| - 1 - i)
  }

  /** The whole descending order: every index of `w` once, weights non-increasing. */
  lemma SortedIndices(w: seq<real>)
    ensures var all := SortDesc(AllIndices(w), WeightOf(w));
            |all| == |w| &&
            (forall j :: 0 <= j < |all| ==> 0 <= all[j] < |w|) &&
            Distinct(all) &&
            (forall i :: 0 <= i < |w| ==> i in all) &&
            (forall i, j :: 0 <= i < j < |all| ==> w[all[i]] >= w[all[j]])
  {
    var idx := AllIndices(w);
    var all := SortDesc(idx, WeightOf(w));
    SortDescProps(idx, WeightOf(w));
    SortDescDistinct(idx, WeightOf(w));
    forall j | 0 <= j < |all| ensures 0 <= all[j] < |w| {
      assert all[j] in multiset(idx);
    }
    forall i | 0 <= i < |w| ensures i in all {
      assert idx[|w| - 1 - i] == i;
      assert i in multiset(idx);
    }
    forall i, j | 0 <= i < j < |all| ensures w[all[i]] >= w[all[j]] {
      assert WeightOf(w)(all[i]) >= WeightOf(w)(all[j]);
    }
  }

  /** Among equal weights the later index comes first, the order a stable ascending
      argsort gives once reversed. */
  lemma TopIndicesTieOrder(w: seq<real>, k: nat)
    ensures var t := TopIndices(w, k);
            forall i, j :: 0 <= i < j < |t| && w[t[i]] == w[t[j]] ==> t[i] > t[j]
  {
    var idx := AllIndices(w);
    var all := SortDesc(idx, WeightOf(w));
    var t := TopIndices(w, k);
    SortedIndices(w);
    assert t == all[..|t|];
    forall i, j | 0 <= i < j < |t| && w[t[i]] == w[t[j]] ensures t[i] > t[j] {
      assert t[i] == all[i] && t[j] == all[j];
      SortDescTieOrder(idx, WeightOf(w), i, j);
      var p, q :| 0 <= p < q < |idx| && idx[p] == all[i] && idx[q] == all[j];
    }
  }

  /** The chosen indices are distinct positions of `w` in non-increasing weight order, and
      no index left out outweighs any chosen one. */
  lemma TopIndicesProps(w: seq<real>, k: nat)
    ensures var t := TopIndices(w, k);
            (forall j :: 0 <= j < |t| ==> 0 <= t[j] < |w|) &&
            Distinct(t) &&
            (forall i, j :: 0 <= i < j < |t| ==> w[t[i]] >= w[t[j]]) &&
            (forall i, j :: 0 <= i < |w| && i !in t && 0 <= j < |t| ==> w[i] <= w[t[j]])
  {
    var all := SortDesc(AllIndices(w), WeightOf(w));
    var t := TopIndices(w, k);
    SortedIndices(w);
    assert t == all[..|t|];
    forall i, j | 0 <= i < |w| && i !in t && 0 <= j < |t|
      ensures w[i] <= w[t[j]]
    {
      assert i in all;
      var p :| 0 <= p < |all| && all[p] == i;
      assert t[j] == all[j];
    }
  }

  function ContributionAt(names: seq<string>, x: seq<real>, b: seq<real>, w: seq<real>, i: int): Contribution
    requires 0 <= i < |names| && i < |x| && i < |b| && i < |w|
  {
    Contribution(names[i], w[i], Some(x[i]), Some(b[i]))
  }

  /** The contributions `top_contributions` builds: feature name, weight, value and
      baseline of each chosen index, in the order TopIndices gives. */
  function TopContributionsOf(names: seq<string>, x: seq<real>, baseline: Option<seq<real>>, k: nat): (out: seq<Contribution>)
    requires |names| == |x|
    requires baseline.Some? ==> |baseline.value| == |x|
    ensures |out| == MinNat(k, |x|)
  {
    var b := BaselineOrZeros(x, baseline);
    var w := Weights(x, b);
    var idx := TopIndices(w, k);
    TopIndicesProps(w, k);
    seq(|idx|, j requires 0 <= j < |idx| => ContributionAt(names, x, b, w, idx[j]))
  }

  /** `top_contributions`. */
  method TopContributions(names: seq<string>, x: seq<real>, baseline: Option<seq<real>>, k: nat)
      returns (out: seq<Contribution>)
    requires |names| == |x|
    requires baseline.Some? ==> |baseline.value| == |x|
    ensures out == TopContributionsOf(names, x, baseline, k)
    ensures |out| == MinNat(k, |x|)
  {
    var b1 := BaselineOrZeros(x, baseline);
    var weights := Weights(x, b1);
    var idx := TopIndices(weights, k);
    TopIndicesProps(weights, k);
    out := [];
    var n := 0;
    while n < |idx|
      invariant 0 <= n <= |idx|
      invariant |out| == n
      invariant forall j :: 0 <= j < n ==> out[j] == ContributionAt(names, x, b1, weights, idx[j])
    {
      var i := idx[n];
      out := out + [Contribution(names[i], weights[i], Some(x[i]), Some(b1[i]))];
      n := n + 1;
    }
  }

  /** What `top_contributions` promises whatever order argsort gives to ties, in four
      parts. Weights never increase along the result. */
  lemma TopContributionsOrder(names: seq<string>, x: seq<real>, baseline: Option<seq<real>>, k: nat)
    requires |names| == |x|
    requires baseline.Some? ==> |baseline.value| == |x|
    ensures var out := TopContributionsOf(names, x, baseline, k);
            forall i, j :: 0 <= i < j < |out| ==> out[i].weight >= out[j].weight
  {
    var out := TopContributionsOf(names, x, baseline, k);
    var b := BaselineOrZeros(x, baseline);
    TopIndicesProps(Weights(x, b), k);
    forall i, j | 0 <= i < j < |out| ensures out[i].weight >= out[j].weight {
      TopContributionAt(names, x, baseline, k, i);
      TopContributionAt(names, x, baseline, k, j);
    }
  }

  /** Each item takes its name, value, baseline and weight |x[i] - b[i]| from one index i,
      with b the given baseline or zeros. */
  lemma TopContributionsFrom(names: seq<string>, x: seq<real>, baseline: Option<seq<real>>, k: nat)
    requires |names| == |x|
    requires baseline.Some? ==> |baseline.value| == |x|
    ensures var out := TopContributionsOf(names, x, baseline, k);
            var b := BaselineOrZeros(x, baseline);
            forall j :: 0 <= j < |out| ==>
              exists i :: 0 <= i < |x| && out[j] == Contribution(names[i], Abs(x[i] - b[i]), Some(x[i]), Some(b[i]))
  {
    var out := TopContributionsOf(names, x, baseline, k);
    var b := BaselineOrZeros(x, baseline);
    forall j | 0 <= j < |out|
      ensures exists i :: 0 <= i < |x| && out[j] == Contribution(names[i], Abs(x[i] - b[i]), Some(x[i]), Some(b[i]))
    {
      TopContributionAt(names, x, baseline, k, j);
      var i := TopIndices(Weights(x, b), k)[j];
      assert out[j] == Contribution(names[i], Abs(x[i] - b[i]), Some(x[i]), Some(b[i]));
    }
  }

  /** Without a baseline every item is one entry of `x` with baseline 0, weighted by the
      entry's absolute value. */
  lemma TopContributionsNoBaseline(names: seq<string>, x: seq<real>, k: nat)
    requires |names| == |x|
    ensures var out := TopContributionsOf(names, x, None, k);
            forall j :: 0 <= j < |out| ==>
              exists i :: 0 <= i < |x| && out[j] == Contribution(names[i], Abs(x[i]), Some(x[i]), Some(0.0))
  {
    var out := TopContributionsOf(names, x, None, k);
    var b := BaselineOrZeros(x, None);
    TopContributionsFrom(names, x, None, k);
    forall j | 0 <= j < |out|
      ensures exists i :: 0 <= i < |x| && out[j] == Contribution(names[i], Abs(x[i]), Some(x[i]), Some(0.0))
    {
      var i :| 0 <= i < |x| && out[j] == Contribution(names[i], Abs(x[i] - b[i]), Some(x[i]), Some(b[i]));
      assert b[i] == 0.0 && x[i] - b[i] == x[i];
    }
  }

  /** No feature left out weighs more than a kept one. */
  lemma TopContributionsDominate(names: seq<string>, x: seq<real>, baseline: Option<seq<real>>, k: nat)
    requires |names| == |x|
    requires baseline.Some? ==> |baseline.value| == |x|
    ensures var out := TopContributionsOf(names, x, baseline, k);
            var b := BaselineOrZeros(x, baseline);
            forall i, j :: 0 <= i < |x| && 0 <= j < |out| && i !in TopIndices(Weights(x, b), k) ==>
              Abs(x[i] - b[i]) <= out[j].weight
  {
    var out := TopContributionsOf(names, x, baseline, k);
    var b := BaselineOrZeros(x, baseline);
    TopIndicesProps(Weights(x, b), k);
    forall i, j | 0 <= i < |x| && 0 <= j < |out| && i !in TopIndices(Weights(x, b), k)
      ensures Abs(x[i] - b[i]) <= out[j].weight
    {
      TopContributionAt(names, x, baseline, k, j);
    }
  }

  /** The j-th contribution is built from the j-th chosen index, a position of `x`. */
  lemma TopContributionAt(names: seq<string>, x: seq<real>, baseline: Option<seq<real>>, k: nat, j: nat)
    requires |names| == |x|
    requires baseline.Some? ==> |baseline.value| == |x|
    requires j < |TopContributionsOf(names, x, baseline, k)|
    ensures var b := BaselineOrZeros(x, baseline);
            var i := TopIndices(Weights(x, b), k)[j];
            0 <= i < |x| &&
            TopContributionsOf(names, x, baseline, k)[j] == Contribution(names[i], Abs(x[i] - b[i]), Some(x[i]), Some(b[i]))
  {
    var b := BaselineOrZeros(x, baseline);
    var w := Weights(x, b);
    TopIndicesProps(w, k);
    var i := TopIndices(w, k)[j];
    assert w[i] == Abs(x[i] - b[i]);
  }

  /** The reason each contribution's base feature maps to, if any, in contribution order. */
  function MappedReasons(contribs: seq<Contribution>): (rs: seq<ReasonCode>)
    ensures |rs| <= |contribs|
    ensures forall r :: r in rs ==> r in FraudReasons
  {
    if contribs == [] then []
    else
      var last := contribs[|contribs| - 1];
      var init := MappedReasons(contribs[..|contribs| - 1]);
      match FeatureToReason(BaseFeature(last.feature))
      case None => init
      case Some(r) => init + [r]
  }

  /** The evidence item for a mapped contribution. */
  function ContributionEvidence(c: Contribution, rawInput: map<string, Json>): (e: Evidence)
    ensures e.source == "fraud.explain" && e.threshold.None?
    ensures e.value.JObj? && e.value.fields.Keys == {"feature", "value", "weight"}
    ensures var f := BaseFeature(c.feature);
            f <= c.feature && '=' !in f && e.value.fields["feature"] == JStr(f) &&
            e.value.fields["value"] == Get(rawInput, f) && e.value.fields["weight"] == JNum(c.weight)
    ensures "baseline" in e.metadata && e.metadata["baseline"] == OptNum(c.baseline)
  {
    var bf := BaseFeature(c.feature);
    Evidence("fraud.explain", "Top contributing feature: " + bf,
             JObj(map["feature" := JStr(bf), "value" := Get(rawInput, bf), "weight" := JNum(c.weight)]),
             None,
             map["baseline" := OptNum(c.baseline), "model_explanation" := JStr("abs(x-baseline)")])
  }

  /** One evidence item per mapped contribution, in contribution order. */
  function MappedEvidence(contribs: seq<Contribution>, rawInput: map<string, Json>): (ev: seq<Evidence>)
    ensures |ev| == |MappedReasons(contribs)|
    ensures forall e :: e in ev ==> e.source == "fraud.explain" && e.threshold.None?
  {
    if contribs == [] then []
    else
      var last := contribs[|contribs| - 1];
      var init := MappedEvidence(contribs[..|contribs| - 1], rawInput);
      if FeatureToReason(BaseFeature(last.feature)).Some? then init + [ContributionEvidence(last, rawInput)]
      else init
  }

  /** `contributions_to_reasons_and_evidence`. */
  method ContributionsToReasonsAndEvidence(contribs: seq<Contribution>, rawInput: map<string, Json>)
      returns (dedup: seq<ReasonCode>, evidence: seq<Evidence>)
    ensures evidence == MappedEvidence(contribs, rawInput)
    ensures dedup == Dedup(MappedReasons(contribs))
  {
    var reasons: seq<ReasonCode> := [];
    evidence := [];
    var i := 0;
    while i < |contribs|
      invariant 0 <= i <= |contribs|
      invariant reasons == MappedReasons(contribs[..i])
      invariant evidence == MappedEvidence(contribs[..i], rawInput)
    {
      var c := contribs[i];
      assert contribs[..i + 1][..i] == contribs[..i];
      assert contribs[..i + 1][i] == c;
      var baseFeature := BaseFeature(c.feature);
      var reason := FeatureToReason(baseFeature);
      if reason.Some? {
        reasons := reasons + [reason.value];
        evidence := evidence + [ContributionEvidence(c, rawInput)];
      }
      i := i + 1;
    }
    assert contribs[..i] == contribs;
    dedup := DedupReasons(reasons);
  }

  /** The `seen`-set loop ending `contributions_to_reasons_and_evidence`: first occurrences, in order. */
  method DedupReasons(reasons: seq<ReasonCode>) returns (dedup: seq<ReasonCode>)
    ensures dedup == Dedup(reasons)
    ensures Distinct(dedup) && Elems(dedup) == Elems(reasons)
  {
    var seen: set<ReasonCode> := {};
    dedup := [];
    var j := 0;
    while j < |reasons|
      invariant 0 <= j <= |reasons|
      invariant seen == Elems(reasons[..j])
      invariant dedup == Dedup(reasons[..j])
    {
      var r := reasons[j];
      DedupStep(reasons, j);
      assert Elems(reasons[..j + 1]) == Elems(reasons[..j]) + {r} by {
        assert reasons[..j + 1] == reasons[..j] + [r];
      }
      if r !in seen {
        seen := seen + {r};
        dedup := dedup + [r];
      }
      j := j + 1;
    }
    assert reasons[..j] == reasons;
  }

  /** The i-th mapped reason and the i-th evidence item come from the same contribution:
      the evidence names a feature that maps to that reason. */
  lemma {:induction false} MappedPairs(contribs: seq<Contribution>, rawInput: map<string, Json>)
    ensures forall i :: 0 <= i < |MappedReasons(contribs)| ==>
              var e := MappedEvidence(contribs, rawInput)[i];
              e.value.JObj? && "feature" in e.value.fields && e.value.fields["feature"].JStr? &&
              FeatureToReason(e.value.fields["feature"].str) == Some(MappedReasons(contribs)[i])
  {
    if contribs != [] {
      MappedPairs(contribs[..|contribs| - 1], rawInput);
    }
  }

  /** `e` is attribution evidence naming a feature that maps to `r`. */
  predicate Backs(e: Evidence, r: ReasonCode) {
    e.source == "fraud.explain" && e.value.JObj? && "feature" in e.value.fields &&
    e.value.fields["feature"].JStr? && FeatureToReason(e.value.fields["feature"].str) == Some(r)
  }

  /** Every returned reason is backed by an evidence item whose feature maps to it; the
      reasons are duplicate-free, equal the mapped reasons as a set, and never outnumber
      the evidence items. */
  lemma ReasonsTraceToEvidence(contribs: seq<Contribution>, rawInput: map<string, Json>)
    ensures var rs := Dedup(MappedReasons(contribs));
            var ev := MappedEvidence(contribs, rawInput);
            Distinct(rs) && Elems(rs) == Elems(MappedReasons(contribs)) && |rs| <= |ev| &&
            forall r :: r in rs ==> exists e :: e in ev && Backs(e, r)
  {
    var mr := MappedReasons(contribs);
    var ev := MappedEvidence(contribs, rawInput);
    MappedPairs(contribs, rawInput);
    forall r | r in Dedup(mr)
      ensures exists e :: e in ev && Backs(e, r)
    {
      assert r in Elems(Dedup(mr));
      var i :| 0 <= i < |mr| && mr[i] == r;
      assert ev[i] in ev;
    }
  }
}
