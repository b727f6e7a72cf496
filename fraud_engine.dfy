/** libs/risk/fraud/engine.py: the fraud engine turns one transaction record into a
    signal: the scorer's score, and reasons with evidence from the top-3 attributed
    features of the record's vector. */
module FraudEngine {
  import opened Wrappers
  import opened Seqs
  import opened DecisionTypes
  import opened FraudVectorizer
  import opened FraudFeatures
  import opened FraudScoring
  import opened FraudExplain
  import opened Numbers

  /** `FraudSignals`. */
  datatype FraudSignals = FraudSignals(
    baseScore: real,
    reasons: seq<ReasonCode>,
    evidence: seq<Evidence>,
    provenance: Provenance,
    raw: FraudScoreOutput)

  /** The fields the orchestrator reads. */
  function AsSignal(f: FraudSignals): Signal {
    Signal(f.baseScore, f.reasons, f.evidence, f.provenance)
  }

  /** The number of attributed features the engine asks for. */
  const TopK: nat := 3

  /** The names of one categorical column's one-hot features, "c=cat" per category. */
  function OneHotNames(c: string, cats: seq<string>): (ns: seq<string>)
    ensures |ns| == |cats|
    ensures forall j :: 0 <= j < |cats| ==> ns[j] == c + "=" + cats[j]
  {
    seq(|cats|, j requires 0 <= j < |cats| => c + "=" + cats[j])
  }

  /** One block of one-hot names per categorical column, in column order. */
  function NameBlocks(cols: seq<string>, cats: map<string, seq<string>>): (bs: seq<seq<string>>)
    requires forall c :: c in cols ==> c in cats
    ensures |bs| == |cols|
    ensures forall b :: 0 <= b < |cols| ==> bs[b] == OneHotNames(cols[b], cats[cols[b]])
  {
    seq(|cols|, b requires 0 <= b < |cols| => OneHotNames(cols[b], cats[cols[b]]))
  }

  /** The feature names the engine builds: the numeric columns, then "c=cat" for every
      categorical column c and every category of c. */
  function FeatureNamesOf(spec: VectorizerSpec): seq<string>
    requires forall c :: c in spec.categoricalCols ==> c in spec.onehotCategories
  {
    spec.numericCols + Flatten(NameBlocks(spec.categoricalCols, spec.onehotCategories))
  }

  /** The feature-name loop of `detect`. A categorical column without a category list is
      the KeyError the source raises there. */
  method FeatureNames(spec: VectorizerSpec) returns (names: Option<seq<string>>)
    ensures names.None? <==> FirstUnlisted(spec.categoricalCols, spec.onehotCategories).Some?
    ensures names.Some? ==> names.value == FeatureNamesOf(spec)
  {
    var cols := spec.categoricalCols;
    var acc := spec.numericCols;
    var i := 0;
    while i < |cols|
      invariant 0 <= i <= |cols|
      invariant forall c :: c in cols[..i] ==> c in spec.onehotCategories
      invariant acc == spec.numericCols + Flatten(NameBlocks(cols[..i], spec.onehotCategories))
    {
      var c := cols[i];
      if c !in spec.onehotCategories {
        FirstUnlistedIsFirst(cols, spec.onehotCategories, i);
        return None;
      }
      FeatureNamesStep(spec, i, acc);
      acc := AppendOneHotNames(acc, c, spec.onehotCategories[c]);
      i := i + 1;
    }
    assert cols[..i] == cols;
    return Some(acc);
  }

  /** One turn of the feature-name loop keeps its invariant. */
  lemma FeatureNamesStep(spec: VectorizerSpec, i: nat, acc: seq<string>)
    requires i < |spec.categoricalCols| && spec.categoricalCols[i] in spec.onehotCategories
    requires forall c :: c in spec.categoricalCols[..i] ==> c in spec.onehotCategories
    requires acc == spec.numericCols + Flatten(NameBlocks(spec.categoricalCols[..i], spec.onehotCategories))
    ensures forall c :: c in spec.categoricalCols[..i + 1] ==> c in spec.onehotCategories
    ensures acc + OneHotNames(spec.categoricalCols[i], spec.onehotCategories[spec.categoricalCols[i]]) ==
            spec.numericCols + Flatten(NameBlocks(spec.categoricalCols[..i + 1], spec.onehotCategories))
  {
    var cols := spec.categoricalCols;
    assert cols[..i + 1] == cols[..i] + [cols[i]];
    NameBlocksStep(cols, spec.onehotCategories, i);
  }

  /** The inner loop of the feature-name loop: "c=cat" for each category, in order. */
  method AppendOneHotNames(acc: seq<string>, c: string, cats: seq<string>) returns (r: seq<string>)
    ensures r == acc + OneHotNames(c, cats)
  {
    r := acc;
    var j := 0;
    while j < |cats|
      invariant 0 <= j <= |cats|
      invariant r == acc + OneHotNames(c, cats[..j])
    {
      assert OneHotNames(c, cats[..j + 1]) == OneHotNames(c, cats[..j]) + [c + "=" + cats[j]];
      r := r + [c + "=" + cats[j]];
      j := j + 1;
    }
    assert cats[..j] == cats;
  }

  lemma NameBlocksStep(cols: seq<string>, cats: map<string, seq<string>>, i: nat)
    requires i < |cols|
    requires forall c :: c in cols[..i + 1] ==> c in cats
    ensures forall c :: c in cols[..i] ==> c in cats
    ensures Flatten(NameBlocks(cols[..i + 1], cats)) ==
            Flatten(NameBlocks(cols[..i], cats)) + OneHotNames(cols[i], cats[cols[i]])
  {
    assert cols[..i + 1] == cols[..i] + [cols[i]];
    var blocks := NameBlocks(cols[..i + 1], cats);
    assert blocks[..i] == NameBlocks(cols[..i], cats);
  }

  /** Feature names and vector entries line up: there are as many names as vector
      entries; name i < |numeric_cols| is numeric column i; and the name at the position
      of one-hot cell j of categorical column b is "c=cat" for that column and category. */
  lemma {:induction false} FeatureNamesLayout(spec: VectorizerSpec, b: nat, j: nat)
    requires forall c :: c in spec.categoricalCols ==> c in spec.onehotCategories
    requires b < |spec.categoricalCols|
    requires j < |spec.onehotCategories[spec.categoricalCols[b]]|
    ensures var names := FeatureNamesOf(spec);
            var p := |spec.numericCols| + SumLengths(CategoryLists(spec)[..b]) + j;
            |names| == |spec.numericCols| + SumLengths(CategoryLists(spec)) &&
            (forall i :: 0 <= i < |spec.numericCols| ==> names[i] == spec.numericCols[i]) &&
            p < |names| &&
            names[p] == spec.categoricalCols[b] + "=" + spec.onehotCategories[spec.categoricalCols[b]][j]
  {
    var blocks := NameBlocks(spec.categoricalCols, spec.onehotCategories);
    FeatureNamesLength(spec);
    FlattenAt(blocks, b, j);
    SumLengthsSameShape(blocks[..b], CategoryLists(spec)[..b]);
  }

  lemma FeatureNamesLength(spec: VectorizerSpec)
    requires forall c :: c in spec.categoricalCols ==> c in spec.onehotCategories
    ensures |FeatureNamesOf(spec)| == |spec.numericCols| + SumLengths(CategoryLists(spec))
  {
    var blocks := NameBlocks(spec.categoricalCols, spec.onehotCategories);
    FlattenLength(blocks);
    SumLengthsSameShape(blocks, CategoryLists(spec));
  }

  /** The name `detect` gives each entry of a record's vector describes that entry: numeric
      entry i holds the value of the column it is named after, and the entry named "c=cat"
      is the one-hot cell of column c for category cat. */
  lemma NamesDescribeVector(sample: map<string, Json>, spec: VectorizerSpec, b: nat, j: nat)
    requires VectorizeSingle(sample, spec).Ok?
    requires b < |spec.categoricalCols|
    requires spec.categoricalCols[b] in spec.onehotCategories
    requires j < |spec.onehotCategories[spec.categoricalCols[b]]|
    ensures forall c :: c in spec.categoricalCols ==> c in spec.onehotCategories
    ensures var x := VectorizeSingle(sample, spec).value[0];
            var names := FeatureNamesOf(spec);
            var c := spec.categoricalCols[b];
            var p := |spec.numericCols| + SumLengths(CategoryLists(spec)[..b]) + j;
            |names| == |x| &&
            (forall i :: 0 <= i < |spec.numericCols| ==>
               names[i] == spec.numericCols[i] && NumericValue(Get(sample, names[i])) == Some(x[i])) &&
            p < |x| && names[p] == c + "=" + spec.onehotCategories[c][j] &&
            x[p] == OneHotCell(Get(sample, c), spec.onehotCategories[c], j)
  {
    var frame := Frame(sample.Keys, [sample]);
    VectorLayout(frame, spec);
    VectorBlockAt(frame, spec, 0, b, j);
    FeatureNamesLayout(spec, b, j);
  }

  /** Under the default layout the engine names 15 features: 7 numeric, 3 currencies, 5 countries. */
  lemma DefaultFeatureNames()
    ensures forall c :: c in DefaultSpec.categoricalCols ==> c in DefaultSpec.onehotCategories
    ensures FeatureNamesOf(DefaultSpec) ==
      ["txn_amount", "txns_1h", "txns_24h", "avg_txn_amount_30d", "account_age_days",
       "device_change_7d", "failed_logins_24h",
       "txn_currency=GBP", "txn_currency=EUR", "txn_currency=USD",
       "txn_country=GB", "txn_country=IE", "txn_country=FR", "txn_country=DE", "txn_country=US"]
  {
    var cats := DefaultSpec.onehotCategories;
    var blocks := NameBlocks(DefaultSpec.categoricalCols, cats);
    var currency := ["txn_currency=GBP", "txn_currency=EUR", "txn_currency=USD"];
    var country := ["txn_country=GB", "txn_country=IE", "txn_country=FR", "txn_country=DE", "txn_country=US"];
    CurrencyNames();
    CountryNames();
    assert blocks == [currency, country];
    FlattenPair(currency, country);
  }

  lemma CurrencyNames()
    ensures OneHotNames("txn_currency", ["GBP", "EUR", "USD"]) ==
            ["txn_currency=GBP", "txn_currency=EUR", "txn_currency=USD"]
  {
    var ns := OneHotNames("txn_currency", ["GBP", "EUR", "USD"]);
    assert ns[0] == "txn_currency" + "=" + "GBP" == "txn_currency=GBP";
    assert ns[1] == "txn_currency" + "=" + "EUR" == "txn_currency=EUR";
    assert ns[2] == "txn_currency" + "=" + "USD" == "txn_currency=USD";
  }

  lemma CountryNames()
    ensures OneHotNames("txn_country", ["GB", "IE", "FR", "DE", "US"]) ==
            ["txn_country=GB", "txn_country=IE", "txn_country=FR", "txn_country=DE", "txn_country=US"]
  {
    var ns := OneHotNames("txn_country", ["GB", "IE", "FR", "DE", "US"]);
    assert ns[0] == "txn_country" + "=" + "GB" == "txn_country=GB";
    assert ns[1] == "txn_country" + "=" + "IE" == "txn_country=IE";
    assert ns[2] == "txn_country" + "=" + "FR" == "txn_country=FR";
    assert ns[3] == "txn_country" + "=" + "DE" == "txn_country=DE";
    assert ns[4] == "txn_country" + "=" + "US" == "txn_country=US";
  }

  /** The provenance of a fraud signal: the engine and the bundle's model, no prompt. */
  function FraudProvenance(s: Scorer): Provenance {
    Provenance("fraud_engine", Some(s.bundle.ref.name), Some(s.bundle.ref.version), None)
  }

  /** What `detect` returns. Its errors are those of the scorer (derived features,
      vectorisation, an out-of-range calibrated score) and of the second vectorisation
      of the same record. */
  function DetectOf(s: Scorer, raw: FraudFeatureVector): (r: Result<FraudSignals, string>)
    ensures r.Ok? ==> 0.0 <= r.value.baseScore <= 1.0
    ensures r.Ok? ==> Distinct(r.value.reasons) && r.value.provenance.engine == "fraud_engine"
  {
    var out := Score(s, raw);
    if out.Err? then Err(out.error)
    else
      var sample := Dump(raw);
      var x := VectorizeSingle(sample, s.bundle.spec);
      if x.Err? then Err("vectorisation failed")
      else
        VectorizeSingleShape(sample, s.bundle.spec);
        VectorLayout(Frame(sample.Keys, [sample]), s.bundle.spec);
        FeatureNamesLength(s.bundle.spec);
        var contribs := TopContributionsOf(FeatureNamesOf(s.bundle.spec), x.value[0], None, TopK);
        Ok(FraudSignals(out.value.score, Dedup(MappedReasons(contribs)), MappedEvidence(contribs, sample),
                        FraudProvenance(s), out.value))
  }

  /** `FraudEngine.detect`. */
  method Detect(s: Scorer, raw: FraudFeatureVector) returns (res: Result<FraudSignals, string>)
    ensures res == DetectOf(s, raw)
  {
    var out := Score(s, raw);
    if out.Err? {
      return Err(out.error);
    }
    var sample := Dump(raw);
    var x := VectorizeDataframe(Frame(sample.Keys, [sample]), s.bundle.spec);
    if x.Err? {
      return Err("vectorisation failed");
    }
    VectorizeSingleShape(sample, s.bundle.spec);
    VectorLayout(Frame(sample.Keys, [sample]), s.bundle.spec);
    FeatureNamesLength(s.bundle.spec);
    var names := FeatureNames(s.bundle.spec);
    var contribs := TopContributions(names.value, x.value[0], None, TopK);
    var reasons, evidence := ContributionsToReasonsAndEvidence(contribs, sample);
    return Ok(FraudSignals(out.value.score, reasons, evidence, FraudProvenance(s), out.value));
  }

  /** A fraud signal's score is the scorer's score, in [0, 1]; there are at most three
      evidence items and at most three reasons, drawn from the three fraud reasons,
      duplicate-free and each backed by an evidence item; the provenance names the engine
      and the bundle's model. */
  lemma DetectSignals(s: Scorer, raw: FraudFeatureVector)
    requires DetectOf(s, raw).Ok?
    ensures var f := DetectOf(s, raw).value;
            Score(s, raw).Ok? && f.baseScore == Score(s, raw).value.score && f.raw == Score(s, raw).value &&
            0.0 <= f.baseScore <= 1.0 &&
            |f.reasons| <= |f.evidence| <= TopK &&
            Distinct(f.reasons) &&
            (forall r :: r in f.reasons ==> r in FraudReasons && exists e :: e in f.evidence && Backs(e, r)) &&
            f.provenance == Provenance("fraud_engine", Some(s.bundle.ref.name), Some(s.bundle.ref.version), None)
  {
    var sample := Dump(raw);
    var x := VectorizeSingle(sample, s.bundle.spec);
    VectorizeSingleShape(sample, s.bundle.spec);
    VectorLayout(Frame(sample.Keys, [sample]), s.bundle.spec);
    FeatureNamesLength(s.bundle.spec);
    var contribs := TopContributionsOf(FeatureNamesOf(s.bundle.spec), x.value[0], None, TopK);
    ReasonsTraceToEvidence(contribs, sample);
    var f := DetectOf(s, raw).value;
    forall r | r in f.reasons ensures r in FraudReasons {
      assert r in Elems(f.reasons);
    }
  }

  /** A schema-valid record whose fields cover the bundle's layout is always detected,
      unless a Platt calibrator returns a probability outside [0, 1]. */
  lemma DetectDefined(s: Scorer, raw: FraudFeatureVector)
    requires ValidFeatureVector(raw)
    requires VectorizeSingle(Dump(raw), s.bundle.spec).Ok?
    requires s.bundle.calibrator.None? || s.bundle.calibrator.value.Isotonic?
    ensures DetectOf(s, raw).Ok?
  {
    ScoreBranches(s, raw);
  }

  /** The attribution sees the record's own vector: with no baseline every contribution's
      weight is the absolute value of its entry, and its feature is named by the layout. */
  lemma DetectAttribution(s: Scorer, raw: FraudFeatureVector)
    requires VectorizeSingle(Dump(raw), s.bundle.spec).Ok?
    ensures forall c :: c in s.bundle.spec.categoricalCols ==> c in s.bundle.spec.onehotCategories
    ensures var x := VectorizeSingle(Dump(raw), s.bundle.spec).value[0];
            var names := FeatureNamesOf(s.bundle.spec);
            |names| == |x| &&
            var contribs := TopContributionsOf(names, x, None, TopK);
            |contribs| == MinNat(TopK, |x|) &&
            forall j :: 0 <= j < |contribs| ==>
              exists i :: 0 <= i < |x| && contribs[j] == Contribution(names[i], Abs(x[i]), Some(x[i]), Some(0.0))
  {
    var sample := Dump(raw);
    VectorizeSingleShape(sample, s.bundle.spec);
    VectorLayout(Frame(sample.Keys, [sample]), s.bundle.spec);
    FeatureNamesLength(s.bundle.spec);
    var x := VectorizeSingle(sample, s.bundle.spec).value[0];
    var names := FeatureNamesOf(s.bundle.spec);
    TopContributionsNoBaseline(names, x, TopK);
  }
}
