/** libs/risk/taxonomy/schema.py: the validated taxonomy records and
    `TaxonomyConfig.iter_reason_codes`. */
module Taxonomy {
  import opened Wrappers
  import opened Seqs

  datatype Thresholds = Thresholds(scoreHigh: real, scoreMedium: real)

  datatype CategoryConfig = CategoryConfig(
    labelText: string,
    severity: real,
    reasons: seq<string>,
    thresholds: Thresholds)

  /** `categories` is a dict: an ordered sequence of (key, config) with distinct keys. */
  datatype TaxonomyConfig = TaxonomyConfig(
    version: string,
    owner: string,
    description: Option<string>,
    categories: seq<(string, CategoryConfig)>)

  predicate InUnit(x: real) {
    0.0 <= x <= 1.0
  }

  predicate ValidThresholds(t: Thresholds) {
    InUnit(t.scoreHigh) && InUnit(t.scoreMedium)
  }

  predicate ValidCategory(c: CategoryConfig) {
    InUnit(c.severity) && ValidThresholds(c.thresholds)
  }

  ghost predicate DistinctKeys<V>(entries: seq<(string, V)>) {
    forall i, j :: 0 <= i < j < |entries| ==> entries[i].0 != entries[j].0
  }

  /** What a successfully validated taxonomy satisfies. */
  ghost predicate ValidTaxonomy(t: TaxonomyConfig) {
    DistinctKeys(t.categories) &&
    forall i :: 0 <= i < |t.categories| ==> ValidCategory(t.categories[i].1)
  }

  /** Loaded data before validation; None stands for a key absent from the document. */
  datatype RawThresholds = RawThresholds(scoreHigh: Option<real>, scoreMedium: Option<real>)

  datatype RawCategory = RawCategory(
    labelText: Option<string>,
    severity: Option<real>,
    reasons: Option<seq<string>>,
    thresholds: Option<RawThresholds>)

  datatype RawTaxonomy = RawTaxonomy(
    version: Option<string>,
    owner: Option<string>,
    description: Option<string>,
    categories: Option<seq<(string, RawCategory)>>)

  const ValidationError := "validation error"

  /** `CategoryThresholds.model_validate`: both scores required, each in [0, 1];
      no order between them is required. */
  function ValidateThresholds(raw: RawThresholds): (r: Result<Thresholds, string>)
    ensures r.Ok? <==> raw.scoreHigh.Some? && raw.scoreMedium.Some? &&
                       InUnit(raw.scoreHigh.value) && InUnit(raw.scoreMedium.value)
    ensures r.Ok? ==> r.value == Thresholds(raw.scoreHigh.value, raw.scoreMedium.value)
  {
    match (raw.scoreHigh, raw.scoreMedium)
    case (Some(hi), Some(med)) =>
      if InUnit(hi) && InUnit(med) then Ok(Thresholds(hi, med)) else Err(ValidationError)
    case _ => Err(ValidationError)
  }

  /** `CategoryConfig.model_validate` (`labelText` is the `label` field): label, severity in [0, 1] and thresholds required;
      reasons default to the empty list. */
  function ValidateCategory(raw: RawCategory): (r: Result<CategoryConfig, string>)
    ensures r.Ok? <==> raw.labelText.Some? && raw.severity.Some? && InUnit(raw.severity.value) &&
                       raw.thresholds.Some? && ValidateThresholds(raw.thresholds.value).Ok?
    ensures r.Ok? ==> ValidCategory(r.value)
    ensures r.Ok? ==> r.value.reasons == (if raw.reasons.Some? then raw.reasons.value else [])
  {
    if raw.labelText.None? || raw.severity.None? || !InUnit(raw.severity.value) || raw.thresholds.None? then
      Err(ValidationError)
    else
      match ValidateThresholds(raw.thresholds.value)
      case Err(e) => Err(e)
      case Ok(t) =>
        Ok(CategoryConfig(raw.labelText.value, raw.severity.value,
                          if raw.reasons.Some? then raw.reasons.value else [], t))
  }

  function ValidateCategories(raw: seq<(string, RawCategory)>): (r: Result<seq<(string, CategoryConfig)>, string>)
    ensures r.Ok? <==> forall i :: 0 <= i < |raw| ==> ValidateCategory(raw[i].1).Ok?
    ensures r.Ok? ==> |r.value| == |raw| &&
                      forall i :: 0 <= i < |raw| ==> r.value[i] == (raw[i].0, ValidateCategory(raw[i].1).value)
  {
    if raw == [] then Ok([])
    else
      match ValidateCategories(raw[..|raw| - 1])
      case Err(e) => Err(e)
      case Ok(init) =>
        match ValidateCategory(raw[|raw| - 1].1)
        case Err(e) => Err(e)
        case Ok(c) => Ok(init + [(raw[|raw| - 1].0, c)])
  }

  /** `TaxonomyConfig.model_validate` on a loaded mapping (whose keys are distinct):
      version and owner required, categories default to empty. */
  function ValidateTaxonomy(raw: RawTaxonomy): (r: Result<TaxonomyConfig, string>)
    requires raw.categories.Some? ==> DistinctKeys(raw.categories.value)
    ensures r.Ok? ==> ValidTaxonomy(r.value)
    ensures r.Ok? ==> raw.categories.None? ==> r.value.categories == []
    ensures r.Ok? <==> raw.version.Some? && raw.owner.Some? &&
                       (raw.categories.Some? ==> ValidateCategories(raw.categories.value).Ok?)
  {
    if raw.version.None? || raw.owner.None? then Err(ValidationError)
    else if raw.categories.None? then
      Ok(TaxonomyConfig(raw.version.value, raw.owner.value, raw.description, []))
    else
      match ValidateCategories(raw.categories.value)
      case Err(e) => Err(e)
      case Ok(cats) =>
        var t := TaxonomyConfig(raw.version.value, raw.owner.value, raw.description, cats);
        assert forall i :: 0 <= i < |cats| ==> cats[i].0 == raw.categories.value[i].0;
        Ok(t)
  }

  function ReasonLists(cats: seq<(string, CategoryConfig)>): (r: seq<seq<string>>)
    ensures |r| == |cats| && forall i :: 0 <= i < |cats| ==> r[i] == cats[i].1.reasons
  {
    seq(|cats|, i requires 0 <= i < |cats| => cats[i].1.reasons)
  }

  /** `iter_reason_codes`: every category's reasons, category by category. */
  function IterReasonCodes(t: TaxonomyConfig): seq<string> {
    Flatten(ReasonLists(t.categories))
  }

  /** A reason is yielded iff some category lists it. */
  lemma IterReasonCodesMember(t: TaxonomyConfig, r: string)
    ensures r in IterReasonCodes(t) <==>
            exists i :: 0 <= i < |t.categories| && r in t.categories[i].1.reasons
  {
    FlattenMember(ReasonLists(t.categories), r);
  }

  /** Duplicates across categories are kept: one item per listed reason. */
  lemma IterReasonCodesLength(t: TaxonomyConfig)
    ensures |IterReasonCodes(t)| == TotalReasons(t.categories)
  {
    FlattenLength(ReasonLists(t.categories));
    SumLengthsMatches(t.categories);
  }

  function TotalReasons(cats: seq<(string, CategoryConfig)>): nat {
    if cats == [] then 0 else TotalReasons(cats[..|cats| - 1]) + |cats[|cats| - 1].1.reasons|
  }

  lemma {:induction false} SumLengthsMatches(cats: seq<(string, CategoryConfig)>)
    ensures SumLengths(ReasonLists(cats)) == TotalReasons(cats)
  {
    if cats != [] {
      var init := cats[..|cats| - 1];
      SumLengthsMatches(init);
      assert ReasonLists(cats)[..|cats| - 1] == ReasonLists(init);
    }
  }

  /** Yielding is category by category: a category appended to the taxonomy
      contributes its reasons after all earlier ones. */
  lemma IterReasonCodesAppend(t: TaxonomyConfig, key: string, c: CategoryConfig)
    ensures IterReasonCodes(t.(categories := t.categories + [(key, c)])) == IterReasonCodes(t) + c.reasons
  {
    var lists := ReasonLists(t.categories + [(key, c)]);
    assert lists[..|lists| - 1] == ReasonLists(t.categories);
  }
}
