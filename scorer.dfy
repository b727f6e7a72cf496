/** libs/risk/fraud/scorer.py: raw model output to a score in [0, 1], with optional
    calibration. The model and the calibrator are functions given with the bundle. */
module FraudScoring {
  import opened Wrappers
  import opened DecisionTypes
  import opened FraudVectorizer
  import opened FraudFeatures
  import opened Numbers

  /** The upper bound `_scale_to_unit` actually divides by: hi, or lo + 1e-6 when hi <= lo. */
  function EffectiveHi(lo: real, hi: real): (h: real)
    ensures h > lo
  {
    if hi > lo then hi else lo + 0.000001
  }

  /** `_scale_to_unit`. */
  function ScaleToUnit(x: real, lo: real, hi: real): (r: real)
    ensures 0.0 <= r <= 1.0
  {
    var h := EffectiveHi(lo, hi);
    if 1.0 < (x - lo) / (h - lo) then 1.0
    else if 0.0 > (x - lo) / (h - lo) then 0.0
    else (x - lo) / (h - lo)
  }

  /** At or below lo the result is 0, at or above an effective hi it is 1, and in between
      it is the linear position of x between lo and that hi. */
  lemma ScaleToUnitEnds(x: real, lo: real, hi: real)
    ensures x <= lo ==> ScaleToUnit(x, lo, hi) == 0.0
    ensures x >= EffectiveHi(lo, hi) ==> ScaleToUnit(x, lo, hi) == 1.0
    ensures hi > lo && x >= hi ==> ScaleToUnit(x, lo, hi) == 1.0
    ensures lo <= x <= EffectiveHi(lo, hi) ==>
              ScaleToUnit(x, lo, hi) * (EffectiveHi(lo, hi) - lo) == x - lo
  {
    var h := EffectiveHi(lo, hi);
    DivBounds(x - lo, h - lo);
  }

  lemma DivBounds(a: real, d: real)
    requires d > 0.0
    ensures (a / d) * d == a
    ensures a <= 0.0 ==> a / d <= 0.0
    ensures a >= d ==> a / d >= 1.0
    ensures 0.0 <= a <= d ==> 0.0 <= a / d <= 1.0
  {
    var q := a / d;
    assert q * d == a;
    if q > 0.0 {
      assert q * d > 0.0 * d;
    }
    if q < 0.0 {
      assert q * d < 0.0 * d;
    }
    if q > 1.0 {
      assert (q - 1.0) * d > 0.0 * d;
    }
    if q < 1.0 {
      assert (1.0 - q) * d > 0.0 * d;
    }
  }

  /** `_scale_to_unit` never decreases as x grows. */
  lemma ScaleToUnitMonotone(x1: real, x2: real, lo: real, hi: real)
    requires x1 <= x2
    ensures ScaleToUnit(x1, lo, hi) <= ScaleToUnit(x2, lo, hi)
  {
    var h := EffectiveHi(lo, hi);
    assert (x1 - lo) / (h - lo) <= (x2 - lo) / (h - lo);
  }

  /** With hi <= lo the scale is a step of width 1e-6 above lo. */
  lemma ScaleToUnitDegenerate(x: real, lo: real, hi: real)
    requires hi <= lo
    ensures x <= lo ==> ScaleToUnit(x, lo, hi) == 0.0
    ensures x >= lo + 0.000001 ==> ScaleToUnit(x, lo, hi) == 1.0
  {
    ScaleToUnitEnds(x, lo, hi);
  }

  /** The constructor's choice of scaling bounds from `metrics.json`'s calibration p01/p99:
      both must be numbers (a bool counts, as in Python), else 0.0 and 1.0 stay. */
  function ScalingBounds(p01: Json, p99: Json): (b: (real, real))
    ensures (NumericValue(p01).None? || NumericValue(p99).None?) ==> b == (0.0, 1.0)
    ensures NumericValue(p01).Some? && NumericValue(p99).Some? ==> b == (NumericValue(p01).value, NumericValue(p99).value)
  {
    match (NumericValue(p01), NumericValue(p99))
    case (Some(lo), Some(hi)) => (lo, hi)
    case _ => (0.0, 1.0)
  }

  /** A fitted calibrator (`CalibratorBundle`): Platt scaling returns the logistic model's
      probability as is, isotonic regression's prediction is clipped to [0, 1]. */
  datatype Calibrator = Platt(predictProba: real -> real) | Isotonic(predict: real -> real)

  function Calibrate(c: Calibrator, x: real): (r: real)
    ensures c.Isotonic? ==> 0.0 <= r <= 1.0
  {
    match c
    case Platt(p) => p(x)
    case Isotonic(p) => Clamp01(p(x))
  }

  datatype ModelRef = ModelRef(name: string, version: string)

  /** `FraudModelBundle`: the model appears through the two functions the scorer calls on
      the feature row, `predict_proba(X)[0][1]` and `score_samples(X)[0]`. */
  datatype ModelBundle = ModelBundle(
    ref: ModelRef,
    modelType: string,
    spec: VectorizerSpec,
    calibrator: Option<Calibrator>,
    predictProba: seq<real> -> real,
    scoreSamples: seq<real> -> real)

  /** `FraudScorer`: the bundle and the scaling bounds its constructor settled on. */
  datatype Scorer = Scorer(bundle: ModelBundle, lo: real, hi: real)

  /** `FraudScoreOutput`. */
  datatype FraudScoreOutput = FraudScoreOutput(score: real, rawScore: real, derived: FraudDerivedFeatures, modelType: string)

  predicate IsProbabilityModel(modelType: string) {
    modelType == "xgb" || modelType == "logreg" || modelType == "lgbm"
  }

  /** The raw score in [0, 1]: a clamped probability for classifier types, otherwise the
      negated isolation-forest score floored at 0 and scaled between lo and hi. */
  function Raw01(s: Scorer, x: seq<real>): (r: real)
    ensures 0.0 <= r <= 1.0
  {
    if IsProbabilityModel(s.bundle.modelType) then Clamp01(s.bundle.predictProba(x))
    else
      var baseRaw := if -s.bundle.scoreSamples(x) > 0.0 then -s.bundle.scoreSamples(x) else 0.0;
      ScaleToUnit(baseRaw, s.lo, s.hi)
  }

  /** `FraudScorer.score`. Errors: derived-feature validation, vectorisation, and the
      output's [0, 1] check on a Platt probability. */
  function Score(s: Scorer, raw: FraudFeatureVector): (r: Result<FraudScoreOutput, string>)
    ensures r.Ok? ==> 0.0 <= r.value.score <= 1.0 && 0.0 <= r.value.rawScore <= 1.0
    ensures r.Ok? ==> r.value.modelType == s.bundle.modelType
    ensures r.Ok? && s.bundle.calibrator.None? ==> r.value.score == r.value.rawScore
  {
    var derived := DeriveFeatures(raw);
    if derived.Err? then Err(derived.error)
    else
      var x := VectorizeSingle(Dump(raw), s.bundle.spec);
      if x.Err? then Err("vectorisation failed")
      else
        var raw01 := Raw01(s, x.value[0]);
        var score01 := if s.bundle.calibrator.Some? then Calibrate(s.bundle.calibrator.value, raw01) else raw01;
        if 0.0 <= score01 <= 1.0 then Ok(FraudScoreOutput(score01, raw01, derived.value, s.bundle.modelType))
        else Err("score must be in [0, 1]")
  }

  /** A schema-valid record under a spec that vectorises it scores without error unless a
      Platt calibrator returns a probability outside [0, 1]; the raw score follows the
      branch of the model type, and the score is the calibrated raw score. */
  lemma ScoreBranches(s: Scorer, raw: FraudFeatureVector)
    requires ValidFeatureVector(raw)
    requires VectorizeSingle(Dump(raw), s.bundle.spec).Ok?
    ensures var x := VectorizeSingle(Dump(raw), s.bundle.spec).value[0];
            var raw01 := Raw01(s, x);
            (s.bundle.calibrator.None? || s.bundle.calibrator.value.Isotonic? ==> Score(s, raw).Ok?) &&
            (Score(s, raw).Ok? ==>
              Score(s, raw).value.rawScore == raw01 &&
              Score(s, raw).value.score ==
                (if s.bundle.calibrator.Some? then Calibrate(s.bundle.calibrator.value, raw01) else raw01)) &&
            (IsProbabilityModel(s.bundle.modelType) && 0.0 <= s.bundle.predictProba(x) <= 1.0 ==>
              raw01 == s.bundle.predictProba(x))
  {
    DeriveFeaturesValid(raw);
    var v := VectorizeSingle(Dump(raw), s.bundle.spec);
    VectorizeSingleShape(Dump(raw), s.bundle.spec);
  }
}
