/** libs/risk/fraud/schema.py and libs/risk/fraud/features.py: the fraud input record
    and the three derived features. */
module FraudFeatures {
  import opened Wrappers
  import opened DecisionTypes

  /** `FraudFeatureVector`, before validation. */
  datatype FraudFeatureVector = FraudFeatureVector(
    txnAmount: real,
    txnCurrency: string,
    txnCountry: string,
    txns1h: int,
    txns24h: int,
    avgTxnAmount30d: real,
    accountAgeDays: int,
    deviceChange7d: int,
    failedLogins24h: int)

  /** The schema's bounds: every amount and count is non-negative. */
  predicate ValidFeatureVector(v: FraudFeatureVector) {
    v.txnAmount >= 0.0 && v.txns1h >= 0 && v.txns24h >= 0 && v.avgTxnAmount30d >= 0.0 &&
    v.accountAgeDays >= 0 && v.deviceChange7d >= 0 && v.failedLogins24h >= 0
  }

  /** `model_dump()`: field name to value. */
  function Dump(v: FraudFeatureVector): (d: map<string, Json>)
    ensures d.Keys == {"txn_amount", "txn_currency", "txn_country", "txns_1h", "txns_24h",
                       "avg_txn_amount_30d", "account_age_days", "device_change_7d", "failed_logins_24h"}
    ensures d["txn_amount"] == JNum(v.txnAmount) && d["txn_currency"] == JStr(v.txnCurrency)
    ensures d["txn_country"] == JStr(v.txnCountry)
    ensures d["txns_1h"] == JInt(v.txns1h) && d["txns_24h"] == JInt(v.txns24h)
    ensures d["avg_txn_amount_30d"] == JNum(v.avgTxnAmount30d) && d["account_age_days"] == JInt(v.accountAgeDays)
    ensures d["device_change_7d"] == JInt(v.deviceChange7d) && d["failed_logins_24h"] == JInt(v.failedLogins24h)
  {
    map["txn_amount" := JNum(v.txnAmount), "txn_currency" := JStr(v.txnCurrency),
        "txn_country" := JStr(v.txnCountry), "txns_1h" := JInt(v.txns1h), "txns_24h" := JInt(v.txns24h),
        "avg_txn_amount_30d" := JNum(v.avgTxnAmount30d), "account_age_days" := JInt(v.accountAgeDays),
        "device_change_7d" := JInt(v.deviceChange7d), "failed_logins_24h" := JInt(v.failedLogins24h)]
  }

  /** `FraudDerivedFeatures`. */
  datatype FraudDerivedFeatures = FraudDerivedFeatures(velocity1h: real, velocity24h: real, amountRatio30d: real)

  /** The amount-ratio denominator: the 30-day average when positive, else 1.0. */
  function Denominator(avg: real): (d: real)
    ensures d > 0.0
    ensures avg > 0.0 ==> d == avg
    ensures avg <= 0.0 ==> d == 1.0
  {
    if avg > 0.0 then avg else 1.0
  }

  /** `derive_features`; Err is the validation error FraudDerivedFeatures raises on a
      negative output, which only an input outside the schema can cause. */
  function DeriveFeatures(raw: FraudFeatureVector): (r: Result<FraudDerivedFeatures, string>)
    ensures r.Ok? ==> r.value.velocity1h == raw.txns1h as real && r.value.velocity24h == raw.txns24h as real
    ensures r.Ok? ==> r.value.amountRatio30d * Denominator(raw.avgTxnAmount30d) == raw.txnAmount
    ensures r.Ok? <==> raw.txns1h >= 0 && raw.txns24h >= 0 && raw.txnAmount >= 0.0
  {
    var vel1h := raw.txns1h as real;
    var vel24h := raw.txns24h as real;
    var denom := Denominator(raw.avgTxnAmount30d);
    var ratio := raw.txnAmount / denom;
    DivSign(raw.txnAmount, denom);
    if vel1h >= 0.0 && vel24h >= 0.0 && ratio >= 0.0 then Ok(FraudDerivedFeatures(vel1h, vel24h, ratio))
    else Err("derived features must be non-negative")
  }

  lemma DivSign(a: real, d: real)
    requires d > 0.0
    ensures a / d >= 0.0 <==> a >= 0.0
    ensures (a / d) * d == a
  {
    if a >= 0.0 {
      assert a / d >= 0.0;
    } else {
      assert a / d < 0.0;
    }
  }

  /** A record that passed the schema always yields derived features, all non-negative,
      and a zero 30-day average leaves the amount itself as the ratio. */
  lemma DeriveFeaturesValid(raw: FraudFeatureVector)
    requires ValidFeatureVector(raw)
    ensures DeriveFeatures(raw).Ok?
    ensures var d := DeriveFeatures(raw).value;
            d.velocity1h >= 0.0 && d.velocity24h >= 0.0 && d.amountRatio30d >= 0.0
    ensures raw.avgTxnAmount30d == 0.0 ==> DeriveFeatures(raw).value.amountRatio30d == raw.txnAmount
  {
    DivSign(raw.txnAmount, Denominator(raw.avgTxnAmount30d));
  }
}
