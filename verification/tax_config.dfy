/**
 * The rate tables of the tax engine: the VAT rate, the income-tax tiers
 * resolved by the bracket resolver, the local surtax and tax-credit rates,
 * and the simplified-VAT rates per industry.
 */
module TaxConfig {

  /** A tier's inclusive upper bound on taxable income; the last tier's bound is `Infinity`. */
  datatype Bound = AtMost(limit: int) | Unbounded

  datatype Tier = Tier(max: Bound, rate: real)

  /** `income <= t.max` */
  predicate Within(income: int, b: Bound) {
    b.Unbounded? || income <= b.limit
  }

  const VAT: real := 0.1

  const INCOME_TAX_TIERS: seq<Tier> := [
    Tier(AtMost(12_000_000), 0.06),
    Tier(AtMost(46_000_000), 0.15),
    Tier(AtMost(88_000_000), 0.24),
    Tier(AtMost(150_000_000), 0.35),
    Tier(AtMost(300_000_000), 0.38),
    Tier(AtMost(500_000_000), 0.4),
    Tier(Unbounded, 0.42)
  ]

  const LOCAL_INCOME_TAX: real := 0.1
  const TAX_CREDIT: real := 0.55
  const SIMPLIFIED_VAT: real := 0.03

  const SIMPLIFIED_VAT_RATES: map<string, real> := map[
    "RETAIL" := 0.015,
    "FOOD_LODGING" := 0.03,
    "MANUFACTURING_CONSTRUCTION" := 0.025,
    "SERVICE" := 0.04
  ]

  const CORPORATION: string := "CORPORATION"
  const SOLE: string := "SOLE"

  /**
   * The shape the bracket resolver relies on: a non-empty table whose bounds
   * strictly ascend, whose last tier alone is unbounded, and whose rates
   * strictly increase and are fractions.
   */
  ghost predicate AscendingTiers(tiers: seq<Tier>) {
    && |tiers| > 0
    && tiers[|tiers| - 1].max.Unbounded?
    && (forall i :: 0 <= i < |tiers| - 1 ==> tiers[i].max.AtMost?)
    && (forall i, j :: 0 <= i < j < |tiers| - 1 ==> tiers[i].max.limit < tiers[j].max.limit)
    && (forall i, j :: 0 <= i < j < |tiers| ==> tiers[i].rate < tiers[j].rate)
    && (forall i :: 0 <= i < |tiers| ==> 0.0 <= tiers[i].rate <= 1.0)
  }

  lemma IncomeTaxTiersAscending()
    ensures AscendingTiers(INCOME_TAX_TIERS)
    ensures INCOME_TAX_TIERS[0].rate == 0.06
    ensures INCOME_TAX_TIERS[|INCOME_TAX_TIERS| - 1].rate == 0.42
  {
  }

  /** Every configured rate is a fraction of the amount it applies to. */
  lemma RatesAreFractions()
    ensures 0.0 <= VAT <= 1.0 && 0.0 <= SIMPLIFIED_VAT <= 1.0
    ensures 0.0 <= LOCAL_INCOME_TAX <= 1.0 && 0.0 <= TAX_CREDIT <= 1.0
    ensures forall k :: k in SIMPLIFIED_VAT_RATES ==> 0.0 <= SIMPLIFIED_VAT_RATES[k] <= 1.0
    ensures forall t :: t in INCOME_TAX_TIERS ==> 0.0 <= t.rate <= 1.0
    ensures LOCAL_INCOME_TAX == 0.1 && TAX_CREDIT == 0.55
  {
  }

  /** A simplified taxpayer's rate, whatever its industry, is below the standard VAT rate. */
  lemma SimplifiedRatesBelowStandard()
    ensures SIMPLIFIED_VAT < VAT
    ensures forall k :: k in SIMPLIFIED_VAT_RATES ==> SIMPLIFIED_VAT_RATES[k] < VAT
  {
  }
}
