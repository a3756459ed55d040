/**
 * The service layer: the calculations the handlers call, each assembling a
 * summary, a details section and an echo of the business record around the
 * kernels, plus the standalone progressive calculator with its own brackets.
 */
module TaxService {
  import opened Wrappers
  import opened JsValues
  import opened TaxConfig
  import opened Records
  import opened TaxCalculator

  // ---------------------------------------------------------------------------
  // Standalone progressive calculator (`calculateTax`)

  /**
   * The brackets written into `calculateTax` itself.  They are not the
   * configured INCOME_TAX_TIERS (the first bounds are 14 and 50 million
   * rather than 12 and 46 million, and there are eight tiers up to 45%).
   */
  const STANDALONE_TIERS: seq<Tier> := [
    Tier(AtMost(14_000_000), 0.06),
    Tier(AtMost(50_000_000), 0.15),
    Tier(AtMost(88_000_000), 0.24),
    Tier(AtMost(150_000_000), 0.35),
    Tier(AtMost(300_000_000), 0.38),
    Tier(AtMost(500_000_000), 0.40),
    Tier(AtMost(1_000_000_000), 0.42),
    Tier(Unbounded, 0.45)
  ]

  /** The eight-branch formula: a base amount for the lower tiers plus the marginal rate on the excess. */
  function StandaloneBracketTax(taxableIncome: int): (r: real)
    ensures taxableIncome >= 0 ==> 0.06 * taxableIncome as real <= r <= 0.45 * taxableIncome as real
    ensures taxableIncome <= 14_000_000 ==> r == 0.06 * taxableIncome as real
  {
    var x := taxableIncome as real;
    if taxableIncome <= 14_000_000 then x * 0.06
    else if taxableIncome <= 50_000_000 then 840_000.0 + (x - 14_000_000.0) * 0.15
    else if taxableIncome <= 88_000_000 then 6_240_000.0 + (x - 50_000_000.0) * 0.24
    else if taxableIncome <= 150_000_000 then 15_360_000.0 + (x - 88_000_000.0) * 0.35
    else if taxableIncome <= 300_000_000 then 37_060_000.0 + (x - 150_000_000.0) * 0.38
    else if taxableIncome <= 500_000_000 then 94_060_000.0 + (x - 300_000_000.0) * 0.40
    else if taxableIncome <= 1_000_000_000 then 174_060_000.0 + (x - 500_000_000.0) * 0.42
    else 384_060_000.0 + (x - 1_000_000_000.0) * 0.45
  }

  /** The part of `income` that lies in the tier running from `lower` (exclusive) to `max`. */
  function Slice(income: int, lower: int, max: Bound): int {
    if income <= lower then 0
    else if max.AtMost? && max.limit < income then max.limit - lower
    else income - lower
  }

  function NextLower(t: Tier, lower: int): int {
    if t.max.AtMost? then t.max.limit else lower
  }

  /** One tier's contribution: its rate on its slice. */
  function TierTax(t: Tier, lower: int, income: int): real {
    t.rate * Slice(income, lower, t.max) as real
  }

  /** Progressive tax by definition: every tier's rate on the slice of income inside that tier. */
  function MarginalTax(tiers: seq<Tier>, lower: int, income: int): real {
    if tiers == [] then 0.0
    else TierTax(tiers[0], lower, income) + MarginalTax(tiers[1..], NextLower(tiers[0], lower), income)
  }

  /** A table whose bounds ascend from `lower` and whose rates are not negative. */
  predicate AscendingFrom(tiers: seq<Tier>, lower: int) {
    tiers == [] ||
    (&& tiers[0].rate >= 0.0
     && (tiers[0].max.AtMost? ==> tiers[0].max.limit >= lower)
     && AscendingFrom(tiers[1..], NextLower(tiers[0], lower)))
  }

  lemma {:induction false} MarginalTaxMonotone(tiers: seq<Tier>, lower: int, a: int, b: int)
    requires AscendingFrom(tiers, lower) && a <= b
    ensures MarginalTax(tiers, lower, a) <= MarginalTax(tiers, lower, b)
  {
    if tiers != [] {
      var t, rest := tiers[0], tiers[1..];
      TierTaxMonotone(t, lower, a, b);
      MarginalTaxMonotone(rest, NextLower(t, lower), a, b);
    }
  }

  lemma TierTaxMonotone(t: Tier, lower: int, a: int, b: int)
    requires t.rate >= 0.0 && (t.max.AtMost? ==> t.max.limit >= lower)
    requires a <= b
    ensures TierTax(t, lower, a) <= TierTax(t, lower, b)
  {
    SliceMonotone(lower, t.max, a, b);
    TierPartMonotone(t.rate, Slice(a, lower, t.max), Slice(b, lower, t.max));
  }

  lemma SliceMonotone(lower: int, max: Bound, a: int, b: int)
    requires max.AtMost? ==> max.limit >= lower
    requires a <= b
    ensures Slice(a, lower, max) <= Slice(b, lower, max)
  {
  }

  lemma TierPartMonotone(rate: real, x: int, y: int)
    requires rate >= 0.0 && x <= y
    ensures rate * x as real <= rate * y as real
  {
    MulMonotone(x as real, y as real, rate);
  }

  lemma StandaloneTiersAscending()
    ensures AscendingFrom(STANDALONE_TIERS, 0)
  {
    var t := STANDALONE_TIERS;
    assert AscendingFrom(t[7..], 1_000_000_000) by { assert t[7..][1..] == []; }
    assert AscendingFrom(t[6..], 500_000_000) by { assert t[6..][1..] == t[7..]; }
    assert AscendingFrom(t[5..], 300_000_000) by { assert t[5..][1..] == t[6..]; }
    assert AscendingFrom(t[4..], 150_000_000) by { assert t[4..][1..] == t[5..]; }
    assert AscendingFrom(t[3..], 88_000_000) by { assert t[3..][1..] == t[4..]; }
    assert AscendingFrom(t[2..], 50_000_000) by { assert t[2..][1..] == t[3..]; }
    assert AscendingFrom(t[1..], 14_000_000) by { assert t[1..][1..] == t[2..]; }
  }

  /**
   * The branch formula is the progressive tax on the standalone table: each
   * base constant is exactly the tax accumulated below its bound, so the
   * branches join without a jump.
   */
  lemma StandaloneIsProgressive(x: int)
    requires x >= 0
    ensures StandaloneBracketTax(x) == MarginalTax(STANDALONE_TIERS, 0, x)
  {
    var t := STANDALONE_TIERS;
    var m7 := 0.45 * Slice(x, 1_000_000_000, Unbounded) as real;
    assert MarginalTax(t[7..], 1_000_000_000, x) == m7 by { assert t[7..][1..] == []; }
    var m6 := 0.42 * Slice(x, 500_000_000, AtMost(1_000_000_000)) as real + m7;
    assert MarginalTax(t[6..], 500_000_000, x) == m6 by { assert t[6..][1..] == t[7..]; }
    var m5 := 0.40 * Slice(x, 300_000_000, AtMost(500_000_000)) as real + m6;
    assert MarginalTax(t[5..], 300_000_000, x) == m5 by { assert t[5..][1..] == t[6..]; }
    var m4 := 0.38 * Slice(x, 150_000_000, AtMost(300_000_000)) as real + m5;
    assert MarginalTax(t[4..], 150_000_000, x) == m4 by { assert t[4..][1..] == t[5..]; }
    var m3 := 0.35 * Slice(x, 88_000_000, AtMost(150_000_000)) as real + m4;
    assert MarginalTax(t[3..], 88_000_000, x) == m3 by { assert t[3..][1..] == t[4..]; }
    var m2 := 0.24 * Slice(x, 50_000_000, AtMost(88_000_000)) as real + m3;
    assert MarginalTax(t[2..], 50_000_000, x) == m2 by { assert t[2..][1..] == t[3..]; }
    var m1 := 0.15 * Slice(x, 14_000_000, AtMost(50_000_000)) as real + m2;
    assert MarginalTax(t[1..], 14_000_000, x) == m1 by { assert t[1..][1..] == t[2..]; }
    assert MarginalTax(t, 0, x) == 0.06 * Slice(x, 0, AtMost(14_000_000)) as real + m1;
  }

  /** `Math.round`: the nearest whole number, halves rounded up. */
  function JsRound(x: real): (n: int)
    ensures n as real - 0.5 <= x < n as real + 0.5
  {
    (x + 0.5).Floor
  }

  /** `Object.values(deductions).reduce((sum, value) => sum + Number(value || 0), 0)`; an absent value is a falsy one. */
  function SumPresent(values: seq<Option<int>>): (r: int)
    ensures |values| == 1 && values[0].Some? ==> r == values[0].value
    ensures (forall i :: 0 <= i < |values| ==> values[i].None?) ==> r == 0
    ensures (forall i :: 0 <= i < |values| ==> values[i].None? || values[i].value >= 0) ==> r >= 0
  {
    if values == [] then 0
    else SumPresent(values[..|values| - 1]) + (if values[|values| - 1].Some? then values[|values| - 1].value else 0)
  }

  /** Splitting the deduction values into two groups does not change their total. */
  lemma {:induction false} SumPresentAppend(a: seq<Option<int>>, b: seq<Option<int>>)
    ensures SumPresent(a + b) == SumPresent(a) + SumPresent(b)
  {
    if b == [] {
      assert a + b == a;
    } else {
      assert (a + b)[..|a + b| - 1] == a + b[..|b| - 1];
      SumPresentAppend(a, b[..|b| - 1]);
    }
  }

  datatype StandaloneTaxResult = StandaloneTaxResult(income: int, totalDeductions: int, taxableIncome: int, tax: int)

  /**
   * `calculateTax`: deductions are summed, taxable income is clamped at
   * zero, and the progressive tax on the standalone brackets is rounded to
   * the nearest won.
   */
  function CalculateTax(income: int, deductions: seq<Option<int>>): (r: StandaloneTaxResult)
    ensures r.income == income && r.totalDeductions == SumPresent(deductions)
    ensures r.taxableIncome >= 0
    ensures r.taxableIncome == if income > r.totalDeductions then income - r.totalDeductions else 0
    ensures var exact := MarginalTax(STANDALONE_TIERS, 0, r.taxableIncome);
      r.tax as real - 0.5 <= exact < r.tax as real + 0.5
  {
    var totalDeductions := SumPresent(deductions);
    var taxableIncome := if income - totalDeductions > 0 then income - totalDeductions else 0;
    StandaloneIsProgressive(taxableIncome);
    StandaloneTaxResult(income, totalDeductions, taxableIncome, JsRound(StandaloneBracketTax(taxableIncome)))
  }

  /** More income never yields less standalone tax. */
  lemma CalculateTaxMonotone(a: int, b: int, deductions: seq<Option<int>>)
    requires a <= b
    ensures CalculateTax(a, deductions).tax <= CalculateTax(b, deductions).tax
  {
    var ra, rb := CalculateTax(a, deductions), CalculateTax(b, deductions);
    StandaloneTiersAscending();
    MarginalTaxMonotone(STANDALONE_TIERS, 0, ra.taxableIncome, rb.taxableIncome);
    StandaloneIsProgressive(ra.taxableIncome);
    StandaloneIsProgressive(rb.taxableIncome);
    FloorMonotone(StandaloneBracketTax(ra.taxableIncome) + 0.5, StandaloneBracketTax(rb.taxableIncome) + 0.5);
  }

  /** An income of 50,000,000 won without deductions: 840,000 + 36,000,000 x 15% = 6,240,000 won. */
  lemma CalculateTaxExample()
    ensures CalculateTax(50_000_000, []).tax == 6_240_000
  {
  }

  /** The two bracket tables disagree: at 13,000,000 won the configured rate is 15%, the standalone one 6%. */
  lemma BracketTablesDiffer()
    ensures CalculateTaxRate(13_000_000) == 0.15
    ensures RateFor(STANDALONE_TIERS, 13_000_000) == 0.06
  {
    CalculateTaxRateSchedule(13_000_000);
    assert Within(13_000_000, STANDALONE_TIERS[0].max);
  }

  // ---------------------------------------------------------------------------
  // Income tax (`calculateIncomeTax`)

  datatype IncomeSummary = IncomeSummary(
    totalIncome: int, totalDeductions: int, taxableIncome: int,
    taxRate: real,
    incomeTax: int, localIncomeTax: int, taxCredit: int, finalTax: int)

  datatype IncomeDetails = IncomeDetails(income: Fields, deductions: Fields)

  datatype IncomeTaxResult = IncomeTaxResult(summary: IncomeSummary, details: IncomeDetails, businessInfo: BusinessEcho)

  /**
   * `calculateIncomeTax`: the income and deduction lines are summed, the
   * bracket rate is resolved on their difference and applied by the
   * income-tax kernel with the default credit; the rate is reported as a
   * percentage, both inputs are echoed and the business record is cut down
   * to name, number and type.
   */
  function CalculateIncomeTax(incomeInfo: Fields, deductions: Fields, businessInfo: BusinessInfo): (r: IncomeTaxResult)
    ensures r.summary.totalIncome == Sum(incomeInfo) && r.summary.totalDeductions == Sum(deductions)
    ensures r.summary.taxableIncome == r.summary.totalIncome - r.summary.totalDeductions
    ensures r.summary.taxRate == 100.0 * CalculateTaxRate(r.summary.taxableIncome)
    ensures 6.0 <= r.summary.taxRate <= 42.0
    ensures var k := CalculateIncomeTaxAmount(r.summary.totalIncome, r.summary.totalDeductions,
                                              CalculateTaxRate(r.summary.taxableIncome), None);
      && r.summary.incomeTax == k.incomeTax && r.summary.localIncomeTax == k.localIncomeTax
      && r.summary.taxCredit == k.taxCredit && r.summary.finalTax == k.finalTax
    ensures r.details == IncomeDetails(incomeInfo, deductions)
    ensures r.businessInfo == BusinessEcho(businessInfo.companyName, businessInfo.businessNumber, businessInfo.taxType)
  {
    IncomeTaxResult(
      Summarize(Sum(incomeInfo), Sum(deductions)),
      IncomeDetails(incomeInfo, deductions),
      EchoOf(businessInfo))
  }

  /** The summary block: it depends on the two totals alone. */
  function Summarize(totalIncome: int, totalDeductions: int): (r: IncomeSummary)
    ensures r.totalIncome == totalIncome && r.totalDeductions == totalDeductions
    ensures r.taxableIncome == totalIncome - totalDeductions
    ensures r.taxRate == 100.0 * CalculateTaxRate(r.taxableIncome)
    ensures 6.0 <= r.taxRate <= 42.0
    ensures var k := CalculateIncomeTaxAmount(totalIncome, totalDeductions, CalculateTaxRate(r.taxableIncome), None);
      && r.incomeTax == k.incomeTax && r.localIncomeTax == k.localIncomeTax
      && r.taxCredit == k.taxCredit && r.finalTax == k.finalTax
  {
    var taxRate := CalculateTaxRate(totalIncome - totalDeductions);
    var k := CalculateIncomeTaxAmount(totalIncome, totalDeductions, taxRate, None);
    IncomeSummary(totalIncome, totalDeductions, k.taxableIncome, taxRate * 100.0,
                  k.incomeTax, k.localIncomeTax, k.taxCredit, k.finalTax)
  }

  /** Splitting the income lines into two groups does not change their total. */
  lemma {:induction false} SumAppend(a: Fields, b: Fields)
    ensures Sum(a + b) == Sum(a) + Sum(b)
  {
    if b != [] {
      var last := b[|b| - 1];
      assert (a + b)[..|a + b| - 1] == a + b[..|b| - 1];
      SumAppend(a, b[..|b| - 1]);
    } else {
      assert a + b == a;
    }
  }

  /** Income lines split across two records add up: the total income of the whole is the sum of the parts'. */
  lemma IncomeLinesAddUp(a: Fields, b: Fields, deductions: Fields, businessInfo: BusinessInfo)
    ensures CalculateIncomeTax(a + b, deductions, businessInfo).summary.totalIncome
            == CalculateIncomeTax(a, deductions, businessInfo).summary.totalIncome
               + CalculateIncomeTax(b, deductions, businessInfo).summary.totalIncome
  {
    SumAppend(a, b);
  }

  /** The refund path taxes a single line holding the total, which gives the same summary as the line items. */
  lemma RefundAgreesWithIncomeTax(incomeInfo: Fields, paidTax: int, deductions: Fields, businessInfo: BusinessInfo)
    ensures CalculateRefund(Sum(incomeInfo), paidTax, deductions, businessInfo).base.summary
            == CalculateIncomeTax(incomeInfo, deductions, businessInfo).summary
  {
    var total := Sum(incomeInfo);
    assert Sum([("total", total)]) == total by { assert [("total", total)][..0] == []; }
    assert CalculateIncomeTax([("total", total)], deductions, businessInfo).summary == Summarize(total, Sum(deductions));
  }

  /**
   * The resolved rate is charged on the whole taxable income, not tier by
   * tier, so the income tax jumps where a bound is crossed: one won above
   * 12,000,000 moves it from 720,000 to 1,800,000 won.  The standalone
   * calculator has no such jump.
   */
  lemma IncomeTaxJumpsAtBound(businessInfo: BusinessInfo)
    ensures CalculateIncomeTax([("total", 12_000_000)], [], businessInfo).summary.incomeTax == 720_000
    ensures CalculateIncomeTax([("total", 12_000_001)], [], businessInfo).summary.incomeTax == 1_800_000
  {
    var r1 := CalculateIncomeTax([("total", 12_000_000)], [], businessInfo);
    var r2 := CalculateIncomeTax([("total", 12_000_001)], [], businessInfo);
    assert Sum([("total", 12_000_000)]) == 12_000_000 by { assert [("total", 12_000_000)][..0] == []; }
    assert Sum([("total", 12_000_001)]) == 12_000_001 by { assert [("total", 12_000_001)][..0] == []; }
    CalculateTaxRateSchedule(12_000_000);
    CalculateTaxRateSchedule(12_000_001);
    assert IsFloor(r1.summary.incomeTax, 720_000.0);
    assert IsFloor(r2.summary.incomeTax, 1_800_000.15);
  }

  // ---------------------------------------------------------------------------
  // Refund (`calculateRefund`)

  datatype RefundStatus = Refund | Owe

  /** The income-tax result spread into the refund record, with the three refund fields added. */
  datatype RefundResult = RefundResult(base: IncomeTaxResult, paidTax: int, refundAmount: int, status: RefundStatus)

  /**
   * `calculateRefund`: the income tax on a single `total` income line, the
   * difference between the tax already paid and the final tax, and whether
   * that difference is owed back to the taxpayer.
   */
  function CalculateRefund(income: int, paidTax: int, deductions: Fields, businessInfo: BusinessInfo): (r: RefundResult)
    ensures r.base == CalculateIncomeTax([("total", income)], deductions, businessInfo)
    ensures r.base.summary.totalIncome == income
    ensures r.paidTax == paidTax
    ensures r.refundAmount + r.base.summary.finalTax == paidTax
    ensures r.status == Refund <==> paidTax >= r.base.summary.finalTax
  {
    var taxResult := CalculateIncomeTax([("total", income)], deductions, businessInfo);
    assert Sum([("total", income)]) == income by { assert [("total", income)][..0] == []; }
    var refundAmount := paidTax - taxResult.summary.finalTax;
    RefundResult(taxResult, paidTax, refundAmount, if refundAmount >= 0 then Refund else Owe)
  }

  /** Paying more never turns a refund into an amount owed. */
  lemma RefundMonotoneInPaidTax(income: int, p1: int, p2: int, deductions: Fields, businessInfo: BusinessInfo)
    requires p1 <= p2
    ensures CalculateRefund(income, p1, deductions, businessInfo).status == Refund
            ==> CalculateRefund(income, p2, deductions, businessInfo).status == Refund
    ensures CalculateRefund(income, p2, deductions, businessInfo).refundAmount
            - CalculateRefund(income, p1, deductions, businessInfo).refundAmount == p2 - p1
  {
  }

  // ---------------------------------------------------------------------------
  // Labor tax (`calculateLaborTax`)

  /**
   * `totalDeductions` is read from a field the labor kernel never sets, so it
   * is always absent (`undefined`).
   */
  datatype LaborSummary = LaborSummary(
    annualSalary: int, annualBonus: int, annualNonTaxable: int,
    totalDeductions: Option<int>,
    taxableIncome: int, incomeTax: int, localIncomeTax: int)

  datatype InsuranceDetails = InsuranceDetails(
    nationalPension: int, healthInsurance: int, longTermCare: int, employmentInsurance: int, total: int)

  /** The four caller deductions as reported; `total` is the same never-set field as in the summary. */
  datatype DeductionDetails = DeductionDetails(insurance: int, medical: int, education: int, other: int, total: Option<int>)

  datatype LaborDetails = LaborDetails(insurance: InsuranceDetails, deductions: DeductionDetails)

  datatype LaborResult = LaborResult(summary: LaborSummary, details: LaborDetails, monthly: MonthlyLabor, businessInfo: BusinessEcho)

  /**
   * `calculateLaborTax`: the labor kernel's annual figures as a summary, an
   * insurance breakdown recomputed from the salary, the caller's deductions,
   * the kernel's monthly figures unchanged and the restricted business echo.
   */
  function CalculateLaborTax(monthlySalary: int, bonus: Option<int>, nonTaxableAllowance: Option<int>,
                             deductions: Fields, businessInfo: BusinessInfo): (r: LaborResult)
    ensures var k := CalculateLaborTaxAmount(monthlySalary, bonus, nonTaxableAllowance, Some(deductions));
      && r.monthly == k.monthly
      && r.summary == LaborSummary(k.annual.salary, k.annual.bonus, k.annual.nonTaxable, None,
                                   k.annual.taxableIncome, k.annual.incomeTax, k.annual.localIncomeTax)
    ensures r.details.insurance == InsuranceDetails(
      r.monthly.nationalPension, r.monthly.healthInsurance, r.monthly.longTermCare,
      r.monthly.employmentInsurance, r.monthly.insurance)
    ensures r.details.deductions == DeductionDetails(
      FieldOrZero(deductions, "insurance"), FieldOrZero(deductions, "medical"),
      FieldOrZero(deductions, "education"), FieldOrZero(deductions, "other"), None)
    ensures r.businessInfo == BusinessEcho(businessInfo.companyName, businessInfo.businessNumber, businessInfo.taxType)
  {
    var taxResult := CalculateLaborTaxAmount(monthlySalary, bonus, nonTaxableAllowance, Some(deductions));
    var ins := InsuranceOn(monthlySalary);
    LaborResult(
      LaborSummary(taxResult.annual.salary, taxResult.annual.bonus, taxResult.annual.nonTaxable, None,
                   taxResult.annual.taxableIncome, taxResult.annual.incomeTax, taxResult.annual.localIncomeTax),
      LaborDetails(
        InsuranceDetails(ins.nationalPension, ins.healthInsurance, ins.longTermCare, ins.employmentInsurance,
                         taxResult.monthly.insurance),
        DeductionDetails(FieldOrZero(deductions, "insurance"), FieldOrZero(deductions, "medical"),
                         FieldOrZero(deductions, "education"), FieldOrZero(deductions, "other"), None)),
      taxResult.monthly,
      EchoOf(businessInfo))
  }

  /**
   * The deduction total the result leaves out can be rebuilt from what it
   * does report: the four caller deductions and twelve months of insurance,
   * which is exactly what separates the taxable income from the net pay base.
   */
  lemma LaborDeductionTotalRecoverable(monthlySalary: int, bonus: Option<int>, nonTaxableAllowance: Option<int>,
                                       deductions: Fields, businessInfo: BusinessInfo)
    ensures var r := CalculateLaborTax(monthlySalary, bonus, nonTaxableAllowance, deductions, businessInfo);
      var d := r.details.deductions;
      && r.summary.totalDeductions.None? && d.total.None?
      && r.summary.taxableIncome
         == r.summary.annualSalary + r.summary.annualBonus - r.summary.annualNonTaxable
            - (d.insurance + d.medical + d.education + d.other + 12 * r.details.insurance.total)
  {
  }

  // ---------------------------------------------------------------------------
  // VAT (`calculateVAT`)

  datatype SalesInfo = SalesInfo(totalSales: int, totalPurchases: int, nonTaxableSales: int)

  datatype VatSummary = VatSummary(
    totalSales: int, totalPurchases: int, taxableAmount: int,
    outputTax: int, inputTax: int, vatAmount: int,
    taxRate: real, industryRate: Option<real>)

  datatype VatDetails = VatDetails(taxableSales: int, nonTaxableSales: int, supplyAmount: int)

  datatype VatResult = VatResult(summary: VatSummary, details: VatDetails, businessInfo: BusinessInfo)

  /**
   * `SIMPLIFIED_VAT_RATES[industry] ?? SIMPLIFIED_VAT`: the industry is used
   * as a property key (so converted to a string) and an unknown industry
   * falls back to the generic simplified rate.
   */
  function IndustryRate(industry: JsValue): (r: real)
    ensures JsToString(industry) in SIMPLIFIED_VAT_RATES ==> r == SIMPLIFIED_VAT_RATES[JsToString(industry)]
    ensures JsToString(industry) !in SIMPLIFIED_VAT_RATES ==> r == SIMPLIFIED_VAT
  {
    var key := JsToString(industry);
    if key in SIMPLIFIED_VAT_RATES then SIMPLIFIED_VAT_RATES[key] else SIMPLIFIED_VAT
  }

  /** Standard VAT for a corporation; the industry rate for a simplified taxpayer of any other type; else standard VAT. */
  function VatRate(businessInfo: BusinessInfo): (r: real)
    ensures 0.0 < r <= VAT
    ensures businessInfo.taxType == Str(CORPORATION) || !businessInfo.isSimplified ==> r == VAT
    ensures businessInfo.taxType != Str(CORPORATION) && businessInfo.isSimplified ==> r == IndustryRate(businessInfo.industry)
  {
    SimplifiedRatesBelowStandard();
    if businessInfo.taxType == Str(CORPORATION) then VAT
    else if businessInfo.isSimplified then IndustryRate(businessInfo.industry)
    else VAT
  }

  /**
   * The selected rate never exceeds the standard rate, and it is below it
   * exactly when the taxpayer is simplified and not a corporation.
   */
  lemma VatRateSelection(businessInfo: BusinessInfo)
    ensures 0.0 < VatRate(businessInfo) <= VAT
    ensures VatRate(businessInfo) < VAT <==> businessInfo.taxType != Str(CORPORATION) && businessInfo.isSimplified
    ensures businessInfo.taxType != Str(CORPORATION) && businessInfo.isSimplified
            ==> VatRate(businessInfo) == IndustryRate(businessInfo.industry)
    ensures VatRate(businessInfo) == VAT || VatRate(businessInfo) == SIMPLIFIED_VAT
            || VatRate(businessInfo) in SIMPLIFIED_VAT_RATES.Values
  {
    SimplifiedRatesBelowStandard();
    if businessInfo.taxType != Str(CORPORATION) && businessInfo.isSimplified {
      var key := JsToString(businessInfo.industry);
      if key in SIMPLIFIED_VAT_RATES {
        assert SIMPLIFIED_VAT_RATES[key] in SIMPLIFIED_VAT_RATES.Values;
      }
    }
  }

  /**
   * `calculateVAT`: non-taxable sales are taken out of the base, the rate is
   * selected from the entity type, the simplified flag and the industry, and
   * the VAT kernel is run with the taxpayer's own simplified flag.
   */
  function CalculateVat(salesInfo: SalesInfo, businessInfo: BusinessInfo): (r: VatResult)
    ensures r.details.taxableSales == salesInfo.totalSales - salesInfo.nonTaxableSales
    ensures r.details.nonTaxableSales == salesInfo.nonTaxableSales
    ensures r.summary.totalSales == salesInfo.totalSales && r.summary.totalPurchases == salesInfo.totalPurchases
    ensures r.summary.taxRate == 100.0 * VatRate(businessInfo)
    ensures r.summary.industryRate == if businessInfo.isSimplified then Some(100.0 * IndustryRate(businessInfo.industry)) else None
    ensures r.summary.taxableAmount == r.details.supplyAmount
    ensures 11 * r.details.supplyAmount <= 10 * r.details.taxableSales < 11 * r.details.supplyAmount + 11
    ensures IsFloor(r.summary.outputTax, r.details.supplyAmount as real * VatRate(businessInfo))
    ensures businessInfo.isSimplified ==> r.summary.inputTax == 0
    ensures !businessInfo.isSimplified ==> IsFloor(r.summary.inputTax, salesInfo.totalPurchases as real * VatRate(businessInfo))
    ensures r.summary.vatAmount == r.summary.outputTax - r.summary.inputTax
    ensures r.businessInfo == businessInfo
  {
    var taxableSales := salesInfo.totalSales - salesInfo.nonTaxableSales;
    var industryRate := IndustryRate(businessInfo.industry);
    var taxRate := VatRate(businessInfo);
    var v := CalculateVatAmount(taxableSales, salesInfo.totalPurchases, businessInfo.isSimplified, Some(taxRate));
    VatResult(
      VatSummary(salesInfo.totalSales, salesInfo.totalPurchases, v.supplyAmount, v.outputTax, v.inputTax, v.vatAmount,
                 taxRate * 100.0, if businessInfo.isSimplified then Some(industryRate * 100.0) else None),
      VatDetails(taxableSales, salesInfo.nonTaxableSales, v.supplyAmount),
      businessInfo)
  }

  /**
   * A corporation flagged simplified pays output tax at the standard 10% but
   * still loses its input-tax credit, because the flag reaches the kernel
   * whatever the entity type.
   */
  lemma SimplifiedCorporationLosesInputTax(salesInfo: SalesInfo, businessInfo: BusinessInfo)
    requires businessInfo.taxType == Str(CORPORATION) && businessInfo.isSimplified
    ensures var r := CalculateVat(salesInfo, businessInfo);
      && r.summary.taxRate == 10.0
      && r.summary.inputTax == 0
      && r.summary.vatAmount == r.summary.outputTax
      && r.summary.industryRate.Some?
  {
  }

  /** A simplified sole proprietor in an industry missing from the table is charged the generic 3%. */
  /** A simplified taxpayer that is not a corporation is charged its own industry's rate from the table. */
  lemma ListedIndustryGetsItsRate(salesInfo: SalesInfo, businessInfo: BusinessInfo)
    requires businessInfo.taxType != Str(CORPORATION) && businessInfo.isSimplified
    requires JsToString(businessInfo.industry) in SIMPLIFIED_VAT_RATES
    ensures CalculateVat(salesInfo, businessInfo).summary.taxRate
            == 100.0 * SIMPLIFIED_VAT_RATES[JsToString(businessInfo.industry)]
  {
  }

  /** A simplified retail sole proprietor is charged 1.5%, not the generic 3%. */
  lemma RetailGetsOnePointFive(salesInfo: SalesInfo, businessInfo: BusinessInfo)
    requires businessInfo.taxType == Str(SOLE) && businessInfo.isSimplified && businessInfo.industry == Str("RETAIL")
    ensures CalculateVat(salesInfo, businessInfo).summary.taxRate == 1.5
  {
  }

  lemma UnknownIndustryGetsGenericRate(salesInfo: SalesInfo, businessInfo: BusinessInfo)
    requires businessInfo.taxType != Str(CORPORATION) && businessInfo.isSimplified
    requires JsToString(businessInfo.industry) !in SIMPLIFIED_VAT_RATES
    ensures CalculateVat(salesInfo, businessInfo).summary.taxRate == 3.0
  {
  }

  /**
   * Sales of 100,000,000 won, of which 5,000,000 are non-taxable, and
   * 60,000,000 won of purchases at the standard rate: a supply amount of
   * 86,363,636, output tax 8,636,363, input tax 6,000,000, VAT 2,636,363.
   */
  lemma VatExample(businessInfo: BusinessInfo)
    requires !businessInfo.isSimplified
    ensures var r := CalculateVat(SalesInfo(100_000_000, 60_000_000, 5_000_000), businessInfo);
      && r.details.taxableSales == 95_000_000
      && r.details.supplyAmount == 86_363_636
      && r.summary.outputTax == 8_636_363
      && r.summary.inputTax == 6_000_000
      && r.summary.vatAmount == 2_636_363
  {
    var r := CalculateVat(SalesInfo(100_000_000, 60_000_000, 5_000_000), businessInfo);
    assert VatRate(businessInfo) == VAT;
    FloorIsUnique(r.details.supplyAmount, 86_363_636, 95_000_000.0 / 1.1);
  }

  // ---------------------------------------------------------------------------
  // Corporate and sole-proprietor tax

  /** `corporateInfo` and `soleInfo`: labels attached to an unchanged income-tax result. */
  datatype CorporateInfo = CorporateInfo(taxType: string, isSimplified: bool)

  datatype SoleInfo = SoleInfo(taxType: string, isSimplified: bool, industry: JsValue)

  datatype CorporateTaxResult = CorporateTaxResult(base: IncomeTaxResult, corporateInfo: CorporateInfo)

  datatype SoleTaxResult = SoleTaxResult(base: IncomeTaxResult, soleInfo: SoleInfo)

  /** `calculateCorporateTax`: the individual income-tax result, tagged as a corporation that is never simplified. */
  function CalculateCorporateTax(incomeInfo: Fields, deductions: Fields, businessInfo: BusinessInfo): (r: CorporateTaxResult)
    ensures r.base == CalculateIncomeTax(incomeInfo, deductions, businessInfo)
    ensures r.corporateInfo == CorporateInfo(CORPORATION, false)
  {
    CorporateTaxResult(CalculateIncomeTax(incomeInfo, deductions, businessInfo), CorporateInfo(CORPORATION, false))
  }

  /** `calculateSoleTax`: the same income-tax result, tagged as a sole proprietor with the record's flag and industry. */
  function CalculateSoleTax(incomeInfo: Fields, deductions: Fields, businessInfo: BusinessInfo): (r: SoleTaxResult)
    ensures r.base == CalculateIncomeTax(incomeInfo, deductions, businessInfo)
    ensures r.soleInfo == SoleInfo(SOLE, businessInfo.isSimplified, businessInfo.industry)
  {
    SoleTaxResult(CalculateIncomeTax(incomeInfo, deductions, businessInfo),
                  SoleInfo(SOLE, businessInfo.isSimplified, businessInfo.industry))
  }

  /**
   * The entity type changes nothing in the figures: a corporation and a sole
   * proprietor with the same lines pay the same tax, whatever type the
   * business record itself carries.
   */
  lemma EntityTypeDoesNotChangeTax(incomeInfo: Fields, deductions: Fields, b1: BusinessInfo, b2: BusinessInfo)
    ensures CalculateCorporateTax(incomeInfo, deductions, b1).base.summary
            == CalculateSoleTax(incomeInfo, deductions, b2).base.summary
  {
  }
}
