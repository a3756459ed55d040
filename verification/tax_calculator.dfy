/**
 * The arithmetic kernels of the tax engine: the bracket resolver and the
 * VAT, income-tax and payroll (labor) calculations.
 *
 * Every `Math.floor` is an exact floor; `IsFloor` states what a floor is
 * without computing one, so the contracts below say what each figure is
 * rather than how it is obtained.
 */
module TaxCalculator {
  import opened Wrappers
  import opened TaxConfig
  import opened Records

  /** `n` is the floor of `x`. */
  predicate IsFloor(n: int, x: real) {
    n as real <= x < n as real + 1.0
  }

  lemma FloorIsUnique(n: int, m: int, x: real)
    requires IsFloor(n, x) && IsFloor(m, x)
    ensures n == m
  {
  }

  /** Flooring is monotone. */
  lemma FloorMonotone(x: real, y: real)
    requires x <= y
    ensures x.Floor <= y.Floor
  {
  }

  // ---------------------------------------------------------------------------
  // Bracket resolver

  /** The index of the first tier whose bound admits `income`, or `|tiers|` when none does. */
  function FirstTierFor(tiers: seq<Tier>, income: int): (i: nat)
    ensures i <= |tiers|
    ensures forall j :: 0 <= j < i ==> !Within(income, tiers[j].max)
    ensures i < |tiers| ==> Within(income, tiers[i].max)
  {
    if tiers == [] then 0
    else if Within(income, tiers[0].max) then 0
    else 1 + FirstTierFor(tiers[1..], income)
  }

  /**
   * `tiers.find(t => income <= t.max)`'s rate, or the last tier's rate when no
   * tier admits `income`.
   */
  function RateFor(tiers: seq<Tier>, income: int): (r: real)
    requires |tiers| > 0
    ensures exists k :: 0 <= k < |tiers| && tiers[k].rate == r
    ensures forall k :: 0 <= k < |tiers| && Within(income, tiers[k].max)
                        && (forall j :: 0 <= j < k ==> !Within(income, tiers[j].max))
                        ==> r == tiers[k].rate
    ensures (forall k :: 0 <= k < |tiers| ==> !Within(income, tiers[k].max)) ==> r == tiers[|tiers| - 1].rate
  {
    var i := FirstTierFor(tiers, income);
    if i < |tiers| then tiers[i].rate else tiers[|tiers| - 1].rate
  }

  /** `calculateTaxRate`: the marginal rate of the configured tier that `income` falls in. */
  function CalculateTaxRate(income: int): (r: real)
    ensures 0.06 <= r <= 0.42
  {
    IncomeTaxTiersAscending();
    RateFor(INCOME_TAX_TIERS, income)
  }

  /** On an ascending table a larger income never gets a smaller rate. */
  lemma {:induction false} RateForMonotone(tiers: seq<Tier>, a: int, b: int)
    requires AscendingTiers(tiers)
    requires a <= b
    ensures RateFor(tiers, a) <= RateFor(tiers, b)
  {
    var ia, ib := FirstTierFor(tiers, a), FirstTierFor(tiers, b);
    if ib < |tiers| {
      assert Within(a, tiers[ib].max);
      assert ia <= ib;
    }
    var last := |tiers| - 1;
    assert ia < |tiers| ==> ia == last || tiers[ia].rate < tiers[last].rate;
  }

  lemma CalculateTaxRateMonotone(a: int, b: int)
    requires a <= b
    ensures CalculateTaxRate(a) <= CalculateTaxRate(b)
  {
    IncomeTaxTiersAscending();
    RateForMonotone(INCOME_TAX_TIERS, a, b);
  }

  /** The configured schedule: bounds are inclusive, and any income at or below zero is in the first tier. */
  lemma CalculateTaxRateSchedule(income: int)
    ensures income <= 12_000_000 ==> CalculateTaxRate(income) == 0.06
    ensures 12_000_000 < income <= 46_000_000 ==> CalculateTaxRate(income) == 0.15
    ensures 46_000_000 < income <= 88_000_000 ==> CalculateTaxRate(income) == 0.24
    ensures 88_000_000 < income <= 150_000_000 ==> CalculateTaxRate(income) == 0.35
    ensures 150_000_000 < income <= 300_000_000 ==> CalculateTaxRate(income) == 0.38
    ensures 300_000_000 < income <= 500_000_000 ==> CalculateTaxRate(income) == 0.4
    ensures 500_000_000 < income ==> CalculateTaxRate(income) == 0.42
  {
    var t := INCOME_TAX_TIERS;
    if income <= 12_000_000 {
      assert Within(income, t[0].max);
    } else if income <= 46_000_000 {
      assert !Within(income, t[0].max) && Within(income, t[1].max);
    } else if income <= 88_000_000 {
      assert !Within(income, t[0].max) && !Within(income, t[1].max) && Within(income, t[2].max);
    } else if income <= 150_000_000 {
      assert forall j :: 0 <= j < 3 ==> !Within(income, t[j].max);
      assert Within(income, t[3].max);
    } else if income <= 300_000_000 {
      assert forall j :: 0 <= j < 4 ==> !Within(income, t[j].max);
      assert Within(income, t[4].max);
    } else if income <= 500_000_000 {
      assert forall j :: 0 <= j < 5 ==> !Within(income, t[j].max);
      assert Within(income, t[5].max);
    } else {
      assert forall j :: 0 <= j < 6 ==> !Within(income, t[j].max);
      assert Within(income, t[6].max);
    }
  }

  // ---------------------------------------------------------------------------
  // VAT

  datatype VatAmount = VatAmount(supplyAmount: int, outputTax: int, inputTax: int, vatAmount: int)

  /** The rate the VAT kernel applies: the caller's, or the standard rate when none is passed. */
  function VatRateOrDefault(taxRate: Option<real>): (r: real)
    ensures taxRate.None? ==> r == VAT
    ensures taxRate.Some? ==> r == taxRate.value
  {
    if taxRate.Some? then taxRate.value else VAT
  }

  /**
   * `calculateVATAmount`: the supply amount strips the 10% VAT contained in
   * the taxable sales, output tax is charged on it, input tax is credited on
   * purchases unless the taxpayer is simplified, and the net is their
   * difference (possibly negative, a refundable position).
   */
  function CalculateVatAmount(taxableSales: int, totalPurchases: int, isSimplified: bool, taxRate: Option<real>): (r: VatAmount)
    ensures 11 * r.supplyAmount <= 10 * taxableSales < 11 * r.supplyAmount + 11
    ensures IsFloor(r.outputTax, r.supplyAmount as real * VatRateOrDefault(taxRate))
    ensures isSimplified ==> r.inputTax == 0
    ensures !isSimplified ==> IsFloor(r.inputTax, totalPurchases as real * VatRateOrDefault(taxRate))
    ensures r.vatAmount == r.outputTax - r.inputTax
  {
    var rate := VatRateOrDefault(taxRate);
    var supplyAmount := (taxableSales as real / 1.1).Floor;
    var outputTax := (supplyAmount as real * rate).Floor;
    var inputTax := if isSimplified then 0 else (totalPurchases as real * rate).Floor;
    VatAmount(supplyAmount, outputTax, inputTax, outputTax - inputTax)
  }

  /** With non-negative sales and a fractional rate, 0 <= output tax <= supply amount <= taxable sales. */
  lemma VatAmountBounds(taxableSales: int, totalPurchases: int, isSimplified: bool, taxRate: real)
    requires taxableSales >= 0 && 0.0 <= taxRate <= 1.0
    ensures var r := CalculateVatAmount(taxableSales, totalPurchases, isSimplified, Some(taxRate));
      0 <= r.outputTax <= r.supplyAmount <= taxableSales
  {
    var r := CalculateVatAmount(taxableSales, totalPurchases, isSimplified, Some(taxRate));
    SupplyBetween(r.supplyAmount, taxableSales);
    assert VatRateOrDefault(Some(taxRate)) == taxRate;
    FractionFloorBetween(r.outputTax, r.supplyAmount, taxRate);
  }

  /** The supply amount of non-negative sales lies between 0 and the sales. */
  lemma SupplyBetween(supplyAmount: int, taxableSales: int)
    requires 0 <= taxableSales
    requires 11 * supplyAmount <= 10 * taxableSales < 11 * supplyAmount + 11
    ensures 0 <= supplyAmount <= taxableSales
  {
  }

  /** A fraction of a non-negative whole amount, floored, lies between 0 and that amount. */
  lemma FractionFloorBetween(n: int, s: int, rate: real)
    requires 0.0 <= rate <= 1.0 && 0 <= s
    requires IsFloor(n, s as real * rate)
    ensures 0 <= n <= s
  {
    MulBetween(s as real, rate);
  }

  lemma MulBetween(s: real, rate: real)
    requires 0.0 <= s && 0.0 <= rate <= 1.0
    ensures 0.0 <= s * rate <= s
  {
  }

  /** More taxable sales never lower the output tax or the net VAT. */
  lemma VatMonotoneInSales(a: int, b: int, totalPurchases: int, isSimplified: bool, taxRate: real)
    requires a <= b && 0.0 <= taxRate
    ensures var ra := CalculateVatAmount(a, totalPurchases, isSimplified, Some(taxRate));
            var rb := CalculateVatAmount(b, totalPurchases, isSimplified, Some(taxRate));
            ra.supplyAmount <= rb.supplyAmount && ra.outputTax <= rb.outputTax && ra.vatAmount <= rb.vatAmount
  {
    var ra := CalculateVatAmount(a, totalPurchases, isSimplified, Some(taxRate));
    var rb := CalculateVatAmount(b, totalPurchases, isSimplified, Some(taxRate));
    assert VatRateOrDefault(Some(taxRate)) == taxRate;
    FractionFloorMonotone(ra.outputTax, rb.outputTax, ra.supplyAmount, rb.supplyAmount, taxRate);
    if !isSimplified {
      FloorIsUnique(ra.inputTax, rb.inputTax, totalPurchases as real * taxRate);
    }
  }

  /** Floored non-negative fractions of ordered amounts are ordered. */
  lemma FractionFloorMonotone(n: int, m: int, s: int, t: int, rate: real)
    requires 0.0 <= rate && s <= t
    requires IsFloor(n, s as real * rate) && IsFloor(m, t as real * rate)
    ensures n <= m
  {
    MulMonotone(s as real, t as real, rate);
  }

  lemma MulMonotone(x: real, y: real, k: real)
    requires x <= y && 0.0 <= k
    ensures x * k <= y * k
  {
    assert y * k - x * k == (y - x) * k;
  }

  // ---------------------------------------------------------------------------
  // Income tax

  datatype IncomeTaxAmount = IncomeTaxAmount(
    taxableIncome: int, incomeTax: int, localIncomeTax: int, taxCredit: int, finalTax: int)

  /** The credit rate the income-tax kernel applies: the caller's, or the standard credit when none is passed. */
  function CreditRateOrDefault(taxCreditRate: Option<real>): (r: real)
    ensures taxCreditRate.None? ==> r == TAX_CREDIT
    ensures taxCreditRate.Some? ==> r == taxCreditRate.value
  {
    if taxCreditRate.Some? then taxCreditRate.value else TAX_CREDIT
  }

  /**
   * `calculateIncomeTaxAmount`: taxable income is income less deductions,
   * not clamped at zero; income tax is the rate applied to it; the local
   * surtax is 10% of the income tax and the credit a share of it.
   */
  function CalculateIncomeTaxAmount(totalIncome: int, totalDeductions: int, taxRate: real, taxCreditRate: Option<real>): (r: IncomeTaxAmount)
    ensures r.taxableIncome == totalIncome - totalDeductions
    ensures IsFloor(r.incomeTax, r.taxableIncome as real * taxRate)
    ensures IsFloor(r.localIncomeTax, r.incomeTax as real * LOCAL_INCOME_TAX)
    ensures IsFloor(r.taxCredit, r.incomeTax as real * CreditRateOrDefault(taxCreditRate))
    ensures r.finalTax == r.incomeTax + r.localIncomeTax - r.taxCredit
  {
    var taxableIncome := totalIncome - totalDeductions;
    var incomeTax := (taxableIncome as real * taxRate).Floor;
    var localIncomeTax := (incomeTax as real * LOCAL_INCOME_TAX).Floor;
    var taxCredit := (incomeTax as real * CreditRateOrDefault(taxCreditRate)).Floor;
    IncomeTaxAmount(taxableIncome, incomeTax, localIncomeTax, taxCredit, incomeTax + localIncomeTax - taxCredit)
  }

  /**
   * With the default credit, the final tax is 55% of the income tax to
   * within one won (110% surtaxed, less the 55% credit).
   */
  lemma FinalTaxIsFiftyFivePercent(totalIncome: int, totalDeductions: int, taxRate: real)
    ensures var r := CalculateIncomeTaxAmount(totalIncome, totalDeductions, taxRate, None);
      0.55 * r.incomeTax as real - 1.0 < r.finalTax as real < 0.55 * r.incomeTax as real + 1.0
  {
  }

  /** Non-negative taxable income at a fractional rate: 0 <= final tax <= income tax <= taxable income. */
  lemma FinalTaxBoundedByIncomeTax(totalIncome: int, totalDeductions: int, taxRate: real)
    requires totalIncome >= totalDeductions && 0.0 <= taxRate <= 1.0
    ensures var r := CalculateIncomeTaxAmount(totalIncome, totalDeductions, taxRate, None);
      0 <= r.finalTax <= r.incomeTax <= r.taxableIncome
  {
    var r := CalculateIncomeTaxAmount(totalIncome, totalDeductions, taxRate, None);
    FractionFloorBetween(r.incomeTax, r.taxableIncome, taxRate);
  }

  /**
   * Deductions above income are not clamped: the negative taxable income
   * yields a negative income tax and a final tax of at most zero.
   */
  lemma NegativeTaxableIncomePropagates(totalIncome: int, totalDeductions: int, taxRate: real)
    requires totalIncome < totalDeductions && 0.0 < taxRate
    ensures var r := CalculateIncomeTaxAmount(totalIncome, totalDeductions, taxRate, None);
      r.taxableIncome < 0 && r.incomeTax < 0 && r.finalTax <= 0
  {
    var r := CalculateIncomeTaxAmount(totalIncome, totalDeductions, taxRate, None);
    assert r.taxableIncome as real * taxRate < 0.0 by {
      MulNegative(r.taxableIncome as real, taxRate);
    }
  }

  lemma MulNegative(x: real, k: real)
    requires x < 0.0 && 0.0 < k
    ensures x * k < 0.0
  {
  }

  // ---------------------------------------------------------------------------
  // Labor (payroll) tax

  const NATIONAL_PENSION_RATE: real := 0.045
  const HEALTH_INSURANCE_RATE: real := 0.0343
  const LONG_TERM_CARE_RATE: real := 0.1227
  const EMPLOYMENT_INSURANCE_RATE: real := 0.008

  datatype AnnualLabor = AnnualLabor(
    salary: int, bonus: int, nonTaxable: int,
    taxableIncome: int, incomeTax: int, localIncomeTax: int)

  datatype MonthlyLabor = MonthlyLabor(
    nationalPension: int, healthInsurance: int, longTermCare: int, employmentInsurance: int,
    insurance: int, incomeTax: int, localIncomeTax: int, totalTax: int, netSalary: int)

  datatype LaborTaxAmount = LaborTaxAmount(annual: AnnualLabor, monthly: MonthlyLabor)

  /** The four statutory insurance contributions on a monthly salary, each floored on its own. */
  datatype Insurance = Insurance(nationalPension: int, healthInsurance: int, longTermCare: int, employmentInsurance: int)

  function InsuranceOn(monthlySalary: int): (r: Insurance)
    ensures IsFloor(r.nationalPension, monthlySalary as real * NATIONAL_PENSION_RATE)
    ensures IsFloor(r.healthInsurance, monthlySalary as real * HEALTH_INSURANCE_RATE)
    ensures IsFloor(r.longTermCare, monthlySalary as real * HEALTH_INSURANCE_RATE * LONG_TERM_CARE_RATE)
    ensures IsFloor(r.employmentInsurance, monthlySalary as real * EMPLOYMENT_INSURANCE_RATE)
  {
    Insurance(
      (monthlySalary as real * NATIONAL_PENSION_RATE).Floor,
      (monthlySalary as real * HEALTH_INSURANCE_RATE).Floor,
      (monthlySalary as real * HEALTH_INSURANCE_RATE * LONG_TERM_CARE_RATE).Floor,
      (monthlySalary as real * EMPLOYMENT_INSURANCE_RATE).Floor)
  }

  /** `monthly.insurance`: the four monthly contributions together. */
  function InsuranceTotal(i: Insurance): (r: int)
    ensures i.nationalPension >= 0 && i.healthInsurance >= 0 && i.longTermCare >= 0 && i.employmentInsurance >= 0
            ==> i.nationalPension <= r && i.healthInsurance <= r && i.longTermCare <= r && i.employmentInsurance <= r
  {
    i.nationalPension + i.healthInsurance + i.longTermCare + i.employmentInsurance
  }

  /** The four deduction lines the labor calculation reads. */
  const DEDUCTION_KEYS: set<string> := {"insurance", "medical", "education", "other"}

  /** `annualDeductions.total`: the caller's four deductions (missing ones as 0) and twelve months of insurance. */
  function AnnualDeductionTotal(monthlyInsurance: int, deductions: Fields): (r: int)
    ensures (forall i :: 0 <= i < |deductions| ==> deductions[i].0 !in DEDUCTION_KEYS) ==> r == monthlyInsurance * 12
    ensures (forall i :: 0 <= i < |deductions| ==> deductions[i].1 >= 0) ==> r >= monthlyInsurance * 12
  {
    FieldOrZero(deductions, "insurance") + FieldOrZero(deductions, "medical")
      + FieldOrZero(deductions, "education") + FieldOrZero(deductions, "other")
      + monthlyInsurance * 12
  }

  /** `Math.floor(annualTax / 12)`: the monthly share of an annual amount. */
  function MonthlyShare(annualTax: int): (m: int)
    ensures 12 * m <= annualTax < 12 * m + 12
  {
    annualTax / 12
  }

  /** The annual income tax and local surtax at the given rate; no credit is taken. */
  function AnnualTaxes(taxableIncome: int, taxRate: real): (r: (int, int))
    ensures IsFloor(r.0, taxableIncome as real * taxRate)
    ensures IsFloor(r.1, r.0 as real * LOCAL_INCOME_TAX)
  {
    var incomeTax := (taxableIncome as real * taxRate).Floor;
    (incomeTax, (incomeTax as real * LOCAL_INCOME_TAX).Floor)
  }

  /**
   * `calculateLaborTaxAmount`: monthly insurance from the salary; an annual
   * taxable income net of the allowance, the deductions and a year of
   * insurance; an annual income tax and surtax at the resolved rate, with no
   * tax credit; and the monthly withholding and net pay derived from them.
   * Absent bonus, allowance and deductions count as zero.
   */
  function CalculateLaborTaxAmount(monthlySalary: int, bonus: Option<int>, nonTaxableAllowance: Option<int>, deductions: Option<Fields>): (r: LaborTaxAmount)
    ensures r == LaborTax(monthlySalary,
                          if bonus.Some? then bonus.value else 0,
                          if nonTaxableAllowance.Some? then nonTaxableAllowance.value else 0,
                          if deductions.Some? then deductions.value else [])
    ensures r.annual.salary == 12 * monthlySalary
    ensures r.annual.bonus == (if bonus.Some? then bonus.value else 0)
    ensures r.annual.nonTaxable == 12 * (if nonTaxableAllowance.Some? then nonTaxableAllowance.value else 0)
    ensures deductions.None? ==> r.annual.taxableIncome == r.annual.salary + r.annual.bonus - r.annual.nonTaxable - 12 * r.monthly.insurance
  {
    LaborTax(monthlySalary,
             if bonus.Some? then bonus.value else 0,
             if nonTaxableAllowance.Some? then nonTaxableAllowance.value else 0,
             if deductions.Some? then deductions.value else [])
  }

  /** Omitted arguments behave exactly as a zero bonus, a zero allowance and an empty deduction record. */
  lemma LaborDefaults(monthlySalary: int)
    ensures CalculateLaborTaxAmount(monthlySalary, None, None, None)
         == CalculateLaborTaxAmount(monthlySalary, Some(0), Some(0), Some([]))
  {
  }

  /**
   * The annual block: taxable income is gross pay less the allowance and the
   * deduction total, taxed at its resolved rate exactly as the income-tax
   * kernel would, but with no credit step.
   */
  function AnnualFigures(salary: int, bonus: int, nonTaxable: int, deductionTotal: int): (r: AnnualLabor)
    ensures r.salary == salary && r.bonus == bonus && r.nonTaxable == nonTaxable
    ensures r.taxableIncome == salary + bonus - nonTaxable - deductionTotal
    ensures var k := CalculateIncomeTaxAmount(salary + bonus - nonTaxable, deductionTotal,
                                              CalculateTaxRate(r.taxableIncome), None);
      r.taxableIncome == k.taxableIncome && r.incomeTax == k.incomeTax && r.localIncomeTax == k.localIncomeTax
  {
    var taxableIncome := salary + bonus - nonTaxable - deductionTotal;
    var rate := CalculateTaxRate(taxableIncome);
    var taxes := AnnualTaxes(taxableIncome, rate);
    AnnualTaxesAgree(salary + bonus - nonTaxable, deductionTotal, rate);
    AnnualLabor(salary, bonus, nonTaxable, taxableIncome, taxes.0, taxes.1)
  }

  /** The labor calculation once the defaults are applied. */
  function LaborTax(monthlySalary: int, bonus: int, nonTaxableAllowance: int, deductions: Fields): (r: LaborTaxAmount)
    ensures var ins := InsuranceOn(monthlySalary);
      && r.monthly.nationalPension == ins.nationalPension
      && r.monthly.healthInsurance == ins.healthInsurance
      && r.monthly.longTermCare == ins.longTermCare
      && r.monthly.employmentInsurance == ins.employmentInsurance
      && r.monthly.insurance == InsuranceTotal(ins)
    ensures r.annual == AnnualFigures(12 * monthlySalary, bonus, 12 * nonTaxableAllowance,
                                      AnnualDeductionTotal(r.monthly.insurance, deductions))
    ensures 12 * r.monthly.incomeTax <= r.annual.incomeTax < 12 * r.monthly.incomeTax + 12
    ensures 12 * r.monthly.localIncomeTax <= r.annual.localIncomeTax < 12 * r.monthly.localIncomeTax + 12
    ensures r.monthly.totalTax == r.monthly.incomeTax + r.monthly.localIncomeTax + r.monthly.insurance
    ensures r.monthly.netSalary + r.monthly.totalTax == monthlySalary
  {
    var ins := InsuranceOn(monthlySalary);
    var insurance := InsuranceTotal(ins);
    var annual := AnnualFigures(monthlySalary * 12, bonus, nonTaxableAllowance * 12, AnnualDeductionTotal(insurance, deductions));
    var monthlyIncomeTax := MonthlyShare(annual.incomeTax);
    var monthlyLocalIncomeTax := MonthlyShare(annual.localIncomeTax);
    var totalTax := monthlyIncomeTax + monthlyLocalIncomeTax + insurance;
    LaborTaxAmount(
      annual,
      MonthlyLabor(ins.nationalPension, ins.healthInsurance, ins.longTermCare, ins.employmentInsurance,
                   insurance, monthlyIncomeTax, monthlyLocalIncomeTax, totalTax, monthlySalary - totalTax))
  }

  /** At any rate, the annual income tax and surtax are the kernel's on the same income and deductions. */
  lemma AnnualTaxesAgree(gross: int, deductionTotal: int, taxRate: real)
    ensures var k := CalculateIncomeTaxAmount(gross, deductionTotal, taxRate, None);
      AnnualTaxes(gross - deductionTotal, taxRate) == (k.incomeTax, k.localIncomeTax)
  {
    var k := CalculateIncomeTaxAmount(gross, deductionTotal, taxRate, None);
    var a := AnnualTaxes(gross - deductionTotal, taxRate);
    FloorIsUnique(a.0, k.incomeTax, (gross - deductionTotal) as real * taxRate);
    FloorIsUnique(a.1, k.localIncomeTax, k.incomeTax as real * LOCAL_INCOME_TAX);
  }

  /** A salary of 3,000,000 won: 135,000 + 102,900 + 12,625 + 24,000 = 274,525 won of insurance a month. */
  lemma LaborInsuranceExample()
    ensures var m := CalculateLaborTaxAmount(3_000_000, Some(0), Some(0), Some([])).monthly;
      m.nationalPension == 135_000 && m.healthInsurance == 102_900 && m.longTermCare == 12_625
      && m.employmentInsurance == 24_000 && m.insurance == 274_525
  {
  }

  /**
   * Long-term care is floored from salary x 3.43% x 12.27%, not from the
   * already floored health-insurance amount; at 3,000,041 won the two differ.
   */
  lemma LongTermCareFromSalary()
    ensures var m := CalculateLaborTaxAmount(3_000_041, None, None, None).monthly;
      m.healthInsurance == 102_901 && m.longTermCare == 12_626
      && (m.healthInsurance as real * LONG_TERM_CARE_RATE).Floor == 12_625
  {
  }

  /** The monthly insurance is 9.150861% of a non-negative salary, less at most four won of flooring. */
  lemma MonthlyInsuranceShare(monthlySalary: int)
    requires monthlySalary >= 0
    ensures var ins := InsuranceOn(monthlySalary);
      var exact := monthlySalary as real * 0.09150861;
      exact - 4.0 < InsuranceTotal(ins) as real <= exact
  {
  }
}
