# Korean tax calculator: a verified model of the calculation engine

This project models the core of a serverless Korean tax calculator. The
calculator turns figures for income, deductions, sales and salary, plus a
business record, into tax summaries. The model has seven parts.

- **Bracket resolver and arithmetic kernels** (`TaxCalculator`):
  - the first-matching-tier rate lookup;
  - the VAT kernel: supply amount, output tax, input tax and net VAT;
  - the income-tax kernel: taxable income, income tax, the 10% local surtax, the 55% credit and the final tax;
  - the payroll kernel: four statutory insurance contributions, annualised income tax, and the monthly withholding and net pay derived from them.
- **Rate tables** (`TaxConfig`):
  - the configured income-tax tiers;
  - the standard, local, credit and simplified-VAT rates;
  - the per-industry simplified rates and the two business types.
- **Service layer** (`TaxService`):
  - `calculateIncomeTax`, `calculateRefund`, `calculateLaborTax`, `calculateVAT`, `calculateCorporateTax` and `calculateSoleTax`;
  - the standalone progressive calculator `calculateTax`, which has its own bracket literals. Its table is kept apart from the configured one as `STANDALONE_TIERS`.
- **Handler helpers** (`HandlerUtils`): `toNumber`, the three normalisers, `parseJsonBody`, `ok` and `fail`.
- **Validation** (`Validators`): the ordered checks on a business record given as an array.
- **Registration pre-checks** (`BusinessInfoService`): the hyphen-stripping cleaners and the required-field check done before the registry is called.
- **Security middleware** (`Security`):
  - the role check;
  - the per-address sliding-window request limiter, a class whose method updates the table in place;
  - the recursive HTML-entity sanitiser.

Modelling choices:

- Amounts of money are `int`. Rates are exact `real` literals.
- JavaScript's `Math.floor` is `.Floor`, which also rounds toward minus infinity. It matters where taxable income goes negative.
- `Math.round` is `(x + 0.5).Floor`.
- JavaScript values that reach the helpers and the middleware are the datatype `JsValues.JsValue`. The language coercions the source relies on are written out: truthiness, `||`, `String(v)`, `Number(v)` and property access.

Where the code does something a reader might not expect, the model follows the code:

- **Long-term care** is floored from salary × 3.43% × 12.27%, not from the already floored health-insurance amount. At a salary of 3,000,041 won this gives 12,626 rather than 12,625 (`LongTermCareFromSalary`).
- **`calculateLaborTax`** reports `summary.totalDeductions` and `details.deductions.total` from a field the payroll kernel never sets. Both are therefore always absent (`None`).
- **A corporation flagged simplified** is charged output tax at 10% but still gets no input-tax credit, because the flag reaches the VAT kernel whatever the entity type.
- **The registration pre-check** throws its missing-field and bad-format errors with the message constants `ERROR_MESSAGES.MISSING_FIELDS` and `ERROR_MESSAGES.INVALID_FORMAT`. Neither key exists in `src/utils/error.js`, so both constants are `undefined`, and `new Error(undefined)` carries the empty message. The errors are modelled as the constructors `MissingFields` and `InvalidFormat`.

## Model

| member | source | states |
|---|---|---|
| TaxConfig.IncomeTaxTiersAscending | src/config/tax.js:3-11 | the configured tiers are non-empty; their bounds strictly ascend; only the last tier is unbounded; their rates strictly increase from 6% to 42% and are fractions |
| TaxConfig.RatesAreFractions | src/config/tax.js:1-22 | every configured rate lies in [0, 1]; the local surtax is 0.1 and the credit rate 0.55 |
| TaxConfig.SimplifiedRatesBelowStandard | src/config/tax.js:2-22 | the generic simplified rate and every industry rate are below the standard VAT rate |
| TaxCalculator.FirstTierFor | src/utils/taxCalculator.js:5 | the index `find` stops at: no earlier tier admits the income, and the tier at that index does, or it is past the end when none does |
| TaxCalculator.RateFor | src/utils/taxCalculator.js:3-7 | the rate is one of the table's rates; it is the rate of the first tier whose inclusive bound admits the income; when no tier does, it is the last tier's rate |
| TaxCalculator.CalculateTaxRate | src/utils/taxCalculator.js:3-7 | the resolved rate lies between 6% and 42% |
| TaxCalculator.RateForMonotone | src/utils/taxCalculator.js:3-7 | on an ascending table a larger income never resolves to a smaller rate |
| TaxCalculator.CalculateTaxRateMonotone | src/utils/taxCalculator.js:3-7 | the configured rate is monotone in income |
| TaxCalculator.CalculateTaxRateSchedule | src/config/tax.js:4-10 | the configured rate for each income interval, a bound itself belonging to the lower tier |
| TaxCalculator.CalculateVatAmount | src/utils/taxCalculator.js:10-27 | supply amount is floor(taxableSales / 1.1); output tax is floor(supply × rate), the rate defaulting to 10%; input tax is 0 when simplified, else floor(purchases × rate); VAT is output less input, possibly negative |
| TaxCalculator.VatRateOrDefault | src/utils/taxCalculator.js:14 | the default parameter: an omitted rate is the standard 10%; a passed rate, even 0, is used as given |
| TaxCalculator.VatAmountBounds | src/utils/taxCalculator.js:16-17 | for non-negative sales and a fractional rate, 0 ≤ output tax ≤ supply amount ≤ taxable sales |
| TaxCalculator.VatMonotoneInSales | src/utils/taxCalculator.js:16-19 | more taxable sales never lower the supply amount, the output tax or the net VAT |
| TaxCalculator.CalculateIncomeTaxAmount | src/utils/taxCalculator.js:30-49 | taxable income is income less deductions, not clamped; income tax is floor(taxable × rate); surtax is floor(tax × 10%); credit is floor(tax × credit rate), defaulting to 55%; final tax is tax + surtax − credit |
| TaxCalculator.CreditRateOrDefault | src/utils/taxCalculator.js:34 | the default parameter: an omitted credit rate is the standard 55%; a passed one is used as given |
| TaxCalculator.FinalTaxIsFiftyFivePercent | src/utils/taxCalculator.js:37-40 | with the default credit the final tax is 55% of the income tax to within one won |
| TaxCalculator.FinalTaxBoundedByIncomeTax | src/utils/taxCalculator.js:36-40 | for non-negative taxable income at a fractional rate, 0 ≤ final tax ≤ income tax ≤ taxable income |
| TaxCalculator.NegativeTaxableIncomePropagates | src/utils/taxCalculator.js:36-40 | deductions above income give a negative taxable income, a negative income tax and a final tax of at most zero |
| TaxCalculator.InsuranceOn | src/utils/taxCalculator.js:63-68 | each contribution is floored on its own: pension 4.5%, health 3.43%, long-term care salary × 3.43% × 12.27%, employment 0.8% |
| TaxCalculator.InsuranceTotal | src/utils/taxCalculator.js:70-71 | the monthly insurance is at least each of its four non-negative contributions |
| TaxCalculator.AnnualDeductionTotal | src/utils/taxCalculator.js:72-80 | a deduction record naming none of insurance, medical, education or other counts as 0, leaving 12 × monthly insurance; non-negative deductions never bring the total below 12 × monthly insurance |
| TaxCalculator.MonthlyShare | src/utils/taxCalculator.js:85-86 | the monthly share m of an annual amount a satisfies 12m ≤ a < 12m + 12 |
| TaxCalculator.AnnualTaxes | src/utils/taxCalculator.js:83-84 | the annual income tax is floor(taxable income × rate); the surtax is floor(tax × 10%) |
| TaxCalculator.AnnualFigures | src/utils/taxCalculator.js:81-84 | taxable income is salary + bonus − allowance − deduction total; income tax and surtax at the resolved rate equal the income-tax kernel's on the same base, without the credit step |
| TaxCalculator.CalculateLaborTaxAmount | src/utils/taxCalculator.js:52-57 | the annual salary is 12 × the monthly one; the annual bonus is the bonus or 0; the annual allowance is 12 × the allowance or 0; with no deduction record the taxable income is gross pay less the allowance and a year of insurance only |
| TaxCalculator.LaborDefaults | src/utils/taxCalculator.js:52-57 | omitted bonus, allowance and deductions give the same result as 0, 0 and `{}` |
| TaxCalculator.LaborTax | src/utils/taxCalculator.js:58-93 | the four contributions and their sum as the monthly insurance; the annual block on 12 × salary, the bonus and 12 × allowance against the four deductions plus 12 × insurance; monthly taxes as twelfths of the annual ones; total tax = the two monthly taxes + insurance; net pay = salary − total tax |
| TaxCalculator.AnnualTaxesAgree | src/utils/taxCalculator.js:83-84 | at any rate, the payroll's annual income tax and surtax equal the income-tax kernel's on the same income and deductions |
| TaxCalculator.LaborInsuranceExample | src/utils/taxCalculator.js:64-71 | a salary of 3,000,000 won gives 135,000 / 102,900 / 12,625 / 24,000, total 274,525 |
| TaxCalculator.LongTermCareFromSalary | src/utils/taxCalculator.js:66 | long-term care comes from the salary, not the floored health amount: 12,626 rather than 12,625 at 3,000,041 won |
| TaxCalculator.MonthlyInsuranceShare | src/utils/taxCalculator.js:64-71 | the monthly insurance is 9.150861% of a non-negative salary, less under four won of flooring |
| TaxService.StandaloneBracketTax | src/services/taxService.js:23-39 | for non-negative taxable income the tax lies between 6% and 45% of it; up to 14,000,000 won it is exactly 6% |
| TaxService.SumPresent | src/services/taxService.js:15-18 | a single present value sums to itself; absent values add nothing: with every value absent the total is 0, and with the present ones non-negative it is non-negative |
| TaxService.SumPresentAppend | src/services/taxService.js:15-18 | the total of two groups of deduction values is the sum of their totals; with the single-value case this fixes the total as the sum of the present values |
| TaxService.MarginalTaxMonotone | src/services/taxService.js:23-39 | on a table ascending from its lower bound with non-negative rates, progressive tax is monotone in income |
| TaxService.StandaloneTiersAscending | src/services/taxService.js:23-39 | the standalone table ascends from 0 and its rates are non-negative |
| TaxService.StandaloneIsProgressive | src/services/taxService.js:23-39 | the eight-branch formula equals the tax charged tier by tier (each rate on the slice of income inside its tier), so every base constant is the tax accumulated below its bound |
| TaxService.JsRound | src/services/taxService.js:46 | `Math.round` is the whole number within half a unit, halves rounding up |
| TaxService.CalculateTax | src/services/taxService.js:10-48 | total deductions sum every value, an absent or falsy one as 0; taxable income is max(0, income − deductions); the tax is within half a won of the progressive tax on the standalone table |
| TaxService.CalculateTaxMonotone | src/services/taxService.js:19-46 | more income never gives less standalone tax |
| TaxService.CalculateTaxExample | src/services/taxService.js:25-26 | 50,000,000 won without deductions is taxed 6,240,000 won |
| TaxService.BracketTablesDiffer | src/services/taxService.js:23-24 | the two tables disagree: at 13,000,000 won the configured rate is 15% and the standalone one 6% |
| TaxService.CalculateIncomeTax | src/services/taxService.js:128-166 | totals are the sums of all lines; the rate is resolved on their difference and reported × 100; the kernel's figures with the default credit; both inputs echoed unchanged; the business echo keeps only name, number and type |
| TaxService.Summarize | src/services/taxService.js:137-155 | the two totals echoed; taxable income is their difference; the rate resolved on it, between 6% and 42%, reported × 100; income tax, surtax, credit and final tax are the kernel's with the default credit |
| Records.Sum | src/services/taxService.js:135-136 | an empty record sums to 0; when every line is non-negative, each line lies between 0 and the total |
| Records.FieldOrZero | src/utils/taxCalculator.js:73-76 | a missing key reads as 0; otherwise the value of the first line holding the key; non-negative lines give a non-negative value |
| TaxService.SumAppend | src/services/taxService.js:135 | the sum of two groups of lines is the sum of their sums |
| TaxService.IncomeLinesAddUp | src/services/taxService.js:135 | the total income of joined line records is the sum of their totals |
| TaxService.IncomeTaxJumpsAtBound | src/services/taxService.js:137-143 | the resolved rate is charged on the whole taxable income: 720,000 won at 12,000,000 but 1,800,000 won at 12,000,001 |
| TaxService.CalculateRefund | src/services/taxService.js:52-73 | the income tax on the single line `total`; refund amount + final tax = paid tax; the status is refund iff the paid tax covers the final tax |
| TaxService.RefundAgreesWithIncomeTax | src/services/taxService.js:60-64 | the refund path gives the same summary as the income tax on the line items it totals |
| TaxService.RefundMonotoneInPaidTax | src/services/taxService.js:65-71 | paying more moves the refund amount by the same amount and never turns a refund into an amount owed |
| TaxService.CalculateLaborTax | src/services/taxService.js:76-125 | the payroll kernel's annual figures as summary; the total deductions absent; an insurance breakdown equal to the monthly contributions; the four caller deductions with missing ones as 0 and the total absent; monthly figures passed through; the restricted business echo |
| TaxService.LaborDeductionTotalRecoverable | src/services/taxService.js:92-118 | both deduction totals are absent, and the reported figures rebuild the missing total: taxable income = salary + bonus − allowance − (four deductions + 12 × insurance) |
| TaxService.IndustryRate | src/services/taxService.js:183 | the industry's simplified rate, or 3% when the industry (as a property key) is not in the table |
| TaxService.VatRate | src/services/taxService.js:183-187 | the chosen rate is positive and at most 10%; it is exactly 10% for a corporation or a taxpayer that is not simplified; a simplified taxpayer that is not a corporation pays its own industry's rate |
| TaxService.VatRateSelection | src/services/taxService.js:183-187 | the chosen rate is positive and at most 10%; it is below 10% exactly when the taxpayer is simplified and not a corporation, and then it is that taxpayer's industry rate; it is 10%, 3% or a table rate |
| TaxService.CalculateVat | src/services/taxService.js:169-220 | taxable sales = sales − non-taxable sales; the rate by entity type, flag and industry, reported × 100; the industry rate reported only when simplified; the kernel run with the record's own flag; the full business record echoed |
| TaxService.SimplifiedCorporationLosesInputTax | src/services/taxService.js:186-194 | a corporation flagged simplified pays at 10% but gets no input-tax credit, so VAT equals output tax |
| TaxService.ListedIndustryGetsItsRate | src/services/taxService.js:183-187 | a simplified taxpayer that is not a corporation, in an industry listed in the table, is charged that industry's rate |
| TaxService.RetailGetsOnePointFive | src/services/taxService.js:183-187 | a simplified retail sole proprietor is charged 1.5%, not the generic 3% |
| TaxService.UnknownIndustryGetsGenericRate | src/services/taxService.js:183-187 | a simplified sole proprietor in an industry missing from the table is charged 3% |
| TaxService.VatExample | src/services/taxService.js:181-194 | 100,000,000 won of sales, 5,000,000 of them non-taxable, and 60,000,000 of purchases at 10% give VAT of 2,636,363 won |
| TaxService.CalculateCorporateTax | src/services/taxService.js:223-242 | the income-tax result unchanged, tagged CORPORATION and not simplified |
| TaxService.CalculateSoleTax | src/services/taxService.js:245-265 | the income-tax result unchanged, tagged SOLE with the record's flag and industry |
| TaxService.EntityTypeDoesNotChangeTax | src/services/taxService.js:230-264 | corporate and sole-proprietor tax on the same lines have the same summary |
| HandlerUtils.ToNumber | src/handlers/utils.js:3-7 | undefined, null and '' are 0; a finite `Number(v)` is returned; NaN and the infinities become 0 |
| HandlerUtils.ToNumberReadsNumbers | src/handlers/utils.js:3-7 | a whole number, or its decimal spelling, comes back unchanged |
| HandlerUtils.ToNumberAbsorbsNonFinite | src/handlers/utils.js:5-6 | text that is not a number and the infinities become 0 |
| HandlerUtils.NormalizeFields | src/handlers/utils.js:9-24 | exactly the given keys in order, each holding `toNumber` of the input's property; a missing input is `{}`; null throws |
| HandlerUtils.NormalizeIncomeInfo | src/handlers/utils.js:9-15 | exactly the five income keys |
| HandlerUtils.NormalizeDeductions | src/handlers/utils.js:17-24 | exactly the six deduction keys |
| HandlerUtils.NormalizeFieldsIdempotent | src/handlers/utils.js:9-24 | normalising a normalised record returns it unchanged |
| HandlerUtils.NormalizersIdempotent | src/handlers/utils.js:9-24 | both amount normalisers are idempotent |
| HandlerUtils.NormalizeBusinessInfo | src/handlers/utils.js:26-32 | each falsy field takes its default ('Unknown', 'N/A', 'SOLE', 'RETAIL') and truthy ones are kept; `isSimplified` is the input's truthiness; null throws |
| HandlerUtils.NormalizeBusinessInfoIdempotent | src/handlers/utils.js:26-32 | a normalised business record normalises to itself |
| HandlerUtils.EmptyBusinessInfoDefaults | src/handlers/utils.js:26-32 | an empty request gets every default; the string 'false' counts as simplified |
| HandlerUtils.ParseJsonBody | src/handlers/utils.js:34-42 | no event or a falsy body gives `{}`; an object body is returned as is; otherwise the parse of the body's string, with `{}` when parsing fails |
| HandlerUtils.ParseJsonBodyFallsBackToEmpty | src/handlers/utils.js:35-40 | a missing, empty or unparsable body gives `{}` |
| HandlerUtils.Ok200 | src/handlers/utils.js:44-48 | status 200, a JSON content type, `success: true` and the data |
| HandlerUtils.ErrorMessage | src/handlers/utils.js:53 | the error's truthy message, else 'Internal error'; never falsy |
| HandlerUtils.Fail500 | src/handlers/utils.js:50-54 | status 500, a JSON content type, `success: false` and a non-empty error message |
| HandlerUtils.FailDefaultsMessage | src/handlers/utils.js:53 | no error, or an empty message, is reported as 'Internal error'; a message is passed through |
| Validators.IsTenDigits | src/utils/validators.js:13 | a string passes iff it is exactly ten decimal digits; undefined, null, booleans and objects never pass, since `String(v)` is not ten digits |
| Validators.TenDigitNumbers | src/utils/validators.js:13 | a number passes iff it lies in [1,000,000,000, 10,000,000,000): negatives have a sign and no spelling has a leading zero |
| Validators.Destructure | src/utils/validators.js:34 | destructuring succeeds exactly on arrays and strings: an array yields its elements, a string yields its characters as one-character strings |
| Validators.ShorterThan | src/utils/validators.js:45-53 | reading `length` of undefined or null throws; a string compares its length; numbers and booleans have no length and never count as short |
| Validators.CheckFields | src/utils/validators.js:36-66 | a number that is not ten digits gives the number message; then a short representative gives its message; then a short company name gives its message; a thrown read gives the generic message; the result is valid iff all three checks pass |
| Validators.ValidateBusinessInfo | src/utils/validators.js:31-67 | a value that cannot be destructured gives the generic message; otherwise only positions 0, 1 and 3 are checked |
| Validators.OnlyCheckedFieldsMatter | src/utils/validators.js:34 | records agreeing on number, representative and company name get the same verdict; the opening date and trailing fields are ignored |
| Validators.FirstFailureWins | src/utils/validators.js:37-42 | a hyphenated number is rejected with the number message whatever the other fields hold |
| Validators.ValidExample | src/utils/validators.js:37-66 | a well-formed record is valid; a one-letter representative gets its message; a missing company name gets the generic message |
| BusinessInfoService.RemoveHyphens | src/services/businessInfoService.js:42 | the result has no '-' and is no longer than the input |
| BusinessInfoService.RemoveHyphensAppend | src/services/businessInfoService.js:42 | removing hyphens distributes over concatenation, so the order of the other characters is kept |
| BusinessInfoService.RemoveHyphensNoHyphen | src/services/businessInfoService.js:42 | a string without hyphens is unchanged |
| BusinessInfoService.CleanDigits | src/services/businessInfoService.js:41-60 | a non-string throws a type error; the hyphen-free string is returned iff it is exactly n digits; otherwise it is a format error |
| BusinessInfoService.CleanBusinessNumber | src/services/businessInfoService.js:41-47 | success only on a string whose hyphen-free form is exactly ten digits, and that form is returned |
| BusinessInfoService.CleanOpenDate | src/services/businessInfoService.js:54-60 | success only on a string whose hyphen-free form is exactly eight digits, and that form is returned |
| BusinessInfoService.CleanersIdempotent | src/services/businessInfoService.js:41-60 | cleaning a cleaned value returns the same value |
| BusinessInfoService.RemoveHyphensJoin | src/services/businessInfoService.js:42 | hyphens between hyphen-free groups are dropped and the groups joined |
| BusinessInfoService.CleanGroupedBusinessNumber | src/services/businessInfoService.js:41-47 | a number printed in the 3-2-5 form cleans to its ten digits |
| BusinessInfoService.CleanBusinessNumberRejects | src/services/businessInfoService.js:41-47 | nine digits are a format error; a value that is not a string is a type error |
| BusinessInfoService.ValidateBusinessInfo | src/services/businessInfoService.js:133-158 | a non-string opening date throws first; a falsy number or representative, or an empty hyphen-free date, is a missing-fields error raised before any cleaning; past those checks the number's cleaning error, then the date's, is the result, and when both clean the request succeeds; on success the request carries the cleaned 10-digit number and 8-digit date, the representative, and the company name or '' |
| Security.CheckRole | src/middleware/security.js:23-35 | 401 iff there is no truthy user; 403 iff there is a user whose role is not among the roles; otherwise it passes |
| Security.CheckRoleRefusals | src/middleware/security.js:29-31 | an empty role list, or a user without a role, is refused with 403 |
| Security.Recent | src/middleware/security.js:49 | the filtered times are exactly the stored times less than 15 minutes old, each kept as many times as it was stored, and there are no more of them |
| Security.RecentIdempotent | src/middleware/security.js:49 | filtering twice at the same instant is filtering once |
| Security.RecentAppend | src/middleware/security.js:49 | the filter keeps order: filtering a concatenation is the concatenation of the filtered parts |
| Security.InWindow | src/middleware/security.js:49 | the loop over the stored times computes the window filter |
| Security.AppLocals.constructor | src/middleware/security.js:44-46 | the application starts without a rate-limit table; `RateLimiter` creates it on the first request |
| Security.AppLocals.RateLimiter | src/middleware/security.js:38-58 | with 100 or more recent times, reject with 429 and keep the table; otherwise store the recent times plus `now` and pass; other addresses untouched; no address ever holds more than 100 times |
| Security.ReplaceAll | src/middleware/security.js:69-74 | replacing a character by text that lacks it leaves none behind |
| Security.ReplaceAllKeepsOut | src/middleware/security.js:69-74 | a character in neither the input nor the replacement is not in the output |
| Security.ReplaceAllAppend | src/middleware/security.js:69-74 | replacement distributes over concatenation |
| Security.ReplaceAllAbsent | src/middleware/security.js:69-74 | a string without the character is unchanged |
| Security.EscapeChain | src/middleware/security.js:68-74 | the escaped string contains none of < > " ' / |
| Security.EscapeChainAppend | src/middleware/security.js:68-74 | the six-step chain distributes over concatenation |
| Security.EscapeChainChar | src/middleware/security.js:68-74 | one character through the chain becomes its entity exactly once |
| Security.Escape | src/middleware/security.js:68-74 | the one-pass escaping contains none of < > " ' / |
| Security.EscapeChainIsEscape | src/middleware/security.js:68-74 | since '&' is replaced first, the chain equals one-pass escaping: no inserted entity is escaped again |
| Security.AmpersandFirstMatters | src/middleware/security.js:69-70 | '<' becomes "&lt;", whereas with '&' handled last it would become "&amp;lt;" |
| Security.UnescapeEntity | src/middleware/security.js:69-74 | each inserted entity reads back as its character |
| Security.UnescapeChar | src/middleware/security.js:69-74 | every escaped character reads back as itself |
| Security.EscapeRoundTrip | src/middleware/security.js:68-74 | the escaping loses nothing: reading the entities back gives the original string |
| Security.Sanitize | src/middleware/security.js:62-82 | non-objects and null are returned unchanged; an array stays an array of the same length and an object keeps its keys, each member sanitised; every string nested inside is free of < > " ' / |
| Security.SanitizeMember | src/middleware/security.js:66-79 | a string member is escaped; an object, array or null member is sanitised; numbers, booleans and undefined are kept |
| Security.BareStringNotEscaped | src/middleware/security.js:63 | a body that is a bare string is not an object, so it passes through unescaped |
| Security.SanitizedMemberRoundTrip | src/middleware/security.js:65-74 | a string inside an object is escaped, safe and reads back to the original |

## Left out

- HTTP, Lambda and chatbot plumbing are not part of this model: controllers, routes, handlers other than the shared helpers, Kakao formatting, the front-end, persistence (MongoDB), `verifyToken` (JWT), `corsOptions` and the registry API call (`makeApiRequest`, `getBusinessInfo` and the part of `validateBusinessInfo` after the pre-checks).
- `async`/`await`: the services do no asynchronous work, so they are plain functions.
- Floating point: rates are exact rationals. Double rounding that differs at boundary values (`x / 1.1`, `0.0343 * 0.1227`) is not modelled.
- TaxService.CalculateTax: `effectiveTaxRate` (a `toFixed` string, NaN or Infinity at zero income) is not modelled.
- TaxService.CalculateTax: deductions given as a JSON string are not modelled, and deduction values are whole numbers or absent. A non-numeric value, which would make the tax NaN, is not modelled.
- HandlerUtils.ToNumber: `Number` reads optionally signed decimal integers, white space, the empty string and the Infinity spellings. Fractions, exponents, hex/octal/binary literals and numeric separators read as NaN, so as 0, because amounts are whole numbers here. White space is the ASCII set, NBSP, the line and paragraph separators and the BOM; the other Unicode space separators (U+1680, U+2000–U+200A, U+202F, U+205F, U+3000) are not trimmed, so text padded with them reads as 0.
- TaxService.CalculateIncomeTax: amounts are whole numbers. The string concatenation JavaScript would do on text amounts is not modelled, since the handlers normalise amounts first.
- TaxService.CalculateRefund: `paidTax` is a whole number. An absent `paidTax`, which gives NaN in the source, is not modelled.
- TaxService.CalculateLaborTax: the deduction record must be present. The source throws when it is missing.
- TaxService.CalculateIncomeTax, TaxService.CalculateVat and the other services: the business record is assumed present. The source throws a TypeError when it is missing.
- TaxService.IndustryRate: inherited property names ('constructor', 'toString', …) find `Object.prototype` members in the source rather than falling back to 3%. This is not modelled.
- HandlerUtils.ParseJsonBody: `JSON.parse` is the abstract, possibly failing parameter `jsonParse`.
- HandlerUtils.Ok200 and HandlerUtils.Fail500: `JSON.stringify` of the body is not modelled; the body is the payload value.
- Validators.ShorterThan: string length is counted in code points, not UTF-16 code units. A character outside the Basic Multilingual Plane counts once rather than twice.
- Validators.ShorterThan: an object's `length` is compared through `Number`. Comparison with a string that is not numeric is modelled as that number's NaN.
- BusinessInfoService.ValidateBusinessInfo: error messages are not modelled. The two message constants are `undefined` in the source, so the thrown errors carry an empty message.
- Records.Sum and Records.FieldOrZero: amount records are assumed to have distinct keys, as a JavaScript object does. A record with a repeated key is not rejected; `Sum` would count every line while `FieldOrZero` reads only the first.
- Security.CheckRole: roles are compared as strings. `includes` on non-string roles is not modelled.
- Security.Sanitize: objects are assumed to have distinct keys. Prototype-polluting keys such as `__proto__` and arrays with holes are not modelled.
- Security.AppLocals.RateLimiter: the client address and `Date.now()` are parameters. The error passed to `next` is its status only; its message text is not modelled.
- The unused configuration constants `TAX_SCHEDULES`, `TAX_CALCULATION` (deduction caps, reductions, options) and `TAX_TYPES` are not modelled; no calculator reads them.
