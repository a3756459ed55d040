/**
 * The ordered field checks on a business record given as the array
 * `[businessNumber, representativeName, openDate, companyName, ...]`.
 */
module Validators {
  import opened Wrappers
  import opened JsValues

  const BUSINESS_NUMBER_MESSAGE: string := "사업자등록번호는 10자리 숫자여야 합니다."
  const REPRESENTATIVE_NAME_MESSAGE: string := "대표자명은 2자 이상이어야 합니다."
  const COMPANY_NAME_MESSAGE: string := "회사명은 2자 이상이어야 합니다."
  const FAILURE_MESSAGE: string := "유효성 검사 중 오류가 발생했습니다."

  const REPRESENTATIVE_NAME_MIN_LENGTH: int := 2
  const COMPANY_NAME_MIN_LENGTH: int := 2

  datatype ValidationResult = Valid | Invalid(error: string)

  /** `/^\d{10}$/.test(v)`: the pattern is matched against `String(v)`. */
  predicate IsTenDigits(v: JsValue): (r: bool)
    ensures v.Str? ==> (r <==> |v.s| == 10 && AllDigits(v.s))
    ensures v.Undefined? || v.Null? || v.Bool? || v.Obj? ==> !r
  {
    DigitsOfLength(JsToString(v), 10)
  }

  /**
   * A number passes the pattern exactly when it is a whole number of ten
   * digits: its spelling has no sign and no leading zero.
   */
  lemma TenDigitNumbers(k: int)
    ensures IsTenDigits(Num(Finite(k))) <==> 1_000_000_000 <= k < 10_000_000_000
  {
    if k < 0 {
      assert !IsDigit(JsToString(Num(Finite(k)))[0]);
    } else {
      NatToDecimalLength(k, 9);
      NatToDecimalLength(k, 10);
    }
  }

  /**
   * `v.length < min`, or None where reading `length` throws (undefined and
   * null).  A value without a `length` property compares as NaN, which is
   * never less than anything.
   */
  function ShorterThan(v: JsValue, min: int): (r: Option<bool>)
    ensures r.None? <==> v.Undefined? || v.Null?
    ensures v.Str? ==> r == Some(|v.s| < min)
    ensures v.Num? || v.Bool? ==> r == Some(false)
  {
    match v
    case Undefined => None
    case Null => None
    case Str(s) => Some(|s| < min)
    case Arr(es) => Some(|es| < min)
    case Obj(_) =>
      (match NumberOf(Get(v, "length"))
       case Finite(k) => Some(k < min)
       case NegInfinity => Some(true)
       case _ => Some(false))
    case _ => Some(false)
  }

  /**
   * Array destructuring: an array gives its elements, a string its
   * characters; any other value is not iterable and throws.
   */
  function Destructure(input: JsValue): (r: Option<seq<JsValue>>)
    ensures r.Some? <==> input.Arr? || input.Str?
    ensures input.Arr? ==> r == Some(input.elems)
    ensures input.Str? ==> |r.value| == |input.s| && forall i :: 0 <= i < |input.s| ==> r.value[i] == Str([input.s[i]])
  {
    match input
    case Arr(es) => Some(es)
    case Str(s) => Some(seq(|s|, i requires 0 <= i < |s| => Str([s[i]])))
    case _ => None
  }

  /** The `i`-th destructured element, `undefined` past the end. */
  function Element(elems: seq<JsValue>, i: nat): JsValue {
    if i < |elems| then elems[i] else Undefined
  }

  /** The checks on the destructured elements; a thrown error is caught and reported with the generic message. */
  function CheckFields(businessNumber: JsValue, representativeName: JsValue, companyName: JsValue): (r: ValidationResult)
    ensures !IsTenDigits(businessNumber) ==> r == Invalid(BUSINESS_NUMBER_MESSAGE)
    ensures IsTenDigits(businessNumber) && ShorterThan(representativeName, REPRESENTATIVE_NAME_MIN_LENGTH).None?
            ==> r == Invalid(FAILURE_MESSAGE)
    ensures IsTenDigits(businessNumber) && ShorterThan(representativeName, REPRESENTATIVE_NAME_MIN_LENGTH) == Some(true)
            ==> r == Invalid(REPRESENTATIVE_NAME_MESSAGE)
    ensures IsTenDigits(businessNumber) && ShorterThan(representativeName, REPRESENTATIVE_NAME_MIN_LENGTH) == Some(false)
            && ShorterThan(companyName, COMPANY_NAME_MIN_LENGTH).None?
            ==> r == Invalid(FAILURE_MESSAGE)
    ensures IsTenDigits(businessNumber) && ShorterThan(representativeName, REPRESENTATIVE_NAME_MIN_LENGTH) == Some(false)
            && ShorterThan(companyName, COMPANY_NAME_MIN_LENGTH) == Some(true)
            ==> r == Invalid(COMPANY_NAME_MESSAGE)
    ensures r == Valid <==>
            IsTenDigits(businessNumber)
            && ShorterThan(representativeName, REPRESENTATIVE_NAME_MIN_LENGTH) == Some(false)
            && ShorterThan(companyName, COMPANY_NAME_MIN_LENGTH) == Some(false)
  {
    if !IsTenDigits(businessNumber) then Invalid(BUSINESS_NUMBER_MESSAGE)
    else match ShorterThan(representativeName, REPRESENTATIVE_NAME_MIN_LENGTH)
      case None => Invalid(FAILURE_MESSAGE)
      case Some(true) => Invalid(REPRESENTATIVE_NAME_MESSAGE)
      case Some(false) =>
        match ShorterThan(companyName, COMPANY_NAME_MIN_LENGTH)
        case None => Invalid(FAILURE_MESSAGE)
        case Some(true) => Invalid(COMPANY_NAME_MESSAGE)
        case Some(false) => Valid
  }

  /**
   * `validateBusinessInfo`: the number, then the representative, then the
   * company name are checked against the positions 0, 1 and 3; position 2
   * (the opening date) and everything after position 3 are never looked at.
   */
  function ValidateBusinessInfo(businessInfo: JsValue): (r: ValidationResult)
    ensures Destructure(businessInfo).None? ==> r == Invalid(FAILURE_MESSAGE)
    ensures Destructure(businessInfo).Some? ==>
      var e := Destructure(businessInfo).value;
      r == CheckFields(Element(e, 0), Element(e, 1), Element(e, 3))
  {
    match Destructure(businessInfo)
    case None => Invalid(FAILURE_MESSAGE)
    case Some(e) => CheckFields(Element(e, 0), Element(e, 1), Element(e, 3))
  }

  /** Records that agree on the number, the representative and the company name are judged alike. */
  lemma OnlyCheckedFieldsMatter(a: seq<JsValue>, b: seq<JsValue>)
    requires Element(a, 0) == Element(b, 0) && Element(a, 1) == Element(b, 1) && Element(a, 3) == Element(b, 3)
    ensures ValidateBusinessInfo(Arr(a)) == ValidateBusinessInfo(Arr(b))
  {
  }

  /** Only the first failing rule is reported: a bad number hides a bad representative and company name. */
  lemma FirstFailureWins(representativeName: JsValue, companyName: JsValue)
    ensures ValidateBusinessInfo(Arr([Str("123-45-6789"), representativeName, Str("20200101"), companyName]))
            == Invalid(BUSINESS_NUMBER_MESSAGE)
  {
    assert !IsDigit("123-45-6789"[3]);
  }

  /** A well-formed record passes, and a one-letter representative name is the first rule it then fails. */
  lemma ValidExample()
    ensures ValidateBusinessInfo(Arr([Str("1234567890"), Str("홍길동"), Undefined, Str("가나상사")])) == Valid
    ensures ValidateBusinessInfo(Arr([Str("1234567890"), Str("홍"), Undefined, Str("가")])) == Invalid(REPRESENTATIVE_NAME_MESSAGE)
    ensures ValidateBusinessInfo(Arr([Str("1234567890"), Str("홍길동")])) == Invalid(FAILURE_MESSAGE)
  {
  }
}
