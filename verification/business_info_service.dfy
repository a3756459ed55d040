/**
 * The local part of business-registration checking: the hyphen-stripping
 * cleaners and the required-field check done before the registry is asked.
 */
module BusinessInfoService {
  import opened Wrappers
  import opened JsValues

  /**
   * What the checks throw.  `MissingFields` and `InvalidFormat` are the
   * errors raised with the message constants for those cases.
   */
  datatype ServiceError = TypeError | MissingFields | InvalidFormat

  /** `s.replace(/-/g, '')` */
  function RemoveHyphens(s: string): (r: string)
    ensures '-' !in r
    ensures |r| <= |s|
  {
    if s == [] then []
    else if s[0] == '-' then RemoveHyphens(s[1..]) else [s[0]] + RemoveHyphens(s[1..])
  }

  /** Removing hyphens keeps the order of the other characters: it distributes over concatenation. */
  lemma {:induction false} RemoveHyphensAppend(a: string, b: string)
    ensures RemoveHyphens(a + b) == RemoveHyphens(a) + RemoveHyphens(b)
  {
    if a != [] {
      assert (a + b)[1..] == a[1..] + b;
      RemoveHyphensAppend(a[1..], b);
    } else {
      assert a + b == b;
    }
  }

  /** A string without hyphens is left as it is. */
  lemma {:induction false} RemoveHyphensNoHyphen(s: string)
    requires '-' !in s
    ensures RemoveHyphens(s) == s
  {
    if s != [] {
      RemoveHyphensNoHyphen(s[1..]);
    }
  }

  /** A cleaner: hyphens stripped, then exactly `n` digits or an invalid-format error; a non-string cannot be cleaned. */
  function CleanDigits(v: JsValue, n: nat): (r: Result<string, ServiceError>)
    ensures !v.Str? ==> r == Err(TypeError)
    ensures v.Str? && DigitsOfLength(RemoveHyphens(v.s), n) ==> r == Ok(RemoveHyphens(v.s))
    ensures v.Str? && !DigitsOfLength(RemoveHyphens(v.s), n) ==> r == Err(InvalidFormat)
  {
    if !v.Str? then Err(TypeError)
    else
      var cleaned := RemoveHyphens(v.s);
      if DigitsOfLength(cleaned, n) then Ok(cleaned) else Err(InvalidFormat)
  }

  /** `cleanBusinessNumber`: the hyphen-free registration number, exactly ten digits. */
  function CleanBusinessNumber(businessNumber: JsValue): (r: Result<string, ServiceError>)
    ensures r.Ok? ==> DigitsOfLength(r.value, 10) && businessNumber.Str? && r.value == RemoveHyphens(businessNumber.s)
    ensures r.Err? <==> !businessNumber.Str? || !DigitsOfLength(RemoveHyphens(businessNumber.s), 10)
  {
    CleanDigits(businessNumber, 10)
  }

  /** `cleanOpenDate`: the hyphen-free opening date, exactly eight digits. */
  function CleanOpenDate(openDate: JsValue): (r: Result<string, ServiceError>)
    ensures r.Ok? ==> DigitsOfLength(r.value, 8) && openDate.Str? && r.value == RemoveHyphens(openDate.s)
    ensures r.Err? <==> !openDate.Str? || !DigitsOfLength(RemoveHyphens(openDate.s), 8)
  {
    CleanDigits(openDate, 8)
  }

  /** Cleaning is idempotent: a cleaned value cleans to itself. */
  lemma CleanersIdempotent(v: JsValue)
    ensures CleanBusinessNumber(v).Ok? ==> CleanBusinessNumber(Str(CleanBusinessNumber(v).value)) == CleanBusinessNumber(v)
    ensures CleanOpenDate(v).Ok? ==> CleanOpenDate(Str(CleanOpenDate(v).value)) == CleanOpenDate(v)
  {
    if v.Str? {
      RemoveHyphensNoHyphen(RemoveHyphens(v.s));
    }
  }

  /** A hyphen between two strings is dropped. */
  lemma RemoveHyphensAround(x: string, y: string)
    ensures RemoveHyphens(x + "-" + y) == RemoveHyphens(x) + RemoveHyphens(y)
  {
    assert RemoveHyphens("-") == "";
    RemoveHyphensAppend(x + "-", y);
    RemoveHyphensAppend(x, "-");
  }

  /** Hyphens between groups of digits are dropped and the groups joined. */
  lemma RemoveHyphensJoin(a: string, b: string, c: string)
    requires '-' !in a && '-' !in b && '-' !in c
    ensures RemoveHyphens(a + "-" + b + "-" + c) == a + b + c
  {
    RemoveHyphensNoHyphen(a);
    RemoveHyphensNoHyphen(b);
    RemoveHyphensNoHyphen(c);
    RemoveHyphensAround(a, b);
    RemoveHyphensAround(a + "-" + b, c);
  }

  lemma AllDigitsAppend(a: string, b: string)
    requires AllDigits(a) && AllDigits(b)
    ensures AllDigits(a + b)
  {
    assert forall i :: |a| <= i < |a + b| ==> (a + b)[i] == b[i - |a|];
  }

  /**
   * A registration number in its printed 3-2-5 form, "123-45-67890", cleans
   * to its ten digits.
   */
  lemma CleanGroupedBusinessNumber(a: string, b: string, c: string)
    requires |a| == 3 && |b| == 2 && |c| == 5
    requires AllDigits(a) && AllDigits(b) && AllDigits(c)
    ensures CleanBusinessNumber(Str(a + "-" + b + "-" + c)) == Ok(a + b + c)
  {
    assert '-' !in a && '-' !in b && '-' !in c by {
      assert !IsDigit('-');
    }
    RemoveHyphensJoin(a, b, c);
    AllDigitsAppend(a, b);
    AllDigitsAppend(a + b, c);
  }

  /** A missing digit, or a number that is not a string, is rejected. */
  lemma CleanBusinessNumberRejects(s: string, v: JsValue)
    requires '-' !in s && |s| == 9
    requires !v.Str?
    ensures CleanBusinessNumber(Str(s)) == Err(InvalidFormat)
    ensures CleanBusinessNumber(v) == Err(TypeError)
  {
    RemoveHyphensNoHyphen(s);
  }

  /** The request sent to the registry once the local checks pass. */
  datatype ValidationRequest = ValidationRequest(b_no: string, start_dt: string, p_nm: JsValue, b_nm: JsValue)

  /**
   * The part of `validateBusinessInfo` before the registry call: the opening
   * date must be a string and loses its hyphens; a falsy number or
   * representative, or an empty date, is a missing-fields error raised
   * before any cleaning; then the number and the date are cleaned.
   */
  function ValidateBusinessInfo(businessInfo: JsValue): (r: Result<ValidationRequest, ServiceError>)
    ensures businessInfo.Undefined? || businessInfo.Null? ==> r == Err(TypeError)
    ensures !businessInfo.Undefined? && !businessInfo.Null? && !Get(businessInfo, "openDate").Str? ==> r == Err(TypeError)
    ensures Get(businessInfo, "openDate").Str? &&
            (!Truthy(Get(businessInfo, "businessNumber")) || !Truthy(Get(businessInfo, "representativeName"))
             || RemoveHyphens(Get(businessInfo, "openDate").s) == "")
            ==> r == Err(MissingFields)
    ensures r.Ok? ==>
      && CleanBusinessNumber(Get(businessInfo, "businessNumber")) == Ok(r.value.b_no)
      && CleanOpenDate(Get(businessInfo, "openDate")) == Ok(r.value.start_dt)
      && DigitsOfLength(r.value.b_no, 10) && DigitsOfLength(r.value.start_dt, 8)
      && r.value.p_nm == Get(businessInfo, "representativeName") && Truthy(r.value.p_nm)
      && r.value.b_nm == Or(Get(businessInfo, "companyName"), Str(""))
    ensures Get(businessInfo, "openDate").Str? && Truthy(Get(businessInfo, "businessNumber"))
            && Truthy(Get(businessInfo, "representativeName")) && RemoveHyphens(Get(businessInfo, "openDate").s) != ""
            ==> && (CleanBusinessNumber(Get(businessInfo, "businessNumber")).Err?
                    ==> r == Err(CleanBusinessNumber(Get(businessInfo, "businessNumber")).error))
                && (CleanBusinessNumber(Get(businessInfo, "businessNumber")).Ok? && CleanOpenDate(Get(businessInfo, "openDate")).Err?
                    ==> r == Err(CleanOpenDate(Get(businessInfo, "openDate")).error))
                && (CleanBusinessNumber(Get(businessInfo, "businessNumber")).Ok? && CleanOpenDate(Get(businessInfo, "openDate")).Ok?
                    ==> r.Ok?)
  {
    if businessInfo.Undefined? || businessInfo.Null? then Err(TypeError)
    else
      var businessNumber := Get(businessInfo, "businessNumber");
      var representativeName := Get(businessInfo, "representativeName");
      var openDate := Get(businessInfo, "openDate");
      var companyName := Get(businessInfo, "companyName");
      if !openDate.Str? then Err(TypeError)
      else
        var strippedDate := RemoveHyphens(openDate.s);
        if !Truthy(businessNumber) || !Truthy(representativeName) || strippedDate == "" then Err(MissingFields)
        else match CleanBusinessNumber(businessNumber)
          case Err(e) => Err(e)
          case Ok(cleanNumber) =>
            RemoveHyphensNoHyphen(strippedDate);
            match CleanOpenDate(Str(strippedDate))
            case Err(e) => Err(e)
            case Ok(cleanDate) =>
              Ok(ValidationRequest(cleanNumber, cleanDate, representativeName, Or(companyName, Str(""))))
  }
}
