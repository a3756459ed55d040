/**
 * The request helpers the serverless handlers share: numeric coercion, the
 * record normalisers with their defaults, body parsing and the response
 * envelopes.
 */
module HandlerUtils {
  import opened Wrappers
  import opened JsValues
  import opened TaxConfig
  import opened Records

  /** What a normaliser throws: reading a property of `null`. */
  datatype Thrown = TypeError

  /**
   * `toNumber`: undefined, null and the empty string count as 0, a value
   * `Number` reads as finite is that number, and anything else
   * (NaN, the infinities) is 0, so the result is always finite.
   */
  function ToNumber(v: JsValue): (n: int)
    ensures v.Undefined? || v.Null? || v == Str("") ==> n == 0
    ensures NumberOf(v).Finite? ==> n == NumberOf(v).value
    ensures !NumberOf(v).Finite? ==> n == 0
  {
    if v.Undefined? || v.Null? || v == Str("") then 0
    else
      var num := NumberOf(v);
      if num.Finite? then num.value else 0
  }

  /** A number, or its decimal spelling, comes back from `toNumber` unchanged. */
  lemma ToNumberReadsNumbers(k: int)
    ensures ToNumber(Num(Finite(k))) == k
    ensures ToNumber(Str(IntToDecimal(k))) == k
  {
    IntToDecimalRoundTrip(k);
  }

  /** Text that is not a number, and the infinities, become 0 rather than propagating. */
  lemma ToNumberAbsorbsNonFinite()
    ensures ToNumber(Str("abc")) == 0
    ensures ToNumber(Num(NaN)) == 0 && ToNumber(Num(PosInfinity)) == 0
    ensures ToNumber(Str("-Infinity")) == 0
  {
    TrimUnchanged("abc");
    assert !IsDigit("abc"[0]);
    TrimUnchanged("-Infinity");
  }

  const INCOME_KEYS: seq<string> := ["businessIncome", "otherIncome", "capitalGains", "interestIncome", "dividendIncome"]

  const DEDUCTION_KEYS: seq<string> := ["insurance", "medical", "education", "donation", "retirement", "other"]

  predicate Distinct(keys: seq<string>) {
    forall i, j :: 0 <= i < j < |keys| ==> keys[i] != keys[j]
  }

  /**
   * The shape shared by `normalizeIncomeInfo` and `normalizeDeductions`: one
   * property per key, in order, holding `toNumber` of the input's property.
   * A missing input is the default `{}`; `null` cannot be read and throws.
   */
  function NormalizeFields(input: JsValue, keys: seq<string>): (r: Result<Fields, Thrown>)
    ensures r.Err? <==> input.Null?
    ensures r.Ok? ==> KeysOf(r.value) == keys
    ensures r.Ok? ==> forall i :: 0 <= i < |keys| ==> r.value[i].1 == ToNumber(Get(input, keys[i]))
  {
    if input.Null? then Err(TypeError)
    else Ok(seq(|keys|, i requires 0 <= i < |keys| => (keys[i], ToNumber(Get(input, keys[i])))))
  }

  /** `normalizeIncomeInfo`: exactly the five income properties. */
  function NormalizeIncomeInfo(input: JsValue): (r: Result<Fields, Thrown>)
    ensures r.Ok? ==> KeysOf(r.value) == INCOME_KEYS
  {
    NormalizeFields(input, INCOME_KEYS)
  }

  /** `normalizeDeductions`: exactly the six deduction properties. */
  function NormalizeDeductions(input: JsValue): (r: Result<Fields, Thrown>)
    ensures r.Ok? ==> KeysOf(r.value) == DEDUCTION_KEYS
  {
    NormalizeFields(input, DEDUCTION_KEYS)
  }

  /** A record of amounts as the JavaScript object it stands for. */
  function FieldsToJs(fields: Fields): JsValue {
    Obj(seq(|fields|, i requires 0 <= i < |fields| => (fields[i].0, Num(Finite(fields[i].1)))))
  }

  lemma {:induction false} LookupFirst(props: seq<(string, JsValue)>, i: nat)
    requires i < |props|
    requires forall j :: 0 <= j < i ==> props[j].0 != props[i].0
    ensures Lookup(props, props[i].0) == props[i].1
  {
    if i > 0 {
      assert props[1..][i - 1] == props[i];
      LookupFirst(props[1..], i - 1);
    }
  }

  /** Normalising a normalised record again changes nothing. */
  lemma NormalizeFieldsIdempotent(input: JsValue, keys: seq<string>)
    requires Distinct(keys)
    requires NormalizeFields(input, keys).Ok?
    ensures NormalizeFields(FieldsToJs(NormalizeFields(input, keys).value), keys) == NormalizeFields(input, keys)
  {
    var fields := NormalizeFields(input, keys).value;
    var js := FieldsToJs(fields);
    var again := NormalizeFields(js, keys).value;
    forall i | 0 <= i < |keys|
      ensures again[i] == fields[i]
    {
      forall j | 0 <= j < i
        ensures js.props[j].0 != js.props[i].0
      {
        assert KeysOf(fields)[j] == keys[j] && KeysOf(fields)[i] == keys[i];
      }
      LookupFirst(js.props, i);
      assert KeysOf(fields)[i] == keys[i];
    }
    assert again == fields;
  }

  lemma NormalizersIdempotent(input: JsValue)
    ensures NormalizeIncomeInfo(input).Ok? ==>
      NormalizeIncomeInfo(FieldsToJs(NormalizeIncomeInfo(input).value)) == NormalizeIncomeInfo(input)
    ensures NormalizeDeductions(input).Ok? ==>
      NormalizeDeductions(FieldsToJs(NormalizeDeductions(input).value)) == NormalizeDeductions(input)
  {
    if !input.Null? {
      NormalizeFieldsIdempotent(input, INCOME_KEYS);
      NormalizeFieldsIdempotent(input, DEDUCTION_KEYS);
    }
  }

  /**
   * `normalizeBusinessInfo`: a falsy name, number, type or industry takes its
   * default, and `isSimplified` becomes a boolean by truthiness.
   */
  function NormalizeBusinessInfo(input: JsValue): (r: Result<BusinessInfo, Thrown>)
    ensures r.Err? <==> input.Null?
    ensures r.Ok? ==>
      && r.value.companyName == (if Truthy(Get(input, "companyName")) then Get(input, "companyName") else Str("Unknown"))
      && r.value.businessNumber == (if Truthy(Get(input, "businessNumber")) then Get(input, "businessNumber") else Str("N/A"))
      && r.value.taxType == (if Truthy(Get(input, "taxType")) then Get(input, "taxType") else Str(SOLE))
      && r.value.isSimplified == Truthy(Get(input, "isSimplified"))
      && r.value.industry == (if Truthy(Get(input, "industry")) then Get(input, "industry") else Str("RETAIL"))
    ensures r.Ok? ==> Normalized(r.value)
  {
    if input.Null? then Err(TypeError)
    else Ok(BusinessInfo(
      Or(Get(input, "companyName"), Str("Unknown")),
      Or(Get(input, "businessNumber"), Str("N/A")),
      Or(Get(input, "taxType"), Str(SOLE)),
      Truthy(Get(input, "isSimplified")),
      Or(Get(input, "industry"), Str("RETAIL"))))
  }

  /** Every field the normaliser defaults is truthy. */
  predicate Normalized(b: BusinessInfo) {
    Truthy(b.companyName) && Truthy(b.businessNumber) && Truthy(b.taxType) && Truthy(b.industry)
  }

  function BusinessInfoToJs(b: BusinessInfo): JsValue {
    Obj([("companyName", b.companyName), ("businessNumber", b.businessNumber), ("taxType", b.taxType),
         ("isSimplified", Bool(b.isSimplified)), ("industry", b.industry)])
  }

  /** A normalised business record normalises to itself, so normalising twice is normalising once. */
  lemma NormalizeBusinessInfoIdempotent(b: BusinessInfo)
    requires Normalized(b)
    ensures NormalizeBusinessInfo(BusinessInfoToJs(b)) == Ok(b)
  {
    var props := BusinessInfoToJs(b).props;
    LookupFirst(props, 0);
    LookupFirst(props, 1);
    LookupFirst(props, 2);
    LookupFirst(props, 3);
    LookupFirst(props, 4);
  }

  /** An empty request gets the full set of defaults: an unnamed, unsimplified retail sole proprietor. */
  lemma EmptyBusinessInfoDefaults()
    ensures NormalizeBusinessInfo(Undefined) == Ok(BusinessInfo(Str("Unknown"), Str("N/A"), Str(SOLE), false, Str("RETAIL")))
    ensures NormalizeBusinessInfo(Obj([("isSimplified", Str("false"))])).value.isSimplified
  {
  }

  /**
   * `parseJsonBody`: no event or a falsy body gives `{}`, a body that is
   * already an object is returned as it is, and anything else is handed to
   * `JSON.parse` (here the parameter `jsonParse`) as a string, a failed
   * parse giving `{}`.
   */
  function ParseJsonBody(event: JsValue, jsonParse: string -> Option<JsValue>): (r: JsValue)
    ensures !Truthy(event) || !Truthy(Get(event, "body")) ==> r == Obj([])
    ensures Truthy(event) && Truthy(Get(event, "body")) && IsObjectType(Get(event, "body")) ==> r == Get(event, "body")
    ensures Truthy(event) && Truthy(Get(event, "body")) && !IsObjectType(Get(event, "body")) ==>
      r == (match jsonParse(JsToString(Get(event, "body"))) case Some(v) => v case None => Obj([]))
  {
    if !Truthy(event) || !Truthy(Get(event, "body")) then Obj([])
    else
      var body := Get(event, "body");
      if IsObjectType(body) then body
      else match jsonParse(JsToString(body))
        case Some(v) => v
        case None => Obj([])
  }

  /** Whatever the parser does, a missing body, an empty body and an unreadable body all parse to `{}`. */
  lemma ParseJsonBodyFallsBackToEmpty(body: JsValue, jsonParse: string -> Option<JsValue>)
    requires body.Undefined? || body == Str("") || (body.Str? && jsonParse(body.s).None?)
    ensures ParseJsonBody(Obj([("body", body)]), jsonParse) == Obj([])
  {
  }

  /** The HTTP response handed back to the gateway; `body` is the payload before `JSON.stringify`. */
  datatype Response = Response(statusCode: int, headers: seq<(string, string)>, body: JsValue)

  const JSON_HEADERS: seq<(string, string)> := [("Content-Type", "application/json")]

  /** `ok`: status 200 and `{success: true, data}`. */
  function Ok200(data: JsValue): (r: Response)
    ensures r.statusCode == 200 && r.headers == JSON_HEADERS
    ensures Get(r.body, "success") == Bool(true) && Get(r.body, "data") == data
  {
    var props := [("success", Bool(true)), ("data", data)];
    LookupFirst(props, 0);
    LookupFirst(props, 1);
    Response(200, JSON_HEADERS, Obj(props))
  }

  /** `error?.message || 'Internal error'` */
  function ErrorMessage(error: JsValue): (m: JsValue)
    ensures Truthy(m)
    ensures Truthy(Get(error, "message")) ==> m == Get(error, "message")
    ensures !Truthy(Get(error, "message")) ==> m == Str("Internal error")
  {
    var message := if error.Undefined? || error.Null? then Undefined else Get(error, "message");
    Or(message, Str("Internal error"))
  }

  /** `fail`: status 500 and `{success: false, error}` with a message that is never empty. */
  function Fail500(error: JsValue): (r: Response)
    ensures r.statusCode == 500 && r.headers == JSON_HEADERS
    ensures Get(r.body, "success") == Bool(false)
    ensures Truthy(Get(r.body, "error"))
    ensures Get(r.body, "error") == ErrorMessage(error)
  {
    var props := [("success", Bool(false)), ("error", ErrorMessage(error))];
    LookupFirst(props, 0);
    LookupFirst(props, 1);
    Response(500, JSON_HEADERS, Obj(props))
  }

  /** A thrown value without a message, or no value at all, is reported as an internal error. */
  lemma FailDefaultsMessage()
    ensures Get(Fail500(Undefined).body, "error") == Str("Internal error")
    ensures Get(Fail500(Obj([("message", Str("")) ])).body, "error") == Str("Internal error")
    ensures Get(Fail500(Obj([("message", Str("bad input"))])).body, "error") == Str("bad input")
  {
  }
}
