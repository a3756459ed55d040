/**
 * The JavaScript values that the handlers and middleware receive, and the
 * language's own coercions they rely on: truthiness (`||`, `!`), `Number(v)`,
 * `String(v)` and property access.
 *
 * Finite numbers are whole numbers: every amount in this system is an integral
 * count of won.
 */
module JsValues {
  import opened Wrappers

  datatype JsNumber = Finite(value: int) | NaN | PosInfinity | NegInfinity

  /** A JSON-shaped JavaScript value; object properties are kept in their insertion order. */
  datatype JsValue =
    | Undefined
    | Null
    | Bool(b: bool)
    | Num(n: JsNumber)
    | Str(s: string)
    | Arr(elems: seq<JsValue>)
    | Obj(props: seq<(string, JsValue)>)

  /** JavaScript's ToBoolean: what `!v` negates and what `a || b` tests. */
  predicate Truthy(v: JsValue) {
    match v
    case Undefined => false
    case Null => false
    case Bool(b) => b
    case Num(n) => !n.NaN? && n != Finite(0)
    case Str(s) => s != ""
    case Arr(_) => true
    case Obj(_) => true
  }

  /** `a || b` */
  function Or(a: JsValue, b: JsValue): JsValue {
    if Truthy(a) then a else b
  }

  /** `typeof v === 'object'` (which holds for null and for arrays). */
  predicate IsObjectType(v: JsValue) {
    v.Null? || v.Arr? || v.Obj?
  }

  function Lookup(props: seq<(string, JsValue)>, key: string): JsValue {
    if props == [] then Undefined
    else if props[0].0 == key then props[0].1
    else Lookup(props[1..], key)
  }

  /** `v[key]` for a `v` that is neither null nor undefined (primitives and arrays have none of the keys used here). */
  function Get(v: JsValue, key: string): JsValue {
    if v.Obj? then Lookup(v.props, key) else Undefined
  }

  /** The property names of an object, or the field names of a record, in insertion order. */
  function KeysOf<V>(props: seq<(string, V)>): seq<string> {
    seq(|props|, i requires 0 <= i < |props| => props[i].0)
  }

  // ---------------------------------------------------------------------------
  // Decimal digits

  predicate IsDigit(c: char) {
    '0' <= c <= '9'
  }

  /** `/^\d*$/` */
  predicate AllDigits(s: string) {
    forall i :: 0 <= i < |s| ==> IsDigit(s[i])
  }

  /** `/^\d{n}$/.test(s)`: exactly `n` decimal digits. */
  predicate DigitsOfLength(s: string, n: nat) {
    |s| == n && AllDigits(s)
  }

  function DigitsValue(s: string): nat
    requires AllDigits(s)
  {
    if s == [] then 0 else DigitsValue(s[..|s| - 1]) * 10 + (s[|s| - 1] as int - '0' as int)
  }

  /** The decimal spelling of a natural number, without leading zeros. */
  function NatToDecimal(n: nat): (s: string)
    ensures |s| > 0 && AllDigits(s)
    ensures s[0] != '0' || n == 0
  {
    if n < 10 then [('0' as int + n) as char]
    else NatToDecimal(n / 10) + [('0' as int + n % 10) as char]
  }

  function Pow10(k: nat): (p: nat)
    ensures p >= 1 && (k >= 1 ==> p >= 10)
  {
    if k == 0 then 1 else 10 * Pow10(k - 1)
  }

  /** A natural number has at most `k` digits exactly when it is below 10^k. */
  lemma {:induction false} NatToDecimalLength(n: nat, k: nat)
    requires k >= 1
    ensures |NatToDecimal(n)| <= k <==> n < Pow10(k)
  {
    if n >= 10 {
      if k == 1 {
        assert |NatToDecimal(n)| == |NatToDecimal(n / 10)| + 1;
      } else {
        NatToDecimalLength(n / 10, k - 1);
      }
    }
  }

  /** `String(n)` for a whole number below 10^21 in magnitude. */
  function IntToDecimal(n: int): string {
    if n < 0 then "-" + NatToDecimal(-n) else NatToDecimal(n)
  }

  lemma {:induction false} NatToDecimalRoundTrip(n: nat)
    ensures DigitsValue(NatToDecimal(n)) == n
  {
    if n >= 10 {
      var s := NatToDecimal(n);
      assert s[..|s| - 1] == NatToDecimal(n / 10);
      NatToDecimalRoundTrip(n / 10);
    }
  }

  // ---------------------------------------------------------------------------
  // Number(string)

  /** The characters `String.prototype.trim` and `Number(string)` strip (the Zs spaces other than U+0020 and U+00A0 aside). */
  predicate IsWhiteSpace(c: char) {
    c == ' ' || c == '\t' || c == '\n' || c == '\r' || c == '\U{B}' || c == '\U{C}'
    || c == '\U{A0}' || c == '\U{2028}' || c == '\U{2029}' || c == '\U{FEFF}'
  }

  function TrimStart(s: string): string {
    if s != [] && IsWhiteSpace(s[0]) then TrimStart(s[1..]) else s
  }

  function TrimEnd(s: string): string {
    if s != [] && IsWhiteSpace(s[|s| - 1]) then TrimEnd(s[..|s| - 1]) else s
  }

  function Trim(s: string): string {
    TrimEnd(TrimStart(s))
  }

  /**
   * `Number(s)` for a string: surrounding white space is ignored, the empty
   * string is 0, an optionally signed run of decimal digits is its value, and
   * the three spellings of Infinity are infinite.  Every other spelling is NaN.
   */
  function StringToNumber(s: string): JsNumber {
    var t := Trim(s);
    if t == "" then Finite(0)
    else if t == "Infinity" || t == "+Infinity" then PosInfinity
    else if t == "-Infinity" then NegInfinity
    else if (t[0] == '-' || t[0] == '+') && |t| > 1 && AllDigits(t[1..]) then
      if t[0] == '-' then Finite(-(DigitsValue(t[1..]) as int)) else Finite(DigitsValue(t[1..]))
    else if AllDigits(t) then Finite(DigitsValue(t))
    else NaN
  }

  lemma TrimUnchanged(s: string)
    requires s != [] && !IsWhiteSpace(s[0]) && !IsWhiteSpace(s[|s| - 1])
    ensures Trim(s) == s
  {
  }

  /** `Number(String(n)) === n`: the decimal spelling of a whole number reads back as that number. */
  lemma {:induction false} IntToDecimalRoundTrip(n: int)
    ensures StringToNumber(IntToDecimal(n)) == Finite(n)
  {
    var s := IntToDecimal(n);
    var m: nat := if n < 0 then -n else n;
    var d := NatToDecimal(m);
    NatToDecimalRoundTrip(m);
    assert IsDigit(d[0]) && IsDigit(d[|d| - 1]);
    TrimUnchanged(s);
    if n < 0 {
      assert s[1..] == d;
      assert s[0] == '-';
    } else {
      assert s == d;
    }
  }

  // ---------------------------------------------------------------------------
  // String(v) and Number(v)

  /** `String(v)`; an array is joined with commas, its null and undefined elements as empty strings. */
  function JsToString(v: JsValue): string
    decreases v, if v.Arr? then |v.elems| + 1 else 0
  {
    match v
    case Undefined => "undefined"
    case Null => "null"
    case Bool(b) => if b then "true" else "false"
    case Num(n) =>
      (match n
       case Finite(k) => IntToDecimal(k)
       case NaN => "NaN"
       case PosInfinity => "Infinity"
       case NegInfinity => "-Infinity")
    case Str(s) => s
    case Arr(es) => JoinUpTo(v, |es|)
    case Obj(_) => "[object Object]"
  }

  /** The first `n` elements of the array `v`, as `Array.prototype.join(',')` spells them. */
  function JoinUpTo(v: JsValue, n: nat): string
    requires v.Arr? && n <= |v.elems|
    decreases v, n
  {
    if n == 0 then ""
    else
      var e := v.elems[n - 1];
      var last := if e.Undefined? || e.Null? then "" else JsToString(e);
      if n == 1 then last else JoinUpTo(v, n - 1) + "," + last
  }

  /** `Number(v)`: objects and arrays go through their string form. */
  function NumberOf(v: JsValue): JsNumber {
    match v
    case Undefined => NaN
    case Null => Finite(0)
    case Bool(b) => Finite(if b then 1 else 0)
    case Num(n) => n
    case Str(s) => StringToNumber(s)
    case Arr(_) => StringToNumber(JsToString(v))
    case Obj(_) => StringToNumber(JsToString(v))
  }
}
