/**
 * The plain records the handlers build and the tax engine consumes.
 */
module Records {
  import opened JsValues

  /**
   * An object of named amounts (`incomeInfo`, `deductions`), its properties in
   * insertion order, which is the order `Object.values` visits them.
   */
  type Fields = seq<(string, int)>

  /** `Object.values(fields).reduce((sum, value) => sum + value, 0)` */
  function Sum(fields: Fields): (r: int)
    ensures fields == [] ==> r == 0
    ensures (forall i :: 0 <= i < |fields| ==> fields[i].1 >= 0) ==> forall i :: 0 <= i < |fields| ==> 0 <= fields[i].1 <= r
  {
    if fields == [] then 0 else Sum(fields[..|fields| - 1]) + fields[|fields| - 1].1
  }

  /** `fields[key] || 0` */
  function FieldOrZero(fields: Fields, key: string): (r: int)
    ensures (forall i :: 0 <= i < |fields| ==> fields[i].0 != key) ==> r == 0
    ensures (forall i :: 0 <= i < |fields| ==> fields[i].1 >= 0) ==> r >= 0
    ensures |fields| > 0 && fields[0].0 == key ==> r == fields[0].1
    ensures forall i :: 0 <= i < |fields| && fields[i].0 == key && (forall j :: 0 <= j < i ==> fields[j].0 != key)
              ==> r == fields[i].1
  {
    if fields == [] then 0
    else if fields[0].0 == key then fields[0].1
    else FieldOrZero(fields[1..], key)
  }

  /**
   * A business record as the normaliser builds it: every field but
   * `isSimplified` keeps whatever (truthy) value the request carried.
   */
  datatype BusinessInfo = BusinessInfo(
    companyName: JsValue,
    businessNumber: JsValue,
    taxType: JsValue,
    isSimplified: bool,
    industry: JsValue)

  /** The `{companyName, businessNumber, taxType}` echo the calculators return. */
  datatype BusinessEcho = BusinessEcho(companyName: JsValue, businessNumber: JsValue, taxType: JsValue)

  function EchoOf(b: BusinessInfo): BusinessEcho {
    BusinessEcho(b.companyName, b.businessNumber, b.taxType)
  }
}
