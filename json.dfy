/**
 * JSON request-body values and the three JavaScript coercions the handlers apply
 * to them: truthiness (`!x`), `typeof x === "string"` and `String(x)`.
 * A body key that is absent is `None` (JavaScript `undefined`).
 */
module Json {
  import opened Wrappers

  datatype Json =
    | JNull
    | JBool(b: bool)
    | JNum(n: int)
    | JStr(s: string)
    | JArr(items: seq<Json>)
    | JObj(members: map<string, Json>)

  /** JavaScript truthiness of a JSON value. */
  predicate Truthy(j: Json) {
    match j
    case JNull => false
    case JBool(b) => b
    case JNum(n) => n != 0
    case JStr(s) => s != ""
    case JArr(_) => true
    case JObj(_) => true
  }

  /** The falsy JSON values are exactly null, false, 0 and the empty string; arrays and objects are truthy. */
  lemma FalsyValues(j: Json)
    ensures !Truthy(j) <==> j == JNull || j == JBool(false) || j == JNum(0) || j == JStr("")
  {
  }

  /** `!!body.key`: the key is present and its value is truthy. */
  predicate Present(f: Option<Json>) {
    f.Some? && Truthy(f.value)
  }

  function DigitChar(d: nat): char
    requires d < 10
  {
    "0123456789"[d]
  }

  function Digits(n: nat): (r: string)
    ensures |r| > 0
    ensures forall i :: 0 <= i < |r| ==> '0' <= r[i] <= '9'
  {
    if n < 10 then [DigitChar(n)] else Digits(n / 10) + [DigitChar(n % 10)]
  }

  /** Decimal text of an integer, as `String(n)` writes it. */
  function NumberText(n: int): string {
    if n < 0 then "-" + Digits(-n) else Digits(n)
  }

  /** `Array.prototype.join` with ",": the parts separated by commas. */
  function JoinWithCommas(parts: seq<string>): string {
    if |parts| == 0 then ""
    else if |parts| == 1 then parts[0]
    else parts[0] + "," + JoinWithCommas(parts[1..])
  }

  /** The TypeError `String(x)` throws when neither `toString` nor `valueOf` gives a primitive. */
  const NoPrimitiveMessage := "Cannot convert object to primitive value"

  /**
   * A value `String()` cannot convert: an object carrying its own "toString" key
   * (parsed JSON cannot make it callable, and the inherited `valueOf` returns the
   * object itself), or an array holding such a value at any depth.
   */
  predicate Unprintable(j: Json)
    decreases j
  {
    match j
    case JObj(members) => "toString" in members
    case JArr(xs) => exists i :: 0 <= i < |xs| && Unprintable(xs[i])
    case _ => false
  }

  /** `String(j)`; inside an array a null element becomes the empty string. */
  function ToText(j: Json): (r: Result<string, string>)
    ensures r.Err? <==> Unprintable(j)
    ensures r.Err? ==> r.error == NoPrimitiveMessage
    ensures j.JStr? ==> r == Ok(j.s)
    ensures j.JObj? && r.Ok? ==> r.value == "[object Object]"
    decreases j
  {
    match j
    case JNull => Ok("null")
    case JBool(b) => Ok(if b then "true" else "false")
    case JNum(n) => Ok(NumberText(n))
    case JStr(s) => Ok(s)
    case JArr(xs) =>
      if exists i :: 0 <= i < |xs| && Unprintable(xs[i]) then Err(NoPrimitiveMessage)
      else Ok(JoinWithCommas(seq(|xs|, i requires 0 <= i < |xs| => if xs[i].JNull? then "" else ToText(xs[i]).value)))
    case JObj(members) => if "toString" in members then Err(NoPrimitiveMessage) else Ok("[object Object]")
  }
}
