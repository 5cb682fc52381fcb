/** JSON values as the component receives them from `response.json()` and
    keeps them in its request draft, with the two pieces of JavaScript value
    semantics the component relies on: truthiness (`a || b`, `a && b`) and
    the string conversion a template literal or `+` applies. */
module Json {
  import opened Wrappers

  /** A JSON value. Numbers are modelled as integers. */
  datatype Json =
    | JNull
    | JBool(b: bool)
    | JNum(n: int)
    | JStr(s: string)
    | JArr(elems: seq<Json>)
    | JObj(fields: map<string, Json>)

  /** JavaScript truthiness of a JSON value. */
  predicate Truthy(j: Json) {
    match j
    case JNull => false
    case JBool(b) => b
    case JNum(n) => n != 0
    case JStr(s) => s != ""
    case JArr(_) => true
    case JObj(_) => true
  }

  /** Reading property `key` of a value that is not `null`: only an object
      that has the key yields something; everything else is `undefined`. */
  function Member(j: Json, key: string): (r: Option<Json>)
    ensures r.Some? <==> j.JObj? && key in j.fields
    ensures r.Some? ==> r.value == j.fields[key]
  {
    if j.JObj? && key in j.fields then Some(j.fields[key]) else None
  }

  /** The number a string of decimal digits spells, most significant digit first. */
  function DecimalValue(s: string): nat
    requires forall i :: 0 <= i < |s| ==> '0' <= s[i] <= '9'
  {
    if s == [] then 0 else DecimalValue(s[..|s| - 1]) * 10 + (s[|s| - 1] - '0') as nat
  }

  /** Decimal digits of a natural number: they spell `n`, with no leading zero. */
  function NatToDecimal(n: nat): (r: string)
    ensures |r| > 0
    ensures forall i :: 0 <= i < |r| ==> '0' <= r[i] <= '9'
    ensures DecimalValue(r) == n
    ensures |r| > 1 ==> r[0] != '0'
  {
    var d := ['0' + (n % 10) as char];
    if n < 10 then d
    else
      var r := NatToDecimal(n / 10) + d;
      assert r[..|r| - 1] == NatToDecimal(n / 10);
      r
  }

  /** `String(n)` for an integer. */
  function IntToDecimal(n: int): string {
    if n < 0 then "-" + NatToDecimal(-n) else NatToDecimal(n)
  }

  /** `String(j)`: what a template literal or string concatenation makes of
      a JSON value. Array elements that are `null` join as empty strings. */
  function Display(j: Json): (r: string)
    ensures j.JStr? ==> r == j.s
  {
    match j
    case JNull => "null"
    case JBool(b) => if b then "true" else "false"
    case JNum(n) => IntToDecimal(n)
    case JStr(s) => s
    case JArr(xs) => JoinDisplay(xs)
    case JObj(_) => "[object Object]"
  }

  /** `xs.join(",")` over the string conversions of the elements. */
  function JoinDisplay(xs: seq<Json>): string
    decreases xs
  {
    if xs == [] then ""
    else
      var head := if xs[0].JNull? then "" else Display(xs[0]);
      if |xs| == 1 then head else head + "," + JoinDisplay(xs[1..])
  }
}
