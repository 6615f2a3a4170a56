/**
 * The values `JSON.parse` produces, with JavaScript's truthiness and its string
 * conversion `String(v)` (the conversion a template literal `${v}` applies).
 */
module JsonValues {
  import opened Wrappers
  import opened Strings

  /** A parsed JSON value. A number keeps its decimal form: `units / 10^scale`. */
  datatype Json =
    | JNull
    | JBool(b: bool)
    | JNumber(units: int, scale: nat)
    | JString(s: string)
    | JArray(items: seq<Json>)
    | JObject(fields: map<string, Json>)

  function Pow10(k: nat): (r: nat)
    ensures r >= 1
  {
    if k == 0 then 1 else 10 * Pow10(k - 1)
  }

  function NumberValue(units: int, scale: nat): real {
    units as real / Pow10(scale) as real
  }

  /** JavaScript truthiness: `null`, `false`, `0`, `-0` and `""` are the falsy values JSON can hold. */
  predicate Truthy(v: Json) {
    match v
    case JNull => false
    case JBool(b) => b
    case JNumber(u, _) => u != 0
    case JString(s) => s != ""
    case _ => true
  }

  /** Truthiness of a property read: a missing property reads as `undefined`, which is falsy. */
  predicate Present(v: Option<Json>) { v.Some? && Truthy(v.value) }

  /** A property read on a parsed object. */
  function Get(m: map<string, Json>, k: string): (r: Option<Json>)
    ensures r.Some? <==> k in m
    ensures r.Some? ==> r.value == m[k]
  {
    if k in m then Some(m[k]) else None
  }

  lemma DropTrailingZero(units: int, scale: nat)
    requires scale > 0 && units % 10 == 0
    ensures NumberValue(units / 10, scale - 1) == NumberValue(units, scale)
  {
    var q := units / 10;
    assert units == 10 * q;
    assert Pow10(scale) == 10 * Pow10(scale - 1);
    calc {
      NumberValue(units, scale);
      (10 * q) as real / (10 * Pow10(scale - 1)) as real;
      q as real / Pow10(scale - 1) as real;
    }
  }

  /** The shortest decimal form of a number: trailing zeros of the fraction dropped. */
  function Trim(units: int, scale: nat): (r: (int, nat))
    ensures NumberValue(r.0, r.1) == NumberValue(units, scale)
    ensures r.1 > 0 ==> r.0 % 10 != 0
    decreases scale
  {
    if scale > 0 && units % 10 == 0 then
      DropTrailingZero(units, scale);
      Trim(units / 10, scale - 1)
    else
      (units, scale)
  }

  /** `String(x)` for a number in plain (non-exponent) notation. */
  function NumberText(units: int, scale: nat): string {
    var r := Trim(units, scale);
    var digits := MagnitudeText(if r.0 < 0 then -r.0 else r.0, r.1);
    if r.0 < 0 then "-" + digits else digits
  }

  lemma DivisionByPositive(a: nat, p: nat)
    requires p >= 1
    ensures a / p >= 0 && a % p >= 0
  {
  }

  /** The digits of `a / 10^k`: integer part, then `k` fraction digits if `k > 0`. */
  function MagnitudeText(a: nat, k: nat): string {
    if k == 0 then NatText(a)
    else
      var p := Pow10(k);
      DivisionByPositive(a, p);
      NatText(a / p) + "." + PadZeros(NatText(a % p), k)
  }

  /** `String(v)`: what `${v}` inserts into a template literal. */
  function Text(v: Json): string
    decreases v, 1, 0
  {
    match v
    case JNull => "null"
    case JBool(b) => if b then "true" else "false"
    case JNumber(u, k) => NumberText(u, k)
    case JString(s) => s
    case JArray(items) => JoinFrom(v, 0)
    case JObject(_) => "[object Object]"
  }

  /** `Array.prototype.join(",")` from element `i` on; a `null` element contributes nothing. */
  function JoinFrom(v: Json, i: nat): string
    requires v.JArray?
    decreases v, 0, |v.items| - i
  {
    if i >= |v.items| then ""
    else
      var e := v.items[i];
      (if i > 0 then "," else "") + (if e.JNull? then "" else Text(e)) + JoinFrom(v, i + 1)
  }
}
