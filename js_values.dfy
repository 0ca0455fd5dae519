/**
 * Loosely typed JavaScript values as they arrive in decoded token claims,
 * identity metadata and parsed request bodies, with the three JavaScript
 * operations the handlers apply to them: truthiness (`if (!x)`, `x || y`),
 * property access (`x?.key`) and string conversion (`String(x)`).
 *
 * `Null` stands for both `null` and `undefined`; every place where the
 * handlers could tell them apart is noted where it matters. Numbers are
 * integers (see README).
 */
module JsValues {

  datatype Json =
    | Null
    | Bool(b: bool)
    | Num(n: int)
    | Str(s: string)
    | Arr(items: seq<Json>)
    | Obj(fields: map<string, Json>)

  /** JavaScript truthiness: `null`, `undefined`, `false`, `0` and `""` are falsy. */
  predicate Truthy(v: Json) {
    match v
    case Null => false
    case Bool(b) => b
    case Num(n) => n != 0
    case Str(s) => s != ""
    case Arr(_) => true
    case Obj(_) => true
  }

  /** `v?.key`: the field of an object, `undefined` for anything else. */
  function Get(v: Json, key: string): (r: Json)
    ensures !v.Obj? ==> r == Null
    ensures v.Obj? && key !in v.fields ==> r == Null
    ensures r != Null ==> v.Obj? && key in v.fields && r == v.fields[key]
    ensures v.Obj? && key in v.fields ==> r == v.fields[key]
  {
    if v.Obj? && key in v.fields then v.fields[key] else Null
  }

  /** `a || b`: one of the two, truthy exactly when either is, and the left one whenever it is truthy. */
  function Or(a: Json, b: Json): (r: Json)
    ensures r == a || r == b
    ensures Truthy(r) <==> Truthy(a) || Truthy(b)
    ensures Truthy(a) ==> r == a
    ensures !Truthy(a) ==> r == b
  {
    if Truthy(a) then a else b
  }

  function DigitChar(d: nat): char
    requires d < 10
  {
    "0123456789"[d]
  }

  /** Decimal digits of a natural number, most significant first. */
  function NatToString(n: nat): (r: string)
    ensures |r| >= 1
    ensures forall i :: 0 <= i < |r| ==> '0' <= r[i] <= '9'
    decreases n
  {
    if n < 10 then [DigitChar(n)] else NatToString(n / 10) + [DigitChar(n % 10)]
  }

  /** `String(n)` for an integer (exponent notation is not modelled). */
  function IntToString(n: int): (r: string)
    ensures |r| >= 1
    ensures ',' !in r
  {
    if n < 0 then "-" + NatToString(-n) else NatToString(n)
  }

  function JoinWithComma(parts: seq<string>): string
  {
    if parts == [] then ""
    else if |parts| == 1 then parts[0]
    else parts[0] + "," + JoinWithComma(parts[1..])
  }

  /**
   * `String(v)`. Arrays are joined with commas, their `null` elements giving
   * the empty string; every object gives "[object Object]".
   */
  function StringOf(v: Json): (r: string)
    ensures v.Str? ==> r == v.s
    decreases v
  {
    match v
    case Null => "null"
    case Bool(b) => if b then "true" else "false"
    case Num(n) => IntToString(n)
    case Str(s) => s
    case Arr(items) =>
      JoinWithComma(seq(|items|, i requires 0 <= i < |items| =>
        if items[i].Null? then "" else StringOf(items[i])))
    case Obj(_) => "[object Object]"
  }

  /** `String(v || "")`: the empty string for every falsy value. */
  function StrOr(v: Json): (r: string)
    ensures !Truthy(v) ==> r == ""
    ensures v.Str? ==> r == v.s
  {
    if Truthy(v) then StringOf(v) else ""
  }

  /** `Array.isArray(v) && v.includes(x)` */
  predicate Includes(v: Json, x: Json) {
    v.Arr? && x in v.items
  }

  /**
   * `{ ...v }` for a metadata value: every key of the copy is a key of the
   * object with the same value, and an object is copied whole. Metadata is
   * taken to be an object or falsy, so the indexed keys that spreading a
   * truthy string or array would add are not modelled (see README).
   */
  function Spread(v: Json): (r: map<string, Json>)
    ensures forall k :: k in r ==> v.Obj? && k in v.fields && r[k] == v.fields[k]
    ensures v.Obj? ==> r.Keys == v.fields.Keys
    ensures v.Obj? ==> r == v.fields
    ensures !v.Obj? ==> r == map[]
  {
    if v.Obj? then v.fields else map[]
  }

  /** `v?.[0]`: an array's first element, a string's first character, an object's "0" field. */
  function Elem0(v: Json): (r: Json)
    ensures v.Arr? ==> (v.items == [] ==> r == Null) && (v.items != [] ==> r == v.items[0] && r in v.items)
    ensures v.Str? ==> (r == Null <==> v.s == "") && (r != Null ==> r.Str? && |r.s| == 1 && r.s == v.s[..1])
    ensures v.Null? || v.Bool? || v.Num? ==> r == Null
    ensures v.Obj? ==> (r != Null ==> "0" in v.fields && r == v.fields["0"])
    ensures !v.Arr? && !v.Str? ==> r == Get(v, "0")
  {
    match v
    case Arr(items) => if items == [] then Null else items[0]
    case Str(s) => if s == "" then Null else Str([s[0]])
    case _ => Get(v, "0")
  }
}
