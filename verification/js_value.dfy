// The dynamically typed JavaScript values the application stores in its
// records and envelopes: JSON-like data, objects as maps from keys to
// values, with the spread merge `{...a, ...b}`, truthiness and the string
// conversion a template literal applies.
module JsValue {
  import opened Wrappers

  /** A JSON-like value. Numbers are integers in this model. */
  datatype Value =
    | Null
    | Bool(b: bool)
    | Num(n: int)
    | Str(s: string)
    | Arr(items: seq<Value>)
    | Obj(fields: Record)

  /** A plain object: its own enumerable properties. An absent key reads as
    * `undefined`. */
  type Record = map<string, Value>

  /** `r[key]`, with `undefined` as None. */
  function Get(r: Record, key: string): (v: Option<Value>)
    ensures v.Some? <==> key in r
    ensures v.Some? ==> v.value == r[key]
  {
    if key in r then Some(r[key]) else None
  }

  /** `{...a, ...b}`: every key of either, the right-hand value winning. */
  function Merge(a: Record, b: Record): (r: Record)
    ensures r.Keys == a.Keys + b.Keys
    ensures forall k :: k in b ==> r[k] == b[k]
    ensures forall k :: k in a && k !in b ==> r[k] == a[k]
  {
    a + b
  }

  /** JavaScript truthiness; `undefined` is None. */
  predicate Truthy(v: Option<Value>)
  {
    match v
    case None => false
    case Some(Null) => false
    case Some(Bool(b)) => b
    case Some(Num(n)) => n != 0
    case Some(Str(s)) => s != []
    case Some(Arr(_)) => true
    case Some(Obj(_)) => true
  }

  /** `a || b`. */
  function Or(a: Option<Value>, b: Value): (r: Value)
    ensures Truthy(a) ==> Some(r) == a
    ensures !Truthy(a) ==> r == b
  {
    if Truthy(a) then a.value else b
  }

  /** The field holds exactly the string `id` (`r[key] === id`). */
  predicate HasId(r: Record, key: string, id: string)
  {
    key in r && r[key] == Str(id)
  }

  function Digit(d: nat): (c: char)
    requires d < 10
    ensures '0' <= c <= '9'
  {
    ('0' as int + d) as char
  }

  /** The decimal digits of `n`, as `String(n)` writes a non-negative
    * integer. */
  function NatToString(n: nat): (r: string)
    ensures r != []
    ensures forall i :: 0 <= i < |r| ==> '0' <= r[i] <= '9'
    ensures n > 0 ==> r[0] != '0'
  {
    if n < 10 then [Digit(n)] else NatToString(n / 10) + [Digit(n % 10)]
  }

  /** Reading the digits back gives the number. */
  function DigitsValue(r: string): int
  {
    if r == [] then 0 else 10 * DigitsValue(r[..|r| - 1]) + (r[|r| - 1] as int - '0' as int)
  }

  lemma {:induction false} NatToStringRoundTrip(n: nat)
    ensures DigitsValue(NatToString(n)) == n
  {
    if n >= 10 {
      NatToStringRoundTrip(n / 10);
      var r := NatToString(n);
      assert r[..|r| - 1] == NatToString(n / 10);
    }
  }

  /** `${v}` in a template literal; `undefined` is None. An array joins its
    * elements with commas, a null element counting as empty. */
  function Display(v: Option<Value>): (r: string)
    ensures v.Some? && v.value.Str? ==> r == v.value.s
    ensures v.None? ==> r == "undefined"
  {
    match v
    case None => "undefined"
    case Some(x) => DisplayValue(x)
  }

  /** The decimal text of an integer, with a minus sign when negative. */
  function IntToString(n: int): string
  {
    if n < 0 then "-" + NatToString(-n) else NatToString(n)
  }

  function DisplayValue(v: Value): string
    decreases v
  {
    match v
    case Null => "null"
    case Bool(b) => if b then "true" else "false"
    case Num(n) => IntToString(n)
    case Str(s) => s
    case Arr(items) => JoinItems(items)
    case Obj(_) => "[object Object]"
  }

  function JoinItems(items: seq<Value>): string
    decreases items
  {
    if items == [] then ""
    else
      var head := if items[0] == Null then "" else DisplayValue(items[0]);
      if |items| == 1 then head else head + "," + JoinItems(items[1..])
  }

  /** `x + 1` for a value read from a record, as the version counters do:
    * numbers add, strings concatenate, `true` counts as 1 and `false`,
    * `null` as 0. */
  function PlusOne(v: Value): (r: Value)
    ensures v.Num? ==> r == Num(v.n + 1)
  {
    match v
    case Num(n) => Num(n + 1)
    case Bool(b) => Num(if b then 2 else 1)
    case Null => Num(1)
    case _ => Str(DisplayValue(v) + "1")
  }
}
