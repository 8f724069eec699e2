/**
  The JavaScript values both scripts get back from `JSON.parse`, and the small
  part of JavaScript's semantics their decisions depend on: truthiness,
  property access, optional chaining (`a?.k`) and object spread (`{...a}`).
  `undefined` is `None`.
 */
module JsValue {

  datatype Option<+T> = None | Some(value: T)

  /** A value as `JSON.parse` returns it. Numbers are kept as integers. */
  datatype Json =
    | Null
    | Bool(b: bool)
    | Num(n: int)
    | Str(s: string)
    | Arr(items: seq<Json>)
    | Obj(fields: map<string, Json>)

  /** JavaScript truthiness of a value that may be `undefined`. */
  predicate Truthy(v: Option<Json>)
  {
    match v
    case None => false
    case Some(Null) => false
    case Some(Bool(b)) => b
    case Some(Num(n)) => n != 0
    case Some(Str(s)) => s != ""
    case Some(Arr(_)) => true
    case Some(Obj(_)) => true
  }

  /** `m[key]` on a plain object's own properties. */
  function Field(m: map<string, Json>, key: string): Option<Json>
  {
    if key in m then Some(m[key]) else None
  }

  /**
    `v.key` for a named key. Every key the scripts look up is a plain
    identifier that is neither an array index nor a built-in property, so only
    an object can have it. On `null` JavaScript throws a TypeError instead:
    callers that can meet `null` test for it first.
   */
  function Get(v: Json, key: string): Option<Json>
  {
    if v.Obj? then Field(v.fields, key) else None
  }

  /** `v?.key`: `undefined` when `v` is `undefined` or `null`, never throws. */
  function Chain(v: Option<Json>, key: string): Option<Json>
  {
    match v
    case None => None
    case Some(Null) => None
    case Some(x) => Get(x, key)
  }

  predicate IsDigit(c: char)
  {
    '0' <= c <= '9'
  }

  /** A string made of decimal digits only; no plain identifier is one. */
  predicate AllDigits(s: string)
  {
    forall i :: 0 <= i < |s| ==> IsDigit(s[i])
  }

  /** The decimal spelling of an array index, the property key JavaScript uses for it. */
  function Decimal(n: nat): (r: string)
    ensures |r| > 0 && AllDigits(r)
  {
    if n < 10 then [('0' as int + n) as char]
    else Decimal(n / 10) + [('0' as int + n % 10) as char]
  }

  /** The own enumerable properties of an array (or string) from index `from` on. */
  function Indexed(items: seq<Json>, from: nat): (m: map<string, Json>)
    decreases |items| - from
    ensures forall k :: k in m ==> AllDigits(k)
  {
    if from >= |items| then map[]
    else Indexed(items, from + 1)[Decimal(from) := items[from]]
  }

  /**
    The characters of a string as one-character strings, one per index key.
    JavaScript indexes UTF-16 code units, so this agrees with `{...s}` only
    for characters of the Basic Multilingual Plane.
   */
  function Characters(s: string): seq<Json>
  {
    seq(|s|, i requires 0 <= i < |s| => Str([s[i]]))
  }

  /**
    The properties `{...v}` contributes: an object's own fields, the index
    keys of an array or a string, and nothing for `undefined`, `null`,
    booleans and numbers.
   */
  function Spread(v: Option<Json>): map<string, Json>
  {
    match v
    case Some(Obj(f)) => f
    case Some(Arr(items)) => Indexed(items, 0)
    case Some(Str(s)) => Indexed(Characters(s), 0)
    case _ => map[]
  }

  /**
    A key that is not a digit string comes out of a spread only from an
    object, with that object's value.
   */
  lemma SpreadNamedKey(v: Option<Json>, key: string)
    requires !AllDigits(key)
    ensures key in Spread(v) <==> v.Some? && v.value.Obj? && key in v.value.fields
    ensures key in Spread(v) ==> Spread(v)[key] == v.value.fields[key]
  {
  }
}
