module Wrappers {
  datatype Option<+T> = None | Some(value: T)
}

/** Decoded JSON values as the importer sees them: Python objects produced by
    `json.load`, with Python's truthiness, `dict.get` and key equality. */
module Json {
  import opened Wrappers

  /** null is Python's None; integers and floats are distinct types. */
  datatype Json =
    | JNull
    | JBool(b: bool)
    | JInt(i: int)
    | JReal(r: real)
    | JStr(s: string)
    | JArr(items: seq<Json>)
    | JObj(fields: map<string, Json>)

  /** Python's `bool(v)`: None, False, 0, 0.0 and empty containers are false. */
  predicate Truthy(v: Json) {
    match v
    case JNull => false
    case JBool(b) => b
    case JInt(i) => i != 0
    case JReal(r) => r != 0.0
    case JStr(s) => |s| > 0
    case JArr(xs) => |xs| > 0
    case JObj(m) => |m| > 0
  }

  /** Python's `a or b`. */
  function Or(a: Json, b: Json): Json {
    if Truthy(a) then a else b
  }

  /** `d.get(key, default)`. */
  function GetOr(d: map<string, Json>, key: string, default: Json): Json {
    if key in d then d[key] else default
  }

  /** `d.get(key)`: None when the key is absent. */
  function Get(d: map<string, Json>, key: string): Json {
    GetOr(d, key, JNull)
  }

  /** `v if isinstance(v, dict) else {}`. */
  function AsDict(v: Json): map<string, Json> {
    if v.JObj? then v.fields else map[]
  }

  const EmptyObj: Json := JObj(map[])
  const EmptyArr: Json := JArr([])

  /** The integer `v` stands for when `isinstance(v, int)` holds (a bool is an int in Python). */
  function IntValue(v: Json): Option<int> {
    match v
    case JInt(i) => Some(i)
    case JBool(b) => Some(if b then 1 else 0)
    case _ => None
  }

  /** Values Python can hash; a list or a dict used as a key raises TypeError. */
  predicate Hashable(v: Json) {
    !v.JArr? && !v.JObj?
  }

  /** The integer dictionary key that `v` equals in Python (`1 == 1.0 == True`), if any. */
  function KeyValue(v: Json): Option<int> {
    match v
    case JInt(i) => Some(i)
    case JBool(b) => Some(if b then 1 else 0)
    case JReal(r) => if r == r.Floor as real then Some(r.Floor) else None
    case _ => None
  }

  /** Python's `len(v)`, defined for strings, lists and dicts only. */
  function Len(v: Json): Option<nat> {
    match v
    case JStr(s) => Some(|s|)
    case JArr(xs) => Some(|xs|)
    case JObj(m) => Some(|m|)
    case _ => None
  }

  predicate IsNumber(v: Json) {
    v.JInt? || v.JReal? || v.JBool?
  }

  function NumValue(v: Json): real
    requires IsNumber(v)
  {
    match v
    case JInt(i) => i as real
    case JReal(r) => r
    case JBool(b) => if b then 1.0 else 0.0
  }

  /** A list whose every element is a number. */
  predicate NumberList(v: Json) {
    v.JArr? && forall k :: 0 <= k < |v.items| ==> IsNumber(v.items[k])
  }

  /** A JSON value used as an optional numeric array: falsy (None or empty) or a list of numbers. */
  predicate OptNumbers(v: Json) {
    !Truthy(v) || NumberList(v)
  }

  /** The numbers of an optional numeric array; a falsy value gives the empty sequence. */
  function Numbers(v: Json): (r: seq<real>)
    requires OptNumbers(v)
    ensures Truthy(v) ==> |r| == |v.items| && forall k :: 0 <= k < |r| ==> r[k] == NumValue(v.items[k])
    ensures !Truthy(v) ==> r == []
  {
    if Truthy(v) then seq(|v.items|, k requires 0 <= k < |v.items| => NumValue(v.items[k])) else []
  }

  function Digit(d: nat): char
    requires d < 10
  {
    "0123456789"[d]
  }

  /** Decimal rendering of a natural number, as Python's f-string writes it. */
  function NatToString(n: nat): (s: string)
    ensures |s| > 0
    ensures forall k :: 0 <= k < |s| ==> '0' <= s[k] <= '9'
  {
    if n < 10 then [Digit(n)] else NatToString(n / 10) + [Digit(n % 10)]
  }

  /** `f"{prefix}{i}"`, the importer's default names such as `Node_3`. */
  function Numbered(prefix: string, i: nat): string {
    prefix + NatToString(i)
  }
}
