/**
 * The Python values the application passes around: parsed JSON, request bodies
 * and MongoDB documents. Floating-point numbers are not modelled.
 */
module PyValues {
  import opened Wrappers
  import opened PyText

  datatype Value =
    | Null
    | Bool(b: bool)
    | Int(i: int)
    | Str(s: string)
    | List(items: seq<Value>)
    | Dict(fields: map<string, Value>)
    | ObjectId(hex: string)
    | DateTime(t: int)

  /** A dictionary or document with string keys. */
  type Doc = map<string, Value>

  /** Python truthiness: None, False, 0 and empty containers are false. */
  predicate Truthy(v: Value) {
    match v
    case Null => false
    case Bool(b) => b
    case Int(i) => i != 0
    case Str(s) => s != []
    case List(items) => items != []
    case Dict(fields) => fields != map[]
    case ObjectId(_) => true
    case DateTime(_) => true
  }

  /** len(v); None when len() raises TypeError. */
  function Len(v: Value): (r: Option<nat>)
    ensures r.Some? <==> v.Str? || v.List? || v.Dict?
    ensures r.Some? ==> (r.value == 0 <==> !Truthy(v))
  {
    match v
    case Str(s) => Some(|s|)
    case List(items) => Some(|items|)
    case Dict(fields) => Some(|fields|)
    case _ => None
  }

  /** d.get(key, default) */
  function Get(d: Doc, key: string, default: Value): Value {
    if key in d then d[key] else default
  }

  /** The value of d.get(key) in a truth test: an absent key reads as None. */
  predicate TruthyAt(d: Doc, key: string) {
    key in d && Truthy(d[key])
  }

  /** isinstance(v, str) and the string itself. */
  function AsStr(v: Value): Option<string> {
    if v.Str? then Some(v.s) else None
  }

  /**
   * MongoDB's equality filter {field: q}: the stored value equals q, or the stored
   * value is an array one of whose elements equals q.
   */
  predicate MongoMatches(stored: Value, q: Value) {
    stored == q || (stored.List? && q in stored.items)
  }

  /** A document matches {key: q}; a document without the key never matches a non-null q. */
  predicate DocMatches(d: Doc, key: string, q: Value) {
    if key in d then MongoMatches(d[key], q) else q == Null
  }

  predicate IsHexDigit(c: char) {
    ('0' <= c <= '9') || ('a' <= c <= 'f') || ('A' <= c <= 'F')
  }

  /** bson's ObjectId(s) accepts exactly the 24-character hexadecimal strings. */
  predicate IsObjectIdText(s: string) {
    |s| == 24 && forall i :: 0 <= i < |s| ==> IsHexDigit(s[i])
  }

  /** str(n) for a natural number. */
  function NatToString(n: nat): (r: string)
    ensures |r| >= 1
    ensures forall i :: 0 <= i < |r| ==> '0' <= r[i] <= '9'
  {
    if n < 10 then [('0' as int + n) as char]
    else NatToString(n / 10) + [('0' as int + n % 10) as char]
  }

  /**
   * The text an f-string interpolates for a value: a string as itself, any other
   * value through `show`, which stands for Python's str().
   */
  function Interpolated(v: Value, show: Value -> string): string {
    if v.Str? then v.s else show(v)
  }

  /** `x in container` for a string x; None where `in` raises TypeError. */
  function StrIn(x: string, container: Value): (r: Option<bool>)
    ensures r.Some? <==> container.List? || container.Str? || container.Dict?
    ensures container.List? ==> r == Some(Str(x) in container.items)
    ensures container.Dict? ==> r == Some(x in container.fields)
  {
    match container
    case List(items) => Some(Str(x) in items)
    case Str(s) => Some(Contains(s, x))
    case Dict(fields) => Some(x in fields)
    case _ => None
  }
}
