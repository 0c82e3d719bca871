/**
  Stored documents as the service sees them: a map from field name to a
  loosely typed value, Python truthiness and `str()` of a value, and the
  per-field checks and coercions a schema applies when a record is built
  from such a map.
*/
module Documents {
  import opened Wrappers
  import opened ObjectIds

  /** A BSON value as it reaches the Python code. Embedded documents, dates and other BSON kinds are not modelled. */
  datatype Value =
    | Null
    | Bool(b: bool)
    | Int(i: int)
    | Float(f: real)
    | Str(s: string)
    | Array(items: seq<Value>)
    | Oid(oid: ObjectId)

  type Doc = map<string, Value>

  /** Python truthiness (`if v:`); an ObjectId is always truthy. */
  predicate Truthy(v: Value) {
    match v
    case Null => false
    case Bool(b) => b
    case Int(i) => i != 0
    case Float(f) => f != 0.0
    case Str(s) => s != ""
    case Array(items) => items != []
    case Oid(_) => true
  }

  function DecimalDigits(n: nat): (s: string)
    ensures |s| > 0
  {
    if n < 10 then [('0' as int + n) as char]
    else DecimalDigits(n / 10) + [('0' as int + n % 10) as char]
  }

  /**
    Python's `str(v)` for the kinds of `_id` this model renders exactly:
    ObjectId, string, integer, boolean and None. Floats and arrays get the
    empty string as a stand-in.
  */
  function PyStr(v: Value): (s: string)
    ensures v.Oid? ==> s == Render(v.oid) && Parse(s) == Some(v.oid)
    ensures v.Str? ==> s == v.s
  {
    match v
    case Oid(oid) => ParseRender(oid); Render(oid)
    case Str(s) => s
    case Int(i) => if i < 0 then "-" + DecimalDigits(-i) else DecimalDigits(i)
    case Bool(b) => if b then "True" else "False"
    case Null => "None"
    case Float(_) => ""
    case Array(_) => ""
  }

  /** The number a value compares as, if it is numeric. */
  function NumberOf(v: Value): Option<real> {
    match v
    case Int(i) => Some(i as real)
    case Float(f) => Some(f)
    case _ => None
  }

  /** A `str` field accepts a string only. */
  function AsStr(v: Value): Option<string> {
    if v.Str? then Some(v.s) else None
  }

  /** An `Optional[str]` field accepts `None` or a string. */
  function AsOptStr(v: Value): Option<Option<string>> {
    match v
    case Null => Some(None)
    case Str(s) => Some(Some(s))
    case _ => None
  }

  /** A `float` field accepts a float or an integer. */
  function AsFloat(v: Value): Option<real> {
    match v
    case Float(f) => Some(f)
    case Int(i) => Some(i as real)
    case _ => None
  }

  /** An `int` field accepts an integer or a float with no fractional part. */
  function AsInt(v: Value): Option<int> {
    match v
    case Int(i) => Some(i)
    case Float(f) => if f.Floor as real == f then Some(f.Floor) else None
    case _ => None
  }

  /** A `bool` field accepts a boolean. */
  function AsBool(v: Value): Option<bool> {
    if v.Bool? then Some(v.b) else None
  }

  function AsStrings(items: seq<Value>): (r: Option<seq<string>>)
    ensures r.Some? ==> |r.value| == |items|
    ensures r.Some? ==> forall i :: 0 <= i < |items| ==> items[i] == Str(r.value[i])
    ensures r.None? ==> exists i :: 0 <= i < |items| && !items[i].Str?
  {
    if items == [] then Some([])
    else if !items[0].Str? then None
    else
      var rest :- AsStrings(items[1..]);
      Some([items[0].s] + rest)
  }

  /** A `List[str]` field accepts an array whose elements are all strings. */
  function AsStrList(v: Value): Option<seq<string>> {
    if v.Array? then AsStrings(v.items) else None
  }

  /** The array value a list of strings is stored as. */
  function StrArray(xs: seq<string>): (v: Value)
    ensures AsStrList(v) == Some(xs)
  {
    var v := Array(seq(|xs|, i requires 0 <= i < |xs| => Str(xs[i])));
    assert AsStrings(v.items).value == xs;
    v
  }

  /** The value an optional string is stored as. */
  function OptStr(x: Option<string>): (v: Value)
    ensures AsOptStr(v) == Some(x)
  {
    if x.Some? then Str(x.value) else Null
  }

  /** A field declared without a default: missing means a validation error. */
  function Required<T>(d: Doc, key: string, decode: Value -> Option<T>): Option<T> {
    if key in d then decode(d[key]) else None
  }

  /** A field declared with a default: missing means the default. */
  function Defaulted<T>(d: Doc, key: string, decode: Value -> Option<T>, default: T): Option<T> {
    if key in d then decode(d[key]) else Some(default)
  }
}
