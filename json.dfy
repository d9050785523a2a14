/**
 * Parsed JSON as the scripts see it after `response.json()` / `json.loads`, and the
 * Python operations they apply to it: `key in x`, `x[key]`, `x.get(key, default)`,
 * iteration, truthiness, `isinstance` tests, `x == n` and `str(x)`.
 *
 * Objects keep their key order, because a Python dict iterates in insertion order.
 * Keys are distinct in anything the scripts receive; lookups take the first match.
 */
module PyJson {
  import opened Wrappers
  import opened PyStr
  import opened OrderedDict

  datatype Json =
    | JNull
    | JBool(b: bool)
    | JInt(i: int)
    | JStr(s: string)
    | JArr(items: seq<Json>)
    | JObj(fields: seq<(string, Json)>)

  /** `bool(x)`. */
  predicate Truthy(j: Json) {
    match j
    case JNull => false
    case JBool(b) => b
    case JInt(i) => i != 0
    case JStr(s) => s != ""
    case JArr(items) => items != []
    case JObj(fields) => fields != []
  }

  predicate IsDict(j: Json) {
    j.JObj?
  }

  predicate IsStr(j: Json) {
    j.JStr?
  }

  /** `isinstance(x, int)`, which also holds for `True` and `False`. */
  predicate IsInt(j: Json) {
    j.JInt? || j.JBool?
  }

  /** `x == n` for an integer literal `n`; `True == 1` and `False == 0` hold in Python. */
  predicate EqInt(j: Json, n: int) {
    match j
    case JInt(i) => i == n
    case JBool(b) => (if b then 1 else 0) == n
    case _ => false
  }

  /** `k in x` for a string `k`: a key test on a dict, membership in a list, a substring test on a str. */
  function In(k: string, x: Json): (r: Result<bool>)
    ensures r.Raise? <==> !(x.JObj? || x.JArr? || x.JStr?)
    ensures x.JObj? ==> r == Ok(k in Keys(x.fields))
  {
    match x
    case JObj(fields) => Ok(k in Keys(fields))
    case JArr(items) => Ok(JStr(k) in items)
    case JStr(s) => Ok(PyStr.Contains(s, k))
    case _ => Raise(TypeError)
  }

  /** `x[k]` for a string `k`: only a dict holding `k` answers. */
  function Index(x: Json, k: string): (r: Result<Json>)
    ensures r.Ok? <==> x.JObj? && k in Keys(x.fields)
    ensures r.Ok? ==> Lookup(x.fields, k) == Some(r.value)
  {
    match x
    case JObj(fields) =>
      (match Lookup(fields, k)
       case Some(v) => Ok(v)
       case None => Raise(KeyError))
    case _ => Raise(TypeError)
  }

  /** `x.get(k, default)`: only dicts have `get`. */
  function Get(x: Json, k: string, default: Json): (r: Result<Json>)
    ensures r.Ok? <==> x.JObj?
    ensures x.JObj? && k !in Keys(x.fields) ==> r == Ok(default)
  {
    match x
    case JObj(fields) => Ok(Lookup(fields, k).GetOr(default))
    case _ => Raise(AttributeError)
  }

  /** `x.get(k, default)` on a value already known to be a dict. */
  function GetOr(x: Json, k: string, default: Json): Json
    requires x.JObj?
  {
    Lookup(x.fields, k).GetOr(default)
  }

  /** The values `for e in x` visits: list items, dict keys, or one-character strings. */
  function Iter(x: Json): (r: Result<seq<Json>>)
    ensures r.Ok? <==> x.JArr? || x.JObj? || x.JStr?
    ensures x.JArr? ==> r == Ok(x.items)
  {
    match x
    case JArr(items) => Ok(items)
    case JObj(fields) => Ok(seq(|fields|, i requires 0 <= i < |fields| => JStr(fields[i].0)))
    case JStr(s) => Ok(seq(|s|, i requires 0 <= i < |s| => JStr([s[i]])))
    case _ => Raise(TypeError)
  }

  /** `len(x)`. */
  function Len(x: Json): (r: Result<nat>)
    ensures r.Ok? <==> Iter(x).Ok?
    ensures r.Ok? ==> r.value == |Iter(x).value|
  {
    match x
    case JArr(items) => Ok(|items|)
    case JObj(fields) => Ok(|fields|)
    case JStr(s) => Ok(|s|)
    case _ => Raise(TypeError)
  }

  /** `x.strip()`: only strings have `strip`. */
  function StripOf(x: Json): (r: Result<string>)
    ensures r.Ok? <==> x.JStr?
  {
    match x
    case JStr(s) => Ok(Strip(s))
    case _ => Raise(AttributeError)
  }

  /** `x.lower()`: only strings have `lower`. */
  function LowerOf(x: Json): (r: Result<string>)
    ensures r.Ok? <==> x.JStr?
  {
    match x
    case JStr(s) => Ok(Lower(s))
    case _ => Raise(AttributeError)
  }

  function Join(parts: seq<string>, sep: string): string {
    if parts == [] then ""
    else if |parts| == 1 then parts[0]
    else parts[0] + sep + Join(parts[1..], sep)
  }

  /** `str(x)` of a scalar. */
  function ScalarText(j: Json): string {
    match j
    case JNull => "None"
    case JBool(b) => if b then "True" else "False"
    case JInt(i) => Decimal(i)
    case JStr(s) => s
    case _ => ""
  }

  /** `repr(x)`, the text of a value nested inside a list or dict (escaping is not modelled). */
  function Repr(j: Json): string {
    match j
    case JStr(s) => "'" + s + "'"
    case JArr(items) =>
      "[" + Join(seq(|items|, i requires 0 <= i < |items| => Repr(items[i])), ", ") + "]"
    case JObj(fields) =>
      "{" + Join(seq(|fields|, i requires 0 <= i < |fields| =>
                     "'" + fields[i].0 + "': " + Repr(fields[i].1)), ", ") + "}"
    case _ => ScalarText(j)
  }

  /** `str(x)`, which is also what an f-string inserts. */
  function StrOf(j: Json): string {
    if j.JArr? || j.JObj? then Repr(j) else ScalarText(j)
  }

  /** `str()` of a string is the string itself, and `str()` of an integer reads back with `int()`. */
  lemma StrOfRoundTrip(j: Json)
    requires j.JStr? || j.JInt?
    ensures j.JStr? ==> StrOf(j) == j.s
    ensures j.JInt? ==> ParseInt(StrOf(j)) == Some(j.i)
  {
    if j.JInt? {
      ParseDecimal(j.i);
    }
  }
}
