/**
 * The slice of Python's value semantics that the Python prover and verifier
 * rely on: JSON-shaped values (what `json.load` produces and what the proof
 * dictionary holds), truthiness, `len`, `str`, `dict.get`, substring
 * containment, and exceptions as an explicit outcome.
 */
module PyValues {
  import opened Encoding

  /**
   * A JSON value as Python holds it: `None`, `bool`, `int`, `float`, `str`,
   * `list` and `dict` with string keys.
   */
  datatype Json =
    | JNull
    | JBool(b: bool)
    | JInt(i: int)
    | JFloat(r: real)
    | JStr(s: string)
    | JList(items: seq<Json>)
    | JObject(fields: map<string, Json>)

  /** The exceptions the modelled code can raise, with their `str(e)` text. */
  datatype PyError = TypeError(msg: string) | ValueError(msg: string)

  /** A Python computation either returns a value or raises. */
  datatype Outcome<T> = Ok(value: T) | Raised(error: PyError)

  /** `type(v).__name__`. */
  function TypeName(v: Json): (name: string)
    ensures name != []
  {
    match v
    case JNull => "NoneType"
    case JBool(_) => "bool"
    case JInt(_) => "int"
    case JFloat(_) => "float"
    case JStr(_) => "str"
    case JList(_) => "list"
    case JObject(_) => "dict"
  }

  /** `bool(v)`: empty containers, zero, `False` and `None` are false. */
  predicate Truthy(v: Json) {
    match v
    case JNull => false
    case JBool(b) => b
    case JInt(i) => i != 0
    case JFloat(r) => r != 0.0
    case JStr(s) => s != []
    case JList(items) => items != []
    case JObject(fields) => fields != map[]
  }

  /** A value that `len` accepts. */
  predicate IsSized(v: Json) {
    v.JStr? || v.JList? || v.JObject?
  }

  /** `len(v)`: characters, elements or keys; any other type raises. */
  function Len(v: Json): (r: Outcome<nat>)
    ensures r.Ok? <==> IsSized(v)
    ensures r.Ok? ==> (r.value == 0 <==> !Truthy(v))
    ensures r.Raised? ==> r.error == TypeError("object of type '" + TypeName(v) + "' has no len()")
  {
    match v
    case JStr(s) => Ok(|s|)
    case JList(items) => Ok(|items|)
    case JObject(fields) => Ok(|fields.Keys|)
    case _ => Raised(TypeError("object of type '" + TypeName(v) + "' has no len()"))
  }

  /** `d.get(key, default)`. */
  function Get(d: map<string, Json>, key: string, default: Json): (v: Json)
    ensures key in d ==> v == d[key]
    ensures key !in d ==> v == default
  {
    if key in d then d[key] else default
  }

  /** `isinstance(v, int)`: `bool` is a subclass of `int`. */
  predicate IsInt(v: Json) {
    v.JInt? || v.JBool?
  }

  /** The integer an `int` or `bool` stands for. */
  function IntValue(v: Json): (i: int)
    requires IsInt(v)
    ensures v.JBool? ==> i == (if v.b then 1 else 0)
    ensures v.JInt? ==> i == v.i
  {
    if v.JBool? then (if v.b then 1 else 0) else v.i
  }

  /** `str(v)` of a float, list or dict (float formatting and `repr`), supplied by the caller. */
  type Repr = Json -> string

  /** `str(v)`: exact for `None`, `bool`, `int` and `str`; the rest is `repr`. */
  function Str(repr: Repr, v: Json): (s: string)
    ensures v.JStr? ==> s == v.s
    ensures v.JInt? && v.i >= 0 ==> s == Decimal(v.i)
    ensures v.JNull? ==> s == "None"
  {
    match v
    case JNull => "None"
    case JBool(b) => if b then "True" else "False"
    case JInt(i) => IntString(i)
    case JStr(s) => s
    case _ => repr(v)
  }

  /** `t in s` for two strings: `t` occurs somewhere in `s`, the empty string everywhere. */
  predicate IsSubstring(t: string, s: string)
    decreases |s|
  {
    t <= s || (s != [] && IsSubstring(t, s[1..]))
  }

  /** A one-character string occurs in `s` exactly when its character does. */
  lemma {:induction false} SingleCharSubstring(c: char, s: string)
    ensures IsSubstring([c], s) <==> c in s
    decreases |s|
  {
    if s != [] {
      SingleCharSubstring(c, s[1..]);
      assert s == [s[0]] + s[1..];
    }
  }

  /** The digit string both Python checks search. */
  const HexChars: string := "0123456789abcdef"

  /** `c in '0123456789abcdef'` for a one-character `c` is `IsLowerHexDigit`. */
  lemma HexCharsMembership(c: char)
    ensures IsSubstring([c], HexChars) <==> IsLowerHexDigit(c)
  {
    SingleCharSubstring(c, HexChars);
    HexCharsContain(c);
  }

  lemma HexCharsContain(c: char)
    ensures c in HexChars <==> IsLowerHexDigit(c)
  {
    if IsLowerHexDigit(c) {
      var i := if c <= '9' then c as int - '0' as int else c as int - 'a' as int + 10;
      assert HexChars[i] == c;
    }
  }
}
