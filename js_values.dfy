/**
 * JSON values as the application handles them after `JSON.parse` / `request.json()`,
 * with the pieces of JavaScript semantics the handlers rely on: reading a property
 * that may be undefined, truthiness (`x || d`, `if (x)`), template-literal
 * interpolation and `Array.prototype.join`.
 */
module JsValues {
  import opened Wrappers
  import JsNumbers

  /** A JSON value; numbers are restricted to integers. */
  datatype Value =
    | JNull
    | JBool(b: bool)
    | JNum(n: int)
    | JStr(s: string)
    | JArr(items: seq<Value>)
    | JObj(fields: map<string, Value>)

  /** A JSON object: the client-side form records and the database rows. */
  type Record = map<string, Value>

  /** `r.key`: the value, or `None` for undefined. */
  function Prop(r: Record, key: string): (v: Option<Value>)
    ensures v.Some? <==> key in r
  {
    if key in r then Some(r[key]) else None
  }

  /** JavaScript truthiness; `None` is undefined. Empty arrays and objects are truthy. */
  predicate Truthy(v: Option<Value>) {
    match v
    case None => false
    case Some(JNull) => false
    case Some(JBool(b)) => b
    case Some(JNum(n)) => n != 0
    case Some(JStr(s)) => s != ""
    case Some(JArr(_)) => true
    case Some(JObj(_)) => true
  }

  /** `v.key` on a value known not to be null or undefined: an object's own property;
    * the other values have none of the properties the application reads. */
  function Get(v: Value, key: string): (r: Option<Value>)
    ensures v.JObj? ==> r == Prop(v.fields, key)
    ensures !v.JObj? ==> r == None
  {
    if v.JObj? then Prop(v.fields, key) else None
  }

  /** What reading a property of `null` or `undefined` throws. */
  function NullRead(key: string): (e: Thrown)
    ensures e.ErrorObject? && e.kind == TypeError
  {
    ErrorObject(TypeError, "Cannot read properties of null (reading '" + key + "')")
  }

  /** `v.key` where v may itself be undefined (`None`) or null: those throw. */
  function Member(v: Option<Value>, key: string): (r: Result<Option<Value>, Thrown>)
    ensures r.Failure? <==> v.None? || v.value.JNull?
    ensures r.Failure? ==> r.error == NullRead(key)
    ensures r.Success? ==> r.value == Get(v.value, key)
  {
    if v.None? || v.value.JNull? then Failure(NullRead(key)) else Success(Get(v.value, key))
  }

  /** Truthiness of a string that is known to be defined (`if (s)`). */
  predicate NonEmpty(s: Option<string>) { s.Some? && s.value != "" }

  /**
   * A string's `length` in JavaScript: UTF-16 code units, so a character
   * outside the Basic Multilingual Plane (a surrogate pair) counts twice.
   */
  function Utf16Length(s: string): (n: nat)
    ensures |s| <= n <= 2 * |s|
  {
    if s == [] then 0 else (if s[0] as int > 0xFFFF then 2 else 1) + Utf16Length(s[1..])
  }

  /** On text inside the Basic Multilingual Plane the two lengths agree. */
  lemma {:induction false} Utf16LengthOfBmp(s: string)
    ensures (forall i :: 0 <= i < |s| ==> s[i] as int <= 0xFFFF) <==> Utf16Length(s) == |s|
  {
    if s != [] {
      Utf16LengthOfBmp(s[1..]);
      assert forall i :: 1 <= i < |s| ==> s[i] == s[1..][i - 1];
    }
  }

  /** `s.startsWith(prefix)`. */
  predicate StartsWith(s: string, prefix: string) {
    |prefix| <= |s| && s[..|prefix|] == prefix
  }

  /** `parts.join(sep)` over strings. */
  function Join(parts: seq<string>, sep: string): (r: string)
    ensures parts == [] ==> r == ""
    ensures |parts| == 1 ==> r == parts[0]
  {
    if parts == [] then ""
    else if |parts| == 1 then parts[0]
    else Join(parts[..|parts| - 1], sep) + sep + parts[|parts| - 1]
  }

  /** `String(v)` of a defined value, as a template literal interpolates it. */
  function Show(v: Value): string
    decreases v, 0
  {
    match v
    case JNull => "null"
    case JBool(b) => if b then "true" else "false"
    case JNum(n) => JsNumbers.IntToDecimal(n)
    case JStr(s) => s
    case JArr(items) => Join(seq(|items|, i requires 0 <= i < |items| => JoinElement(items[i])), ",")
    case JObj(_) => "[object Object]"
  }

  /** How `Array.prototype.join` renders one element: null becomes the empty string. */
  function JoinElement(v: Value): string
    decreases v, 1
  {
    if v == JNull then "" else Show(v)
  }

  /** `${v}` where v may be undefined. */
  function ShowOpt(v: Option<Value>): (r: string)
    ensures v.None? ==> r == "undefined"
  {
    match v
    case None => "undefined"
    case Some(x) => Show(x)
  }

  /** `arr.join(sep)` over a JSON array. */
  function JoinValues(items: seq<Value>, sep: string): string {
    Join(seq(|items|, i requires 0 <= i < |items| => JoinElement(items[i])), sep)
  }

  /** Joining strings is joining their renderings. */
  lemma JoinStrings(names: seq<string>, sep: string)
    ensures JoinValues(seq(|names|, i requires 0 <= i < |names| => JStr(names[i])), sep) == Join(names, sep)
  {
    var items := seq(|names|, i requires 0 <= i < |names| => JStr(names[i]));
    forall i | 0 <= i < |items| ensures JoinElement(items[i]) == names[i] {
      assert items[i] == JStr(names[i]);
    }
    assert seq(|items|, i requires 0 <= i < |items| => JoinElement(items[i])) == names;
  }

  /** An object some of whose properties may hold `undefined`, as a form hands over a
    * `Partial<...>` record. */
  type PartialRecord = map<string, Option<Value>>

  /** A parsed JSON object seen as an object literal: every property is defined. */
  function Lift(r: Record): (p: PartialRecord)
    ensures p.Keys == r.Keys && forall k :: k in r ==> p[k] == Some(r[k])
  {
    map k | k in r :: Some(r[k])
  }

  /** `JSON.parse(JSON.stringify(p))`: properties holding `undefined` are dropped. */
  function Serialized(p: PartialRecord): (r: Record)
    ensures forall k :: k in r <==> k in p && p[k].Some?
    ensures forall k :: k in r ==> r[k] == p[k].value
  {
    map k | k in p && p[k].Some? :: p[k].value
  }

  /** Serializing an object that came from JSON gives it back. */
  lemma SerializedLift(r: Record)
    ensures Serialized(Lift(r)) == r
  {
  }

  /** The kinds of thrown values the handlers distinguish. */
  datatype ErrorKind = PlainError | TypeError | SyntaxError | ZodError | OpenAIError

  /** A thrown value: an `Error` instance of some kind with its message, or anything else. */
  datatype Thrown = ErrorObject(kind: ErrorKind, message: string) | NonError

  /** `e instanceof Error ? e.message : fallback` */
  function MessageOr(e: Thrown, fallback: string): (r: string)
    ensures e.ErrorObject? ==> r == e.message
    ensures e.NonError? ==> r == fallback
  {
    match e
    case ErrorObject(_, m) => m
    case NonError => fallback
  }
}
