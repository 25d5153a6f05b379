/**
 * The part of zod that the request schemas use: `z.string()` with `.min` and
 * `.email()`, `z.number()` with `.min`, `.max` and `.positive()`, `z.array`,
 * `z.enum`, `.optional()` and `z.object`, which drops keys it does not declare.
 * `schema.parse(v)` either yields the cleaned value or throws a ZodError listing
 * every issue it found; that is `Parse` returning `Success` or `Failure`.
 * Whether a string is an e-mail address is zod's own regular expression and
 * enters as the parameter `isEmail`.
 */
module Schema {
  import opened Wrappers
  import opened JsValues

  datatype Schema =
    | ZString(minLength: nat, email: bool)
    | ZNumber(min: Option<int>, max: Option<int>, positive: bool)
    | ZArray(element: Schema)
    | ZEnum(options: seq<string>)
    | ZObject(fields: seq<Field>)

  /** One key of a `z.object` shape; `optional` is `.optional()`. */
  datatype Field = Field(key: string, schema: Schema, optional: bool)

  datatype PathItem = Key(name: string) | Index(position: nat)

  datatype IssueCode = InvalidType | TooSmall | TooBig | InvalidString | InvalidEnumValue

  /** One entry of `ZodError.errors`. */
  datatype Issue = Issue(code: IssueCode, path: seq<PathItem>)

  /** Shape vocabulary for stating, key by key, what a schema accepts. */
  predicate StringAt(m: Record, k: string) { k in m && m[k].JStr? }

  predicate NumberAt(m: Record, k: string) { k in m && m[k].JNum? }

  predicate OptionalStringAt(m: Record, k: string) { k in m ==> m[k].JStr? }

  predicate OptionalNumberAt(m: Record, k: string) { k in m ==> m[k].JNum? }

  predicate StringListAt(m: Record, k: string) {
    k in m && m[k].JArr? && forall i :: 0 <= i < |m[k].items| ==> m[k].items[i].JStr?
  }

  /** What a value must be to pass the schema, stated field by field. */
  ghost predicate Conforms(s: Schema, v: Value, isEmail: string -> bool)
    decreases s
  {
    match s
    case ZString(minLength, email) =>
      v.JStr? && Utf16Length(v.s) >= minLength && (email ==> isEmail(v.s))
    case ZNumber(min, max, positive) =>
      && v.JNum?
      && (min.Some? ==> v.n >= min.value)
      && (max.Some? ==> v.n <= max.value)
      && (positive ==> v.n > 0)
    case ZArray(element) =>
      v.JArr? && forall i :: 0 <= i < |v.items| ==> Conforms(element, v.items[i], isEmail)
    case ZEnum(options) =>
      v.JStr? && v.s in options
    case ZObject(fields) =>
      v.JObj? && forall i :: 0 <= i < |fields| ==> FieldConforms(fields, i, v.fields, isEmail)
  }

  /** A declared key is either present and conforming, or absent and optional. */
  ghost predicate FieldConforms(fields: seq<Field>, i: nat, m: Record, isEmail: string -> bool)
    requires i < |fields|
    decreases ZObject(fields), 0
  {
    assert fields[i] in fields;
    if fields[i].key in m then Conforms(fields[i].schema, m[fields[i].key], isEmail)
    else fields[i].optional
  }

  /** The issues zod reports for `v` at `path`, in the order it finds them. */
  function Issues(s: Schema, v: Value, isEmail: string -> bool, path: seq<PathItem>): seq<Issue>
    decreases s, 1, 0
  {
    match s
    case ZString(minLength, email) =>
      if !v.JStr? then [Issue(InvalidType, path)]
      else
        (if Utf16Length(v.s) < minLength then [Issue(TooSmall, path)] else [])
        + (if email && !isEmail(v.s) then [Issue(InvalidString, path)] else [])
    case ZNumber(min, max, positive) =>
      if !v.JNum? then [Issue(InvalidType, path)]
      else
        (if min.Some? && v.n < min.value then [Issue(TooSmall, path)] else [])
        + (if max.Some? && v.n > max.value then [Issue(TooBig, path)] else [])
        + (if positive && v.n <= 0 then [Issue(TooSmall, path)] else [])
    case ZArray(element) =>
      if !v.JArr? then [Issue(InvalidType, path)] else ElementIssues(element, v.items, 0, isEmail, path)
    case ZEnum(options) =>
      if !v.JStr? then [Issue(InvalidType, path)]
      else if v.s !in options then [Issue(InvalidEnumValue, path)]
      else []
    case ZObject(fields) =>
      if !v.JObj? then [Issue(InvalidType, path)] else FieldIssues(fields, 0, v.fields, isEmail, path)
  }

  function ElementIssues(element: Schema, items: seq<Value>, i: nat, isEmail: string -> bool, path: seq<PathItem>): seq<Issue>
    requires i <= |items|
    decreases ZArray(element), 0, |items| - i
  {
    if i == |items| then []
    else Issues(element, items[i], isEmail, path + [Index(i)]) + ElementIssues(element, items, i + 1, isEmail, path)
  }

  function FieldIssues(fields: seq<Field>, i: nat, m: Record, isEmail: string -> bool, path: seq<PathItem>): seq<Issue>
    requires i <= |fields|
    decreases ZObject(fields), 0, |fields| - i
  {
    if i == |fields| then []
    else
      assert fields[i] in fields;
      var f := fields[i];
      var here :=
        if f.key in m then Issues(f.schema, m[f.key], isEmail, path + [Key(f.key)])
        else if f.optional then []
        else [Issue(InvalidType, path + [Key(f.key)])];
      here + FieldIssues(fields, i + 1, m, isEmail, path)
  }

  /** The value `parse` returns: objects keep only their declared keys, recursively. */
  function Strip(s: Schema, v: Value): Value
    decreases s, 1, 0
  {
    match s
    case ZArray(element) =>
      if v.JArr? then JArr(seq(|v.items|, i requires 0 <= i < |v.items| => Strip(element, v.items[i]))) else v
    case ZObject(fields) =>
      if v.JObj? then JObj(StripFields(fields, 0, v.fields)) else v
    case _ => v
  }

  function StripFields(fields: seq<Field>, i: nat, m: Record): (r: Record)
    requires i <= |fields|
    decreases ZObject(fields), 0, |fields| - i
  {
    if i == |fields| then map[]
    else
      assert fields[i] in fields;
      var rest := StripFields(fields, i + 1, m);
      if fields[i].key in m then rest[fields[i].key := Strip(fields[i].schema, m[fields[i].key])] else rest
  }

  /** `schema.parse(v)`. */
  function Parse(s: Schema, v: Value, isEmail: string -> bool): Result<Value, seq<Issue>> {
    var issues := Issues(s, v, isEmail, []);
    if issues == [] then Success(Strip(s, v)) else Failure(issues)
  }

  /** The keys a `z.object` shape declares from position i on. */
  function DeclaredKeys(fields: seq<Field>, i: nat): set<string>
    requires i <= |fields|
  {
    set j | i <= j < |fields| :: fields[j].key
  }

  /** What one declared key of each kind demands, stated with the shape vocabulary. */
  lemma StringFieldConforms(fields: seq<Field>, i: nat, m: Record, isEmail: string -> bool, key: string, minLength: nat, email: bool)
    requires i < |fields| && fields[i] == Field(key, ZString(minLength, email), false)
    ensures FieldConforms(fields, i, m, isEmail) <==> StringAt(m, key) && Utf16Length(m[key].s) >= minLength && (email ==> isEmail(m[key].s))
  {
  }

  lemma NumberFieldConforms(fields: seq<Field>, i: nat, m: Record, isEmail: string -> bool, key: string, min: Option<int>, max: Option<int>, positive: bool)
    requires i < |fields| && fields[i] == Field(key, ZNumber(min, max, positive), false)
    ensures FieldConforms(fields, i, m, isEmail) <==>
      && NumberAt(m, key)
      && (min.Some? ==> m[key].n >= min.value)
      && (max.Some? ==> m[key].n <= max.value)
      && (positive ==> m[key].n > 0)
  {
  }

  lemma OptionalStringFieldConforms(fields: seq<Field>, i: nat, m: Record, isEmail: string -> bool, key: string)
    requires i < |fields| && fields[i] == Field(key, ZString(0, false), true)
    ensures FieldConforms(fields, i, m, isEmail) <==> OptionalStringAt(m, key)
  {
  }

  lemma OptionalNumberFieldConforms(fields: seq<Field>, i: nat, m: Record, isEmail: string -> bool, key: string)
    requires i < |fields| && fields[i] == Field(key, ZNumber(None, None, false), true)
    ensures FieldConforms(fields, i, m, isEmail) <==> OptionalNumberAt(m, key)
  {
  }

  lemma StringListFieldConforms(fields: seq<Field>, i: nat, m: Record, isEmail: string -> bool, key: string)
    requires i < |fields| && fields[i] == Field(key, ZArray(ZString(0, false)), false)
    ensures FieldConforms(fields, i, m, isEmail) <==> StringListAt(m, key)
  {
    if key in m && m[key].JArr? {
      assert Conforms(ZArray(ZString(0, false)), m[key], isEmail) <==> forall j :: 0 <= j < |m[key].items| ==> m[key].items[j].JStr?;
    }
  }

  lemma EnumFieldConforms(fields: seq<Field>, i: nat, m: Record, isEmail: string -> bool, key: string, options: seq<string>)
    requires i < |fields| && fields[i] == Field(key, ZEnum(options), false)
    ensures FieldConforms(fields, i, m, isEmail) <==> StringAt(m, key) && m[key].s in options
  {
  }

  lemma ObjectFieldConforms(fields: seq<Field>, i: nat, m: Record, isEmail: string -> bool, key: string, inner: seq<Field>)
    requires i < |fields| && fields[i] == Field(key, ZObject(inner), false)
    ensures FieldConforms(fields, i, m, isEmail) ==>
      key in m && m[key].JObj? && forall j :: 0 <= j < |inner| ==> FieldConforms(inner, j, m[key].fields, isEmail)
    ensures (key in m && m[key].JObj? && forall j :: 0 <= j < |inner| ==> FieldConforms(inner, j, m[key].fields, isEmail)) ==>
      FieldConforms(fields, i, m, isEmail)
  {
    if key in m {
      assert FieldConforms(fields, i, m, isEmail) == Conforms(ZObject(inner), m[key], isEmail);
      ObjectConforms(inner, m[key], isEmail);
    }
  }

  /** The object case of `Conforms`, one direction at a time. */
  lemma ObjectConforms(inner: seq<Field>, v: Value, isEmail: string -> bool)
    ensures Conforms(ZObject(inner), v, isEmail) ==>
      v.JObj? && forall j :: 0 <= j < |inner| ==> FieldConforms(inner, j, v.fields, isEmail)
    ensures (v.JObj? && forall j :: 0 <= j < |inner| ==> FieldConforms(inner, j, v.fields, isEmail)) ==>
      Conforms(ZObject(inner), v, isEmail)
  {
  }

  /** zod reports no issue exactly when the value conforms. */
  lemma {:induction false} IssuesEmptyIffConforms(s: Schema, v: Value, isEmail: string -> bool, path: seq<PathItem>)
    ensures Issues(s, v, isEmail, path) == [] <==> Conforms(s, v, isEmail)
    decreases s, 1, 0
  {
    match s
    case ZArray(element) =>
      if v.JArr? { ElementIssuesEmpty(element, v.items, 0, isEmail, path); }
    case ZObject(fields) =>
      if v.JObj? {
        FieldIssuesEmpty(fields, 0, v.fields, isEmail, path);
      }
    case _ =>
  }

  lemma {:induction false} ElementIssuesEmpty(element: Schema, items: seq<Value>, i: nat, isEmail: string -> bool, path: seq<PathItem>)
    requires i <= |items|
    ensures ElementIssues(element, items, i, isEmail, path) == []
        <==> forall j :: i <= j < |items| ==> Conforms(element, items[j], isEmail)
    decreases ZArray(element), 0, |items| - i
  {
    if i < |items| {
      IssuesEmptyIffConforms(element, items[i], isEmail, path + [Index(i)]);
      ElementIssuesEmpty(element, items, i + 1, isEmail, path);
    }
  }

  lemma {:induction false} FieldIssuesEmpty(fields: seq<Field>, i: nat, m: Record, isEmail: string -> bool, path: seq<PathItem>)
    requires i <= |fields|
    ensures FieldIssues(fields, i, m, isEmail, path) == [] ==> forall j :: i <= j < |fields| ==> FieldConforms(fields, j, m, isEmail)
    ensures (forall j :: i <= j < |fields| ==> FieldConforms(fields, j, m, isEmail)) ==> FieldIssues(fields, i, m, isEmail, path) == []
    decreases ZObject(fields), 0, |fields| - i
  {
    if i < |fields| {
      assert fields[i] in fields;
      var f := fields[i];
      var here :=
        if f.key in m then Issues(f.schema, m[f.key], isEmail, path + [Key(f.key)])
        else if f.optional then []
        else [Issue(InvalidType, path + [Key(f.key)])];
      if f.key in m {
        IssuesEmptyIffConforms(f.schema, m[f.key], isEmail, path + [Key(f.key)]);
      }
      assert here == [] <==> FieldConforms(fields, i, m, isEmail);
      FieldIssuesEmpty(fields, i + 1, m, isEmail, path);
      assert FieldIssues(fields, i, m, isEmail, path) == here + FieldIssues(fields, i + 1, m, isEmail, path);
      if FieldIssues(fields, i, m, isEmail, path) == [] {
        assert here == [];
        assert FieldConforms(fields, i, m, isEmail);
        assert FieldIssues(fields, i + 1, m, isEmail, path) == [];
        assert forall j :: i + 1 <= j < |fields| ==> FieldConforms(fields, j, m, isEmail);
      } else if here != [] {
        assert !FieldConforms(fields, i, m, isEmail);
        assert !(forall j :: i <= j < |fields| ==> FieldConforms(fields, j, m, isEmail));
        assert FieldIssues(fields, i, m, isEmail, path) != [];
      } else {
        var j :| i + 1 <= j < |fields| && !FieldConforms(fields, j, m, isEmail);
      }
    }
  }

  /** `parse` succeeds exactly on conforming values, and a failure always lists at least one issue. */
  lemma ParseSucceedsIff(s: Schema, v: Value, isEmail: string -> bool)
    ensures Parse(s, v, isEmail).Success? <==> Conforms(s, v, isEmail)
    ensures Parse(s, v, isEmail).Failure? ==> |Parse(s, v, isEmail).error| > 0
  {
    IssuesEmptyIffConforms(s, v, isEmail, []);
  }

  /** The cleaned object holds exactly the declared keys that the input has. */
  lemma {:induction false} StripFieldsKeys(fields: seq<Field>, i: nat, m: Record)
    requires i <= |fields|
    ensures StripFields(fields, i, m).Keys == m.Keys * DeclaredKeys(fields, i)
    decreases |fields| - i
  {
    if i < |fields| {
      StripFieldsKeys(fields, i + 1, m);
      assert DeclaredKeys(fields, i) == {fields[i].key} + DeclaredKeys(fields, i + 1);
    } else {
      assert DeclaredKeys(fields, i) == {};
    }
  }

  /** What a successful parse of an object schema returns: the input object cut down to
    * the declared keys. */
  lemma ParseObject(fields: seq<Field>, v: Value, isEmail: string -> bool)
    requires Parse(ZObject(fields), v, isEmail).Success?
    ensures v.JObj?
    ensures Parse(ZObject(fields), v, isEmail).value == JObj(StripFields(fields, 0, v.fields))
    ensures StripFields(fields, 0, v.fields).Keys == v.fields.Keys * DeclaredKeys(fields, 0)
  {
    StripFieldsKeys(fields, 0, v.fields);
  }

  /** A declared key that is not repeated earlier in the shape keeps its input value, cleaned by its schema. */
  lemma {:induction false} StripFieldsValue(fields: seq<Field>, i: nat, m: Record, j: nat)
    requires i <= j < |fields| && fields[j].key in m
    requires forall k :: i <= k < j ==> fields[k].key != fields[j].key
    ensures fields[j].key in StripFields(fields, i, m)
    ensures StripFields(fields, i, m)[fields[j].key] == Strip(fields[j].schema, m[fields[j].key])
    decreases j - i
  {
    if i < j {
      StripFieldsValue(fields, i + 1, m, j);
    }
  }
}
