/** The part of the Joi validation library that the product rule tables use,
    as a small interpreter over rule tables written as data. A table lists the
    keys of an object with a schema and a presence rule each; validating a body
    either returns the normalised body (strings trimmed where the schema asks
    for it, defaults filled in) or the set of every violation found. */
module Joi {
  import opened Wrappers
  import opened Json
  import opened JsText

  /** The string formats the tables ask for. */
  datatype Format = AnyText | ObjectId | Uri

  /** The two format checks whose code lies outside this model: the ObjectId
      pattern of `Joi.objectId()` and the URI grammar of `Joi.string().uri()`.
      Every statement of the model holds for whatever predicates these are. */
  datatype Formats = Formats(isObjectId: string -> bool, isUri: string -> bool)

  predicate HasFormat(fmt: Formats, f: Format, s: string) {
    match f
    case AnyText => true
    case ObjectId => fmt.isObjectId(s)
    case Uri => fmt.isUri(s)
  }

  /** A Joi schema.
      - `Str`: `Joi.string()` with optional `min`/`max` on the JavaScript length,
        `trim()`, `allow("")` and a format (`uri()`, or `Joi.objectId()`);
      - `Num`: `Joi.number()` with optional `min`/`max`;
      - `Arr`: `Joi.array().items(item)`;
      - `AnyObject`: `Joi.object()` with no keys declared;
      - `Pattern`: `Joi.object().pattern(keys, values)`;
      - `Either`: `Joi.alternatives().try(first, second)`. */
  datatype Schema =
    | Str(min: Option<nat>, max: Option<nat>, trim: bool, allowEmpty: bool, format: Format)
    | Num(least: Option<real>, most: Option<real>)
    | Arr(item: Schema)
    | AnyObject
    | Pattern(keys: Schema, values: Schema)
    | Either(first: Schema, second: Schema)

  /** `.required()`, nothing, or `.default(value)`. */
  datatype Presence = Required | Optional | Default(value: Json)

  datatype Field = Field(key: string, schema: Schema, presence: Presence)

  /** Where in the body a violation was found. */
  datatype Step = Key(name: string) | Index(i: nat)

  datatype Rule =
    | NotObject | NotArray | NotString | NotNumber
    | Empty
    | TooShort(minLength: nat) | TooLong(maxLength: nat)
    | Below(lowest: real) | Above(highest: real)
    | BadFormat(format: Format)
    | NoAlternative
    | Missing
    | NotAllowed

  datatype Violation = Violation(path: seq<Step>, rule: Rule)

  function ErrorsOf<T>(r: Result<T, set<Violation>>): set<Violation> {
    if r.Err? then r.error else {}
  }

  /** The rules of a string schema that a non-empty string `t` breaks. */
  function TextRuleErrors(fmt: Formats, s: Schema, t: string, path: seq<Step>): (errs: set<Violation>)
    requires s.Str?
    ensures errs == {} <==>
      && (s.min.Some? ==> s.min.value <= JsLength(t))
      && (s.max.Some? ==> JsLength(t) <= s.max.value)
      && HasFormat(fmt, s.format, t)
  {
    (if s.min.Some? && JsLength(t) < s.min.value then {Violation(path, TooShort(s.min.value))} else {})
    + (if s.max.Some? && JsLength(t) > s.max.value then {Violation(path, TooLong(s.max.value))} else {})
    + (if !HasFormat(fmt, s.format, t) then {Violation(path, BadFormat(s.format))} else {})
  }

  /** The rules of a number schema that `n` breaks. */
  function NumberRuleErrors(s: Schema, n: real, path: seq<Step>): (errs: set<Violation>)
    requires s.Num?
    ensures errs == {} <==> (s.least.Some? ==> s.least.value <= n) && (s.most.Some? ==> n <= s.most.value)
  {
    (if s.least.Some? && n < s.least.value then {Violation(path, Below(s.least.value))} else {})
    + (if s.most.Some? && n > s.most.value then {Violation(path, Above(s.most.value))} else {})
  }

  /** Validates `v` against `s` at `path`. A string is first trimmed when the
      schema says so; the empty string is refused unless allowed, and is then
      accepted without looking at the other rules; an alternative takes the
      first of its schemas that accepts the value. */
  function Check(fmt: Formats, s: Schema, v: Json, path: seq<Step>): Result<Json, set<Violation>>
    decreases s, 1, 0
  {
    match s
    case Str(_, _, trim, allowEmpty, _) =>
      if !v.JStr? then Err({Violation(path, NotString)})
      else
        var t := if trim then Trim(v.s) else v.s;
        if t == "" then
          (if allowEmpty then Ok(JStr(t)) else Err({Violation(path, Empty)}))
        else if TextRuleErrors(fmt, s, t, path) == {} then Ok(JStr(t))
        else Err(TextRuleErrors(fmt, s, t, path))
    case Num(_, _) =>
      if !v.JNum? then Err({Violation(path, NotNumber)})
      else if NumberRuleErrors(s, v.n, path) == {} then Ok(v)
      else Err(NumberRuleErrors(s, v.n, path))
    case Arr(item) =>
      if !v.JArr? then Err({Violation(path, NotArray)})
      else
        var r := CheckItems(fmt, item, v.items, path);
        if r.Ok? then Ok(JArr(r.value)) else Err(r.error)
    case AnyObject =>
      if v.JObj? then Ok(v) else Err({Violation(path, NotObject)})
    case Pattern(keys, values) =>
      if !v.JObj? then Err({Violation(path, NotObject)})
      else if EntriesPass(fmt, keys, values, v.fields, path) then Ok(JObj(EntriesOutput(fmt, keys, values, v.fields, path)))
      else Err(EntriesErrors(fmt, keys, values, v.fields, path))
    case Either(first, second) =>
      var r := Check(fmt, first, v, path);
      if r.Ok? then r
      else
        var r' := Check(fmt, second, v, path);
        if r'.Ok? then r' else Err({Violation(path, NoAlternative)})
  }

  /** Every entry of `m` has a key that `keys` accepts and a value that `values` accepts. */
  predicate EntriesPass(fmt: Formats, keys: Schema, values: Schema, m: map<string, Json>, path: seq<Step>)
    decreases Pattern(keys, values), 0, 0
  {
    forall k | k in m :: Check(fmt, keys, JStr(k), path + [Key(k)]).Ok? && Check(fmt, values, m[k], path + [Key(k)]).Ok?
  }

  /** The checked values of the entries of an accepted `m`. */
  function EntriesOutput(fmt: Formats, keys: Schema, values: Schema, m: map<string, Json>, path: seq<Step>): map<string, Json>
    requires EntriesPass(fmt, keys, values, m, path)
    decreases Pattern(keys, values), 0, 1
  {
    map k | k in m :: Check(fmt, values, m[k], path + [Key(k)]).value
  }

  /** A key that `keys` refuses is an unknown key; the value of any other key is checked. */
  function EntriesErrors(fmt: Formats, keys: Schema, values: Schema, m: map<string, Json>, path: seq<Step>): set<Violation>
    decreases Pattern(keys, values), 0, 0
  {
    (set k | k in m && Check(fmt, keys, JStr(k), path + [Key(k)]).Err? :: Violation(path + [Key(k)], NotAllowed))
    + (set k, e | k in m && Check(fmt, keys, JStr(k), path + [Key(k)]).Ok? && e in ErrorsOf(Check(fmt, values, m[k], path + [Key(k)])) :: e)
  }

  /** Validates every element of an array; element `i` is reported at `path + [Index(i)]`. */
  function CheckItems(fmt: Formats, item: Schema, items: seq<Json>, path: seq<Step>): Result<seq<Json>, set<Violation>>
    decreases Arr(item), 0, |items|
  {
    if items == [] then Ok([])
    else
      var n := |items| - 1;
      var init := CheckItems(fmt, item, items[..n], path);
      var last := Check(fmt, item, items[n], path + [Index(n)]);
      if init.Ok? && last.Ok? then Ok(init.value + [last.value])
      else Err(ErrorsOf(init) + ErrorsOf(last))
  }

  /** One key of a table against a body: its checked value, nothing (absent and
      optional), its default (absent with a default) or its violations. */
  function FieldResult(fmt: Formats, f: Field, m: map<string, Json>): Result<Option<Json>, set<Violation>> {
    if f.key in m then
      var r := Check(fmt, f.schema, m[f.key], [Key(f.key)]);
      if r.Ok? then Ok(Some(r.value)) else Err(r.error)
    else
      match f.presence
      case Required => Err({Violation([Key(f.key)], Missing)})
      case Optional => Ok(None)
      case Default(d) => Ok(Some(d))
  }

  /** Every key of a table against a body, collecting the output object. */
  function CheckFields(fmt: Formats, fields: seq<Field>, m: map<string, Json>): Result<map<string, Json>, set<Violation>> {
    if fields == [] then Ok(map[])
    else
      var here := FieldResult(fmt, fields[0], m);
      var rest := CheckFields(fmt, fields[1..], m);
      if here.Ok? && rest.Ok? then
        Ok(if here.value.Some? then rest.value[fields[0].key := here.value.value] else rest.value)
      else Err(ErrorsOf(here) + ErrorsOf(rest))
  }

  function KeysOf(fields: seq<Field>): set<string> {
    set i | 0 <= i < |fields| :: fields[i].key
  }

  predicate DistinctKeys(fields: seq<Field>) {
    forall i, j :: 0 <= i < j < |fields| ==> fields[i].key != fields[j].key
  }

  /** `Joi.object(table).validate(body)`: the body must be an object, every key
      of the table must pass, and a key the table does not declare is refused. */
  function ValidateObject(fmt: Formats, fields: seq<Field>, body: Json): Result<map<string, Json>, set<Violation>> {
    if !body.JObj? then Err({Violation([], NotObject)})
    else
      var m := body.fields;
      var unknown := set k | k in m && k !in KeysOf(fields) :: Violation([Key(k)], NotAllowed);
      var r := CheckFields(fmt, fields, m);
      if r.Ok? && unknown == {} then Ok(r.value) else Err(ErrorsOf(r) + unknown)
  }
}
