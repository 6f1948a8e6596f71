/** Facts about the rule-table interpreter that hold for every table:
    how arrays and tables combine the verdicts of their parts, that a
    rejection always names a violation, that a table reports every missing
    required key, and that re-validating a normalised body succeeds and
    returns it unchanged. */
module JoiFacts {
  import opened Wrappers
  import opened Json
  import opened JsText
  import opened Joi

  /** An array is accepted exactly when each of its elements is. */
  lemma {:induction false} CheckItemsPass(fmt: Formats, item: Schema, items: seq<Json>, path: seq<Step>)
    ensures CheckItems(fmt, item, items, path).Ok? <==>
      forall i :: 0 <= i < |items| ==> Check(fmt, item, items[i], path + [Index(i)]).Ok?
    decreases |items|
  {
    if items != [] {
      var n := |items| - 1;
      CheckItemsPass(fmt, item, items[..n], path);
      assert forall i :: 0 <= i < n ==> items[..n][i] == items[i];
    }
  }

  /** The output of an accepted array holds the checked elements in order. */
  lemma {:induction false} CheckItemsValues(fmt: Formats, item: Schema, items: seq<Json>, path: seq<Step>)
    requires CheckItems(fmt, item, items, path).Ok?
    ensures |CheckItems(fmt, item, items, path).value| == |items|
    ensures forall i :: 0 <= i < |items| ==>
      Check(fmt, item, items[i], path + [Index(i)]) == Ok(CheckItems(fmt, item, items, path).value[i])
    decreases |items|
  {
    if items != [] {
      var n := |items| - 1;
      var init := CheckItems(fmt, item, items[..n], path);
      var last := Check(fmt, item, items[n], path + [Index(n)]);
      assert init.Ok? && last.Ok?;
      var ws := init.value + [last.value];
      assert CheckItems(fmt, item, items, path).value == ws;
      CheckItemsValues(fmt, item, items[..n], path);
      forall i | 0 <= i < |items|
        ensures Check(fmt, item, items[i], path + [Index(i)]) == Ok(ws[i])
      {
        if i < n {
          assert items[..n][i] == items[i];
        }
      }
    }
  }

  /** An array is accepted exactly when each of its elements is, and the
      output holds the checked elements in order. */
  lemma CheckItemsSpec(fmt: Formats, item: Schema, items: seq<Json>, path: seq<Step>)
    ensures CheckItems(fmt, item, items, path).Ok? <==>
      forall i :: 0 <= i < |items| ==> Check(fmt, item, items[i], path + [Index(i)]).Ok?
    ensures CheckItems(fmt, item, items, path).Ok? ==>
      && |CheckItems(fmt, item, items, path).value| == |items|
      && forall i :: 0 <= i < |items| ==>
           CheckItems(fmt, item, items, path).value[i] == Check(fmt, item, items[i], path + [Index(i)]).value
  {
    CheckItemsPass(fmt, item, items, path);
    if CheckItems(fmt, item, items, path).Ok? {
      CheckItemsValues(fmt, item, items, path);
    }
  }

  /** The output object holds `r`'s value at `k`, or nothing there when `r` is `None`. */
  predicate Yields(out: map<string, Json>, k: string, r: Result<Option<Json>, set<Violation>>) {
    r.Ok? && (k in out <==> r.value.Some?) && (r.value.Some? ==> out[k] == r.value.value)
  }

  /** A table is passed exactly when each of its keys is. */
  lemma {:induction false} CheckFieldsPass(fmt: Formats, fields: seq<Field>, m: map<string, Json>)
    ensures CheckFields(fmt, fields, m).Ok? <==>
      forall i :: 0 <= i < |fields| ==> FieldResult(fmt, fields[i], m).Ok?
  {
    if fields != [] {
      CheckFieldsPass(fmt, fields[1..], m);
      assert forall i :: 1 <= i < |fields| ==> fields[1..][i - 1] == fields[i];
    }
  }

  /** Each key's violations are among the table's. */
  lemma {:induction false} CheckFieldsErrors(fmt: Formats, fields: seq<Field>, m: map<string, Json>)
    ensures forall i :: 0 <= i < |fields| ==>
      ErrorsOf(FieldResult(fmt, fields[i], m)) <= ErrorsOf(CheckFields(fmt, fields, m))
  {
    if fields != [] {
      CheckFieldsErrors(fmt, fields[1..], m);
      assert forall i :: 1 <= i < |fields| ==> fields[1..][i - 1] == fields[i];
    }
  }

  lemma KeysOfCons(fields: seq<Field>)
    requires fields != []
    ensures KeysOf(fields) == KeysOf(fields[1..]) + {fields[0].key}
  {
    forall k | k in KeysOf(fields) ensures k in KeysOf(fields[1..]) + {fields[0].key} {
      var i :| 0 <= i < |fields| && fields[i].key == k;
      if i > 0 { assert fields[1..][i - 1].key == k; }
    }
  }

  /** The output only holds declared keys and, when keys are distinct, holds
      each key's checked value or default. */
  lemma {:induction false} CheckFieldsOutput(fmt: Formats, fields: seq<Field>, m: map<string, Json>)
    requires CheckFields(fmt, fields, m).Ok?
    ensures CheckFields(fmt, fields, m).value.Keys <= KeysOf(fields)
    ensures DistinctKeys(fields) ==>
      forall i :: 0 <= i < |fields| ==> Yields(CheckFields(fmt, fields, m).value, fields[i].key, FieldResult(fmt, fields[i], m))
  {
    if fields != [] {
      CheckFieldsOutput(fmt, fields[1..], m);
      assert forall i :: 1 <= i < |fields| ==> fields[1..][i - 1] == fields[i];
      KeysOfCons(fields);
    }
  }

  /** `Joi.object(table)` accepts a body exactly when it is an object, every
      key in it is declared, and every declared key passes. */
  lemma ValidateObjectSpec(fmt: Formats, fields: seq<Field>, body: Json)
    ensures ValidateObject(fmt, fields, body).Ok? <==>
      && body.JObj?
      && body.fields.Keys <= KeysOf(fields)
      && forall i :: 0 <= i < |fields| ==> FieldResult(fmt, fields[i], body.fields).Ok?
  {
    if body.JObj? {
      CheckFieldsPass(fmt, fields, body.fields);
      var m := body.fields;
      var unknown := set k | k in m && k !in KeysOf(fields) :: Violation([Key(k)], NotAllowed);
      if !(m.Keys <= KeysOf(fields)) {
        var k :| k in m && k !in KeysOf(fields);
        assert Violation([Key(k)], NotAllowed) in unknown;
      }
    }
  }

  /** An absent required key is always reported, by name. */
  lemma MissingReported(fmt: Formats, fields: seq<Field>, body: Json, i: nat)
    requires body.JObj? && i < |fields|
    requires fields[i].presence.Required? && fields[i].key !in body.fields
    ensures ValidateObject(fmt, fields, body).Err?
    ensures Violation([Key(fields[i].key)], Missing) in ValidateObject(fmt, fields, body).error
  {
    CheckFieldsPass(fmt, fields, body.fields);
    CheckFieldsErrors(fmt, fields, body.fields);
  }

  /** In an accepted body every key of a table with distinct keys passes, and the
      output holds what that key yields. */
  lemma AcceptedKey(fmt: Formats, fields: seq<Field>, body: Json, i: nat)
    requires DistinctKeys(fields) && i < |fields| && ValidateObject(fmt, fields, body).Ok?
    ensures FieldResult(fmt, fields[i], body.fields).Ok?
    ensures Yields(ValidateObject(fmt, fields, body).value, fields[i].key, FieldResult(fmt, fields[i], body.fields))
  {
    ValidateObjectSpec(fmt, fields, body);
    CheckFieldsOutput(fmt, fields, body.fields);
  }

  /** Two tables with the same keys whose keys fare the same on a body fare the same on it. */
  lemma {:induction false} CheckFieldsAgree(fmt: Formats, fields: seq<Field>, fields': seq<Field>, m: map<string, Json>)
    requires |fields| == |fields'|
    requires forall i :: 0 <= i < |fields| ==>
      fields[i].key == fields'[i].key && FieldResult(fmt, fields[i], m) == FieldResult(fmt, fields'[i], m)
    ensures CheckFields(fmt, fields, m) == CheckFields(fmt, fields', m)
    ensures KeysOf(fields) == KeysOf(fields')
  {
    if fields != [] {
      assert forall i :: 1 <= i < |fields| ==> fields[1..][i - 1] == fields[i] && fields'[1..][i - 1] == fields'[i];
      CheckFieldsAgree(fmt, fields[1..], fields'[1..], m);
      KeysOfCons(fields);
      KeysOfCons(fields');
    }
  }

  /** A key that fails makes the whole body fail, with that key's violations among the errors. */
  lemma FieldErrorReported(fmt: Formats, fields: seq<Field>, body: Json, i: nat)
    requires body.JObj? && i < |fields| && FieldResult(fmt, fields[i], body.fields).Err?
    ensures ValidateObject(fmt, fields, body).Err?
    ensures FieldResult(fmt, fields[i], body.fields).error <= ValidateObject(fmt, fields, body).error
  {
    CheckFieldsPass(fmt, fields, body.fields);
    CheckFieldsErrors(fmt, fields, body.fields);
  }

  /** A rejection always names at least one violation. */
  lemma {:induction false} CheckRejectionExplained(fmt: Formats, s: Schema, v: Json, path: seq<Step>)
    ensures Check(fmt, s, v, path).Err? ==> Check(fmt, s, v, path).error != {}
    decreases s, 1
  {
    match s
    case Arr(item) =>
      if v.JArr? { ItemsRejectionExplained(fmt, item, v.items, path); }
    case Pattern(keys, values) =>
      if v.JObj? && Check(fmt, s, v, path).Err? {
        var m := v.fields;
        assert !EntriesPass(fmt, keys, values, m, path);
        var k :| k in m && !(Check(fmt, keys, JStr(k), path + [Key(k)]).Ok? && Check(fmt, values, m[k], path + [Key(k)]).Ok?);
        if Check(fmt, keys, JStr(k), path + [Key(k)]).Ok? {
          CheckRejectionExplained(fmt, values, m[k], path + [Key(k)]);
          var e :| e in Check(fmt, values, m[k], path + [Key(k)]).error;
          assert e in ErrorsOf(Check(fmt, values, m[k], path + [Key(k)]));
          assert e in EntriesErrors(fmt, keys, values, m, path);
        } else {
          assert Violation(path + [Key(k)], NotAllowed) in EntriesErrors(fmt, keys, values, m, path);
        }
      }
    case _ =>
  }

  lemma {:induction false} ItemsRejectionExplained(fmt: Formats, item: Schema, items: seq<Json>, path: seq<Step>)
    ensures CheckItems(fmt, item, items, path).Err? ==> CheckItems(fmt, item, items, path).error != {}
    decreases Arr(item), 0, |items|
  {
    if items != [] {
      var n := |items| - 1;
      ItemsRejectionExplained(fmt, item, items[..n], path);
      CheckRejectionExplained(fmt, item, items[n], path + [Index(n)]);
    }
  }

  /** Validating a body either returns its output or at least one violation. */
  lemma ValidateRejectionExplained(fmt: Formats, fields: seq<Field>, body: Json)
    ensures ValidateObject(fmt, fields, body).Err? ==> ValidateObject(fmt, fields, body).error != {}
  {
    if body.JObj? && ValidateObject(fmt, fields, body).Err? {
      var m := body.fields;
      ValidateObjectSpec(fmt, fields, body);
      CheckFieldsErrors(fmt, fields, m);
      if exists i :: 0 <= i < |fields| && FieldResult(fmt, fields[i], m).Err? {
        var i :| 0 <= i < |fields| && FieldResult(fmt, fields[i], m).Err?;
        if fields[i].key in m {
          CheckRejectionExplained(fmt, fields[i].schema, m[fields[i].key], [Key(fields[i].key)]);
        }
        var e :| e in FieldResult(fmt, fields[i], m).error;
        assert e in ValidateObject(fmt, fields, body).error;
      } else {
        var k :| k in m && k !in KeysOf(fields);
        assert Violation([Key(k)], NotAllowed) in ValidateObject(fmt, fields, body).error;
      }
    }
  }

  /** A schema that never trims. */
  predicate TrimFree(s: Schema) {
    match s
    case Str(_, _, trim, _, _) => !trim
    case Arr(item) => TrimFree(item)
    case Pattern(keys, values) => TrimFree(values)
    case Either(a, b) => TrimFree(a) && TrimFree(b)
    case _ => true
  }

  /** A schema whose alternatives never trim: re-validating its output is stable. */
  predicate Stable(s: Schema) {
    match s
    case Arr(item) => Stable(item)
    case Pattern(keys, values) => Stable(values)
    case Either(a, b) => TrimFree(a) && TrimFree(b)
    case _ => true
  }

  /** A schema that never trims returns the value it accepted, unchanged. */
  lemma {:induction false} TrimFreeKeepsValue(fmt: Formats, s: Schema, v: Json, path: seq<Step>)
    requires TrimFree(s) && Check(fmt, s, v, path).Ok?
    ensures Check(fmt, s, v, path).value == v
    decreases s
  {
    match s
    case Arr(item) =>
      CheckItemsSpec(fmt, item, v.items, path);
      forall i | 0 <= i < |v.items|
        ensures Check(fmt, item, v.items[i], path + [Index(i)]).value == v.items[i]
      {
        TrimFreeKeepsValue(fmt, item, v.items[i], path + [Index(i)]);
      }
      assert CheckItems(fmt, item, v.items, path).value == v.items;
    case Pattern(keys, values) =>
      var m := v.fields;
      forall k | k in m
        ensures Check(fmt, values, m[k], path + [Key(k)]).value == m[k]
      {
        TrimFreeKeepsValue(fmt, values, m[k], path + [Key(k)]);
      }
      assert EntriesOutput(fmt, keys, values, m, path) == m;
    case Either(a, b) =>
      if Check(fmt, a, v, path).Ok? {
        TrimFreeKeepsValue(fmt, a, v, path);
      } else {
        TrimFreeKeepsValue(fmt, b, v, path);
      }
    case _ =>
  }

  /** Re-validating a checked value succeeds and returns it unchanged. */
  lemma {:induction false} CheckIdempotent(fmt: Formats, s: Schema, v: Json, path: seq<Step>)
    requires Stable(s) && Check(fmt, s, v, path).Ok?
    ensures Check(fmt, s, Check(fmt, s, v, path).value, path) == Check(fmt, s, v, path)
    decreases s, 1
  {
    match s
    case Str(_, _, trim, _, _) =>
      if trim { TrimIdempotent(v.s); }
    case Arr(item) =>
      ItemsIdempotent(fmt, item, v.items, path);
    case Pattern(keys, values) =>
      PatternIdempotent(fmt, keys, values, v, path);
    case Either(a, b) =>
      if Check(fmt, a, v, path).Ok? {
        TrimFreeKeepsValue(fmt, a, v, path);
      } else {
        TrimFreeKeepsValue(fmt, b, v, path);
      }
    case _ =>
  }

  lemma {:induction false} ItemsIdempotent(fmt: Formats, item: Schema, items: seq<Json>, path: seq<Step>)
    requires Stable(item) && CheckItems(fmt, item, items, path).Ok?
    ensures CheckItems(fmt, item, CheckItems(fmt, item, items, path).value, path) == CheckItems(fmt, item, items, path)
    decreases Arr(item), 0
  {
    CheckItemsSpec(fmt, item, items, path);
    var ws := CheckItems(fmt, item, items, path).value;
    forall i | 0 <= i < |ws|
      ensures Check(fmt, item, ws[i], path + [Index(i)]) == Ok(ws[i])
    {
      CheckIdempotent(fmt, item, items[i], path + [Index(i)]);
    }
    CheckItemsSpec(fmt, item, ws, path);
    assert CheckItems(fmt, item, ws, path).value == ws;
  }

  lemma {:induction false} PatternIdempotent(fmt: Formats, keys: Schema, values: Schema, v: Json, path: seq<Step>)
    requires Stable(values) && Check(fmt, Pattern(keys, values), v, path).Ok?
    ensures Check(fmt, Pattern(keys, values), Check(fmt, Pattern(keys, values), v, path).value, path)
         == Check(fmt, Pattern(keys, values), v, path)
    decreases Pattern(keys, values), 0
  {
    var m := v.fields;
    var m' := Check(fmt, Pattern(keys, values), v, path).value.fields;
    assert m'.Keys == m.Keys;
    forall k | k in m'
      ensures Check(fmt, keys, JStr(k), path + [Key(k)]).Ok?
      ensures Check(fmt, values, m'[k], path + [Key(k)]) == Ok(m'[k])
    {
      CheckIdempotent(fmt, values, m[k], path + [Key(k)]);
    }
    assert EntriesPass(fmt, keys, values, m', path);
    assert EntriesOutput(fmt, keys, values, m', path) == m';
  }

  /** Two bodies on which every key of a table fares the same fare the same on the table. */
  lemma {:induction false} CheckFieldsCongruent(fmt: Formats, fields: seq<Field>, m: map<string, Json>, m': map<string, Json>)
    requires forall i :: 0 <= i < |fields| ==> FieldResult(fmt, fields[i], m) == FieldResult(fmt, fields[i], m')
    ensures CheckFields(fmt, fields, m) == CheckFields(fmt, fields, m')
  {
    if fields != [] {
      assert forall i :: 1 <= i < |fields| ==> fields[1..][i - 1] == fields[i];
      CheckFieldsCongruent(fmt, fields[1..], m, m');
    }
  }

  /** A key present in the body and checked by a schema that never trims keeps its value. */
  lemma PresentValue(fmt: Formats, f: Field, m: map<string, Json>)
    requires TrimFree(f.schema) && f.key in m && FieldResult(fmt, f, m).Ok?
    ensures FieldResult(fmt, f, m).value == Some(m[f.key])
  {
    TrimFreeKeepsValue(fmt, f.schema, m[f.key], [Key(f.key)]);
  }

  /** A table whose schemas are stable and whose defaults pass their own schema. */
  predicate StableTable(fmt: Formats, fields: seq<Field>) {
    && DistinctKeys(fields)
    && (forall i :: 0 <= i < |fields| ==> Stable(fields[i].schema))
    && (forall i :: 0 <= i < |fields| && fields[i].presence.Default? ==>
          Check(fmt, fields[i].schema, fields[i].presence.value, [Key(fields[i].key)]) == Ok(fields[i].presence.value))
  }

  /** Re-validating the output of a successful validation succeeds and returns it unchanged. */
  lemma ValidateObjectIdempotent(fmt: Formats, fields: seq<Field>, body: Json)
    requires StableTable(fmt, fields)
    requires ValidateObject(fmt, fields, body).Ok?
    ensures ValidateObject(fmt, fields, JObj(ValidateObject(fmt, fields, body).value)) == ValidateObject(fmt, fields, body)
  {
    var m := body.fields;
    var out := ValidateObject(fmt, fields, body).value;
    ValidateObjectSpec(fmt, fields, body);
    CheckFieldsPass(fmt, fields, m);
    CheckFieldsOutput(fmt, fields, m);
    forall i | 0 <= i < |fields|
      ensures FieldResult(fmt, fields[i], out) == FieldResult(fmt, fields[i], m)
    {
      var f := fields[i];
      if f.key in m {
        CheckIdempotent(fmt, f.schema, m[f.key], [Key(f.key)]);
      }
    }
    CheckFieldsCongruent(fmt, fields, out, m);
    var unknown := set k | k in out && k !in KeysOf(fields) :: Violation([Key(k)], NotAllowed);
    assert unknown == {};
  }

  /** A table with distinct keys, no trimming and no defaults. */
  predicate PassThrough(fields: seq<Field>) {
    && DistinctKeys(fields)
    && forall i :: 0 <= i < |fields| ==> TrimFree(fields[i].schema) && !fields[i].presence.Default?
  }

  /** A table that neither trims nor fills in defaults returns an accepted body unchanged. */
  lemma ValidateObjectKeepsBody(fmt: Formats, fields: seq<Field>, body: Json)
    requires PassThrough(fields) && ValidateObject(fmt, fields, body).Ok?
    ensures ValidateObject(fmt, fields, body).value == body.fields
  {
    var m := body.fields;
    ValidateObjectSpec(fmt, fields, body);
    CheckFieldsOutput(fmt, fields, m);
    var out := ValidateObject(fmt, fields, body).value;
    forall k | k in out
      ensures k in m && out[k] == m[k]
    {
      var i :| 0 <= i < |fields| && fields[i].key == k;
      if k in m { PresentValue(fmt, fields[i], m); }
    }
    forall k | k in m
      ensures k in out
    {
      var i :| 0 <= i < |fields| && fields[i].key == k;
      PresentValue(fmt, fields[i], m);
    }
  }
}
