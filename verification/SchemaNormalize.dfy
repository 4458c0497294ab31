/** internal/toolcall/toolcalls_schema_normalize.go: tool arguments coerced to strings where the schema
    asks for strings only. */
module SchemaNormalize {
  import opened Text
  import opened JsonValue

  // ---- reading a schema

  predicate IsStringLike(values: seq<Json>) {
    forall i :: 0 <= i < |values| ==>
      values[i].Str? && (Lower(Trim(values[i].s)) == "string" || Lower(Trim(values[i].s)) == "null")
  }

  /** isOnlyStringLikeTypes */
  predicate OnlyStringLike(values: seq<Json>) {
    IsStringLike(values) && exists i :: 0 <= i < |values| && values[i].Str? && Lower(Trim(values[i].s)) == "string"
  }

  predicate IsStringEnum(v: Json) {
    v.Arr? && v.items != [] && forall i :: 0 <= i < |v.items| ==> v.items[i].Str?
  }

  /** shouldCoerceSchemaToString: a string constant, an enumeration of strings, or a type that allows
      strings and at most null besides. */
  predicate CoercesToString(schema: map<string, Json>) {
    || Get(schema, "const").Str?
    || IsStringEnum(Get(schema, "enum"))
    || (Get(schema, "type").Str? && Lower(Trim(Get(schema, "type").s)) == "string")
    || (Get(schema, "type").Arr? && OnlyStringLike(Get(schema, "type").items))
  }

  predicate HasType(schema: map<string, Json>, name: string) {
    Get(schema, "type").Str? && Lower(Trim(Get(schema, "type").s)) == name
  }

  /** looksLikeObjectSchema */
  predicate LooksLikeObject(schema: map<string, Json>) {
    HasType(schema, "object") || Get(schema, "properties").Obj? || "additionalProperties" in schema
  }

  /** looksLikeArraySchema */
  predicate LooksLikeArray(schema: map<string, Json>) {
    HasType(schema, "array") || "items" in schema
  }

  /** The schema that governs a field; null for none. */
  function FieldSchema(schema: map<string, Json>, key: string): Json {
    var properties := Get(schema, "properties");
    if properties.Obj? && key in properties.fields then properties.fields[key] else Get(schema, "additionalProperties")
  }

  /** The schema that governs an array element; null for none. */
  function ItemSchema(items: Json, i: nat): Json {
    if items.Arr? then (if i < |items.items| then items.items[i] else Null) else items
  }

  // ---- the normal form

  datatype Role = Untouched | Stringly | Fields | Elements

  /** Which branch applies to a value that is not null. */
  function RoleOf(schema: Json): Role {
    if !schema.Obj? || schema.fields == map[] then Untouched
    else if CoercesToString(schema.fields) then Stringly
    else if LooksLikeObject(schema.fields) then Fields
    else if LooksLikeArray(schema.fields) then Elements
    else Untouched
  }

  /** The JSON text of a value. */
  type Marshal = Json -> string

  function Normal(m: Marshal, value: Json, schema: Json): Json
    decreases value
  {
    match RoleOf(schema)
    case Untouched => value
    case Stringly => if value.Null? || value.Str? then value else Str(m(value))
    case Fields =>
      if value.Obj? then
        Obj(map key | key in value.fields :: Normal(m, value.fields[key], FieldSchema(schema.fields, key)))
      else value
    case Elements =>
      if value.Arr? then
        Arr(seq(|value.items|, i requires 0 <= i < |value.items| =>
          Normal(m, value.items[i], ItemSchema(Get(schema.fields, "items"), i))))
      else value
  }

  /** Every position that the schema governs with a string-only schema holds a string or null. */
  predicate StringsHold(value: Json, schema: Json)
    decreases value
  {
    match RoleOf(schema)
    case Untouched => true
    case Stringly => value.Null? || value.Str?
    case Fields =>
      value.Obj? ==> forall key :: key in value.fields ==>
        StringsHold(value.fields[key], FieldSchema(schema.fields, key))
    case Elements =>
      value.Arr? ==> forall i :: 0 <= i < |value.items| ==>
        StringsHold(value.items[i], ItemSchema(Get(schema.fields, "items"), i))
  }

  /** Containers that are not turned into strings keep their keys and their lengths, and nothing outside
      string-only positions changes. */
  predicate SameShape(value: Json, after: Json, schema: Json)
    decreases value
  {
    match RoleOf(schema)
    case Untouched => after == value
    case Stringly => after == value || after.Str?
    case Fields =>
      if value.Obj? then
        after.Obj? && after.fields.Keys == value.fields.Keys
        && forall key :: key in value.fields ==>
             SameShape(value.fields[key], after.fields[key], FieldSchema(schema.fields, key))
      else after == value
    case Elements =>
      if value.Arr? then
        after.Arr? && |after.items| == |value.items|
        && forall i :: 0 <= i < |value.items| ==>
             SameShape(value.items[i], after.items[i], ItemSchema(Get(schema.fields, "items"), i))
      else after == value
  }

  /** stringifySchemaValue */
  method Stringify(m: Marshal, value: Json) returns (next: Json, changed: bool)
    ensures next == (if value.Null? || value.Str? then value else Str(m(value))) && (changed <==> next != value)
  {
    if value.Null? || value.Str? {
      return value, false;
    }
    return Str(m(value)), true;
  }

  /** normalizeToolValueWithSchema: its flag says whether the value it returns differs from the one given. */
  method Normalize(m: Marshal, value: Json, schema: Json) returns (next: Json, changed: bool)
    ensures next == Normal(m, value, schema) && (changed <==> next != value)
    decreases value, 1
  {
    hide CoercesToString, LooksLikeObject, LooksLikeArray;
    NullIsNormal(m, schema);
    if value.Null? || schema.Null? {
      return value, false;
    }
    if !schema.Obj? || schema.fields == map[] {
      return value, false;
    }
    if CoercesToString(schema.fields) {
      next, changed := Stringify(m, value);
      return;
    }
    if LooksLikeObject(schema.fields) {
      if !value.Obj? || value.fields == map[] {
        EmptyIsNormal(m, value, schema);
        return value, false;
      }
      next, changed := NormalizeFields(m, value, schema);
      return;
    }
    if LooksLikeArray(schema.fields) {
      if !value.Arr? || value.items == [] {
        EmptyIsNormal(m, value, schema);
        return value, false;
      }
      if Get(schema.fields, "items").Null? {
        UngovernedElements(m, value, schema);
        return value, false;
      }
      next, changed := NormalizeElements(m, value, schema);
      return;
    }
    return value, false;
  }

  /** The loop over the fields of an object. */
  method NormalizeFields(m: Marshal, value: Json, schema: Json) returns (next: Json, changed: bool)
    requires RoleOf(schema) == Fields && value.Obj?
    ensures next == Normal(m, value, schema) && (changed <==> next != value)
    decreases value, 0
  {
    hide CoercesToString, LooksLikeObject, LooksLikeArray, FieldSchema, Normal, FieldsDone;
    var obj := value.fields;
    var out: map<string, Json> := map[];
    var rest := obj.Keys;
    changed := false;
    NoFieldsDone(m, obj, schema.fields);
    while rest != {}
      invariant FieldsDone(m, obj, schema.fields, out, rest, changed)
      decreases |rest|
    {
      var key :| key in rest;
      OneMoreField(m, obj, schema.fields, out, rest, changed, key);
      var current, fieldChanged := Normalize(m, obj[key], FieldSchema(schema.fields, key));
      out := out[key := current];
      rest := rest - {key};
      changed := changed || fieldChanged;
    }
    AllFieldsDone(m, value, schema, out, changed);
    next := if changed then Obj(out) else value;
  }

  /** The fields outside rest are normalised, and changed says whether one of them differs. */
  ghost predicate FieldsDone(m: Marshal, obj: map<string, Json>, schema: map<string, Json>, out: map<string, Json>,
                             rest: set<string>, changed: bool)
  {
    && rest <= obj.Keys && out.Keys == obj.Keys - rest
    && (forall key :: key in out ==> out[key] == Normal(m, obj[key], FieldSchema(schema, key)))
    && (changed <==> exists key :: key in out && out[key] != obj[key])
  }

  lemma NoFieldsDone(m: Marshal, obj: map<string, Json>, schema: map<string, Json>)
    ensures FieldsDone(m, obj, schema, map[], obj.Keys, false)
  {
  }

  lemma OneMoreField(m: Marshal, obj: map<string, Json>, schema: map<string, Json>, out: map<string, Json>,
                     rest: set<string>, changed: bool, key: string)
    requires FieldsDone(m, obj, schema, out, rest, changed) && key in rest
    ensures key in obj
    ensures var next := Normal(m, obj[key], FieldSchema(schema, key));
      FieldsDone(m, obj, schema, out[key := next], rest - {key}, changed || next != obj[key])
  {
    hide Normal, FieldSchema;
    var next := Normal(m, obj[key], FieldSchema(schema, key));
    var more := out[key := next];
    assert (exists k :: k in more && more[k] != obj[k]) <==> changed || next != obj[key] by {
      if changed {
        var k :| k in out && out[k] != obj[k];
        assert k in more && more[k] != obj[k];
      }
      if next != obj[key] {
        assert key in more && more[key] != obj[key];
      }
    }
  }

  lemma AllFieldsDone(m: Marshal, value: Json, schema: Json, out: map<string, Json>, changed: bool)
    requires RoleOf(schema) == Fields && value.Obj? && FieldsDone(m, value.fields, schema.fields, out, {}, changed)
    ensures Normal(m, value, schema) == Obj(out) && (changed <==> Obj(out) != value)
  {
    hide CoercesToString, LooksLikeObject, LooksLikeArray, FieldSchema, Normal;
    FieldsNormal(m, value, schema, out);
    assert !changed ==> out == value.fields;
  }

  lemma FieldsNormal(m: Marshal, value: Json, schema: Json, out: map<string, Json>)
    requires RoleOf(schema) == Fields && value.Obj? && out.Keys == value.fields.Keys
    requires forall key :: key in out ==> out[key] == Normal(m, value.fields[key], FieldSchema(schema.fields, key))
    ensures Normal(m, value, schema) == Obj(out)
  {
    hide CoercesToString, LooksLikeObject, LooksLikeArray, FieldSchema;
    assert Normal(m, value, schema).fields == out;
  }

  /** The two loops over the elements of an array. */
  method NormalizeElements(m: Marshal, value: Json, schema: Json) returns (next: Json, changed: bool)
    requires RoleOf(schema) == Elements && value.Arr?
    ensures next == Normal(m, value, schema) && (changed <==> next != value)
    decreases value, 0
  {
    hide CoercesToString, LooksLikeObject, LooksLikeArray, Normal;
    var items := Get(schema.fields, "items");
    var arr := value.items;
    var out := [];
    changed := false;
    for i := 0 to |arr|
      invariant |out| == i
      invariant forall j :: 0 <= j < i ==> out[j] == Normal(m, arr[j], ItemSchema(items, j))
      invariant changed <==> exists j :: 0 <= j < i && out[j] != arr[j]
    {
      var item, itemChanged := arr[i], false;
      if items.Arr? && i >= |items.items| {
        Ungoverned(m, arr[i]);
      } else {
        item, itemChanged := Normalize(m, arr[i], ItemSchema(items, i));
      }
      ghost var before := out;
      out := out + [item];
      changed := changed || itemChanged;
      assert forall j :: 0 <= j < i ==> out[j] == before[j];
      assert out[i] == item;
    }
    ElementsNormal(m, value, schema, out);
    if changed {
      next := Arr(out);
    } else {
      next := value;
      assert out == arr;
    }
  }

  lemma ElementsNormal(m: Marshal, value: Json, schema: Json, out: seq<Json>)
    requires RoleOf(schema) == Elements && value.Arr? && |out| == |value.items|
    requires forall i :: 0 <= i < |out| ==>
      out[i] == Normal(m, value.items[i], ItemSchema(Get(schema.fields, "items"), i))
    ensures Normal(m, value, schema) == Arr(out)
  {
    hide CoercesToString, LooksLikeObject, LooksLikeArray;
    assert Normal(m, value, schema).items == out;
  }

  lemma Ungoverned(m: Marshal, value: Json)
    ensures Normal(m, value, Null) == value
  {
  }

  lemma NullIsNormal(m: Marshal, schema: Json)
    ensures Normal(m, Null, schema) == Null
  {
    hide CoercesToString, LooksLikeObject, LooksLikeArray;
  }

  lemma EmptyIsNormal(m: Marshal, value: Json, schema: Json)
    requires RoleOf(schema).Fields? || RoleOf(schema).Elements?
    requires RoleOf(schema).Fields? ==> !value.Obj? || value.fields == map[]
    requires RoleOf(schema).Elements? ==> !value.Arr? || value.items == []
    ensures Normal(m, value, schema) == value
  {
    hide CoercesToString, LooksLikeObject, LooksLikeArray;
    if RoleOf(schema).Fields? && value.Obj? {
      assert Normal(m, value, schema).fields == map[];
    }
  }

  lemma UngovernedElements(m: Marshal, value: Json, schema: Json)
    requires RoleOf(schema).Elements? && value.Arr? && Get(schema.fields, "items").Null?
    ensures Normal(m, value, schema) == value
  {
    hide CoercesToString, LooksLikeObject, LooksLikeArray;
    forall i | 0 <= i < |value.items| ensures Normal(m, value.items[i], Null) == value.items[i] {
      Ungoverned(m, value.items[i]);
    }
    assert Normal(m, value, schema).items == value.items;
  }

  // ---- what normalisation achieves

  /** Every string-only position ends as a string or null. */
  lemma {:induction false} NormalHolds(m: Marshal, value: Json, schema: Json)
    ensures StringsHold(Normal(m, value, schema), schema)
    decreases value
  {
    hide CoercesToString, LooksLikeObject, LooksLikeArray, FieldSchema;
    if RoleOf(schema) == Fields && value.Obj? {
      forall key | key in value.fields
        ensures StringsHold(Normal(m, value.fields[key], FieldSchema(schema.fields, key)),
          FieldSchema(schema.fields, key))
      {
        NormalHolds(m, value.fields[key], FieldSchema(schema.fields, key));
      }
    } else if RoleOf(schema) == Elements && value.Arr? {
      var items := Get(schema.fields, "items");
      forall i | 0 <= i < |value.items|
        ensures StringsHold(Normal(m, value.items[i], ItemSchema(items, i)), ItemSchema(items, i))
      {
        NormalHolds(m, value.items[i], ItemSchema(items, i));
      }
    }
  }

  /** Nothing changes exactly when every string-only position already holds a string or null. */
  lemma {:induction false} NormalIsIdentity(m: Marshal, value: Json, schema: Json)
    ensures Normal(m, value, schema) == value <==> StringsHold(value, schema)
    decreases value
  {
    hide CoercesToString, LooksLikeObject, LooksLikeArray, FieldSchema;
    var after := Normal(m, value, schema);
    if RoleOf(schema) == Fields && value.Obj? {
      forall key | key in value.fields
        ensures after.fields[key] == value.fields[key] <==>
          StringsHold(value.fields[key], FieldSchema(schema.fields, key))
      {
        NormalIsIdentity(m, value.fields[key], FieldSchema(schema.fields, key));
      }
      assert after == value <==> after.fields == value.fields;
    } else if RoleOf(schema) == Elements && value.Arr? {
      var items := Get(schema.fields, "items");
      forall i | 0 <= i < |value.items|
        ensures after.items[i] == value.items[i] <==> StringsHold(value.items[i], ItemSchema(items, i))
      {
        NormalIsIdentity(m, value.items[i], ItemSchema(items, i));
      }
      assert after == value <==> after.items == value.items;
    }
  }

  lemma NormalIdempotent(m: Marshal, value: Json, schema: Json)
    ensures Normal(m, Normal(m, value, schema), schema) == Normal(m, value, schema)
  {
    hide Normal, StringsHold;
    NormalHolds(m, value, schema);
    NormalIsIdentity(m, Normal(m, value, schema), schema);
  }

  /** Only string-only positions change; containers outside them keep their keys and lengths. */
  lemma {:induction false} ShapeKept(m: Marshal, value: Json, schema: Json)
    ensures SameShape(value, Normal(m, value, schema), schema)
    decreases value
  {
    hide CoercesToString, LooksLikeObject, LooksLikeArray, FieldSchema;
    if RoleOf(schema) == Fields && value.Obj? {
      forall key | key in value.fields
        ensures SameShape(value.fields[key], Normal(m, value.fields[key], FieldSchema(schema.fields, key)),
                          FieldSchema(schema.fields, key))
      {
        ShapeKept(m, value.fields[key], FieldSchema(schema.fields, key));
      }
    } else if RoleOf(schema) == Elements && value.Arr? {
      var items := Get(schema.fields, "items");
      forall i | 0 <= i < |value.items|
        ensures SameShape(value.items[i], Normal(m, value.items[i], ItemSchema(items, i)), ItemSchema(items, i))
      {
        ShapeKept(m, value.items[i], ItemSchema(items, i));
      }
    }
  }
}
