/** Normalising against the meaning that JSON Schema gives const, enum, type, properties, additionalProperties and
    items: values that a schema allows are left alone, and string-only schemas are those that allow only strings. */
module SchemaValidity {
  import opened Text
  import opened JsonValue
  import opened SchemaNormalize

  // ---- what a schema allows

  /** The instance types of section 6.1.1 of JSON Schema Validation. */
  predicate IsType(value: Json, name: string) {
    || (name == "string" && value.Str?) || (name == "null" && value.Null?) || (name == "boolean" && value.Bool?)
    || (name == "number" && value.Num?) || (name == "integer" && value.Num? && value.value == value.value.Floor as real)
    || (name == "object" && value.Obj?) || (name == "array" && value.Arr?)
  }

  predicate TypeAllows(t: Json, value: Json) {
    match t
    case Str(name) => IsType(value, name)
    case Arr(names) => exists i :: 0 <= i < |names| && names[i].Str? && IsType(value, names[i].s)
    case _ => true
  }

  /** The keywords that look at the value itself. */
  predicate Allows(f: map<string, Json>, value: Json) {
    && ("const" in f ==> value == f["const"])
    && (Get(f, "enum").Arr? ==> value in Get(f, "enum").items)
    && ("type" in f ==> TypeAllows(f["type"], value))
  }

  function PropertySchema(f: map<string, Json>, key: string): Json {
    if "properties" in f && f["properties"].Obj? && key in f["properties"].fields then f["properties"].fields[key]
    else if "additionalProperties" in f then f["additionalProperties"] else Null
  }

  /** A list of schemas under items goes by position and leaves further elements free. */
  function ElementSchema(f: map<string, Json>, i: nat): Json {
    if "items" !in f then Null
    else if !f["items"].Arr? then f["items"]
    else if i < |f["items"].items| then f["items"].items[i] else Null
  }

  /** The value is allowed; what is not a schema object allows everything. */
  predicate Valid(value: Json, schema: Json)
    decreases value
  {
    schema.Obj? ==>
      && Allows(schema.fields, value)
      && (value.Obj? ==> forall key :: key in value.fields ==>
            Valid(value.fields[key], PropertySchema(schema.fields, key)))
      && (value.Arr? ==> forall i :: 0 <= i < |value.items| ==>
            Valid(value.items[i], ElementSchema(schema.fields, i)))
  }

  // ---- names of types

  lemma PlainName(name: string)
    requires forall i :: 0 <= i < |name| ==> 'a' <= name[i] <= 'z'
    ensures Lower(Trim(name)) == name
  {
    if name != "" {
      assert !IsSpace(name[0]) && !IsSpace(name[|name| - 1]);
    }
    assert Trim(name) == name;
    assert Lower(name) == name;
  }

  lemma TypeNames(value: Json, name: string)
    requires IsType(value, name)
    ensures Lower(Trim(name)) == name
  {
    assert forall i :: 0 <= i < |name| ==> 'a' <= name[i] <= 'z';
    hide Trim, Lower;
    PlainName(name);
  }

  // ---- allowed values are left alone

  lemma TypeListAllows(values: seq<Json>, value: Json)
    requires OnlyStringLike(values) && TypeAllows(Arr(values), value)
    ensures value.Str? || value.Null?
  {
    hide Trim, Lower;
    var i :| 0 <= i < |values| && values[i].Str? && IsType(value, values[i].s);
    TypeNames(value, values[i].s);
  }

  /** What a string-only schema allows is a string or null. */
  lemma CoercedAllows(f: map<string, Json>, value: Json)
    requires CoercesToString(f) && Allows(f, value)
    ensures value.Str? || value.Null?
  {
    hide Trim, Lower, OnlyStringLike;
    if Get(f, "const").Str? {
      assert value == f["const"];
    } else if IsStringEnum(Get(f, "enum")) {
      assert value in Get(f, "enum").items;
    } else if Get(f, "type").Str? {
      TypeNames(value, Get(f, "type").s);
    } else {
      TypeListAllows(Get(f, "type").items, value);
    }
  }

  lemma SameProperty(f: map<string, Json>, key: string)
    ensures FieldSchema(f, key) == PropertySchema(f, key)
  {
  }

  lemma SameElement(f: map<string, Json>, i: nat)
    ensures ItemSchema(Get(f, "items"), i) == ElementSchema(f, i)
  {
  }

  lemma {:induction false} ValidHolds(value: Json, schema: Json)
    requires Valid(value, schema)
    ensures StringsHold(value, schema)
    decreases value
  {
    hide CoercesToString, LooksLikeObject, LooksLikeArray, Allows;
    hide FieldSchema, ItemSchema, PropertySchema, ElementSchema;
    match RoleOf(schema)
    case Untouched =>
    case Stringly => CoercedAllows(schema.fields, value);
    case Fields =>
      if value.Obj? {
        forall key | key in value.fields ensures StringsHold(value.fields[key], FieldSchema(schema.fields, key)) {
          SameProperty(schema.fields, key);
          ValidHolds(value.fields[key], PropertySchema(schema.fields, key));
        }
      }
    case Elements =>
      if value.Arr? {
        forall i | 0 <= i < |value.items|
          ensures StringsHold(value.items[i], ItemSchema(Get(schema.fields, "items"), i))
        {
          SameElement(schema.fields, i);
          ValidHolds(value.items[i], ElementSchema(schema.fields, i));
        }
      }
  }

  /** Arguments that their schema allows are never changed. */
  lemma ValidIsUntouched(m: Marshal, value: Json, schema: Json)
    requires Valid(value, schema)
    ensures Normal(m, value, schema) == value
  {
    ValidHolds(value, schema);
    NormalIsIdentity(m, value, schema);
  }

  // ---- which schemas are string-only

  /** The schema allows some string, and nothing but strings and null. */
  ghost predicate OnlyStrings(f: map<string, Json>) {
    && (exists x: string :: Allows(f, Str(x)))
    && forall v: Json :: Allows(f, v) ==> v.Str? || v.Null?
  }

  lemma ConstExactly(v: Json)
    ensures CoercesToString(map["const" := v]) <==> OnlyStrings(map["const" := v])
  {
    var f := map["const" := v];
    assert Get(f, "const") == v && Get(f, "enum") == Null && Get(f, "type") == Null;
    assert forall x: Json :: Allows(f, x) <==> x == v;
    if v.Str? {
      assert Allows(f, Str(v.s));
    }
  }

  /** For an enumeration null does not count as a string. */
  lemma EnumExactly(items: seq<Json>)
    requires items != []
    ensures CoercesToString(map["enum" := Arr(items)]) <==>
      forall v: Json :: Allows(map["enum" := Arr(items)], v) ==> v.Str?
  {
    var f := map["enum" := Arr(items)];
    assert Get(f, "const") == Null && Get(f, "enum") == Arr(items) && Get(f, "type") == Null;
    assert forall x: Json :: Allows(f, x) <==> x in items;
    if forall v: Json :: Allows(f, v) ==> v.Str? {
      forall i | 0 <= i < |items| ensures items[i].Str? {
        assert Allows(f, items[i]);
      }
    } else {
      var v :| Allows(f, v) && !v.Str?;
      assert v in items;
    }
  }

  predicate IsTypeName(name: string) {
    || name == "string" || name == "null" || name == "boolean" || name == "number" || name == "integer"
    || name == "object" || name == "array"
  }

  /** Some value of each type. */
  function Sample(name: string): (v: Json)
    requires IsTypeName(name)
    ensures IsType(v, name) && (v.Str? <==> name == "string") && (v.Null? <==> name == "null")
  {
    if name == "string" then Str("") else if name == "null" then Null else if name == "boolean" then Bool(true)
    else if name == "number" || name == "integer" then Num(0.0) else if name == "object" then Obj(map[]) else Arr([])
  }

  lemma TypeOnly(t: Json)
    ensures var f := map["type" := t];
      && Get(f, "const") == Null && Get(f, "enum") == Null && Get(f, "type") == t
      && forall v: Json :: Allows(f, v) <==> TypeAllows(t, v)
  {
  }

  lemma TypeExactly(name: string)
    requires IsTypeName(name)
    ensures CoercesToString(map["type" := Str(name)]) <==> OnlyStrings(map["type" := Str(name)])
  {
    var f, v := map["type" := Str(name)], Sample(name);
    TypeOnly(Str(name));
    TypeNames(v, name);
    hide Allows, Trim, Lower, Sample;
    assert Allows(f, v);
    if name == "string" {
      assert Allows(f, Str(""));
    } else {
      forall x: string ensures !Allows(f, Str(x)) {
      }
    }
  }

  lemma TypesExactly(names: seq<Json>)
    requires forall i :: 0 <= i < |names| ==> names[i].Str? && IsTypeName(names[i].s)
    ensures CoercesToString(map["type" := Arr(names)]) <==> OnlyStrings(map["type" := Arr(names)])
  {
    var f := map["type" := Arr(names)];
    TypeOnly(Arr(names));
    forall i | 0 <= i < |names| ensures Lower(Trim(names[i].s)) == names[i].s {
      TypeNames(Sample(names[i].s), names[i].s);
    }
    hide Allows, Trim, Lower, IsType, IsTypeName;
    if OnlyStringLike(names) {
      StringLikeAllows(f, names);
    } else if OnlyStrings(f) {
      AllowsStringLike(f, names);
      assert false;
    }
  }

  lemma StringLikeAllows(f: map<string, Json>, names: seq<Json>)
    requires OnlyStringLike(names) && forall v: Json :: Allows(f, v) <==> TypeAllows(Arr(names), v)
    requires forall i :: 0 <= i < |names| ==> names[i].Str? && Lower(Trim(names[i].s)) == names[i].s
    ensures OnlyStrings(f)
  {
    hide Allows, Trim, Lower;
    var i :| 0 <= i < |names| && names[i].Str? && Lower(Trim(names[i].s)) == "string";
    assert IsType(Str(""), names[i].s);
    assert Allows(f, Str(""));
    forall v: Json | Allows(f, v) ensures v.Str? || v.Null? {
      TypeListAllows(names, v);
    }
  }

  lemma AllowsStringLike(f: map<string, Json>, names: seq<Json>)
    requires OnlyStrings(f) && forall v: Json :: Allows(f, v) <==> TypeAllows(Arr(names), v)
    requires forall i :: 0 <= i < |names| ==>
      names[i].Str? && IsTypeName(names[i].s) && Lower(Trim(names[i].s)) == names[i].s
    ensures OnlyStringLike(names)
  {
    hide Allows, Trim, Lower, IsTypeName;
    forall i | 0 <= i < |names| ensures names[i].s == "string" || names[i].s == "null" {
      var v := Sample(names[i].s);
      assert TypeAllows(Arr(names), v);
      assert Allows(f, v);
    }
    var x: string :| Allows(f, Str(x));
    assert TypeAllows(Arr(names), Str(x));
    var i :| 0 <= i < |names| && names[i].Str? && IsType(Str(x), names[i].s);
    assert names[i].s == "string";
  }

  /** Each of the three keywords counts by itself. */
  lemma AnyKeyword(f: map<string, Json>)
    ensures CoercesToString(f) <==>
      || ("const" in f && CoercesToString(map["const" := f["const"]]))
      || ("enum" in f && CoercesToString(map["enum" := f["enum"]]))
      || ("type" in f && CoercesToString(map["type" := f["type"]]))
  {
    hide Trim, Lower, OnlyStringLike, IsStringEnum;
    assert !IsStringEnum(Null) by { NullEnum(); }
    forall v: Json ensures var g := map["const" := v];
      Get(g, "const") == v && Get(g, "enum") == Null && Get(g, "type") == Null {}
    forall v: Json ensures var g := map["enum" := v];
      Get(g, "const") == Null && Get(g, "enum") == v && Get(g, "type") == Null {}
    forall v: Json ensures var g := map["type" := v];
      Get(g, "const") == Null && Get(g, "enum") == Null && Get(g, "type") == v {}
  }

  lemma NullEnum()
    ensures !IsStringEnum(Null)
  {
  }

  // ---- where values become strings

  const STRING := Obj(map["type" := Str("string")])

  lemma StringSchema(m: Marshal, value: Json)
    requires !value.Null? && !value.Str?
    ensures Normal(m, value, STRING) == Str(m(value))
  {
    var f := map["type" := Str("string")];
    TypeExactly("string");
    assert Get(f, "type") == Str("string");
    PlainName("string");
    assert CoercesToString(f);
    assert "type" in f;
    hide CoercesToString, LooksLikeObject, LooksLikeArray;
    assert RoleOf(STRING) == Stringly;
  }

  /** A field that the schema says is a string, by name or for all others, becomes its JSON text. */
  lemma FieldBecomesString(m: Marshal, value: Json, f: map<string, Json>, key: string)
    requires !CoercesToString(f) && value.Obj? && key in value.fields && PropertySchema(f, key) == STRING
    requires !value.fields[key].Null? && !value.fields[key].Str?
    ensures var after := Normal(m, value, Obj(f));
      after.Obj? && key in after.fields && after.fields[key] == Str(m(value.fields[key]))
  {
    SameProperty(f, key);
    StringSchema(m, value.fields[key]);
    assert "properties" in f || "additionalProperties" in f;
    assert LooksLikeObject(f);
    hide CoercesToString, LooksLikeObject, LooksLikeArray, FieldSchema, PropertySchema;
    assert RoleOf(Obj(f)) == Fields;
  }

  /** And so does an element, where the schema is not about objects. */
  lemma ElementBecomesString(m: Marshal, value: Json, f: map<string, Json>, i: nat)
    requires !CoercesToString(f) && !LooksLikeObject(f) && value.Arr? && i < |value.items|
    requires ElementSchema(f, i) == STRING && !value.items[i].Null? && !value.items[i].Str?
    ensures var after := Normal(m, value, Obj(f));
      after.Arr? && |after.items| == |value.items| && after.items[i] == Str(m(value.items[i]))
  {
    SameElement(f, i);
    StringSchema(m, value.items[i]);
    assert "items" in f;
    assert LooksLikeArray(f);
    hide CoercesToString, LooksLikeObject, LooksLikeArray, ItemSchema, ElementSchema;
    assert RoleOf(Obj(f)) == Elements;
  }
}
