/** JSON values as JSON.parse returns them: finite numbers, own properties only. */
module Json {
  datatype Json =
    | JNull
    | JBool(b: bool)
    | JNum(n: real)
    | JStr(s: string)
    | JArr(items: seq<Json>)
    | JObj(fields: map<string, Json>)
}

/**
 JSON Schema 2020-12, the keywords the schema kit emits: type, enum and required
 (Validation, sections 6.1.1, 6.1.2 and 6.5.3), anyOf, items, properties and
 additionalProperties (Core, sections 10.2.1.2, 10.3.1.2, 10.3.2.1 and 10.3.2.3). A keyword
 constrains only the instance types it applies to.
 */
module JsonSchema {
  import opened Common
  import opened Json

  datatype Schema = Schema(
    typ: Option<string>,
    enumeration: Option<seq<string>>,
    anyOf: seq<Schema>, // empty when the keyword is absent
    items: Option<Schema>,
    properties: map<string, Schema>,
    required: seq<string>,
    additionalProperties: bool)

  const EMPTY_SCHEMA: Schema := Schema(None, None, [], None, map[], [], true)

  function TypeOf(v: Json): string {
    match v
    case JNull => "null"
    case JBool(_) => "boolean"
    case JNum(_) => "number"
    case JStr(_) => "string"
    case JArr(_) => "array"
    case JObj(_) => "object"
  }

  predicate Conforms(schema: Schema, v: Json)
    decreases schema
  {
    && (schema.typ.Some? ==> TypeOf(v) == schema.typ.value)
    && (schema.enumeration.Some? ==> v.JStr? && v.s in schema.enumeration.value)
    && (schema.anyOf != [] ==> exists i | 0 <= i < |schema.anyOf| :: Conforms(schema.anyOf[i], v))
    && (schema.items.Some? && v.JArr? ==>
          forall i | 0 <= i < |v.items| :: Conforms(schema.items.value, v.items[i]))
    && (v.JObj? ==>
          && (forall k | k in v.fields && k in schema.properties :: Conforms(schema.properties[k], v.fields[k]))
          && (forall k | k in schema.required :: k in v.fields)
          && (!schema.additionalProperties ==> v.fields.Keys <= schema.properties.Keys))
  }
}

/** The schema kit: one spec, from which both a JSON Schema and a validator are made. */
module SchemaKit {
  import opened Common
  import opened Decimal
  import opened Json
  import opened JsonSchema

  datatype Spec =
    | Str | Num | Bool
    | EnumOf(values: seq<string>)
    | Arr(item: Spec)
    | Nullable(inner: Spec)
    | Optional(inner: Spec)
    | Obj(shape: seq<Field>)

  datatype Field = Field(name: string, spec: Spec)

  datatype Problem = Expected(what: string, got: string) | NotOneOf(values: seq<string>) | Missing
  datatype Error = Error(path: string, problem: Problem)
  datatype Validated = Ok(value: Json) | Err(errors: seq<Error>)

  /** What one field of an object spec contributes. */
  datatype FieldResult = Skip | Keep(value: Json) | Complain(errors: seq<Error>)

  /** The keys of one object literal are distinct, and none is the prototype accessor. */
  predicate WellFormed(s: Spec) {
    match s
    case Arr(item) => WellFormed(item)
    case Nullable(inner) => WellFormed(inner)
    case Optional(inner) => WellFormed(inner)
    case Obj(shape) =>
      && (forall i, j | 0 <= i < j < |shape| :: shape[i].name != shape[j].name)
      && (forall i | 0 <= i < |shape| :: shape[i].name != "__proto__" && WellFormed(shape[i].spec))
    case _ => true
  }

  // ─── The emitted schema ─────────────────────────────────────────────────────

  function ToSchema(s: Spec): Schema {
    match s
    case Str => EMPTY_SCHEMA.(typ := Some("string"))
    case Num => EMPTY_SCHEMA.(typ := Some("number"))
    case Bool => EMPTY_SCHEMA.(typ := Some("boolean"))
    case EnumOf(values) => EMPTY_SCHEMA.(typ := Some("string"), enumeration := Some(values))
    case Arr(item) => EMPTY_SCHEMA.(typ := Some("array"), items := Some(ToSchema(item)))
    case Nullable(inner) => EMPTY_SCHEMA.(anyOf := [ToSchema(inner), EMPTY_SCHEMA.(typ := Some("null"))])
    case Optional(inner) => ToSchema(inner)
    case Obj(shape) =>
      EMPTY_SCHEMA.(typ := Some("object"), properties := Properties(shape), required := Required(shape),
             additionalProperties := false)
  }

  function Properties(shape: seq<Field>): map<string, Schema> {
    if shape == [] then map[]
    else Properties(shape[..|shape| - 1])[shape[|shape| - 1].name := ToSchema(shape[|shape| - 1].spec)]
  }

  function Required(shape: seq<Field>): seq<string> {
    if shape == [] then []
    else Required(shape[..|shape| - 1]) +
         (if shape[|shape| - 1].spec.Optional? then [] else [shape[|shape| - 1].name])
  }

  // ─── The validator ──────────────────────────────────────────────────────────

  /** What every object inherits from Object.prototype: `key in input` holds for these
      names although no JSON object has them, and the value found is a function. */
  const INHERITED: set<string> := {
    "constructor", "toString", "toLocaleString", "valueOf", "hasOwnProperty", "isPrototypeOf",
    "propertyIsEnumerable", "__defineGetter__", "__defineSetter__", "__lookupGetter__", "__lookupSetter__"
  }

  /** No spec accepts a function. */
  function RejectFunction(s: Spec): Problem {
    match s
    case Str => Expected("string", "function")
    case Num => Expected("number", "function")
    case Bool => Expected("boolean", "function")
    case EnumOf(values) => NotOneOf(values)
    case Arr(_) => Expected("array", "function")
    case Nullable(inner) => RejectFunction(inner)
    case Optional(inner) => RejectFunction(inner)
    case Obj(_) => Expected("object", "function")
  }

  function Wrong(path: string, what: string, v: Json): Validated {
    Err([Error(path, Expected(what, TypeOf(v)))])
  }

  function Validate(s: Spec, v: Json, path: string): Validated
    decreases s, 1, 0
  {
    match s
    case Str => if v.JStr? then Ok(v) else Wrong(path, "string", v)
    case Num => if v.JNum? then Ok(v) else Wrong(path, "number", v)
    case Bool => if v.JBool? then Ok(v) else Wrong(path, "boolean", v)
    case EnumOf(values) => if v.JStr? && v.s in values then Ok(v) else Err([Error(path, NotOneOf(values))])
    case Arr(item) =>
      if !v.JArr? then Wrong(path, "array", v)
      else
        var (out, errors) := Collect(ItemResults(item, v.items, path));
        if errors != [] then Err(errors) else Ok(JArr(out))
    case Nullable(inner) => if v.JNull? then Ok(JNull) else Validate(inner, v, path)
    case Optional(inner) => Validate(inner, v, path)
    case Obj(shape) =>
      if !v.JObj? then Wrong(path, "object", v)
      else
        var (out, errors) := ValidateFields(s, v.fields, path, |shape|);
        if errors != [] then Err(errors) else Ok(JObj(out))
  }

  function ItemPath(path: string, i: nat): string { path + "[" + ToDecimal(i) + "]" }

  function ItemResults(item: Spec, items: seq<Json>, path: string): (results: seq<Validated>)
    ensures |results| == |items|
    ensures forall i | 0 <= i < |items| :: results[i] == Validate(item, items[i], ItemPath(path, i))
    decreases item, 2, 0
  {
    seq(|items|, i requires 0 <= i < |items| => Validate(item, items[i], ItemPath(path, i)))
  }

  /** The accepted items, and every complaint. */
  function Collect(results: seq<Validated>): (seq<Json>, seq<Error>) {
    if results == [] then ([], [])
    else
      var (out, errors) := Collect(results[..|results| - 1]);
      match results[|results| - 1]
      case Ok(value) => (out + [value], errors)
      case Err(es) => (out, errors + es)
  }

  function At(path: string, key: string): string {
    if path == "" then key else path + "." + key
  }

  function ValidateField(f: Field, input: map<string, Json>, path: string): FieldResult
    decreases f.spec, 2, 0
  {
    if f.name !in input && f.name !in INHERITED then
      if f.spec.Optional? then Skip else Complain([Error(At(path, f.name), Missing)])
    else if f.name !in input then Complain([Error(At(path, f.name), RejectFunction(f.spec))])
    else
      match Validate(f.spec, input[f.name], At(path, f.name))
      case Ok(value) => Keep(value)
      case Err(es) => Complain(es)
  }

  /** The first n fields of an object spec. */
  function ValidateFields(s: Spec, input: map<string, Json>, path: string, n: nat): (map<string, Json>, seq<Error>)
    requires s.Obj? && n <= |s.shape|
    decreases s, 0, n
  {
    if n == 0 then (map[], [])
    else
      var (out, errors) := ValidateFields(s, input, path, n - 1);
      match ValidateField(s.shape[n - 1], input, path)
      case Skip => (out, errors)
      case Keep(value) => (out[s.shape[n - 1].name := value], errors)
      case Complain(es) => (out, errors + es)
  }

  /** The validator as the source runs it, with its loops. */
  method RunValidator(s: Spec, v: Json, path: string) returns (r: Validated)
    ensures r == Validate(s, v, path)
    decreases s
  {
    match s
    case Str => r := if v.JStr? then Ok(v) else Wrong(path, "string", v);
    case Num => r := if v.JNum? then Ok(v) else Wrong(path, "number", v);
    case Bool => r := if v.JBool? then Ok(v) else Wrong(path, "boolean", v);
    case EnumOf(values) => r := if v.JStr? && v.s in values then Ok(v) else Err([Error(path, NotOneOf(values))]);
    case Arr(item) =>
      if !v.JArr? { return Wrong(path, "array", v); }
      var out: seq<Json>, errors: seq<Error> := [], [];
      ghost var results := ItemResults(item, v.items, path);
      for i := 0 to |v.items|
        invariant (out, errors) == Collect(results[..i])
      {
        assert results[..i + 1][..i] == results[..i];
        var checked := RunValidator(item, v.items[i], ItemPath(path, i));
        if checked.Ok? { out := out + [checked.value]; } else { errors := errors + checked.errors; }
      }
      assert results[..|v.items|] == results;
      r := if errors != [] then Err(errors) else Ok(JArr(out));
    case Nullable(inner) =>
      if v.JNull? { return Ok(JNull); }
      r := RunValidator(inner, v, path);
    case Optional(inner) => r := RunValidator(inner, v, path);
    case Obj(shape) =>
      if !v.JObj? { return Wrong(path, "object", v); }
      var out: map<string, Json>, errors: seq<Error> := map[], [];
      for i := 0 to |shape|
        invariant (out, errors) == ValidateFields(s, v.fields, path, i)
      {
        var Field(key, spec) := shape[i];
        var at := At(path, key);
        if key !in v.fields && key !in INHERITED {
          if !spec.Optional? { errors := errors + [Error(at, Missing)]; }
        } else if key !in v.fields {
          errors := errors + [Error(at, RejectFunction(spec))];
        } else {
          var checked := RunValidator(spec, v.fields[key], at);
          if checked.Ok? { out := out[key := checked.value]; } else { errors := errors + checked.errors; }
        }
      }
      r := if errors != [] then Err(errors) else Ok(JObj(out));
  }

  // ─── Pruning ────────────────────────────────────────────────────────────────

  predicate Names(shape: seq<Field>, key: string) {
    exists i | 0 <= i < |shape| :: shape[i].name == key
  }

  function IndexOf(shape: seq<Field>, key: string): (i: nat)
    requires Names(shape, key)
    ensures i < |shape| && shape[i].name == key
  {
    if shape[|shape| - 1].name == key then |shape| - 1 else IndexOf(shape[..|shape| - 1], key)
  }

  /** v without the properties that the spec does not name, at every level. */
  function Prune(s: Spec, v: Json): Json
    decreases s
  {
    match s
    case Arr(item) =>
      if v.JArr? then JArr(seq(|v.items|, i requires 0 <= i < |v.items| => Prune(item, v.items[i]))) else v
    case Nullable(inner) => if v.JNull? then v else Prune(inner, v)
    case Optional(inner) => Prune(inner, v)
    case Obj(shape) =>
      if v.JObj? then
        JObj(map k | k in v.fields && Names(shape, k) :: Prune(shape[IndexOf(shape, k)].spec, v.fields[k]))
      else v
    case _ => v
  }

  /** No optional property that v leaves out bears an inherited name. */
  predicate Clean(s: Spec, v: Json)
    decreases s
  {
    match s
    case Arr(item) => v.JArr? ==> forall i | 0 <= i < |v.items| :: Clean(item, v.items[i])
    case Nullable(inner) => v.JNull? || Clean(inner, v)
    case Optional(inner) => Clean(inner, v)
    case Obj(shape) =>
      v.JObj? ==> forall i | 0 <= i < |shape| ::
        if shape[i].name in v.fields then Clean(shape[i].spec, v.fields[shape[i].name])
        else shape[i].spec.Optional? ==> shape[i].name !in INHERITED
    case _ => true
  }

  // ─── Agreement ──────────────────────────────────────────────────────────────

  predicate Requires(shape: seq<Field>, key: string) {
    exists i | 0 <= i < |shape| :: shape[i].name == key && !shape[i].spec.Optional?
  }

  /** Naming a key: the last field does, or one of those before it. */
  lemma LastNames(shape: seq<Field>, key: string)
    requires shape != []
    ensures
      var n := |shape| - 1;
      && (Names(shape, key) <==> Names(shape[..n], key) || shape[n].name == key)
      && (Requires(shape, key) <==> Requires(shape[..n], key) || (shape[n].name == key && !shape[n].spec.Optional?))
  {
    var n := |shape| - 1;
    assert forall i | 0 <= i < n :: shape[..n][i] == shape[i];
  }

  lemma {:induction false} RequiredAre(shape: seq<Field>)
    ensures forall k :: k in Required(shape) <==> Requires(shape, k)
  {
    if shape == [] {
    } else {
      RequiredAre(shape[..|shape| - 1]);
      forall k ensures k in Required(shape) <==> Requires(shape, k) {
        LastNames(shape, k);
      }
    }
  }

  lemma {:induction false} PropertiesAre(shape: seq<Field>)
    requires forall i, j | 0 <= i < j < |shape| :: shape[i].name != shape[j].name
    ensures forall k :: k in Properties(shape) <==> Names(shape, k)
    ensures forall i | 0 <= i < |shape| ::
              shape[i].name in Properties(shape) && Properties(shape)[shape[i].name] == ToSchema(shape[i].spec)
    ensures forall k :: k in Required(shape) <==> Requires(shape, k)
  {
    RequiredAre(shape);
    if shape == [] {
    } else {
      var n := |shape| - 1;
      var front := shape[..n];
      PropertiesAre(front);
      forall k ensures k in Properties(shape) <==> Names(shape, k) {
        LastNames(shape, k);
      }
      forall i | 0 <= i < |shape|
        ensures shape[i].name in Properties(shape) && Properties(shape)[shape[i].name] == ToSchema(shape[i].spec)
      {
        if i < n { assert front[i] == shape[i]; }
      }
    }
  }

  lemma PruneKeepsType(s: Spec, v: Json)
    ensures TypeOf(Prune(s, v)) == TypeOf(v)
    decreases s
  {
    match s
    case Nullable(inner) => PruneKeepsType(inner, v);
    case Optional(inner) => PruneKeepsType(inner, v);
    case _ =>
  }

  lemma {:induction false} CollectsAll(results: seq<Validated>)
    requires forall r | r in results && r.Err? :: r.errors != []
    ensures
      var (out, errors) := Collect(results);
      && (errors == [] <==> forall i | 0 <= i < |results| :: results[i].Ok?)
      && (errors == [] ==> |out| == |results| && forall i | 0 <= i < |results| :: out[i] == results[i].value)
  {
    if results == [] {
    } else {
      var n := |results| - 1;
      var front := results[..n];
      CollectsAll(front);
      assert results[n] in results;
      var (out, errors) := Collect(front);
      if Collect(results).1 == [] {
        assert errors == [] && results[n].Ok?;
        assert forall i | 0 <= i < n :: front[i] == results[i];
      }
      if forall i | 0 <= i < |results| :: results[i].Ok? {
        assert forall i | 0 <= i < n :: front[i] == results[i];
      }
    }
  }

  /** An array is accepted when its items are, and comes back as what they come back as. */
  lemma ArrayReturns(item: Spec, items: seq<Json>, path: string) returns (results: seq<Validated>)
    ensures |results| == |items| && forall i | 0 <= i < |items| :: results[i] == Validate(item, items[i], ItemPath(path, i))
    ensures
      var r := Validate(Arr(item), JArr(items), path);
      && (r.Ok? <==> forall i | 0 <= i < |items| :: results[i].Ok?)
      && (r.Ok? ==> r.value.JArr? && |r.value.items| == |items|)
      && (r.Ok? ==> forall i | 0 <= i < |items| :: r.value.items[i] == results[i].value)
  {
    results := ItemResults(item, items, path);
    forall r | r in results && r.Err? ensures r.errors != [] {
      var i :| 0 <= i < |results| && results[i] == r;
      ErrorsNonEmpty(item, items[i], ItemPath(path, i));
    }
    CollectsAll(results);
  }

  lemma ArrayValidates(item: Spec, items: seq<Json>, path: string)
    requires forall i | 0 <= i < |items| ::
      var r := Validate(item, items[i], ItemPath(path, i));
      && (r.Ok? <==> Clean(item, items[i]) && Conforms(ToSchema(item), Prune(item, items[i])))
      && (r.Ok? ==> r.value == Prune(item, items[i]))
    ensures
      var s, v := Arr(item), JArr(items);
      && (Validate(s, v, path).Ok? <==> Clean(s, v) && Conforms(ToSchema(s), Prune(s, v)))
      && (Validate(s, v, path).Ok? ==> Validate(s, v, path).value == Prune(s, v))
  {
    var results := ArrayReturns(item, items, path);
    ArrayConforms(item, items);
    var r := Validate(Arr(item), JArr(items), path);
    if r.Ok? {
      assert r.value.items == Prune(Arr(item), JArr(items)).items;
    }
  }

  lemma ArrayConforms(item: Spec, items: seq<Json>)
    ensures Clean(Arr(item), JArr(items)) && Conforms(ToSchema(Arr(item)), Prune(Arr(item), JArr(items))) <==>
              forall i | 0 <= i < |items| :: Clean(item, items[i]) && Conforms(ToSchema(item), Prune(item, items[i]))
  {
    var pruned := Prune(Arr(item), JArr(items)).items;
    ItemsConform(item, pruned);
    forall i | 0 <= i < |items| ensures pruned[i] == Prune(item, items[i]) {
    }
  }

  lemma ItemsConform(item: Spec, items: seq<Json>)
    ensures Conforms(ToSchema(Arr(item)), JArr(items)) <==> forall i | 0 <= i < |items| :: Conforms(ToSchema(item), items[i])
  {
  }

  lemma {:induction false} ErrorsNonEmpty(s: Spec, v: Json, path: string)
    ensures Validate(s, v, path).Err? ==> Validate(s, v, path).errors != []
    decreases s
  {
    match s
    case Nullable(inner) => ErrorsNonEmpty(inner, v, path);
    case Optional(inner) => ErrorsNonEmpty(inner, v, path);
    case _ =>
  }

  /** Field i of an object spec is satisfied by the input. */
  ghost predicate FieldAccepts(f: Field, input: map<string, Json>) {
    if f.name in input then Clean(f.spec, input[f.name]) && Conforms(ToSchema(f.spec), Prune(f.spec, input[f.name]))
    else f.spec.Optional? && f.name !in INHERITED
  }

  /** A field is in the output exactly when it was kept, with the value it was kept with. */
  ghost predicate FieldIs(f: Field, input: map<string, Json>, path: string, out: map<string, Json>) {
    if ValidateField(f, input, path).Keep?
    then f.name in out && out[f.name] == ValidateField(f, input, path).value
    else f.name !in out
  }

  /** The first n fields, validated: no complaint, and exactly the kept ones in the output. */
  ghost predicate FieldsAre(s: Spec, input: map<string, Json>, path: string, n: nat, out: map<string, Json>, errors: seq<Error>)
    requires s.Obj? && n <= |s.shape|
  {
    && (errors == [] <==> forall i | 0 <= i < n :: !ValidateField(s.shape[i], input, path).Complain?)
    && (forall k | k in out :: exists i | 0 <= i < n :: s.shape[i].name == k)
    && (forall i | 0 <= i < n :: FieldIs(s.shape[i], input, path, out))
  }

  lemma OthersStay(f: Field, key: string, value: Json, input: map<string, Json>, path: string, out: map<string, Json>)
    requires FieldIs(f, input, path, out) && f.name != key
    ensures FieldIs(f, input, path, out[key := value])
  {
  }

  lemma NextKept(s: Spec, input: map<string, Json>, path: string, n: nat, out: map<string, Json>, errors: seq<Error>, value: Json)
    requires s.Obj? && n < |s.shape| && FieldsAre(s, input, path, n, out, errors)
    requires forall i | 0 <= i < n :: s.shape[i].name != s.shape[n].name
    requires ValidateField(s.shape[n], input, path) == Keep(value)
    ensures FieldsAre(s, input, path, n + 1, out[s.shape[n].name := value], errors)
  {
    var out' := out[s.shape[n].name := value];
    forall i | 0 <= i < n + 1 ensures FieldIs(s.shape[i], input, path, out') {
      if i < n { OthersStay(s.shape[i], s.shape[n].name, value, input, path, out); }
    }
  }

  lemma NextDropped(s: Spec, input: map<string, Json>, path: string, n: nat, out: map<string, Json>, errors: seq<Error>, more: seq<Error>)
    requires s.Obj? && n < |s.shape| && FieldsAre(s, input, path, n, out, errors)
    requires forall i | 0 <= i < n :: s.shape[i].name != s.shape[n].name
    requires var r := ValidateField(s.shape[n], input, path); !r.Keep? && (r.Complain? <==> more != [])
    ensures FieldsAre(s, input, path, n + 1, out, errors + more)
  {
    assert s.shape[n].name !in out;
  }

  ghost predicate FieldsDone(s: Spec, input: map<string, Json>, path: string, n: nat)
    requires s.Obj? && n <= |s.shape|
  {
    var done := ValidateFields(s, input, path, n);
    FieldsAre(s, input, path, n, done.0, done.1)
  }

  lemma NextField(s: Spec, input: map<string, Json>, path: string, n: nat)
    requires s.Obj? && WellFormed(s) && n < |s.shape| && FieldsDone(s, input, path, n)
    ensures FieldsDone(s, input, path, n + 1)
  {
    var f := s.shape[n];
    if f.name in input { ErrorsNonEmpty(f.spec, input[f.name], At(path, f.name)); }
    var (out, errors) := ValidateFields(s, input, path, n);
    match ValidateField(f, input, path)
    case Skip =>
      NextDropped(s, input, path, n, out, errors, []);
      assert errors + [] == errors;
    case Keep(value) => NextKept(s, input, path, n, out, errors, value);
    case Complain(es) => NextDropped(s, input, path, n, out, errors, es);
  }

  lemma NoFields(s: Spec, input: map<string, Json>, path: string)
    requires s.Obj?
    ensures FieldsDone(s, input, path, 0)
  {
  }

  lemma {:induction false} FieldsValidate(s: Spec, input: map<string, Json>, path: string, n: nat)
    requires s.Obj? && WellFormed(s) && n <= |s.shape|
    ensures FieldsDone(s, input, path, n)
  {
    if n == 0 {
      NoFields(s, input, path);
    } else {
      FieldsValidate(s, input, path, n - 1);
      NextField(s, input, path, n - 1);
    }
  }

  lemma FieldValidates(f: Field, input: map<string, Json>, path: string)
    requires WellFormed(f.spec)
    ensures !ValidateField(f, input, path).Complain? <==> FieldAccepts(f, input)
    ensures ValidateField(f, input, path).Keep? ==>
              f.name in input && ValidateField(f, input, path).value == Prune(f.spec, input[f.name])
    ensures FieldAccepts(f, input) && f.name in input ==> ValidateField(f, input, path).Keep?
    decreases f.spec, 2, 0
  {
    if f.name in input { ValidatorAccepts(f.spec, input[f.name], At(path, f.name)); }
  }

  lemma IndexUnique(shape: seq<Field>, i: nat)
    requires i < |shape| && forall a, b | 0 <= a < b < |shape| :: shape[a].name != shape[b].name
    ensures Names(shape, shape[i].name) && IndexOf(shape, shape[i].name) == i
  {
  }

  lemma PrunedFields(s: Spec, input: map<string, Json>)
    requires s.Obj? && WellFormed(s)
    ensures
      var pruned := Prune(s, JObj(input)).fields;
      && (forall k | k in pruned :: k in input && Names(s.shape, k))
      && (forall i | 0 <= i < |s.shape| ::
            if s.shape[i].name in input
            then s.shape[i].name in pruned && pruned[s.shape[i].name] == Prune(s.shape[i].spec, input[s.shape[i].name])
            else s.shape[i].name !in pruned)
  {
    forall i | 0 <= i < |s.shape| && s.shape[i].name in input
      ensures s.shape[i].name in Prune(s, JObj(input)).fields
      ensures Prune(s, JObj(input)).fields[s.shape[i].name] == Prune(s.shape[i].spec, input[s.shape[i].name])
    {
      IndexUnique(s.shape, i);
    }
  }

  /** An object conforms to the emitted schema after pruning exactly when each field does. */
  lemma ObjectConforms(s: Spec, input: map<string, Json>)
    requires s.Obj? && WellFormed(s)
    ensures Clean(s, JObj(input)) && Conforms(ToSchema(s), Prune(s, JObj(input))) <==>
              forall i | 0 <= i < |s.shape| :: FieldAccepts(s.shape[i], input)
  {
    var pruned := Prune(s, JObj(input)).fields;
    PropertiesAre(s.shape);
    PrunedFields(s, input);
    if Clean(s, JObj(input)) && Conforms(ToSchema(s), JObj(pruned)) {
      EachFieldAccepts(s, input, pruned);
    }
    if forall i | 0 <= i < |s.shape| :: FieldAccepts(s.shape[i], input) {
      AcceptedConforms(s, input, pruned);
    }
  }

  lemma AcceptedConforms(s: Spec, input: map<string, Json>, pruned: map<string, Json>)
    requires s.Obj? && WellFormed(s) && JObj(pruned) == Prune(s, JObj(input))
    requires forall i | 0 <= i < |s.shape| :: FieldAccepts(s.shape[i], input)
    ensures Clean(s, JObj(input)) && Conforms(ToSchema(s), JObj(pruned))
  {
    forall k | k in pruned ensures k in Properties(s.shape) && Conforms(Properties(s.shape)[k], pruned[k]) {
      AcceptedProperty(s, input, pruned, k);
    }
    forall k | k in Required(s.shape) ensures k in pruned {
      AcceptedRequired(s, input, pruned, k);
    }
  }

  lemma AcceptedRequired(s: Spec, input: map<string, Json>, pruned: map<string, Json>, k: string)
    requires s.Obj? && WellFormed(s) && JObj(pruned) == Prune(s, JObj(input)) && k in Required(s.shape)
    requires forall i | 0 <= i < |s.shape| :: FieldAccepts(s.shape[i], input)
    ensures k in pruned
  {
    PropertiesAre(s.shape);
    PrunedFields(s, input);
    var i :| 0 <= i < |s.shape| && s.shape[i].name == k && !s.shape[i].spec.Optional?;
    assert FieldAccepts(s.shape[i], input);
  }

  lemma AcceptedProperty(s: Spec, input: map<string, Json>, pruned: map<string, Json>, k: string)
    requires s.Obj? && WellFormed(s) && JObj(pruned) == Prune(s, JObj(input)) && k in pruned
    requires forall i | 0 <= i < |s.shape| :: FieldAccepts(s.shape[i], input)
    ensures k in Properties(s.shape) && Conforms(Properties(s.shape)[k], pruned[k])
  {
    PropertiesAre(s.shape);
    PrunedFields(s, input);
    var i :| 0 <= i < |s.shape| && s.shape[i].name == k;
    assert FieldAccepts(s.shape[i], input);
  }

  lemma EachFieldAccepts(s: Spec, input: map<string, Json>, pruned: map<string, Json>)
    requires s.Obj? && WellFormed(s) && Clean(s, JObj(input))
    requires JObj(pruned) == Prune(s, JObj(input)) && Conforms(ToSchema(s), JObj(pruned))
    ensures forall i | 0 <= i < |s.shape| :: FieldAccepts(s.shape[i], input)
  {
    PropertiesAre(s.shape);
    PrunedFields(s, input);
    forall i | 0 <= i < |s.shape| ensures FieldAccepts(s.shape[i], input) {
      var name := s.shape[i].name;
      if name in input {
        assert name in pruned && name in Properties(s.shape);
      }
    }
  }

  lemma ObjectValidates(s: Spec, input: map<string, Json>, path: string)
    requires s.Obj? && WellFormed(s)
    requires forall f | f in s.shape ::
      && (!ValidateField(f, input, path).Complain? <==> FieldAccepts(f, input))
      && (ValidateField(f, input, path).Keep? ==>
            f.name in input && ValidateField(f, input, path).value == Prune(f.spec, input[f.name]))
      && (FieldAccepts(f, input) && f.name in input ==> ValidateField(f, input, path).Keep?)
    ensures
      var (out, errors) := ValidateFields(s, input, path, |s.shape|);
      && (errors == [] <==> Clean(s, JObj(input)) && Conforms(ToSchema(s), Prune(s, JObj(input))))
      && (errors == [] ==> JObj(out) == Prune(s, JObj(input)))
  {
    FieldsValidate(s, input, path, |s.shape|);
    ObjectConforms(s, input);
    var (out, errors) := ValidateFields(s, input, path, |s.shape|);
    assert forall i | 0 <= i < |s.shape| :: s.shape[i] in s.shape;
    if errors == [] {
      assert forall i | 0 <= i < |s.shape| :: FieldAccepts(s.shape[i], input);
      ObjectReturns(s, input, path, out);
    }
  }

  lemma ObjectReturns(s: Spec, input: map<string, Json>, path: string, out: map<string, Json>)
    requires s.Obj? && WellFormed(s)
    requires forall k | k in out :: exists i | 0 <= i < |s.shape| :: s.shape[i].name == k
    requires forall i | 0 <= i < |s.shape| ::
               if s.shape[i].name in input
               then s.shape[i].name in out && out[s.shape[i].name] == Prune(s.shape[i].spec, input[s.shape[i].name])
               else s.shape[i].name !in out
    ensures JObj(out) == Prune(s, JObj(input))
  {
    PrunedFields(s, input);
    SameNamed(s.shape, out, Prune(s, JObj(input)).fields);
  }

  /** Two objects with the fields of one shape, agreeing on each, are equal. */
  lemma SameNamed(shape: seq<Field>, a: map<string, Json>, b: map<string, Json>)
    requires (forall k | k in a :: Names(shape, k)) && (forall k | k in b :: Names(shape, k))
    requires forall i | 0 <= i < |shape| ::
               (shape[i].name in a <==> shape[i].name in b) && (shape[i].name in a ==> a[shape[i].name] == b[shape[i].name])
    ensures a == b
  {
    forall k ensures (k in a <==> k in b) && (k in a ==> a[k] == b[k]) {
      if k in a || k in b { var i :| 0 <= i < |shape| && shape[i].name == k; }
    }
  }

  /** What the validator accepts, and what it returns: it accepts v exactly when v without
      its unknown properties conforms to the emitted schema and v leaves out no optional
      property with an inherited name, and the value it returns is that pruned v. */
  lemma {:induction false} ValidatorAccepts(s: Spec, v: Json, path: string)
    requires WellFormed(s)
    ensures Validate(s, v, path).Ok? <==> Clean(s, v) && Conforms(ToSchema(s), Prune(s, v))
    ensures Validate(s, v, path).Ok? ==> Validate(s, v, path).value == Prune(s, v)
    decreases s, 1, 0
  {
    match s
    case Arr(item) =>
      if v.JArr? { ItemsAccepted(item, v.items, path); }
    case Nullable(inner) => NullableAccepted(inner, v, path);
    case Optional(inner) => ValidatorAccepts(inner, v, path);
    case Obj(shape) =>
      if v.JObj? { FieldsAccepted(s, v.fields, path); }
    case _ => LeafAccepted(s, v, path);
  }

  lemma LeafAccepted(s: Spec, v: Json, path: string)
    requires s.Str? || s.Num? || s.Bool? || s.EnumOf?
    ensures Validate(s, v, path).Ok? <==> Clean(s, v) && Conforms(ToSchema(s), Prune(s, v))
    ensures Validate(s, v, path).Ok? ==> Validate(s, v, path).value == Prune(s, v)
  {
  }

  lemma NullableAccepted(inner: Spec, v: Json, path: string)
    requires WellFormed(inner)
    ensures Validate(Nullable(inner), v, path).Ok?
            <==> Clean(Nullable(inner), v) && Conforms(ToSchema(Nullable(inner)), Prune(Nullable(inner), v))
    ensures Validate(Nullable(inner), v, path).Ok? ==> Validate(Nullable(inner), v, path).value == Prune(Nullable(inner), v)
    decreases inner, 2, 0
  {
    if v.JNull? {
      NullableConforms(inner, v);
    } else {
      ValidatorAccepts(inner, v, path);
      PruneKeepsType(inner, v);
      NullableConforms(inner, Prune(inner, v));
    }
  }

  lemma ItemsAccepted(item: Spec, items: seq<Json>, path: string)
    requires WellFormed(item)
    ensures Validate(Arr(item), JArr(items), path).Ok?
            <==> Clean(Arr(item), JArr(items)) && Conforms(ToSchema(Arr(item)), Prune(Arr(item), JArr(items)))
    ensures Validate(Arr(item), JArr(items), path).Ok?
            ==> Validate(Arr(item), JArr(items), path).value == Prune(Arr(item), JArr(items))
    decreases item, 2, 0
  {
    forall i | 0 <= i < |items|
      ensures Validate(item, items[i], ItemPath(path, i)).Ok? <==> Clean(item, items[i]) && Conforms(ToSchema(item), Prune(item, items[i]))
      ensures Validate(item, items[i], ItemPath(path, i)).Ok? ==> Validate(item, items[i], ItemPath(path, i)).value == Prune(item, items[i])
    {
      ValidatorAccepts(item, items[i], ItemPath(path, i));
    }
    ArrayValidates(item, items, path);
  }

  lemma FieldsAccepted(s: Spec, input: map<string, Json>, path: string)
    requires s.Obj? && WellFormed(s)
    ensures Validate(s, JObj(input), path).Ok? <==> Clean(s, JObj(input)) && Conforms(ToSchema(s), Prune(s, JObj(input)))
    ensures Validate(s, JObj(input), path).Ok? ==> Validate(s, JObj(input), path).value == Prune(s, JObj(input))
    decreases s, 0, 0
  {
    forall f | f in s.shape
      ensures !ValidateField(f, input, path).Complain? <==> FieldAccepts(f, input)
      ensures ValidateField(f, input, path).Keep? ==>
          f.name in input && ValidateField(f, input, path).value == Prune(f.spec, input[f.name])
      ensures FieldAccepts(f, input) && f.name in input ==> ValidateField(f, input, path).Keep?
    {
      FieldValidates(f, input, path);
    }
    ObjectValidates(s, input, path);
  }

  lemma NullableConforms(inner: Spec, v: Json)
    ensures Conforms(ToSchema(Nullable(inner)), v) <==> Conforms(ToSchema(inner), v) || v.JNull?
  {
    var schema := ToSchema(Nullable(inner));
    assert schema.anyOf[0] == ToSchema(inner) && schema.anyOf[1] == EMPTY_SCHEMA.(typ := Some("null"));
  }

  /** A conforming value has nothing to prune. */
  lemma {:induction false} ConformingIsPruned(s: Spec, v: Json)
    requires WellFormed(s) && Conforms(ToSchema(s), v)
    ensures Prune(s, v) == v
    decreases s
  {
    match s
    case Arr(item) =>
      forall i | 0 <= i < |v.items| ensures Prune(item, v.items[i]) == v.items[i] {
        ConformingIsPruned(item, v.items[i]);
      }
      assert Prune(s, v).items == v.items;
    case Nullable(inner) =>
      NullableConforms(inner, v);
      if !v.JNull? { ConformingIsPruned(inner, v); }
    case Optional(inner) => ConformingIsPruned(inner, v);
    case Obj(shape) =>
      PropertiesAre(shape);
      forall k | k in v.fields ensures Names(shape, k) && Prune(shape[IndexOf(shape, k)].spec, v.fields[k]) == v.fields[k] {
        ConformingIsPruned(shape[IndexOf(shape, k)].spec, v.fields[k]);
      }
      NothingPruned(s, v.fields);
    case _ =>
  }

  lemma NothingPruned(s: Spec, input: map<string, Json>)
    requires s.Obj?
    requires forall k | k in input :: Names(s.shape, k) && Prune(s.shape[IndexOf(s.shape, k)].spec, input[k]) == input[k]
    ensures Prune(s, JObj(input)) == JObj(input)
  {
    assert Prune(s, JObj(input)).fields == input;
  }

  lemma {:induction false} PrunedStaysClean(s: Spec, v: Json)
    requires WellFormed(s) && Clean(s, v)
    ensures Clean(s, Prune(s, v))
    decreases s
  {
    match s
    case Arr(item) =>
      if v.JArr? {
        forall i | 0 <= i < |v.items| ensures Clean(item, Prune(s, v).items[i]) { PrunedStaysClean(item, v.items[i]); }
      }
    case Nullable(inner) => if !v.JNull? { PrunedStaysClean(inner, v); }
    case Optional(inner) => PrunedStaysClean(inner, v);
    case Obj(shape) =>
      if v.JObj? {
        forall i | 0 <= i < |shape| && shape[i].name in v.fields
          ensures Clean(shape[i].spec, Prune(s, v).fields[shape[i].name])
        {
          IndexUnique(shape, i);
          PrunedStaysClean(shape[i].spec, v.fields[shape[i].name]);
        }
      }
    case _ =>
  }

  /** The two artifacts of one spec agree, for every spec and every value. What the
      validator accepts comes back conforming to the schema and validates to itself; and a
      value validates to itself exactly when it conforms and leaves out no optional property
      with an inherited name. */
  lemma SchemaAndValidatorAgree(s: Spec, v: Json, path: string, path': string)
    requires WellFormed(s)
    ensures
      var r := Validate(s, v, path);
      r.Ok? ==> Conforms(ToSchema(s), r.value) && Validate(s, r.value, path') == Ok(r.value)
    ensures Validate(s, v, path) == Ok(v) <==> Conforms(ToSchema(s), v) && Clean(s, v)
  {
    ValidatorAccepts(s, v, path);
    if Validate(s, v, path).Ok? { AcceptedRevalidates(s, v, path, path'); }
    if Conforms(ToSchema(s), v) && Clean(s, v) {
      ConformingIsPruned(s, v);
    }
  }

  lemma AcceptedRevalidates(s: Spec, v: Json, path: string, path': string)
    requires WellFormed(s) && Validate(s, v, path).Ok?
    ensures Validate(s, Validate(s, v, path).value, path') == Ok(Validate(s, v, path).value)
  {
    var w := Prune(s, v);
    ValidatorAccepts(s, v, path);
    ConformingIsPruned(s, w);
    PrunedStaysClean(s, v);
    ValidatorAccepts(s, w, path');
  }

  /** Agreement is not unconditional: `{}` conforms to an object schema whose only property
      is an optional `constructor`, yet the validator rejects it. */
  lemma InheritedNameDisagrees(inner: Spec, path: string)
    requires WellFormed(inner)
    ensures
      var s := Obj([Field("constructor", Optional(inner))]);
      Conforms(ToSchema(s), JObj(map[])) && Validate(s, JObj(map[]), path).Err?
  {
    var s := Obj([Field("constructor", Optional(inner))]);
    var v := JObj(map[]);
    PropertiesAre(s.shape);
    assert "constructor" in INHERITED;
    assert !Clean(s, v) by { assert s.shape[0].name !in v.fields && s.shape[0].name in INHERITED; }
    ValidatorAccepts(s, v, path);
  }

  /** A spec none of whose optional properties bears an inherited name. */
  predicate Safe(s: Spec) {
    match s
    case Arr(item) => Safe(item)
    case Nullable(inner) => Safe(inner)
    case Optional(inner) => Safe(inner)
    case Obj(shape) =>
      forall i | 0 <= i < |shape| ::
        Safe(shape[i].spec) && (shape[i].spec.Optional? ==> shape[i].name !in INHERITED)
    case _ => true
  }

  /** For such a spec the condition on values disappears. */
  lemma {:induction false} SafeIsClean(s: Spec, v: Json)
    requires Safe(s)
    ensures Clean(s, v)
    decreases s
  {
    match s
    case Arr(item) =>
      if v.JArr? { forall i | 0 <= i < |v.items| ensures Clean(item, v.items[i]) { SafeIsClean(item, v.items[i]); } }
    case Nullable(inner) => SafeIsClean(inner, v);
    case Optional(inner) => SafeIsClean(inner, v);
    case Obj(shape) =>
      if v.JObj? {
        forall i | 0 <= i < |shape| && shape[i].name in v.fields
          ensures Clean(shape[i].spec, v.fields[shape[i].name])
        {
          SafeIsClean(shape[i].spec, v.fields[shape[i].name]);
        }
      }
    case _ =>
  }

  // ─── Which specs agree ──────────────────────────────────────────────────────

  /** Every enumeration has a value to choose. */
  predicate Inhabited(s: Spec) {
    match s
    case EnumOf(values) => values != []
    case Arr(item) => Inhabited(item)
    case Nullable(inner) => Inhabited(inner)
    case Optional(inner) => Inhabited(inner)
    case Obj(shape) => forall i | 0 <= i < |shape| :: Inhabited(shape[i].spec)
    case _ => true
  }

  function FirstNames(shape: seq<Field>, n: nat): set<string>
    requires n <= |shape|
  {
    set i | 0 <= i < n :: shape[i].name
  }

  /** The field is there and conforms, or may be left out. */
  ghost predicate FieldFits(f: Field, fields: map<string, Json>) {
    if f.name in fields then Conforms(ToSchema(f.spec), fields[f.name]) else f.spec.Optional?
  }

  /** All fields there are among the first n, and each of these fits. */
  ghost predicate Filled(shape: seq<Field>, n: nat, fields: map<string, Json>)
    requires n <= |shape|
  {
    && (forall k | k in fields :: k in FirstNames(shape, n))
    && (forall i | 0 <= i < n :: FieldFits(shape[i], fields))
  }

  lemma FilledConforms(s: Spec, fields: map<string, Json>)
    requires s.Obj? && WellFormed(s) && Filled(s.shape, |s.shape|, fields)
    ensures Conforms(ToSchema(s), JObj(fields))
  {
    PropertiesAre(s.shape);
    forall k | k in fields ensures k in Properties(s.shape) && Conforms(Properties(s.shape)[k], fields[k]) {
      var i :| 0 <= i < |s.shape| && s.shape[i].name == k;
      assert FieldFits(s.shape[i], fields);
    }
    forall k | k in Required(s.shape) ensures k in fields {
      var i :| 0 <= i < |s.shape| && s.shape[i].name == k && !s.shape[i].spec.Optional?;
      assert FieldFits(s.shape[i], fields);
    }
  }

  /** Something conforms to the schema; of an object, the required fields are enough. */
  lemma {:induction false} Sample(s: Spec) returns (v: Json)
    requires WellFormed(s) && Inhabited(s)
    ensures Conforms(ToSchema(s), v)
    decreases s, 1
  {
    match s
    case Str => v := JStr("");
    case Num => v := JNum(0.0);
    case Bool => v := JBool(false);
    case EnumOf(values) => v := JStr(values[0]);
    case Arr(_) => v := JArr([]);
    case Nullable(inner) => v := JNull; NullableConforms(inner, v);
    case Optional(inner) => v := Sample(inner);
    case Obj(shape) =>
      var fields := RequiredOnly(s);
      v := JObj(fields);
      FilledConforms(s, fields);
  }

  /** The required ones of the first n fields are there, and nothing else. */
  ghost predicate OnlyRequired(shape: seq<Field>, n: nat, fields: map<string, Json>)
    requires n <= |shape|
  {
    && Filled(shape, n, fields)
    && forall i | 0 <= i < n && shape[i].spec.Optional? :: shape[i].name !in fields
  }

  lemma FillNext(shape: seq<Field>, n: nat, fields: map<string, Json>, v: Json)
    requires n < |shape| && OnlyRequired(shape, n, fields) && Conforms(ToSchema(shape[n].spec), v)
    requires forall i | 0 <= i < n :: shape[i].name != shape[n].name
    ensures OnlyRequired(shape, n + 1, if shape[n].spec.Optional? then fields else fields[shape[n].name := v])
  {
    assert FirstNames(shape, n + 1) == FirstNames(shape, n) + {shape[n].name};
    var more := if shape[n].spec.Optional? then fields else fields[shape[n].name := v];
    assert shape[n].name !in FirstNames(shape, n);
    forall i | 0 <= i < n + 1 ensures FieldFits(shape[i], more) {
      if i < n { assert FieldFits(shape[i], fields); }
    }
  }

  lemma {:induction false} RequiredOnly(s: Spec) returns (fields: map<string, Json>)
    requires s.Obj? && WellFormed(s) && Inhabited(s)
    ensures OnlyRequired(s.shape, |s.shape|, fields)
    decreases s, 0
  {
    fields := map[];
    for n := 0 to |s.shape|
      invariant OnlyRequired(s.shape, n, fields)
    {
      var v := Sample(s.shape[n].spec);
      FillNext(s.shape, n, fields, v);
      if !s.shape[n].spec.Optional? { fields := fields[s.shape[n].name := v]; }
    }
  }

  lemma UncleanAt(s: Spec, fields: map<string, Json>, i: nat)
    requires s.Obj? && i < |s.shape|
    requires var f := s.shape[i];
             if f.name in fields then !Clean(f.spec, fields[f.name]) else f.spec.Optional? && f.name in INHERITED
    ensures !Clean(s, JObj(fields))
  {
  }

  lemma UncleanItem(item: Spec, w: Json)
    requires Conforms(ToSchema(item), w) && !Clean(item, w)
    ensures Conforms(ToSchema(Arr(item)), JArr([w])) && !Clean(Arr(item), JArr([w]))
  {
    ItemsConform(item, [w]);
    assert JArr([w]).items[0] == w;
  }

  /** A spec that is not safe has a conforming value that the validator rejects. */
  lemma {:induction false} Disagrees(s: Spec) returns (v: Json)
    requires WellFormed(s) && Inhabited(s) && !Safe(s)
    ensures Conforms(ToSchema(s), v) && !Clean(s, v) && !v.JNull?
    decreases s, 1
  {
    match s
    case Arr(item) =>
      var w := Disagrees(item);
      v := JArr([w]);
      UncleanItem(item, w);
    case Nullable(inner) =>
      v := Disagrees(inner);
      NullableConforms(inner, v);
    case Optional(inner) => v := Disagrees(inner);
    case Obj(_) => v := ObjectDisagrees(s);
  }

  lemma {:induction false} ObjectDisagrees(s: Spec) returns (v: Json)
    requires WellFormed(s) && Inhabited(s) && s.Obj? && !Safe(s)
    ensures Conforms(ToSchema(s), v) && !Clean(s, v) && v.JObj?
    decreases s, 0
  {
    var shape := s.shape;
    var fields := RequiredOnly(s);
    var i :| 0 <= i < |shape| && !(Safe(shape[i].spec) && (shape[i].spec.Optional? ==> shape[i].name !in INHERITED));
    if !Safe(shape[i].spec) {
      var w := Disagrees(shape[i].spec);
      fields := fields[shape[i].name := w];
    }
    v := JObj(fields);
    FilledConforms(s, fields);
    UncleanAt(s, fields, i);
  }

  /** A validator accepts, unchanged, every value that conforms to the schema sent to the model
      exactly when no optional property of its spec, at any depth, bears an inherited name. */
  lemma AgreesExactlyWhenSafe(s: Spec, path: string)
    requires WellFormed(s) && Inhabited(s)
    ensures Safe(s) <==> forall v | Conforms(ToSchema(s), v) :: Validate(s, v, path) == Ok(v)
  {
    if Safe(s) {
      forall v | Conforms(ToSchema(s), v) ensures Validate(s, v, path) == Ok(v) {
        SafeIsClean(s, v);
        SchemaAndValidatorAgree(s, v, path, path);
      }
    } else {
      var v := Disagrees(s);
      SchemaAndValidatorAgree(s, v, path, path);
    }
  }
}
