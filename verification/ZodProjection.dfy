/**
 * The Anthropic and Codex adapters' projection of a tool's JSON Schema into a Zod type, the validator
 * that runs before the authoritative one. Zod reads a missing property as `undefined` (None here) and
 * drops the unknown keys of an object it accepts.
 */
module ZodProjection {
  import opened Options
  import opened Json
  import opened SchemaSemantics

  datatype Zod =
    | ZUnknown
    | ZString
    | ZNumber
    | ZInteger
    | ZBoolean
    | ZNull
    | ZLiteral(value: Json)
    | ZEnum(values: seq<Text>)
    | ZUnion(options: seq<Json>)
    | ZArray(element: Zod)
    | ZRecord
    | ZObject(shape: map<Text, Zod>)
    | ZOptional(inner: Zod)

  // ----- Zod's own semantics -----------------------------------------------------------------------

  predicate Accepts(z: Zod, v: Option<Json>)
    decreases z
  {
    match z
    case ZUnknown => true
    case ZString => v.Some? && v.value.Str?
    case ZNumber => v.Some? && v.value.Num?
    case ZInteger => v.Some? && HasType(Fixed(IntegerType), v.value)
    case ZBoolean => v.Some? && v.value.Bool?
    case ZNull => v == Some(Null)
    case ZLiteral(j) => v == Some(j)
    case ZEnum(values) => v.Some? && v.value.Str? && v.value.s in values
    case ZUnion(options) => v.Some? && v.value in options
    case ZArray(e) => v.Some? && v.value.Arr? && forall i | 0 <= i < |v.value.elems| :: Accepts(e, Some(v.value.elems[i]))
    case ZRecord => v.Some? && v.value.Obj?
    case ZObject(shape) => v.Some? && v.value.Obj? && forall k | k in shape :: Accepts(shape[k], Get(v.value.fields, k))
    case ZOptional(inner) => v.None? || Accepts(inner, v)
  }

  /** What parsing an accepted value hands on: objects lose the keys their shape does not name. */
  function Parsed(z: Zod, v: Json): Json
    decreases z
  {
    match z
    case ZArray(e) =>
      if v.Arr? then Arr(seq(|v.elems|, i requires 0 <= i < |v.elems| => Parsed(e, v.elems[i]))) else v
    case ZObject(shape) =>
      if v.Obj? then Obj(map k | k in shape && k in v.fields :: Parsed(shape[k], v.fields[k])) else v
    case ZOptional(inner) => Parsed(inner, v)
    case _ => v
  }

  // ----- the projection -------------------------------------------------------------------------------

  predicate AllStrings(values: seq<Json>) {
    forall i | 0 <= i < |values| :: values[i].Str?
  }

  /** A non-empty `enum`: string members, other primitive members, or members no literal can carry. */
  function EnumToZod(values: seq<Json>): Zod
    requires values != []
  {
    if AllStrings(values) then
      if |values| == 1 then ZLiteral(values[0])
      else ZEnum(seq(|values|, i requires 0 <= i < |values| => values[i].s))
    else if exists i :: 0 <= i < |values| && !IsPrimitive(values[i]) then ZUnknown
    else if |values| == 1 then ZLiteral(values[0])
    else ZUnion(values)
  }

  predicate IsRequired(m: map<Text, Json>, k: Text) {
    Fixed(Required) in m && m[Fixed(Required)].Arr? && Str(k) in m[Fixed(Required)].elems
  }

  /** The decimal name under which an array carries its element. */
  function IndexName(i: nat): string
  {
    var digit := ['0' + (i % 10) as char];
    if i < 10 then digit else IndexName(i / 10) + digit
  }

  function IndexEntries(elems: seq<Json>): (r: map<Text, Json>)
    ensures forall k | k in r :: r[k] in elems
  {
    if elems == [] then map[]
    else IndexEntries(elems[..|elems| - 1])[Other(IndexName(|elems| - 1)) := elems[|elems| - 1]]
  }

  /** The entries of an object, or of an array standing where an object should. */
  function Entries(j: Json): (r: map<Text, Json>)
    requires j.Obj? || j.Arr?
    ensures forall k | k in r :: r[k] < j
  {
    if j.Obj? then j.fields else IndexEntries(j.elems)
  }

  predicate HasProperties(m: map<Text, Json>) {
    Fixed(Properties) in m && (m[Fixed(Properties)].Obj? || m[Fixed(Properties)].Arr?)
  }

  function PropertiesToZod(m: map<Text, Json>): map<Text, Zod>
    requires HasProperties(m)
    decreases m[Fixed(Properties)]
  {
    var props := Entries(m[Fixed(Properties)]);
    map k | k in props ::
      var zt := JsonSchemaToZodType(props[k]);
      if IsRequired(m, k) then zt else ZOptional(zt)
  }

  function JsonSchemaToZodType(node: Json): Zod
    decreases node, 1
  {
    if !node.Obj? then ZUnknown
    else
      var m := node.fields;
      if Elements(m, Fixed(Enum)) != [] then EnumToZod(m[Fixed(Enum)].elems)
      else if Fixed(Const) in m then (if IsPrimitive(m[Fixed(Const)]) then ZLiteral(m[Fixed(Const)]) else ZUnknown)
      else TypeToZod(node)
  }

  /** The switch on `type`; a node without a type name projects to "anything". */
  function TypeToZod(node: Json): Zod
    requires node.Obj?
    decreases node, 0
  {
    var m := node.fields;
    if Fixed(Type) !in m || !m[Fixed(Type)].Str? || m[Fixed(Type)].s.Other? then ZUnknown
    else match m[Fixed(Type)].s.word
      case StringType => ZString
      case IntegerType => ZInteger
      case NumberType => ZNumber
      case BooleanType => ZBoolean
      case NullType => ZNull
      case ArrayType =>
        if Fixed(Items) in m && m[Fixed(Items)].Obj? then ZArray(JsonSchemaToZodType(m[Fixed(Items)])) else ZArray(ZUnknown)
      case ObjectType => if HasProperties(m) then ZObject(PropertiesToZod(m)) else ZRecord
      case _ => ZUnknown
  }

  /** The raw shape handed to the SDK, or the one passthrough field `args` when there is none to project. */
  datatype Shape = Shape(fields: map<Text, Zod>, usedArgsFallback: bool)

  function JsonSchemaToZodShape(parameters: Json): Shape {
    var fallback := Shape(map[Other("args") := ZUnknown], true);
    if !parameters.Obj? then fallback
    else
      var m := parameters.fields;
      if Get(m, Fixed(Type)) != Some(Str(Fixed(ObjectType))) || !HasProperties(m) then fallback
      else
        var shape := PropertiesToZod(m);
        if shape != map[] then Shape(shape, false) else fallback
  }

  // ----- never stricter -----------------------------------------------------------------------------------

  /** A valid instance satisfies each keyword of its schema node. */
  lemma {:induction false} KeywordHolds(env: Env, enforce: bool, root: Json, s: Json, v: Json, fuel: nat, k: Text)
    requires s.Obj? && k in s.fields && Valid(env, enforce, root, s, v, fuel)
    ensures KeywordOk(env, enforce, s.fields, k, v, SubVerdict(env, enforce, root, s, fuel), RefVerdict(env, enforce, root, s, v, fuel))
  {
  }

  lemma {:induction false} TypeHolds(env: Env, enforce: bool, root: Json, s: Json, v: Json, fuel: nat)
    requires s.Obj? && Fixed(Type) in s.fields && Valid(env, enforce, root, s, v, fuel)
    ensures TypeOk(s.fields[Fixed(Type)], v)
  {
    KeywordHolds(env, enforce, root, s, v, fuel, Fixed(Type));
  }

  lemma {:induction false} ConstHolds(env: Env, enforce: bool, root: Json, s: Json, v: Json, fuel: nat)
    requires s.Obj? && Fixed(Const) in s.fields && Valid(env, enforce, root, s, v, fuel)
    ensures v == s.fields[Fixed(Const)]
  {
    KeywordHolds(env, enforce, root, s, v, fuel, Fixed(Const));
  }

  lemma {:induction false} EnumHolds(env: Env, enforce: bool, root: Json, s: Json, v: Json, fuel: nat)
    requires s.Obj? && Fixed(Enum) in s.fields && Valid(env, enforce, root, s, v, fuel)
    ensures v in Elements(s.fields, Fixed(Enum))
  {
    KeywordHolds(env, enforce, root, s, v, fuel, Fixed(Enum));
  }

  lemma {:induction false} RequiredHolds(env: Env, enforce: bool, root: Json, s: Json, v: Json, fuel: nat)
    requires s.Obj? && Fixed(Required) in s.fields && Valid(env, enforce, root, s, v, fuel)
    ensures RequiredOk(s.fields[Fixed(Required)], v)
  {
    KeywordHolds(env, enforce, root, s, v, fuel, Fixed(Required));
  }

  /** A valid object's declared properties are themselves valid. */
  lemma {:induction false} PropertyHolds(env: Env, enforce: bool, root: Json, s: Json, v: Json, fuel: nat, k: Text)
    requires s.Obj? && Fixed(Properties) in s.fields && Valid(env, enforce, root, s, v, fuel) && v.Obj?
    ensures s.fields[Fixed(Properties)].Obj?
    ensures k in s.fields[Fixed(Properties)].fields && k in v.fields ==>
      Valid(env, enforce, root, s.fields[Fixed(Properties)].fields[k], v.fields[k], fuel)
  {
    KeywordHolds(env, enforce, root, s, v, fuel, Fixed(Properties));
  }

  /** Behind the prefix, an array's elements are valid under `items`; inside it, under their own prefix schema. */
  lemma {:induction false} ElementHolds(env: Env, enforce: bool, root: Json, s: Json, v: Json, fuel: nat, i: nat)
    requires s.Obj? && Fixed(Items) in s.fields && s.fields[Fixed(Items)].Obj?
    requires Valid(env, enforce, root, s, v, fuel) && v.Arr? && i < |v.elems|
    ensures var prefix := Elements(s.fields, Fixed(PrefixItems));
      Valid(env, enforce, root, if i < |prefix| then prefix[i] else s.fields[Fixed(Items)], v.elems[i], fuel)
  {
    KeywordHolds(env, enforce, root, s, v, fuel, Fixed(Items));
    if i < |Elements(s.fields, Fixed(PrefixItems))| {
      KeywordHolds(env, enforce, root, s, v, fuel, Fixed(PrefixItems));
    }
  }

  /** The instances a schema accepts. */
  ghost function Instances(env: Env, enforce: bool, root: Json, s: Json, fuel: nat): Json -> bool {
    v => Valid(env, enforce, root, s, v, fuel)
  }

  /** Whatever a schema accepts, a Zod type accepts. */
  ghost predicate NeverStricterOn(instances: Json -> bool, z: Zod) {
    forall v :: instances(v) ==> Accepts(z, Some(v))
  }

  /** Whether the projection of a node reads its `items`. */
  predicate ReadsItems(m: map<Text, Json>) {
    && Elements(m, Fixed(Enum)) == [] && Fixed(Const) !in m && Get(m, Fixed(Type)) == Some(Str(Fixed(ArrayType)))
    && Fixed(Items) in m && m[Fixed(Items)].Obj?
  }

  /**
   * At every array node the projection reads, the projected item type accepts whatever each prefix element may
   * be: `items` applies behind the prefix only, while the projection applies it to all elements.
   */
  ghost predicate PrefixCovered(env: Env, enforce: bool, root: Json, node: Json, fuel: nat)
    decreases node
  {
    node.Obj? ==>
      var m := node.fields;
      && (ReadsItems(m) ==>
          && PrefixCovered(env, enforce, root, m[Fixed(Items)], fuel)
          && forall j | 0 <= j < |Elements(m, Fixed(PrefixItems))| ::
              NeverStricterOn(Instances(env, enforce, root, Elements(m, Fixed(PrefixItems))[j], fuel), JsonSchemaToZodType(m[Fixed(Items)])))
      && (forall k | k in Members(m, Fixed(Properties)) :: PrefixCovered(env, enforce, root, m[Fixed(Properties)].fields[k], fuel))
  }

  /** No array node the projection reads declares both `prefixItems` and an `items` schema. */
  predicate PrefixFree(node: Json)
    decreases node
  {
    node.Obj? ==>
      var m := node.fields;
      && (ReadsItems(m) ==> Fixed(PrefixItems) !in m && PrefixFree(m[Fixed(Items)]))
      && (forall k | k in Members(m, Fixed(Properties)) :: PrefixFree(m[Fixed(Properties)].fields[k]))
  }

  /** A schema without such nodes has nothing to cover. */
  lemma {:induction false} PrefixFreeIsCovered(env: Env, enforce: bool, root: Json, node: Json, fuel: nat)
    requires PrefixFree(node)
    ensures PrefixCovered(env, enforce, root, node, fuel)
    decreases node
  {
    if node.Obj? {
      var m := node.fields;
      if ReadsItems(m) {
        PrefixFreeIsCovered(env, enforce, root, m[Fixed(Items)], fuel);
      }
      forall k | k in Members(m, Fixed(Properties)) ensures PrefixCovered(env, enforce, root, m[Fixed(Properties)].fields[k], fuel) {
        PrefixFreeIsCovered(env, enforce, root, m[Fixed(Properties)].fields[k], fuel);
      }
    }
  }

  /** A node's own `enum`, `const` and `type` are honoured no more strictly than the node asks. */
  lemma {:induction false} EnumAccepts(values: seq<Json>, v: Json)
    requires values != [] && v in values
    ensures Accepts(EnumToZod(values), Some(v))
  {
    var i :| 0 <= i < |values| && values[i] == v;
    if AllStrings(values) && |values| > 1 {
      assert EnumToZod(values).values[i] == v.s;
    }
  }

  /**
   * The projection is never stricter: whatever the neutral schema accepts, at any depth and whatever
   * other keywords it carries, the projected Zod type accepts.
   */
  lemma {:induction false} NeverStricter(env: Env, enforce: bool, root: Json, s: Json, v: Json, fuel: nat)
    requires PrefixCovered(env, enforce, root, s, fuel) && Valid(env, enforce, root, s, v, fuel)
    ensures Accepts(JsonSchemaToZodType(s), Some(v))
    decreases s, 2
  {
    if s.Obj? {
      if Elements(s.fields, Fixed(Enum)) != [] {
        EnumHolds(env, enforce, root, s, v, fuel);
        EnumAccepts(s.fields[Fixed(Enum)].elems, v);
      } else if Fixed(Const) in s.fields {
        ConstHolds(env, enforce, root, s, v, fuel);
      } else {
        if Fixed(Type) in s.fields { TypeHolds(env, enforce, root, s, v, fuel); }
        NeverStricterType(env, enforce, root, s, v, fuel);
      }
    }
  }

  lemma {:induction false} NeverStricterType(env: Env, enforce: bool, root: Json, s: Json, v: Json, fuel: nat)
    requires PrefixCovered(env, enforce, root, s, fuel) && Valid(env, enforce, root, s, v, fuel) && s.Obj?
    requires Elements(s.fields, Fixed(Enum)) == [] && Fixed(Const) !in s.fields
    requires Fixed(Type) in s.fields ==> TypeOk(s.fields[Fixed(Type)], v)
    ensures Accepts(TypeToZod(s), Some(v))
    decreases s, 1
  {
    var t := Get(s.fields, Fixed(Type));
    if t == Some(Str(Fixed(ArrayType))) {
      ArrayProjection(s);
      if ReadsItems(s.fields) { NeverStricterArray(env, enforce, root, s, v, fuel); }
    } else if t == Some(Str(Fixed(ObjectType))) {
      ObjectProjection(s);
      if HasProperties(s.fields) { NeverStricterObject(env, enforce, root, s, v, fuel); }
    } else {
      ScalarTypeAccepts(s, v);
    }
  }

  lemma {:induction false} ArrayProjection(s: Json)
    requires s.Obj? && Get(s.fields, Fixed(Type)) == Some(Str(Fixed(ArrayType)))
    ensures TypeToZod(s) == ZArray(if Fixed(Items) in s.fields && s.fields[Fixed(Items)].Obj? then JsonSchemaToZodType(s.fields[Fixed(Items)]) else ZUnknown)
  {
  }

  lemma {:induction false} ObjectProjection(s: Json)
    requires s.Obj? && Get(s.fields, Fixed(Type)) == Some(Str(Fixed(ObjectType)))
    ensures TypeToZod(s) == if HasProperties(s.fields) then ZObject(PropertiesToZod(s.fields)) else ZRecord
  {
  }

  lemma {:induction false} ScalarTypeAccepts(s: Json, v: Json)
    requires s.Obj? && (Fixed(Type) in s.fields ==> TypeOk(s.fields[Fixed(Type)], v))
    requires Get(s.fields, Fixed(Type)) != Some(Str(Fixed(ArrayType))) && Get(s.fields, Fixed(Type)) != Some(Str(Fixed(ObjectType)))
    ensures Accepts(TypeToZod(s), Some(v))
  {
  }

  lemma {:induction false} NeverStricterArray(env: Env, enforce: bool, root: Json, s: Json, v: Json, fuel: nat)
    requires PrefixCovered(env, enforce, root, s, fuel) && Valid(env, enforce, root, s, v, fuel) && s.Obj? && v.Arr? && ReadsItems(s.fields)
    ensures Accepts(ZArray(JsonSchemaToZodType(s.fields[Fixed(Items)])), Some(v))
    decreases s, 0
  {
    var items, prefix := s.fields[Fixed(Items)], Elements(s.fields, Fixed(PrefixItems));
    forall i | 0 <= i < |v.elems| ensures Accepts(JsonSchemaToZodType(items), Some(v.elems[i])) {
      ElementHolds(env, enforce, root, s, v, fuel, i);
      if i < |prefix| {
        assert Instances(env, enforce, root, prefix[i], fuel)(v.elems[i]);
      } else {
        NeverStricter(env, enforce, root, items, v.elems[i], fuel);
      }
    }
  }

  lemma {:induction false} NeverStricterObject(env: Env, enforce: bool, root: Json, s: Json, v: Json, fuel: nat)
    requires PrefixCovered(env, enforce, root, s, fuel) && Valid(env, enforce, root, s, v, fuel)
    requires s.Obj? && v.Obj? && HasProperties(s.fields)
    ensures Accepts(ZObject(PropertiesToZod(s.fields)), Some(v))
    decreases s, 0
  {
    var m := s.fields;
    KeywordHolds(env, enforce, root, s, v, fuel, Fixed(Properties));
    if Fixed(Required) in m { RequiredHolds(env, enforce, root, s, v, fuel); }
    var props := m[Fixed(Properties)].fields;
    forall k | k in props ensures Accepts(PropertiesToZod(m)[k], Get(v.fields, k)) {
      if k in v.fields {
        PropertyHolds(env, enforce, root, s, v, fuel, k);
        NeverStricter(env, enforce, root, props[k], v.fields[k], fuel);
      }
    }
  }

  // ----- exact on the typed fragment ------------------------------------------------------------------

  /** All keywords of a node but those in `ks` are annotations. */
  predicate OnlyKeywords(m: map<Text, Json>, ks: set<Text>) {
    forall k | k in m :: k in ks || IsAnnotation(k)
  }

  /** A primitive `const`, or an `enum` of primitives; a `type` beside it is one every value has. */
  predicate TypedLiteral(m: map<Text, Json>) {
    || (Fixed(Const) in m && IsPrimitive(m[Fixed(Const)]) && OnlyKeywords(m, {Fixed(Const), Fixed(Type)})
        && (Fixed(Type) in m ==> TypeOk(m[Fixed(Type)], m[Fixed(Const)])))
    || (Elements(m, Fixed(Enum)) != [] && OnlyKeywords(m, {Fixed(Enum), Fixed(Type)})
        && forall i | 0 <= i < |m[Fixed(Enum)].elems| ::
          IsPrimitive(m[Fixed(Enum)].elems[i]) && (Fixed(Type) in m ==> TypeOk(m[Fixed(Type)], m[Fixed(Enum)].elems[i])))
  }

  predicate TypedScalar(m: map<Text, Json>) {
    && OnlyKeywords(m, {Fixed(Type)}) && Fixed(Type) in m && m[Fixed(Type)].Str? && m[Fixed(Type)].s.Fixed?
    && var w := m[Fixed(Type)].s.word;
       w.StringType? || w.IntegerType? || w.NumberType? || w.BooleanType? || w.NullType?
  }

  /** `required` names declared properties only. */
  predicate RequiredDeclared(m: map<Text, Json>) {
    Fixed(Required) in m ==>
      && m[Fixed(Required)].Arr?
      && forall i | 0 <= i < |m[Fixed(Required)].elems| ::
        m[Fixed(Required)].elems[i].Str? && m[Fixed(Required)].elems[i].s in Members(m, Fixed(Properties))
  }

  /**
   * The typed fragment: primitive enum or const, or a type with `items`, `properties` and `required`
   * over the same fragment. `closing` also admits a boolean `additionalProperties` beside `properties`.
   */
  predicate Typed(s: Json, closing: bool)
    decreases s
  {
    s.Obj? &&
    var m := s.fields;
    || TypedLiteral(m)
    || TypedScalar(m)
    || (&& Get(m, Fixed(Type)) == Some(Str(Fixed(ArrayType))) && OnlyKeywords(m, {Fixed(Type), Fixed(Items)})
        && (Fixed(Items) in m ==> m[Fixed(Items)].Obj? && Typed(m[Fixed(Items)], closing)))
    || (&& Get(m, Fixed(Type)) == Some(Str(Fixed(ObjectType)))
        && OnlyKeywords(m, {Fixed(Type), Fixed(Properties), Fixed(Required)} + if closing then {Fixed(AdditionalProperties)} else {})
        && (Fixed(AdditionalProperties) in m ==> m[Fixed(AdditionalProperties)].Bool? && Fixed(Properties) in m)
        && RequiredDeclared(m)
        && (Fixed(Properties) in m ==> m[Fixed(Properties)].Obj?)
        && (forall k | k in Members(m, Fixed(Properties)) :: Typed(m[Fixed(Properties)].fields[k], closing)))
  }

  lemma {:induction false} TypedIsPrefixFree(s: Json, closing: bool)
    requires Typed(s, closing)
    ensures PrefixFree(s)
    decreases s
  {
    var m := s.fields;
    if ReadsItems(m) {
      TypedIsPrefixFree(m[Fixed(Items)], closing);
    }
    forall k | k in Members(m, Fixed(Properties)) ensures PrefixFree(m[Fixed(Properties)].fields[k]) {
      TypedIsPrefixFree(m[Fixed(Properties)].fields[k], closing);
    }
  }

  /** A typed schema never accepts a missing property as present. */
  lemma {:induction false} TypedRefusesUndefined(s: Json, closing: bool)
    requires Typed(s, closing)
    ensures !Accepts(JsonSchemaToZodType(s), None)
  {
    if TypedLiteral(s.fields) {
      LiteralRefusesUndefined(s.fields);
    } else if TypedScalar(s.fields) {
      ScalarRefusesUndefined(s.fields);
    } else {
      TypedByType(s, closing);
    }
  }

  lemma {:induction false} LiteralRefusesUndefined(m: map<Text, Json>)
    requires TypedLiteral(m)
    ensures !Accepts(JsonSchemaToZodType(Obj(m)), None)
  {
  }

  lemma {:induction false} ScalarRefusesUndefined(m: map<Text, Json>)
    requires TypedScalar(m)
    ensures !Accepts(JsonSchemaToZodType(Obj(m)), None)
  {
  }

  lemma {:induction false} AnnotationOk(env: Env, enforce: bool, m: map<Text, Json>, k: Text, v: Json, sub: Verdict, ref: Json -> bool)
    requires k in m && IsAnnotation(k)
    ensures KeywordOk(env, enforce, m, k, v, sub, ref)
  {
  }

  lemma {:induction false} EnumMember(values: seq<Json>, v: Json)
    requires values != [] && (forall i | 0 <= i < |values| :: IsPrimitive(values[i])) && Accepts(EnumToZod(values), Some(v))
    ensures v in values
  {
    if AllStrings(values) && |values| > 1 {
      var i :| 0 <= i < |values| && EnumToZod(values).values[i] == v.s;
      assert values[i] == v;
    }
  }

  /** The value of a literal node is the constant, or one of the enumerated values. */
  lemma {:induction false} LiteralValue(m: map<Text, Json>, v: Json)
    requires TypedLiteral(m) && Accepts(JsonSchemaToZodType(Obj(m)), Some(v))
    ensures Fixed(Enum) in m ==> m[Fixed(Enum)].Arr? && v in m[Fixed(Enum)].elems
    ensures Fixed(Const) in m ==> v == m[Fixed(Const)]
    ensures Fixed(Type) in m ==> TypeOk(m[Fixed(Type)], v)
  {
    if Elements(m, Fixed(Enum)) != [] {
      EnumMember(m[Fixed(Enum)].elems, v);
    }
  }

  lemma {:induction false} LiteralExact(env: Env, enforce: bool, m: map<Text, Json>, v: Json, sub: Verdict, ref: Json -> bool)
    requires TypedLiteral(m) && Accepts(JsonSchemaToZodType(Obj(m)), Some(v))
    ensures NodeOk(env, enforce, m, v, sub, ref)
  {
    LiteralValue(m, v);
    forall k | k in m ensures KeywordOk(env, enforce, m, k, v, sub, ref) {
      if IsAnnotation(k) { AnnotationOk(env, enforce, m, k, v, sub, ref); }
    }
  }

  lemma {:induction false} ScalarExact(env: Env, enforce: bool, m: map<Text, Json>, v: Json, sub: Verdict, ref: Json -> bool)
    requires TypedScalar(m) && Accepts(TypeToZod(Obj(m)), Some(v))
    ensures NodeOk(env, enforce, m, v, sub, ref)
  {
    forall k | k in m && IsAnnotation(k) { AnnotationOk(env, enforce, m, k, v, sub, ref); }
  }

  lemma {:induction false} ArrayExact(env: Env, enforce: bool, m: map<Text, Json>, v: Json, sub: Verdict, ref: Json -> bool)
    requires Get(m, Fixed(Type)) == Some(Str(Fixed(ArrayType))) && OnlyKeywords(m, {Fixed(Type), Fixed(Items)})
    requires v.Arr? && (Fixed(Items) in m ==> m[Fixed(Items)].Obj? && forall i | 0 <= i < |v.elems| :: sub(m[Fixed(Items)], v.elems[i]))
    ensures NodeOk(env, enforce, m, v, sub, ref)
  {
    forall k | k in m ensures KeywordOk(env, enforce, m, k, v, sub, ref) {
      if IsAnnotation(k) { AnnotationOk(env, enforce, m, k, v, sub, ref); }
      else if k == Fixed(Type) { TypeKeywordOk(env, enforce, m, v, sub, ref); }
      else { ItemsKeywordOk(env, enforce, m, v, sub, ref); }
    }
  }

  lemma {:induction false} TypeKeywordOk(env: Env, enforce: bool, m: map<Text, Json>, v: Json, sub: Verdict, ref: Json -> bool)
    requires Fixed(Type) in m && TypeOk(m[Fixed(Type)], v)
    ensures KeywordOk(env, enforce, m, Fixed(Type), v, sub, ref)
  {
  }

  lemma {:induction false} ItemsKeywordOk(env: Env, enforce: bool, m: map<Text, Json>, v: Json, sub: Verdict, ref: Json -> bool)
    requires Fixed(Items) in m && m[Fixed(Items)].Obj? && v.Arr? && forall i | 0 <= i < |v.elems| :: sub(m[Fixed(Items)], v.elems[i])
    ensures KeywordOk(env, enforce, m, Fixed(Items), v, sub, ref)
  {
  }

  lemma {:induction false} ObjectExact(env: Env, enforce: bool, m: map<Text, Json>, v: Json, sub: Verdict, ref: Json -> bool)
    requires Get(m, Fixed(Type)) == Some(Str(Fixed(ObjectType))) && v.Obj?
    requires OnlyKeywords(m, {Fixed(Type), Fixed(Properties), Fixed(Required), Fixed(AdditionalProperties)})
    requires Fixed(Required) in m ==> RequiredOk(m[Fixed(Required)], v)
    requires Fixed(Properties) in m ==> m[Fixed(Properties)].Obj?
    requires forall name | name in Members(m, Fixed(Properties)) && name in v.fields ::
      sub(m[Fixed(Properties)].fields[name], v.fields[name])
    requires Fixed(AdditionalProperties) in m ==> v.fields.Keys <= Members(m, Fixed(Properties)).Keys
    ensures NodeOk(env, enforce, m, v, sub, ref)
  {
    forall k | k in m ensures KeywordOk(env, enforce, m, k, v, sub, ref) {
      if IsAnnotation(k) { AnnotationOk(env, enforce, m, k, v, sub, ref); }
      else if k == Fixed(AdditionalProperties) {
        forall name | name in v.fields ensures !IsAdditional(env, m, name) {}
      }
    }
  }

  lemma {:induction false} TypedLeaf(env: Env, enforce: bool, root: Json, s: Json, v: Json, fuel: nat)
    requires s.Obj? && (TypedLiteral(s.fields) || TypedScalar(s.fields)) && Accepts(JsonSchemaToZodType(s), Some(v))
    ensures Parsed(JsonSchemaToZodType(s), v) == v && Valid(env, enforce, root, s, v, fuel)
  {
    var m, sub, ref := s.fields, SubVerdict(env, enforce, root, s, fuel), RefVerdict(env, enforce, root, s, v, fuel);
    if TypedLiteral(m) {
      LiteralExact(env, enforce, m, v, sub, ref);
    } else {
      ScalarExact(env, enforce, m, v, sub, ref);
    }
  }

  /**
   * On the typed fragment, what Zod accepts the neutral schema accepts too: as it stands, or, where
   * `additionalProperties` may close an object, as Zod's unknown-key-stripped output.
   */
  lemma {:induction false} TypedAcceptsOnlyValid(env: Env, enforce: bool, root: Json, s: Json, v: Json, fuel: nat, closing: bool)
    requires Typed(s, closing) && Accepts(JsonSchemaToZodType(s), Some(v))
    ensures Valid(env, enforce, root, s, if closing then Parsed(JsonSchemaToZodType(s), v) else v, fuel)
    decreases s, 1
  {
    if TypedLiteral(s.fields) || TypedScalar(s.fields) {
      TypedLeaf(env, enforce, root, s, v, fuel);
      return;
    }
    TypedByType(s, closing);
    if Get(s.fields, Fixed(Type)) == Some(Str(Fixed(ArrayType))) {
      TypedArray(env, enforce, root, s, v, fuel, closing);
    } else {
      TypedObject(env, enforce, root, s, v, fuel, closing);
    }
  }

  /** A typed node that is no literal or scalar is an array or object node, projected by its type. */
  lemma {:induction false} TypedByType(s: Json, closing: bool)
    requires Typed(s, closing) && !TypedLiteral(s.fields) && !TypedScalar(s.fields)
    ensures JsonSchemaToZodType(s) == TypeToZod(s)
    ensures Get(s.fields, Fixed(Type)) == Some(Str(Fixed(ArrayType))) || Get(s.fields, Fixed(Type)) == Some(Str(Fixed(ObjectType)))
  {
    var m := s.fields;
    assert Fixed(Enum) !in m && Fixed(Const) !in m;
  }

  lemma {:induction false} TypedArray(env: Env, enforce: bool, root: Json, s: Json, v: Json, fuel: nat, closing: bool)
    requires Typed(s, closing) && !TypedLiteral(s.fields) && Get(s.fields, Fixed(Type)) == Some(Str(Fixed(ArrayType)))
    requires Accepts(TypeToZod(s), Some(v))
    ensures Valid(env, enforce, root, s, if closing then Parsed(TypeToZod(s), v) else v, fuel)
    decreases s, 0
  {
    var m, w := s.fields, if closing then Parsed(TypeToZod(s), v) else v;
    var sub, ref := SubVerdict(env, enforce, root, s, fuel), RefVerdict(env, enforce, root, s, w, fuel);
    if Fixed(Items) in m {
      forall i | 0 <= i < |w.elems| ensures sub(m[Fixed(Items)], w.elems[i]) {
        TypedAcceptsOnlyValid(env, enforce, root, m[Fixed(Items)], v.elems[i], fuel, closing);
      }
    }
    ArrayExact(env, enforce, m, w, sub, ref);
  }

  lemma {:induction false} TypedProperty(env: Env, enforce: bool, root: Json, s: Json, v: Json, fuel: nat, closing: bool, k: Text)
    requires Typed(s, closing) && HasProperties(s.fields) && s.fields[Fixed(Properties)].Obj?
    requires k in s.fields[Fixed(Properties)].fields && Typed(s.fields[Fixed(Properties)].fields[k], closing)
    requires v.Obj? && Accepts(PropertiesToZod(s.fields)[k], Get(v.fields, k))
    ensures IsRequired(s.fields, k) ==> k in v.fields
    ensures k in v.fields ==> Valid(env, enforce, root, s.fields[Fixed(Properties)].fields[k],
      if closing then Parsed(PropertiesToZod(s.fields)[k], v.fields[k]) else v.fields[k], fuel)
    decreases s, 0, 0, 0, 0
  {
    var raw := s.fields[Fixed(Properties)].fields[k];
    TypedRefusesUndefined(raw, closing);
    if k in v.fields { TypedAcceptsOnlyValid(env, enforce, root, raw, v.fields[k], fuel, closing); }
  }

  lemma {:induction false} TypedObject(env: Env, enforce: bool, root: Json, s: Json, v: Json, fuel: nat, closing: bool)
    requires Typed(s, closing) && !TypedLiteral(s.fields) && Get(s.fields, Fixed(Type)) == Some(Str(Fixed(ObjectType)))
    requires Accepts(TypeToZod(s), Some(v))
    ensures Valid(env, enforce, root, s, if closing then Parsed(TypeToZod(s), v) else v, fuel)
    decreases s, 0, 1
  {
    ObjectProjection(s);
    if HasProperties(s.fields) {
      var z := ZObject(PropertiesToZod(s.fields));
      TypedProperties(env, enforce, root, s, v, if closing then Parsed(z, v) else v, fuel, closing);
    } else {
      ObjectExact(env, enforce, s.fields, v, SubVerdict(env, enforce, root, s, fuel), RefVerdict(env, enforce, root, s, v, fuel));
    }
  }

  lemma {:induction false} TypedPropertyKept(env: Env, enforce: bool, root: Json, s: Json, v: Json, w: Json, fuel: nat, closing: bool, k: Text)
    requires Typed(s, closing) && HasProperties(s.fields) && s.fields[Fixed(Properties)].Obj?
    requires k in s.fields[Fixed(Properties)].fields && Typed(s.fields[Fixed(Properties)].fields[k], closing)
    requires Accepts(ZObject(PropertiesToZod(s.fields)), Some(v)) && w == if closing then Parsed(ZObject(PropertiesToZod(s.fields)), v) else v
    ensures v.Obj? && w.Obj? && (IsRequired(s.fields, k) ==> k in v.fields) && (k in v.fields ==> k in w.fields)
    ensures k in w.fields ==> SubVerdict(env, enforce, root, s, fuel)(s.fields[Fixed(Properties)].fields[k], w.fields[k])
    decreases s, 0, 0, 0, 1
  {
    TypedProperty(env, enforce, root, s, v, fuel, closing, k);
    assert s.fields[Fixed(Properties)].fields[k] < s.fields[Fixed(Properties)] < s;
  }

  lemma {:induction false} TypedObjectShape(s: Json, closing: bool)
    requires Typed(s, closing) && !TypedLiteral(s.fields) && Get(s.fields, Fixed(Type)) == Some(Str(Fixed(ObjectType)))
    ensures OnlyKeywords(s.fields, {Fixed(Type), Fixed(Properties), Fixed(Required), Fixed(AdditionalProperties)})
    ensures RequiredDeclared(s.fields) && (Fixed(Properties) in s.fields ==> s.fields[Fixed(Properties)].Obj?)
    ensures Fixed(AdditionalProperties) in s.fields ==> closing && Fixed(Properties) in s.fields
    ensures forall k | k in Members(s.fields, Fixed(Properties)) :: Typed(s.fields[Fixed(Properties)].fields[k], closing)
  {
  }

  /** What holds of the value a typed object's properties are checked on. */
  ghost predicate PropertiesKept(m: map<Text, Json>, v: Json, w: Json, sub: Verdict) {
    && v.Obj? && w.Obj?
    && forall k | k in Members(m, Fixed(Properties)) ::
      && (IsRequired(m, k) ==> k in v.fields) && (k in v.fields ==> k in w.fields)
      && (k in w.fields ==> sub(m[Fixed(Properties)].fields[k], w.fields[k]))
  }

  lemma {:induction false} TypedPropertiesKept(env: Env, enforce: bool, root: Json, s: Json, v: Json, w: Json, fuel: nat, closing: bool)
    requires Typed(s, closing) && !TypedLiteral(s.fields) && Get(s.fields, Fixed(Type)) == Some(Str(Fixed(ObjectType)))
    requires HasProperties(s.fields) && Accepts(ZObject(PropertiesToZod(s.fields)), Some(v))
    requires w == if closing then Parsed(ZObject(PropertiesToZod(s.fields)), v) else v
    ensures PropertiesKept(s.fields, v, w, SubVerdict(env, enforce, root, s, fuel))
    decreases s, 0, 0, 1
  {
    TypedObjectShape(s, closing);
    var m, sub := s.fields, SubVerdict(env, enforce, root, s, fuel);
    forall k | k in Members(m, Fixed(Properties))
      ensures (IsRequired(m, k) ==> k in v.fields) && (k in v.fields ==> k in w.fields)
      ensures k in w.fields ==> sub(m[Fixed(Properties)].fields[k], w.fields[k])
    {
      TypedPropertyKept(env, enforce, root, s, v, w, fuel, closing, k);
    }
  }

  lemma {:induction false} TypedProperties(env: Env, enforce: bool, root: Json, s: Json, v: Json, w: Json, fuel: nat, closing: bool)
    requires Typed(s, closing) && !TypedLiteral(s.fields) && Get(s.fields, Fixed(Type)) == Some(Str(Fixed(ObjectType)))
    requires HasProperties(s.fields) && Accepts(ZObject(PropertiesToZod(s.fields)), Some(v))
    requires w == if closing then Parsed(ZObject(PropertiesToZod(s.fields)), v) else v
    ensures Valid(env, enforce, root, s, w, fuel)
    decreases s, 0, 0, 2
  {
    TypedPropertiesKept(env, enforce, root, s, v, w, fuel, closing);
    TypedObjectShape(s, closing);
    RequiredKept(s.fields, v, w);
    ObjectExact(env, enforce, s.fields, w, SubVerdict(env, enforce, root, s, fuel), RefVerdict(env, enforce, root, s, w, fuel));
  }

  lemma {:induction false} RequiredKept(m: map<Text, Json>, v: Json, w: Json)
    requires RequiredDeclared(m) && v.Obj? && w.Obj?
    requires forall k | k in Members(m, Fixed(Properties)) && IsRequired(m, k) :: k in v.fields
    requires forall k | k in Members(m, Fixed(Properties)) && k in v.fields :: k in w.fields
    ensures Fixed(Required) in m ==> RequiredOk(m[Fixed(Required)], w)
  {
    if Fixed(Required) in m {
      forall i | 0 <= i < |m[Fixed(Required)].elems| ensures m[Fixed(Required)].elems[i].s in w.fields {
        assert m[Fixed(Required)].elems[i] == Str(m[Fixed(Required)].elems[i].s);
        assert IsRequired(m, m[Fixed(Required)].elems[i].s);
      }
    }
  }

  /** The projection is exact on the typed fragment. */
  lemma {:induction false} TypedExact(env: Env, enforce: bool, root: Json, s: Json, v: Json, fuel: nat)
    requires Typed(s, false)
    ensures Accepts(JsonSchemaToZodType(s), Some(v)) <==> Valid(env, enforce, root, s, v, fuel)
  {
    TypedIsPrefixFree(s, false);
    PrefixFreeIsCovered(env, enforce, root, s, fuel);
    if Accepts(JsonSchemaToZodType(s), Some(v)) { TypedAcceptsOnlyValid(env, enforce, root, s, v, fuel, false); }
    if Valid(env, enforce, root, s, v, fuel) { NeverStricter(env, enforce, root, s, v, fuel); }
  }

  /** What the model's call is reduced to when Zod accepts it always passes the authoritative validator. */
  lemma {:induction false} ParsedOutputIsValid(env: Env, enforce: bool, root: Json, s: Json, v: Json, fuel: nat)
    requires Typed(s, true) && Accepts(JsonSchemaToZodType(s), Some(v))
    ensures Valid(env, enforce, root, s, Parsed(JsonSchemaToZodType(s), v), fuel)
  {
    TypedAcceptsOnlyValid(env, enforce, root, s, v, fuel, true);
  }

  /** Every object node with declared properties refuses all others. */
  predicate Closed(s: Json)
    decreases s
  {
    s.Obj? ==>
      var m := s.fields;
      && (Fixed(Properties) in m ==> Get(m, Fixed(AdditionalProperties)) == Some(Bool(false)))
      && (Fixed(Items) in m ==> Closed(m[Fixed(Items)]))
      && (forall k | k in Members(m, Fixed(Properties)) :: Closed(m[Fixed(Properties)].fields[k]))
  }

  /** A closed typed schema leaves Zod nothing to drop: what validates is handed on unchanged, at every depth. */
  lemma {:induction false} ClosedIsHandedOn(env: Env, enforce: bool, root: Json, s: Json, v: Json, fuel: nat)
    requires Typed(s, true) && Closed(s) && Valid(env, enforce, root, s, v, fuel)
    ensures Parsed(JsonSchemaToZodType(s), v) == v
    decreases s, 1
  {
    TypedIsPrefixFree(s, true);
    PrefixFreeIsCovered(env, enforce, root, s, fuel);
    NeverStricter(env, enforce, root, s, v, fuel);
    if TypedLiteral(s.fields) || TypedScalar(s.fields) {
      TypedLeaf(env, enforce, root, s, v, fuel);
    } else {
      TypedByType(s, true);
      if Get(s.fields, Fixed(Type)) == Some(Str(Fixed(ArrayType))) {
        ArrayHandedOn(env, enforce, root, s, v, fuel);
      } else {
        ObjectHandedOn(env, enforce, root, s, v, fuel);
      }
    }
  }

  lemma {:induction false} TypedArrayShape(s: Json, closing: bool)
    requires Typed(s, closing) && !TypedLiteral(s.fields) && !TypedScalar(s.fields) && Get(s.fields, Fixed(Type)) == Some(Str(Fixed(ArrayType)))
    ensures Fixed(PrefixItems) !in s.fields && (Fixed(Items) in s.fields ==> s.fields[Fixed(Items)].Obj? && Typed(s.fields[Fixed(Items)], closing))
  {
  }

  lemma {:induction false} ArrayHandedOn(env: Env, enforce: bool, root: Json, s: Json, v: Json, fuel: nat)
    requires Typed(s, true) && Closed(s) && Valid(env, enforce, root, s, v, fuel)
    requires !TypedLiteral(s.fields) && !TypedScalar(s.fields) && Get(s.fields, Fixed(Type)) == Some(Str(Fixed(ArrayType)))
    ensures Parsed(TypeToZod(s), v) == v
    decreases s, 0
  {
    TypedArrayShape(s, true);
    ArrayProjection(s);
    TypeHolds(env, enforce, root, s, v, fuel);
    if Fixed(Items) in s.fields {
      var items := s.fields[Fixed(Items)];
      forall i | 0 <= i < |v.elems| ensures Parsed(JsonSchemaToZodType(items), v.elems[i]) == v.elems[i] {
        ElementHolds(env, enforce, root, s, v, fuel, i);
        ClosedIsHandedOn(env, enforce, root, items, v.elems[i], fuel);
      }
      assert Parsed(ZArray(JsonSchemaToZodType(items)), v).elems == v.elems;
    } else {
      assert Parsed(ZArray(ZUnknown), v).elems == v.elems;
    }
  }

  /** A closed object has no undeclared property. */
  lemma {:induction false} OnlyDeclared(env: Env, enforce: bool, root: Json, s: Json, v: Json, fuel: nat, k: Text)
    requires s.Obj? && v.Obj? && Valid(env, enforce, root, s, v, fuel) && k in v.fields
    requires Get(s.fields, Fixed(AdditionalProperties)) == Some(Bool(false)) && Fixed(PatternProperties) !in s.fields
    ensures k in Members(s.fields, Fixed(Properties))
  {
    KeywordHolds(env, enforce, root, s, v, fuel, Fixed(AdditionalProperties));
    assert !Valid(env, enforce, root, Bool(false), v.fields[k], fuel);
    assert !SubVerdict(env, enforce, root, s, fuel)(s.fields[Fixed(AdditionalProperties)], v.fields[k]);
  }

  lemma {:induction false} ParsedProperty(m: map<Text, Json>, k: Text, w: Json)
    requires HasProperties(m) && m[Fixed(Properties)].Obj? && k in m[Fixed(Properties)].fields
    ensures k in PropertiesToZod(m) && Parsed(PropertiesToZod(m)[k], w) == Parsed(JsonSchemaToZodType(m[Fixed(Properties)].fields[k]), w)
  {
  }

  lemma {:induction false} ParsedObject(shape: map<Text, Zod>, v: Json)
    requires v.Obj? && forall k | k in v.fields :: k in shape && Parsed(shape[k], v.fields[k]) == v.fields[k]
    ensures Parsed(ZObject(shape), v) == v
  {
    assert Parsed(ZObject(shape), v).fields == v.fields;
  }

  /** What a closed typed object node is, put without its recursion. */
  predicate ClosedNode(m: map<Text, Json>) {
    && Fixed(Properties) in m && m[Fixed(Properties)].Obj? && Fixed(PatternProperties) !in m
    && Get(m, Fixed(AdditionalProperties)) == Some(Bool(false))
  }

  lemma {:induction false} ClosedObjectShape(s: Json)
    requires Typed(s, true) && Closed(s) && HasProperties(s.fields)
    requires !TypedLiteral(s.fields) && Get(s.fields, Fixed(Type)) == Some(Str(Fixed(ObjectType)))
    ensures ClosedNode(s.fields)
    ensures forall k | k in s.fields[Fixed(Properties)].fields :: Typed(s.fields[Fixed(Properties)].fields[k], true) && Closed(s.fields[Fixed(Properties)].fields[k])
  {
    TypedObjectShape(s, true);
  }

  lemma {:induction false} PropertyHandedOn(env: Env, enforce: bool, root: Json, s: Json, v: Json, fuel: nat, k: Text)
    requires s.Obj? && ClosedNode(s.fields) && Valid(env, enforce, root, s, v, fuel) && v.Obj? && k in v.fields
    ensures k in s.fields[Fixed(Properties)].fields && k in PropertiesToZod(s.fields)
    ensures Valid(env, enforce, root, s.fields[Fixed(Properties)].fields[k], v.fields[k], fuel)
    ensures Parsed(PropertiesToZod(s.fields)[k], v.fields[k]) == Parsed(JsonSchemaToZodType(s.fields[Fixed(Properties)].fields[k]), v.fields[k])
  {
    OnlyDeclared(env, enforce, root, s, v, fuel, k);
    PropertyHolds(env, enforce, root, s, v, fuel, k);
    ParsedProperty(s.fields, k, v.fields[k]);
  }

  lemma {:induction false} ObjectHandedOn(env: Env, enforce: bool, root: Json, s: Json, v: Json, fuel: nat)
    requires Typed(s, true) && Closed(s) && Valid(env, enforce, root, s, v, fuel)
    requires !TypedLiteral(s.fields) && Get(s.fields, Fixed(Type)) == Some(Str(Fixed(ObjectType)))
    ensures Parsed(TypeToZod(s), v) == v
    decreases s, 0
  {
    ObjectProjection(s);
    TypeHolds(env, enforce, root, s, v, fuel);
    if HasProperties(s.fields) {
      ClosedObjectShape(s);
      forall k | k in v.fields ensures k in PropertiesToZod(s.fields) && Parsed(PropertiesToZod(s.fields)[k], v.fields[k]) == v.fields[k] {
        PropertyHandedOn(env, enforce, root, s, v, fuel, k);
        ClosedIsHandedOn(env, enforce, root, s.fields[Fixed(Properties)].fields[k], v.fields[k], fuel);
      }
      ParsedObject(PropertiesToZod(s.fields), v);
    }
  }

  // ----- the tool's own shape ---------------------------------------------------------------------------

  /** Every argument object the tool's schema accepts passes the shape the SDK validates with. */
  lemma {:induction false} ShapeNeverStricter(env: Env, enforce: bool, parameters: Json, args: Json, fuel: nat)
    requires PrefixCovered(env, enforce, parameters, parameters, fuel) && args.Obj? && Valid(env, enforce, parameters, parameters, args, fuel)
    ensures Accepts(ZObject(JsonSchemaToZodShape(parameters).fields), Some(args))
  {
    if parameters.Obj? && HasProperties(parameters.fields) {
      NeverStricterObject(env, enforce, parameters, parameters, args, fuel);
    }
  }

  /** An object schema that declares a property, by a map of them or by a list standing in its place. */
  predicate DeclaresProperty(parameters: Json) {
    && parameters.Obj? && Get(parameters.fields, Fixed(Type)) == Some(Str(Fixed(ObjectType)))
    && Fixed(Properties) in parameters.fields
    && match parameters.fields[Fixed(Properties)]
       case Obj(properties) => properties != map[]
       case Arr(properties) => properties != []
       case _ => false
  }

  lemma {:induction false} ListedEntries(elems: seq<Json>)
    ensures IndexEntries(elems) == map[] <==> elems == []
  {
    if elems != [] {
      assert Other(IndexName(|elems| - 1)) in IndexEntries(elems);
    }
  }

  /**
   * The one passthrough field is handed to the SDK exactly when the schema declares no property; otherwise the shape
   * has a field for each declared property and no other.
   */
  lemma {:induction false} ShapeNames(parameters: Json)
    ensures var shape := JsonSchemaToZodShape(parameters);
      && (shape.usedArgsFallback <==> !DeclaresProperty(parameters))
      && (shape.usedArgsFallback ==> shape.fields == map[Other("args") := ZUnknown])
      && (!shape.usedArgsFallback && parameters.fields[Fixed(Properties)].Obj? ==>
          shape.fields.Keys == parameters.fields[Fixed(Properties)].fields.Keys)
  {
    if parameters.Obj? && HasProperties(parameters.fields) {
      var m := parameters.fields;
      if m[Fixed(Properties)].Arr? { ListedEntries(m[Fixed(Properties)].elems); }
      EmptyShape(m);
    }
  }

  lemma {:induction false} EmptyShape(m: map<Text, Json>)
    requires HasProperties(m)
    ensures PropertiesToZod(m).Keys == Entries(m[Fixed(Properties)]).Keys
    ensures PropertiesToZod(m) == map[] <==> Entries(m[Fixed(Properties)]) == map[]
  {
    assert PropertiesToZod(m) == map[] <==> PropertiesToZod(m).Keys == {};
    assert Entries(m[Fixed(Properties)]) == map[] <==> Entries(m[Fixed(Properties)]).Keys == {};
  }

  /**
   * For typed parameters with a declared property the shape is exact: the SDK lets through precisely the argument
   * objects the tool's own schema accepts.
   */
  lemma {:induction false} ShapeExact(env: Env, enforce: bool, parameters: Json, args: Json, fuel: nat)
    requires Typed(parameters, false) && !TypedLiteral(parameters.fields) && DeclaresProperty(parameters)
    ensures var shape := JsonSchemaToZodShape(parameters);
      !shape.usedArgsFallback && (Accepts(ZObject(shape.fields), Some(args)) <==> Valid(env, enforce, parameters, parameters, args, fuel))
  {
    var m := parameters.fields;
    ShapeNames(parameters);
    TypedByType(parameters, false);
    ObjectProjection(parameters);
    TypedExact(env, enforce, parameters, parameters, args, fuel);
    ShapeIsProjection(parameters);
  }

  lemma {:induction false} ShapeIsProjection(parameters: Json)
    requires parameters.Obj? && !JsonSchemaToZodShape(parameters).usedArgsFallback
    ensures HasProperties(parameters.fields) && JsonSchemaToZodShape(parameters).fields == PropertiesToZod(parameters.fields)
  {
  }
}
