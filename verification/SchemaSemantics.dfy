/**
 * The acceptance semantics both tool-parameter projections are judged by: JSON Schema draft 2020-12
 * over raw JSON schemas, with the `format` keyword either ignored (the authoritative validator, which
 * registers no formats) or enforced (the validator the Pi SDK runs). Keywords whose verdict depends on
 * nothing but their own value and the instance are left to an arbitrary `assertion`.
 */
module SchemaSemantics {
  import opened Options
  import opened Json

  /** What the semantics leaves open: everything a claim about the projections must hold for all of. */
  datatype Env = Env(
    formatOk: (Text, Json) -> bool,        // format name, instance
    matches: (Text, Text) -> bool,       // pattern, property name
    assertion: (Text, Json, Json) -> bool, // keyword, its value, instance
    pointer: Text -> Option<seq<Text>>,  // a `$ref` into the same document, as reference tokens
    index: Text -> Option<nat>)            // a reference token read as an array index

  /** Keywords that carry names, notes or definitions and assert nothing themselves. */
  predicate IsAnnotation(k: Text) {
    k.Fixed? && (
      || k.word.Title? || k.word.Description? || k.word.Comment? || k.word.Default? || k.word.Examples?
      || k.word.Deprecated? || k.word.ReadOnly? || k.word.WriteOnly? || k.word.SchemaUri? || k.word.Id?
      || k.word.Anchor? || k.word.Defs? || k.word.Definitions?)
  }

  /** Keywords read together with the keyword they belong to, and the two left out of the semantics. */
  predicate IsCompanion(k: Text) {
    k.Fixed? && (
      || k.word.Then? || k.word.Else? || k.word.MinContains? || k.word.MaxContains? || k.word.AdditionalItems?
      || k.word.UnevaluatedItems? || k.word.UnevaluatedProperties?)
  }

  /** The value one reference token leads to. */
  function Child(env: Env, j: Json, token: Text): Option<Json> {
    match j
    case Obj(m) => Get(m, token)
    case Arr(es) =>
      var i := env.index(token);
      if i.Some? && i.value < |es| then Some(es[i.value]) else None
    case _ => None
  }

  /** Follow reference tokens into a document. */
  function Navigate(env: Env, j: Json, tokens: seq<Text>): Option<Json>
    decreases |tokens|
  {
    if tokens == [] then Some(j)
    else if Child(env, j, tokens[0]).None? then None
    else Navigate(env, Child(env, j, tokens[0]).value, tokens[1..])
  }

  /** Validation section 6.1.1: one type name. */
  predicate HasType(name: Text, v: Json) {
    match name
    case Fixed(NullType) => v.Null?
    case Fixed(BooleanType) => v.Bool?
    case Fixed(ObjectType) => v.Obj?
    case Fixed(ArrayType) => v.Arr?
    case Fixed(NumberType) => v.Num?
    case Fixed(StringType) => v.Str?
    case Fixed(IntegerType) => v.Num? && v.n.Floor as real == v.n
    case _ => false
  }

  predicate TypeOk(t: Json, v: Json) {
    match t
    case Str(name) => HasType(name, v)
    case Arr(names) => exists i :: 0 <= i < |names| && names[i].Str? && HasType(names[i].s, v)
    case _ => false
  }

  predicate RequiredOk(r: Json, v: Json) {
    v.Obj? && r.Arr? ==> forall i | 0 <= i < |r.elems| && r.elems[i].Str? :: r.elems[i].s in v.fields
  }

  /** The sub-schemas a map keyword of `s` names, or none when the keyword is absent or malformed. */
  function Members(s: map<Text, Json>, k: Text): map<Text, Json> {
    if k in s && s[k].Obj? then s[k].fields else map[]
  }

  function Elements(s: map<Text, Json>, k: Text): seq<Json> {
    if k in s && s[k].Arr? then s[k].elems else []
  }

  /** Core section 10.3.2.3: a property neither `properties` nor `patternProperties` covers. */
  predicate IsAdditional(env: Env, s: map<Text, Json>, name: Text) {
    && name !in Members(s, Fixed(Properties))
    && forall p | p in Members(s, Fixed(PatternProperties)) :: !env.matches(p, name)
  }

  /** How many array elements the prefix (or the legacy array form of `items`) covers. */
  function PrefixLength(s: map<Text, Json>): nat {
    if Fixed(Items) in s && s[Fixed(Items)].Arr? then |s[Fixed(Items)].elems| else |Elements(s, Fixed(PrefixItems))|
  }

  /** `contains` within its bounds: at least `minContains` (1 when absent), at most `maxContains`. */
  predicate CountOk(s: map<Text, Json>, count: nat) {
    && (if Fixed(MinContains) in s && s[Fixed(MinContains)].Num? then s[Fixed(MinContains)].n <= count as real else 1 <= count)
    && (Fixed(MaxContains) in s && s[Fixed(MaxContains)].Num? ==> count as real <= s[Fixed(MaxContains)].n)
  }

  /** A verdict on (schema, instance). */
  type Verdict = (Json, Json) -> bool

  // Core section 10.3.2: the object applicators, over the verdicts `sub` on the node's sub-schemas.

  ghost predicate PropertiesOk(m: map<Text, Json>, v: Json, sub: Verdict)
    requires Fixed(Properties) in m
  {
    m[Fixed(Properties)].Obj? && (v.Obj? ==>
      forall name | name in m[Fixed(Properties)].fields && name in v.fields ::
        sub(m[Fixed(Properties)].fields[name], v.fields[name]))
  }

  ghost predicate PatternPropertiesOk(env: Env, m: map<Text, Json>, v: Json, sub: Verdict)
    requires Fixed(PatternProperties) in m
  {
    v.Obj? ==> forall p, name | p in Members(m, Fixed(PatternProperties)) && name in v.fields && env.matches(p, name) ::
      sub(m[Fixed(PatternProperties)].fields[p], v.fields[name])
  }

  ghost predicate AdditionalPropertiesOk(env: Env, m: map<Text, Json>, v: Json, sub: Verdict)
    requires Fixed(AdditionalProperties) in m
  {
    v.Obj? ==> forall name | name in v.fields && IsAdditional(env, m, name) ::
      sub(m[Fixed(AdditionalProperties)], v.fields[name])
  }

  ghost predicate PropertyNamesOk(m: map<Text, Json>, v: Json, sub: Verdict)
    requires Fixed(PropertyNames) in m
  {
    v.Obj? ==> forall name | name in v.fields :: sub(m[Fixed(PropertyNames)], Str(name))
  }

  ghost predicate DependentSchemasOk(m: map<Text, Json>, v: Json, sub: Verdict)
    requires Fixed(DependentSchemas) in m
  {
    v.Obj? ==> forall name | name in Members(m, Fixed(DependentSchemas)) && name in v.fields ::
      sub(m[Fixed(DependentSchemas)].fields[name], v)
  }

  // Core section 10.3.1: the array applicators; `items` as an array is the form of earlier drafts.

  ghost predicate ItemsOk(m: map<Text, Json>, v: Json, sub: Verdict)
    requires Fixed(Items) in m
  {
    var items := m[Fixed(Items)];
    v.Arr? ==> (
      if items.Arr? then
        && (forall i | 0 <= i < |items.elems| && i < |v.elems| :: sub(items.elems[i], v.elems[i]))
        && (Fixed(AdditionalItems) in m ==>
            forall i | |items.elems| <= i < |v.elems| :: sub(m[Fixed(AdditionalItems)], v.elems[i]))
      else forall i | PrefixLength(m) <= i < |v.elems| :: sub(items, v.elems[i]))
  }

  ghost predicate PrefixItemsOk(m: map<Text, Json>, v: Json, sub: Verdict)
    requires Fixed(PrefixItems) in m
  {
    v.Arr? ==> forall i | 0 <= i < |Elements(m, Fixed(PrefixItems))| && i < |v.elems| ::
      sub(m[Fixed(PrefixItems)].elems[i], v.elems[i])
  }

  ghost predicate ContainsOk(m: map<Text, Json>, v: Json, sub: Verdict)
    requires Fixed(Contains) in m
  {
    v.Arr? ==> CountOk(m, |set i | 0 <= i < |v.elems| && sub(m[Fixed(Contains)], v.elems[i])|)
  }

  // Core section 10.2: the in-place applicators.

  ghost predicate AllOfOk(schemas: seq<Json>, v: Json, sub: Verdict) {
    forall i | 0 <= i < |schemas| :: sub(schemas[i], v)
  }

  ghost predicate AnyOfOk(schemas: seq<Json>, v: Json, sub: Verdict) {
    exists i :: 0 <= i < |schemas| && sub(schemas[i], v)
  }

  ghost predicate OneOfOk(schemas: seq<Json>, v: Json, sub: Verdict) {
    |set i | 0 <= i < |schemas| && sub(schemas[i], v)| == 1
  }

  ghost predicate IfOk(m: map<Text, Json>, v: Json, sub: Verdict)
    requires Fixed(If) in m
  {
    if sub(m[Fixed(If)], v)
    then Fixed(Then) in m ==> sub(m[Fixed(Then)], v)
    else Fixed(Else) in m ==> sub(m[Fixed(Else)], v)
  }

  /**
   * What one keyword of schema node `m` says about instance `v`, given the verdicts `sub` on its
   * sub-schemas and `ref` on the reference it may carry.
   */
  ghost predicate KeywordOk(env: Env, enforce: bool, m: map<Text, Json>, k: Text, v: Json, sub: Verdict, ref: Json -> bool)
    requires k in m
  {
    if k.Other? then env.assertion(k, m[k], v)
    else if IsAnnotation(k) || IsCompanion(k) then true
    else match k.word
      case Type => TypeOk(m[k], v)
      case Enum => m[k].Arr? && v in m[k].elems
      case Const => v == m[k]
      case Required => RequiredOk(m[k], v)
      case Format => enforce && m[k].Str? ==> env.formatOk(m[k].s, v)
      case Properties => PropertiesOk(m, v, sub)
      case PatternProperties => PatternPropertiesOk(env, m, v, sub)
      case AdditionalProperties => AdditionalPropertiesOk(env, m, v, sub)
      case PropertyNames => PropertyNamesOk(m, v, sub)
      case DependentSchemas => DependentSchemasOk(m, v, sub)
      case Items => ItemsOk(m, v, sub)
      case PrefixItems => PrefixItemsOk(m, v, sub)
      case Contains => ContainsOk(m, v, sub)
      case AllOf => AllOfOk(Elements(m, k), v, sub)
      case AnyOf => AnyOfOk(Elements(m, k), v, sub)
      case OneOf => OneOfOk(Elements(m, k), v, sub)
      case Not => !sub(m[k], v)
      case If => IfOk(m, v, sub)
      case Ref => ref(m[k])
      case _ => env.assertion(k, m[k], v)
  }

  /** A schema node holds of an instance when every one of its keywords does. */
  ghost predicate NodeOk(env: Env, enforce: bool, m: map<Text, Json>, v: Json, sub: Verdict, ref: Json -> bool) {
    forall k | k in m :: KeywordOk(env, enforce, m, k, v, sub, ref)
  }

  /** What a `$ref` resolves to: nothing in this document's reach, nothing at all, or a schema of it. */
  datatype Resolved = NotLocal | Missing | Target(schema: Json)

  function Resolve(env: Env, root: Json, ref: Json): Resolved {
    if !ref.Str? || env.pointer(ref.s).None? then NotLocal
    else match Navigate(env, root, env.pointer(ref.s).value)
      case None => Missing
      case Some(t) => Target(t)
  }

  /**
   * Whether instance `v` satisfies schema `s` of document `root`; `enforce` says whether `format`
   * asserts. `fuel` bounds how many references are followed one inside another.
   */
  ghost predicate Valid(env: Env, enforce: bool, root: Json, s: Json, v: Json, fuel: nat)
    decreases fuel, s, 1
  {
    match s
    case Bool(b) => b
    case Obj(m) => NodeOk(env, enforce, m, v, SubVerdict(env, enforce, root, s, fuel), RefVerdict(env, enforce, root, s, v, fuel))
    case _ => false
  }

  /** The verdict on the schemas inside `s`. */
  ghost function SubVerdict(env: Env, enforce: bool, root: Json, s: Json, fuel: nat): Verdict
    decreases fuel, s, 0
  {
    (c: Json, w: Json) => c < s && Valid(env, enforce, root, c, w, fuel)
  }

  /** A reference into this document holds where what it resolves to holds; any other is left open. */
  ghost function RefVerdict(env: Env, enforce: bool, root: Json, s: Json, v: Json, fuel: nat): Json -> bool
    decreases fuel, s, 0
  {
    (ref: Json) =>
      match Resolve(env, root, ref)
      case NotLocal => env.assertion(Fixed(Ref), ref, v)
      case Missing => false
      case Target(t) => fuel > 0 && Valid(env, enforce, root, t, v, fuel - 1)
  }
}
