/**
 * The Pi adapter's schema-aware walk: it drops the `format` keyword at schema positions and nowhere
 * else. The central claim is that the walk turns the format-enforcing validator into the authoritative
 * one, exactly.
 */
module SchemaStrip {
  import opened Options
  import opened Json
  import opened SchemaSemantics

  predicate StripKeywords(k: Text) {
    k == Fixed(Format)
  }

  predicate SchemaMapKeywords(k: Text) {
    k.Fixed? && (
      || k.word.Properties? || k.word.PatternProperties? || k.word.Defs? || k.word.Definitions?
      || k.word.DependentSchemas?)
  }

  predicate SchemaKeywords(k: Text) {
    k.Fixed? && (
      || k.word.AdditionalProperties? || k.word.AdditionalItems? || k.word.Contains? || k.word.If?
      || k.word.Then? || k.word.Else? || k.word.Not? || k.word.PropertyNames? || k.word.UnevaluatedItems?
      || k.word.UnevaluatedProperties?)
  }

  predicate SchemaArrayKeywords(k: Text) {
    k.Fixed? && (k.word.AllOf? || k.word.AnyOf? || k.word.OneOf? || k.word.PrefixItems?)
  }

  // ----- the walk -------------------------------------------------------------------------------

  function StripMap(value: Json): Json
    decreases value, 1
  {
    if value.Obj? then Obj(map name | name in value.fields :: StripNode(value.fields[name])) else value
  }

  function StripArray(value: Json): Json
    decreases value, 1
  {
    if value.Arr? then Arr(seq(|value.elems|, i requires 0 <= i < |value.elems| => StripNode(value.elems[i]))) else value
  }

  function StripNode(node: Json): Json
    decreases node, 0
  {
    if node.Obj? then
      Obj(map k | k in node.fields && !StripKeywords(k) :: StripKeyword(k, node.fields[k]))
    else node
  }

  function StripKeyword(k: Text, value: Json): Json
    decreases value, 2
  {
    if SchemaMapKeywords(k) then StripMap(value)
    else if SchemaArrayKeywords(k) then StripArray(value)
    else if k == Fixed(Items) then (if value.Arr? then StripArray(value) else StripNode(value))
    else if SchemaKeywords(k) then (if value.Obj? then StripNode(value) else value)
    else value
  }

  // ----- positions: what a place in the document is, read off the path that leads to it -----------

  /** A schema, a map of schemas, an array of schemas, or data. */
  datatype Position = AtSchema | AtMap | AtArray | AtData

  function Below(p: Position, container: Json, token: Text, value: Json): Position {
    match p
    case AtSchema =>
      if !container.Obj? then AtData
      else if SchemaMapKeywords(token) then AtMap
      else if SchemaArrayKeywords(token) || (token == Fixed(Items) && value.Arr?) then AtArray
      else if SchemaKeywords(token) || token == Fixed(Items) then AtSchema
      else AtData
    case AtMap => if container.Obj? then AtSchema else AtData
    case AtArray => if container.Arr? then AtSchema else AtData
    case AtData => AtData
  }

  /** What the walk makes of a value standing at a position. */
  function StripAt(p: Position, j: Json): Json {
    match p
    case AtSchema => StripNode(j)
    case AtMap => StripMap(j)
    case AtArray => StripArray(j)
    case AtData => j
  }

  /** Whether a path runs through a `format` keyword standing at a schema position. */
  predicate ThroughFormat(env: Env, p: Position, j: Json, tokens: seq<Text>)
    decreases |tokens|
  {
    if tokens == [] || Child(env, j, tokens[0]).None? then false
    else
      || (p.AtSchema? && j.Obj? && StripKeywords(tokens[0]))
      || ThroughFormat(env, Below(p, j, tokens[0], Child(env, j, tokens[0]).value),
                       Child(env, j, tokens[0]).value, tokens[1..])
  }

  /** The position a path leads to. */
  function Landing(env: Env, p: Position, j: Json, tokens: seq<Text>): Position
    decreases |tokens|
  {
    if tokens == [] || Child(env, j, tokens[0]).None? then p
    else
      var child := Child(env, j, tokens[0]).value;
      Landing(env, Below(p, j, tokens[0], child), child, tokens[1..])
  }

  lemma {:induction false} KeywordAtPosition(m: map<Text, Json>, k: Text)
    requires k in m
    ensures StripKeyword(k, m[k]) == StripAt(Below(AtSchema, Obj(m), k, m[k]), m[k])
  {
  }

  lemma {:induction false} ChildOfStripped(env: Env, p: Position, j: Json, token: Text)
    requires Child(env, j, token).Some?
    requires !(p.AtSchema? && j.Obj? && StripKeywords(token))
    ensures Child(env, StripAt(p, j), token) ==
      Some(StripAt(Below(p, j, token, Child(env, j, token).value), Child(env, j, token).value))
  {
    if p.AtSchema? && j.Obj? {
      KeywordAtPosition(j.fields, token);
      assert StripNode(j).fields[token] == StripKeyword(token, j.fields[token]);
    } else if p.AtMap? && j.Obj? {
      assert StripMap(j).fields[token] == StripNode(j.fields[token]);
    } else if p.AtArray? && j.Arr? {
      var i := env.index(token).value;
      assert StripArray(j).elems[i] == StripNode(j.elems[i]);
    } else {
      assert StripAt(p, j) == j;
    }
  }

  /**
   * The walk place by place: a path that runs through a stripped keyword leads nowhere any more, and
   * every other path leads to what the walk makes of the value that stood there - unchanged in a data
   * position.
   */
  lemma {:induction false} StripPlaceByPlace(env: Env, p: Position, j: Json, tokens: seq<Text>)
    ensures Navigate(env, StripAt(p, j), tokens) ==
      if ThroughFormat(env, p, j, tokens) || Navigate(env, j, tokens).None? then None
      else Some(StripAt(Landing(env, p, j, tokens), Navigate(env, j, tokens).value))
    decreases |tokens|
  {
    if tokens != [] {
      var child := Child(env, j, tokens[0]);
      if child.Some? && !(p.AtSchema? && j.Obj? && StripKeywords(tokens[0])) {
        ChildOfStripped(env, p, j, tokens[0]);
        StripPlaceByPlace(env, Below(p, j, tokens[0], child.value), child.value, tokens[1..]);
      }
    }
  }

  // ----- what is removed, and only that ----------------------------------------------------------

  /** No `format` keyword at any schema position. */
  predicate FormatFree(p: Position, j: Json)
    decreases j
  {
    match p
    case AtSchema => j.Obj? ==> forall k | k in j.fields ::
      !StripKeywords(k) && FormatFree(Below(p, j, k, j.fields[k]), j.fields[k])
    case AtMap => j.Obj? ==> forall k | k in j.fields :: FormatFree(AtSchema, j.fields[k])
    case AtArray => j.Arr? ==> forall i | 0 <= i < |j.elems| :: FormatFree(AtSchema, j.elems[i])
    case AtData => true
  }

  /** The walk leaves no `format` keyword behind. */
  lemma {:induction false} StrippedIsFormatFree(p: Position, j: Json)
    ensures FormatFree(p, StripAt(p, j))
    decreases j
  {
    match p
    case AtSchema =>
      if j.Obj? {
        forall k | k in StripNode(j).fields
          ensures FormatFree(Below(p, StripNode(j), k, StripNode(j).fields[k]), StripNode(j).fields[k])
        {
          KeywordAtPosition(j.fields, k);
          StrippedIsFormatFree(Below(p, j, k, j.fields[k]), j.fields[k]);
          assert Below(p, StripNode(j), k, StripNode(j).fields[k]) == Below(p, j, k, j.fields[k]);
        }
      }
    case AtMap =>
      if j.Obj? {
        forall k | k in j.fields { StrippedIsFormatFree(AtSchema, j.fields[k]); }
      }
    case AtArray =>
      if j.Arr? {
        forall i | 0 <= i < |j.elems| { StrippedIsFormatFree(AtSchema, j.elems[i]); }
      }
    case AtData =>
  }

  /** The schemas the walk leaves alone are exactly those without a `format` keyword. */
  lemma {:induction false} UnchangedIffFormatFree(p: Position, j: Json)
    ensures StripAt(p, j) == j <==> FormatFree(p, j)
    decreases j
  {
    if StripAt(p, j) == j { StrippedIsFormatFree(p, j); }
    if FormatFree(p, j) {
      match p
      case AtSchema =>
        if j.Obj? {
          forall k | k in j.fields ensures StripKeyword(k, j.fields[k]) == j.fields[k] {
            KeywordAtPosition(j.fields, k);
            UnchangedIffFormatFree(Below(p, j, k, j.fields[k]), j.fields[k]);
          }
          assert StripNode(j).fields == j.fields;
        }
      case AtMap =>
        if j.Obj? {
          forall k | k in j.fields { UnchangedIffFormatFree(AtSchema, j.fields[k]); }
          assert StripMap(j).fields == j.fields;
        }
      case AtArray =>
        if j.Arr? {
          forall i | 0 <= i < |j.elems| { UnchangedIffFormatFree(AtSchema, j.elems[i]); }
          assert StripArray(j).elems == j.elems;
        }
      case AtData =>
    }
  }

  lemma {:induction false} StripIdempotent(node: Json)
    ensures StripNode(StripNode(node)) == StripNode(node)
  {
    StrippedIsFormatFree(AtSchema, node);
    UnchangedIffFormatFree(AtSchema, StripNode(node));
  }

  lemma {:induction false} MembersStripped(m: map<Text, Json>, k: Text)
    requires SchemaMapKeywords(k)
    ensures k in m ==> k in StripNode(Obj(m)).fields && StripNode(Obj(m)).fields[k].Obj? == m[k].Obj?
    ensures Members(StripNode(Obj(m)).fields, k).Keys == Members(m, k).Keys
    ensures forall name | name in Members(m, k) :: Members(StripNode(Obj(m)).fields, k)[name] == StripNode(m[k].fields[name])
  {
    if k in m {
      KeywordAtPosition(m, k);
      assert StripNode(Obj(m)).fields[k] == StripMap(m[k]);
    }
  }

  lemma {:induction false} ElementsStripped(m: map<Text, Json>, k: Text)
    requires SchemaArrayKeywords(k) || (k == Fixed(Items) && k in m && m[k].Arr?)
    ensures |Elements(StripNode(Obj(m)).fields, k)| == |Elements(m, k)|
    ensures forall i | 0 <= i < |Elements(m, k)| :: Elements(StripNode(Obj(m)).fields, k)[i] == StripNode(m[k].elems[i])
  {
    if k in m {
      KeywordAtPosition(m, k);
      assert StripNode(Obj(m)).fields[k] == StripArray(m[k]);
    }
  }

  /** The keywords of a node whose value is one schema. */
  predicate HoldsSchema(m: map<Text, Json>, k: Text) {
    k in m && (SchemaKeywords(k) || (k == Fixed(Items) && !m[k].Arr?))
  }

  /** The keywords of a node whose value is an array of schemas. */
  predicate HoldsArray(m: map<Text, Json>, k: Text) {
    k in m && (SchemaArrayKeywords(k) || k == Fixed(Items)) && m[k].Arr?
  }

  lemma {:induction false} SchemaStripped(m: map<Text, Json>, k: Text)
    requires HoldsSchema(m, k)
    ensures k in StripNode(Obj(m)).fields && StripNode(Obj(m)).fields[k] == StripNode(m[k])
  {
    KeywordAtPosition(m, k);
  }

  /**
   * A node loses its `format` keyword and no other; a map of schemas keeps every name, so a property
   * literally named `format` stays declared.
   */
  lemma {:induction false} NamesKept(m: map<Text, Json>, k: Text)
    requires k in m && SchemaMapKeywords(k) && m[k].Obj?
    ensures StripNode(Obj(m)).fields.Keys == m.Keys - {Fixed(Format)}
    ensures StripNode(Obj(m)).fields[k].Obj?
    ensures StripNode(Obj(m)).fields[k].fields.Keys == m[k].fields.Keys
    ensures forall name | name in m[k].fields ::
      StripNode(Obj(m)).fields[k].fields[name] == StripNode(m[k].fields[name])
  {
    MembersStripped(m, k);
    KeywordAtPosition(m, k);
    assert StripNode(Obj(m)).fields[k] == StripMap(m[k]);
  }

  // ----- references -------------------------------------------------------------------------------

  /** A value no instance is valid under: neither an object nor `true`. */
  predicate AcceptsNothing(t: Json) { !t.Obj? && t != Bool(true) }

  /**
   * A reference whose target is stripped like a schema, wherever it stands: it leads nowhere, or to something
   * that accepts nothing, or, past no `format`, to a value that the walk leaves as it leaves a schema.
   */
  predicate RefCommutes(env: Env, root: Json, ref: Json) {
    Resolve(env, root, ref).Target? ==>
      var tokens, t := env.pointer(ref.s).value, Resolve(env, root, ref).schema;
      || AcceptsNothing(t)
      || (!ThroughFormat(env, AtSchema, root, tokens) && StripAt(Landing(env, AtSchema, root, tokens), t) == StripNode(t))
  }

  /** Every `$ref` below a position commutes with the walk, and so do those of its target, as far as they are followed. */
  predicate RefsOk(env: Env, root: Json, p: Position, j: Json, fuel: nat)
    decreases fuel, j
  {
    match p
    case AtSchema => j.Obj? ==> (
      && (Fixed(Ref) in j.fields ==>
          && RefCommutes(env, root, j.fields[Fixed(Ref)])
          && (Resolve(env, root, j.fields[Fixed(Ref)]).Target? && fuel > 0 ==>
              RefsOk(env, root, AtSchema, Resolve(env, root, j.fields[Fixed(Ref)]).schema, fuel - 1)))
      && forall k | k in j.fields :: RefsOk(env, root, Below(p, j, k, j.fields[k]), j.fields[k], fuel))
    case AtMap => j.Obj? ==> forall k | k in j.fields :: RefsOk(env, root, AtSchema, j.fields[k], fuel)
    case AtArray => j.Arr? ==> forall i | 0 <= i < |j.elems| :: RefsOk(env, root, AtSchema, j.elems[i], fuel)
    case AtData => true
  }

  /** A reference into this document that leads nowhere, or to a schema position past no `format`. */
  predicate RefLandsOnSchema(env: Env, root: Json, ref: Json) {
    Resolve(env, root, ref).Target? ==>
      && !ThroughFormat(env, AtSchema, root, env.pointer(ref.s).value)
      && Landing(env, AtSchema, root, env.pointer(ref.s).value).AtSchema?
  }

  /** Every `$ref` below a position lands on a schema of `root`. */
  predicate RefsLand(env: Env, root: Json, p: Position, j: Json)
    decreases j
  {
    match p
    case AtSchema => j.Obj? ==> (
      && (Fixed(Ref) in j.fields ==> RefLandsOnSchema(env, root, j.fields[Fixed(Ref)]))
      && forall k | k in j.fields :: RefsLand(env, root, Below(p, j, k, j.fields[k]), j.fields[k]))
    case AtMap => j.Obj? ==> forall k | k in j.fields :: RefsLand(env, root, AtSchema, j.fields[k])
    case AtArray => j.Arr? ==> forall i | 0 <= i < |j.elems| :: RefsLand(env, root, AtSchema, j.elems[i])
    case AtData => true
  }

  lemma {:induction false} RefsLandAtLanding(env: Env, root: Json, p: Position, j: Json, tokens: seq<Text>)
    requires RefsLand(env, root, p, j) && Navigate(env, j, tokens).Some?
    ensures RefsLand(env, root, Landing(env, p, j, tokens), Navigate(env, j, tokens).value)
    decreases |tokens|
  {
    if tokens != [] {
      var child := Child(env, j, tokens[0]).value;
      assert RefsLand(env, root, Below(p, j, tokens[0], child), child);
      RefsLandAtLanding(env, root, Below(p, j, tokens[0], child), child, tokens[1..]);
    }
  }

  /** In a document whose references all land on schemas, they commute however far they are followed. */
  lemma {:induction false} LandingRefsOk(env: Env, root: Json, p: Position, j: Json, fuel: nat)
    requires RefsLand(env, root, AtSchema, root) && RefsLand(env, root, p, j)
    ensures RefsOk(env, root, p, j, fuel)
    decreases fuel, j
  {
    match p
    case AtSchema =>
      if j.Obj? {
        forall k | k in j.fields ensures RefsOk(env, root, Below(p, j, k, j.fields[k]), j.fields[k], fuel) {
          LandingRefsOk(env, root, Below(p, j, k, j.fields[k]), j.fields[k], fuel);
        }
        if Fixed(Ref) in j.fields && Resolve(env, root, j.fields[Fixed(Ref)]).Target? && fuel > 0 {
          var ref := j.fields[Fixed(Ref)];
          RefsLandAtLanding(env, root, AtSchema, root, env.pointer(ref.s).value);
          LandingRefsOk(env, root, AtSchema, Resolve(env, root, ref).schema, fuel - 1);
        }
      }
    case AtMap => if j.Obj? { forall k | k in j.fields { LandingRefsOk(env, root, AtSchema, j.fields[k], fuel); } }
    case AtArray => if j.Arr? { forall i | 0 <= i < |j.elems| { LandingRefsOk(env, root, AtSchema, j.elems[i], fuel); } }
    case AtData =>
  }

  // ----- exactness ----------------------------------------------------------------------------------

  /** Two verdicts that agree across the walk on every sub-schema of a node. */
  ghost predicate Agree(m: map<Text, Json>, stripped: Verdict, plain: Verdict) {
    && (forall k, w | HoldsSchema(m, k) :: stripped(StripNode(m[k]), w) == plain(m[k], w))
    && (forall k, name, w | SchemaMapKeywords(k) && name in Members(m, k) ::
        stripped(StripNode(m[k].fields[name]), w) == plain(m[k].fields[name], w))
    && (forall k, i, w | HoldsArray(m, k) && 0 <= i < |m[k].elems| ::
        stripped(StripNode(m[k].elems[i]), w) == plain(m[k].elems[i], w))
  }

  lemma {:induction false} MapKeyword(env: Env, m: map<Text, Json>, k: Text, v: Json, stripped: Verdict, plain: Verdict, r1: Json -> bool, r2: Json -> bool)
    requires k in m && SchemaMapKeywords(k) && Agree(m, stripped, plain)
    ensures k in StripNode(Obj(m)).fields
    ensures KeywordOk(env, true, StripNode(Obj(m)).fields, k, v, stripped, r1) == KeywordOk(env, false, m, k, v, plain, r2)
  {
    MembersStripped(m, k);
  }

  /** Two nodes whose arrays under `k` pair up element by element, in verdict. */
  lemma {:induction false} ArrayKeyword(env: Env, m: map<Text, Json>, t: map<Text, Json>, k: Text, v: Json, stripped: Verdict, plain: Verdict, r1: Json -> bool, r2: Json -> bool)
    requires k in m && k in t && (SchemaArrayKeywords(k) || k == Fixed(Items)) && m[k].Arr? && t[k].Arr?
    requires |t[k].elems| == |m[k].elems|
    requires forall i, w | 0 <= i < |m[k].elems| :: stripped(t[k].elems[i], w) == plain(m[k].elems[i], w)
    requires Fixed(AdditionalItems) in t <==> Fixed(AdditionalItems) in m
    requires Fixed(AdditionalItems) in m ==> forall w :: stripped(t[Fixed(AdditionalItems)], w) == plain(m[Fixed(AdditionalItems)], w)
    ensures KeywordOk(env, true, t, k, v, stripped, r1) == KeywordOk(env, false, m, k, v, plain, r2)
  {
    if k == Fixed(OneOf) {
      assert (set i | 0 <= i < |Elements(t, k)| && stripped(t[k].elems[i], v)) ==
             (set i | 0 <= i < |Elements(m, k)| && plain(m[k].elems[i], v));
    }
  }

  /** Two nodes that read the same around `k` and whose schemas under it agree in verdict. */
  lemma {:induction false} SchemaKeyword(env: Env, m: map<Text, Json>, t: map<Text, Json>, k: Text, v: Json, stripped: Verdict, plain: Verdict, r1: Json -> bool, r2: Json -> bool)
    requires k in m && k in t && (SchemaKeywords(k) || (k == Fixed(Items) && !m[k].Arr? && !t[k].Arr?))
    requires forall w :: stripped(t[k], w) == plain(m[k], w)
    requires forall c | c in {Fixed(Then), Fixed(Else)} ::
      (c in t <==> c in m) && (c in m ==> forall w :: stripped(t[c], w) == plain(m[c], w))
    requires forall name :: IsAdditional(env, t, name) == IsAdditional(env, m, name)
    requires k == Fixed(Items) ==> PrefixLength(t) == PrefixLength(m)
    requires forall n :: CountOk(t, n) == CountOk(m, n)
    ensures KeywordOk(env, true, t, k, v, stripped, r1) == KeywordOk(env, false, m, k, v, plain, r2)
  {
    if k == Fixed(Contains) && v.Arr? {
      assert (set i | 0 <= i < |v.elems| && stripped(t[k], v.elems[i])) ==
             (set i | 0 <= i < |v.elems| && plain(m[k], v.elems[i]));
    }
  }

  lemma {:induction false} AdditionalKept(env: Env, m: map<Text, Json>, name: Text)
    ensures IsAdditional(env, StripNode(Obj(m)).fields, name) == IsAdditional(env, m, name)
  {
    MembersStripped(m, Fixed(Properties));
    MembersStripped(m, Fixed(PatternProperties));
  }

  lemma {:induction false} PrefixKept(m: map<Text, Json>)
    requires HoldsSchema(m, Fixed(Items))
    ensures !StripNode(m[Fixed(Items)]).Arr? && PrefixLength(StripNode(Obj(m)).fields) == PrefixLength(m)
  {
    ElementsStripped(m, Fixed(PrefixItems));
    SchemaStripped(m, Fixed(Items));
  }

  lemma {:induction false} CountKept(m: map<Text, Json>, n: nat)
    ensures CountOk(StripNode(Obj(m)).fields, n) == CountOk(m, n)
  {
    forall k | k in {Fixed(MinContains), Fixed(MaxContains)} && k in m ensures StripNode(Obj(m)).fields[k] == m[k] {
      KeywordAtPosition(m, k);
    }
  }

  lemma {:induction false} KeywordVerdict(env: Env, m: map<Text, Json>, t: map<Text, Json>, k: Text, v: Json, stripped: Verdict, plain: Verdict, r1: Json -> bool, r2: Json -> bool)
    requires t == StripNode(Obj(m)).fields && k in m && k != Fixed(Format) && Agree(m, stripped, plain)
    requires k == Fixed(Ref) ==> r1(m[k]) == r2(m[k])
    ensures k in t && KeywordOk(env, true, t, k, v, stripped, r1) == KeywordOk(env, false, m, k, v, plain, r2)
  {
    KeywordAtPosition(m, k);
    if SchemaMapKeywords(k) {
      MapKeyword(env, m, k, v, stripped, plain, r1, r2);
    } else if HoldsArray(m, k) {
      ElementsStripped(m, k);
      if Fixed(AdditionalItems) in m { SchemaStripped(m, Fixed(AdditionalItems)); }
      ArrayKeyword(env, m, t, k, v, stripped, plain, r1, r2);
    } else if HoldsSchema(m, k) {
      HeldSchemaVerdict(env, m, t, k, v, stripped, plain, r1, r2);
    } else {
      DataKeyword(env, m, t, k, v, stripped, plain, r1, r2);
    }
  }

  lemma {:induction false} HeldSchemaVerdict(env: Env, m: map<Text, Json>, t: map<Text, Json>, k: Text, v: Json, stripped: Verdict, plain: Verdict, r1: Json -> bool, r2: Json -> bool)
    requires t == StripNode(Obj(m)).fields && HoldsSchema(m, k) && Agree(m, stripped, plain)
    ensures k in t && KeywordOk(env, true, t, k, v, stripped, r1) == KeywordOk(env, false, m, k, v, plain, r2)
  {
    SchemaStripped(m, k);
    if Fixed(Then) in m { SchemaStripped(m, Fixed(Then)); }
    if Fixed(Else) in m { SchemaStripped(m, Fixed(Else)); }
    forall name { AdditionalKept(env, m, name); }
    forall n { CountKept(m, n); }
    if k == Fixed(Items) { PrefixKept(m); }
    SchemaKeyword(env, m, t, k, v, stripped, plain, r1, r2);
  }

  /** A keyword whose value the walk leaves alone says the same before and after. */
  lemma {:induction false} DataKeyword(env: Env, m: map<Text, Json>, t: map<Text, Json>, k: Text, v: Json, stripped: Verdict, plain: Verdict, r1: Json -> bool, r2: Json -> bool)
    requires k in m && k in t && t[k] == m[k] && k != Fixed(Format)
    requires !SchemaMapKeywords(k) && !HoldsArray(m, k) && !HoldsSchema(m, k)
    requires k == Fixed(Ref) ==> r1(m[k]) == r2(m[k])
    ensures KeywordOk(env, true, t, k, v, stripped, r1) == KeywordOk(env, false, m, k, v, plain, r2)
  {
  }

  lemma {:induction false} NodeVerdict(env: Env, m: map<Text, Json>, t: map<Text, Json>, v: Json, stripped: Verdict, plain: Verdict, r1: Json -> bool, r2: Json -> bool)
    requires t == StripNode(Obj(m)).fields && Agree(m, stripped, plain)
    requires Fixed(Ref) in m ==> r1(m[Fixed(Ref)]) == r2(m[Fixed(Ref)])
    ensures NodeOk(env, true, t, v, stripped, r1) == NodeOk(env, false, m, v, plain, r2)
  {
    assert t.Keys == m.Keys - {Fixed(Format)};
    forall k | k in m && k != Fixed(Format) {
      KeywordVerdict(env, m, t, k, v, stripped, plain, r1, r2);
    }
  }

  lemma {:induction false} RefStripped(env: Env, root: Json, ref: Json)
    requires RefCommutes(env, root, ref)
    ensures match Resolve(env, root, ref)
      case NotLocal => Resolve(env, StripNode(root), ref) == NotLocal
      case Missing => Resolve(env, StripNode(root), ref) == Missing
      case Target(t) =>
        if AcceptsNothing(t) then Resolve(env, StripNode(root), ref).Target? ==> AcceptsNothing(Resolve(env, StripNode(root), ref).schema)
        else Resolve(env, StripNode(root), ref) == Target(StripNode(t))
  {
    if ref.Str? && env.pointer(ref.s).Some? {
      StripPlaceByPlace(env, AtSchema, root, env.pointer(ref.s).value);
    }
  }

  lemma {:induction false} SubschemaAgrees(env: Env, root: Json, s: Json, c: Json, w: Json, fuel: nat)
    requires RefsOk(env, root, AtSchema, c, fuel)
    requires c < s && StripNode(c) < StripNode(s)
    ensures SubVerdict(env, true, StripNode(root), StripNode(s), fuel)(StripNode(c), w) == SubVerdict(env, false, root, s, fuel)(c, w)
    decreases fuel, s, 0
  {
    StripPreservesVerdict(env, root, c, w, fuel);
  }

  lemma {:induction false} NamedSchemaSmaller(env: Env, root: Json, s: Json, k: Text, name: Text, fuel: nat)
    requires RefsOk(env, root, AtSchema, s, fuel) && s.Obj? && SchemaMapKeywords(k) && name in Members(s.fields, k)
    ensures s.fields[k].fields[name] < s && StripNode(s.fields[k].fields[name]) < StripNode(s)
    ensures RefsOk(env, root, AtSchema, s.fields[k].fields[name], fuel)
  {
    var m, t := s.fields, StripNode(s).fields;
    MembersStripped(m, k);
    assert t[k].fields[name] < t[k] < StripNode(s);
    assert m[k].fields[name] < m[k] < s;
    assert RefsOk(env, root, Below(AtSchema, s, k, m[k]), m[k], fuel);
  }

  lemma {:induction false} ListedSchemaSmaller(env: Env, root: Json, s: Json, k: Text, i: nat, fuel: nat)
    requires RefsOk(env, root, AtSchema, s, fuel) && s.Obj? && HoldsArray(s.fields, k) && i < |s.fields[k].elems|
    ensures s.fields[k].elems[i] < s && StripNode(s.fields[k].elems[i]) < StripNode(s)
    ensures RefsOk(env, root, AtSchema, s.fields[k].elems[i], fuel)
  {
    var m, t := s.fields, StripNode(s).fields;
    ElementsStripped(m, k);
    assert t[k].elems[i] < t[k] < StripNode(s);
    assert m[k].elems[i] < m[k] < s;
    assert RefsOk(env, root, Below(AtSchema, s, k, m[k]), m[k], fuel);
  }

  lemma {:induction false} HeldSchemaSmaller(env: Env, root: Json, s: Json, k: Text, fuel: nat)
    requires RefsOk(env, root, AtSchema, s, fuel) && s.Obj? && HoldsSchema(s.fields, k)
    ensures s.fields[k] < s && StripNode(s.fields[k]) < StripNode(s)
    ensures RefsOk(env, root, AtSchema, s.fields[k], fuel)
  {
    SchemaStripped(s.fields, k);
    assert StripNode(s).fields[k] < StripNode(s);
    assert RefsOk(env, root, Below(AtSchema, s, k, s.fields[k]), s.fields[k], fuel);
  }

  lemma {:induction false} SubschemasAgree(env: Env, root: Json, s: Json, fuel: nat)
    requires RefsOk(env, root, AtSchema, s, fuel) && s.Obj?
    ensures Agree(s.fields, SubVerdict(env, true, StripNode(root), StripNode(s), fuel), SubVerdict(env, false, root, s, fuel))
    decreases fuel, s, 1
  {
    var m := s.fields;
    var stripped, plain := SubVerdict(env, true, StripNode(root), StripNode(s), fuel), SubVerdict(env, false, root, s, fuel);
    forall k, w | HoldsSchema(m, k) ensures stripped(StripNode(m[k]), w) == plain(m[k], w) {
      HeldSchemaSmaller(env, root, s, k, fuel);
      SubschemaAgrees(env, root, s, m[k], w, fuel);
    }
    forall k, name, w | SchemaMapKeywords(k) && name in Members(m, k)
      ensures stripped(StripNode(m[k].fields[name]), w) == plain(m[k].fields[name], w)
    {
      NamedSchemaSmaller(env, root, s, k, name, fuel);
      SubschemaAgrees(env, root, s, m[k].fields[name], w, fuel);
    }
    forall k, i, w | HoldsArray(m, k) && 0 <= i < |m[k].elems|
      ensures stripped(StripNode(m[k].elems[i]), w) == plain(m[k].elems[i], w)
    {
      ListedSchemaSmaller(env, root, s, k, i, fuel);
      SubschemaAgrees(env, root, s, m[k].elems[i], w, fuel);
    }
  }

  lemma {:induction false} NothingIsValid(env: Env, enforce: bool, root: Json, t: Json, v: Json, fuel: nat)
    requires AcceptsNothing(t)
    ensures !Valid(env, enforce, root, t, v, fuel)
  {
  }

  /** A reference to something that accepts nothing holds of nothing, before and after. */
  lemma {:induction false} NothingAgrees(env: Env, enforce: bool, root: Json, s: Json, v: Json, fuel: nat, ref: Json)
    requires Resolve(env, root, ref).Missing? || (Resolve(env, root, ref).Target? && AcceptsNothing(Resolve(env, root, ref).schema))
    ensures !RefVerdict(env, enforce, root, s, v, fuel)(ref)
  {
    if Resolve(env, root, ref).Target? && fuel > 0 {
      NothingIsValid(env, enforce, root, Resolve(env, root, ref).schema, v, fuel - 1);
    }
  }

  lemma {:induction false} RefAgrees(env: Env, root: Json, s: Json, v: Json, fuel: nat)
    requires RefsOk(env, root, AtSchema, s, fuel)
    requires s.Obj? && Fixed(Ref) in s.fields
    ensures RefVerdict(env, true, StripNode(root), StripNode(s), v, fuel)(s.fields[Fixed(Ref)]) ==
            RefVerdict(env, false, root, s, v, fuel)(s.fields[Fixed(Ref)])
    decreases fuel, s, 0
  {
    var ref := s.fields[Fixed(Ref)];
    var to := Resolve(env, root, ref);
    RefStripped(env, root, ref);
    if to.Missing? || (to.Target? && AcceptsNothing(to.schema)) {
      NothingAgrees(env, false, root, s, v, fuel, ref);
      StrippedAway(env, root, ref);
      NothingAgrees(env, true, StripNode(root), StripNode(s), v, fuel, ref);
    } else {
      if to.Target? && fuel > 0 { StripPreservesVerdict(env, root, to.schema, v, fuel - 1); }
      SameTargetAgrees(env, root, s, v, fuel, ref);
    }
  }

  /** Verdicts on a reference agree when what it resolves to is stripped like a schema and its verdicts agree. */
  lemma {:induction false} SameTargetAgrees(env: Env, root: Json, s: Json, v: Json, fuel: nat, ref: Json)
    requires Resolve(env, root, ref).NotLocal? ==> Resolve(env, StripNode(root), ref).NotLocal?
    requires !Resolve(env, root, ref).Missing?
    requires Resolve(env, root, ref).Target? ==> Resolve(env, StripNode(root), ref) == Target(StripNode(Resolve(env, root, ref).schema))
    requires Resolve(env, root, ref).Target? && fuel > 0 ==>
      Valid(env, true, StripNode(root), StripNode(Resolve(env, root, ref).schema), v, fuel - 1) == Valid(env, false, root, Resolve(env, root, ref).schema, v, fuel - 1)
    ensures RefVerdict(env, true, StripNode(root), StripNode(s), v, fuel)(ref) == RefVerdict(env, false, root, s, v, fuel)(ref)
  {
  }

  lemma {:induction false} StrippedAway(env: Env, root: Json, ref: Json)
    requires RefCommutes(env, root, ref)
    requires Resolve(env, root, ref).Missing? || (Resolve(env, root, ref).Target? && AcceptsNothing(Resolve(env, root, ref).schema))
    ensures var to := Resolve(env, StripNode(root), ref); to.Missing? || (to.Target? && AcceptsNothing(to.schema))
  {
    StripPlaceByPlace(env, AtSchema, root, env.pointer(ref.s).value);
  }

  /**
   * Below a node whose references commute with the walk: the format-enforcing validator on the stripped
   * node accepts exactly what the format-ignoring validator accepts on the node.
   */
  lemma {:induction false} StripPreservesVerdict(env: Env, root: Json, s: Json, v: Json, fuel: nat)
    requires RefsOk(env, root, AtSchema, s, fuel)
    ensures Valid(env, true, StripNode(root), StripNode(s), v, fuel) == Valid(env, false, root, s, v, fuel)
    decreases fuel, s, 2
  {
    if s.Obj? {
      var m := s.fields;
      SubschemasAgree(env, root, s, fuel);
      if Fixed(Ref) in m { RefAgrees(env, root, s, v, fuel); }
      NodeVerdict(env, m, StripNode(s).fields, v,
                  SubVerdict(env, true, StripNode(root), StripNode(s), fuel), SubVerdict(env, false, root, s, fuel),
                  RefVerdict(env, true, StripNode(root), StripNode(s), v, fuel), RefVerdict(env, false, root, s, v, fuel));
    }
  }

  /**
   * Stripping is exact: the Pi SDK's format-enforcing validator on the model-facing schema accepts
   * exactly what the authoritative validator accepts on the tool's own schema.
   */
  lemma {:induction false} StripExact(env: Env, parameters: Json, v: Json, fuel: nat)
    requires RefsOk(env, parameters, AtSchema, parameters, fuel)
    ensures Valid(env, true, StripNode(parameters), StripNode(parameters), v, fuel) <==>
            Valid(env, false, parameters, parameters, v, fuel)
  {
    StripPreservesVerdict(env, parameters, parameters, v, fuel);
  }

  /** What a reference into a data position resolves to after the walk, and when that is the stripped schema. */
  lemma {:induction false} DataReference(env: Env, root: Json, ref: Json)
    requires Resolve(env, root, ref).Target?
    requires !ThroughFormat(env, AtSchema, root, env.pointer(ref.s).value)
    requires Landing(env, AtSchema, root, env.pointer(ref.s).value).AtData?
    ensures Resolve(env, StripNode(root), ref) == Resolve(env, root, ref)
    ensures Resolve(env, StripNode(root), ref) == Target(StripNode(Resolve(env, root, ref).schema)) <==>
            FormatFree(AtSchema, Resolve(env, root, ref).schema)
  {
    StripPlaceByPlace(env, AtSchema, root, env.pointer(ref.s).value);
    UnchangedIffFormatFree(AtSchema, Resolve(env, root, ref).schema);
  }

  // ----- when a reference into data spoils exactness -------------------------------------------------

  /** A node that says nothing but where it refers to. */
  predicate IsReference(m: map<Text, Json>) {
    Fixed(Ref) in m && forall k | k in m :: k == Fixed(Ref) || IsAnnotation(k)
  }

  lemma {:induction false} ReferenceNode(env: Env, enforce: bool, m: map<Text, Json>, v: Json, sub: Verdict, ref: Json -> bool)
    requires IsReference(m)
    ensures NodeOk(env, enforce, m, v, sub, ref) <==> ref(m[Fixed(Ref)])
  {
    assert KeywordOk(env, enforce, m, Fixed(Ref), v, sub, ref) <==> ref(m[Fixed(Ref)]);
  }

  lemma {:induction false} FollowsReference(env: Env, enforce: bool, root: Json, m: map<Text, Json>, t: Json, v: Json, fuel: nat)
    requires IsReference(m) && Resolve(env, root, m[Fixed(Ref)]) == Target(t) && fuel > 0
    ensures Valid(env, enforce, root, Obj(m), v, fuel) <==> Valid(env, enforce, root, t, v, fuel - 1)
  {
    ReferenceNode(env, enforce, m, v, SubVerdict(env, enforce, root, Obj(m), fuel), RefVerdict(env, enforce, root, Obj(m), v, fuel));
  }

  lemma {:induction false} StrippedReference(m: map<Text, Json>)
    requires IsReference(m)
    ensures StripNode(Obj(m)).Obj? && IsReference(StripNode(Obj(m)).fields)
    ensures StripNode(Obj(m)).fields[Fixed(Ref)] == m[Fixed(Ref)]
  {
  }

  /** A schema with a `format` of its own and none further inside. */
  predicate OwnFormatOnly(m: map<Text, Json>) {
    && Fixed(Format) in m && m[Fixed(Format)].Str?
    && forall k | k in m && k != Fixed(Format) :: FormatFree(Below(AtSchema, Obj(m), k, m[k]), m[k])
  }

  lemma {:induction false} HeldUnchanged(m: map<Text, Json>, k: Text)
    requires OwnFormatOnly(m) && k in m && k != Fixed(Format)
    ensures HoldsSchema(m, k) ==> StripNode(m[k]) == m[k]
    ensures SchemaMapKeywords(k) && m[k].Obj? ==> forall name | name in m[k].fields :: StripNode(m[k].fields[name]) == m[k].fields[name]
    ensures HoldsArray(m, k) ==> forall i | 0 <= i < |m[k].elems| :: StripNode(m[k].elems[i]) == m[k].elems[i]
  {
    UnchangedIffFormatFree(Below(AtSchema, Obj(m), k, m[k]), m[k]);
    if SchemaMapKeywords(k) && m[k].Obj? {
      forall name | name in m[k].fields ensures StripNode(m[k].fields[name]) == m[k].fields[name] {
        assert StripMap(m[k]).fields[name] == StripNode(m[k].fields[name]);
      }
    } else if HoldsArray(m, k) {
      forall i | 0 <= i < |m[k].elems| ensures StripNode(m[k].elems[i]) == m[k].elems[i] {
        assert StripArray(m[k]).elems[i] == StripNode(m[k].elems[i]);
      }
    }
  }

  /** Below such a schema the enforcing verdicts are the same before and after the walk. */
  lemma {:induction false} OwnFormatAgree(env: Env, root: Json, s: Json, fuel: nat)
    requires s.Obj? && OwnFormatOnly(s.fields) && RefsOk(env, root, AtSchema, s, fuel)
    ensures Agree(s.fields, SubVerdict(env, true, StripNode(root), StripNode(s), fuel), SubVerdict(env, true, StripNode(root), s, fuel))
  {
    var m := s.fields;
    var stripped, plain := SubVerdict(env, true, StripNode(root), StripNode(s), fuel), SubVerdict(env, true, StripNode(root), s, fuel);
    forall k, w | HoldsSchema(m, k) ensures stripped(StripNode(m[k]), w) == plain(m[k], w) {
      HeldSchemaSmaller(env, root, s, k, fuel);
      HeldUnchanged(m, k);
    }
    forall k, name, w | SchemaMapKeywords(k) && name in Members(m, k)
      ensures stripped(StripNode(m[k].fields[name]), w) == plain(m[k].fields[name], w)
    {
      NamedSchemaSmaller(env, root, s, k, name, fuel);
      HeldUnchanged(m, k);
    }
    forall k, i, w | HoldsArray(m, k) && 0 <= i < |m[k].elems|
      ensures stripped(StripNode(m[k].elems[i]), w) == plain(m[k].elems[i], w)
    {
      ListedSchemaSmaller(env, root, s, k, i, fuel);
      HeldUnchanged(m, k);
    }
  }

  /** Enforcing adds to a node what its own `format` says. */
  lemma {:induction false} EnforcingAdds(env: Env, m: map<Text, Json>, v: Json, sub: Verdict, ref: Json -> bool)
    requires Fixed(Format) in m && m[Fixed(Format)].Str?
    ensures NodeOk(env, true, m, v, sub, ref) <==> NodeOk(env, false, m, v, sub, ref) && env.formatOk(m[Fixed(Format)].s, v)
  {
    assert KeywordOk(env, true, m, Fixed(Format), v, sub, ref) <==> env.formatOk(m[Fixed(Format)].s, v);
    forall k | k in m && k != Fixed(Format) ensures KeywordOk(env, true, m, k, v, sub, ref) == KeywordOk(env, false, m, k, v, sub, ref) {
      EnforcingElsewhere(env, m, k, v, sub, ref);
    }
  }

  lemma {:induction false} EnforcingElsewhere(env: Env, m: map<Text, Json>, k: Text, v: Json, sub: Verdict, ref: Json -> bool)
    requires k in m && k != Fixed(Format)
    ensures KeywordOk(env, true, m, k, v, sub, ref) == KeywordOk(env, false, m, k, v, sub, ref)
  {
  }

  lemma {:induction false} OwnFormatVerdict(env: Env, root: Json, s: Json, v: Json, fuel: nat)
    requires s.Obj? && OwnFormatOnly(s.fields) && RefsOk(env, root, AtSchema, s, fuel)
    ensures Valid(env, true, StripNode(root), s, v, fuel)
      <==> Valid(env, true, StripNode(root), StripNode(s), v, fuel) && env.formatOk(s.fields[Fixed(Format)].s, v)
  {
    var m, r := s.fields, StripNode(root);
    OwnFormatAgree(env, root, s, fuel);
    NodeVerdict(env, m, StripNode(s).fields, v, SubVerdict(env, true, r, StripNode(s), fuel), SubVerdict(env, true, r, s, fuel),
                RefVerdict(env, true, r, StripNode(s), v, fuel), RefVerdict(env, true, r, s, v, fuel));
    EnforcingAdds(env, m, v, SubVerdict(env, true, r, s, fuel), RefVerdict(env, true, r, s, v, fuel));
  }

  /**
   * A node that refers to a schema-shaped value in a data position, whose only `format` is its own: stripping is
   * exact for an instance exactly when the value refuses it anyway or the format admits it.
   */
  lemma {:induction false} DataReferenceExactIff(env: Env, root: Json, m: map<Text, Json>, t: Json, v: Json, fuel: nat)
    requires IsReference(m) && fuel > 0 && Resolve(env, root, m[Fixed(Ref)]) == Target(t)
    requires !ThroughFormat(env, AtSchema, root, env.pointer(m[Fixed(Ref)].s).value)
    requires Landing(env, AtSchema, root, env.pointer(m[Fixed(Ref)].s).value).AtData?
    requires t.Obj? && OwnFormatOnly(t.fields) && RefsOk(env, root, AtSchema, t, fuel - 1)
    ensures (Valid(env, true, StripNode(root), StripNode(Obj(m)), v, fuel) <==> Valid(env, false, root, Obj(m), v, fuel))
      <==> (Valid(env, false, root, t, v, fuel - 1) ==> env.formatOk(t.fields[Fixed(Format)].s, v))
  {
    StrippedReference(m);
    DataReference(env, root, m[Fixed(Ref)]);
    FollowsReference(env, true, StripNode(root), StripNode(Obj(m)).fields, t, v, fuel);
    FollowsReference(env, false, root, m, t, v, fuel);
    OwnFormatVerdict(env, root, t, v, fuel - 1);
    StripPreservesVerdict(env, root, t, v, fuel - 1);
  }

  /** A document whose one reference names its own schema-shaped `default`, which carries a `format`. */
  function DefaultShape(): Json { Obj(map[Fixed(Format) := Str(Other("email"))]) }

  function DataReferenceSchema(): Json {
    Obj(map[Fixed(Default) := DefaultShape(), Fixed(Ref) := Str(Other("#/default"))])
  }

  function DataReferenceEnv(): Env {
    Env((_, _) => false, (_, _) => false, (_, _, _) => true, _ => Some([Fixed(Default)]), _ => None)
  }

  lemma {:induction false} DataReferenceResolves()
    ensures Resolve(DataReferenceEnv(), DataReferenceSchema(), Str(Other("#/default"))) == Target(DefaultShape())
    ensures Landing(DataReferenceEnv(), AtSchema, DataReferenceSchema(), [Fixed(Default)]) == AtData
    ensures StripNode(DataReferenceSchema()) == DataReferenceSchema()
  {
    var env, s, tokens := DataReferenceEnv(), DataReferenceSchema(), [Fixed(Default)];
    assert Child(env, s, tokens[0]) == Some(DefaultShape());
    assert tokens[1..] == [];
    assert Navigate(env, s, tokens) == Some(DefaultShape());
    NothingToStrip(s.fields);
  }

  /** A node with nothing but data keywords and no `format` is left alone. */
  lemma {:induction false} NothingToStrip(m: map<Text, Json>)
    requires m.Keys == {Fixed(Default), Fixed(Ref)}
    ensures StripNode(Obj(m)) == Obj(m)
  {
    forall k | k in m ensures StripKeyword(k, m[k]) == m[k] { KeywordAtPosition(m, k); }
    assert StripNode(Obj(m)).fields == m;
  }

  lemma {:induction false} DefaultShapeVerdict(enforce: bool)
    ensures Valid(DataReferenceEnv(), enforce, DataReferenceSchema(), DefaultShape(), Null, 0) == !enforce
  {
    var env, root, s, f := DataReferenceEnv(), DataReferenceSchema(), DefaultShape(), Fixed(Format);
    var sub, ref := SubVerdict(env, enforce, root, s, 0), RefVerdict(env, enforce, root, s, Null, 0);
    assert s.fields.Keys == {f};
    assert KeywordOk(env, enforce, s.fields, f, Null, sub, ref) == !enforce;
    assert NodeOk(env, enforce, s.fields, Null, sub, ref) == !enforce;
  }

  lemma {:induction false} ReferenceVerdict(enforce: bool)
    ensures RefVerdict(DataReferenceEnv(), enforce, DataReferenceSchema(), DataReferenceSchema(), Null, 1)(Str(Other("#/default"))) == !enforce
  {
    DataReferenceResolves();
    DefaultShapeVerdict(enforce);
  }

  lemma {:induction false} DataReferenceVerdict(enforce: bool)
    ensures Valid(DataReferenceEnv(), enforce, DataReferenceSchema(), DataReferenceSchema(), Null, 1) == !enforce
  {
    var env, s, d, r := DataReferenceEnv(), DataReferenceSchema(), Fixed(Default), Fixed(Ref);
    var sub, ref := SubVerdict(env, enforce, s, s, 1), RefVerdict(env, enforce, s, s, Null, 1);
    ReferenceVerdict(enforce);
    NodeOfTwo(env, enforce, s.fields, d, r, Null, sub, ref);
  }

  lemma {:induction false} NodeOfTwo(env: Env, enforce: bool, m: map<Text, Json>, d: Text, r: Text, v: Json, sub: Verdict, ref: Json -> bool)
    requires m.Keys == {d, r} && IsAnnotation(d) && r == Fixed(Ref)
    ensures NodeOk(env, enforce, m, v, sub, ref) == ref(m[r])
  {
    assert KeywordOk(env, enforce, m, d, v, sub, ref);
    assert KeywordOk(env, enforce, m, r, v, sub, ref) == ref(m[r]);
  }

  /**
   * Why references must commute with the walk: a `$ref` to the schema-shaped `default` of a node keeps its
   * `format`, so the model-facing schema refuses what the authoritative one accepts.
   */
  lemma {:induction false} DataReferenceCounterexample()
    ensures !RefsOk(DataReferenceEnv(), DataReferenceSchema(), AtSchema, DataReferenceSchema(), 1)
    ensures Valid(DataReferenceEnv(), false, DataReferenceSchema(), DataReferenceSchema(), Null, 1)
    ensures !Valid(DataReferenceEnv(), true, StripNode(DataReferenceSchema()), StripNode(DataReferenceSchema()), Null, 1)
  {
    DataReferenceResolves();
    DataReferenceVerdict(false);
    DataReferenceVerdict(true);
    if RefsOk(DataReferenceEnv(), DataReferenceSchema(), AtSchema, DataReferenceSchema(), 1) {
      StripExact(DataReferenceEnv(), DataReferenceSchema(), Null, 1);
    }
  }
}
