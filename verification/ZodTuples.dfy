/**
 * Where the Zod projection is stricter than draft 2020-12: an array node with both `prefixItems` and an
 * `items` schema, whose projection applies the item type to the prefix as well.
 */
module ZodTuples {
  import opened Options
  import opened Json
  import opened SchemaSemantics
  import opened ZodProjection

  /** An array node with any number of prefix schemas and one for the rest; annotations may stand beside them. */
  predicate IsTuple(m: map<Text, Json>) {
    && OnlyKeywords(m, {Fixed(Type), Fixed(PrefixItems), Fixed(Items)})
    && Get(m, Fixed(Type)) == Some(Str(Fixed(ArrayType)))
    && Fixed(PrefixItems) in m && m[Fixed(PrefixItems)].Arr?
    && Fixed(Items) in m && m[Fixed(Items)].Obj?
  }

  // ----- sets of instances --------------------------------------------------------------------------------

  /** An array whose first elements are of `firsts`, each of its own, and all others of `rest`. */
  ghost predicate TupleOk(firsts: seq<Json -> bool>, rest: Json -> bool, v: Json) {
    && v.Arr?
    && (forall i | 0 <= i < |firsts| && i < |v.elems| :: firsts[i](v.elems[i]))
    && (forall i | |firsts| <= i < |v.elems| :: rest(v.elems[i]))
  }

  ghost predicate Inhabited(instances: Json -> bool) { exists w :: instances(w) }

  /** Whether a tuple can be as long as `n` prefix elements. */
  ghost predicate Reachable(firsts: seq<Json -> bool>, n: nat)
    requires n <= |firsts|
  {
    forall i | 0 <= i < n :: Inhabited(firsts[i])
  }

  lemma {:induction false} Witnesses(firsts: seq<Json -> bool>, n: nat) returns (ws: seq<Json>)
    requires n <= |firsts| && Reachable(firsts, n)
    ensures |ws| == n && forall i | 0 <= i < n :: firsts[i](ws[i])
  {
    if n == 0 {
      ws := [];
    } else {
      ws := Witnesses(firsts, n - 1);
      assert Inhabited(firsts[n - 1]);
      var w :| firsts[n - 1](w);
      ws := ws + [w];
    }
  }

  /** An element is accepted at position `n` behind the witnesses of the prefix. */
  lemma {:induction false} ElementAccepted(tuple: Json -> bool, firsts: seq<Json -> bool>, rest: Json -> bool, z: Zod, n: nat, w: Json)
    requires forall v :: tuple(v) <==> TupleOk(firsts, rest, v)
    requires NeverStricterOn(tuple, ZArray(z)) && n <= |firsts| && Reachable(firsts, n)
    requires if n < |firsts| then firsts[n](w) else rest(w)
    ensures Accepts(z, Some(w))
  {
    var ws := Witnesses(firsts, n);
    var v := Arr(ws + [w]);
    assert TupleOk(firsts, rest, v);
    assert v.elems[n] == w;
  }

  /** Every prefix element that can be reached, and the rest when it can, is accepted by `z`. */
  ghost predicate ReachedAreAccepted(firsts: seq<Json -> bool>, rest: Json -> bool, z: Zod) {
    && (forall j | 0 <= j < |firsts| && Reachable(firsts, j) :: NeverStricterOn(firsts[j], z))
    && (Reachable(firsts, |firsts|) ==> NeverStricterOn(rest, z))
  }

  lemma {:induction false} TupleIff(tuple: Json -> bool, firsts: seq<Json -> bool>, rest: Json -> bool, z: Zod)
    requires forall v :: tuple(v) <==> TupleOk(firsts, rest, v)
    ensures NeverStricterOn(tuple, ZArray(z)) <==> ReachedAreAccepted(firsts, rest, z)
  {
    if NeverStricterOn(tuple, ZArray(z)) {
      forall j, w | 0 <= j < |firsts| && Reachable(firsts, j) && firsts[j](w) ensures Accepts(z, Some(w)) {
        ElementAccepted(tuple, firsts, rest, z, j, w);
      }
      forall w | Reachable(firsts, |firsts|) && rest(w) ensures Accepts(z, Some(w)) {
        ElementAccepted(tuple, firsts, rest, z, |firsts|, w);
      }
    }
    if ReachedAreAccepted(firsts, rest, z) {
      forall v | tuple(v) ensures Accepts(ZArray(z), Some(v)) {
        TupleAccepted(firsts, rest, z, v);
      }
    }
  }

  lemma {:induction false} TupleAccepted(firsts: seq<Json -> bool>, rest: Json -> bool, z: Zod, v: Json)
    requires ReachedAreAccepted(firsts, rest, z) && TupleOk(firsts, rest, v)
    ensures Accepts(ZArray(z), Some(v))
  {
    forall i | 0 <= i < |v.elems| ensures Accepts(z, Some(v.elems[i])) {
      var n := if i < |firsts| then i else |firsts|;
      forall k | 0 <= k < n ensures Inhabited(firsts[k]) { assert firsts[k](v.elems[k]); }
      assert Reachable(firsts, n);
    }
  }

  // ----- tuple schemas ------------------------------------------------------------------------------------

  lemma {:induction false} TypeKeyword(env: Env, enforce: bool, m: map<Text, Json>, v: Json, sub: Verdict, ref: Json -> bool)
    requires IsTuple(m)
    ensures KeywordOk(env, enforce, m, Fixed(Type), v, sub, ref) <==> v.Arr?
  {
  }

  lemma {:induction false} PrefixKeyword(env: Env, enforce: bool, m: map<Text, Json>, v: Json, sub: Verdict, ref: Json -> bool)
    requires IsTuple(m) && v.Arr?
    ensures KeywordOk(env, enforce, m, Fixed(PrefixItems), v, sub, ref)
      <==> forall i | 0 <= i < |m[Fixed(PrefixItems)].elems| && i < |v.elems| :: sub(m[Fixed(PrefixItems)].elems[i], v.elems[i])
  {
    assert Elements(m, Fixed(PrefixItems)) == m[Fixed(PrefixItems)].elems;
  }

  lemma {:induction false} ItemsKeyword(env: Env, enforce: bool, m: map<Text, Json>, v: Json, sub: Verdict, ref: Json -> bool)
    requires IsTuple(m) && v.Arr?
    ensures KeywordOk(env, enforce, m, Fixed(Items), v, sub, ref)
      <==> forall i | |m[Fixed(PrefixItems)].elems| <= i < |v.elems| :: sub(m[Fixed(Items)], v.elems[i])
  {
    assert PrefixLength(m) == |m[Fixed(PrefixItems)].elems|;
  }

  lemma {:induction false} ThreeKeywords(env: Env, enforce: bool, m: map<Text, Json>, v: Json, sub: Verdict, ref: Json -> bool)
    requires IsTuple(m)
    ensures NodeOk(env, enforce, m, v, sub, ref) <==>
      && KeywordOk(env, enforce, m, Fixed(Type), v, sub, ref)
      && KeywordOk(env, enforce, m, Fixed(PrefixItems), v, sub, ref)
      && KeywordOk(env, enforce, m, Fixed(Items), v, sub, ref)
  {
    forall k | k in m && IsAnnotation(k) ensures KeywordOk(env, enforce, m, k, v, sub, ref) {
      AnnotationOk(env, enforce, m, k, v, sub, ref);
    }
  }

  /** The verdicts on the elements of an array. */
  ghost predicate ElementsOk(m: map<Text, Json>, v: Json, sub: Verdict)
    requires IsTuple(m)
  {
    && v.Arr?
    && (forall i | 0 <= i < |m[Fixed(PrefixItems)].elems| && i < |v.elems| :: sub(m[Fixed(PrefixItems)].elems[i], v.elems[i]))
    && (forall i | |m[Fixed(PrefixItems)].elems| <= i < |v.elems| :: sub(m[Fixed(Items)], v.elems[i]))
  }

  lemma {:induction false} TupleNode(env: Env, enforce: bool, m: map<Text, Json>, v: Json, sub: Verdict, ref: Json -> bool)
    requires IsTuple(m)
    ensures NodeOk(env, enforce, m, v, sub, ref) <==> ElementsOk(m, v, sub)
  {
    ThreeKeywords(env, enforce, m, v, sub, ref);
    TypeKeyword(env, enforce, m, v, sub, ref);
    if v.Arr? {
      PrefixKeyword(env, enforce, m, v, sub, ref);
      ItemsKeyword(env, enforce, m, v, sub, ref);
    }
  }

  /** What each prefix schema accepts. */
  ghost function Firsts(env: Env, enforce: bool, root: Json, m: map<Text, Json>, fuel: nat): seq<Json -> bool>
    requires IsTuple(m)
  {
    seq(|m[Fixed(PrefixItems)].elems|, i requires 0 <= i < |m[Fixed(PrefixItems)].elems| =>
      Instances(env, enforce, root, m[Fixed(PrefixItems)].elems[i], fuel))
  }

  lemma {:induction false} TupleVerdict(env: Env, enforce: bool, root: Json, m: map<Text, Json>, v: Json, fuel: nat)
    requires IsTuple(m)
    ensures Valid(env, enforce, root, Obj(m), v, fuel) <==>
      TupleOk(Firsts(env, enforce, root, m, fuel), Instances(env, enforce, root, m[Fixed(Items)], fuel), v)
  {
    var s := Obj(m);
    forall i | 0 <= i < |m[Fixed(PrefixItems)].elems| ensures m[Fixed(PrefixItems)].elems[i] < s {
      assert m[Fixed(PrefixItems)].elems[i] < m[Fixed(PrefixItems)] < s;
    }
    TupleNode(env, enforce, m, v, SubVerdict(env, enforce, root, s, fuel), RefVerdict(env, enforce, root, s, v, fuel));
  }

  lemma {:induction false} TupleProjection(m: map<Text, Json>)
    requires IsTuple(m)
    ensures JsonSchemaToZodType(Obj(m)) == ZArray(JsonSchemaToZodType(m[Fixed(Items)]))
  {
    assert Fixed(Enum) !in m && Fixed(Const) !in m;
  }

  /**
   * Exactly when the projection of a tuple is never stricter, whatever its schemas: when the projected item type
   * accepts what every prefix schema accepts that an instance can reach, and, if one can be longer than the
   * prefix, what the item schema accepts.
   */
  lemma {:induction false} TupleNeverStricterIff(env: Env, enforce: bool, root: Json, m: map<Text, Json>, fuel: nat)
    requires IsTuple(m)
    ensures NeverStricterOn(Instances(env, enforce, root, Obj(m), fuel), JsonSchemaToZodType(Obj(m)))
      <==> ReachedAreAccepted(Firsts(env, enforce, root, m, fuel), Instances(env, enforce, root, m[Fixed(Items)], fuel), JsonSchemaToZodType(m[Fixed(Items)]))
  {
    TupleProjection(m);
    forall v ensures Instances(env, enforce, root, Obj(m), fuel)(v) <==>
      TupleOk(Firsts(env, enforce, root, m, fuel), Instances(env, enforce, root, m[Fixed(Items)], fuel), v)
    {
      TupleVerdict(env, enforce, root, m, v, fuel);
    }
    TupleIff(Instances(env, enforce, root, Obj(m), fuel), Firsts(env, enforce, root, m, fuel),
             Instances(env, enforce, root, m[Fixed(Items)], fuel), JsonSchemaToZodType(m[Fixed(Items)]));
  }

  // ----- a tuple that is refused --------------------------------------------------------------------------

  function OfType(w: Word): Json { Obj(map[Fixed(Type) := Str(Fixed(w))]) }

  /** A string, then numbers. */
  function StringThenNumbers(): map<Text, Json> {
    map[Fixed(Type) := Str(Fixed(ArrayType)), Fixed(PrefixItems) := Arr([OfType(StringType)]), Fixed(Items) := OfType(NumberType)]
  }

  lemma {:induction false} StringIsValid(env: Env, enforce: bool, root: Json, v: Json, fuel: nat)
    requires v.Str?
    ensures Valid(env, enforce, root, OfType(StringType), v, fuel)
  {
    assert TypedScalar(OfType(StringType).fields);
    TypedExact(env, enforce, root, OfType(StringType), v, fuel);
  }

  lemma {:induction false} StringThenNumbersIsTuple()
    ensures var m := StringThenNumbers();
      && IsTuple(m) && m[Fixed(PrefixItems)].elems == [OfType(StringType)] && m[Fixed(Items)] == OfType(NumberType)
  {
  }

  lemma {:induction false} OneElement(firsts: seq<Json -> bool>, rest: Json -> bool, z: Zod, w: Json)
    requires |firsts| == 1 && firsts[0](w) && !Accepts(z, Some(w))
    ensures TupleOk(firsts, rest, Arr([w])) && !Accepts(ZArray(z), Some(Arr([w])))
  {
    assert Arr([w]).elems[0] == w;
  }

  lemma {:induction false} RefusedTuple(env: Env, enforce: bool, root: Json, m: map<Text, Json>, w: Json, fuel: nat)
    requires IsTuple(m) && |m[Fixed(PrefixItems)].elems| == 1
    requires Valid(env, enforce, root, m[Fixed(PrefixItems)].elems[0], w, fuel) && !Accepts(JsonSchemaToZodType(m[Fixed(Items)]), Some(w))
    ensures Valid(env, enforce, root, Obj(m), Arr([w]), fuel)
    ensures !Accepts(JsonSchemaToZodType(Obj(m)), Some(Arr([w])))
  {
    OneElement(Firsts(env, enforce, root, m, fuel), Instances(env, enforce, root, m[Fixed(Items)], fuel), JsonSchemaToZodType(m[Fixed(Items)]), w);
    TupleVerdict(env, enforce, root, m, Arr([w]), fuel);
    TupleProjection(m);
  }

  /** The neutral schema accepts a tuple of one string, the projection refuses it. */
  lemma {:induction false} TupleCounterexample(env: Env, enforce: bool, root: Json, w: Json, fuel: nat)
    requires w.Str?
    ensures Valid(env, enforce, root, Obj(StringThenNumbers()), Arr([w]), fuel)
    ensures !Accepts(JsonSchemaToZodType(Obj(StringThenNumbers())), Some(Arr([w])))
  {
    StringIsValid(env, enforce, root, w, fuel);
    StringThenNumbersIsTuple();
    NumbersRefuseStrings(w);
    RefusedTuple(env, enforce, root, StringThenNumbers(), w, fuel);
  }

  lemma {:induction false} NumbersRefuseStrings(w: Json)
    requires w.Str?
    ensures !Accepts(JsonSchemaToZodType(OfType(NumberType)), Some(w))
  {
  }
}
