/**
 * What a `jsonb` column does to the order of an object's properties. PostgreSQL keeps them by the length of
 * the key in bytes and then bytewise; JavaScript reads them back with array indices in front.
 */
module JsonbOrder {
  import opened Json

  datatype Field = Field(key: string, value: Doc)

  /** A JSON value with its properties in order, as `JSON.stringify` sees it. */
  datatype Doc =
    | DNull
    | DBool(b: bool)
    | DNum(n: real)
    | DStr(s: string)
    | DArr(elems: seq<Doc>)
    | DObj(fields: seq<Field>)

  // ---- the order of keys --------------------------------------------------------------------------------

  function Utf8Length(key: string): nat {
    if key == "" then 0
    else
      var code := key[|key| - 1] as int;
      Utf8Length(key[..|key| - 1]) + if code < 0x80 then 1 else if code < 0x800 then 2 else if code < 0x1_0000 then 3 else 4
  }

  function Numeral(digits: string): int {
    if digits == "" then 0 else 10 * Numeral(digits[..|digits| - 1]) + (digits[|digits| - 1] as int - '0' as int)
  }

  /** An array index: a decimal numeral without leading zeros, below 2^32 - 1. */
  predicate IsIndex(key: string) {
    && key != "" && (forall i | 0 <= i < |key| :: '0' <= key[i] <= '9')
    && (key[0] == '0' ==> |key| == 1) && Numeral(key) < 0xFFFF_FFFF
  }

  /** Order of code points, which is the bytewise order of their UTF-8 forms. */
  predicate CodePointsLess(a: string, b: string) {
    if b == "" then false
    else if a == "" then true
    else if a[0] != b[0] then a[0] < b[0]
    else CodePointsLess(a[1..], b[1..])
  }

  /** Whether one key is read back before another. */
  predicate Before(a: string, b: string) {
    if IsIndex(a) != IsIndex(b) then IsIndex(a)
    else if Utf8Length(a) != Utf8Length(b) then Utf8Length(a) < Utf8Length(b)
    else CodePointsLess(a, b)
  }

  lemma {:induction false} CodePointsTotal(a: string, b: string)
    ensures a == b <==> !CodePointsLess(a, b) && !CodePointsLess(b, a)
    ensures !(CodePointsLess(a, b) && CodePointsLess(b, a))
    decreases |a|
  {
    if a != "" && b != "" && a[0] == b[0] {
      CodePointsTotal(a[1..], b[1..]);
      assert a == [a[0]] + a[1..] && b == [b[0]] + b[1..];
    }
  }

  lemma {:induction false} CodePointsTransitive(a: string, b: string, c: string)
    requires CodePointsLess(a, b) && CodePointsLess(b, c)
    ensures CodePointsLess(a, c)
    decreases |a|
  {
    if a != "" && a[0] == b[0] && b[0] == c[0] {
      CodePointsTransitive(a[1..], b[1..], c[1..]);
    }
  }

  lemma {:induction false} BeforeTotal(a: string, b: string)
    ensures a != b ==> Before(a, b) != Before(b, a)
    ensures !Before(a, a)
  {
    CodePointsTotal(a, b);
    CodePointsTotal(a, a);
  }

  lemma {:induction false} BeforeTransitive(a: string, b: string, c: string)
    requires Before(a, b) && Before(b, c)
    ensures Before(a, c)
  {
    if IsIndex(a) == IsIndex(b) == IsIndex(c) && Utf8Length(a) == Utf8Length(b) == Utf8Length(c) {
      CodePointsTransitive(a, b, c);
    }
  }

  // ---- storing and reading back -------------------------------------------------------------------------

  predicate DistinctKeys(fields: seq<Field>) {
    forall i, j | 0 <= i < j < |fields| :: fields[i].key != fields[j].key
  }

  predicate Ordered(fields: seq<Field>) {
    forall i, j | 0 <= i < j < |fields| :: Before(fields[i].key, fields[j].key)
  }

  /** An object has each key once, at every depth. */
  predicate WellFormed(d: Doc) {
    match d
    case DArr(elems) => forall i | 0 <= i < |elems| :: WellFormed(elems[i])
    case DObj(fields) => DistinctKeys(fields) && forall i | 0 <= i < |fields| :: WellFormed(fields[i].value)
    case _ => true
  }

  /** Every object has its properties in the order in which they would be read back. */
  predicate InReadOrder(d: Doc) {
    match d
    case DArr(elems) => forall i | 0 <= i < |elems| :: InReadOrder(elems[i])
    case DObj(fields) => Ordered(fields) && forall i | 0 <= i < |fields| :: InReadOrder(fields[i].value)
    case _ => true
  }

  function Insert(f: Field, fields: seq<Field>): seq<Field> {
    if fields == [] then [f]
    else
      var n := |fields| - 1;
      if Before(fields[n].key, f.key) then fields + [f] else Insert(f, fields[..n]) + [fields[n]]
  }

  function Sort(fields: seq<Field>): seq<Field> {
    if fields == [] then [] else Insert(fields[|fields| - 1], Sort(fields[..|fields| - 1]))
  }

  /** A value written to a `jsonb` column and read back. */
  function Jsonb(d: Doc): Doc {
    match d
    case DArr(elems) => DArr(seq(|elems|, i requires 0 <= i < |elems| => Jsonb(elems[i])))
    case DObj(fields) => DObj(Sort(seq(|fields|, i requires 0 <= i < |fields| => Field(fields[i].key, Jsonb(fields[i].value)))))
    case _ => d
  }

  // ---- the value, property order aside ------------------------------------------------------------------

  /** The value of a document; its strings are data, so none is taken for a fixed word. */
  function ValueOf(d: Doc): Json
    decreases d
  {
    match d
    case DNull => Null
    case DBool(b) => Bool(b)
    case DNum(n) => Num(n)
    case DStr(s) => Str(Other(s))
    case DArr(elems) => Arr(seq(|elems|, i requires 0 <= i < |elems| => ValueOf(elems[i])))
    case DObj(fields) => Obj(FieldValues(fields))
  }

  function FieldValues(fields: seq<Field>): map<Text, Json>
    decreases fields
  {
    if fields == [] then map[]
    else
      var n := |fields| - 1;
      assert fields[n] in fields;
      FieldValues(fields[..n])[Other(fields[n].key) := ValueOf(fields[n].value)]
  }

  lemma {:induction false} FieldValuesByKey(fields: seq<Field>, t: Text)
    requires DistinctKeys(fields)
    ensures t in FieldValues(fields) <==> exists f :: f in fields && Other(f.key) == t
    ensures forall f | f in fields && Other(f.key) == t :: FieldValues(fields)[t] == ValueOf(f.value)
    decreases |fields|
  {
    if fields != [] {
      var n := |fields| - 1;
      FieldValuesByKey(fields[..n], t);
      assert fields == fields[..n] + [fields[n]];
      assert fields[n] in fields;
      forall f | f in fields && Other(f.key) == t ensures t in FieldValues(fields) && FieldValues(fields)[t] == ValueOf(f.value) {
        var i :| 0 <= i <= n && fields[i] == f;
        if i < n {
          assert fields[..n][i] == f && f.key != fields[n].key;
        }
      }
    }
  }

  /** The order of distinct keys plays no part in the value. */
  lemma {:induction false} SameFieldsSameValues(a: seq<Field>, b: seq<Field>)
    requires DistinctKeys(a) && DistinctKeys(b)
    requires forall f :: f in a <==> f in b
    ensures FieldValues(a) == FieldValues(b)
  {
    forall t ensures t in FieldValues(a) <==> t in FieldValues(b)
      ensures t in FieldValues(a) ==> t in FieldValues(b) && FieldValues(a)[t] == FieldValues(b)[t]
    {
      FieldValuesByKey(a, t);
      FieldValuesByKey(b, t);
    }
  }

  // ---- sorting ------------------------------------------------------------------------------------------

  lemma {:induction false} InsertHolds(f: Field, fields: seq<Field>)
    ensures |Insert(f, fields)| == |fields| + 1
    ensures forall g :: g in Insert(f, fields) <==> g == f || g in fields
    decreases |fields|
  {
    if fields != [] {
      var n := |fields| - 1;
      InsertHolds(f, fields[..n]);
      assert fields == fields[..n] + [fields[n]];
    }
  }

  lemma {:induction false} InsertKeepsOrder(f: Field, fields: seq<Field>)
    requires Ordered(fields)
    requires forall g | g in fields :: g.key != f.key
    ensures Ordered(Insert(f, fields))
    decreases |fields|
  {
    if fields != [] {
      var n := |fields| - 1;
      var last := fields[n].key;
      assert fields[n] in fields;
      BeforeTotal(last, f.key);
      if Before(last, f.key) {
        forall i | 0 <= i < n ensures Before(fields[i].key, f.key) { BeforeTransitive(fields[i].key, last, f.key); }
      } else {
        InsertKeepsOrder(f, fields[..n]);
        InsertHolds(f, fields[..n]);
        var front := Insert(f, fields[..n]);
        forall i | 0 <= i < |front| ensures Before(front[i].key, last) {
          assert front[i] in front;
        }
      }
    }
  }

  lemma {:induction false} SortHolds(fields: seq<Field>)
    ensures |Sort(fields)| == |fields|
    ensures forall g :: g in Sort(fields) <==> g in fields
    decreases |fields|
  {
    if fields != [] {
      var n := |fields| - 1;
      SortHolds(fields[..n]);
      InsertHolds(fields[n], Sort(fields[..n]));
      assert fields == fields[..n] + [fields[n]];
    }
  }

  lemma {:induction false} SortOrders(fields: seq<Field>)
    requires DistinctKeys(fields)
    ensures Ordered(Sort(fields))
    decreases |fields|
  {
    if fields != [] {
      var n := |fields| - 1;
      SortOrders(fields[..n]);
      SortHolds(fields[..n]);
      InsertKeepsOrder(fields[n], Sort(fields[..n]));
    }
  }

  lemma {:induction false} SortOfOrdered(fields: seq<Field>)
    requires Ordered(fields)
    ensures Sort(fields) == fields
    decreases |fields|
  {
    if fields != [] {
      var n := |fields| - 1;
      SortOfOrdered(fields[..n]);
      if n > 0 {
        assert Before(fields[n - 1].key, fields[n].key);
      }
      assert fields == fields[..n] + [fields[n]];
    }
  }

  lemma {:induction false} OrderedIsDistinct(fields: seq<Field>)
    requires Ordered(fields)
    ensures DistinctKeys(fields)
  {
    forall i, j | 0 <= i < j < |fields| ensures fields[i].key != fields[j].key { BeforeTotal(fields[i].key, fields[i].key); }
  }

  // ---- what storing keeps and what it does not ----------------------------------------------------------

  function StoredFields(fields: seq<Field>): seq<Field> {
    seq(|fields|, i requires 0 <= i < |fields| => Field(fields[i].key, Jsonb(fields[i].value)))
  }

  /** Storing keeps the value, and what is read back is in read order. */
  lemma {:induction false} JsonbKeepsValue(d: Doc)
    requires WellFormed(d)
    ensures ValueOf(Jsonb(d)) == ValueOf(d)
    ensures InReadOrder(Jsonb(d))
  {
    match d
    case DArr(elems) =>
      forall i | 0 <= i < |elems| ensures ValueOf(Jsonb(elems[i])) == ValueOf(elems[i]) && InReadOrder(Jsonb(elems[i])) {
        JsonbKeepsValue(elems[i]);
      }
    case DObj(fields) =>
      forall i | 0 <= i < |fields| ensures ValueOf(Jsonb(fields[i].value)) == ValueOf(fields[i].value) && InReadOrder(Jsonb(fields[i].value)) {
        JsonbKeepsValue(fields[i].value);
      }
      FieldsKept(fields);
    case _ =>
  }

  lemma {:induction false} StoredValues(fields: seq<Field>)
    requires forall i | 0 <= i < |fields| :: ValueOf(Jsonb(fields[i].value)) == ValueOf(fields[i].value)
    ensures FieldValues(StoredFields(fields)) == FieldValues(fields)
    decreases |fields|
  {
    if fields != [] {
      var n := |fields| - 1;
      StoredValues(fields[..n]);
      assert StoredFields(fields)[..n] == StoredFields(fields[..n]);
    }
  }

  lemma {:induction false} FieldsKept(fields: seq<Field>)
    requires DistinctKeys(fields)
    requires forall i | 0 <= i < |fields| :: ValueOf(Jsonb(fields[i].value)) == ValueOf(fields[i].value) && InReadOrder(Jsonb(fields[i].value))
    ensures FieldValues(Sort(StoredFields(fields))) == FieldValues(fields)
    ensures InReadOrder(DObj(Sort(StoredFields(fields))))
  {
    var stored := StoredFields(fields);
    var back := Sort(stored);
    StoredValues(fields);
    SortHolds(stored);
    SortOrders(stored);
    OrderedIsDistinct(back);
    SameFieldsSameValues(back, stored);
    forall i | 0 <= i < |back| ensures InReadOrder(back[i].value) {
      assert back[i] in back;
      var k :| 0 <= k < |stored| && stored[k] == back[i];
    }
  }

  /** Storing leaves a document as it is, order included, exactly when it is in read order already. */
  lemma {:induction false} JsonbKeepsOrderIff(d: Doc)
    requires WellFormed(d)
    ensures Jsonb(d) == d <==> InReadOrder(d)
  {
    if InReadOrder(d) {
      match d
      case DArr(elems) =>
        forall i | 0 <= i < |elems| ensures Jsonb(elems[i]) == elems[i] { JsonbKeepsOrderIff(elems[i]); }
        assert Jsonb(d).elems == elems;
      case DObj(fields) =>
        forall i | 0 <= i < |fields| ensures Jsonb(fields[i].value) == fields[i].value { JsonbKeepsOrderIff(fields[i].value); }
        assert StoredFields(fields) == fields;
        SortOfOrdered(fields);
      case _ =>
    } else {
      JsonbKeepsValue(d);
    }
  }

  lemma {:induction false} ReadOrderIsWellFormed(d: Doc)
    requires InReadOrder(d)
    ensures WellFormed(d)
  {
    match d
    case DArr(elems) => forall i | 0 <= i < |elems| ensures WellFormed(elems[i]) { ReadOrderIsWellFormed(elems[i]); }
    case DObj(fields) =>
      OrderedIsDistinct(fields);
      forall i | 0 <= i < |fields| ensures WellFormed(fields[i].value) { ReadOrderIsWellFormed(fields[i].value); }
    case _ =>
  }
}
