/**
 * `JSON.stringify` on ordered documents. How a number is written is left open; whatever it is, two documents
 * of one value that are written the same have their properties in the same order.
 */
module JsonText {
  import opened Json
  import opened JsonbOrder
  import opened Sequences

  type Numeral = real -> string

  // ---- strings ------------------------------------------------------------------------------------------

  function Hex(digit: nat): char
    requires digit < 16
  {
    "0123456789abcdef"[digit]
  }

  /** How one character is written between quotes. */
  function Escape(c: char): string {
    if c == '"' then ['\\', '"']
    else if c == '\\' then ['\\', '\\']
    else if c == '\U{0008}' then ['\\', 'b']
    else if c == '\U{0009}' then ['\\', 't']
    else if c == '\U{000A}' then ['\\', 'n']
    else if c == '\U{000C}' then ['\\', 'f']
    else if c == '\U{000D}' then ['\\', 'r']
    else if c < ' ' then ['\\', 'u', '0', '0', Hex(c as int / 16), Hex(c as int % 16)]
    else [c]
  }

  /** The rest of a string and its closing quote. */
  function QuotedTail(s: string): string {
    if s == "" then ['"'] else Escape(s[0]) + QuotedTail(s[1..])
  }

  function Quoted(s: string): string { ['"'] + QuotedTail(s) }

  // ---- documents ----------------------------------------------------------------------------------------

  function Stringify(d: Doc, numeral: Numeral): string
    decreases d
  {
    match d
    case DNull => "null"
    case DBool(b) => if b then "true" else "false"
    case DNum(n) => numeral(n)
    case DStr(s) => Quoted(s)
    case DArr(elems) => ['['] + ElementsTail(elems, true, numeral)
    case DObj(fields) => ['{'] + FieldsTail(fields, true, numeral)
  }

  /** The remaining elements of an array and its closing bracket. */
  function ElementsTail(elems: seq<Doc>, first: bool, numeral: Numeral): string
    decreases elems
  {
    if elems == [] then [']'] else Comma(first) + (Stringify(elems[0], numeral) + ElementsTail(elems[1..], false, numeral))
  }

  function FieldsTail(fields: seq<Field>, first: bool, numeral: Numeral): string
    decreases fields
  {
    if fields == [] then ['}']
    else
      Comma(first) + (Quoted(fields[0].key) + ([':'] + (Stringify(fields[0].value, numeral) + FieldsTail(fields[1..], false, numeral))))
  }

  function Comma(first: bool): string { if first then [] else [','] }

  // ---- what a text tells --------------------------------------------------------------------------------

  lemma {:induction false} Cancel(a: string, x: string, y: string)
    requires a + x == a + y
    ensures x == y
  {
    assert x == (a + x)[|a|..] && y == (a + y)[|a|..];
  }

  lemma {:induction false} EscapeTells(c: char, d: char, x: string, y: string)
    requires Escape(c) + x == Escape(d) + y
    ensures c == d && x == y
  {
    var s, t := Escape(c) + x, Escape(d) + y;
    assert s[0] == Escape(c)[0] && t[0] == Escape(d)[0];
    if |Escape(c)| > 1 && |Escape(d)| > 1 {
      assert s[1] == Escape(c)[1] && t[1] == Escape(d)[1];
      if |Escape(c)| > 2 && |Escape(d)| > 2 {
        assert s[4] == Escape(c)[4] && t[4] == Escape(d)[4] && s[5] == Escape(c)[5] && t[5] == Escape(d)[5];
        HexTells(c as int / 16, d as int / 16);
        HexTells(c as int % 16, d as int % 16);
        assert c as int == d as int;
      }
    }
    Cancel(Escape(c), x, y);
  }

  lemma {:induction false} HexTells(a: nat, b: nat)
    requires a < 16 && b < 16 && Hex(a) == Hex(b)
    ensures a == b
  {
    var digits := "0123456789abcdef";
    assert digits[a] == digits[b];
  }

  lemma {:induction false} QuotedTailTells(s: string, t: string, x: string, y: string)
    requires QuotedTail(s) + x == QuotedTail(t) + y
    ensures s == t && x == y
    decreases |s|
  {
    if s == "" || t == "" {
      assert (QuotedTail(s) + x)[0] == QuotedTail(s)[0] && (QuotedTail(t) + y)[0] == QuotedTail(t)[0];
      Cancel(['"'], x, y);
    } else {
      Associative(Escape(s[0]), QuotedTail(s[1..]), x);
      Associative(Escape(t[0]), QuotedTail(t[1..]), y);
      EscapeTells(s[0], t[0], QuotedTail(s[1..]) + x, QuotedTail(t[1..]) + y);
      QuotedTailTells(s[1..], t[1..], x, y);
      assert s == [s[0]] + s[1..] && t == [t[0]] + t[1..];
    }
  }

  lemma {:induction false} QuotedTells(s: string, t: string, x: string, y: string)
    requires Quoted(s) + x == Quoted(t) + y
    ensures s == t && x == y
  {
    Associative(['"'], QuotedTail(s), x);
    Associative(['"'], QuotedTail(t), y);
    Cancel(['"'], QuotedTail(s) + x, QuotedTail(t) + y);
    QuotedTailTells(s, t, x, y);
  }

  /** Fields of one key have one value. */
  ghost predicate Agree(a: seq<Field>, b: seq<Field>) {
    forall i, j | 0 <= i < |a| && 0 <= j < |b| && a[i].key == b[j].key :: ValueOf(a[i].value) == ValueOf(b[j].value)
  }

  predicate FieldsWellFormed(fields: seq<Field>) { forall i | 0 <= i < |fields| :: WellFormed(fields[i].value) }

  lemma {:induction false} SameValuesAgree(a: seq<Field>, b: seq<Field>)
    requires DistinctKeys(a) && DistinctKeys(b) && FieldValues(a) == FieldValues(b)
    ensures Agree(a, b)
  {
    forall i, j | 0 <= i < |a| && 0 <= j < |b| && a[i].key == b[j].key ensures ValueOf(a[i].value) == ValueOf(b[j].value) {
      assert a[i] in a && b[j] in b;
      FieldValuesByKey(a, Other(a[i].key));
      FieldValuesByKey(b, Other(a[i].key));
    }
  }

  /** Of two documents of one value, a text that begins with one begins with the other only if they are the same. */
  lemma {:induction false} TextTells(a: Doc, b: Doc, x: string, y: string, numeral: Numeral)
    requires WellFormed(a) && WellFormed(b) && ValueOf(a) == ValueOf(b)
    requires Stringify(a, numeral) + x == Stringify(b, numeral) + y
    ensures a == b && x == y
    decreases a, 1
  {
    match a
    case DArr(elems) =>
      Associative(['['], ElementsTail(elems, true, numeral), x);
      Associative(['['], ElementsTail(b.elems, true, numeral), y);
      Cancel(['['], ElementsTail(elems, true, numeral) + x, ElementsTail(b.elems, true, numeral) + y);
      SameElementValues(elems, b.elems);
      ElementsTell(elems, b.elems, true, x, y, numeral);
    case DObj(fields) =>
      Associative(['{'], FieldsTail(fields, true, numeral), x);
      Associative(['{'], FieldsTail(b.fields, true, numeral), y);
      Cancel(['{'], FieldsTail(fields, true, numeral) + x, FieldsTail(b.fields, true, numeral) + y);
      SameValuesAgree(fields, b.fields);
      FieldsTell(fields, b.fields, true, x, y, numeral);
    case _ =>
      assert a == b;
      Cancel(Stringify(a, numeral), x, y);
  }

  lemma {:induction false} SameElementValues(a: seq<Doc>, b: seq<Doc>)
    requires ValueOf(DArr(a)) == ValueOf(DArr(b))
    ensures |a| == |b| && forall i | 0 <= i < |a| :: ValueOf(a[i]) == ValueOf(b[i])
  {
    var u, v := ValueOf(DArr(a)).elems, ValueOf(DArr(b)).elems;
    assert |u| == |a| && |v| == |b|;
    forall i | 0 <= i < |a| ensures ValueOf(a[i]) == ValueOf(b[i]) { assert u[i] == v[i]; }
  }

  lemma {:induction false} ElementsTell(a: seq<Doc>, b: seq<Doc>, first: bool, x: string, y: string, numeral: Numeral)
    requires |a| == |b| && forall i | 0 <= i < |a| :: WellFormed(a[i]) && WellFormed(b[i]) && ValueOf(a[i]) == ValueOf(b[i])
    requires ElementsTail(a, first, numeral) + x == ElementsTail(b, first, numeral) + y
    ensures a == b && x == y
    decreases a, 0
  {
    if a == [] {
      Cancel([']'], x, y);
    } else {
      var s, t := ElementsTail(a[1..], false, numeral), ElementsTail(b[1..], false, numeral);
      Unfold(Comma(first), Stringify(a[0], numeral), s, x);
      Unfold(Comma(first), Stringify(b[0], numeral), t, y);
      Cancel(Comma(first), Stringify(a[0], numeral) + (s + x), Stringify(b[0], numeral) + (t + y));
      TextTells(a[0], b[0], s + x, t + y, numeral);
      ElementsTell(a[1..], b[1..], false, x, y, numeral);
      assert a == [a[0]] + a[1..] && b == [b[0]] + b[1..];
    }
  }

  lemma {:induction false} Unfold(a: string, b: string, c: string, x: string)
    ensures (a + (b + c)) + x == a + (b + (c + x))
  {
    Associative(a, b + c, x);
    Associative(b, c, x);
  }

  lemma {:induction false} FieldsTell(a: seq<Field>, b: seq<Field>, first: bool, x: string, y: string, numeral: Numeral)
    requires FieldsWellFormed(a) && FieldsWellFormed(b) && Agree(a, b)
    requires FieldsTail(a, first, numeral) + x == FieldsTail(b, first, numeral) + y
    ensures a == b && x == y
    decreases a, 0
  {
    if a == [] || b == [] {
      FieldsEnd(a, b, first, x, y, numeral);
    } else {
      var s, t := FieldsTail(a[1..], false, numeral), FieldsTail(b[1..], false, numeral);
      FirstKeyTells(a, b, first, x, y, numeral);
      TextTells(a[0].value, b[0].value, s + x, t + y, numeral);
      FieldsTell(a[1..], b[1..], false, x, y, numeral);
      assert a == [a[0]] + a[1..] && b == [b[0]] + b[1..];
    }
  }

  lemma {:induction false} FieldsEnd(a: seq<Field>, b: seq<Field>, first: bool, x: string, y: string, numeral: Numeral)
    requires a == [] || b == []
    requires FieldsTail(a, first, numeral) + x == FieldsTail(b, first, numeral) + y
    ensures a == b && x == y
  {
    var s, t := FieldsTail(a, first, numeral), FieldsTail(b, first, numeral);
    FieldsTailBegins(a, first, numeral);
    FieldsTailBegins(b, first, numeral);
    assert (s + x)[0] == s[0] && (t + y)[0] == t[0];
    Cancel(['}'], x, y);
  }

  lemma {:induction false} FieldsTailBegins(fields: seq<Field>, first: bool, numeral: Numeral)
    ensures FieldsTail(fields, first, numeral) != [] && (FieldsTail(fields, first, numeral)[0] == '}' <==> fields == [])
  {
  }

  lemma {:induction false} FirstKeyTells(a: seq<Field>, b: seq<Field>, first: bool, x: string, y: string, numeral: Numeral)
    requires a != [] && b != [] && FieldsTail(a, first, numeral) + x == FieldsTail(b, first, numeral) + y
    ensures a[0].key == b[0].key
    ensures Stringify(a[0].value, numeral) + (FieldsTail(a[1..], false, numeral) + x) == Stringify(b[0].value, numeral) + (FieldsTail(b[1..], false, numeral) + y)
  {
    FieldUnfolds(a, first, x, numeral);
    FieldUnfolds(b, first, y, numeral);
    var s := Stringify(a[0].value, numeral) + (FieldsTail(a[1..], false, numeral) + x);
    var t := Stringify(b[0].value, numeral) + (FieldsTail(b[1..], false, numeral) + y);
    Cancel(Comma(first), Quoted(a[0].key) + ([':'] + s), Quoted(b[0].key) + ([':'] + t));
    QuotedTells(a[0].key, b[0].key, [':'] + s, [':'] + t);
    Cancel([':'], s, t);
  }

  lemma {:induction false} FieldUnfolds(fields: seq<Field>, first: bool, x: string, numeral: Numeral)
    requires fields != []
    ensures FieldsTail(fields, first, numeral) + x == Comma(first) + (Quoted(fields[0].key)
      + ([':'] + (Stringify(fields[0].value, numeral) + (FieldsTail(fields[1..], false, numeral) + x))))
  {
    var key, value, rest := Quoted(fields[0].key), Stringify(fields[0].value, numeral), FieldsTail(fields[1..], false, numeral);
    Unfold(Comma(first), key, [':'] + (value + rest), x);
    Unfold([':'], value, rest, x);
  }

  /** Documents of one value are told apart by their text. */
  lemma {:induction false} StringifyKeepsOrder(a: Doc, b: Doc, numeral: Numeral)
    requires WellFormed(a) && WellFormed(b) && ValueOf(a) == ValueOf(b)
    ensures Stringify(a, numeral) == Stringify(b, numeral) <==> a == b
  {
    if Stringify(a, numeral) == Stringify(b, numeral) {
      TextTells(a, b, [], [], numeral);
    }
  }
}
