/**
 * The Deepgram response as the mapping reads it: untrusted fields degrade to a default, to "no bound"
 * or to "no confidence", and a run of words has the mean of the confidences that are present.
 */
module DeepgramFields {
  import opened Options
  import opened Sequences

  /** A raw field: a finite number, a value that converts to one, or something else. */
  datatype Field = Absent | NullField | Number(r: real) | Convertible(r: real) | Unusable

  /** `num`: the number a field carries or converts to, else 0 (`null` converts to 0). */
  function Num(f: Field): real {
    match f
    case Number(r) => r
    case Convertible(r) => r
    case _ => 0.0
  }

  /** A sentence bound: read as `num`, but an absent, null or non-numeric one is no bound. */
  function OptionalBound(f: Field): Option<real> {
    match f
    case Number(r) => Some(r)
    case Convertible(r) => Some(r)
    case _ => None
  }

  datatype RawWord = RawWord(start: Field, end: Field, confidence: Field, word: string, punctuatedWord: string)

  datatype Segment = Segment(text: string, start: real, end: real, confidence: Option<real>)

  function Join(texts: seq<string>): string {
    if texts == [] then "" else if |texts| == 1 then texts[0] else texts[0] + " " + Join(texts[1..])
  }

  /** What a text has grown to after each piece: the first alone, then one space and the next. */
  ghost predicate Grows(grown: seq<string>, texts: seq<string>) {
    && |grown| == |texts|
    && (texts != [] ==> grown[0] == texts[0])
    && (forall i | 0 < i < |texts| :: grown[i] == grown[i - 1] + (" " + texts[i]))
  }

  /** `texts` in order, with one space between neighbours and nothing else. */
  ghost predicate IsJoined(text: string, texts: seq<string>) {
    if texts == [] then text == "" else exists grown: seq<string> :: Grows(grown, texts) && grown[|grown| - 1] == text
  }

  lemma {:induction false} GrowsBehind(first: string, texts: seq<string>, grown: seq<string>) returns (all: seq<string>)
    requires texts != [] && Grows(grown, texts)
    ensures |all| == |grown| + 1 && Grows(all, [first] + texts)
    ensures all[|grown|] == (first + " ") + grown[|grown| - 1]
  {
    var moved := seq(|grown|, i requires 0 <= i < |grown| => (first + " ") + grown[i]);
    all := [first] + moved;
    forall i | 0 < i < |all| ensures all[i] == all[i - 1] + (" " + texts[i - 1]) {
      assert all[i] == (first + " ") + grown[i - 1];
      if i == 1 { Associative(first, " ", texts[0]); } else { Associative(first + " ", grown[i - 2], " " + texts[i - 1]); }
    }
  }

  lemma {:induction false} JoinedBehind(first: string, rest: string, texts: seq<string>)
    requires texts != [] && IsJoined(rest, texts)
    ensures IsJoined((first + " ") + rest, [first] + texts)
  {
    var grown: seq<string> :| Grows(grown, texts) && grown[|grown| - 1] == rest;
    var all := GrowsBehind(first, texts, grown);
  }

  lemma {:induction false} JoinJoins(texts: seq<string>)
    ensures IsJoined(Join(texts), texts)
  {
    if |texts| == 1 {
      assert Grows(texts, texts);
    } else if texts != [] {
      JoinJoins(texts[1..]);
      JoinedBehind(texts[0], Join(texts[1..]), texts[1..]);
      assert [texts[0]] + texts[1..] == texts;
    }
  }

  // ----- confidence ----------------------------------------------------------------------------------

  /** The confidences a run carries: finite numbers only. */
  function Present(run: seq<RawWord>): seq<real> {
    if run == [] then []
    else (if run[0].confidence.Number? then [run[0].confidence.r] else []) + Present(run[1..])
  }

  function Sum(values: seq<real>): real {
    if values == [] then 0.0 else values[0] + Sum(values[1..])
  }

  /** Mean of the present confidences; None when there are none, never a fabricated 0. */
  function MeanConfidence(run: seq<RawWord>): Option<real> {
    var values := Present(run);
    if values == [] then None else Some(Sum(values) / |values| as real)
  }

  /** What a run contributes to the total: its mean, once per present confidence. */
  function Weight(run: seq<RawWord>): real {
    match MeanConfidence(run)
    case None => 0.0
    case Some(m) => m * |Present(run)| as real
  }

  function Weights(runs: seq<seq<RawWord>>): real {
    if runs == [] then 0.0 else Weight(runs[0]) + Weights(runs[1..])
  }

  lemma {:induction false} WeightIsSum(run: seq<RawWord>)
    ensures Weight(run) == Sum(Present(run))
  {
  }

  lemma {:induction false} SumAppend(a: seq<real>, b: seq<real>)
    ensures Sum(a + b) == Sum(a) + Sum(b)
  {
    if a == [] {
      assert a + b == b;
    } else {
      assert (a + b)[1..] == a[1..] + b;
      SumAppend(a[1..], b);
    }
  }

  lemma {:induction false} OneWord(run: seq<RawWord>)
    requires run != []
    ensures Present(run) == Present(run[..1]) + Present(run[1..])
  {
    assert run[..1][1..] == [];
  }

  lemma {:induction false} PresentAppend(a: seq<RawWord>, b: seq<RawWord>)
    ensures Present(a + b) == Present(a) + Present(b)
  {
    if a == [] {
      assert a + b == b;
    } else {
      assert (a + b)[0] == a[0] && (a + b)[1..] == a[1..] + b;
      PresentAppend(a[1..], b);
      Associative(Present(a[..1]), Present(a[1..]), Present(b));
      OneWord(a);
      OneWord(a + b);
      assert (a + b)[..1] == a[..1];
    }
  }

  lemma {:induction false} SumBounded(values: seq<real>, lo: real, hi: real)
    requires forall v | v in values :: lo <= v <= hi
    ensures lo * |values| as real <= Sum(values) <= hi * |values| as real
  {
    if values != [] {
      forall v | v in values[1..] ensures v in values {}
      SumBounded(values[1..], lo, hi);
      assert values[0] in values;
      OneMore(lo, |values[1..]| as real, |values| as real);
      OneMore(hi, |values[1..]| as real, |values| as real);
    }
  }

  lemma {:induction false} OneMore(x: real, n: real, m: real)
    requires m == n + 1.0
    ensures x * m == x * n + x
  {
    assert x * m == x * (n + 1.0);
    assert x * (n + 1.0) == x * n + x * 1.0;
  }

  lemma {:induction false} Between(sum: real, n: real, lo: real, hi: real)
    requires n > 0.0 && lo * n <= sum <= hi * n
    ensures lo <= sum / n <= hi
  {
    assert (sum / n) * n == sum;
    if sum / n < lo { LessTimes(sum / n, lo, n); }
    if hi < sum / n { LessTimes(hi, sum / n, n); }
  }

  lemma {:induction false} LessTimes(a: real, b: real, n: real)
    requires a < b && n > 0.0
    ensures a * n < b * n
  {
  }

  predicate HasNumber(w: RawWord) { w.confidence.Number? }

  predicate IsNumberOf(w: RawWord, v: real) { w.confidence == Number(v) }

  /** The present confidences are those of the words that carry a number, in order. */
  lemma {:induction false} PresentAreNumbers(run: seq<RawWord>) returns (ks: seq<nat>)
    ensures IsRecord(run, ks, Present(run), HasNumber, IsNumberOf)
    decreases |run|
  {
    ks := [];
    if run != [] {
      var before, w := run[..|run| - 1], run[|run| - 1];
      assert before + [w] == run;
      ks := PresentAreNumbers(before);
      PresentAppend(before, [w]);
      if HasNumber(w) {
        RecordGrows(before, w, ks, Present(before), w.confidence.r, HasNumber, IsNumberOf);
        ks := ks + [|before|];
      } else {
        RecordSkips(before, w, ks, Present(before), HasNumber, IsNumberOf);
      }
    }
  }

  /** A mean lies between any bounds of its run's confidences, and exists exactly when a word carries one. */
  lemma {:induction false} MeanWithinBounds(run: seq<RawWord>, lo: real, hi: real)
    requires forall i | 0 <= i < |run| && run[i].confidence.Number? :: lo <= run[i].confidence.r <= hi
    ensures MeanConfidence(run).Some? <==> exists i :: 0 <= i < |run| && run[i].confidence.Number?
    ensures MeanConfidence(run).Some? ==> lo <= MeanConfidence(run).value <= hi
  {
    var values := Present(run);
    var ks := PresentAreNumbers(run);
    assert forall i | 0 <= i < |run| && run[i].confidence.Number? :: HasNumber(run[i]);
    if values != [] {
      assert HasNumber(run[ks[0]]);
      forall v | v in values ensures lo <= v <= hi {
        var i :| 0 <= i < |values| && values[i] == v;
        assert IsNumberOf(run[ks[i]], v);
      }
      MeanOfBounded(values, lo, hi);
    }
  }

  lemma {:induction false} MeanOfBounded(values: seq<real>, lo: real, hi: real)
    requires values != [] && forall v | v in values :: lo <= v <= hi
    ensures lo <= Sum(values) / |values| as real <= hi
  {
    SumBounded(values, lo, hi);
    Between(Sum(values), |values| as real, lo, hi);
  }
}
