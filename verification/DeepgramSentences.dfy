/**
 * Segments from sentences: one piece per sentence with text, the time of a sentence without text given
 * to its neighbour, and each word counted for the first piece that contains it.
 */
module DeepgramSentences {
  import opened Options
  import opened Runs
  import opened DeepgramFields
  import opened DeepgramParagraphs

  datatype Piece = Piece(text: string, start: real, end: real)

  /** The characters `String.prototype.trim` removes. */
  predicate IsSpace(c: char) {
    || '\U{0009}' <= c <= '\U{000D}' || c == ' ' || c == '\U{00A0}' || c == '\U{1680}'
    || '\U{2000}' <= c <= '\U{200A}' || c == '\U{2028}' || c == '\U{2029}' || c == '\U{202F}'
    || c == '\U{205F}' || c == '\U{3000}' || c == '\U{FEFF}'
  }

  predicate Blank(s: Sentence) {
    forall i | 0 <= i < |s.text| :: IsSpace(s.text[i])
  }

  predicate AllBlank(sentences: seq<Sentence>) {
    forall i | 0 <= i < |sentences| :: Blank(sentences[i])
  }

  function Min(a: real, b: real): real { if b < a then b else a }
  function Max(a: real, b: real): real { if b > a then b else a }
  function OrElse(o: Option<real>, d: real): real { match o case Some(r) => r case None => d }

  // ----- what the pieces of a paragraph are ------------------------------------------------------------

  /** The least usable start of some sentences, if any has one. */
  function Earliest(ss: seq<Sentence>): Option<real> {
    if ss == [] then None
    else
      var before := Earliest(ss[..|ss| - 1]);
      match OptionalBound(ss[|ss| - 1].start)
      case None => before
      case Some(b) => Some(Min(OrElse(before, b), b))
  }

  /** `end`, or the greatest usable end of some sentences where that is later. */
  function Latest(end: real, ss: seq<Sentence>): real {
    if ss == [] then end
    else
      var before := Latest(end, ss[..|ss| - 1]);
      match OptionalBound(ss[|ss| - 1].end)
      case None => before
      case Some(b) => Max(before, b)
  }

  function OwnStart(p: Paragraph, s: Sentence): real { OrElse(OptionalBound(s.start), Num(p.start)) }
  function OwnEnd(p: Paragraph, s: Sentence): real { OrElse(OptionalBound(s.end), Num(p.end)) }

  /** Where a piece starts: at its own start, or, for the first of a paragraph, at an earlier skipped one. */
  function PieceStart(p: Paragraph, skipped: seq<Sentence>, s: Sentence, first: bool): real {
    var own := OwnStart(p, s);
    if first then Min(own, OrElse(Earliest(skipped), own)) else own
  }

  /** The pieces of the sentences read so far. */
  function PiecesOf(p: Paragraph, ss: seq<Sentence>): seq<Piece> {
    if ss == [] then []
    else
      var s := ss[|ss| - 1];
      var before := PiecesOf(p, ss[..|ss| - 1]);
      if Blank(s) then ExtendLast(before, OptionalBound(s.end))
      else before + [Piece(s.text, PieceStart(p, ss[..|ss| - 1], s, before == []), OwnEnd(p, s))]
  }

  /** The time of a blank sentence goes to the piece before it. */
  function ExtendLast(pieces: seq<Piece>, end: Option<real>): seq<Piece> {
    if pieces == [] || end.None? then pieces
    else
      var last := pieces[|pieces| - 1];
      pieces[|pieces| - 1 := last.(end := Max(last.end, end.value))]
  }

  function ParagraphPieces(p: Paragraph): seq<Piece> {
    if AllBlank(p.sentences) then [Piece(Join(Texts(p.sentences)), Num(p.start), Num(p.end))]
    else PiecesOf(p, p.sentences)
  }

  function AllPieces(paragraphs: seq<Paragraph>): seq<Piece> {
    if paragraphs == [] then []
    else AllPieces(paragraphs[..|paragraphs| - 1]) + ParagraphPieces(paragraphs[|paragraphs| - 1])
  }

  // ----- which piece a word belongs to --------------------------------------------------------------------

  predicate Contains(p: Piece, w: RawWord) {
    p.start <= Num(w.start) && Num(w.end) <= p.end
  }

  /** The index of the first piece from `from` on that contains a word; the number of pieces if none does. */
  function FindIndex(pieces: seq<Piece>, w: RawWord, from: nat): (k: nat)
    requires from <= |pieces|
    ensures from <= k <= |pieces|
    ensures k < |pieces| ==> Contains(pieces[k], w)
    ensures forall i | from <= i < k :: !Contains(pieces[i], w)
    decreases |pieces| - from
  {
    if from == |pieces| || Contains(pieces[from], w) then from else FindIndex(pieces, w, from + 1)
  }

  /** The first piece that contains a word, else the first piece. */
  function Position(pieces: seq<Piece>, w: RawWord): nat {
    var k := FindIndex(pieces, w, 0);
    if k == |pieces| then 0 else k
  }

  /** The words of piece `k`, in order. */
  function WordsOf(pieces: seq<Piece>, words: seq<RawWord>, k: nat): seq<RawWord> {
    if words == [] then []
    else
      var n := |words| - 1;
      WordsOf(pieces, words[..n], k) + if Position(pieces, words[n]) == k then [words[n]] else []
  }

  // ----- the loops --------------------------------------------------------------------------------------------

  /** The pieces and, for each, the mean confidence of exactly its own words. */
  method SegmentsFromSentences(paragraphs: seq<Paragraph>, rawWords: seq<RawWord>) returns (segments: seq<Segment>)
    ensures
      var pieces := AllPieces(paragraphs);
      && |segments| == |pieces|
      && forall k | 0 <= k < |pieces| ::
        segments[k] == Segment(pieces[k].text, pieces[k].start, pieces[k].end, MeanConfidence(WordsOf(pieces, rawWords, k)))
  {
    var pieces: seq<Piece> := [];
    for n := 0 to |paragraphs|
      invariant pieces == AllPieces(paragraphs[..n])
    {
      var paragraph := paragraphs[n];
      assert paragraphs[..n + 1][..n] == paragraphs[..n];
      if AllBlank(paragraph.sentences) {
        pieces := pieces + [Piece(Join(Texts(paragraph.sentences)), Num(paragraph.start), Num(paragraph.end))];
        continue;
      }
      pieces := PushSentencePieces(pieces, paragraph);
    }
    assert paragraphs[..|paragraphs|] == paragraphs;

    var runs: seq<seq<RawWord>> := seq(|pieces|, _ => []);
    for i := 0 to |rawWords|
      invariant |runs| == |pieces|
      invariant forall k | 0 <= k < |pieces| :: runs[k] == WordsOf(pieces, rawWords[..i], k)
    {
      var word := rawWords[i];
      assert rawWords[..i + 1][..i] == rawWords[..i];
      var position := FindIndex(pieces, word, 0);
      if position == |pieces| { position := 0; }
      if position < |runs| {
        runs := runs[position := runs[position] + [word]];
      }
    }
    assert rawWords[..|rawWords|] == rawWords;
    segments := seq(|pieces|, k requires 0 <= k < |pieces| && k < |runs| =>
      Segment(pieces[k].text, pieces[k].start, pieces[k].end, MeanConfidence(runs[k])));
  }

  /** The inner loop: `previous` is the last piece pushed for this paragraph, rewritten in place. */
  method PushSentencePieces(before: seq<Piece>, paragraph: Paragraph) returns (pieces: seq<Piece>)
    ensures pieces == before + PiecesOf(paragraph, paragraph.sentences)
  {
    var start, end := Num(paragraph.start), Num(paragraph.end);
    var sentences := paragraph.sentences;
    var previous: Option<nat> := None;
    var leading: Option<real> := None;
    pieces := before;
    for i := 0 to |sentences|
      invariant pieces == before + PiecesOf(paragraph, sentences[..i])
      invariant previous == if PiecesOf(paragraph, sentences[..i]) == [] then None else Some(|pieces| - 1)
      invariant leading == if PiecesOf(paragraph, sentences[..i]) == [] then Earliest(sentences[..i]) else None
    {
      var sentence := sentences[i];
      assert sentences[..i + 1][..i] == sentences[..i];
      var sentenceStart, sentenceEnd := OptionalBound(sentence.start), OptionalBound(sentence.end);
      if Blank(sentence) {
        if previous.Some? {
          if sentenceEnd.Some? {
            var p := pieces[previous.value];
            pieces := pieces[previous.value := p.(end := Max(p.end, sentenceEnd.value))];
          }
        } else if sentenceStart.Some? {
          leading := Some(Min(OrElse(leading, sentenceStart.value), sentenceStart.value));
        }
        continue;
      }
      var piece := Piece(sentence.text, OrElse(sentenceStart, start), OrElse(sentenceEnd, end));
      if leading.Some? {
        piece := piece.(start := Min(piece.start, leading.value));
        leading := None;
      }
      pieces := pieces + [piece];
      previous := Some(|pieces| - 1);
    }
    assert sentences[..|sentences|] == sentences;
  }

  // ----- nothing is lost ------------------------------------------------------------------------------------

  lemma {:induction false} NoPieceIffAllBlank(p: Paragraph, ss: seq<Sentence>)
    ensures PiecesOf(p, ss) == [] <==> AllBlank(ss)
  {
    if ss != [] {
      NoPieceIffAllBlank(p, ss[..|ss| - 1]);
      assert AllBlank(ss) <==> AllBlank(ss[..|ss| - 1]) && Blank(ss[|ss| - 1]);
    }
  }

  /** Every paragraph yields a piece. */
  lemma {:induction false} EveryParagraphHasAPiece(p: Paragraph)
    ensures ParagraphPieces(p) != []
  {
    NoPieceIffAllBlank(p, p.sentences);
  }

  function KeptTexts(ss: seq<Sentence>): seq<string> {
    if ss == [] then []
    else KeptTexts(ss[..|ss| - 1]) + if Blank(ss[|ss| - 1]) then [] else [ss[|ss| - 1].text]
  }

  function PieceTexts(pieces: seq<Piece>): seq<string> {
    seq(|pieces|, k requires 0 <= k < |pieces| => pieces[k].text)
  }

  /** One piece per sentence with text, in order, with that text. */
  lemma {:induction false} PieceTextsAreKeptTexts(p: Paragraph, ss: seq<Sentence>)
    ensures PieceTexts(PiecesOf(p, ss)) == KeptTexts(ss)
  {
    if ss != [] {
      PieceTextsAreKeptTexts(p, ss[..|ss| - 1]);
    }
  }

  /**
   * What the last piece of a paragraph is, whatever comes before: with `blanks` the sentences without
   * text that follow sentence `s`, it runs from the sentence's own start - or, when `s` is the first
   * with text, from the earliest start before it - to the latest end among `s` and `blanks`.
   */
  lemma {:induction false} LastPiece(p: Paragraph, ss: seq<Sentence>, s: Sentence, blanks: seq<Sentence>)
    requires !Blank(s) && AllBlank(blanks)
    ensures PiecesOf(p, ss + [s] + blanks) ==
      PiecesOf(p, ss) + [Piece(s.text, PieceStart(p, ss, s, AllBlank(ss)), Latest(OwnEnd(p, s), blanks))]
    decreases |blanks|
  {
    NoPieceIffAllBlank(p, ss);
    if blanks == [] {
      assert ss + [s] + blanks == ss + [s] && (ss + [s])[..|ss|] == ss;
    } else {
      var n := |blanks| - 1;
      assert (ss + [s] + blanks)[..|ss| + 1 + n] == ss + [s] + blanks[..n];
      LastPiece(p, ss, s, blanks[..n]);
    }
  }

  /** Sentences in order, with usable bounds: neither starts nor ends ever go back. */
  predicate InOrder(ss: seq<Sentence>) {
    && (forall i | 0 <= i < |ss| :: OptionalBound(ss[i].start).Some? && OptionalBound(ss[i].end).Some?)
    && (forall i, j | 0 <= i < j < |ss| ::
        Num(ss[i].start) <= Num(ss[j].start) && Num(ss[i].end) <= Num(ss[j].end))
  }

  /** Some piece covers the whole time of a sentence. */
  predicate Covered(pieces: seq<Piece>, s: Sentence) {
    exists k :: 0 <= k < |pieces| && pieces[k].start <= Num(s.start) && Num(s.end) <= pieces[k].end
  }

  lemma {:induction false} EarliestBelow(ss: seq<Sentence>, i: nat)
    requires i < |ss| && OptionalBound(ss[i].start).Some?
    ensures Earliest(ss).Some? && Earliest(ss).value <= Num(ss[i].start)
  {
    if i < |ss| - 1 { EarliestBelow(ss[..|ss| - 1], i); }
  }

  /** The last piece starts no later than the last sentence read. */
  lemma {:induction false} LastPieceStart(p: Paragraph, ss: seq<Sentence>)
    requires InOrder(ss) && PiecesOf(p, ss) != []
    ensures PiecesOf(p, ss)[|PiecesOf(p, ss)| - 1].start <= Num(ss[|ss| - 1].start)
  {
    var n := |ss| - 1;
    if Blank(ss[n]) {
      LastPieceStart(p, ss[..n]);
      assert PiecesOf(p, ss[..n]) != [];
    }
  }

  /**
   * With sentences in order, a paragraph that keeps a sentence covers the time of every sentence of its
   * own, those it skipped included.
   */
  lemma {:induction false} SkippedTimeIsCovered(p: Paragraph, ss: seq<Sentence>, i: nat)
    requires InOrder(ss) && !AllBlank(ss) && i < |ss|
    ensures Covered(PiecesOf(p, ss), ss[i])
    decreases |ss|
  {
    var n, s := |ss| - 1, ss[|ss| - 1];
    var before, pieces := PiecesOf(p, ss[..n]), PiecesOf(p, ss);
    NoPieceIffAllBlank(p, ss[..n]);
    NoPieceIffAllBlank(p, ss);
    if i == n {
      LastPieceStart(p, ss);
      assert s.end.Number? || s.end.Convertible?;
      assert Num(s.end) <= pieces[|pieces| - 1].end;
    } else if AllBlank(ss[..n]) {
      EarliestBelow(ss[..n], i);
      assert pieces[0].start <= Num(ss[i].start) && Num(ss[i].end) <= Num(s.end) == pieces[0].end;
    } else {
      SkippedTimeIsCovered(p, ss[..n], i);
      var k :| 0 <= k < |before| && before[k].start <= Num(ss[..n][i].start) && Num(ss[..n][i].end) <= before[k].end;
      assert pieces[k].start == before[k].start && before[k].end <= pieces[k].end;
    }
  }

  lemma {:induction false} LatestAbove(end: real, ss: seq<Sentence>, i: nat)
    requires i < |ss| && OptionalBound(ss[i].end).Some?
    ensures Num(ss[i].end) <= Latest(end, ss)
  {
    if i < |ss| - 1 { LatestAbove(end, ss[..|ss| - 1], i); }
  }

  predicate Inside(s: Sentence, piece: Piece) { piece.start <= Num(s.start) && Num(s.end) <= piece.end }

  /** The piece of a sentence, given what comes before it in its paragraph and the blanks behind it. */
  function PieceWith(p: Paragraph, ss: seq<Sentence>, s: Sentence, blanks: seq<Sentence>): (piece: Piece)
    requires !Blank(s) && AllBlank(blanks)
    ensures PiecesOf(p, ss + [s] + blanks) == PiecesOf(p, ss) + [piece]
  {
    LastPiece(p, ss, s, blanks);
    Piece(s.text, PieceStart(p, ss, s, AllBlank(ss)), Latest(OwnEnd(p, s), blanks))
  }

  /**
   * In whatever order the sentences stand: a blank one behind a piece is inside it exactly when it starts no
   * earlier, and one in front of the first piece exactly when it ends no later.
   */
  lemma {:induction false} BlankInsideIff(p: Paragraph, ss: seq<Sentence>, s: Sentence, blanks: seq<Sentence>, i: nat)
    requires !Blank(s) && AllBlank(blanks)
    ensures i < |blanks| && OptionalBound(blanks[i].end).Some? ==>
      (Inside(blanks[i], PieceWith(p, ss, s, blanks)) <==> PieceWith(p, ss, s, blanks).start <= Num(blanks[i].start))
    ensures AllBlank(ss) && i < |ss| && OptionalBound(ss[i].start).Some? ==>
      (Inside(ss[i], PieceWith(p, ss, s, blanks)) <==> Num(ss[i].end) <= PieceWith(p, ss, s, blanks).end)
  {
    if i < |blanks| && OptionalBound(blanks[i].end).Some? { LatestAbove(OwnEnd(p, s), blanks, i); }
    if i < |ss| && OptionalBound(ss[i].start).Some? { EarliestBelow(ss, i); }
  }

  /** Out of order, skipped time can be lost: a skipped sentence that starts before the piece it goes to. */
  lemma {:induction false} OutOfOrderLosesTime(p: Paragraph, kept: Sentence, skipped: Sentence)
    requires !Blank(kept) && Blank(skipped) && OptionalBound(kept.start).Some? && OptionalBound(kept.end).Some?
    requires OptionalBound(skipped.start).Some? && Num(skipped.start) < Num(kept.start)
    ensures !Covered(PiecesOf(p, [kept, skipped]), skipped)
  {
    LastPiece(p, [], kept, [skipped]);
    assert [] + [kept] + [skipped] == [kept, skipped];
  }

  // ----- words ------------------------------------------------------------------------------------------------

  function WordRuns(pieces: seq<Piece>, words: seq<RawWord>): seq<seq<RawWord>> {
    seq(|pieces|, k requires 0 <= k < |pieces| => WordsOf(pieces, words, k))
  }

  lemma {:induction false} WeightsAppend(a: seq<seq<RawWord>>, b: seq<seq<RawWord>>)
    ensures Weights(a + b) == Weights(a) + Weights(b)
  {
    if a == [] {
      assert a + b == b;
    } else {
      assert (a + b)[1..] == a[1..] + b;
      WeightsAppend(a[1..], b);
    }
  }

  lemma {:induction false} WeightsEmptyRuns(n: nat)
    ensures Weights(seq(n, _ => [])) == 0.0
  {
    var runs: seq<seq<RawWord>> := seq(n, _ => []);
    if n > 0 {
      assert runs[1..] == seq(n - 1, _ => []);
      WeightsEmptyRuns(n - 1);
    }
  }

  lemma {:induction false} WeightsOfUpdate(runs: seq<seq<RawWord>>, k: nat, w: RawWord)
    requires k < |runs|
    ensures Weights(runs[k := runs[k] + [w]]) == Weights(runs) + Sum(Present([w]))
  {
    var a, b := runs[..k], runs[k + 1..];
    assert runs == a + ([runs[k]] + b);
    assert runs[k := runs[k] + [w]] == a + ([runs[k] + [w]] + b);
    WeightsAppend(a, [runs[k]] + b);
    WeightsAppend(a, [runs[k] + [w]] + b);
    WeightIsSum(runs[k]);
    WeightIsSum(runs[k] + [w]);
    PresentAppend(runs[k], [w]);
    SumAppend(Present(runs[k]), Present([w]));
  }

  lemma {:induction false} FlattenUpdate(runs: seq<seq<RawWord>>, k: nat, w: RawWord)
    requires k < |runs|
    ensures multiset(Flatten(runs[k := runs[k] + [w]])) == multiset(Flatten(runs)) + multiset{w}
  {
    var before, after := runs[..k], runs[k + 1..];
    assert runs == before + ([runs[k]] + after) && runs[k := runs[k] + [w]] == before + ([runs[k] + [w]] + after);
    FlattenAppend(before, [runs[k]] + after);
    FlattenAppend(before, [runs[k] + [w]] + after);
    FlattenAppend([runs[k]], after);
    FlattenAppend([runs[k] + [w]], after);
    FlattenSingle(runs[k]);
    FlattenSingle(runs[k] + [w]);
  }

  lemma {:induction false} FlattenEmptyRuns(n: nat)
    ensures Flatten<RawWord>(seq(n, _ => [])) == []
    decreases n
  {
    var runs: seq<seq<RawWord>> := seq(n, _ => []);
    if n > 0 {
      FlattenEmptyRuns(n - 1);
      assert runs[1..] == seq(n - 1, _ => []);
    }
  }

  lemma {:induction false} WordRunsSnoc(pieces: seq<Piece>, words: seq<RawWord>, w: RawWord)
    requires pieces != []
    ensures var k, before := Position(pieces, w), WordRuns(pieces, words);
      WordRuns(pieces, words + [w]) == before[k := before[k] + [w]]
  {
    var k, before, after := Position(pieces, w), WordRuns(pieces, words), WordRuns(pieces, words + [w]);
    assert (words + [w])[..|words|] == words;
    forall j | 0 <= j < |pieces| ensures after[j] == before[k := before[k] + [w]][j] {
      assert before[j] == WordsOf(pieces, words, j);
    }
  }

  /** Every word lands in exactly one run: the runs together hold the words, each as often as it was given. */
  lemma {:induction false} EachWordInOneRun(pieces: seq<Piece>, words: seq<RawWord>)
    requires pieces != []
    ensures multiset(Flatten(WordRuns(pieces, words))) == multiset(words)
    decreases |words|
  {
    if words == [] {
      assert WordRuns(pieces, words) == seq(|pieces|, _ => []);
      FlattenEmptyRuns(|pieces|);
    } else {
      var before, w := words[..|words| - 1], words[|words| - 1];
      EachWordInOneRun(pieces, before);
      assert before + [w] == words;
      WordRunsSnoc(pieces, before, w);
      FlattenUpdate(WordRuns(pieces, before), Position(pieces, w), w);
    }
  }

  /** Each word counts for exactly one piece: means times counts add up to all present confidences. */
  lemma {:induction false} SentencesConserveConfidence(pieces: seq<Piece>, words: seq<RawWord>)
    requires pieces != []
    ensures Weights(WordRuns(pieces, words)) == Sum(Present(words))
    decreases |words|
  {
    if words == [] {
      assert WordRuns(pieces, words) == seq(|pieces|, _ => []);
      WeightsEmptyRuns(|pieces|);
    } else {
      var n := |words| - 1;
      var w, before := words[n], WordRuns(pieces, words[..n]);
      var k := Position(pieces, w);
      assert words == words[..n] + [w];
      forall j | 0 <= j < |pieces|
        ensures WordsOf(pieces, words, j) == before[k := before[k] + [w]][j]
      {
        assert before[j] == WordsOf(pieces, words[..n], j);
      }
      assert WordRuns(pieces, words) == before[k := before[k] + [w]];
      SentencesConserveConfidence(pieces, words[..n]);
      WeightsOfUpdate(before, k, w);
      PresentAppend(words[..n], [w]);
      SumAppend(Present(words[..n]), Present([w]));
    }
  }

  /** The segment the shared normalizer lists a word under: the first containing it, else the first. */
  function NormalizerIndex(segments: seq<Segment>, w: RawWord, from: nat): nat
    requires from <= |segments|
    decreases |segments| - from
  {
    if from == |segments| then 0
    else if segments[from].start <= Num(w.start) && Num(w.end) <= segments[from].end then from
    else NormalizerIndex(segments, w, from + 1)
  }

  lemma {:induction false} NormalizerAgrees(pieces: seq<Piece>, segments: seq<Segment>, w: RawWord, from: nat)
    requires |segments| == |pieces| && from <= |pieces|
    requires forall k | 0 <= k < |pieces| :: segments[k].start == pieces[k].start && segments[k].end == pieces[k].end
    ensures NormalizerIndex(segments, w, from) == if FindIndex(pieces, w, from) == |pieces| then 0 else FindIndex(pieces, w, from)
    decreases |pieces| - from
  {
    if from < |pieces| && !Contains(pieces[from], w) { NormalizerAgrees(pieces, segments, w, from + 1); }
  }

  function ListedWords(segments: seq<Segment>, words: seq<RawWord>, k: nat): seq<RawWord> {
    if words == [] then []
    else
      var n := |words| - 1;
      ListedWords(segments, words[..n], k) + if NormalizerIndex(segments, words[n], 0) == k then [words[n]] else []
  }

  /** A segment's confidence is the mean over exactly the words the normalizer will list under it. */
  lemma {:induction false} ConfidenceIsOfListedWords(pieces: seq<Piece>, segments: seq<Segment>, words: seq<RawWord>, k: nat)
    requires |segments| == |pieces| && k < |pieces|
    requires forall j | 0 <= j < |pieces| :: segments[j].start == pieces[j].start && segments[j].end == pieces[j].end
    ensures ListedWords(segments, words, k) == WordsOf(pieces, words, k)
    decreases |words|
  {
    if words != [] {
      NormalizerAgrees(pieces, segments, words[|words| - 1], 0);
      ConfidenceIsOfListedWords(pieces, segments, words[..|words| - 1], k);
    }
  }
}
