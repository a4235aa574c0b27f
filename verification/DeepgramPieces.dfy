/**
 * What the pieces of sentences are, whatever the sentences: their texts, their bounds, and their paragraphs.
 */
module DeepgramPieces {
  import opened Options
  import opened Sequences
  import opened DeepgramFields
  import opened DeepgramParagraphs
  import opened DeepgramSentences

  /** `x` is the least of `own` and the usable starts of some sentences. */
  ghost predicate IsLeast(x: real, own: real, ss: seq<Sentence>) {
    && x <= own && (forall i | 0 <= i < |ss| && OptionalBound(ss[i].start).Some? :: x <= OptionalBound(ss[i].start).value)
    && (x == own || exists i :: 0 <= i < |ss| && OptionalBound(ss[i].start) == Some(x))
  }

  /** `x` is the greatest of `own` and the usable ends of some sentences. */
  ghost predicate IsGreatest(x: real, own: real, ss: seq<Sentence>) {
    && x >= own && (forall i | 0 <= i < |ss| && OptionalBound(ss[i].end).Some? :: x >= OptionalBound(ss[i].end).value)
    && (x == own || exists i :: 0 <= i < |ss| && OptionalBound(ss[i].end) == Some(x))
  }

  /** The piece of the sentence at `k`, given where the next one with text is and whether it is the first. */
  ghost predicate IsPieceOf(piece: Piece, p: Paragraph, ss: seq<Sentence>, k: nat, next: nat, first: bool)
    requires k < next <= |ss|
  {
    var s := ss[k];
    && piece.text == s.text
    && IsLeast(piece.start, if OptionalBound(s.start).Some? then OptionalBound(s.start).value else Num(p.start), if first then ss[..k] else [])
    && IsGreatest(piece.end, if OptionalBound(s.end).Some? then OptionalBound(s.end).value else Num(p.end), ss[k + 1..next])
  }

  predicate HasText(s: Sentence) { !Blank(s) }

  function NextKept(ks: seq<nat>, i: nat, n: nat): nat { if i + 1 < |ks| then ks[i + 1] else n }

  ghost predicate PieceAt(pieces: seq<Piece>, p: Paragraph, ss: seq<Sentence>, ks: seq<nat>, i: nat) {
    && i < |ks| && i < |pieces| && ks[i] < NextKept(ks, i, |ss|) <= |ss|
    && IsPieceOf(pieces[i], p, ss, ks[i], NextKept(ks, i, |ss|), i == 0)
  }

  ghost predicate ArePlaced(pieces: seq<Piece>, p: Paragraph, ss: seq<Sentence>, ks: seq<nat>) {
    |pieces| == |ks| && forall i: nat | i < |ks| :: PieceAt(pieces, p, ss, ks, i)
  }

  /** One piece for each sentence with text, with the time of the blank ones around it. */
  ghost predicate ArePieces(pieces: seq<Piece>, p: Paragraph, ss: seq<Sentence>, ks: seq<nat>) {
    Picks(ks, ss, HasText) && ArePlaced(pieces, p, ss, ks)
  }

  lemma {:induction false} EarliestIsLeast(ss: seq<Sentence>, own: real)
    ensures IsLeast(Min(own, OrElse(Earliest(ss), own)), own, ss)
  {
    if ss != [] {
      var n := |ss| - 1;
      EarliestIsLeast(ss[..n], own);
      assert forall i | 0 <= i < n :: ss[..n][i] == ss[i];
      if OptionalBound(ss[n].start).Some? && Earliest(ss[..n]).Some? { EarliestIsLeast(ss[..n], Earliest(ss[..n]).value); }
    }
  }

  lemma {:induction false} GreatestGrows(x: real, own: real, ss: seq<Sentence>, s: Sentence)
    requires IsGreatest(x, own, ss)
    ensures IsGreatest(match OptionalBound(s.end) case Some(b) => Max(x, b) case None => x, own, ss + [s])
  {
    assert (ss + [s])[|ss|] == s;
    assert forall i | 0 <= i < |ss| :: (ss + [s])[i] == ss[i];
  }

  lemma {:induction false} PieceStays(piece: Piece, p: Paragraph, ss: seq<Sentence>, s: Sentence, k: nat, next: nat, first: bool)
    requires k < next <= |ss| && IsPieceOf(piece, p, ss, k, next, first)
    ensures IsPieceOf(piece, p, ss + [s], k, next, first)
  {
    assert (ss + [s])[..k] == ss[..k] && (ss + [s])[k + 1..next] == ss[k + 1..next];
  }

  lemma {:induction false} PieceTakesBlank(piece: Piece, p: Paragraph, ss: seq<Sentence>, s: Sentence, k: nat, first: bool)
    requires k < |ss| && IsPieceOf(piece, p, ss, k, |ss|, first)
    ensures IsPieceOf(match OptionalBound(s.end) case Some(b) => piece.(end := Max(piece.end, b)) case None => piece, p, ss + [s], k, |ss| + 1, first)
  {
    assert (ss + [s])[..k] == ss[..k] && (ss + [s])[k + 1..|ss| + 1] == ss[k + 1..] + [s];
    GreatestGrows(piece.end, OwnEnd(p, ss[k]), ss[k + 1..], s);
  }

  lemma {:induction false} NewPiece(p: Paragraph, ss: seq<Sentence>, s: Sentence, first: bool)
    ensures IsPieceOf(Piece(s.text, PieceStart(p, ss, s, first), OwnEnd(p, s)), p, ss + [s], |ss|, |ss| + 1, first)
  {
    assert (ss + [s])[..|ss|] == ss && (ss + [s])[|ss| + 1..|ss| + 1] == [];
    EarliestIsLeast(ss, OwnStart(p, s));
  }

  /** What one more sentence makes of the pieces. */
  function Grown(before: seq<Piece>, p: Paragraph, ss: seq<Sentence>, s: Sentence, blank: bool): seq<Piece> {
    if blank then ExtendLast(before, OptionalBound(s.end))
    else before + [Piece(s.text, PieceStart(p, ss, s, before == []), OwnEnd(p, s))]
  }

  lemma {:induction false} OldPiece(p: Paragraph, ss: seq<Sentence>, s: Sentence, blank: bool, ks: seq<nat>, before: seq<Piece>, i: nat)
    requires |before| == |ks| && PieceAt(before, p, ss, ks, i) && (blank ==> i < |ks| - 1)
    ensures PieceAt(Grown(before, p, ss, s, blank), p, ss + [s], if blank then ks else ks + [|ss|], i)
  {
    PieceStays(before[i], p, ss, s, ks[i], NextKept(ks, i, |ss|), i == 0);
  }

  lemma {:induction false} LastPieceGrown(p: Paragraph, ss: seq<Sentence>, s: Sentence, ks: seq<nat>, before: seq<Piece>)
    requires |before| == |ks| && ks != [] && PieceAt(before, p, ss, ks, |ks| - 1)
    ensures PieceAt(Grown(before, p, ss, s, true), p, ss + [s], ks, |ks| - 1)
  {
    var n := |ks| - 1;
    PieceTakesBlank(before[n], p, ss, s, ks[n], n == 0);
  }

  lemma {:induction false} NextPiece(p: Paragraph, ss: seq<Sentence>, s: Sentence, ks: seq<nat>, before: seq<Piece>)
    requires |before| == |ks|
    ensures PieceAt(Grown(before, p, ss, s, false), p, ss + [s], ks + [|ss|], |ks|)
  {
    NewPiece(p, ss, s, before == []);
  }

  lemma {:induction false} PlacesGrow(p: Paragraph, ss: seq<Sentence>, s: Sentence, blank: bool, ks: seq<nat>, before: seq<Piece>)
    requires ArePlaced(before, p, ss, ks)
    ensures ArePlaced(Grown(before, p, ss, s, blank), p, ss + [s], if blank then ks else ks + [|ss|])
  {
    var ks' := if blank then ks else ks + [|ss|];
    forall i: nat | i < |ks'| ensures PieceAt(Grown(before, p, ss, s, blank), p, ss + [s], ks', i) {
      if i == |ks| {
        NextPiece(p, ss, s, ks, before);
      } else if blank && i == |ks| - 1 {
        LastPieceGrown(p, ss, s, ks, before);
      } else {
        OldPiece(p, ss, s, blank, ks, before, i);
      }
    }
  }

  lemma {:induction false} PiecesSnoc(p: Paragraph, ss: seq<Sentence>, s: Sentence)
    ensures PiecesOf(p, ss + [s]) == Grown(PiecesOf(p, ss), p, ss, s, Blank(s))
  {
    assert (ss + [s])[..|ss|] == ss;
  }

  lemma {:induction false} ExactGrows(p: Paragraph, ss: seq<Sentence>, s: Sentence, ks: seq<nat>)
    requires ArePieces(PiecesOf(p, ss), p, ss, ks)
    ensures ArePieces(PiecesOf(p, ss + [s]), p, ss + [s], if HasText(s) then ks + [|ss|] else ks)
  {
    PiecesSnoc(p, ss, s);
    PlacesGrow(p, ss, s, Blank(s), ks, PiecesOf(p, ss));
    PicksGrow(ks, ss, s, HasText);
  }

  lemma {:induction false} NoPieces(p: Paragraph)
    ensures ArePieces(PiecesOf(p, []), p, [], [])
  {
  }

  /**
   * The pieces of a paragraph, whatever its sentences: one for each sentence with text, in order, with its text, from
   * its own start (the first from the earliest usable start in front of it, if that is earlier) to the latest usable
   * end of it and the blank sentences up to the next with text; the paragraph's bounds stand in for missing ones.
   */
  lemma {:induction false} PiecesAreExact(p: Paragraph, ss: seq<Sentence>) returns (ks: seq<nat>)
    ensures ArePieces(PiecesOf(p, ss), p, ss, ks)
    decreases |ss|
  {
    if ss == [] {
      ks := [];
      NoPieces(p);
    } else {
      var before, s := ss[..|ss| - 1], ss[|ss| - 1];
      assert before + [s] == ss;
      ks := PiecesAreExact(p, before);
      ExactGrows(p, before, s, ks);
      ks := if HasText(s) then ks + [|before|] else ks;
    }
  }

  /** The pieces of a paragraph; without any text, the one with the paragraph's own bounds. */
  ghost predicate ArePiecesOf(pieces: seq<Piece>, p: Paragraph) {
    if AllBlank(p.sentences)
    then |pieces| == 1 && pieces[0].start == Num(p.start) && pieces[0].end == Num(p.end) && IsTextOf(pieces[0].text, p.sentences)
    else exists ks: seq<nat> :: ArePieces(pieces, p, p.sentences, ks)
  }

  lemma {:induction false} ParagraphIsExact(p: Paragraph)
    ensures ArePiecesOf(ParagraphPieces(p), p)
  {
    if AllBlank(p.sentences) { JoinedTexts(p.sentences); } else { var ks := PiecesAreExact(p, p.sentences); }
  }

  ghost predicate CutAt(pieces: seq<Piece>, paragraphs: seq<Paragraph>, cuts: seq<nat>, i: nat) {
    && i + 1 < |cuts| && i < |paragraphs| && cuts[i] <= cuts[i + 1] <= |pieces|
    && ArePiecesOf(pieces[cuts[i]..cuts[i + 1]], paragraphs[i])
  }

  /** The pieces of all paragraphs, in order: between its two cuts each paragraph has its own. */
  ghost predicate ByParagraph(pieces: seq<Piece>, paragraphs: seq<Paragraph>, cuts: seq<nat>) {
    && |cuts| == |paragraphs| + 1 && cuts[0] == 0 && cuts[|paragraphs|] == |pieces|
    && forall i: nat | i < |paragraphs| :: CutAt(pieces, paragraphs, cuts, i)
  }

  lemma {:induction false} CutStays(pieces: seq<Piece>, more: seq<Piece>, paragraphs: seq<Paragraph>, p: Paragraph, cuts: seq<nat>, i: nat, last: nat)
    requires CutAt(pieces, paragraphs, cuts, i)
    ensures CutAt(pieces + more, paragraphs + [p], cuts + [last], i)
  {
    assert (pieces + more)[cuts[i]..cuts[i + 1]] == pieces[cuts[i]..cuts[i + 1]];
  }

  lemma {:induction false} CutsGrow(pieces: seq<Piece>, more: seq<Piece>, paragraphs: seq<Paragraph>, p: Paragraph, cuts: seq<nat>)
    requires ByParagraph(pieces, paragraphs, cuts) && ArePiecesOf(more, p)
    ensures ByParagraph(pieces + more, paragraphs + [p], cuts + [|pieces + more|])
  {
    var n, last := |paragraphs|, |pieces + more|;
    forall i: nat | i < |paragraphs + [p]| ensures CutAt(pieces + more, paragraphs + [p], cuts + [last], i) {
      if i < n { CutStays(pieces, more, paragraphs, p, cuts, i, last); } else { assert (pieces + more)[|pieces|..last] == more; }
    }
  }

  lemma {:induction false} AllPiecesAreExact(paragraphs: seq<Paragraph>) returns (cuts: seq<nat>)
    ensures ByParagraph(AllPieces(paragraphs), paragraphs, cuts)
    decreases |paragraphs|
  {
    cuts := [0];
    if paragraphs != [] {
      var n := |paragraphs| - 1;
      var p, before := paragraphs[n], AllPieces(paragraphs[..n]);
      cuts := AllPiecesAreExact(paragraphs[..n]);
      ParagraphIsExact(p);
      CutsGrow(before, ParagraphPieces(p), paragraphs[..n], p, cuts);
      cuts := cuts + [|before + ParagraphPieces(p)|];
      assert paragraphs[..n] + [p] == paragraphs;
    }
  }
}
