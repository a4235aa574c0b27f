/**
 * Segments from paragraphs and from pauses: two loops that cut the word list into consecutive runs.
 */
module DeepgramParagraphs {
  import opened Runs
  import opened DeepgramFields

  datatype Sentence = Sentence(text: string, start: Field, end: Field)
  datatype Paragraph = Paragraph(start: Field, end: Field, sentences: seq<Sentence>)

  function Texts(sentences: seq<Sentence>): seq<string> {
    seq(|sentences|, i requires 0 <= i < |sentences| => sentences[i].text)
  }

  /** The sentences' texts in order, joined by single spaces. */
  ghost predicate IsTextOf(text: string, sentences: seq<Sentence>) {
    exists texts: seq<string> :: |texts| == |sentences| && (forall i | 0 <= i < |texts| :: texts[i] == sentences[i].text) && IsJoined(text, texts)
  }

  lemma {:induction false} JoinedTexts(sentences: seq<Sentence>)
    ensures IsTextOf(Join(Texts(sentences)), sentences)
  {
    JoinJoins(Texts(sentences));
  }

  // ----- by paragraph ------------------------------------------------------------------------------------

  /** Nondecreasing positions in the word list, from its start to at most its end. */
  ghost predicate IsBoundaries(cuts: seq<nat>, words: seq<RawWord>) {
    && cuts != [] && cuts[0] == 0
    && (forall i | 0 <= i < |cuts| - 1 :: cuts[i] <= cuts[i + 1])
    && (forall i | 0 <= i < |cuts| :: cuts[i] <= |words|)
  }

  /** Run `i` is the longest stretch of words from its boundary on that start before paragraph `i` ends. */
  ghost predicate IsLongest(cuts: seq<nat>, paragraphs: seq<Paragraph>, words: seq<RawWord>, i: nat)
    requires IsBoundaries(cuts, words) && i < |cuts| - 1 && i < |paragraphs|
  {
    && (forall j | cuts[i] <= j < cuts[i + 1] :: Num(words[j].start) < Num(paragraphs[i].end))
    && (cuts[i + 1] < |words| ==> Num(words[cuts[i + 1]].start) >= Num(paragraphs[i].end))
  }

  /** One run per paragraph: each but the last takes the longest stretch, the last takes the rest. */
  ghost predicate IsParagraphCut(cuts: seq<nat>, paragraphs: seq<Paragraph>, words: seq<RawWord>) {
    && |cuts| == |paragraphs| + 1 && IsBoundaries(cuts, words)
    && (forall i | 0 <= i < |paragraphs| - 1 :: IsLongest(cuts, paragraphs, words, i))
    && cuts[|paragraphs|] == |words|
  }

  /** The runs between boundaries. */
  ghost function RunsBetween(cuts: seq<nat>, words: seq<RawWord>): seq<seq<RawWord>>
    requires IsBoundaries(cuts, words)
  {
    seq(|cuts| - 1, i requires 0 <= i < |cuts| - 1 => words[cuts[i]..cuts[i + 1]])
  }

  /** Between boundaries, every word up to the last boundary is handed out exactly once, in order. */
  lemma {:induction false} RunsBetweenFlatten(cuts: seq<nat>, words: seq<RawWord>)
    requires IsBoundaries(cuts, words)
    ensures Flatten(RunsBetween(cuts, words)) == words[..cuts[|cuts| - 1]]
    decreases |cuts|
  {
    var n := |cuts| - 1;
    if n > 0 {
      RunsBetweenFlatten(cuts[..n], words);
      var last := words[cuts[n - 1]..cuts[n]];
      assert RunsBetween(cuts, words) == RunsBetween(cuts[..n], words) + [last];
      FlattenAppend(RunsBetween(cuts[..n], words), [last]);
      FlattenSingle(last);
    }
  }

  lemma {:induction false} BoundariesAgree(a: seq<nat>, b: seq<nat>, paragraphs: seq<Paragraph>, words: seq<RawWord>, i: nat)
    requires IsParagraphCut(a, paragraphs, words) && IsParagraphCut(b, paragraphs, words) && i <= |paragraphs|
    ensures a[i] == b[i]
  {
    if 0 < i < |paragraphs| {
      BoundariesAgree(a, b, paragraphs, words, i - 1);
      assert IsLongest(a, paragraphs, words, i - 1) && IsLongest(b, paragraphs, words, i - 1);
    }
  }

  /** There is one such cut. */
  lemma {:induction false} ParagraphCutUnique(a: seq<nat>, b: seq<nat>, paragraphs: seq<Paragraph>, words: seq<RawWord>)
    requires IsParagraphCut(a, paragraphs, words) && IsParagraphCut(b, paragraphs, words)
    ensures a == b
  {
    forall i | 0 <= i < |a| { BoundariesAgree(a, b, paragraphs, words, i); }
  }

  function ParagraphSegment(p: Paragraph, run: seq<RawWord>): Segment {
    Segment(Join(Texts(p.sentences)), Num(p.start), Num(p.end), MeanConfidence(run))
  }

  /** The inner loop: the words from `index` on that start before `end`, or all of them. */
  method TakeWords(rawWords: seq<RawWord>, index: nat, end: real, all: bool) returns (run: seq<RawWord>, index': nat)
    requires index <= |rawWords|
    ensures index <= index' <= |rawWords| && run == rawWords[index..index']
    ensures all ==> index' == |rawWords|
    ensures !all ==> forall j | index <= j < index' :: Num(rawWords[j].start) < end
    ensures !all && index' < |rawWords| ==> Num(rawWords[index'].start) >= end
  {
    run, index' := [], index;
    while index' < |rawWords| && (all || Num(rawWords[index'].start) < end)
      invariant index <= index' <= |rawWords|
      invariant run == rawWords[index..index']
      invariant !all ==> forall j | index <= j < index' :: Num(rawWords[j].start) < end
    {
      run := run + [rawWords[index']];
      index' := index' + 1;
    }
  }

  /** What the loop has done after `n` paragraphs. */
  ghost predicate Cut(cuts: seq<nat>, paragraphs: seq<Paragraph>, words: seq<RawWord>, segments: seq<Segment>, n: nat) {
    && n <= |paragraphs| && |cuts| == n + 1 && |segments| == n && IsBoundaries(cuts, words)
    && (forall i | 0 <= i < n && i < |paragraphs| - 1 :: IsLongest(cuts, paragraphs, words, i))
    && (0 < n == |paragraphs| ==> cuts[n] == |words|)
    && (forall i | 0 <= i < n :: segments[i] == ParagraphSegment(paragraphs[i], words[cuts[i]..cuts[i + 1]]))
  }

  lemma {:induction false} CutStep(cuts: seq<nat>, next: nat, paragraphs: seq<Paragraph>, words: seq<RawWord>, segments: seq<Segment>, n: nat)
    requires Cut(cuts, paragraphs, words, segments, n) && n < |paragraphs|
    requires cuts[n] <= next <= |words|
    requires n == |paragraphs| - 1 ==> next == |words|
    requires n < |paragraphs| - 1 ==> forall j | cuts[n] <= j < next :: Num(words[j].start) < Num(paragraphs[n].end)
    requires n < |paragraphs| - 1 && next < |words| ==> Num(words[next].start) >= Num(paragraphs[n].end)
    ensures Cut(cuts + [next], paragraphs, words, segments + [ParagraphSegment(paragraphs[n], words[cuts[n]..next])], n + 1)
  {
    var cuts', segments' := cuts + [next], segments + [ParagraphSegment(paragraphs[n], words[cuts[n]..next])];
    assert IsBoundaries(cuts', words);
    forall i | 0 <= i < n + 1 && i < |paragraphs| - 1 ensures IsLongest(cuts', paragraphs, words, i) {
      assert i < n ==> IsLongest(cuts, paragraphs, words, i);
    }
    forall i | 0 <= i < n + 1 ensures segments'[i] == ParagraphSegment(paragraphs[i], words[cuts'[i]..cuts'[i + 1]]) {
      assert i < n ==> segments[i] == ParagraphSegment(paragraphs[i], words[cuts[i]..cuts[i + 1]]);
    }
  }

  /** A paragraph's own bounds and text, and the confidence of exactly its run. */
  ghost predicate IsSegmentOf(segment: Segment, p: Paragraph, run: seq<RawWord>) {
    && segment.start == Num(p.start) && segment.end == Num(p.end)
    && IsTextOf(segment.text, p.sentences)
    && segment.confidence == MeanConfidence(run)
  }

  /** The loop over paragraphs with its running word index. */
  method SegmentsFromParagraphs(paragraphs: seq<Paragraph>, rawWords: seq<RawWord>)
    returns (segments: seq<Segment>, ghost cuts: seq<nat>)
    ensures |segments| == |paragraphs| && |cuts| == |paragraphs| + 1 && IsBoundaries(cuts, rawWords)
    ensures paragraphs != [] ==> IsParagraphCut(cuts, paragraphs, rawWords)
    ensures forall i | 0 <= i < |paragraphs| :: IsSegmentOf(segments[i], paragraphs[i], rawWords[cuts[i]..cuts[i + 1]])
  {
    segments := [];
    cuts := [0];
    var index := 0;
    var last := |paragraphs| - 1;
    for position := 0 to |paragraphs|
      invariant Cut(cuts, paragraphs, rawWords, segments, position) && cuts[position] == index
    {
      var paragraph := paragraphs[position];
      var run, next := TakeWords(rawWords, index, Num(paragraph.end), position == last);
      CutStep(cuts, next, paragraphs, rawWords, segments, position);
      segments := segments + [ParagraphSegment(paragraph, run)];
      cuts := cuts + [next];
      index := next;
    }
    forall i | 0 <= i < |paragraphs| { JoinedTexts(paragraphs[i].sentences); }
  }

  lemma {:induction false} WeightsAreSum(runs: seq<seq<RawWord>>)
    ensures Weights(runs) == Sum(Present(Flatten(runs)))
  {
    if runs != [] {
      WeightsAreSum(runs[1..]);
      WeightIsSum(runs[0]);
      PresentAppend(runs[0], Flatten(runs[1..]));
      SumAppend(Present(runs[0]), Present(Flatten(runs[1..])));
    }
  }

  /** No confidence is lost or counted twice: means times counts add up to all present confidences. */
  lemma {:induction false} ParagraphsConserveConfidence(cuts: seq<nat>, paragraphs: seq<Paragraph>, words: seq<RawWord>)
    requires IsParagraphCut(cuts, paragraphs, words)
    ensures Flatten(RunsBetween(cuts, words)) == words
    ensures Weights(RunsBetween(cuts, words)) == Sum(Present(words))
  {
    RunsBetweenFlatten(cuts, words);
    WeightsAreSum(RunsBetween(cuts, words));
  }

  // ----- by pause ------------------------------------------------------------------------------------------

  const SEGMENT_GAP_SECONDS := 1.0

  /** No pause between two consecutive words. */
  predicate NoPause(a: RawWord, b: RawWord) {
    Num(b.start) - Num(a.end) <= SEGMENT_GAP_SECONDS
  }

  function WordText(w: RawWord): string {
    if w.punctuatedWord != "" then w.punctuatedWord else w.word
  }

  function SegmentFromRun(run: seq<RawWord>): Segment
    requires run != []
  {
    Segment(Join(seq(|run|, i requires 0 <= i < |run| => WordText(run[i]))),
            Num(run[0].start), Num(run[|run| - 1].end), MeanConfidence(run))
  }

  /** What the loop has pushed: a segment for every run but the one still growing. */
  ghost predicate Pushed(segments: seq<Segment>, runs: seq<seq<RawWord>>, run: seq<RawWord>)
    requires forall i | 0 <= i < |runs| :: runs[i] != []
  {
    && (if run == [] then runs == [] else runs != [] && runs[|runs| - 1] == run)
    && |segments| == (if run == [] then 0 else |runs| - 1)
    && forall j | 0 <= j < |segments| :: segments[j] == SegmentFromRun(runs[j])
  }

  function SegmentsOf(runs: seq<seq<RawWord>>): seq<Segment>
    requires forall i | 0 <= i < |runs| :: runs[i] != []
  {
    seq(|runs|, i requires 0 <= i < |runs| => SegmentFromRun(runs[i]))
  }

  /** A word after a pause: the growing run's segment is pushed, and a run is started. */
  lemma {:induction false} PushedAfterPause(segments: seq<Segment>, runs: seq<seq<RawWord>>, run: seq<RawWord>, word: RawWord)
    requires (forall i | 0 <= i < |runs| :: runs[i] != []) && Pushed(segments, runs, run)
    requires run != [] && !NoPause(run[|run| - 1], word)
    ensures forall i | 0 <= i < |Extend(runs, word, NoPause)| :: Extend(runs, word, NoPause)[i] != []
    ensures Pushed(segments + [SegmentFromRun(run)], Extend(runs, word, NoPause), [word])
  {
    assert Extend(runs, word, NoPause) == runs + [[word]];
  }

  lemma {:induction false} PushedWithoutPause(segments: seq<Segment>, runs: seq<seq<RawWord>>, run: seq<RawWord>, word: RawWord)
    requires (forall i | 0 <= i < |runs| :: runs[i] != []) && Pushed(segments, runs, run)
    requires run != [] ==> NoPause(run[|run| - 1], word)
    ensures forall i | 0 <= i < |Extend(runs, word, NoPause)| :: Extend(runs, word, NoPause)[i] != []
    ensures Pushed(segments, Extend(runs, word, NoPause), run + [word])
  {
    if run == [] {
      assert Extend(runs, word, NoPause) == [[word]] && [] + [word] == [word];
    } else {
      GrownRun(runs, run, word);
    }
  }

  lemma {:induction false} GrownRun(runs: seq<seq<RawWord>>, run: seq<RawWord>, word: RawWord)
    requires runs != [] && (forall i | 0 <= i < |runs| :: runs[i] != []) && runs[|runs| - 1] == run && NoPause(run[|run| - 1], word)
    ensures var grown := Extend(runs, word, NoPause);
      |grown| == |runs| && grown[|runs| - 1] == run + [word] && forall j | 0 <= j < |runs| - 1 :: grown[j] == runs[j]
  {
    assert Extend(runs, word, NoPause) == runs[..|runs| - 1] + [run + [word]];
  }

  /** The loop's state: `runs` cuts the words read, and their segments are pushed but for the growing run's. */
  ghost predicate Cutting(segments: seq<Segment>, run: seq<RawWord>, runs: seq<seq<RawWord>>, words: seq<RawWord>) {
    && IsRuns(runs, words, NoPause)
    && (forall i | 0 <= i < |runs| :: runs[i] != [])
    && Pushed(segments, runs, run)
  }

  /** One word: behind a pause the growing run's segment is pushed and a run is started. */
  method AddWord(segments: seq<Segment>, run: seq<RawWord>, word: RawWord, ghost runs: seq<seq<RawWord>>, ghost words: seq<RawWord>)
    returns (segments': seq<Segment>, run': seq<RawWord>, ghost runs': seq<seq<RawWord>>)
    requires Cutting(segments, run, runs, words)
    ensures Cutting(segments', run', runs', words + [word])
  {
    runs' := Extend(runs, word, NoPause);
    ExtendIsRuns(runs, words, word, NoPause);
    if |run| > 0 && Num(word.start) - Num(run[|run| - 1].end) > SEGMENT_GAP_SECONDS {
      PushedAfterPause(segments, runs, run, word);
      segments', run' := segments + [SegmentFromRun(run)], [word];
    } else {
      PushedWithoutPause(segments, runs, run, word);
      segments', run' := segments, run + [word];
    }
  }

  lemma {:induction false} LastRunPushed(segments: seq<Segment>, run: seq<RawWord>, runs: seq<seq<RawWord>>, words: seq<RawWord>)
    requires Cutting(segments, run, runs, words)
    ensures (if run == [] then segments else segments + [SegmentFromRun(run)]) == SegmentsOf(runs)
  {
  }

  /** From the first word's start to the last word's end, each word punctuated where that is given, and its confidence. */
  ghost predicate IsSegmentOfRun(segment: Segment, run: seq<RawWord>) {
    && run != [] && segment.start == Num(run[0].start) && segment.end == Num(run[|run| - 1].end)
    && segment.confidence == MeanConfidence(run)
    && exists texts: seq<string> ::
      && |texts| == |run| && IsJoined(segment.text, texts)
      && forall i | 0 <= i < |texts| :: texts[i] == if run[i].punctuatedWord == "" then run[i].word else run[i].punctuatedWord
  }

  lemma {:induction false} RunSegment(run: seq<RawWord>)
    requires run != []
    ensures IsSegmentOfRun(SegmentFromRun(run), run)
  {
    JoinJoins(seq(|run|, i requires 0 <= i < |run| => WordText(run[i])));
  }

  lemma {:induction false} RunSegments(runs: seq<seq<RawWord>>)
    requires forall i | 0 <= i < |runs| :: runs[i] != []
    ensures forall i | 0 <= i < |runs| :: IsSegmentOfRun(SegmentsOf(runs)[i], runs[i])
  {
    forall i | 0 <= i < |runs| { RunSegment(runs[i]); }
  }

  /** The loop over raw words: `run` grows until a pause. */
  method SegmentsFromWords(rawWords: seq<RawWord>) returns (segments: seq<Segment>, ghost runs: seq<seq<RawWord>>)
    ensures IsRuns(runs, rawWords, NoPause) && |segments| == |runs|
    ensures forall i | 0 <= i < |runs| :: IsSegmentOfRun(segments[i], runs[i])
  {
    segments, runs := [], [];
    var run: seq<RawWord> := [];
    for i := 0 to |rawWords|
      invariant Cutting(segments, run, runs, rawWords[..i])
    {
      segments, run, runs := AddWord(segments, run, rawWords[i], runs, rawWords[..i]);
      assert rawWords[..i] + [rawWords[i]] == rawWords[..i + 1];
    }
    assert rawWords[..|rawWords|] == rawWords;
    LastRunPushed(segments, run, runs, rawWords);
    if |run| > 0 { segments := segments + [SegmentFromRun(run)]; }
    assert segments == SegmentsOf(runs);
    RunSegments(runs);
  }

  /** Any cut into joined runs with a pause at every boundary is the one the loop makes. */
  lemma {:induction false} PauseCutUnique(rawWords: seq<RawWord>) returns (runs: seq<seq<RawWord>>)
    ensures IsRuns(runs, rawWords, NoPause)
    ensures forall other | IsRuns(other, rawWords, NoPause) :: other == runs
    ensures Weights(runs) == Sum(Present(rawWords))
  {
    runs := RunsExist(rawWords, NoPause);
    forall other | IsRuns(other, rawWords, NoPause) { RunsUnique(other, runs, rawWords, NoPause); }
    WeightsAreSum(runs);
  }
}
