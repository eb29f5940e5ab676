/** For which chunk sizes and overlaps the chunker loses no text, whatever the text and the
    word segmenter. */
module ChunkerLimits {
  import opened Options
  import opened Text
  import opened Squeezing
  import opened Chunker
  import opened ChunkerConservation
  import S = SentenceBoundaries

  function Result(segment: S.Segmenter, text: string, size: nat, overlap: nat): string {
    Squeeze(S.Concatenated(Chunks(FinderOf(segment), text, size, overlap)))
  }

  predicate NothingLost(segment: S.Segmenter, text: string, size: nat, overlap: nat) {
    Keeps(Result(segment, text, size, overlap), Squeeze(text))
  }

  /** Chunks hold the whole text in order, white space aside. */
  lemma NothingIsLost(segment: S.Segmenter, text: string, size: nat, overlap: nat)
    requires S.IsSegmenter(segment) && size >= WINDOW && overlap != 1
    ensures NothingLost(segment, text, size, overlap)
  {
    SegmentersStayInWindow(segment);
    ChunksHoldText(FinderOf(segment), text, size, overlap);
    KeepsItself(Squeeze(text));
  }

  /** Without overlap they hold nothing else. */
  lemma NothingIsRepeated(segment: S.Segmenter, text: string, size: nat)
    requires S.IsSegmenter(segment) && size >= WINDOW
    ensures Result(segment, text, size, 0) == Squeeze(text)
  {
    SegmentersStayInWindow(segment);
    ChunksHoldText(FinderOf(segment), text, size, 0);
  }

  // ---- Texts of one long line ----

  predicate IsSolid(s: string) {
    forall k :: 0 <= k < |s| ==> !IsSpace(s[k])
  }

  lemma OneLine(find: Finder, text: string, size: nat, overlap: nat)
    requires |text| > size && IsSolid(text)
    ensures SqueezeAll(Chunks(find, text, size, overlap)) == SqueezeAll(Pieces(find, text, size, overlap, 0))
  {
    OnePart(text, "\n\n");
    OnePart(text, "\n");
    ParagraphAlone(find, text, size, overlap);
    NonBlankSqueezes(Pieces(find, text, size, overlap, 0));
  }

  lemma GatherOne(step: Step, g: Gathering, part: string)
    ensures Gather(step, g, [part]) == step(g, part)
  {
    assert [part][..0] == [];
  }

  lemma LineAlone(find: Finder, text: string, size: nat, overlap: nat)
    requires |text| > size
    ensures OnLines(find, size, overlap, EMPTY, [text]) == Gathering(Pieces(find, text, size, overlap, 0), "")
  {
    GatherOne(LineStep(find, size, overlap), EMPTY, text);
    assert [] + Pieces(find, text, size, overlap, 0) == Pieces(find, text, size, overlap, 0);
  }

  lemma ParagraphAlone(find: Finder, text: string, size: nat, overlap: nat)
    requires |text| > size && Parts(text, "\n") == [text]
    ensures Flush(OnParagraphs(find, size, overlap, EMPTY, [text])).chunks == Pieces(find, text, size, overlap, 0)
  {
    GatherOne(ParagraphStep(find, size, overlap), EMPTY, text);
    LineAlone(find, text, size, overlap);
  }

  lemma ResultOfLine(segment: S.Segmenter, text: string, size: nat, overlap: nat)
    requires |text| > size && IsSolid(text)
    ensures Result(segment, text, size, overlap) == SqueezeAll(Pieces(FinderOf(segment), text, size, overlap, 0))
    ensures Squeeze(text) == text
  {
    OneLine(FinderOf(segment), text, size, overlap);
    ConcatenationSqueezes(Chunks(FinderOf(segment), text, size, overlap));
    SolidStays(text);
  }

  // ---- Overlap 1: the window reaches past the end of the span ----

  function Letters(n: nat): (s: string)
    ensures |s| == n && IsSolid(s)
    ensures forall k :: 0 <= k < n ==> s[k] == 'a'
  {
    seq(n, _ => 'a')
  }

  /** A segmenter that takes any text for one word. */
  function OneWord(): S.Segmenter {
    s => Some(if s == "" then [] else [s])
  }

  lemma OneWordSegments()
    ensures S.IsSegmenter(OneWord())
  {
    forall s: string
      ensures S.Concatenated(OneWord()(s).value) == s && forall t :: t in OneWord()(s).value ==> t != ""
    {
      assert s != "" ==> [s][..0] == [] && "" + s == s;
    }
  }

  lemma OneWordEnd(region: string, start: nat, target: nat)
    requires region != ""
    ensures S.WordEnd(OneWord(), region, start, target) == Some(start + |region|)
  {
    assert [region][..0] == [] && "" + region == region;
    assert S.Concatenated([region]) == region && S.ClosestEnd([], start, target) == None;
  }

  lemma WordDecides(segment: S.Segmenter, text: string, target: nat, window: nat)
    requires forall k :: 0 <= k < |text| ==> !S.IsDelimiter(text[k])
    ensures var word := S.WordEnd(segment, S.Region(text, target, window), S.RegionStart(target, window), target);
            S.Boundary(segment, text, target, window) == if word.Some? then word.value else target
  {
    var region := S.Region(text, target, window);
    S.DelimiterFound(region, |region|, target - S.RegionStart(target, window));
  }

  lemma OneWordCut(text: string, target: nat, window: nat)
    requires forall k :: 0 <= k < |text| ==> !S.IsDelimiter(text[k])
    requires S.RegionStart(target, window) < S.RegionEnd(text, target, window)
    ensures S.Boundary(OneWord(), text, target, window) == S.RegionEnd(text, target, window)
  {
    WordDecides(OneWord(), text, target, window);
    OneWordEnd(S.Region(text, target, window), S.RegionStart(target, window), target);
  }

  lemma LettersHaveNoDelimiter(n: nat)
    ensures forall k :: 0 <= k < n ==> !S.IsDelimiter(Letters(n)[k])
  {
    assert !S.IsDelimiter('a');
  }

  lemma OverlapOneCuts(size: nat, text: string)
    requires size >= WINDOW && text == Letters(size + 69)
    ensures CutEnd(FinderOf(OneWord()), text, size, 0) == size + 50
    ensures NextStart(FinderOf(OneWord()), text, 1, 0, size + 50) == size + 69
  {
    LettersHaveNoDelimiter(size + 69);
    OneWordCut(text, size, 50);
    OneWordCut(text, size + 49, 20);
  }

  /** With overlap 1 the 19 letters between the first span's end and the next start are lost. */
  lemma OverlapOneLoses(size: nat)
    requires size >= WINDOW
    ensures S.IsSegmenter(OneWord()) && Result(OneWord(), Letters(size + 69), size, 1) == Letters(size + 50)
    ensures !NothingLost(OneWord(), Letters(size + 69), size, 1)
  {
    var find, text := FinderOf(OneWord()), Letters(size + 69);
    OneWordSegments();
    OverlapOneCuts(size, text);
    OnePieceRemains(find, text, size, Pieces(find, text, size, 1, 0));
    ResultOfLine(OneWord(), text, size, 1);
    if NothingLost(OneWord(), text, size, 1) { KeptIsPart(Letters(size + 50), text); }
  }

  lemma OnePieceRemains(find: Finder, text: string, size: nat, pieces: seq<string>)
    requires text == Letters(size + 69) && pieces == Pieces(find, text, size, 1, 0)
    requires CutEnd(find, text, size, 0) == size + 50 && NextStart(find, text, 1, 0, size + 50) == size + 69
    ensures SqueezeAll(pieces) == Letters(size + 50)
  {
    var part := Slice(text, 0, size + 50);
    assert Pieces(find, text, size, 1, size + 69) == [];
    assert pieces == [Strip(part)];
    SqueezeAllOne(Strip(part));
    StripSqueezes(part);
    assert part == Letters(size + 50);
    SolidStays(part);
  }

  lemma OverlapOneLeavesGap(size: nat)
    requires size >= WINDOW
    ensures !IsCovered(Spans(FinderOf(OneWord()), Letters(size + 69), size, 1, 0), size + 50)
  {
    var find, text := FinderOf(OneWord()), Letters(size + 69);
    OverlapOneCuts(size, text);
    assert Spans(find, text, size, 1, size + 69) == [];
    assert Spans(find, text, size, 1, 0) == [Span(0, size + 50)];
  }

  // ---- Small chunks: the window reaches back before the span ----

  function NoWords(): S.Segmenter {
    s => None
  }

  /** A full stop, one letter, and a chunk's worth of others. */
  function Stopped(size: nat): (s: string)
    ensures |s| == size + 2 && s[0] == '.' && s[1] == 'b' && IsSolid(s)
    ensures forall k :: 2 <= k < |s| ==> s[k] == 'a'
  {
    ".b" + Letters(size)
  }

  lemma {:induction false} FirstIsClosest(region: string, k: nat, mid: int)
    requires 0 < k <= |region| && S.IsDelimiter(region[0])
    requires forall j :: 0 < j < k ==> !S.IsDelimiter(region[j])
    ensures S.ClosestDelimiter(region, k, mid) == Some(0)
  {
    if k > 1 { FirstIsClosest(region, k - 1, mid); }
  }

  lemma StoppedDelimiters(size: nat)
    ensures S.IsDelimiter(Stopped(size)[0])
    ensures forall j :: 0 < j < size + 2 ==> !S.IsDelimiter(Stopped(size)[j])
  {
    assert S.DELIMITERS[1] == '.';
    assert !S.IsDelimiter('a') && !S.IsDelimiter('b');
  }

  lemma StoppedCut(size: nat, target: nat)
    requires target <= WINDOW
    ensures S.Boundary(NoWords(), Stopped(size), target, WINDOW) == 1 || S.Region(Stopped(size), target, WINDOW) == ""
  {
    var region := S.Region(Stopped(size), target, WINDOW);
    StoppedDelimiters(size);
    if region != "" {
      FirstIsClosest(region, |region|, target);
    }
  }

  lemma {:induction false} PiecesComeFromRest(find: Finder, line: string, size: nat, overlap: nat, start: nat)
    ensures forall c :: c in SqueezeAll(Pieces(find, line, size, overlap, start)) ==> c in Rest(line, start)
    decreases |line| - start
  {
    if start < |line| {
      var end := CutEnd(find, line, size, start);
      var next := NextStart(find, line, overlap, start, end);
      var later := Pieces(find, line, size, overlap, next);
      PiecesComeFromRest(find, line, size, overlap, next);
      RestSplits(line, start, next);
      FirstPieceSqueezes(Slice(line, start, end), later);
      SqueezeIsShorter(Slice(line, start, end));
      SliceIsInRest(line, start, end);
    }
  }

  lemma SliceIsInRest(line: string, start: nat, end: nat)
    ensures forall c :: c in Slice(line, start, end) ==> c in Rest(line, start)
  {
    forall c | c in Slice(line, start, end) ensures c in Rest(line, start) {
      var k :| 0 <= k < |Slice(line, start, end)| && Slice(line, start, end)[k] == c;
      assert Rest(line, start)[k] == c;
    }
  }

  lemma StoppedSpans(size: nat, overlap: nat)
    requires size < WINDOW
    ensures var find, text := FinderOf(NoWords()), Stopped(size);
            && CutEnd(find, text, size, 0) == 1 && NextStart(find, text, overlap, 0, 1) == 1
            && CutEnd(find, text, size, 1) == 1 && NextStart(find, text, overlap, 1, 1) == 2
  {
    StoppedCut(size, size);
    StoppedCut(size, size + 1);
  }

  /** A chunk size below 50 loses the letter after the full stop, whatever the overlap. */
  lemma SmallChunksLose(size: nat, overlap: nat)
    requires size < WINDOW
    ensures S.IsSegmenter(NoWords()) && Stopped(size)[1] == 'b' && 'b' !in Result(NoWords(), Stopped(size), size, overlap)
    ensures !NothingLost(NoWords(), Stopped(size), size, overlap)
  {
    var find, text := FinderOf(NoWords()), Stopped(size);
    StoppedSpans(size, overlap);
    SecondLetterIsLost(find, text, size, overlap);
    MissingIsLost(SqueezeAll(Pieces(find, text, size, overlap, 0)), text, 1);
    ResultOfLine(NoWords(), text, size, overlap);
  }

  lemma MissingIsLost(kept: string, text: string, k: nat)
    requires k < |text| && text[k] !in kept
    ensures !Keeps(kept, text)
  {
    assert text[k] in text;
    if Keeps(kept, text) { KeptIsPart(kept, text); }
  }

  lemma SecondLetterIsLost(find: Finder, text: string, size: nat, overlap: nat)
    requires |text| >= 2 && text[0] == '.' && text[1] == 'b' && forall k :: 2 <= k < |text| ==> text[k] == 'a'
    requires CutEnd(find, text, size, 0) == 1 && NextStart(find, text, overlap, 0, 1) == 1
    requires CutEnd(find, text, size, 1) == 1 && NextStart(find, text, overlap, 1, 1) == 2
    ensures 'b' !in SqueezeAll(Pieces(find, text, size, overlap, 0))
  {
    var later := Pieces(find, text, size, overlap, 2);
    var second := Pieces(find, text, size, overlap, 1);
    PiecesComeFromRest(find, text, size, overlap, 2);
    assert 'b' !in Rest(text, 2);
    assert second == [Strip(Slice(text, 1, 1))] + later;
    FirstPieceSqueezes(Slice(text, 1, 1), later);
    assert Pieces(find, text, size, overlap, 0) == [Strip(Slice(text, 0, 1))] + second;
    FirstPieceSqueezes(Slice(text, 0, 1), second);
    SqueezeIsShorter(Slice(text, 0, 1));
    SqueezeIsShorter(Slice(text, 1, 1));
    assert 'b' !in Slice(text, 0, 1);
  }

  lemma {:induction false} SpansStartLater(find: Finder, line: string, size: nat, overlap: nat, start: nat)
    ensures forall span :: span in Spans(find, line, size, overlap, start) ==> span.start >= start
    decreases |line| - start
  {
    if start < |line| {
      SpansStartLater(find, line, size, overlap, NextStart(find, line, overlap, start, CutEnd(find, line, size, start)));
    }
  }

  lemma SmallChunksLeaveGap(size: nat, overlap: nat)
    requires size < WINDOW
    ensures !IsCovered(Spans(FinderOf(NoWords()), Stopped(size), size, overlap, 0), 1)
  {
    var find, text := FinderOf(NoWords()), Stopped(size);
    StoppedSpans(size, overlap);
    var later := Spans(find, text, size, overlap, 2);
    SpansStartLater(find, text, size, overlap, 2);
    assert Spans(find, text, size, overlap, 1) == [Span(1, 1)] + later;
    assert Spans(find, text, size, overlap, 0) == [Span(0, 1)] + ([Span(1, 1)] + later);
  }

  // ---- Exactly when ----

  /** No text is ever lost exactly when chunks are at least 50 long and the overlap is not 1. */
  lemma NothingIsLostExactly(size: nat, overlap: nat)
    ensures (forall segment: S.Segmenter, text: string :: S.IsSegmenter(segment) ==> NothingLost(segment, text, size, overlap))
            <==> size >= WINDOW && overlap != 1
  {
    if size < WINDOW {
      SmallChunksLose(size, overlap);
    } else if overlap == 1 {
      OverlapOneLoses(size);
    } else {
      forall segment: S.Segmenter, text: string | S.IsSegmenter(segment) ensures NothingLost(segment, text, size, overlap) {
        NothingIsLost(segment, text, size, overlap);
      }
    }
  }

  /** Without overlap the chunks are exactly the text for every text exactly when they are at least 50 long. */
  lemma NothingIsRepeatedExactly(size: nat)
    ensures (forall segment: S.Segmenter, text: string :: S.IsSegmenter(segment) ==> Result(segment, text, size, 0) == Squeeze(text))
            <==> size >= WINDOW
  {
    if size < WINDOW {
      SmallChunksLose(size, 0);
      KeepsItself(Squeeze(Stopped(size)));
    } else {
      forall segment: S.Segmenter, text: string | S.IsSegmenter(segment) ensures Result(segment, text, size, 0) == Squeeze(text) {
        NothingIsRepeated(segment, text, size);
      }
    }
  }

  ghost predicate AlwaysCovers(size: nat, overlap: nat) {
    forall segment: S.Segmenter, line: string, p: nat :: S.IsSegmenter(segment) && p < |line| ==>
      IsCovered(Spans(FinderOf(segment), line, size, overlap, 0), p)
  }

  /** The spans of every long line cover it, whatever the segmenter, for exactly the same settings. */
  lemma SpansCoverExactly(size: nat, overlap: nat)
    ensures AlwaysCovers(size, overlap) <==> size >= WINDOW && overlap != 1
  {
    if size < WINDOW {
      SmallChunksLeaveGap(size, overlap);
      SmallChunksLose(size, overlap);
    } else if overlap == 1 {
      OverlapOneLeavesGap(size);
      OneWordSegments();
    } else {
      forall segment: S.Segmenter, line: string, p: nat | S.IsSegmenter(segment) && p < |line|
        ensures IsCovered(Spans(FinderOf(segment), line, size, overlap, 0), p)
      {
        SegmentersStayInWindow(segment);
        SpansCoverLine(FinderOf(segment), line, size, overlap, p);
      }
    }
  }
}
