/** What the chunker keeps: no text is lost, none is repeated without overlap, and no chunk is
    much longer than asked for; and for which settings that holds. */
module ChunkerConservation {
  import opened Text
  import opened Squeezing
  import opened Chunker
  import S = SentenceBoundaries

  /** Without overlap exactly the text; with overlap the text and repetitions. */
  predicate Holds(overlap: nat, kept: string, s: string) {
    if overlap == 0 then kept == s else Keeps(kept, s)
  }

  lemma HoldsItself(overlap: nat, s: string)
    ensures Holds(overlap, s, s)
  {
    KeepsItself(s);
  }

  lemma HoldsAppend(overlap: nat, kept: string, s: string, kept': string, s': string)
    requires Holds(overlap, kept, s) && Holds(overlap, kept', s')
    ensures Holds(overlap, kept + kept', s + s')
  {
    if overlap != 0 { KeepsAppend(kept, s, kept', s'); }
  }

  // ---- Level 3: spans leave no gap ----

  lemma CutsAdvance(find: Finder, line: string, size: nat, start: nat)
    requires StaysInWindow(find) && size >= WINDOW
    ensures start < CutEnd(find, line, size, start)
  {
  }

  lemma CutsAreShort(find: Finder, line: string, size: nat, start: nat)
    requires StaysInWindow(find)
    ensures CutEnd(find, line, size, start) <= start + size + WINDOW
  {
  }

  /** Unless the overlap is 1, the next span starts no later than this one ends. */
  lemma NoGap(find: Finder, line: string, overlap: nat, start: nat, end: nat)
    requires StaysInWindow(find) && overlap != 1 && start < end
    ensures NextStart(find, line, overlap, start, end) <= end
    ensures overlap == 0 ==> NextStart(find, line, overlap, start, end) == end
  {
  }

  /** The part of a line that one piece is cut from. */
  datatype Span = Span(start: nat, end: nat)

  function Spans(find: Finder, line: string, size: nat, overlap: nat, start: nat): seq<Span>
    decreases |line| - start
  {
    if start >= |line| then [] else
      var end := CutEnd(find, line, size, start);
      [Span(start, end)] + Spans(find, line, size, overlap, NextStart(find, line, overlap, start, end))
  }

  lemma {:induction false} PiecesAreSpans(find: Finder, line: string, size: nat, overlap: nat, start: nat)
    ensures var pieces, spans := Pieces(find, line, size, overlap, start), Spans(find, line, size, overlap, start);
            && |pieces| == |spans|
            && forall k :: 0 <= k < |pieces| ==> pieces[k] == Strip(Slice(line, spans[k].start, spans[k].end))
    decreases |line| - start
  {
    if start < |line| {
      PiecesAreSpans(find, line, size, overlap, NextStart(find, line, overlap, start, CutEnd(find, line, size, start)));
    }
  }

  /** Spans move on, each starts no later than the one before it ends, and the last reaches the end. */
  predicate LeaveNoGap(spans: seq<Span>, from: nat, to: nat) {
    && (from < to ==> spans != [])
    && (spans != [] ==>
      && spans[0].start == from && spans[|spans| - 1].end >= to
      && (forall k :: 0 <= k < |spans| ==> spans[k].start < spans[k].end)
      && (forall k :: 0 <= k < |spans| - 1 ==> spans[k].start < spans[k + 1].start <= spans[k].end))
  }

  lemma {:induction false} SpansLeaveNoGap(find: Finder, line: string, size: nat, overlap: nat, start: nat)
    requires StaysInWindow(find) && size >= WINDOW && overlap != 1
    ensures LeaveNoGap(Spans(find, line, size, overlap, start), start, |line|)
    ensures start >= |line| ==> Spans(find, line, size, overlap, start) == []
    decreases |line| - start
  {
    if start < |line| {
      var end := CutEnd(find, line, size, start);
      var next := NextStart(find, line, overlap, start, end);
      CutsAdvance(find, line, size, start);
      NoGap(find, line, overlap, start, end);
      SpansLeaveNoGap(find, line, size, overlap, next);
      FirstLeavesNoGap(Span(start, end), Spans(find, line, size, overlap, next), next, |line|);
    }
  }

  lemma FirstLeavesNoGap(first: Span, later: seq<Span>, next: nat, to: nat)
    requires first.start < first.end && first.start < next <= first.end && LeaveNoGap(later, next, to)
    ensures LeaveNoGap([first] + later, first.start, to)
  {
    var spans := [first] + later;
    forall k | 0 <= k < |spans| - 1 ensures spans[k].start < spans[k + 1].start <= spans[k].end {
      if k > 0 { assert spans[k] == later[k - 1] && spans[k + 1] == later[k]; }
    }
  }

  predicate IsCovered(spans: seq<Span>, p: nat) {
    exists k :: 0 <= k < |spans| && spans[k].start <= p < spans[k].end
  }

  lemma {:induction false} NoGapCovers(spans: seq<Span>, from: nat, to: nat, p: nat)
    requires LeaveNoGap(spans, from, to) && from <= p < to
    ensures IsCovered(spans, p)
  {
    if p >= spans[0].end {
      var later := spans[1..];
      assert forall k :: 0 <= k < |later| ==> later[k] == spans[k + 1];
      NoGapCovers(later, spans[1].start, to, p);
      var k :| 0 <= k < |later| && later[k].start <= p < later[k].end;
      assert spans[k + 1] == later[k];
    }
  }

  /** Every position of a long line lies in a span, and so in a piece. */
  lemma SpansCoverLine(find: Finder, line: string, size: nat, overlap: nat, p: nat)
    requires StaysInWindow(find) && size >= WINDOW && overlap != 1 && p < |line|
    ensures IsCovered(Spans(find, line, size, overlap, 0), p)
  {
    SpansLeaveNoGap(find, line, size, overlap, 0);
    NoGapCovers(Spans(find, line, size, overlap, 0), 0, |line|, p);
  }

  function Rest(line: string, start: nat): string {
    Slice(line, start, |line|)
  }

  lemma RestSplits(line: string, start: nat, end: nat)
    requires start <= end
    ensures Rest(line, start) == Slice(line, start, end) + Rest(line, end)
  {
  }

  lemma {:induction false} PiecesKeepLine(find: Finder, line: string, size: nat, overlap: nat, start: nat)
    requires StaysInWindow(find) && size >= WINDOW && overlap != 1
    ensures Holds(overlap, SqueezeAll(Pieces(find, line, size, overlap, start)), Squeeze(Rest(line, start)))
    decreases |line| - start
  {
    if start < |line| {
      var end := CutEnd(find, line, size, start);
      var next := NextStart(find, line, overlap, start, end);
      var piece, later := Slice(line, start, end), Pieces(find, line, size, overlap, next);
      CutsAdvance(find, line, size, start);
      NoGap(find, line, overlap, start, end);
      PiecesKeepLine(find, line, size, overlap, next);
      LaterPiecesKeep(line, overlap, next, end, SqueezeAll(later));
      RestSplits(line, start, end);
      SqueezeAppend(piece, Rest(line, end));
      HoldsItself(overlap, Squeeze(piece));
      HoldsAppend(overlap, Squeeze(piece), Squeeze(piece), SqueezeAll(later), Squeeze(Rest(line, end)));
      FirstPieceSqueezes(piece, later);
    }
  }

  lemma LaterPiecesKeep(line: string, overlap: nat, next: nat, end: nat, kept: string)
    requires next <= end && (overlap == 0 ==> next == end) && Holds(overlap, kept, Squeeze(Rest(line, next)))
    ensures Holds(overlap, kept, Squeeze(Rest(line, end)))
  {
    RestSplits(line, next, end);
    SqueezeAppend(Slice(line, next, end), Rest(line, end));
    if overlap != 0 { KeepsSuffix(kept, Squeeze(Slice(line, next, end)), Squeeze(Rest(line, end))); }
  }

  lemma FirstPieceSqueezes(piece: string, later: seq<string>)
    ensures SqueezeAll([Strip(piece)] + later) == Squeeze(piece) + SqueezeAll(later)
  {
    SqueezeAllAppend([Strip(piece)], later);
    SqueezeAllOne(Strip(piece));
    StripSqueezes(piece);
  }

  // ---- Levels 2 and 1 ----

  function Weight(g: Gathering): string {
    SqueezeAll(g.chunks) + Squeeze(g.current)
  }

  lemma FlushKeepsWeight(g: Gathering)
    ensures Weight(Flush(g)) == Weight(g) == SqueezeAll(Flush(g).chunks)
  {
    if g.current != "" { SqueezeAllSnoc(g.chunks, g.current); }
  }

  lemma CandidateAddsPart(g: Gathering, sep: string, part: string)
    requires IsBlank(sep)
    ensures Weight(g.(current := Candidate(g.current, sep, part))) == Weight(g) + Squeeze(part)
  {
    if g.current != "" { JoinSqueezes(g.current, sep, part); }
  }

  lemma FlushAndStart(g: Gathering, next: string)
    ensures Weight(Gathering(g.chunks + [g.current], next)) == Weight(g) + Squeeze(next)
  {
    SqueezeAllSnoc(g.chunks, g.current);
  }

  /** `after` is `before` and more, and the more holds `s`. */
  predicate Adds(overlap: nat, before: string, after: string, s: string) {
    before <= after && Holds(overlap, after[|before|..], s)
  }

  lemma AddsExtra(overlap: nat, before: string, after: string, extra: string, s: string)
    requires after == before + extra && Holds(overlap, extra, s)
    ensures Adds(overlap, before, after, s)
  {
    assert after[|before|..] == extra;
  }

  lemma AddsOnce(overlap: nat, before: string, after: string, s: string)
    requires after == before + s
    ensures Adds(overlap, before, after, s)
  {
    HoldsItself(overlap, s);
    AddsExtra(overlap, before, after, s, s);
  }

  lemma AddsTwice(overlap: nat, a: string, b: string, c: string, s: string, t: string)
    requires Adds(overlap, a, b, s) && Adds(overlap, b, c, t)
    ensures Adds(overlap, a, c, s + t)
  {
    HoldsAppend(overlap, b[|a|..], s, c[|b|..], t);
    assert c == b + c[|b|..] && b == a + b[|a|..];
    assert c == a + (b[|a|..] + c[|b|..]);
    AddsExtra(overlap, a, c, b[|a|..] + c[|b|..], s + t);
  }

  /** The step adds each part to what is gathered. */
  ghost predicate AddsParts(step: Step, overlap: nat) {
    forall g: Gathering, part: string :: Adds(overlap, Weight(g), Weight(step(g, part)), Squeeze(part))
  }

  lemma {:induction false} GatheringAddsAll(step: Step, overlap: nat, g: Gathering, parts: seq<string>)
    requires AddsParts(step, overlap)
    ensures Adds(overlap, Weight(g), Weight(Gather(step, g, parts)), SqueezeAll(parts))
  {
    if parts == [] {
      AddsOnce(overlap, Weight(g), Weight(g), "");
    } else {
      var init, last := parts[..|parts| - 1], parts[|parts| - 1];
      var before := Gather(step, g, init);
      GatheringAddsAll(step, overlap, g, init);
      AddsTwice(overlap, Weight(g), Weight(before), Weight(step(before, last)), SqueezeAll(init), Squeeze(last));
    }
  }

  lemma LongLineIsAdded(find: Finder, size: nat, overlap: nat, g: Gathering, line: string)
    requires StaysInWindow(find) && size >= WINDOW && overlap != 1 && |line| > size
    ensures Adds(overlap, Weight(g), Weight(OnLine(find, size, overlap, g, line)), Squeeze(line))
  {
    var pieces := Pieces(find, line, size, overlap, 0);
    FlushKeepsWeight(g);
    SqueezeAllAppend(Flush(g).chunks, pieces);
    PiecesKeepLine(find, line, size, overlap, 0);
    assert Rest(line, 0) == line;
    AddsExtra(overlap, Weight(g), Weight(OnLine(find, size, overlap, g, line)), SqueezeAll(pieces), Squeeze(line));
  }

  lemma ShortLineIsAdded(find: Finder, size: nat, overlap: nat, g: Gathering, line: string)
    requires |line| <= size
    ensures Adds(overlap, Weight(g), Weight(OnLine(find, size, overlap, g, line)), Squeeze(line))
  {
    CandidateAddsPart(g, "\n", line);
    FlushAndStart(g, line);
    AddsOnce(overlap, Weight(g), Weight(OnLine(find, size, overlap, g, line)), Squeeze(line));
  }

  lemma LinesAreAdded(find: Finder, size: nat, overlap: nat, g: Gathering, lines: seq<string>)
    requires StaysInWindow(find) && size >= WINDOW && overlap != 1
    ensures Adds(overlap, Weight(g), Weight(OnLines(find, size, overlap, g, lines)), SqueezeAll(lines))
  {
    var step := LineStep(find, size, overlap);
    forall h: Gathering, line: string ensures Adds(overlap, Weight(h), Weight(step(h, line)), Squeeze(line)) {
      if |line| > size {
        LongLineIsAdded(find, size, overlap, h, line);
      } else {
        ShortLineIsAdded(find, size, overlap, h, line);
      }
    }
    GatheringAddsAll(step, overlap, g, lines);
  }

  lemma LongParagraphIsAdded(find: Finder, size: nat, overlap: nat, g: Gathering, paragraph: string)
    requires StaysInWindow(find) && size >= WINDOW && overlap != 1 && |paragraph| > size
    ensures Adds(overlap, Weight(g), Weight(OnParagraph(find, size, overlap, g, paragraph)), Squeeze(paragraph))
  {
    var lines := Parts(paragraph, "\n");
    PartsSqueeze(paragraph, "\n");
    FlushKeepsWeight(g);
    LinesAreAdded(find, size, overlap, Flush(g), lines);
    FlushKeepsWeight(OnLines(find, size, overlap, Flush(g), lines));
  }

  /** What a short paragraph does: it joins the current chunk, or starts the next one, perhaps
      after a repeated tail. */
  ghost predicate IsShortStep(overlap: nat, g: Gathering, sep: string, paragraph: string, after: Gathering) {
    || after == g.(current := Candidate(g.current, sep, paragraph))
    || after == Gathering(g.chunks + [g.current], paragraph)
    || (overlap > 0 && exists tail :: after == Gathering(g.chunks + [g.current], tail + sep + paragraph))
  }

  lemma ShortParagraphCases(find: Finder, size: nat, overlap: nat, g: Gathering, paragraph: string)
    requires |paragraph| <= size
    ensures IsShortStep(overlap, g, "\n\n", paragraph, OnParagraph(find, size, overlap, g, paragraph))
  {
  }

  lemma RepetitionIsAdded(overlap: nat, g: Gathering, tail: string, sep: string, paragraph: string)
    requires overlap > 0 && IsBlank(sep)
    ensures Adds(overlap, Weight(g), Weight(Gathering(g.chunks + [g.current], tail + sep + paragraph)), Squeeze(paragraph))
  {
    var next := tail + sep + paragraph;
    FlushAndStart(g, next);
    TailAddsRepetition(tail, sep, paragraph);
    AddsExtra(overlap, Weight(g), Weight(Gathering(g.chunks + [g.current], next)), Squeeze(next), Squeeze(paragraph));
  }

  lemma FreshStartIsAdded(overlap: nat, g: Gathering, paragraph: string)
    ensures Adds(overlap, Weight(g), Weight(Gathering(g.chunks + [g.current], paragraph)), Squeeze(paragraph))
  {
    FlushAndStart(g, paragraph);
    AddsOnce(overlap, Weight(g), Weight(Gathering(g.chunks + [g.current], paragraph)), Squeeze(paragraph));
  }

  lemma JoiningIsAdded(overlap: nat, g: Gathering, sep: string, paragraph: string)
    requires IsBlank(sep)
    ensures Adds(overlap, Weight(g), Weight(g.(current := Candidate(g.current, sep, paragraph))), Squeeze(paragraph))
  {
    CandidateAddsPart(g, sep, paragraph);
    AddsOnce(overlap, Weight(g), Weight(g.(current := Candidate(g.current, sep, paragraph))), Squeeze(paragraph));
  }

  lemma ShortStepIsAdded(overlap: nat, g: Gathering, sep: string, paragraph: string, after: Gathering)
    requires IsBlank(sep) && IsShortStep(overlap, g, sep, paragraph, after)
    ensures Adds(overlap, Weight(g), Weight(after), Squeeze(paragraph))
  {
    JoiningIsAdded(overlap, g, sep, paragraph);
    FreshStartIsAdded(overlap, g, paragraph);
    if overlap > 0 {
      forall tail ensures Adds(overlap, Weight(g), Weight(Gathering(g.chunks + [g.current], tail + sep + paragraph)), Squeeze(paragraph)) {
        RepetitionIsAdded(overlap, g, tail, sep, paragraph);
      }
    }
  }

  lemma StepAdds(step: Step, size: nat, overlap: nat, sep: string)
    requires IsBlank(sep)
    requires forall g: Gathering, p: string :: |p| <= size ==> IsShortStep(overlap, g, sep, p, step(g, p))
    requires forall g: Gathering, p: string :: |p| > size ==> Adds(overlap, Weight(g), Weight(step(g, p)), Squeeze(p))
    ensures AddsParts(step, overlap)
  {
    forall g: Gathering, p: string ensures Adds(overlap, Weight(g), Weight(step(g, p)), Squeeze(p)) {
      if |p| <= size { ShortStepIsAdded(overlap, g, sep, p, step(g, p)); }
    }
  }

  lemma TailAddsRepetition(tail: string, sep: string, paragraph: string)
    requires IsBlank(sep)
    ensures Keeps(Squeeze(tail + sep + paragraph), Squeeze(paragraph))
  {
    SqueezeAppend(tail + sep, paragraph);
    KeepsItself(Squeeze(paragraph));
    KeepsMore(Squeeze(tail + sep), Squeeze(paragraph), Squeeze(paragraph));
  }

  lemma ParagraphsAreAdded(find: Finder, size: nat, overlap: nat, g: Gathering, paragraphs: seq<string>)
    requires StaysInWindow(find) && size >= WINDOW && overlap != 1
    ensures Adds(overlap, Weight(g), Weight(OnParagraphs(find, size, overlap, g, paragraphs)), SqueezeAll(paragraphs))
  {
    var step := ParagraphStep(find, size, overlap);
    forall h: Gathering, p: string | |p| <= size ensures IsShortStep(overlap, h, "\n\n", p, step(h, p)) {
      ShortParagraphCases(find, size, overlap, h, p);
    }
    forall h: Gathering, p: string | |p| > size ensures Adds(overlap, Weight(h), Weight(step(h, p)), Squeeze(p)) {
      LongParagraphIsAdded(find, size, overlap, h, p);
    }
    StepAdds(step, size, overlap, "\n\n");
    GatheringAddsAll(step, overlap, g, paragraphs);
  }

  lemma VisibleSqueezes(chunk: string)
    ensures SqueezeAll(Visible(chunk)) == Squeeze(chunk)
  {
    StripSqueezes(chunk);
    SqueezeAllOne(chunk);
  }

  lemma {:induction false} NonBlankSqueezes(chunks: seq<string>)
    ensures SqueezeAll(NonBlank(chunks)) == SqueezeAll(chunks)
  {
    if chunks != [] {
      var init, last := chunks[..|chunks| - 1], chunks[|chunks| - 1];
      NonBlankSqueezes(init);
      VisibleSqueezes(last);
      SqueezeAllAppend(NonBlank(init), Visible(last));
    }
  }

  lemma {:induction false} ConcatenationSqueezes(chunks: seq<string>)
    ensures Squeeze(S.Concatenated(chunks)) == SqueezeAll(chunks)
  {
    if chunks != [] {
      ConcatenationSqueezes(chunks[..|chunks| - 1]);
      SqueezeAppend(S.Concatenated(chunks[..|chunks| - 1]), chunks[|chunks| - 1]);
    }
  }

  lemma SegmentersStayInWindow(segment: S.Segmenter)
    requires S.IsSegmenter(segment)
    ensures StaysInWindow(FinderOf(segment))
  {
    var find := FinderOf(segment);
    forall text: string, target: nat, window: nat
      ensures var r := find(text, target, window);
              r == target || (target - window < r <= target + window && 0 < r)
    {
      S.BoundaryInWindow(segment, text, target, window);
    }
  }

  lemma GatheredIsReturned(g: Gathering)
    ensures Squeeze(S.Concatenated(NonBlank(Flush(g).chunks))) == Weight(g)
  {
    FlushKeepsWeight(g);
    NonBlankSqueezes(Flush(g).chunks);
    ConcatenationSqueezes(NonBlank(Flush(g).chunks));
  }

  lemma GatheredHoldText(find: Finder, text: string, size: nat, overlap: nat, paragraphs: seq<string>)
    requires StaysInWindow(find) && size >= WINDOW && overlap != 1 && SqueezeAll(paragraphs) == Squeeze(text)
    ensures var g := OnParagraphs(find, size, overlap, EMPTY, paragraphs);
            Holds(overlap, Squeeze(S.Concatenated(NonBlank(Flush(g).chunks))), Squeeze(text))
  {
    var g := OnParagraphs(find, size, overlap, EMPTY, paragraphs);
    ParagraphsAreAdded(find, size, overlap, EMPTY, paragraphs);
    GatheredIsReturned(g);
    AddedToNothing(overlap, Weight(g), Squeeze(text));
  }

  lemma ChunksHoldText(find: Finder, text: string, size: nat, overlap: nat)
    requires StaysInWindow(find) && size >= WINDOW && overlap != 1
    ensures Holds(overlap, Squeeze(S.Concatenated(Chunks(find, text, size, overlap))), Squeeze(text))
  {
    PartsSqueeze(text, "\n\n");
    GatheredHoldText(find, text, size, overlap, Parts(text, "\n\n"));
  }

  lemma AddedToNothing(overlap: nat, after: string, s: string)
    requires Adds(overlap, Weight(EMPTY), after, s)
    ensures Holds(overlap, after, s)
  {
    assert Weight(EMPTY) == "" && after[0..] == after;
  }

  // ---- Sizes ----

  function SizeBound(size: nat, overlap: nat): nat {
    size + if overlap == 0 then WINDOW else Max(WINDOW, overlap + OverlapWindow(overlap) + 2)
  }

  predicate AllWithin(chunks: seq<string>, bound: nat) {
    forall k :: 0 <= k < |chunks| ==> |chunks[k]| <= bound
  }

  predicate Within(g: Gathering, bound: nat) {
    AllWithin(g.chunks, bound) && |g.current| <= bound
  }

  lemma WithinAppend(a: seq<string>, b: seq<string>, bound: nat)
    requires AllWithin(a, bound) && AllWithin(b, bound)
    ensures AllWithin(a + b, bound)
  {
  }

  ghost predicate StaysWithin(step: Step, bound: nat) {
    forall g: Gathering, part: string :: Within(g, bound) ==> Within(step(g, part), bound)
  }

  lemma {:induction false} GatheringStaysWithin(step: Step, bound: nat, g: Gathering, parts: seq<string>)
    requires StaysWithin(step, bound) && Within(g, bound)
    ensures Within(Gather(step, g, parts), bound)
  {
    if parts != [] { GatheringStaysWithin(step, bound, g, parts[..|parts| - 1]); }
  }

  lemma PieceIsShort(find: Finder, line: string, size: nat, start: nat, end: nat, bound: nat)
    requires StaysInWindow(find) && bound >= size + WINDOW && end == CutEnd(find, line, size, start)
    ensures AllWithin([Strip(Slice(line, start, end))], bound)
  {
    CutsAreShort(find, line, size, start);
    StripIsPart(Slice(line, start, end));
  }

  lemma {:induction false} PiecesAreShort(find: Finder, line: string, size: nat, overlap: nat, start: nat, bound: nat)
    requires StaysInWindow(find) && bound >= size + WINDOW
    ensures AllWithin(Pieces(find, line, size, overlap, start), bound)
    decreases |line| - start
  {
    if start < |line| {
      var end := CutEnd(find, line, size, start);
      var next := NextStart(find, line, overlap, start, end);
      var later := Pieces(find, line, size, overlap, next);
      PieceIsShort(find, line, size, start, end, bound);
      PiecesAreShort(find, line, size, overlap, next, bound);
      WithinAppend([Strip(Slice(line, start, end))], later, bound);
    }
  }

  lemma FlushStaysWithin(g: Gathering, bound: nat)
    requires Within(g, bound)
    ensures Within(Flush(g), bound) && AllWithin(g.chunks + [g.current], bound)
  {
  }

  lemma LineStaysWithin(find: Finder, size: nat, overlap: nat, g: Gathering, line: string, bound: nat)
    requires StaysInWindow(find) && bound >= size + WINDOW && Within(g, bound)
    ensures Within(OnLine(find, size, overlap, g, line), bound)
  {
    FlushStaysWithin(g, bound);
    PiecesAreShort(find, line, size, overlap, 0, bound);
    WithinAppend(Flush(g).chunks, Pieces(find, line, size, overlap, 0), bound);
  }

  lemma LinesStayWithin(find: Finder, size: nat, overlap: nat, g: Gathering, lines: seq<string>, bound: nat)
    requires StaysInWindow(find) && bound >= size + WINDOW && Within(g, bound)
    ensures Within(OnLines(find, size, overlap, g, lines), bound)
  {
    var step := LineStep(find, size, overlap);
    forall h: Gathering, line: string | Within(h, bound) ensures Within(step(h, line), bound) {
      LineStaysWithin(find, size, overlap, h, line, bound);
    }
    GatheringStaysWithin(step, bound, g, lines);
  }

  lemma TailIsShort(find: Finder, overlap: nat, current: string)
    requires StaysInWindow(find) && 0 < overlap < |current|
    ensures |Tail(find, overlap, current)| <= overlap + OverlapWindow(overlap)
  {
  }

  lemma ParagraphStaysWithin(find: Finder, size: nat, overlap: nat, g: Gathering, paragraph: string)
    requires StaysInWindow(find) && Within(g, SizeBound(size, overlap))
    ensures Within(OnParagraph(find, size, overlap, g, paragraph), SizeBound(size, overlap))
  {
    var bound := SizeBound(size, overlap);
    FlushStaysWithin(g, bound);
    if |paragraph| > size {
      var lines := Parts(paragraph, "\n");
      LinesStayWithin(find, size, overlap, Flush(g), lines, bound);
      FlushStaysWithin(OnLines(find, size, overlap, Flush(g), lines), bound);
    } else if 0 < overlap < |g.current| {
      TailIsShort(find, overlap, g.current);
    }
  }

  /** No chunk is blank, or exceeds the asked size by more than the window, or than the
      repeated tail where chunks overlap. */
  lemma ChunksAreShort(segment: S.Segmenter, text: string, size: nat, overlap: nat)
    requires S.IsSegmenter(segment)
    ensures AllWithin(Chunks(FinderOf(segment), text, size, overlap), SizeBound(size, overlap))
    ensures forall chunk :: chunk in Chunks(FinderOf(segment), text, size, overlap) ==> Strip(chunk) != ""
  {
    SegmentersStayInWindow(segment);
    FoundChunksAreShort(FinderOf(segment), text, size, overlap);
  }

  lemma FoundChunksAreShort(find: Finder, text: string, size: nat, overlap: nat)
    requires StaysInWindow(find)
    ensures AllWithin(Chunks(find, text, size, overlap), SizeBound(size, overlap))
    ensures forall chunk :: chunk in Chunks(find, text, size, overlap) ==> Strip(chunk) != ""
  {
    var bound, step := SizeBound(size, overlap), ParagraphStep(find, size, overlap);
    forall h: Gathering, paragraph: string | Within(h, bound) ensures Within(step(h, paragraph), bound) {
      ParagraphStaysWithin(find, size, overlap, h, paragraph);
    }
    GatheringStaysWithin(step, bound, EMPTY, Parts(text, "\n\n"));
    var g := OnParagraphs(find, size, overlap, EMPTY, Parts(text, "\n\n"));
    FlushStaysWithin(g, bound);
    NonBlankWithin(Flush(g).chunks, bound);
  }

  lemma {:induction false} NonBlankWithin(chunks: seq<string>, bound: nat)
    requires AllWithin(chunks, bound)
    ensures AllWithin(NonBlank(chunks), bound)
    ensures forall chunk :: chunk in NonBlank(chunks) ==> Strip(chunk) != ""
  {
    if chunks != [] { NonBlankWithin(chunks[..|chunks| - 1], bound); }
  }
}
