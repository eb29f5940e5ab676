/** Cutting a document into chunks: by paragraphs, long paragraphs by lines, long lines near
    sentence ends, with an overlap between neighbours. */
module Chunker {
  import opened Text
  import opened Squeezing
  import S = SentenceBoundaries

  /** Where to cut a text near a target, given a window. */
  type Finder = (string, nat, nat) -> nat

  function FinderOf(segment: S.Segmenter): Finder {
    (text, target, window) => S.Boundary(segment, text, target, window)
  }

  /** A cut is the target or lies in the window around it. */
  ghost predicate StaysInWindow(find: Finder) {
    forall text: string, target: nat, window: nat {:trigger find(text, target, window)} ::
      var r := find(text, target, window);
      r == target || (target - window < r <= target + window && 0 < r)
  }

  const WINDOW := 50

  function OverlapWindow(overlap: nat): nat {
    if overlap / 2 != 0 then overlap / 2 else 20
  }

  function Max(a: int, b: int): int {
    if a >= b then a else b
  }

  /** Python's `s[a:b]`. */
  function Slice(s: string, a: nat, b: nat): (r: string)
    ensures |r| <= Max(0, b - a)
  {
    var end := if b <= |s| then b else |s|;
    if a <= end then s[a..end] else ""
  }

  // ---- Level 3: a long line ----

  function CutEnd(find: Finder, line: string, size: nat, start: nat): nat {
    if start + size < |line| then find(line, start + size, WINDOW) else start + size
  }

  function NextStart(find: Finder, line: string, overlap: nat, start: nat, end: nat): (next: nat)
    ensures next > start
  {
    var next := end - overlap;
    var aligned := if overlap > 0 && next > start then find(line, next, OverlapWindow(overlap)) else next;
    Max(aligned, start + 1)
  }

  function Pieces(find: Finder, line: string, size: nat, overlap: nat, start: nat): seq<string>
    decreases |line| - start
  {
    if start >= |line| then [] else
      var end := CutEnd(find, line, size, start);
      [Strip(Slice(line, start, end))] + Pieces(find, line, size, overlap, NextStart(find, line, overlap, start, end))
  }

  method FindCut(segment: S.Segmenter, text: string, target: nat, window: nat) returns (r: nat)
    requires S.IsSegmenter(segment)
    ensures r == FinderOf(segment)(text, target, window)
  {
    r := S.FindSentenceBoundary(segment, text, target, window);
  }

  method FindEnd(segment: S.Segmenter, line: string, size: nat, start: nat) returns (end: nat)
    requires S.IsSegmenter(segment)
    ensures end == CutEnd(FinderOf(segment), line, size, start)
  {
    end := start + size;
    if end < |line| {
      end := FindCut(segment, line, end, WINDOW);
    }
  }

  method FindNextStart(segment: S.Segmenter, line: string, overlap: nat, start: nat, end: nat) returns (next: nat)
    requires S.IsSegmenter(segment)
    ensures next == NextStart(FinderOf(segment), line, overlap, start, end)
  {
    var nextStart := end - overlap;
    if overlap > 0 && nextStart > start {
      nextStart := FindCut(segment, line, nextStart, OverlapWindow(overlap));
    }
    next := Max(nextStart, start + 1);
  }

  method SplitLongLine(segment: S.Segmenter, line: string, size: nat, overlap: nat) returns (pieces: seq<string>)
    requires S.IsSegmenter(segment)
    ensures pieces == Pieces(FinderOf(segment), line, size, overlap, 0)
  {
    ghost var find := FinderOf(segment);
    pieces := [];
    var start := 0;
    while start < |line|
      invariant pieces + Pieces(find, line, size, overlap, start) == Pieces(find, line, size, overlap, 0)
      decreases |line| - start
    {
      var end := FindEnd(segment, line, size, start);
      PiecesStep(find, line, size, overlap, start, end, pieces);
      pieces := pieces + [Strip(Slice(line, start, end))];
      start := FindNextStart(segment, line, overlap, start, end);
    }
  }

  lemma PiecesStep(find: Finder, line: string, size: nat, overlap: nat, start: nat, end: nat, done: seq<string>)
    requires start < |line| && end == CutEnd(find, line, size, start)
    ensures done + Pieces(find, line, size, overlap, start) ==
            (done + [Strip(Slice(line, start, end))]) + Pieces(find, line, size, overlap, NextStart(find, line, overlap, start, end))
  {
  }

  // ---- Levels 2 and 1: chunks being gathered ----

  /** The chunks made so far and the one being gathered. */
  datatype Gathering = Gathering(chunks: seq<string>, current: string)

  function Flush(g: Gathering): Gathering {
    if g.current != "" then Gathering(g.chunks + [g.current], "") else g
  }

  function Candidate(current: string, sep: string, part: string): string {
    if current != "" then Strip(current + sep + part) else part
  }

  function OnLine(find: Finder, size: nat, overlap: nat, g: Gathering, line: string): Gathering {
    if |line| > size then
      var flushed := Flush(g);
      flushed.(chunks := flushed.chunks + Pieces(find, line, size, overlap, 0))
    else
      var candidate := Candidate(g.current, "\n", line);
      if |candidate| > size && g.current != "" then Gathering(g.chunks + [g.current], line)
      else g.(current := candidate)
  }

  /** What one more line or paragraph does. */
  type Step = (Gathering, string) -> Gathering

  function Gather(step: Step, g: Gathering, parts: seq<string>): Gathering {
    if parts == [] then g else step(Gather(step, g, parts[..|parts| - 1]), parts[|parts| - 1])
  }

  function LineStep(find: Finder, size: nat, overlap: nat): Step {
    (g, line) => OnLine(find, size, overlap, g, line)
  }

  const EMPTY := Gathering([], "")

  function OnLines(find: Finder, size: nat, overlap: nat, g: Gathering, lines: seq<string>): Gathering {
    Gather(LineStep(find, size, overlap), g, lines)
  }

  /** The end of a finished chunk that the next one repeats. */
  function Tail(find: Finder, overlap: nat, current: string): string
    requires overlap <= |current|
  {
    var start := find(current, |current| - overlap, OverlapWindow(overlap));
    Slice(current, start, |current|)
  }

  function OnParagraph(find: Finder, size: nat, overlap: nat, g: Gathering, paragraph: string): Gathering {
    if |paragraph| > size then
      Flush(OnLines(find, size, overlap, Flush(g), Parts(paragraph, "\n")))
    else
      var candidate := Candidate(g.current, "\n\n", paragraph);
      if |candidate| > size && g.current != "" then
        Gathering(g.chunks + [g.current],
                  if 0 < overlap < |g.current| then Tail(find, overlap, g.current) + "\n\n" + paragraph else paragraph)
      else g.(current := candidate)
  }

  function ParagraphStep(find: Finder, size: nat, overlap: nat): Step {
    (g, paragraph) => OnParagraph(find, size, overlap, g, paragraph)
  }

  function OnParagraphs(find: Finder, size: nat, overlap: nat, g: Gathering, paragraphs: seq<string>): Gathering {
    Gather(ParagraphStep(find, size, overlap), g, paragraphs)
  }

  /** The chunk, unless it is blank. */
  function Visible(chunk: string): seq<string> {
    if Strip(chunk) != "" then [chunk] else []
  }

  function NonBlank(chunks: seq<string>): seq<string> {
    if chunks == [] then [] else
      NonBlank(chunks[..|chunks| - 1]) + Visible(chunks[|chunks| - 1])
  }

  function Chunks(find: Finder, text: string, size: nat, overlap: nat): seq<string> {
    NonBlank(Flush(OnParagraphs(find, size, overlap, EMPTY, Parts(text, "\n\n"))).chunks)
  }

  method GatherLine(segment: S.Segmenter, size: nat, overlap: nat, g: Gathering, line: string) returns (r: Gathering)
    requires S.IsSegmenter(segment)
    ensures r == OnLine(FinderOf(segment), size, overlap, g, line)
  {
    var chunks, lineChunk := g.chunks, g.current;
    if |line| > size {
      if lineChunk != "" {
        chunks := chunks + [lineChunk];
        lineChunk := "";
      }
      var pieces := SplitLongLine(segment, line, size, overlap);
      chunks := chunks + pieces;
    } else {
      var candidate := if lineChunk != "" then Strip(lineChunk + "\n" + line) else line;
      if |candidate| > size && lineChunk != "" {
        chunks := chunks + [lineChunk];
        lineChunk := line;
      } else {
        lineChunk := candidate;
      }
    }
    r := Gathering(chunks, lineChunk);
  }

  method SplitLongParagraph(segment: S.Segmenter, paragraph: string, size: nat, overlap: nat) returns (chunks: seq<string>)
    requires S.IsSegmenter(segment)
    ensures chunks == Flush(OnLines(FinderOf(segment), size, overlap, EMPTY, Parts(paragraph, "\n"))).chunks
  {
    var lines := Parts(paragraph, "\n");
    var g, i := EMPTY, 0;
    while i < |lines|
      invariant 0 <= i <= |lines|
      invariant g == OnLines(FinderOf(segment), size, overlap, EMPTY, lines[..i])
    {
      GatherStep(LineStep(FinderOf(segment), size, overlap), EMPTY, lines, i);
      g := GatherLine(segment, size, overlap, g, lines[i]);
      i := i + 1;
    }
    assert lines[..|lines|] == lines;
    chunks := g.chunks;
    if g.current != "" {
      chunks := chunks + [g.current];
    }
  }

  lemma GatherStep(step: Step, g: Gathering, parts: seq<string>, i: nat)
    requires i < |parts|
    ensures Gather(step, g, parts[..i + 1]) == step(Gather(step, g, parts[..i]), parts[i])
  {
    assert parts[..i + 1][..i] == parts[..i];
  }

  function After(done: seq<string>, g: Gathering): Gathering {
    Gathering(done + g.chunks, g.current)
  }

  ghost predicate IgnoresDone(step: Step) {
    forall done: seq<string>, g: Gathering, part: string :: step(After(done, g), part) == After(done, step(g, part))
  }

  /** Chunks already made do not change what the parts add. */
  lemma {:induction false} GatherShift(step: Step, done: seq<string>, g: Gathering, parts: seq<string>)
    requires IgnoresDone(step)
    ensures Gather(step, After(done, g), parts) == After(done, Gather(step, g, parts))
  {
    if parts != [] { GatherShift(step, done, g, parts[..|parts| - 1]); }
  }

  lemma OnLineShift(find: Finder, size: nat, overlap: nat, done: seq<string>, g: Gathering, line: string)
    ensures OnLine(find, size, overlap, After(done, g), line) == After(done, OnLine(find, size, overlap, g, line))
  {
    if |line| > size {
      var pieces := Pieces(find, line, size, overlap, 0);
      assert done + (g.chunks + [g.current] + pieces) == done + g.chunks + [g.current] + pieces;
      assert done + (g.chunks + pieces) == done + g.chunks + pieces;
    } else {
      assert done + (g.chunks + [g.current]) == done + g.chunks + [g.current];
    }
  }

  lemma LinesShift(find: Finder, size: nat, overlap: nat, done: seq<string>, lines: seq<string>)
    ensures OnLines(find, size, overlap, Gathering(done, ""), lines) == After(done, OnLines(find, size, overlap, EMPTY, lines))
  {
    var step := LineStep(find, size, overlap);
    forall d: seq<string>, g: Gathering, line: string ensures step(After(d, g), line) == After(d, step(g, line)) {
      OnLineShift(find, size, overlap, d, g, line);
    }
    GatherShift(step, done, EMPTY, lines);
    assert After(done, EMPTY) == Gathering(done, "");
  }

  lemma LongParagraph(find: Finder, size: nat, overlap: nat, g: Gathering, paragraph: string)
    requires |paragraph| > size
    ensures var parts := Flush(OnLines(find, size, overlap, EMPTY, Parts(paragraph, "\n"))).chunks;
            OnParagraph(find, size, overlap, g, paragraph) == Gathering(Flush(g).chunks + parts, "")
  {
    var lines, done := Parts(paragraph, "\n"), Flush(g).chunks;
    LinesShift(find, size, overlap, done, lines);
    var alone := OnLines(find, size, overlap, EMPTY, lines);
    assert done + (alone.chunks + [alone.current]) == done + alone.chunks + [alone.current];
  }

  lemma TailFrom(find: Finder, overlap: nat, current: string, start: nat)
    requires overlap <= |current| && start == find(current, |current| - overlap, OverlapWindow(overlap))
    ensures Slice(current, start, |current|) == Tail(find, overlap, current)
  {
  }

  method FindTail(segment: S.Segmenter, current: string, overlap: nat) returns (tail: string)
    requires S.IsSegmenter(segment) && overlap <= |current|
    ensures tail == Tail(FinderOf(segment), overlap, current)
  {
    var start := FindCut(segment, current, |current| - overlap, OverlapWindow(overlap));
    TailFrom(FinderOf(segment), overlap, current, start);
    tail := Slice(current, start, |current|);
  }

  method RepeatTail(segment: S.Segmenter, current: string, paragraph: string, overlap: nat) returns (next: string)
    requires S.IsSegmenter(segment)
    ensures next == if 0 < overlap < |current| then Tail(FinderOf(segment), overlap, current) + "\n\n" + paragraph else paragraph
  {
    if overlap > 0 && |current| > overlap {
      var tail := FindTail(segment, current, overlap);
      next := tail + "\n\n" + paragraph;
    } else {
      next := paragraph;
    }
  }

  method GatherParagraph(segment: S.Segmenter, size: nat, overlap: nat, g: Gathering, paragraph: string) returns (r: Gathering)
    requires S.IsSegmenter(segment)
    ensures r == OnParagraph(FinderOf(segment), size, overlap, g, paragraph)
  {
    var chunks, currentChunk := g.chunks, g.current;
    if |paragraph| > size {
      if currentChunk != "" {
        chunks := chunks + [currentChunk];
        currentChunk := "";
      }
      LongParagraph(FinderOf(segment), size, overlap, g, paragraph);
      var parts := SplitLongParagraph(segment, paragraph, size, overlap);
      chunks := chunks + parts;
    } else {
      var candidate := if currentChunk != "" then Strip(currentChunk + "\n\n" + paragraph) else paragraph;
      if |candidate| > size && currentChunk != "" {
        chunks := chunks + [currentChunk];
        currentChunk := RepeatTail(segment, currentChunk, paragraph, overlap);
      } else {
        currentChunk := candidate;
      }
    }
    r := Gathering(chunks, currentChunk);
  }

  method RecursiveSplit(segment: S.Segmenter, text: string, size: nat, overlap: nat) returns (result: seq<string>)
    requires S.IsSegmenter(segment)
    ensures result == Chunks(FinderOf(segment), text, size, overlap)
  {
    var paragraphs := Parts(text, "\n\n");
    var g, i := EMPTY, 0;
    while i < |paragraphs|
      invariant 0 <= i <= |paragraphs|
      invariant g == OnParagraphs(FinderOf(segment), size, overlap, EMPTY, paragraphs[..i])
    {
      GatherStep(ParagraphStep(FinderOf(segment), size, overlap), EMPTY, paragraphs, i);
      g := GatherParagraph(segment, size, overlap, g, paragraphs[i]);
      i := i + 1;
    }
    assert paragraphs[..|paragraphs|] == paragraphs;
    var chunks := g.chunks;
    if g.current != "" {
      chunks := chunks + [g.current];
    }
    result := NonBlank(chunks);
  }
}
