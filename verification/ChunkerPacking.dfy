/** How full chunks are: paragraphs, and lines of a long paragraph, share a chunk as long as they
    fit together, and a new one starts only where the next would not fit. */
module ChunkerPacking {
  import opened Text
  import opened Squeezing
  import opened Chunker
  import opened ChunkerConservation
  import S = SentenceBoundaries

  // ---- Parts ----

  /** Not empty, and no white space at either end. */
  predicate Clean(p: string) {
    p != "" && !IsSpace(p[0]) && !IsSpace(p[|p| - 1])
  }

  predicate AllClean(ps: seq<string>) {
    forall k :: 0 <= k < |ps| ==> Clean(ps[k])
  }

  lemma {:induction false} StripLeftEnds(s: string)
    ensures StripLeft(s) != "" ==> !IsSpace(StripLeft(s)[0])
  {
    if s != "" && IsSpace(s[0]) { StripLeftEnds(s[1..]); }
  }

  lemma {:induction false} StripRightEnds(s: string)
    ensures StripRight(s) <= s
    ensures StripRight(s) != "" ==> !IsSpace(StripRight(s)[|StripRight(s)| - 1])
  {
    if s != "" && IsSpace(s[|s| - 1]) { StripRightEnds(s[..|s| - 1]); }
  }

  lemma StripIsClean(s: string)
    ensures Strip(s) != "" ==> Clean(Strip(s))
  {
    StripLeftEnds(s);
    StripRightEnds(StripLeft(s));
  }

  lemma {:induction false} StrippedAreClean(parts: seq<string>)
    ensures AllClean(Stripped(parts))
  {
    if parts != [] {
      StrippedAreClean(parts[..|parts| - 1]);
      StripIsClean(parts[|parts| - 1]);
    }
  }

  lemma PartsAreClean(s: string, sep: string)
    requires sep != ""
    ensures AllClean(Parts(s, sep))
  {
    StrippedAreClean(SplitOn(s, sep));
  }

  lemma {:induction false} FirstIsPrefix(s: string, sep: string)
    requires sep != ""
    ensures SplitOn(s, sep)[0] <= s
    decreases |s|
  {
    if s != "" && !(sep <= s) { FirstIsPrefix(s[1..], sep); }
  }

  /** No part of a split text holds the separator: it is split wherever it can be. */
  lemma {:induction false} SplitHoldsNoSeparator(s: string, sep: string)
    requires sep != ""
    ensures forall k :: 0 <= k < |SplitOn(s, sep)| ==> !Contains(SplitOn(s, sep)[k], sep)
    decreases |s|
  {
    if s != "" {
      if sep <= s {
        SplitHoldsNoSeparator(s[|sep|..], sep);
      } else {
        var rest := SplitOn(s[1..], sep);
        SplitHoldsNoSeparator(s[1..], sep);
        FirstIsPrefix(s[1..], sep);
        assert ([s[0]] + rest[0])[1..] == rest[0] && [s[0]] + rest[0] <= s;
      }
    }
  }

  lemma StripHoldsLess(s: string, sep: string)
    requires !Contains(s, sep)
    ensures !Contains(Strip(s), sep)
  {
    if Contains(Strip(s), sep) {
      var i := ContainsAt(Strip(s), sep);
      var left, right := StripPads(s);
      assert s[|left| + i..|left| + i + |sep|] == Strip(s)[i..i + |sep|];
      ContainedIfAt(s, sep, |left| + i);
    }
  }

  lemma {:induction false} StrippedHoldNone(parts: seq<string>, sep: string)
    requires forall k :: 0 <= k < |parts| ==> !Contains(parts[k], sep)
    ensures forall k :: 0 <= k < |Stripped(parts)| ==> !Contains(Stripped(parts)[k], sep)
  {
    if parts != [] {
      StrippedHoldNone(parts[..|parts| - 1], sep);
      StripHoldsLess(parts[|parts| - 1], sep);
    }
  }

  /** Paragraphs hold no blank line and lines no line break. */
  lemma PartsHoldNoSeparator(s: string, sep: string)
    requires sep != ""
    ensures forall k :: 0 <= k < |Parts(s, sep)| ==> !Contains(Parts(s, sep)[k], sep)
  {
    SplitHoldsNoSeparator(s, sep);
    StrippedHoldNone(SplitOn(s, sep), sep);
  }

  lemma {:induction false} JoinedSnoc(parts: seq<string>, sep: string, p: string)
    requires parts != []
    ensures Joined(parts + [p], sep) == Joined(parts, sep) + sep + p
  {
    if |parts| == 1 {
      assert (parts + [p])[1..] == [p];
    } else {
      JoinedSnoc(parts[1..], sep, p);
      assert (parts + [p])[1..] == parts[1..] + [p];
    }
  }

  lemma {:induction false} JoinedIsLonger(parts: seq<string>, sep: string, n: nat)
    requires 0 < n <= |parts|
    ensures |Joined(parts[..n], sep)| <= |Joined(parts, sep)| && |parts[n - 1]| <= |Joined(parts[..n], sep)|
    decreases |parts| - n
  {
    if n > 1 {
      JoinedSnoc(parts[..n - 1], sep, parts[n - 1]);
      assert parts[..n - 1] + [parts[n - 1]] == parts[..n];
    }
    if n < |parts| {
      JoinedIsLonger(parts, sep, n + 1);
      JoinedSnoc(parts[..n], sep, parts[n]);
      assert parts[..n] + [parts[n]] == parts[..n + 1];
    } else {
      assert parts[..n] == parts;
    }
  }

  // ---- Chunks of several parts ----

  /** The parts as one chunk, which begins with `lead`. */
  function Together(lead: string, sep: string, parts: seq<string>): string
    requires parts != []
  {
    if |parts| == 1 then lead + parts[0] else StripLeft(lead + Joined(parts, sep))
  }

  predicate EndsSolid(s: string) {
    s != "" && !IsSpace(s[|s| - 1])
  }

  lemma {:induction false} StripLeftAppend(a: string, b: string)
    requires EndsSolid(a)
    ensures StripLeft(a + b) == StripLeft(a) + b && EndsSolid(StripLeft(a))
  {
    if IsSpace(a[0]) {
      assert (a + b)[1..] == a[1..] + b && |a| > 1 && a[1..][|a| - 2] == a[|a| - 1];
      StripLeftAppend(a[1..], b);
    }
  }

  lemma {:induction false} StripLeftTwice(s: string)
    ensures StripLeft(StripLeft(s)) == StripLeft(s)
  {
    if s != "" && IsSpace(s[0]) { StripLeftTwice(s[1..]); }
  }

  lemma StripOfSolid(s: string)
    requires EndsSolid(s)
    ensures Strip(s) == StripLeft(s)
  {
    StripLeftAppend(s, "");
    assert s + "" == s && StripLeft(s) + "" == StripLeft(s);
  }

  lemma {:induction false} JoinedEndsSolid(parts: seq<string>, sep: string)
    requires parts != [] && AllClean(parts)
    ensures EndsSolid(Joined(parts, sep))
  {
    if |parts| > 1 {
      JoinedEndsSolid(parts[1..], sep);
      var s := parts[0] + sep + Joined(parts[1..], sep);
      assert s[|s| - 1] == Joined(parts[1..], sep)[|Joined(parts[1..], sep)| - 1];
    }
  }

  lemma AppendEndsSolid(a: string, b: string)
    requires EndsSolid(b)
    ensures EndsSolid(a + b)
  {
  }

  lemma Assoc(a: string, b: string, c: string)
    ensures a + b + c == a + (b + c)
  {
  }

  /** A chunk joined with one more part is the chunk of all these parts. */
  lemma TogetherGrows(lead: string, sep: string, parts: seq<string>, p: string)
    requires parts != [] && AllClean(parts) && Clean(p)
    ensures Together(lead, sep, parts) != ""
    ensures Strip(Together(lead, sep, parts) + sep + p) == Together(lead, sep, parts + [p])
  {
    var whole, chunk := lead + Joined(parts, sep), Together(lead, sep, parts);
    JoinedEndsSolid(parts, sep);
    AppendEndsSolid(lead, Joined(parts, sep));
    StripLeftAppend(whole, sep + p);
    StripLeftTwice(whole);
    assert EndsSolid(chunk) && StripLeft(chunk) == StripLeft(whole);
    JoinedSnoc(parts, sep, p);
    Assoc(Joined(parts, sep), sep, p);
    Assoc(lead, Joined(parts, sep), sep + p);
    assert Together(lead, sep, parts + [p]) == StripLeft(whole) + (sep + p);
    Assoc(chunk, sep, p);
    StripLeftAppend(chunk, sep + p);
    AppendEndsSolid(chunk + sep, p);
    StripOfSolid(chunk + sep + p);
  }

  lemma TogetherWithoutLead(sep: string, parts: seq<string>)
    requires parts != [] && AllClean(parts)
    ensures Together("", sep, parts) == Joined(parts, sep)
  {
    assert "" + Joined(parts, sep) == Joined(parts, sep);
  }

  // ---- Layouts ----

  /** The size, the separator, what a part longer than the size becomes, and what a chunk that
      starts behind a full one begins with. */
  datatype Rules = Rules(size: nat, sep: string, longOf: string -> seq<string>, leadOf: string -> string)

  /** Parts that share a chunk, or one part that is too long for one. */
  datatype Block = Short(from: nat, to: nat, lead: string) | Long(from: nat, to: nat)

  function TextOf(r: Rules, ps: seq<string>, b: Block): string {
    if b.Short? && b.from < b.to <= |ps| then Together(b.lead, r.sep, ps[b.from..b.to]) else ""
  }

  /** A block of several parts fits, and only a part that is too long stands apart. */
  predicate BlockFits(r: Rules, ps: seq<string>, b: Block) {
    && b.from < b.to <= |ps|
    && match b
       case Short(from, to, lead) =>
         && (forall k :: from <= k < to ==> |ps[k]| <= r.size)
         && (to - from > 1 ==> |TextOf(r, ps, b)| <= r.size)
       case Long(from, to) => to == from + 1 && |ps[from]| > r.size
  }

  /** A block of short parts starts behind another only where its first part would not have
      fitted, and begins with what it repeats of that; elsewhere it begins with nothing. */
  predicate Follows(r: Rules, ps: seq<string>, earlier: seq<Block>, b: Block) {
    b.Short? && b.from < |ps| ==>
      if earlier != [] && earlier[|earlier| - 1].Short? then
        var a := earlier[|earlier| - 1];
        |Strip(TextOf(r, ps, a) + r.sep + ps[b.from])| > r.size && b.lead == r.leadOf(TextOf(r, ps, a))
      else b.lead == ""
  }

  /** The blocks divide the first n parts. */
  predicate IsLayout(r: Rules, ps: seq<string>, blocks: seq<Block>, n: nat) {
    if blocks == [] then n == 0 else
      var earlier, b := blocks[..|blocks| - 1], blocks[|blocks| - 1];
      b.to == n && BlockFits(r, ps, b) && Follows(r, ps, earlier, b) && IsLayout(r, ps, earlier, b.from)
  }

  function ChunksOf(r: Rules, ps: seq<string>, b: Block): seq<string> {
    if b.Short? then [TextOf(r, ps, b)] else if b.from < |ps| then r.longOf(ps[b.from]) else []
  }

  function LaidOut(r: Rules, ps: seq<string>, blocks: seq<Block>): seq<string> {
    if blocks == [] then [] else LaidOut(r, ps, blocks[..|blocks| - 1]) + ChunksOf(r, ps, blocks[|blocks| - 1])
  }

  // ---- Gathering makes layouts ----

  /** What gathering does with one more part, under these rules. */
  function Packed(r: Rules, g: Gathering, p: string): Gathering {
    if |p| > r.size then Gathering(Flush(g).chunks + r.longOf(p), "")
    else if g.current == "" then g.(current := p)
    else if |Strip(g.current + r.sep + p)| > r.size then Gathering(g.chunks + [g.current], r.leadOf(g.current) + p)
    else g.(current := Strip(g.current + r.sep + p))
  }

  /** The blocks are those of what is gathered; the current chunk is the last one's. */
  predicate Told(r: Rules, ps: seq<string>, blocks: seq<Block>, g: Gathering) {
    if blocks != [] && blocks[|blocks| - 1].Short? then
      g.current == TextOf(r, ps, blocks[|blocks| - 1]) != "" && g.chunks == LaidOut(r, ps, blocks[..|blocks| - 1])
    else g.current == "" && g.chunks == LaidOut(r, ps, blocks)
  }

  lemma Snoc<T>(xs: seq<T>, x: T)
    ensures (xs + [x])[..|xs|] == xs && (xs + [x])[|xs|] == x
  {
  }

  lemma FlushedIsLaidOut(r: Rules, ps: seq<string>, blocks: seq<Block>, g: Gathering)
    requires Told(r, ps, blocks, g)
    ensures Flush(g).chunks == LaidOut(r, ps, blocks)
  {
  }

  /** The part is too long for a chunk. */
  lemma LongPartIsLaidOut(r: Rules, ps: seq<string>, n: nat, blocks: seq<Block>, g: Gathering) returns (after: seq<Block>)
    requires n < |ps| && IsLayout(r, ps, blocks, n) && Told(r, ps, blocks, g) && |ps[n]| > r.size
    ensures IsLayout(r, ps, after, n + 1) && Told(r, ps, after, Packed(r, g, ps[n]))
  {
    FlushedIsLaidOut(r, ps, blocks, g);
    after := blocks + [Long(n, n + 1)];
    Snoc(blocks, Long(n, n + 1));
  }

  lemma LastBlock(r: Rules, ps: seq<string>, init: seq<Block>, b: Block, n: nat)
    ensures IsLayout(r, ps, init + [b], n) <==>
              b.to == n && BlockFits(r, ps, b) && Follows(r, ps, init, b) && IsLayout(r, ps, init, b.from)
  {
    Snoc(init, b);
  }

  lemma LastIsTold(r: Rules, ps: seq<string>, init: seq<Block>, b: Block, g: Gathering)
    requires b.Short?
    ensures Told(r, ps, init + [b], g) <==> g.current == TextOf(r, ps, b) != "" && g.chunks == LaidOut(r, ps, init)
  {
    Snoc(init, b);
  }

  /** The part starts a chunk: the first, one behind a long part, or one behind a full chunk. */
  lemma StartIsLaidOut(r: Rules, ps: seq<string>, n: nat, blocks: seq<Block>, g: Gathering) returns (after: seq<Block>)
    requires n < |ps| && IsLayout(r, ps, blocks, n) && Told(r, ps, blocks, g) && |ps[n]| <= r.size && ps[n] != ""
    requires g.current == "" || |Strip(g.current + r.sep + ps[n])| > r.size
    ensures IsLayout(r, ps, after, n + 1) && Told(r, ps, after, Packed(r, g, ps[n]))
  {
    var b := Short(n, n + 1, if g.current == "" then "" else r.leadOf(g.current));
    after := blocks + [b];
    StartFits(r, ps, n, blocks, g, b);
    LastBlock(r, ps, blocks, b, n + 1);
    StartIsTold(r, ps, n, blocks, g, b);
  }

  lemma StartFits(r: Rules, ps: seq<string>, n: nat, blocks: seq<Block>, g: Gathering, b: Block)
    requires n < |ps| && IsLayout(r, ps, blocks, n) && Told(r, ps, blocks, g) && |ps[n]| <= r.size && ps[n] != ""
    requires g.current == "" || |Strip(g.current + r.sep + ps[n])| > r.size
    requires b == Short(n, n + 1, if g.current == "" then "" else r.leadOf(g.current))
    ensures BlockFits(r, ps, b) && Follows(r, ps, blocks, b)
  {
  }

  lemma StartIsTold(r: Rules, ps: seq<string>, n: nat, blocks: seq<Block>, g: Gathering, b: Block)
    requires n < |ps| && Told(r, ps, blocks, g) && |ps[n]| <= r.size && ps[n] != ""
    requires g.current == "" || |Strip(g.current + r.sep + ps[n])| > r.size
    requires b == Short(n, n + 1, if g.current == "" then "" else r.leadOf(g.current))
    ensures Told(r, ps, blocks + [b], Packed(r, g, ps[n]))
  {
    FlushedIsLaidOut(r, ps, blocks, g);
    OnePartTogether(b.lead, r.sep, ps, n);
    LastIsTold(r, ps, blocks, b, Packed(r, g, ps[n]));
  }

  lemma OnePartTogether(lead: string, sep: string, ps: seq<string>, n: nat)
    requires n < |ps| && ps[n] != ""
    ensures ps[n..n + 1] != [] && Together(lead, sep, ps[n..n + 1]) == lead + ps[n] != ""
    ensures lead == "" ==> lead + ps[n] == ps[n]
  {
    assert ps[n..n + 1] == [ps[n]];
  }

  lemma OneMorePart(ps: seq<string>, from: nat, to: nat)
    requires from <= to < |ps|
    ensures ps[from..to] + [ps[to]] == ps[from..to + 1]
  {
  }

  lemma TogetherIsSome(lead: string, sep: string, parts: seq<string>)
    requires parts != [] && AllClean(parts)
    ensures Together(lead, sep, parts) != ""
  {
    TogetherGrows(lead, sep, parts, parts[0]);
  }

  lemma TextGrows(r: Rules, ps: seq<string>, b: Block)
    requires AllClean(ps) && b.Short? && b.from < b.to < |ps|
    ensures TextOf(r, ps, b.(to := b.to + 1)) == Strip(TextOf(r, ps, b) + r.sep + ps[b.to]) != ""
  {
    var parts, p := ps[b.from..b.to], ps[b.to];
    OneMorePart(ps, b.from, b.to);
    TogetherGrows(b.lead, r.sep, parts, p);
    TogetherIsSome(b.lead, r.sep, parts + [p]);
  }

  function Grown(b: Block): Block {
    b.(to := b.to + 1)
  }

  lemma GrownBlockFits(r: Rules, ps: seq<string>, b: Block)
    requires b.Short? && b.to < |ps| && BlockFits(r, ps, b)
    requires |ps[b.to]| <= r.size && |TextOf(r, ps, Grown(b))| <= r.size
    ensures BlockFits(r, ps, Grown(b))
  {
  }

  lemma GrownBlockFollows(r: Rules, ps: seq<string>, init: seq<Block>, b: Block)
    requires b.Short? && b.from < b.to < |ps| && Follows(r, ps, init, b)
    ensures Follows(r, ps, init, Grown(b))
  {
  }

  /** The last block takes one more part in. */
  lemma BlockGrows(r: Rules, ps: seq<string>, init: seq<Block>, b: Block)
    requires b.Short? && b.to < |ps| && IsLayout(r, ps, init + [b], b.to)
    requires |ps[b.to]| <= r.size && |TextOf(r, ps, Grown(b))| <= r.size
    ensures IsLayout(r, ps, init + [Grown(b)], b.to + 1)
  {
    LastBlock(r, ps, init, b, b.to);
    GrownBlockFits(r, ps, b);
    GrownBlockFollows(r, ps, init, b);
    LastBlock(r, ps, init, Grown(b), b.to + 1);
  }

  lemma JoiningIsTold(r: Rules, ps: seq<string>, init: seq<Block>, b: Block, g: Gathering)
    requires AllClean(ps) && b.Short? && b.from < b.to < |ps| && Told(r, ps, init + [b], g)
    requires |ps[b.to]| <= r.size && |Strip(g.current + r.sep + ps[b.to])| <= r.size
    ensures TextOf(r, ps, Grown(b)) == Strip(g.current + r.sep + ps[b.to])
    ensures Told(r, ps, init + [Grown(b)], Packed(r, g, ps[b.to]))
  {
    LastIsTold(r, ps, init, b, g);
    TextGrows(r, ps, b);
    LastIsTold(r, ps, init, Grown(b), Packed(r, g, ps[b.to]));
  }

  /** A current chunk is that of a last block of short parts. */
  lemma LastOfTold(r: Rules, ps: seq<string>, n: nat, blocks: seq<Block>, g: Gathering) returns (init: seq<Block>, b: Block)
    requires IsLayout(r, ps, blocks, n) && Told(r, ps, blocks, g) && g.current != ""
    ensures blocks == init + [b] && b.Short? && b.from < b.to == n
  {
    init, b := blocks[..|blocks| - 1], blocks[|blocks| - 1];
  }

  /** The part joins the current chunk. */
  lemma JoiningIsLaidOut(r: Rules, ps: seq<string>, n: nat, blocks: seq<Block>, g: Gathering) returns (after: seq<Block>)
    requires AllClean(ps) && n < |ps| && IsLayout(r, ps, blocks, n) && Told(r, ps, blocks, g) && |ps[n]| <= r.size
    requires g.current != "" && |Strip(g.current + r.sep + ps[n])| <= r.size
    ensures IsLayout(r, ps, after, n + 1) && Told(r, ps, after, Packed(r, g, ps[n]))
  {
    var init, b := LastOfTold(r, ps, n, blocks, g);
    JoiningIsTold(r, ps, init, b, g);
    BlockGrows(r, ps, init, b);
    after := init + [Grown(b)];
  }

  lemma PartIsLaidOut(r: Rules, ps: seq<string>, n: nat, blocks: seq<Block>, g: Gathering) returns (after: seq<Block>)
    requires AllClean(ps) && n < |ps| && IsLayout(r, ps, blocks, n) && Told(r, ps, blocks, g)
    ensures IsLayout(r, ps, after, n + 1) && Told(r, ps, after, Packed(r, g, ps[n]))
  {
    if |ps[n]| > r.size {
      after := LongPartIsLaidOut(r, ps, n, blocks, g);
    } else if g.current == "" || |Strip(g.current + r.sep + ps[n])| > r.size {
      after := StartIsLaidOut(r, ps, n, blocks, g);
    } else {
      after := JoiningIsLaidOut(r, ps, n, blocks, g);
    }
  }

  ghost predicate PacksBy(step: Step, r: Rules) {
    forall g: Gathering, p: string :: step(g, p) == Packed(r, g, p)
  }

  function PackStep(r: Rules): Step {
    (g, p) => Packed(r, g, p)
  }

  lemma {:induction false} SameGathering(step: Step, r: Rules, ps: seq<string>)
    requires PacksBy(step, r)
    ensures Gather(step, EMPTY, ps) == Gather(PackStep(r), EMPTY, ps)
  {
    if ps != [] { SameGathering(step, r, ps[..|ps| - 1]); }
  }

  /** The blocks are the layout of what the first n parts are gathered to. */
  predicate LaysOut(r: Rules, ps: seq<string>, n: nat, blocks: seq<Block>) {
    n <= |ps| && IsLayout(r, ps, blocks, n) && Told(r, ps, blocks, Gather(PackStep(r), EMPTY, ps[..n]))
  }

  lemma NothingIsLaidOut(r: Rules, ps: seq<string>)
    ensures LaysOut(r, ps, 0, [])
  {
  }

  lemma OneMoreIsLaidOut(r: Rules, ps: seq<string>, k: nat, n: nat, blocks: seq<Block>) returns (after: seq<Block>)
    requires AllClean(ps) && k + 1 == n <= |ps| && LaysOut(r, ps, k, blocks)
    ensures LaysOut(r, ps, n, after)
  {
    var g := Gather(PackStep(r), EMPTY, ps[..k]);
    after := PartIsLaidOut(r, ps, k, blocks, g);
    GatherStep(PackStep(r), EMPTY, ps, k);
  }

  lemma {:induction false} GatheringIsLaidOut(r: Rules, ps: seq<string>, n: nat) returns (blocks: seq<Block>)
    requires AllClean(ps) && n <= |ps|
    ensures LaysOut(r, ps, n, blocks)
    decreases n
  {
    if n == 0 {
      NothingIsLaidOut(r, ps);
      blocks := [];
    } else {
      var k: nat := n - 1;
      var before := GatheringIsLaidOut(r, ps, k);
      blocks := OneMoreIsLaidOut(r, ps, k, n, before);
    }
  }

  /** What all the parts are gathered to. */
  lemma AllIsLaidOut(step: Step, r: Rules, ps: seq<string>) returns (blocks: seq<Block>)
    requires PacksBy(step, r) && AllClean(ps)
    ensures IsLayout(r, ps, blocks, |ps|) && Flush(Gather(step, EMPTY, ps)).chunks == LaidOut(r, ps, blocks)
  {
    SameGathering(step, r, ps);
    blocks := GatheringIsLaidOut(r, ps, |ps|);
    assert ps[..|ps|] == ps;
    FlushedIsLaidOut(r, ps, blocks, Gather(PackStep(r), EMPTY, ps));
  }

  // ---- Lines and paragraphs ----

  /** Lines repeat nothing of one another; a long one becomes its pieces. */
  function LineRules(find: Finder, size: nat, overlap: nat): Rules {
    Rules(size, "\n", (line: string) => Pieces(find, line, size, overlap, 0), (chunk: string) => "")
  }

  function LineChunks(find: Finder, size: nat, overlap: nat, paragraph: string): seq<string> {
    Flush(OnLines(find, size, overlap, EMPTY, Parts(paragraph, "\n"))).chunks
  }

  /** The end of a full chunk is repeated, set off as a paragraph, if the chunk is longer than that. */
  function LeadOf(find: Finder, overlap: nat, chunk: string): string {
    if 0 < overlap < |chunk| then Tail(find, overlap, chunk) + "\n\n" else ""
  }

  /** A long paragraph becomes the chunks of its lines. */
  function ParagraphRules(find: Finder, size: nat, overlap: nat): Rules {
    Rules(size, "\n\n", (paragraph: string) => LineChunks(find, size, overlap, paragraph),
          (chunk: string) => LeadOf(find, overlap, chunk))
  }

  lemma LineStepPacks(find: Finder, size: nat, overlap: nat, g: Gathering, line: string)
    ensures OnLine(find, size, overlap, g, line) == Packed(LineRules(find, size, overlap), g, line)
  {
    assert "" + line == line;
  }

  lemma ParagraphStepPacks(find: Finder, size: nat, overlap: nat, g: Gathering, paragraph: string)
    ensures OnParagraph(find, size, overlap, g, paragraph) == Packed(ParagraphRules(find, size, overlap), g, paragraph)
  {
    if |paragraph| > size { LongParagraph(find, size, overlap, g, paragraph); }
    assert "" + paragraph == paragraph;
  }

  /** The lines of a long paragraph are packed: lines share a chunk as long as they fit, and a
      line starts one only behind a long line or where it would not have fitted. */
  lemma LinesArePacked(find: Finder, size: nat, overlap: nat, paragraph: string) returns (blocks: seq<Block>)
    ensures var r, lines := LineRules(find, size, overlap), Parts(paragraph, "\n");
            IsLayout(r, lines, blocks, |lines|) && LineChunks(find, size, overlap, paragraph) == LaidOut(r, lines, blocks)
  {
    PartsAreClean(paragraph, "\n");
    forall g: Gathering, line: string
      ensures LineStep(find, size, overlap)(g, line) == Packed(LineRules(find, size, overlap), g, line)
    {
      LineStepPacks(find, size, overlap, g, line);
    }
    blocks := AllIsLaidOut(LineStep(find, size, overlap), LineRules(find, size, overlap), Parts(paragraph, "\n"));
  }

  /** The paragraphs of a text are packed: paragraphs share a chunk as long as they fit, and
      one starts a chunk only behind a long paragraph or where it would not have fitted, and
      then behind the repeated end of the full chunk. */
  lemma ParagraphsArePacked(find: Finder, text: string, size: nat, overlap: nat) returns (blocks: seq<Block>)
    ensures var r, ps := ParagraphRules(find, size, overlap), Parts(text, "\n\n");
            IsLayout(r, ps, blocks, |ps|) && Chunks(find, text, size, overlap) == NonBlank(LaidOut(r, ps, blocks))
  {
    PartsAreClean(text, "\n\n");
    forall g: Gathering, p: string
      ensures ParagraphStep(find, size, overlap)(g, p) == Packed(ParagraphRules(find, size, overlap), g, p)
    {
      ParagraphStepPacks(find, size, overlap, g, p);
    }
    blocks := AllIsLaidOut(ParagraphStep(find, size, overlap), ParagraphRules(find, size, overlap), Parts(text, "\n\n"));
  }

  // ---- What that means ----

  /** With no lead a chunk is its parts joined. */
  lemma TextWithoutLead(r: Rules, ps: seq<string>, b: Block)
    requires AllClean(ps) && b.Short? && b.lead == "" && b.from < b.to <= |ps|
    ensures TextOf(r, ps, b) == Joined(ps[b.from..b.to], r.sep)
  {
    TogetherWithoutLead(r.sep, ps[b.from..b.to]);
  }

  lemma CleanIsShown(s: string)
    requires EndsSolid(s)
    ensures Visible(s) == [s]
  {
    StripOfSolid(s);
    StripLeftAppend(s, "");
    assert StripLeft(s) + "" == StripLeft(s);
  }

  /** Where all parts fit together, no layout has a second block. */
  lemma {:induction false} OneBlockHoldsAll(r: Rules, ps: seq<string>, blocks: seq<Block>, n: nat)
    requires AllClean(ps) && ps != [] && |Joined(ps, r.sep)| <= r.size
    requires IsLayout(r, ps, blocks, n) && 0 < n <= |ps|
    ensures blocks == [Short(0, n, "")]
    decreases |blocks|
  {
    var earlier, b := blocks[..|blocks| - 1], blocks[|blocks| - 1];
    JoinedIsLonger(ps, r.sep, b.from + 1);
    if b.from > 0 {
      OneBlockHoldsAll(r, ps, earlier, b.from);
      NextWouldFit(r, ps, b.from);
    } else {
      assert earlier == [] && blocks == [b];
    }
  }

  lemma NextWouldFit(r: Rules, ps: seq<string>, n: nat)
    requires AllClean(ps) && 0 < n < |ps| && |Joined(ps, r.sep)| <= r.size
    ensures |Strip(TextOf(r, ps, Short(0, n, "")) + r.sep + ps[n])| <= r.size && |ps[n]| <= r.size
  {
    TextGrows(r, ps, Short(0, n, ""));
    TextWithoutLead(r, ps, Short(0, n + 1, ""));
    JoinedIsLonger(ps, r.sep, n + 1);
  }

  /** A text whose paragraphs fit together in the size comes out as one chunk: its paragraphs. */
  lemma ShortTextIsOneChunk(find: Finder, text: string, size: nat, overlap: nat)
    requires var ps := Parts(text, "\n\n"); ps != [] && |Joined(ps, "\n\n")| <= size
    ensures Chunks(find, text, size, overlap) == [Joined(Parts(text, "\n\n"), "\n\n")]
  {
    var r, ps := ParagraphRules(find, size, overlap), Parts(text, "\n\n");
    PartsAreClean(text, "\n\n");
    var blocks := ParagraphsArePacked(find, text, size, overlap);
    OneBlockHoldsAll(r, ps, blocks, |ps|);
    var b := Short(0, |ps|, "");
    TextWithoutLead(r, ps, b);
    assert ps[0..|ps|] == ps && [b][..0] == [];
    JoinedEndsSolid(ps, "\n\n");
    OneChunkIsShown(Joined(ps, "\n\n"));
    assert LaidOut(r, ps, [b]) == [] + [TextOf(r, ps, b)];
  }

  lemma OneChunkIsShown(s: string)
    requires EndsSolid(s)
    ensures NonBlank([s]) == [s]
  {
    CleanIsShown(s);
    assert [s][..0] == [] && NonBlank([]) == [];
  }

  /** Two neighbouring blocks of short parts: the parts of the first joined with the first part
      of the second exceed the size, and the second begins with what it repeats of the first. */
  lemma {:induction false} NeighboursDoNotFit(r: Rules, ps: seq<string>, blocks: seq<Block>, n: nat, k: nat)
    requires IsLayout(r, ps, blocks, n) && 0 < k < |blocks| && blocks[k - 1].Short? && blocks[k].Short?
    ensures blocks[k].from == blocks[k - 1].to < |ps|
    ensures |Strip(TextOf(r, ps, blocks[k - 1]) + r.sep + ps[blocks[k].from])| > r.size
    ensures blocks[k].lead == r.leadOf(TextOf(r, ps, blocks[k - 1]))
    decreases |blocks|
  {
    var earlier, b := blocks[..|blocks| - 1], blocks[|blocks| - 1];
    if k < |blocks| - 1 {
      NeighboursDoNotFit(r, ps, earlier, b.from, k);
    }
  }

  /** What is repeated is an end of the full chunk, about as long as the overlap. */
  lemma LeadIsAnEnd(find: Finder, overlap: nat, chunk: string) returns (start: nat)
    requires StaysInWindow(find) && 0 < overlap < |chunk|
    ensures LeadOf(find, overlap, chunk) == Slice(chunk, start, |chunk|) + "\n\n"
    ensures |chunk| - overlap - OverlapWindow(overlap) < start <= |chunk| - overlap + OverlapWindow(overlap)
  {
    start := find(chunk, |chunk| - overlap, OverlapWindow(overlap));
  }

  // ---- The spans of a long line ----

  /** Every span but the last ends within the window around the full size, and the next one
      starts within the window around what is repeated, at its end without overlap. */
  lemma {:induction false} SpansAreFull(find: Finder, line: string, size: nat, overlap: nat, start: nat, k: nat)
    requires StaysInWindow(find) && size >= WINDOW && k < |Spans(find, line, size, overlap, start)|
    ensures var spans := Spans(find, line, size, overlap, start);
            var a := spans[k];
            && (a.start + size >= |line| ==> a.end == a.start + size)
            && (a.start + size < |line| ==> size - WINDOW < a.end - a.start <= size + WINDOW || a.end - a.start == size)
            && (k + 1 < |spans| ==>
                  var b := spans[k + 1];
                  && (overlap == 0 ==> b.start == a.end)
                  && (b.start == a.start + 1 || b.start == a.end - overlap ||
                      a.end - overlap - OverlapWindow(overlap) < b.start <= a.end - overlap + OverlapWindow(overlap)))
    decreases k
  {
    var end := CutEnd(find, line, size, start);
    var next := NextStart(find, line, overlap, start, end);
    CutsAdvance(find, line, size, start);
    if k > 0 {
      SpansAreFull(find, line, size, overlap, next, k - 1);
    }
  }
}
