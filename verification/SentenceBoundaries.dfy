/** The place to cut a text near a target: after the closest sentence end in a window, else
    at the closest word end, else at the target. */
module SentenceBoundaries {
  import opened Options

  const DELIMITERS := "。.！!？?；;"

  predicate IsDelimiter(c: char) {
    c in DELIMITERS
  }

  /** How a word segmenter cuts a text; None when there is none. */
  type Segmenter = string -> Option<seq<string>>

  function Concatenated(tokens: seq<string>): string {
    if tokens == [] then "" else Concatenated(tokens[..|tokens| - 1]) + tokens[|tokens| - 1]
  }

  /** The tokens of a text are its pieces, in order. */
  ghost predicate IsSegmenter(segment: Segmenter) {
    forall s: string :: segment(s).Some? ==>
      Concatenated(segment(s).value) == s && forall t :: t in segment(s).value ==> t != ""
  }

  function Abs(n: int): nat {
    if n < 0 then -n else n
  }

  function Min(a: int, b: int): int {
    if a <= b then a else b
  }

  function Max(a: int, b: int): int {
    if a >= b then a else b
  }

  function RegionStart(target: nat, window: nat): nat {
    Max(0, target - window)
  }

  function RegionEnd(text: string, target: nat, window: nat): nat {
    Min(|text|, target + window)
  }

  function Region(text: string, target: nat, window: nat): string {
    var start, end := RegionStart(target, window), RegionEnd(text, target, window);
    if start <= end then text[start..end] else ""
  }

  /** Among the first `k` characters, the delimiter closest to `mid`, the first of equals. */
  function ClosestDelimiter(region: string, k: nat, mid: int): (best: Option<nat>)
    requires k <= |region|
    ensures best.Some? ==> best.value < k
  {
    if k == 0 then None else
      var best := ClosestDelimiter(region, k - 1, mid);
      if IsDelimiter(region[k - 1]) && (best.None? || Abs(k - 1 - mid) < Abs(best.value - mid)) then Some(k - 1) else best
  }

  /** Among the ends of the tokens laid out from `start`, the one closest to `target`. */
  function ClosestEnd(tokens: seq<string>, start: nat, target: int): (best: Option<nat>)
    ensures best.Some? ==> start <= best.value <= start + |Concatenated(tokens)|
    ensures best.None? <==> tokens == []
  {
    if tokens == [] then None else
      var best := ClosestEnd(tokens[..|tokens| - 1], start, target);
      var pos := start + |Concatenated(tokens)|;
      if best.None? || Abs(pos - target) < Abs(best.value - target) then Some(pos) else best
  }

  lemma {:induction false} ClosestEndIsInside(tokens: seq<string>, start: nat, target: int)
    requires forall t :: t in tokens ==> t != ""
    ensures var best := ClosestEnd(tokens, start, target);
            best.Some? ==> start < best.value
  {
    if tokens != [] {
      var init, last := tokens[..|tokens| - 1], tokens[|tokens| - 1];
      assert tokens == init + [last] && last in tokens;
      forall t | t in init ensures t != "" { assert t in tokens; }
      ClosestEndIsInside(init, start, target);
    }
  }

  function WordEnd(segment: Segmenter, region: string, start: nat, target: nat): Option<nat> {
    var tokens := segment(region);
    if tokens.Some? then ClosestEnd(tokens.value, start, target) else None
  }

  function Boundary(segment: Segmenter, text: string, target: nat, window: nat): nat {
    var start, region := RegionStart(target, window), Region(text, target, window);
    var best := ClosestDelimiter(region, |region|, target - start);
    if best.Some? then start + best.value + 1 else
      var word := WordEnd(segment, region, start, target);
      if word.Some? then word.value else target
  }

  /** A cut is the target or lies in the window around it. */
  lemma BoundaryInWindow(segment: Segmenter, text: string, target: nat, window: nat)
    requires IsSegmenter(segment)
    ensures var r := Boundary(segment, text, target, window);
            r == target || (RegionStart(target, window) < r <= RegionEnd(text, target, window))
  {
    var tokens := segment(Region(text, target, window));
    if tokens.Some? { ClosestEndIsInside(tokens.value, RegionStart(target, window), target); }
  }

  lemma {:induction false} ClosestDelimiterIsClosest(region: string, k: nat, mid: int, i: nat)
    requires i < k <= |region| && IsDelimiter(region[i])
    ensures var best := ClosestDelimiter(region, k, mid);
            && best.Some? && IsDelimiter(region[best.value])
            && (Abs(best.value - mid) < Abs(i - mid) || (Abs(best.value - mid) == Abs(i - mid) && best.value <= i))
  {
    if i < k - 1 {
      ClosestDelimiterIsClosest(region, k - 1, mid, i);
    } else {
      DelimiterFound(region, k - 1, mid);
    }
  }

  lemma {:induction false} DelimiterFound(region: string, k: nat, mid: int)
    requires k <= |region|
    ensures var best := ClosestDelimiter(region, k, mid);
            best.Some? ==> IsDelimiter(region[best.value])
    ensures ClosestDelimiter(region, k, mid).None? <==> forall j :: 0 <= j < k ==> !IsDelimiter(region[j])
  {
    if k > 0 { DelimiterFound(region, k - 1, mid); }
  }

  /** When the window holds a sentence end, the cut follows the closest one, the first of equals. */
  lemma BoundaryIsClosest(segment: Segmenter, text: string, target: nat, window: nat, i: nat)
    requires i < |text| && target - window <= i < target + window && IsDelimiter(text[i])
    ensures var r := Boundary(segment, text, target, window);
            && 0 < r <= |text| && IsDelimiter(text[r - 1]) && target - window <= r - 1 < target + window
            && Abs(r - 1 - target) <= Abs(i - target) && (Abs(r - 1 - target) == Abs(i - target) ==> r - 1 <= i)
  {
    var start, region := RegionStart(target, window), Region(text, target, window);
    ClosestDelimiterIsClosest(region, |region|, target - start, i - start);
  }

  /** Where the first n tokens end. */
  function EndOf(tokens: seq<string>, start: nat, n: nat): nat
    requires n <= |tokens|
  {
    start + |Concatenated(tokens[..n])|
  }

  /** The first n tokens end no farther from the target than the first m, and closer if m < n. */
  predicate EndsCloser(tokens: seq<string>, start: nat, target: int, n: nat, m: nat)
    requires n <= |tokens| && m <= |tokens|
  {
    var here, other := Abs(EndOf(tokens, start, n) - target), Abs(EndOf(tokens, start, m) - target);
    here <= other && (here == other ==> n <= m)
  }

  /** The n-th token ends closest to the target, the first of equals. */
  ghost predicate IsClosestEnd(tokens: seq<string>, start: nat, target: int, n: nat) {
    0 < n <= |tokens| && forall m: nat :: 0 < m <= |tokens| ==> EndsCloser(tokens, start, target, n, m)
  }

  lemma EndsOfMore(tokens: seq<string>, last: string, start: nat, m: nat)
    requires m <= |tokens|
    ensures EndOf(tokens + [last], start, m) == EndOf(tokens, start, m)
  {
    assert (tokens + [last])[..m] == tokens[..m];
  }

  lemma OneMoreEnd(tokens: seq<string>, last: string, start: nat, target: int, n: nat) returns (best: nat)
    requires IsClosestEnd(tokens, start, target, n)
    ensures IsClosestEnd(tokens + [last], start, target, best)
    ensures var all := |tokens| + 1;
            best == if Abs(EndOf(tokens + [last], start, all) - target) < Abs(EndOf(tokens, start, n) - target) then all else n
  {
    var after := tokens + [last];
    best := if Abs(EndOf(after, start, |after|) - target) < Abs(EndOf(tokens, start, n) - target) then |after| else n;
    EndsOfMore(tokens, last, start, n);
    forall m: nat | 0 < m <= |after| ensures EndsCloser(after, start, target, best, m) {
      if m <= |tokens| {
        EndsOfMore(tokens, last, start, m);
        assert EndsCloser(tokens, start, target, n, m);
      }
    }
  }

  lemma {:induction false} ClosestEndIsClosest(tokens: seq<string>, start: nat, target: int) returns (n: nat)
    requires tokens != []
    ensures IsClosestEnd(tokens, start, target, n) && ClosestEnd(tokens, start, target) == Some(EndOf(tokens, start, n))
  {
    var init, last := tokens[..|tokens| - 1], tokens[|tokens| - 1];
    assert tokens[..|tokens|] == tokens == init + [last];
    if init == [] {
      n := 1;
    } else {
      var earlier := ClosestEndIsClosest(init, start, target);
      n := OneMoreEnd(init, last, start, target, earlier);
      EndsOfMore(init, last, start, earlier);
    }
  }

  /** No sentence ends within the window. */
  predicate NoSentenceEnds(text: string, target: nat, window: nat) {
    forall k :: 0 <= k < |text| && target - window <= k < target + window ==> !IsDelimiter(text[k])
  }

  /** The text of the window. */
  function Around(text: string, target: nat, window: nat): string {
    var start: nat := if target >= window then target - window else 0;
    var end := if |text| <= target + window then |text| else target + window;
    if start <= end then text[start..end] else ""
  }

  /** Where a cut among these words has to be: behind the one that ends closest, the first of
      equals; at the target if there are none. */
  ghost predicate CutsAtWord(words: Option<seq<string>>, start: nat, target: nat, cut: nat) {
    if words.None? || words.value == [] then cut == target
    else exists n: nat :: IsClosestEnd(words.value, start, target, n) && cut == EndOf(words.value, start, n)
  }

  lemma WordEndCuts(segment: Segmenter, region: string, start: nat, target: nat)
    ensures var word := WordEnd(segment, region, start, target);
            CutsAtWord(segment(region), start, target, if word.Some? then word.value else target)
  {
    var words := segment(region);
    if words.Some? && words.value != [] { var n := ClosestEndIsClosest(words.value, start, target); }
  }

  lemma RegionIsAround(text: string, target: nat, window: nat)
    ensures Region(text, target, window) == Around(text, target, window)
    ensures RegionStart(target, window) == if target >= window then target - window else 0
  {
  }

  /** When the window holds no sentence end, the cut is at the word of it that ends closest to
      the target. */
  lemma BoundaryIsClosestWord(segment: Segmenter, text: string, target: nat, window: nat)
    requires NoSentenceEnds(text, target, window)
    ensures CutsAtWord(segment(Around(text, target, window)), if target >= window then target - window else 0,
                       target, Boundary(segment, text, target, window))
  {
    var start, region := RegionStart(target, window), Region(text, target, window);
    DelimiterFound(region, |region|, target - start);
    RegionIsAround(text, target, window);
    WordEndCuts(segment, region, start, target);
  }

  lemma TokenEndsGrow(tokens: seq<string>, n: nat)
    requires n < |tokens|
    ensures |Concatenated(tokens[..n + 1])| == |Concatenated(tokens[..n])| + |tokens[n]|
  {
    assert tokens[..n + 1][..n] == tokens[..n];
  }

  lemma RegionFits(text: string, target: nat, window: nat)
    ensures RegionStart(target, window) <= target <= RegionStart(target, window) + window
    ensures RegionStart(target, window) + |Region(text, target, window)| <= target + window
  {
  }

  method FindSentenceBoundary(segment: Segmenter, text: string, target: nat, window: nat) returns (r: nat)
    requires IsSegmenter(segment)
    ensures r == Boundary(segment, text, target, window)
  {
    var start := Max(0, target - window);
    var end := Min(|text|, target + window);
    var region := if start <= end then text[start..end] else "";
    assert start == RegionStart(target, window) && region == Region(text, target, window);
    RegionFits(text, target, window);
    var best := ScanDelimiters(region, start, target, window);
    if best == -1 {
      var tokens := segment(region);
      if tokens.Some? {
        best := ScanWords(tokens.value, start, target, window);
      }
    }
    r := if best != -1 then best else target;
  }

  method ScanDelimiters(region: string, start: nat, target: nat, window: nat) returns (best: int)
    requires start <= target <= start + window && |region| <= target + window - start
    ensures var closest := ClosestDelimiter(region, |region|, target - start);
            best == if closest.Some? then start + closest.value + 1 else -1
  {
    var mid, bestDist, i := target - start, window + 1, 0;
    best := -1;
    while i < |region|
      invariant 0 <= i <= |region|
      invariant var closest := ClosestDelimiter(region, i, mid);
                if closest.None? then best == -1 && bestDist == window + 1
                else best == start + closest.value + 1 && bestDist == Abs(closest.value - mid)
    {
      if IsDelimiter(region[i]) {
        var dist := Abs(i - mid);
        if dist < bestDist {
          bestDist := dist;
          best := start + i + 1;
        }
      }
      i := i + 1;
    }
  }

  /** The choice after one more end: that end if it is closer. */
  function Nearer(best: Option<nat>, pos: nat, target: int): Option<nat> {
    if best.None? || Abs(pos - target) < Abs(best.value - target) then Some(pos) else best
  }

  lemma OneMoreToken(tokens: seq<string>, i: nat, start: nat, target: int)
    requires i < |tokens|
    ensures var pos := start + |Concatenated(tokens[..i])| + |tokens[i]|;
            && pos == start + |Concatenated(tokens[..i + 1])| <= start + |Concatenated(tokens)|
            && ClosestEnd(tokens[..i + 1], start, target) == Nearer(ClosestEnd(tokens[..i], start, target), pos, target)
  {
    TokenEndsGrow(tokens, i);
    EndsAreInside(tokens, i + 1);
    assert tokens[..i + 1][..i] == tokens[..i];
  }

  /** Where the tokens end and which end is chosen, after each number of tokens. */
  lemma ScanStep(tokens: seq<string>, start: nat, target: int, i: nat, next: nat,
                 end: nat, best: Option<nat>, end': nat, best': Option<nat>)
    requires i + 1 == next <= |tokens|
    requires end == start + |Concatenated(tokens[..i])| && best == ClosestEnd(tokens[..i], start, target)
    requires end' == start + |Concatenated(tokens[..next])| && best' == ClosestEnd(tokens[..next], start, target)
    ensures end' == end + |tokens[i]| <= start + |Concatenated(tokens)| && best' == Nearer(best, end', target)
  {
    OneMoreToken(tokens, i, start, target);
  }

  lemma ScanTable(tokens: seq<string>, start: nat, target: int) returns (ends: seq<nat>, bests: seq<Option<nat>>)
    ensures |ends| == |bests| == |tokens| + 1
    ensures ends[0] == start && bests[0].None? && bests[|tokens|] == ClosestEnd(tokens, start, target)
    ensures forall i {:trigger tokens[i]} :: 0 <= i < |tokens| ==>
              && ends[i + 1] == ends[i] + |tokens[i]| <= start + |Concatenated(tokens)|
              && bests[i + 1] == Nearer(bests[i], ends[i + 1], target)
  {
    ends := seq(|tokens| + 1, i requires 0 <= i <= |tokens| => start + |Concatenated(tokens[..i])|);
    bests := seq(|tokens| + 1, i requires 0 <= i <= |tokens| => ClosestEnd(tokens[..i], start, target));
    forall i | 0 <= i < |tokens|
      ensures ends[i + 1] == ends[i] + |tokens[i]| <= start + |Concatenated(tokens)|
      ensures bests[i + 1] == Nearer(bests[i], ends[i + 1], target)
    {
      ScanStep(tokens, start, target, i, i + 1, ends[i], bests[i], ends[i + 1], bests[i + 1]);
    }
    assert tokens[..|tokens|] == tokens;
  }

  method ScanWords(tokens: seq<string>, start: nat, target: nat, window: nat) returns (best: int)
    requires forall t :: t in tokens ==> t != ""
    requires start >= target - window && (tokens == [] || start + |Concatenated(tokens)| <= target + window)
    ensures var closest := ClosestEnd(tokens, start, target);
            best == if closest.Some? then closest.value else -1
  {
    best := -1;
    var pos, bestDist, i := start, window + 1, 0;
    ghost var ends, bests := ScanTable(tokens, start, target);
    while i < |tokens|
      invariant 0 <= i <= |tokens| && start <= pos == ends[i]
      invariant if bests[i].None? then best == -1 && bestDist == window + 1
                else best == bests[i].value && bestDist == Abs(bests[i].value - target)
    {
      pos := pos + |tokens[i]|;
      var dist := Abs(pos - target);
      if dist < bestDist {
        bestDist := dist;
        best := pos;
      }
      i := i + 1;
    }
  }

  lemma {:induction false} EndsAreInside(tokens: seq<string>, n: nat)
    requires n <= |tokens|
    ensures |Concatenated(tokens[..n])| <= |Concatenated(tokens)|
  {
    if n < |tokens| {
      EndsAreInside(tokens[..|tokens| - 1], n);
      assert tokens[..|tokens| - 1][..n] == tokens[..n];
    } else {
      assert tokens[..n] == tokens;
    }
  }
}
