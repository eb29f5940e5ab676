/** Token estimates, truncation of texts and trimming of a message list to a budget. */
module ContextBudget {
  import opened Options

  // ---- Estimates ----

  /** Characters above the CJK radicals count as one token, four others as one. */
  predicate IsWide(c: char) {
    c as int > 0x2E80
  }

  function WideCount(text: string): (n: nat)
    ensures n <= |text|
  {
    if text == "" then 0 else WideCount(text[..|text| - 1]) + (if IsWide(text[|text| - 1]) then 1 else 0)
  }

  function EstimateTokens(text: string): nat {
    WideCount(text) + (|text| - WideCount(text) + 3) / 4
  }

  lemma {:induction false} WideCountAppend(a: string, b: string)
    ensures WideCount(a + b) == WideCount(a) + WideCount(b)
  {
    if b == "" {
      assert a + b == a;
    } else {
      WideCountAppend(a, b[..|b| - 1]);
      assert (a + b)[..|a + b| - 1] == a + b[..|b| - 1];
    }
  }

  /** Joining texts never costs more than its parts, nor less than either. */
  lemma EstimateAppend(a: string, b: string)
    ensures EstimateTokens(a) <= EstimateTokens(a + b) <= EstimateTokens(a) + EstimateTokens(b)
    ensures EstimateTokens(b) <= EstimateTokens(a + b)
  {
    WideCountAppend(a, b);
  }

  lemma EstimateMonotone(text: string, k: nat, n: nat)
    requires k <= n <= |text|
    ensures EstimateTokens(text[..k]) <= EstimateTokens(text[..n])
  {
    assert text[..n] == text[..k] + text[k..n];
    EstimateAppend(text[..k], text[k..n]);
  }

  lemma EstimateZero(text: string)
    ensures EstimateTokens(text) == 0 <==> text == ""
  {
  }

  // ---- Truncation ----

  const MARKER := "\n…[内容已截断]"
  const MARKER_TOKENS := 6

  lemma WideCountSnoc(text: string, c: char)
    ensures WideCount(text + [c]) == WideCount(text) + (if IsWide(c) then 1 else 0)
  {
    assert (text + [c])[..|text|] == text;
  }

  lemma MarkerEstimate()
    ensures EstimateTokens(MARKER) == MARKER_TOKENS
  {
    WideCountSnoc("", '\n');
    assert "" + ['\n'] == "\n";
    WideCountSnoc("\n", '…');
    assert "\n" + ['…'] == "\n…";
    WideCountSnoc("\n…", '[');
    assert "\n…" + ['['] == "\n…[";
    WideCountSnoc("\n…[", '内');
    assert "\n…[" + ['内'] == "\n…[内";
    WideCountSnoc("\n…[内", '容');
    assert "\n…[内" + ['容'] == "\n…[内容";
    WideCountSnoc("\n…[内容", '已');
    assert "\n…[内容" + ['已'] == "\n…[内容已";
    WideCountSnoc("\n…[内容已", '截');
    assert "\n…[内容已" + ['截'] == "\n…[内容已截";
    WideCountSnoc("\n…[内容已截", '断');
    assert "\n…[内容已截" + ['断'] == "\n…[内容已截断";
    WideCountSnoc("\n…[内容已截断", ']');
    assert "\n…[内容已截断" + [']'] == "\n…[内容已截断]";
  }

  function Max(a: int, b: int): int {
    if a >= b then a else b
  }

  function LongestFit(text: string, budget: nat, n: nat): (k: nat)
    requires n <= |text|
    ensures k <= n && EstimateTokens(text[..k]) <= budget
  {
    if EstimateTokens(text[..n]) <= budget then n
    else
      assert n > 0 by { if n == 0 { EstimateZero(text[..0]); } }
      LongestFit(text, budget, n - 1)
  }

  lemma {:induction false} LongestFitIsMaximal(text: string, budget: nat, n: nat, k: nat)
    requires n <= |text| && LongestFit(text, budget, n) < k <= n
    ensures EstimateTokens(text[..k]) > budget
  {
    if k < n {
      LongestFitIsMaximal(text, budget, n - 1, k);
    }
  }

  /** The marker is dropped when it alone would exceed the limit. */
  function MarkerFor(limit: nat): string {
    if MARKER_TOKENS > limit then "" else MARKER
  }

  function ContentBudget(limit: nat): nat {
    if MARKER_TOKENS > limit then limit else limit - MARKER_TOKENS
  }

  function Truncated(text: string, maxTokens: int): string {
    if EstimateTokens(text) <= maxTokens then text
    else
      var limit: nat := Max(0, maxTokens);
      text[..LongestFit(text, ContentBudget(limit), |text|)] + MarkerFor(limit)
  }

  /** A binary search for the longest prefix within the budget. */
  method LongestPrefix(text: string, budget: nat) returns (lo: nat)
    ensures lo == LongestFit(text, budget, |text|)
  {
    var hi;
    lo, hi := 0, |text|;
    EstimateZero(text[..0]);
    while lo < hi
      invariant 0 <= lo <= hi <= |text|
      invariant EstimateTokens(text[..lo]) <= budget
      invariant forall k :: hi < k <= |text| ==> EstimateTokens(text[..k]) > budget
    {
      var mid := (lo + hi + 1) / 2;
      if EstimateTokens(text[..mid]) <= budget {
        lo := mid;
      } else {
        forall k | mid - 1 < k <= |text| ensures EstimateTokens(text[..k]) > budget {
          EstimateMonotone(text, mid, k);
        }
        hi := mid - 1;
      }
    }
    ghost var best := LongestFit(text, budget, |text|);
    if best < lo {
      LongestFitIsMaximal(text, budget, |text|, lo);
    }
  }

  lemma MarkerCosts(limit: nat)
    ensures MarkerFor(limit) == if EstimateTokens(MARKER) > limit then "" else MARKER
    ensures limit - EstimateTokens(MarkerFor(limit)) == ContentBudget(limit)
  {
    MarkerEstimate();
    EstimateZero("");
  }

  method TruncateText(text: string, maxTokens: int) returns (r: string)
    ensures r == Truncated(text, maxTokens)
  {
    if EstimateTokens(text) <= maxTokens {
      return text;
    }
    var limit: nat := Max(0, maxTokens);
    MarkerCosts(limit);
    var marker := MARKER;
    if EstimateTokens(marker) > limit {
      marker := "";
    }
    var contentBudget := limit - EstimateTokens(marker);
    var kept := LongestPrefix(text, contentBudget);
    r := text[..kept] + marker;
  }

  /** `r` is a prefix of the text followed by the marker, or by nothing if the marker alone is too long. */
  predicate IsMarkedPrefix(text: string, maxTokens: int, r: string) {
    var marker := if maxTokens >= MARKER_TOKENS then MARKER else "";
    |marker| <= |r| <= |text| + |marker| && r == text[..|r| - |marker|] + marker
  }

  /** A truncated text fits its budget; a text that fits is returned unchanged, any other is cut
      and marked. */
  lemma TruncationFits(text: string, maxTokens: int)
    ensures EstimateTokens(Truncated(text, maxTokens)) <= Max(0, maxTokens)
    ensures EstimateTokens(text) <= maxTokens ==> Truncated(text, maxTokens) == text
    ensures EstimateTokens(text) > maxTokens ==> IsMarkedPrefix(text, maxTokens, Truncated(text, maxTokens))
  {
    if EstimateTokens(text) > maxTokens {
      var limit: nat := Max(0, maxTokens);
      MarkerEstimate();
      EstimateAppend(text[..LongestFit(text, ContentBudget(limit), |text|)], MarkerFor(limit));
    }
  }

  /** A text that is cut keeps the longest prefix whose estimate leaves room for the marker. */
  lemma TruncationIsMaximal(text: string, maxTokens: int, k: nat)
    requires EstimateTokens(text) > maxTokens && k <= |text|
    requires |Truncated(text, maxTokens)| < k + |MarkerFor(Max(0, maxTokens))|
    ensures EstimateTokens(text[..k]) + EstimateTokens(MarkerFor(Max(0, maxTokens))) > Max(0, maxTokens)
  {
    MarkerEstimate();
    LongestFitIsMaximal(text, ContentBudget(Max(0, maxTokens)), |text|, k);
  }

  /** `r` is the longest prefix of the text that leaves room for the marker, and the marker. */
  ghost predicate IsLongestMarkedPrefix(text: string, limit: nat, r: string) {
    exists k: nat ::
      && k <= |text| && r == text[..k] + MARKER && EstimateTokens(text[..k]) + MARKER_TOKENS <= limit
      && forall j :: k < j <= |text| ==> EstimateTokens(text[..j]) + MARKER_TOKENS > limit
  }

  /** A text is shown whole if it fits and else as its longest marked prefix. */
  ghost predicate Shows(text: string, limit: nat, r: string) {
    if EstimateTokens(text) <= limit then r == text else IsLongestMarkedPrefix(text, limit, r)
  }

  lemma TruncationShows(text: string, limit: nat)
    requires limit >= MARKER_TOKENS
    ensures Shows(text, limit, Truncated(text, limit))
  {
    if EstimateTokens(text) > limit {
      var k := LongestFit(text, limit - MARKER_TOKENS, |text|);
      forall j | k < j <= |text| ensures EstimateTokens(text[..j]) + MARKER_TOKENS > limit {
        LongestFitIsMaximal(text, limit - MARKER_TOKENS, |text|, j);
      }
      assert Truncated(text, limit) == text[..k] + MARKER;
    }
  }

  /** Asking for e tokens less cuts at least e tokens, or everything. */
  lemma TruncationCuts(text: string, e: int)
    requires e > 0
    ensures var r := Truncated(text, Max(0, EstimateTokens(text) - e));
            && EstimateTokens(r) <= Max(0, EstimateTokens(text) - e)
            && (e >= EstimateTokens(text) ==> r == "")
  {
    TruncationFits(text, Max(0, EstimateTokens(text) - e));
    EstimateZero(Truncated(text, Max(0, EstimateTokens(text) - e)));
  }

  // ---- Messages ----

  datatype Role = System | User | Assistant | Tool

  /** `calls` holds the ids of an assistant's tool calls and `callsText` their serialized
      form; `replyTo` is the call id a tool message answers, or empty. */
  datatype Message = Message(role: Role, content: string, calls: seq<string>, callsText: string, replyTo: string)

  predicate MakesCalls(m: Message) {
    m.role.Assistant? && m.calls != []
  }

  function MessageTokens(m: Message): nat {
    EstimateTokens(m.content) + 4
    + (if m.calls != [] then EstimateTokens(m.callsText) else 0)
    + (if m.replyTo != "" then EstimateTokens(m.replyTo) else 0)
  }

  function Total(messages: seq<Message>): nat {
    if messages == [] then 0 else MessageTokens(messages[0]) + Total(messages[1..])
  }

  /** The serialized tool schemas; empty when the agent has none. */
  function SchemaTokens(tools: string): nat {
    if tools == "" then 0 else EstimateTokens(tools) + 4
  }

  function EstimateInputTokens(messages: seq<Message>, tools: string): nat {
    Total(messages) + SchemaTokens(tools)
  }

  lemma {:induction false} TotalAppend(a: seq<Message>, b: seq<Message>)
    ensures Total(a + b) == Total(a) + Total(b)
  {
    if a == [] {
      assert a + b == b;
    } else {
      TotalAppend(a[1..], b);
      assert (a + b)[1..] == a[1..] + b;
    }
  }

  // ---- Groups ----

  function HeadLength(messages: seq<Message>): (n: nat)
    ensures n <= |messages| && forall k :: 0 <= k < n ==> messages[k].role.System?
    ensures n < |messages| ==> !messages[n].role.System?
  {
    if messages != [] && messages[0].role.System? then 1 + HeadLength(messages[1..]) else 0
  }

  function ReplyCount(messages: seq<Message>): (n: nat)
    ensures n <= |messages| && forall k :: 0 <= k < n ==> messages[k].role.Tool?
    ensures n < |messages| ==> !messages[n].role.Tool?
  {
    if messages != [] && messages[0].role.Tool? then 1 + ReplyCount(messages[1..]) else 0
  }

  /** The length of the unit that starts a list: a tool-call message with the tool
      messages behind it, or a single message. */
  function UnitLength(messages: seq<Message>): (n: nat)
    requires messages != []
    ensures 1 <= n <= |messages|
  {
    if MakesCalls(messages[0]) then 1 + ReplyCount(messages[1..]) else 1
  }

  ghost predicate Units(groups: seq<seq<Message>>) {
    forall i :: 0 <= i < |groups| ==> groups[i] != []
  }

  function Groups(messages: seq<Message>): (gs: seq<seq<Message>>)
    ensures Units(gs)
  {
    if messages == [] then []
    else [messages[..UnitLength(messages)]] + Groups(messages[UnitLength(messages)..])
  }

  function BodyGroups(messages: seq<Message>): (gs: seq<seq<Message>>)
    ensures Units(gs)
  {
    Groups(messages[HeadLength(messages)..])
  }

  function Head(messages: seq<Message>): seq<Message> {
    messages[..HeadLength(messages)]
  }

  function LastUserGroup(groups: seq<seq<Message>>): (k: Option<nat>)
    requires Units(groups)
    ensures k.Some? ==> k.value < |groups| && groups[k.value][0].role.User?
    ensures forall j :: (if k.Some? then k.value + 1 else 0) <= j < |groups| ==> !groups[j][0].role.User?
  {
    if groups == [] then None
    else if groups[|groups| - 1][0].role.User? then Some(|groups| - 1)
    else LastUserGroup(groups[..|groups| - 1])
  }

  /** The final group and the group of the current request. */
  function Required(groups: seq<seq<Message>>): (r: set<nat>)
    requires Units(groups)
    ensures forall i :: i in r ==> i < |groups|
  {
    (if groups == [] then {} else {|groups| - 1})
    + (if LastUserGroup(groups).Some? then {LastUserGroup(groups).value} else {})
  }

  // ---- Kept groups ----

  type Kept = map<nat, seq<Message>>

  function GroupAt(kept: Kept, i: nat): seq<Message> {
    if i in kept then kept[i] else []
  }

  /** The kept groups from index lo up to hi, in order. */
  function Gather(kept: Kept, lo: nat, hi: nat): seq<Message>
    decreases hi - lo
  {
    if lo >= hi then [] else GroupAt(kept, lo) + Gather(kept, lo + 1, hi)
  }

  lemma {:induction false} GatherSame(a: Kept, b: Kept, lo: nat, hi: nat)
    requires forall i :: lo <= i < hi ==> GroupAt(a, i) == GroupAt(b, i)
    ensures Gather(a, lo, hi) == Gather(b, lo, hi)
    decreases hi - lo
  {
    if lo < hi {
      assert GroupAt(a, lo) == GroupAt(b, lo);
      GatherSame(a, b, lo + 1, hi);
    }
  }

  lemma {:induction false} GatherUpdate(kept: Kept, i: nat, g: seq<Message>, lo: nat, hi: nat)
    requires lo <= i < hi
    ensures Total(Gather(kept[i := g], lo, hi)) == Total(Gather(kept, lo, hi)) - Total(GroupAt(kept, i)) + Total(g)
    decreases hi - lo
  {
    var after := kept[i := g];
    TotalAppend(GroupAt(kept, lo), Gather(kept, lo + 1, hi));
    TotalAppend(GroupAt(after, lo), Gather(after, lo + 1, hi));
    if lo == i {
      GatherSame(kept, after, lo + 1, hi);
    } else {
      GatherUpdate(kept, i, g, lo + 1, hi);
    }
  }

  // ---- Shortening tool messages ----

  function EmptiedMessage(m: Message): Message {
    if m.role.Tool? then m.(content := "") else m
  }

  function Emptied(g: seq<Message>): (r: seq<Message>)
    ensures |r| == |g|
  {
    seq(|g|, k requires 0 <= k < |g| => EmptiedMessage(g[k]))
  }

  /** The text itself or a prefix of it, perhaps with the truncation marker. */
  ghost predicate CutOf(text: string, r: string) {
    r == text || exists k: nat :: k <= |text| && (r == text[..k] || r == text[..k] + MARKER)
  }

  /** Only the content of a tool message may be shortened. */
  ghost predicate ShortenedMessage(m: Message, short: Message) {
    short == m || (m.role.Tool? && short == m.(content := short.content) && CutOf(m.content, short.content))
  }

  ghost predicate Shortened(g: seq<Message>, short: seq<Message>) {
    |short| == |g| && forall k :: 0 <= k < |g| ==> ShortenedMessage(g[k], short[k])
  }

  lemma {:induction false} TotalUpdate(g: seq<Message>, pos: nat, m: Message)
    requires pos < |g|
    ensures Total(g[pos := m]) == Total(g) - MessageTokens(g[pos]) + MessageTokens(m)
  {
    if pos == 0 {
      assert g[0 := m][1..] == g[1..];
    } else {
      TotalUpdate(g[1..], pos - 1, m);
      assert g[pos := m][1..] == g[1..][pos - 1 := m];
    }
  }

  lemma {:induction false} EmptiedIsCheapest(g: seq<Message>, short: seq<Message>)
    requires Shortened(g, short)
    ensures Total(Emptied(g)) <= Total(short)
  {
    if g != [] {
      assert forall k :: 0 <= k < |g[1..]| ==> g[1..][k] == g[k + 1] && short[1..][k] == short[k + 1];
      assert Emptied(g)[1..] == Emptied(g[1..]);
      EmptiedIsCheapest(g[1..], short[1..]);
      assert ShortenedMessage(g[0], short[0]);
    }
  }

  function CutBy(m: Message, excess: int): Message {
    m.(content := Truncated(m.content, Max(0, EstimateTokens(m.content) - excess)))
  }

  /** Cuts a tool message by the excess; what remains removes the excess or is empty. */
  method ShortenMessage(m: Message, excess: int) returns (r: Message)
    requires m.role.Tool? && excess > 0
    ensures r == CutBy(m, excess) && ShortenedMessage(m, r)
    ensures MessageTokens(r) <= MessageTokens(m) - excess || r == EmptiedMessage(m)
  {
    var target := Max(0, EstimateTokens(m.content) - excess);
    var content := TruncateText(m.content, target);
    TruncationFits(m.content, target);
    EstimateZero(content);
    r := m.(content := content);
  }

  /** The group with the tool messages before `pos` emptied. */
  function EmptiedUpTo(g: seq<Message>, pos: nat): (r: seq<Message>)
    requires pos <= |g|
    ensures |r| == |g|
  {
    Emptied(g[..pos]) + g[pos..]
  }

  /** The group is cut no more than needed: with the tool messages before `pos` emptied it was
      still too long, the one at `pos` is cut by what was too much, and the rest is untouched. */
  ghost predicate CutAt(g: seq<Message>, pos: nat, rest: int, limit: int, r: seq<Message>) {
    && pos < |g| && g[pos].role.Tool?
    && var excess := rest + Total(EmptiedUpTo(g, pos)) - limit;
    && excess > 0 && r == EmptiedUpTo(g, pos)[pos := CutBy(g[pos], excess)]
    && rest + Total(r) <= limit
  }

  lemma EmptiesOneMore(g: seq<Message>, pos: nat)
    requires pos < |g|
    ensures EmptiedUpTo(g, pos + 1) == EmptiedUpTo(g, pos)[pos := EmptiedMessage(g[pos])]
    ensures EmptiedUpTo(g, pos)[pos] == g[pos]
  {
  }

  lemma EmptyingShortens(g: seq<Message>, pos: nat)
    requires pos <= |g|
    ensures Shortened(g, EmptiedUpTo(g, pos))
  {
    forall k | 0 <= k < pos ensures ShortenedMessage(g[k], EmptiedUpTo(g, pos)[k]) {
      assert g[k].content[..0] == "";
    }
  }

  lemma CutShortens(g: seq<Message>, pos: nat, shorter: Message)
    requires pos < |g| && ShortenedMessage(g[pos], shorter)
    ensures Shortened(g, EmptiedUpTo(g, pos)[pos := shorter])
  {
    EmptyingShortens(g, pos);
  }

  lemma CutIsMade(g: seq<Message>, pos: nat, rest: int, limit: int, before: seq<Message>, excess: int)
    requires pos < |g| && g[pos].role.Tool? && before == EmptiedUpTo(g, pos) && excess == rest + Total(before) - limit > 0
    requires rest + Total(before[pos := CutBy(g[pos], excess)]) <= limit
    ensures CutAt(g, pos, rest, limit, before[pos := CutBy(g[pos], excess)])
  {
  }

  /** Shortens a group, oldest message first, until the whole list fits beside `rest` other
      tokens, or every tool message in it is empty. */
  method ShrinkGroup(group: seq<Message>, rest: int, limit: int) returns (r: seq<Message>, ghost at: nat)
    requires rest + Total(group) > limit
    ensures Shortened(group, r)
    ensures rest + Total(r) <= limit ==> CutAt(group, at, rest, limit, r)
    ensures rest + Total(r) > limit ==> r == Emptied(group)
  {
    r, at := group, 0;
    for pos := 0 to |group|
      invariant r == EmptiedUpTo(group, pos) && rest + Total(r) > limit
    {
      EmptiesOneMore(group, pos);
      if r[pos].role.Tool? {
        var excess := rest + Total(r) - limit;
        var shorter := ShortenMessage(r[pos], excess);
        TotalUpdate(r, pos, shorter);
        ghost var before := r;
        r := r[pos := shorter];
        if rest + Total(r) <= limit {
          CutShortens(group, pos, shorter);
          CutIsMade(group, pos, rest, limit, before, excess);
          at := pos;
          return;
        }
      }
    }
    EmptyingShortens(group, |group|);
    assert group[..|group|] == group;
  }

  // ---- Trimming ----

  datatype Trimmed = Within(messages: seq<Message>) | BudgetExceeded

  function RequiredOnly(groups: seq<seq<Message>>): (kept: Kept)
    requires Units(groups)
    ensures kept.Keys == Required(groups)
  {
    map i | i in Required(groups) :: groups[i]
  }

  function AllEmptied(kept: Kept): (r: Kept)
    ensures r.Keys == kept.Keys
  {
    map i | i in kept :: Emptied(kept[i])
  }

  /** The least that any trimming can cost: the system head and the required groups
      with every tool message emptied. */
  function LeastTokens(messages: seq<Message>, tools: string): nat {
    var groups := BodyGroups(messages);
    Total(Head(messages)) + KeptTokens(AllEmptied(RequiredOnly(groups)), |groups|) + SchemaTokens(tools)
  }

  ghost predicate ShortenedGroups(groups: seq<seq<Message>>, kept: Kept)
    requires Units(groups)
  {
    && kept.Keys == Required(groups)
    && forall i :: i in kept ==> Shortened(groups[i], kept[i])
  }

  lemma {:induction false} LeastIsLeast(groups: seq<seq<Message>>, kept: Kept, lo: nat)
    requires Units(groups) && ShortenedGroups(groups, kept) && lo <= |groups|
    ensures Total(Gather(AllEmptied(RequiredOnly(groups)), lo, |groups|)) <= Total(Gather(kept, lo, |groups|))
    decreases |groups| - lo
  {
    if lo < |groups| {
      var least := AllEmptied(RequiredOnly(groups));
      LeastIsLeast(groups, kept, lo + 1);
      TotalAppend(GroupAt(least, lo), Gather(least, lo + 1, |groups|));
      TotalAppend(GroupAt(kept, lo), Gather(kept, lo + 1, |groups|));
      if lo in kept { EmptiedIsCheapest(groups[lo], kept[lo]); }
    }
  }

  /** The required groups with those before `idx` emptied and the others untouched. */
  ghost predicate EmptiedBefore(groups: seq<seq<Message>>, kept: Kept, idx: nat)
    requires Units(groups)
  {
    && kept.Keys == Required(groups)
    && forall i :: i in kept ==> kept[i] == if i < idx then Emptied(groups[i]) else groups[i]
  }

  lemma EmptiedIsShortened(groups: seq<seq<Message>>, kept: Kept, idx: nat)
    requires Units(groups) && EmptiedBefore(groups, kept, idx)
    ensures ShortenedGroups(groups, kept)
  {
    forall i | i in kept ensures Shortened(groups[i], kept[i]) {
      forall k | 0 <= k < |groups[i]| ensures ShortenedMessage(groups[i][k], kept[i][k]) {
        assert groups[i][k].content[..0] == "";
      }
    }
  }

  function KeptTokens(kept: Kept, n: nat): nat {
    Total(Gather(kept, 0, n))
  }

  lemma OneMoreEmptied(groups: seq<seq<Message>>, kept: Kept, idx: nat, group: seq<Message>)
    requires Units(groups) && EmptiedBefore(groups, kept, idx) && idx in kept
    requires Shortened(groups[idx], group)
    ensures ShortenedGroups(groups, kept[idx := group])
    ensures group == Emptied(groups[idx]) ==> EmptiedBefore(groups, kept[idx := group], idx + 1)
  {
    EmptiedIsShortened(groups, kept, idx);
  }

  lemma NothingToEmpty(groups: seq<seq<Message>>, kept: Kept, idx: nat)
    requires Units(groups) && EmptiedBefore(groups, kept, idx) && idx !in kept
    ensures EmptiedBefore(groups, kept, idx + 1)
  {
  }

  /** What the list takes besides group i. */
  function RestBeside(groups: seq<seq<Message>>, i: nat, base: int, kept: Kept): int
    requires i < |groups|
  {
    base + KeptTokens(kept[i := groups[i]], |groups|) - Total(groups[i])
  }

  /** The required groups are cut no more than needed: those before `i` are emptied, those
      behind it untouched, and the one at `i` is cut by what was still too much. */
  ghost predicate CutsAt(groups: seq<seq<Message>>, i: nat, pos: nat, base: int, limit: int, kept: Kept)
    requires Units(groups)
  {
    && kept.Keys == Required(groups) && i in kept
    && (forall j :: j in kept && j < i ==> kept[j] == Emptied(groups[j]))
    && (forall j :: j in kept && j > i ==> kept[j] == groups[j])
    && CutAt(groups[i], pos, RestBeside(groups, i, base, kept), limit, kept[i])
  }

  /** What is kept of the required groups: all of it if that fits, and else cuts no more than needed. */
  ghost predicate NeededAt(groups: seq<seq<Message>>, base: int, limit: int, kept: Kept, i: nat, pos: nat)
    requires Units(groups)
  {
    if base + KeptTokens(RequiredOnly(groups), |groups|) <= limit then kept == RequiredOnly(groups)
    else CutsAt(groups, i, pos, base, limit, kept)
  }

  lemma RestOfUpdate(groups: seq<seq<Message>>, kept: Kept, idx: nat, group: seq<Message>, base: int)
    requires idx < |groups| && idx in kept && kept[idx] == groups[idx]
    ensures RestBeside(groups, idx, base, kept[idx := group]) == base + KeptTokens(kept, |groups|) - Total(kept[idx])
  {
    assert kept[idx := group][idx := groups[idx]] == kept;
  }

  lemma ShrunkCutsAt(groups: seq<seq<Message>>, kept: Kept, idx: nat, group: seq<Message>, base: int, limit: int, pos: nat,
                     rest: int, r: Kept)
    requires Units(groups) && EmptiedBefore(groups, kept, idx) && idx in kept && r == kept[idx := group]
    requires rest == RestBeside(groups, idx, base, r) && CutAt(groups[idx], pos, rest, limit, group)
    ensures CutsAt(groups, idx, pos, base, limit, r)
  {
  }

  /** Shortens the group at idx; the list then fits, or the group is emptied. */
  method ShrinkAt(groups: seq<seq<Message>>, kept: Kept, idx: nat, base: int, limit: int)
      returns (r: Kept, ghost at: nat)
    requires Units(groups) && EmptiedBefore(groups, kept, idx) && idx in kept
    requires base + KeptTokens(kept, |groups|) > limit
    ensures ShortenedGroups(groups, r)
    ensures base + KeptTokens(r, |groups|) <= limit ==> CutsAt(groups, idx, at, base, limit, r)
    ensures base + KeptTokens(r, |groups|) > limit ==> EmptiedBefore(groups, r, idx + 1)
  {
    var rest := base + KeptTokens(kept, |groups|) - Total(kept[idx]);
    var group;
    group, at := ShrinkGroup(kept[idx], rest, limit);
    GatherUpdate(kept, idx, group, 0, |groups|);
    OneMoreEmptied(groups, kept, idx, group);
    r := kept[idx := group];
    if rest + Total(group) <= limit {
      RestOfUpdate(groups, kept, idx, group, base);
      ShrunkCutsAt(groups, kept, idx, group, base, limit, at, rest, r);
    }
  }

  lemma AllAreEmptied(groups: seq<seq<Message>>, kept: Kept)
    requires Units(groups) && EmptiedBefore(groups, kept, |groups|)
    ensures ShortenedGroups(groups, kept) && kept == AllEmptied(RequiredOnly(groups))
  {
    EmptiedIsShortened(groups, kept, |groups|);
  }

  /** Empties tool results group by group until the rest fits. */
  method ShrinkOverfull(groups: seq<seq<Message>>, required: Kept, base: int, limit: int)
      returns (kept: Kept, ghost i: nat, ghost pos: nat)
    requires Units(groups) && required == RequiredOnly(groups) && base + KeptTokens(required, |groups|) > limit
    ensures ShortenedGroups(groups, kept)
    ensures base + KeptTokens(kept, |groups|) <= limit ==> CutsAt(groups, i, pos, base, limit, kept)
    ensures base + KeptTokens(kept, |groups|) > limit ==> kept == AllEmptied(required)
  {
    kept, i, pos := required, 0, 0;
    EmptiedIsShortened(groups, kept, 0);
    for idx := 0 to |groups|
      invariant EmptiedBefore(groups, kept, idx)
      invariant base + KeptTokens(kept, |groups|) > limit
    {
      if idx in kept {
        ghost var at: nat;
        kept, at := ShrinkAt(groups, kept, idx, base, limit);
        if base + KeptTokens(kept, |groups|) <= limit {
          i, pos := idx, at;
          return;
        }
      } else {
        NothingToEmpty(groups, kept, idx);
      }
    }
    AllAreEmptied(groups, kept);
  }

  /** Shortens the required groups, oldest first, as far as the limit asks for. */
  method ShrinkRequired(groups: seq<seq<Message>>, base: int, limit: int) returns (kept: Kept, ghost i: nat, ghost pos: nat)
    requires Units(groups)
    ensures ShortenedGroups(groups, kept)
    ensures base + KeptTokens(kept, |groups|) <= limit ==> NeededAt(groups, base, limit, kept, i, pos)
    ensures base + KeptTokens(RequiredOnly(groups), |groups|) <= limit ==> kept == RequiredOnly(groups)
    ensures base + KeptTokens(kept, |groups|) > limit ==> kept == AllEmptied(RequiredOnly(groups))
  {
    kept, i, pos := RequiredOnly(groups), 0, 0;
    EmptiedIsShortened(groups, kept, 0);
    if base + KeptTokens(kept, |groups|) > limit {
      kept, i, pos := ShrinkOverfull(groups, kept, base, limit);
    }
  }

  /** What a trimming keeps: the required groups, possibly shortened, and all groups from `cut` on. */
  ghost predicate Keeps(messages: seq<Message>, kept: Kept, cut: nat) {
    var groups := BodyGroups(messages);
    && cut <= |groups|
    && (forall i :: i in kept <==> i < |groups| && (i in Required(groups) || cut <= i))
    && (forall i :: i in kept ==>
          if i in Required(groups) then Shortened(groups[i], kept[i]) else kept[i] == groups[i])
  }

  function Assembled(messages: seq<Message>, kept: Kept): seq<Message> {
    Head(messages) + Gather(kept, 0, |BodyGroups(messages)|)
  }

  ghost predicate IsTrimming(messages: seq<Message>, limit: int, tools: string, r: seq<Message>, kept: Kept, cut: nat) {
    var groups := BodyGroups(messages);
    && Keeps(messages, kept, cut) && r == Assembled(messages, kept)
    && EstimateInputTokens(r, tools) <= limit
    && (EstimateInputTokens(Assembled(messages, RequiredOnly(groups)), tools) <= limit ==>
          forall i :: i in kept ==> kept[i] == groups[i])
    && (cut > 0 ==>
          cut - 1 !in Required(groups) && EstimateInputTokens(r, tools) + Total(groups[cut - 1]) > limit)
  }

  /** The required part is kept as it is whenever that fits. */
  ghost predicate VerbatimIfFits(groups: seq<seq<Message>>, kept: Kept, base: int, limit: int)
    requires Units(groups)
  {
    base + KeptTokens(RequiredOnly(groups), |groups|) <= limit ==>
      forall i :: i in kept && i < |groups| ==> kept[i] == groups[i]
  }

  lemma KeepsAdded(messages: seq<Message>, kept: Kept, cut: nat, next: nat)
    requires Keeps(messages, kept, cut) && next + 1 == cut && next !in Required(BodyGroups(messages))
    ensures next !in kept && Keeps(messages, kept[next := BodyGroups(messages)[next]], next)
  {
  }

  lemma KeepsRequired(messages: seq<Message>, kept: Kept, cut: nat, next: nat)
    requires Keeps(messages, kept, cut) && next + 1 == cut && next in Required(BodyGroups(messages))
    ensures Keeps(messages, kept, next)
  {
  }

  lemma VerbatimStays(groups: seq<seq<Message>>, kept: Kept, i: nat, base: int, limit: int)
    requires Units(groups) && VerbatimIfFits(groups, kept, base, limit) && i < |groups|
    ensures VerbatimIfFits(groups, kept[i := groups[i]], base, limit)
  {
  }

  /** What adding groups keeps: the required groups as they were cut, and all groups from `cut` on. */
  ghost predicate Added(messages: seq<Message>, shrunk: Kept, kept: Kept, cut: nat, base: int, limit: int) {
    && Keeps(messages, kept, cut) && VerbatimIfFits(BodyGroups(messages), kept, base, limit)
    && forall i :: i in shrunk ==> i in kept && kept[i] == shrunk[i]
  }

  lemma AddOneMore(messages: seq<Message>, shrunk: Kept, kept: Kept, cut: nat, next: nat, base: int, limit: int)
    requires next + 1 == cut && Added(messages, shrunk, kept, cut, base, limit)
    ensures next < |BodyGroups(messages)|
    ensures next in Required(BodyGroups(messages)) ==> Added(messages, shrunk, kept, next, base, limit)
    ensures next !in Required(BodyGroups(messages)) ==>
              var groups := BodyGroups(messages);
              var more := kept[next := groups[next]];
              && Added(messages, shrunk, more, next, base, limit)
              && KeptTokens(more, |groups|) == KeptTokens(kept, |groups|) + Total(groups[next])
  {
    var groups := BodyGroups(messages);
    if next in Required(groups) {
      KeepsRequired(messages, kept, cut, next);
    } else {
      KeepsAdded(messages, kept, cut, next);
      GatherUpdate(kept, next, groups[next], 0, |groups|);
      VerbatimStays(groups, kept, next, base, limit);
    }
  }

  /** Adds recent groups, newest first, until one does not fit. */
  method AddRecent(messages: seq<Message>, shrunk: Kept, base: int, limit: int) returns (keep: Kept, cut: nat)
    requires Keeps(messages, shrunk, |BodyGroups(messages)|)
    requires base + KeptTokens(shrunk, |BodyGroups(messages)|) <= limit
    requires VerbatimIfFits(BodyGroups(messages), shrunk, base, limit)
    ensures Keeps(messages, keep, cut) && base + KeptTokens(keep, |BodyGroups(messages)|) <= limit
    ensures VerbatimIfFits(BodyGroups(messages), keep, base, limit)
    ensures forall i :: i in shrunk ==> i in keep && keep[i] == shrunk[i]
    ensures cut > 0 ==>
              cut - 1 !in Required(BodyGroups(messages)) &&
              base + KeptTokens(keep, |BodyGroups(messages)|) + Total(BodyGroups(messages)[cut - 1]) > limit
  {
    var groups := BodyGroups(messages);
    keep, cut := shrunk, |groups|;
    var budget := limit - (base + KeptTokens(keep, |groups|));
    while cut > 0
      invariant cut <= |groups| && Added(messages, shrunk, keep, cut, base, limit)
      invariant budget == limit - (base + KeptTokens(keep, |groups|)) && budget >= 0
    {
      var next: nat := cut - 1;
      AddOneMore(messages, shrunk, keep, cut, next, base, limit);
      if next !in Required(groups) {
        var cost := Total(groups[next]);
        if cost > budget {
          return;
        }
        keep := keep[next := groups[next]];
        budget := budget - cost;
      }
      cut := next;
    }
  }

  /** What a list takes besides its groups. */
  function BaseTokens(messages: seq<Message>, tools: string): nat {
    Total(Head(messages)) + SchemaTokens(tools)
  }

  /** The required groups of the list are cut no more than needed. */
  ghost predicate NeededCuts(messages: seq<Message>, limit: int, tools: string, shrunk: Kept) {
    exists i: nat, pos: nat :: NeededAt(BodyGroups(messages), BaseTokens(messages, tools), limit, shrunk, i, pos)
  }

  lemma CutsAreNeeded(messages: seq<Message>, limit: int, tools: string, shrunk: Kept, groups: seq<seq<Message>>, base: int,
                      i: nat, pos: nat)
    requires groups == BodyGroups(messages) && base == BaseTokens(messages, tools)
    requires Units(groups) && NeededAt(groups, base, limit, shrunk, i, pos)
    ensures NeededCuts(messages, limit, tools, shrunk)
  {
    assert NeededAt(BodyGroups(messages), BaseTokens(messages, tools), limit, shrunk, i, pos);
  }

  lemma TrimmingIsMade(messages: seq<Message>, limit: int, tools: string, keep: Kept, cut: nat)
    requires var groups, base := BodyGroups(messages), Total(Head(messages)) + SchemaTokens(tools);
             && Keeps(messages, keep, cut) && base + KeptTokens(keep, |groups|) <= limit
             && VerbatimIfFits(groups, keep, base, limit)
             && (cut > 0 ==> cut - 1 !in Required(groups) && base + KeptTokens(keep, |groups|) + Total(groups[cut - 1]) > limit)
    ensures IsTrimming(messages, limit, tools, Assembled(messages, keep), keep, cut)
  {
    AssembledTokens(messages, keep, tools);
    AssembledTokens(messages, RequiredOnly(BodyGroups(messages)), tools);
  }

  /** Trims the list to the limit: unchanged when it fits, otherwise the system head, the
      required groups and a contiguous run of recent groups; fails exactly when not even
      the required part fits with all its tool messages emptied. */
  method TrimMessages(messages: seq<Message>, limit: Option<int>, tools: string)
      returns (r: Trimmed, ghost kept: Kept, ghost cut: nat, ghost shrunk: Kept)
    ensures limit.None? || messages == [] || EstimateInputTokens(messages, tools) <= limit.value ==> r == Within(messages)
    ensures limit.Some? && messages != [] && EstimateInputTokens(messages, tools) > limit.value ==>
              && (r.BudgetExceeded? <==> LeastTokens(messages, tools) > limit.value)
              && (r.Within? ==>
                    && IsTrimming(messages, limit.value, tools, r.messages, kept, cut)
                    && NeededCuts(messages, limit.value, tools, shrunk)
                    && forall i :: i in shrunk ==> i in kept && kept[i] == shrunk[i])
  {
    kept, cut, shrunk := map[], 0, map[];
    if limit.None? || messages == [] {
      return Within(messages), kept, cut, shrunk;
    }
    if EstimateInputTokens(messages, tools) <= limit.value {
      return Within(messages), kept, cut, shrunk;
    }
    var groups := BodyGroups(messages);
    var base := Total(Head(messages)) + SchemaTokens(tools);
    ghost var i: nat, pos: nat;
    var required;
    required, i, pos := ShrinkRequired(groups, base, limit.value);
    LeastIsLeast(groups, required, 0);
    if base + KeptTokens(required, |groups|) > limit.value {
      return BudgetExceeded, kept, cut, shrunk;
    }
    CutsAreNeeded(messages, limit.value, tools, required, groups, base, i, pos);
    ShrunkKeeps(messages, required);
    var keep, at := AddRecent(messages, required, base, limit.value);
    TrimmingIsMade(messages, limit.value, tools, keep, at);
    kept, cut, shrunk := keep, at, required;
    r := Within(Assembled(messages, keep));
  }

  lemma ShrunkKeeps(messages: seq<Message>, shrunk: Kept)
    requires ShortenedGroups(BodyGroups(messages), shrunk)
    ensures Keeps(messages, shrunk, |BodyGroups(messages)|)
  {
  }

  lemma AssembledTokens(messages: seq<Message>, kept: Kept, tools: string)
    ensures EstimateInputTokens(Assembled(messages, kept), tools)
         == Total(Head(messages)) + SchemaTokens(tools) + KeptTokens(kept, |BodyGroups(messages)|)
  {
    TotalAppend(Head(messages), Gather(kept, 0, |BodyGroups(messages)|));
  }
}
