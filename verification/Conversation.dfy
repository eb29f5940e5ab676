/** The message lists of a conversational turn: which lists a model accepts, what trimming
    keeps of them, and the loop that alternates model calls with tool calls. */
module Conversation {
  import opened Options
  import opened ContextBudget
  import opened Json
  import opened Text

  // ---- Lists a model accepts ----

  predicate AnswersCalls(calls: seq<string>, replies: seq<Message>) {
    |replies| == |calls| && forall k :: 0 <= k < |calls| ==> replies[k].role.Tool? && replies[k].replyTo == calls[k]
  }

  /** Each tool-call message is directly followed by one reply per call id, in order, and
      there is no other tool message. */
  predicate WellFormed(messages: seq<Message>) {
    if messages == [] then true
    else if MakesCalls(messages[0]) then
      var n := |messages[0].calls|;
      n < |messages| && AnswersCalls(messages[0].calls, messages[1..1 + n]) && WellFormed(messages[1 + n..])
    else !messages[0].role.Tool? && WellFormed(messages[1..])
  }

  lemma {:induction false} WellFormedAppend(a: seq<Message>, b: seq<Message>)
    requires WellFormed(a) && WellFormed(b)
    ensures WellFormed(a + b)
    decreases |a|
  {
    if a == [] {
      assert a + b == b;
    } else {
      var n := if MakesCalls(a[0]) then 1 + |a[0].calls| else 1;
      WellFormedAppend(a[n..], b);
      UnitsOfAppend(a, b, n);
    }
  }

  lemma UnitsOfAppend(a: seq<Message>, b: seq<Message>, n: nat)
    requires 1 <= n <= |a|
    ensures (a + b)[n..] == a[n..] + b && (a + b)[1..n] == a[1..n] && (a + b)[0] == a[0]
  {
  }

  lemma {:induction false} ReplyCountIs(messages: seq<Message>, n: nat)
    requires n <= |messages| && forall k :: 0 <= k < n ==> messages[k].role.Tool?
    requires n < |messages| ==> !messages[n].role.Tool?
    ensures ReplyCount(messages) == n
  {
    if n > 0 {
      ReplyCountIs(messages[1..], n - 1);
    }
  }

  /** The unit that trimming would keep together is exactly a call with its replies. */
  lemma UnitIsWellFormed(messages: seq<Message>)
    requires WellFormed(messages) && messages != []
    ensures WellFormed(messages[..UnitLength(messages)]) && WellFormed(messages[UnitLength(messages)..])
  {
    var m := messages[0];
    if MakesCalls(m) {
      var n := |m.calls|;
      forall k | 0 <= k < n ensures messages[1..][k].role.Tool? {
        assert messages[1..1 + n][k] == messages[1..][k];
      }
      assert n < |messages[1..]| ==> messages[1 + n..][0] == messages[1..][n];
      ReplyCountIs(messages[1..], n);
      var unit := messages[..1 + n];
      assert unit[1..1 + n] == messages[1..1 + n] && unit[1 + n..] == [];
    } else {
      assert messages[..1][1..] == [];
    }
  }

  lemma {:induction false} GroupsAreWellFormed(messages: seq<Message>)
    requires WellFormed(messages)
    ensures forall i :: 0 <= i < |Groups(messages)| ==> WellFormed(Groups(messages)[i])
    decreases |messages|
  {
    if messages != [] {
      UnitIsWellFormed(messages);
      GroupsAreWellFormed(messages[UnitLength(messages)..]);
    }
  }

  /** Lists that differ in contents only. */
  ghost predicate SameShape(a: seq<Message>, b: seq<Message>) {
    |a| == |b| && forall k :: 0 <= k < |a| ==>
      a[k].role == b[k].role && a[k].calls == b[k].calls && a[k].replyTo == b[k].replyTo
  }

  lemma {:induction false} ShapeDecidesWellFormed(a: seq<Message>, b: seq<Message>)
    requires SameShape(a, b) && WellFormed(a)
    ensures WellFormed(b)
    decreases |a|
  {
    if a != [] {
      var n := if MakesCalls(a[0]) then 1 + |a[0].calls| else 1;
      assert SameShape(a[n..], b[n..]);
      ShapeDecidesWellFormed(a[n..], b[n..]);
      forall k | 0 <= k < n - 1 ensures b[1..n][k].role == a[1..n][k].role && b[1..n][k].replyTo == a[1..n][k].replyTo {
        assert a[1..n][k] == a[1 + k] && b[1..n][k] == b[1 + k];
      }
    }
  }

  lemma {:induction false} GatherIsWellFormed(kept: Kept, lo: nat, hi: nat)
    requires forall i :: i in kept ==> WellFormed(kept[i])
    ensures WellFormed(Gather(kept, lo, hi))
    decreases hi - lo
  {
    if lo < hi {
      GatherIsWellFormed(kept, lo + 1, hi);
      WellFormedAppend(GroupAt(kept, lo), Gather(kept, lo + 1, hi));
    }
  }

  lemma {:induction false} HeadAndBodyAreWellFormed(messages: seq<Message>)
    requires WellFormed(messages)
    ensures WellFormed(Head(messages)) && WellFormed(messages[HeadLength(messages)..])
  {
    if messages != [] && messages[0].role.System? {
      HeadAndBodyAreWellFormed(messages[1..]);
      assert Head(messages)[1..] == Head(messages[1..]);
      assert messages[HeadLength(messages)..] == messages[1..][HeadLength(messages[1..])..];
    } else {
      assert messages[0..] == messages;
    }
  }

  /** Trimming never separates a call from its replies. */
  lemma TrimmingKeepsWellFormed(messages: seq<Message>, kept: Kept, cut: nat)
    requires WellFormed(messages) && Keeps(messages, kept, cut)
    ensures WellFormed(Assembled(messages, kept))
  {
    var groups := BodyGroups(messages);
    HeadAndBodyAreWellFormed(messages);
    GroupsAreWellFormed(messages[HeadLength(messages)..]);
    forall i | i in kept ensures WellFormed(kept[i]) {
      assert WellFormed(groups[i]);
      if i in Required(groups) {
        ShortenedKeepsShape(groups[i], kept[i]);
        ShapeDecidesWellFormed(groups[i], kept[i]);
      }
    }
    GatherIsWellFormed(kept, 0, |groups|);
    WellFormedAppend(Head(messages), Gather(kept, 0, |groups|));
  }

  lemma ShortenedKeepsShape(g: seq<Message>, short: seq<Message>)
    requires Shortened(g, short)
    ensures SameShape(g, short)
  {
    forall k | 0 <= k < |g| ensures g[k].role == short[k].role && g[k].calls == short[k].calls && g[k].replyTo == short[k].replyTo {
      assert ShortenedMessage(g[k], short[k]);
    }
  }

  // ---- The current request ----

  function LastUser(messages: seq<Message>): Option<Message> {
    if messages == [] then None
    else if messages[|messages| - 1].role.User? then Some(messages[|messages| - 1])
    else LastUser(messages[..|messages| - 1])
  }

  lemma {:induction false} LastUserAppend(a: seq<Message>, b: seq<Message>)
    ensures LastUser(a + b) == if LastUser(b).Some? then LastUser(b) else LastUser(a)
  {
    if b == [] {
      assert a + b == a;
    } else {
      LastUserAppend(a, b[..|b| - 1]);
      assert (a + b)[..|a + b| - 1] == a + b[..|b| - 1];
    }
  }

  lemma {:induction false} NoUser(messages: seq<Message>)
    requires forall k :: 0 <= k < |messages| ==> !messages[k].role.User?
    ensures LastUser(messages).None?
  {
    if messages != [] { NoUser(messages[..|messages| - 1]); }
  }

  /** A user message stands alone in its group, and no other group holds one. */
  ghost predicate UserStandsAlone(g: seq<Message>) {
    && g != []
    && (g[0].role.User? ==> |g| == 1)
    && forall k :: 1 <= k < |g| ==> !g[k].role.User?
  }

  lemma {:induction false} UsersStandAlone(messages: seq<Message>)
    ensures forall i :: 0 <= i < |Groups(messages)| ==> UserStandsAlone(Groups(messages)[i])
    decreases |messages|
  {
    if messages != [] {
      var n := UnitLength(messages);
      UsersStandAlone(messages[n..]);
      forall k | 1 <= k < n ensures !messages[..n][k].role.User? {
        assert messages[..n][k] == messages[1..][k - 1];
      }
    }
  }

  lemma {:induction false} GatherSplit(kept: Kept, lo: nat, mid: nat, hi: nat)
    requires lo <= mid <= hi
    ensures Gather(kept, lo, hi) == Gather(kept, lo, mid) + Gather(kept, mid, hi)
    decreases mid - lo
  {
    if lo < mid {
      GatherSplit(kept, lo + 1, mid, hi);
    } else {
      assert [] + Gather(kept, mid, hi) == Gather(kept, mid, hi);
    }
  }

  lemma {:induction false} GatherHasNoUser(kept: Kept, lo: nat, hi: nat)
    requires forall i :: lo <= i < hi && i in kept ==> UserStandsAlone(kept[i]) && !kept[i][0].role.User?
    ensures LastUser(Gather(kept, lo, hi)).None?
    decreases hi - lo
  {
    if lo < hi {
      GatherHasNoUser(kept, lo + 1, hi);
      NoUser(GroupAt(kept, lo));
      LastUserAppend(GroupAt(kept, lo), Gather(kept, lo + 1, hi));
    }
  }

  /** A group that holds the last request of what follows from it holds that of the whole. */
  lemma LastUserOfSuffix(kept: Kept, k: nat, n: nat)
    requires k < n && k in kept && LastUser(kept[k]).Some? && LastUser(Gather(kept, k + 1, n)).None?
    ensures LastUser(Gather(kept, 0, n)) == LastUser(kept[k])
  {
    GatherSplit(kept, 0, k, n);
    LastUserAppend(kept[k], Gather(kept, k + 1, n));
    LastUserAppend(Gather(kept, 0, k), Gather(kept, k, n));
  }

  /** Whatever is kept, the last request is that of the last user group. */
  lemma LastUserOfGather(groups: seq<seq<Message>>, kept: Kept)
    requires Units(groups) && Required(groups) <= kept.Keys
    requires forall i :: i in kept ==> i < |groups| && SameShape(groups[i], kept[i]) && UserStandsAlone(groups[i])
    requires LastUserGroup(groups).Some? ==> kept[LastUserGroup(groups).value] == groups[LastUserGroup(groups).value]
    ensures LastUser(Gather(kept, 0, |groups|)) ==
            if LastUserGroup(groups).Some? then Some(groups[LastUserGroup(groups).value][0]) else None
  {
    var last := LastUserGroup(groups);
    if last.None? {
      GatherHasNoUser(kept, 0, |groups|);
    } else {
      var k := last.value;
      GatherHasNoUser(kept, k + 1, |groups|);
      assert kept[k] == [groups[k][0]];
      LastUserOfSuffix(kept, k, |groups|);
    }
  }

  function AllGroups(groups: seq<seq<Message>>): Kept {
    map i: nat | i < |groups| :: groups[i]
  }

  lemma {:induction false} GroupsPartition(messages: seq<Message>)
    ensures Gather(AllGroups(Groups(messages)), 0, |Groups(messages)|) == messages
    decreases |messages|
  {
    if messages != [] {
      var n := UnitLength(messages);
      var first, later := messages[..n], messages[n..];
      GroupsPartition(later);
      FirstJoinsRest(first, later, Groups(later));
      FirstGroup(messages, first, later);
    }
  }

  lemma FirstGroup(messages: seq<Message>, first: seq<Message>, later: seq<Message>)
    requires messages != [] && first == messages[..UnitLength(messages)] && later == messages[UnitLength(messages)..]
    ensures Groups(messages) == [first] + Groups(later) && |Groups(messages)| == |Groups(later)| + 1
    ensures first + later == messages
  {
  }

  lemma FirstJoinsRest(first: seq<Message>, later: seq<Message>, rest: seq<seq<Message>>)
    requires Gather(AllGroups(rest), 0, |rest|) == later
    ensures Gather(AllGroups([first] + rest), 0, |rest| + 1) == first + later
  {
    GatherFirst(first, rest);
  }

  lemma GroupsShift(first: seq<Message>, rest: seq<seq<Message>>)
    ensures forall i :: 0 <= i < |rest| ==> GroupAt(AllGroups([first] + rest), i + 1) == GroupAt(AllGroups(rest), i)
    ensures GroupAt(AllGroups([first] + rest), 0) == first
  {
    forall i | 0 <= i < |rest| ensures GroupAt(AllGroups([first] + rest), i + 1) == GroupAt(AllGroups(rest), i) {
      assert ([first] + rest)[i + 1] == rest[i];
    }
  }

  lemma GatherFrom(a: Kept, n: nat)
    ensures Gather(a, 0, n + 1) == GroupAt(a, 0) + Gather(a, 1, n + 1)
  {
  }

  lemma GatherFirst(first: seq<Message>, rest: seq<seq<Message>>)
    ensures Gather(AllGroups([first] + rest), 0, |rest| + 1) == first + Gather(AllGroups(rest), 0, |rest|)
  {
    GroupsShift(first, rest);
    GatherShift(AllGroups([first] + rest), AllGroups(rest), 0, |rest|);
    GatherFrom(AllGroups([first] + rest), |rest|);
  }

  lemma {:induction false} GatherShift(a: Kept, b: Kept, lo: nat, hi: nat)
    requires forall i :: lo <= i < hi ==> GroupAt(a, i + 1) == GroupAt(b, i)
    ensures Gather(a, lo + 1, hi + 1) == Gather(b, lo, hi)
    decreases hi - lo
  {
    if lo < hi {
      assert GroupAt(a, lo + 1) == GroupAt(b, lo);
      GatherShift(a, b, lo + 1, hi);
    }
  }

  /** The message that starts the last group of the user. */
  function LastRequest(groups: seq<seq<Message>>): Option<Message>
    requires Units(groups)
  {
    if LastUserGroup(groups).Some? then Some(groups[LastUserGroup(groups).value][0]) else None
  }

  lemma LastUserOfBody(messages: seq<Message>)
    ensures LastUser(messages[HeadLength(messages)..]) == LastRequest(BodyGroups(messages))
  {
    var groups, body := BodyGroups(messages), messages[HeadLength(messages)..];
    GroupsPartition(body);
    UsersStandAlone(body);
    LastUserOfGather(groups, AllGroups(groups));
  }

  lemma LastUserOfKept(messages: seq<Message>, kept: Kept, cut: nat)
    requires Keeps(messages, kept, cut)
    ensures LastUser(Gather(kept, 0, |BodyGroups(messages)|)) == LastRequest(BodyGroups(messages))
  {
    var groups := BodyGroups(messages);
    UsersStandAlone(messages[HeadLength(messages)..]);
    forall i | i in kept ensures SameShape(groups[i], kept[i]) {
      if i in Required(groups) { ShortenedKeepsShape(groups[i], kept[i]); }
    }
    if LastUserGroup(groups).Some? {
      RequestIsVerbatim(groups[LastUserGroup(groups).value], kept[LastUserGroup(groups).value]);
    }
    LastUserOfGather(groups, kept);
  }

  /** Trimming keeps the system head as a prefix and the current request verbatim. */
  lemma TrimmingKeepsHeadAndRequest(messages: seq<Message>, kept: Kept, cut: nat)
    requires Keeps(messages, kept, cut)
    ensures Head(messages) <= Assembled(messages, kept)
    ensures LastUser(Assembled(messages, kept)) == LastUser(messages)
  {
    var groups, body := BodyGroups(messages), messages[HeadLength(messages)..];
    assert messages == Head(messages) + body;
    LastUserOfBody(messages);
    LastUserOfKept(messages, kept, cut);
    LastUserAppend(Head(messages), body);
    LastUserAppend(Head(messages), Gather(kept, 0, |groups|));
  }

  lemma RequestIsVerbatim(g: seq<Message>, short: seq<Message>)
    requires Shortened(g, short) && UserStandsAlone(g) && g[0].role.User?
    ensures short == g
  {
    assert ShortenedMessage(g[0], short[0]);
  }

  lemma LongerRunExtends(messages: seq<Message>, kept: Kept, cut: nat, more: Kept, lower: nat)
    requires Keeps(messages, kept, cut) && Keeps(messages, more, lower) && lower < cut
    requires forall i :: i in Required(BodyGroups(messages)) ==> more[i] == kept[i]
    requires cut - 1 !in Required(BodyGroups(messages))
    ensures forall i :: i in kept ==> i in more && more[i] == kept[i]
    ensures cut - 1 in more && more[cut - 1] == BodyGroups(messages)[cut - 1] && cut - 1 !in kept
  {
  }

  lemma CutIsTight(messages: seq<Message>, limit: int, tools: string, r: seq<Message>, kept: Kept, cut: nat)
    requires IsTrimming(messages, limit, tools, r, kept, cut) && cut > 0
    ensures cut - 1 !in Required(BodyGroups(messages)) && Keeps(messages, kept, cut)
    ensures Total(Head(messages)) + SchemaTokens(tools) + KeptTokens(kept, |BodyGroups(messages)|)
            + Total(BodyGroups(messages)[cut - 1]) > limit
  {
    AssembledTokens(messages, kept, tools);
  }

  /** No longer run of recent groups would fit beside what is kept. */
  lemma LongerRunsDoNotFit(messages: seq<Message>, limit: int, tools: string, r: seq<Message>,
                           kept: Kept, cut: nat, more: Kept, lower: nat)
    requires IsTrimming(messages, limit, tools, r, kept, cut) && lower < cut
    requires Keeps(messages, more, lower) && forall i :: i in Required(BodyGroups(messages)) ==> more[i] == kept[i]
    ensures EstimateInputTokens(Assembled(messages, more), tools) > limit
  {
    CutIsTight(messages, limit, tools, r, kept, cut);
    LongerRunCosts(messages, kept, cut, more, lower);
    AssembledTokens(messages, more, tools);
  }

  lemma LongerRunCosts(messages: seq<Message>, kept: Kept, cut: nat, more: Kept, lower: nat)
    requires Keeps(messages, kept, cut) && Keeps(messages, more, lower) && lower < cut
    requires forall i :: i in Required(BodyGroups(messages)) ==> more[i] == kept[i]
    requires cut - 1 !in Required(BodyGroups(messages))
    ensures var groups := BodyGroups(messages);
            KeptTokens(kept, |groups|) + Total(groups[cut - 1]) <= KeptTokens(more, |groups|)
  {
    LongerRunExtends(messages, kept, cut, more, lower);
    OneMoreGroupCosts(kept, more, cut - 1, |BodyGroups(messages)|);
  }

  lemma OneMoreGroupCosts(kept: Kept, more: Kept, i: nat, n: nat)
    requires i < n && i !in kept && i in more
    requires forall j :: j in kept ==> j in more && more[j] == kept[j]
    ensures KeptTokens(kept, n) + Total(more[i]) <= KeptTokens(more, n)
  {
    GatherUpdate(kept, i, more[i], 0, n);
    GatherGrows(kept[i := more[i]], more, 0, n);
  }

  lemma {:induction false} GatherGrows(a: Kept, b: Kept, lo: nat, hi: nat)
    requires forall i :: lo <= i < hi && i in a ==> i in b && b[i] == a[i]
    ensures Total(Gather(a, lo, hi)) <= Total(Gather(b, lo, hi))
    decreases hi - lo
  {
    if lo < hi {
      GatherGrows(a, b, lo + 1, hi);
      TotalAppend(GroupAt(a, lo), Gather(a, lo + 1, hi));
      TotalAppend(GroupAt(b, lo), Gather(b, lo + 1, hi));
    }
  }

  // ---- The tool loop ----

  const MAX_TOOL_ROUNDS := 5
  const MAX_TOOL_RESULT_TOKENS := 2000

  /** A requested call: unknown tools get an error text, known ones a result that may
      carry a workflow status. */
  datatype Call = Call(id: string, name: string, known: bool, result: string, workflow: bool)

  datatype ModelAnswer = ModelFailed | Answered(content: string, calls: seq<Call>, callsText: string)

  /** How the loop ends, with the text that becomes the answer. */
  datatype LoopEnd =
    | Final(text: string) | Failed(text: string) | WorkflowSpoke(text: string) | RoundsExhausted(text: string)
    | OverBudget

  function UnknownTool(name: string): string {
    "{\"error\": \"Unknown tool: " + AsciiEscaped(name) + "\"}"
  }

  /** The model is shown the result of a known call, whole if it is within the limit and else
      its longest marked prefix, and an error for an unknown one. */
  ghost predicate ShowsResult(call: Call, reply: Message) {
    && reply == Message(Tool, reply.content, [], "", call.id)
    && if call.known then Shows(call.result, MAX_TOOL_RESULT_TOKENS, reply.content)
       else reply.content == UnknownTool(call.name)
  }

  predicate Speaks(call: Call) {
    call.known && call.workflow
  }

  /** The latest nonempty result of these calls, else of earlier ones. */
  function LatestResult(calls: seq<Call>, earlier: string): string {
    if calls == [] then earlier
    else if calls[|calls| - 1].known && calls[|calls| - 1].result != "" then calls[|calls| - 1].result
    else LatestResult(calls[..|calls| - 1], earlier)
  }

  /** The same over the first n answers of the model. */
  function LatestOf(world: nat -> ModelAnswer, n: nat): string {
    if n == 0 then ""
    else if world(n - 1).Answered? then LatestResult(world(n - 1).calls, LatestOf(world, n - 1))
    else LatestOf(world, n - 1)
  }

  function CallIds(calls: seq<Call>): (r: seq<string>)
    ensures |r| == |calls|
  {
    seq(|calls|, k requires 0 <= k < |calls| => calls[k].id)
  }

  /** What every list sent to the model satisfies. */
  ghost predicate FitToSend(initial: seq<Message>, limit: int, tools: string, messages: seq<Message>) {
    && WellFormed(messages) && EstimateInputTokens(messages, tools) <= limit
    && Head(initial) <= messages && LastUser(messages) == LastUser(initial)
  }

  lemma {:induction false} SystemPrefixIsInHead(prefix: seq<Message>, messages: seq<Message>)
    requires prefix <= messages && forall k :: 0 <= k < |prefix| ==> prefix[k].role.System?
    ensures prefix <= Head(messages)
  {
    if prefix != [] {
      SystemPrefixIsInHead(prefix[1..], messages[1..]);
      assert Head(messages) == [messages[0]] + Head(messages[1..]);
    }
  }

  lemma RepliesKeepShape(before: seq<Message>, call: Message, replies: seq<Message>)
    requires WellFormed(before) && MakesCalls(call) && AnswersCalls(call.calls, replies)
    ensures WellFormed(before + ([call] + replies))
    ensures LastUser(before + ([call] + replies)) == LastUser(before)
  {
    var unit := [call] + replies;
    assert unit[1..1 + |call.calls|] == replies && unit[1 + |call.calls|..] == [];
    WellFormedAppend(before, unit);
    NoUser(unit);
    LastUserAppend(before, unit);
  }

  function ReplyText(call: Call): string {
    if call.known then Truncated(call.result, MAX_TOOL_RESULT_TOKENS) else UnknownTool(call.name)
  }

  function Reply(call: Call): Message {
    Message(Tool, ReplyText(call), [], "", call.id)
  }

  function Replies(calls: seq<Call>): (r: seq<Message>)
    ensures |r| == |calls|
  {
    seq(|calls|, k requires 0 <= k < |calls| => Reply(calls[k]))
  }

  /** What the model is shown of a call. */
  lemma ReplyShowsResult(call: Call)
    ensures ShowsResult(call, Reply(call))
  {
    TruncationShows(call.result, MAX_TOOL_RESULT_TOKENS);
  }

  lemma RepliesGrow(calls: seq<Call>, k: nat)
    requires k < |calls|
    ensures Replies(calls[..k + 1]) == Replies(calls[..k]) + [Reply(calls[k])]
  {
  }

  lemma RepliesAnswerCalls(calls: seq<Call>)
    ensures AnswersCalls(CallIds(calls), Replies(calls))
  {
  }

  lemma LatestGrows(calls: seq<Call>, k: nat, earlier: string)
    requires k < |calls|
    ensures LatestResult(calls[..k + 1], earlier) ==
            if calls[k].known && calls[k].result != "" then calls[k].result else LatestResult(calls[..k], earlier)
  {
    assert calls[..k + 1][..k] == calls[..k];
  }

  /** The first call that lets a workflow speak. */
  ghost predicate IsSpeaker(calls: seq<Call>, k: nat) {
    k < |calls| && Speaks(calls[k]) && forall j :: 0 <= j < k ==> !Speaks(calls[j])
  }

  method AnswerCall(call: Call) returns (reply: Message)
    ensures reply == Reply(call)
  {
    if !call.known {
      reply := Message(Tool, UnknownTool(call.name), [], "", call.id);
    } else {
      var content := TruncateText(call.result, MAX_TOOL_RESULT_TOKENS);
      reply := Message(Tool, content, [], "", call.id);
    }
  }

  /** One reply per call, in order, up to the first call that lets a workflow speak. */
  method AnswerCalls(calls: seq<Call>, earlier: string) returns (replies: seq<Message>, spoken: Option<string>, latest: string)
    ensures spoken.None? ==>
              && replies == Replies(calls) && latest == LatestResult(calls, earlier)
              && forall k :: 0 <= k < |calls| ==> !Speaks(calls[k])
    ensures spoken.Some? ==>
              exists k: nat :: IsSpeaker(calls, k) && spoken.value == calls[k].result && replies == Replies(calls[..k + 1])
  {
    replies, spoken, latest := [], None, earlier;
    for k := 0 to |calls|
      invariant replies == Replies(calls[..k]) && latest == LatestResult(calls[..k], earlier)
      invariant forall j :: 0 <= j < k ==> !Speaks(calls[j])
    {
      var call := calls[k];
      RepliesGrow(calls, k);
      LatestGrows(calls, k, earlier);
      var reply := AnswerCall(call);
      replies := replies + [reply];
      if call.known {
        if call.result != "" {
          latest := call.result;
        }
        if call.workflow {
          spoken := Some(call.result);
          assert IsSpeaker(calls, k);
          return;
        }
      }
    }
    assert calls[..|calls|] == calls;
  }

  /** A list that may go on in the loop that `initial` started. */
  ghost predicate Continues(initial: seq<Message>, messages: seq<Message>) {
    WellFormed(messages) && Head(initial) <= messages && LastUser(messages) == LastUser(initial)
  }

  lemma TrimmingContinues(initial: seq<Message>, messages: seq<Message>, kept: Kept, cut: nat)
    requires Continues(initial, messages) && Keeps(messages, kept, cut)
    ensures Continues(initial, Assembled(messages, kept))
  {
    TrimmingKeepsWellFormed(messages, kept, cut);
    TrimmingKeepsHeadAndRequest(messages, kept, cut);
    SystemPrefixIsInHead(Head(initial), messages);
  }

  lemma RoundContinues(initial: seq<Message>, messages: seq<Message>, request: Message, replies: seq<Message>)
    requires Continues(initial, messages) && MakesCalls(request) && AnswersCalls(request.calls, replies)
    ensures Continues(initial, messages + ([request] + replies))
  {
    RepliesKeepShape(messages, request, replies);
  }

  // ---- The last round stays in sight ----

  /** A tool-call message and the tool messages that follow it. */
  predicate IsRound(round: seq<Message>) {
    round != [] && MakesCalls(round[0]) && forall k :: 1 <= k < |round| ==> round[k].role.Tool?
  }

  ghost predicate EndsWith(messages: seq<Message>, part: seq<Message>) {
    |part| <= |messages| && messages[|messages| - |part|..] == part
  }

  /** The list ends with the round, of which tool results may be shortened. */
  ghost predicate EndsWithRound(messages: seq<Message>, round: seq<Message>) {
    exists short :: Shortened(round, short) && EndsWith(messages, short)
  }

  lemma {:induction false} BodyOfAppend(before: seq<Message>, round: seq<Message>)
    requires IsRound(round)
    ensures var messages := before + round;
            messages[HeadLength(messages)..] == before[HeadLength(before)..] + round
  {
    var messages := before + round;
    if before == [] {
      assert messages == round;
    } else if before[0].role.System? {
      BodyOfAppend(before[1..], round);
      assert messages[1..] == before[1..] + round;
    }
  }

  lemma {:induction false} CountBeforeRound(before: seq<Message>, round: seq<Message>)
    requires IsRound(round)
    ensures ReplyCount(before + round) == ReplyCount(before)
  {
    if before == [] {
      assert before + round == round;
    } else {
      CountBeforeRound(before[1..], round);
      assert (before + round)[1..] == before[1..] + round;
    }
  }

  lemma RoundIsOneUnit(round: seq<Message>)
    requires IsRound(round)
    ensures Groups(round) == [round]
  {
    ReplyCountIs(round[1..], |round| - 1);
    assert round[..|round|] == round && round[|round|..] == [];
  }

  lemma SlicesOfAppend(a: seq<Message>, b: seq<Message>, n: nat)
    requires n <= |a|
    ensures (a + b)[..n] == a[..n] && (a + b)[n..] == a[n..] + b
  {
  }

  lemma FirstUnitStays(before: seq<Message>, round: seq<Message>)
    requires IsRound(round) && before != []
    ensures var n := UnitLength(before);
            && UnitLength(before + round) == n && (before + round)[..n] == before[..n]
            && (before + round)[n..] == before[n..] + round
  {
    CountBeforeRound(before[1..], round);
    SlicesOfAppend(before, round, 1);
    SlicesOfAppend(before, round, UnitLength(before));
  }

  /** A round behind a list is that list's next group. */
  lemma {:induction false} RoundIsLastGroup(before: seq<Message>, round: seq<Message>)
    requires IsRound(round)
    ensures Groups(before + round) == Groups(before) + [round]
    decreases |before|
  {
    if before == [] {
      assert before + round == round;
      RoundIsOneUnit(round);
    } else {
      var n := UnitLength(before);
      var first, later := before[..n], before[n..];
      FirstUnitStays(before, round);
      FirstGroup(before, first, later);
      FirstGroup(before + round, first, later + round);
      RoundIsLastGroup(later, round);
      assert [first] + (Groups(later) + [round]) == ([first] + Groups(later)) + [round];
    }
  }

  lemma GatherLast(kept: Kept, n: nat)
    requires n > 0
    ensures Gather(kept, 0, n) == Gather(kept, 0, n - 1) + GroupAt(kept, n - 1)
  {
    GatherSplit(kept, 0, n - 1, n);
    assert Gather(kept, n - 1, n) == GroupAt(kept, n - 1);
  }

  /** Trimming keeps the last round at the end of the list. */
  lemma TrimmingKeepsLastRound(before: seq<Message>, round: seq<Message>, kept: Kept, cut: nat)
    requires IsRound(round) && Keeps(before + round, kept, cut)
    ensures EndsWithRound(Assembled(before + round, kept), round)
  {
    var messages := before + round;
    var groups := BodyGroups(messages);
    BodyOfAppend(before, round);
    RoundIsLastGroup(before[HeadLength(before)..], round);
    var last := |groups| - 1;
    assert groups[last] == round && last in Required(groups) && last in kept;
    GatherLast(kept, |groups|);
    var front := Head(messages) + Gather(kept, 0, last);
    assert Assembled(messages, kept) == front + kept[last];
    assert EndsWith(front + kept[last], kept[last]);
  }

  lemma UntrimmedEndsWithRound(before: seq<Message>, round: seq<Message>)
    ensures EndsWithRound(before + round, round)
  {
    assert Shortened(round, round) && EndsWith(before + round, round);
  }

  /** What the model gets for a list: the list itself if it fits, else a trimming with a
      maximal recent suffix. */
  ghost predicate IsSentFor(messages: seq<Message>, limit: int, tools: string, sent: seq<Message>) {
    if EstimateInputTokens(messages, tools) <= limit then sent == messages
    else exists kept: Kept, cut: nat :: IsTrimming(messages, limit, tools, sent, kept, cut)
  }

  lemma SentKeepsLastRound(before: seq<Message>, round: seq<Message>, limit: int, tools: string, sent: seq<Message>)
    requires IsRound(round) && IsSentFor(before + round, limit, tools, sent)
    ensures EndsWithRound(sent, round)
  {
    if EstimateInputTokens(before + round, tools) <= limit {
      UntrimmedEndsWithRound(before, round);
    } else {
      var kept: Kept, cut: nat :| IsTrimming(before + round, limit, tools, sent, kept, cut);
      TrimmingKeepsLastRound(before, round, kept, cut);
    }
  }

  /** Trims the list for one model call. */
  method TrimForModel(initial: seq<Message>, messages: seq<Message>, tools: string, limit: int) returns (r: Trimmed)
    requires Continues(initial, messages) && LastUser(initial).Some?
    ensures r.Within? ==> FitToSend(initial, limit, tools, r.messages) && IsSentFor(messages, limit, tools, r.messages)
    ensures r.BudgetExceeded? <==>
              EstimateInputTokens(messages, tools) > limit && LeastTokens(messages, tools) > limit
  {
    ghost var kept: Kept, cut: nat, shrunk: Kept;
    r, kept, cut, shrunk := TrimMessages(messages, Some(limit), tools);
    if EstimateInputTokens(messages, tools) > limit && r.Within? {
      TrimmingContinues(initial, messages, kept, cut);
    }
  }

  /** The tool-call message of an answer with the reply to each of its calls. */
  ghost predicate IsRoundOf(answer: ModelAnswer, round: seq<Message>) {
    && answer.Answered? && answer.calls != [] && |round| == |answer.calls| + 1
    && round[0] == Message(Assistant, answer.content, CallIds(answer.calls), answer.callsText, "")
    && round[1..] == Replies(answer.calls)
  }

  lemma RoundAnswersCalls(answer: ModelAnswer, round: seq<Message>)
    requires IsRoundOf(answer, round)
    ensures AnswersCalls(CallIds(answer.calls), round[1..])
  {
    RepliesAnswerCalls(answer.calls);
  }

  /** Every round shows the model what each call gave: its result, whole if it is within the
      limit and else its longest marked prefix, or that the tool is unknown. */
  lemma RoundShowsResults(answer: ModelAnswer, round: seq<Message>)
    requires IsRoundOf(answer, round)
    ensures forall k :: 0 <= k < |answer.calls| ==> ShowsResult(answer.calls[k], round[k + 1])
  {
    forall k | 0 <= k < |answer.calls| ensures ShowsResult(answer.calls[k], round[k + 1]) {
      assert round[k + 1] == round[1..][k];
      ReplyShowsResult(answer.calls[k]);
    }
  }

  /** The next list is the one before with the round's calls and replies, as far as it fits,
      and ends with the round. */
  ghost predicate Follows(before: seq<Message>, round: seq<Message>, limit: int, tools: string, next: seq<Message>) {
    IsSentFor(before + round, limit, tools, next) && EndsWithRound(next, round)
  }

  lemma RoundOfIsRound(answer: ModelAnswer, round: seq<Message>)
    requires IsRoundOf(answer, round)
    ensures IsRound(round)
  {
    RoundAnswersCalls(answer, round);
    forall k | 1 <= k < |round| ensures round[k].role.Tool? { assert round[1..][k - 1] == round[k]; }
  }

  lemma NextFollows(before: seq<Message>, round: seq<Message>, answer: ModelAnswer, limit: int, tools: string, next: seq<Message>)
    requires IsRoundOf(answer, round) && IsSentFor(before + round, limit, tools, next)
    ensures Follows(before, round, limit, tools, next)
  {
    RoundOfIsRound(answer, round);
    SentKeepsLastRound(before, round, limit, tools, next);
  }

  /** The list built for the next model call. */
  function NextList(initial: seq<Message>, sent: seq<seq<Message>>, rounds: seq<seq<Message>>): seq<Message>
    requires |sent| == |rounds|
  {
    if sent == [] then initial else sent[|sent| - 1] + rounds[|rounds| - 1]
  }

  /** Whether a list may be sent after these lists and rounds. */
  type ListTest = (seq<seq<Message>>, seq<seq<Message>>, seq<Message>) -> bool

  /** Whether a round may be the one with this number. */
  type RoundTest = (nat, seq<Message>) -> bool

  /** Lists, and rounds completed after each of them but perhaps the last, that all pass. */
  ghost predicate Alternate(list: ListTest, round: RoundTest, sent: seq<seq<Message>>, rounds: seq<seq<Message>>) {
    if sent == [] then rounds == [] else
      var n := |sent| - 1;
      && n <= |rounds| <= n + 1 && Alternate(list, round, sent[..n], rounds[..n])
      && list(sent[..n], rounds[..n], sent[n]) && (|rounds| == n + 1 ==> round(n, rounds[n]))
  }

  lemma {:induction false} EachPasses(list: ListTest, round: RoundTest, sent: seq<seq<Message>>, rounds: seq<seq<Message>>, k: nat)
    requires Alternate(list, round, sent, rounds) && k < |sent|
    ensures k <= |rounds| && list(sent[..k], rounds[..k], sent[k]) && (k < |rounds| ==> round(k, rounds[k]))
  {
    var n := |sent| - 1;
    if k < n {
      EachPasses(list, round, sent[..n], rounds[..n], k);
      assert sent[..n][..k] == sent[..k] && rounds[..n][..k] == rounds[..k];
    }
  }

  ghost predicate SentNext(initial: seq<Message>, limit: int, tools: string,
                           sent: seq<seq<Message>>, rounds: seq<seq<Message>>, next: seq<Message>)
  {
    |sent| == |rounds| && FitToSend(initial, limit, tools, next)
      && IsSentFor(NextList(initial, sent, rounds), limit, tools, next)
  }

  ghost function ListsSent(initial: seq<Message>, limit: int, tools: string): ListTest {
    (sent: seq<seq<Message>>, rounds: seq<seq<Message>>, next: seq<Message>) => SentNext(initial, limit, tools, sent, rounds, next)
  }

  ghost function RoundsMade(world: nat -> ModelAnswer): RoundTest {
    (k: nat, round: seq<Message>) => IsRoundOf(world(k), round)
  }

  /** The lists sent, and the rounds completed after each of them but perhaps the last. */
  ghost predicate Unfolds(initial: seq<Message>, limit: int, tools: string, world: nat -> ModelAnswer,
                          sent: seq<seq<Message>>, rounds: seq<seq<Message>>)
  {
    Alternate(ListsSent(initial, limit, tools), RoundsMade(world), sent, rounds)
  }

  lemma EachIsSentNext(initial: seq<Message>, limit: int, tools: string, world: nat -> ModelAnswer,
                       sent: seq<seq<Message>>, rounds: seq<seq<Message>>, k: nat)
    requires Unfolds(initial, limit, tools, world, sent, rounds) && k < |sent|
    ensures k <= |rounds| && SentNext(initial, limit, tools, sent[..k], rounds[..k], sent[k])
    ensures k < |rounds| ==> IsRoundOf(world(k), rounds[k])
  {
    EachPasses(ListsSent(initial, limit, tools), RoundsMade(world), sent, rounds, k);
  }

  lemma AllAreFit(initial: seq<Message>, limit: int, tools: string, world: nat -> ModelAnswer,
                  sent: seq<seq<Message>>, rounds: seq<seq<Message>>)
    requires Unfolds(initial, limit, tools, world, sent, rounds)
    ensures forall k :: 0 <= k < |sent| ==> FitToSend(initial, limit, tools, sent[k])
  {
    forall k | 0 <= k < |sent| ensures FitToSend(initial, limit, tools, sent[k]) {
      EachIsSentNext(initial, limit, tools, world, sent, rounds, k);
    }
  }

  /** Every list after the first is the one before with its round, as far as that fits, and
      ends with that round, which shows the model what each call gave. */
  lemma EachListFollows(initial: seq<Message>, limit: int, tools: string, world: nat -> ModelAnswer,
                        sent: seq<seq<Message>>, rounds: seq<seq<Message>>, k: nat)
    requires Unfolds(initial, limit, tools, world, sent, rounds) && k < |sent| - 1
    ensures k < |rounds| && world(k).Answered? && |rounds[k]| == |world(k).calls| + 1
    ensures Follows(sent[k], rounds[k], limit, tools, sent[k + 1])
    ensures forall j :: 0 <= j < |world(k).calls| ==> ShowsResult(world(k).calls[j], rounds[k][j + 1])
  {
    EachIsSentNext(initial, limit, tools, world, sent, rounds, k);
    EachIsSentNext(initial, limit, tools, world, sent, rounds, k + 1);
    assert NextList(initial, sent[..k + 1], rounds[..k + 1]) == sent[k] + rounds[k];
    NextFollows(sent[k], rounds[k], world(k), limit, tools, sent[k + 1]);
    RoundShowsResults(world(k), rounds[k]);
  }

  /** What the answer of the loop is when the model's answer ends it. */
  ghost predicate EndsLoop(answer: ModelAnswer, earlier: string, end: LoopEnd) {
    match end
    case Failed(text) => answer.ModelFailed? && text == earlier
    case Final(text) =>
      && answer.Answered? && answer.calls == []
      && text == if Strip(answer.content) != "" then Strip(answer.content) else earlier
    case WorkflowSpoke(text) =>
      && answer.Answered?
      && exists k: nat :: IsSpeaker(answer.calls, k) && text == answer.calls[k].result
    case _ => false
  }

  /** One answer of the model: the calls are answered and added, unless the loop ends here. */
  method TakeAnswer(initial: seq<Message>, messages: seq<Message>, answer: ModelAnswer, earlier: string)
      returns (end: Option<LoopEnd>, round: seq<Message>, latest: string)
    requires Continues(initial, messages)
    ensures end.None? ==>
              && IsRoundOf(answer, round) && Continues(initial, messages + round)
              && latest == LatestResult(answer.calls, earlier)
              && forall k :: 0 <= k < |answer.calls| ==> !Speaks(answer.calls[k])
    ensures end.Some? ==> EndsLoop(answer, earlier, end.value)
  {
    round, latest := [], earlier;
    if answer.ModelFailed? {
      end := Some(Failed(earlier));
      return;
    }
    if answer.calls == [] {
      var text := Strip(answer.content);
      end := Some(Final(if text != "" then text else earlier));
      return;
    }
    var request := Message(Assistant, answer.content, CallIds(answer.calls), answer.callsText, "");
    var replies, spoken;
    replies, spoken, latest := AnswerCalls(answer.calls, earlier);
    if spoken.Some? {
      end := Some(WorkflowSpoke(spoken.value));
      return;
    }
    RepliesAnswerCalls(answer.calls);
    RoundContinues(initial, messages, request, replies);
    round := [request] + replies;
    end := None;
    assert round[1..] == replies;
  }

  /** How a loop that sent n lists ended. */
  ghost predicate EndsAsTold(world: nat -> ModelAnswer, n: nat, end: LoopEnd) {
    match end
    case OverBudget => true
    case RoundsExhausted(text) =>
      n == MAX_TOOL_ROUNDS && world(n - 1).Answered? && world(n - 1).calls != [] && text == world(n - 1).content
    case _ => n > 0 && EndsLoop(world(n - 1), LatestOf(world, n - 1), end)
  }

  lemma EndIsTold(world: nat -> ModelAnswer, k: nat, end: LoopEnd)
    requires EndsLoop(world(k), LatestOf(world, k), end)
    ensures EndsAsTold(world, k + 1, end)
  {
  }

  lemma ExhaustionIsTold(world: nat -> ModelAnswer, k: nat)
    requires k + 1 == MAX_TOOL_ROUNDS && world(k).Answered? && world(k).calls != []
    ensures EndsAsTold(world, k + 1, RoundsExhausted(world(k).content))
  {
  }

  lemma SentOneMore(initial: seq<Message>, tools: string, limit: int, world: nat -> ModelAnswer,
                    sent: seq<seq<Message>>, rounds: seq<seq<Message>>, next: seq<Message>)
    requires |sent| == |rounds| && Unfolds(initial, limit, tools, world, sent, rounds)
    requires SentNext(initial, limit, tools, sent, rounds, next)
    ensures Unfolds(initial, limit, tools, world, sent + [next], rounds)
  {
    assert (sent + [next])[..|sent|] == sent && rounds[..|sent|] == rounds;
  }

  lemma CompletedOneMore(initial: seq<Message>, tools: string, limit: int, world: nat -> ModelAnswer,
                         sent: seq<seq<Message>>, rounds: seq<seq<Message>>, next: seq<Message>, round: seq<Message>)
    requires |sent| == |rounds| && Unfolds(initial, limit, tools, world, sent, rounds)
    requires SentNext(initial, limit, tools, sent, rounds, next) && IsRoundOf(world(|sent|), round)
    ensures Unfolds(initial, limit, tools, world, sent + [next], rounds + [round])
    ensures NextList(initial, sent + [next], rounds + [round]) == next + round
  {
    assert (sent + [next])[..|sent|] == sent && (rounds + [round])[..|sent|] == rounds;
  }

  /** One round of the loop: trim, ask the model, answer its calls. */
  method RunRound(initial: seq<Message>, messages: seq<Message>, tools: string, limit: int, answer: ModelAnswer, latest: string)
      returns (trimmed: Trimmed, over: Option<LoopEnd>, round: seq<Message>, latest': string)
    requires Continues(initial, messages) && LastUser(initial).Some?
    ensures trimmed.BudgetExceeded? <==>
              EstimateInputTokens(messages, tools) > limit && LeastTokens(messages, tools) > limit
    ensures trimmed.Within? ==>
              FitToSend(initial, limit, tools, trimmed.messages) && IsSentFor(messages, limit, tools, trimmed.messages)
    ensures trimmed.Within? && over.Some? ==> EndsLoop(answer, latest, over.value)
    ensures trimmed.Within? && over.None? ==>
              && IsRoundOf(answer, round) && Continues(initial, trimmed.messages + round)
              && latest' == LatestResult(answer.calls, latest)
  {
    over, round, latest' := None, [], latest;
    trimmed := TrimForModel(initial, messages, tools, limit);
    if trimmed.Within? {
      over, round, latest' := TakeAnswer(initial, trimmed.messages, answer, latest);
    }
  }

  /** Alternates model calls with tool calls; `sent` records every list the model got and
      `rounds` every completed round of calls and replies. */
  method RunToolLoop(initial: seq<Message>, tools: string, limit: int, world: nat -> ModelAnswer)
      returns (sent: seq<seq<Message>>, end: LoopEnd, ghost rounds: seq<seq<Message>>)
    requires WellFormed(initial) && LastUser(initial).Some?
    ensures |sent| <= MAX_TOOL_ROUNDS && EndsAsTold(world, |sent|, end)
    ensures forall k :: 0 <= k < |sent| ==> FitToSend(initial, limit, tools, sent[k])
    ensures Unfolds(initial, limit, tools, world, sent, rounds)
    ensures EstimateInputTokens(initial, tools) > limit && LeastTokens(initial, tools) > limit ==>
              sent == [] && end.OverBudget?
    ensures sent == [] ==> end.OverBudget? && LeastTokens(initial, tools) > limit
  {
    var messages, latest := initial, "";
    sent, end, rounds := [], OverBudget, [];
    for k := 0 to MAX_TOOL_ROUNDS
      invariant |sent| == |rounds| == k && Unfolds(initial, limit, tools, world, sent, rounds)
      invariant Continues(initial, messages) && messages == NextList(initial, sent, rounds) && latest == LatestOf(world, k)
      invariant k > 0 ==> EstimateInputTokens(initial, tools) <= limit || LeastTokens(initial, tools) <= limit
      invariant k == MAX_TOOL_ROUNDS ==> EndsAsTold(world, k, end)
    {
      var trimmed, over, round, newest := RunRound(initial, messages, tools, limit, world(k), latest);
      if trimmed.BudgetExceeded? {
        AllAreFit(initial, limit, tools, world, sent, rounds);
        end := OverBudget;
        return;
      }
      var next := trimmed.messages;
      if over.Some? {
        SentOneMore(initial, tools, limit, world, sent, rounds, next);
        AllAreFit(initial, limit, tools, world, sent + [next], rounds);
        EndIsTold(world, k, over.value);
        sent := sent + [next];
        end := over.value;
        return;
      }
      CompletedOneMore(initial, tools, limit, world, sent, rounds, next, round);
      sent, rounds := sent + [next], rounds + [round];
      messages, latest := next + round, newest;
      end := RoundsExhausted(world(k).content);
      if k + 1 == MAX_TOOL_ROUNDS { ExhaustionIsTold(world, k); }
    }
    AllAreFit(initial, limit, tools, world, sent, rounds);
  }
}
