/** What acceptance of a definition guarantees about its execution. */
module WorkflowSoundness {
  import opened Options
  import opened Text
  import opened Workflows
  import opened AutomaticCycles
  import opened WorkflowValidation
  import opened WorkflowSemantics

  predicate UniqueIds(payloads: seq<Step>) {
    forall i, j :: 0 <= i < j < |payloads| ==> payloads[i].id != payloads[j].id
  }

  // ---- Every automatic move is an edge of the validator's graph ----

  lemma {:induction false} FirstMatchSource(rules: seq<Rule>, data: Data, holds: (Condition, Data) -> bool)
    requires forall r :: r in rules ==> r.goto.Some?
    ensures FirstMatch(rules, data, holds).Some? ==>
              exists r :: r in rules && r.goto == FirstMatch(rules, data, holds)
    ensures FirstMatch(rules, data, holds).None? ==> !HasDefault(rules)
  {
    if rules != [] {
      if rules[0].condition.None? || holds(rules[0].condition.value, data) {
        assert rules[0] in rules;
      } else {
        FirstMatchSource(rules[1..], data, holds);
        assert rules == [rules[0]] + rules[1..];
      }
    }
  }

  lemma AdvanceFollowsEdge(o: Oracle, steps: seq<Step>, i: nat, s: State)
    requires s.flow.Some? && i < |steps| && RoutesKnown(steps, i)
    ensures var m := Advanced(o, steps, i, s); m.Auto? ==> m.s.flow.value.index in Targets(steps, i)
  {
    var rules, holds := steps[i].rules, o(|s.log|).holds;
    var goto := FirstMatch(rules, s.data, holds);
    assert forall r :: r in rules ==> Known(steps, r.goto);
    FirstMatchSource(rules, s.data, holds);
    if goto.Some? {
      var r :| r in rules && r.goto == goto;
      ResolversAgree(steps, goto.value);
    }
  }

  lemma FallbackFollowsEdge(steps: seq<Step>, i: nat, s: State, decision: bool)
    requires s.flow.Some? && i < |steps| && RoutesKnown(steps, i) && Given(steps[i].fallback)
    ensures var m := FellBack(steps, i, s, decision); m.Auto? ==> m.s.flow.value.index in Targets(steps, i)
  {
    ResolversAgree(steps, steps[i].fallback.value);
  }

  /** From an automatic step a chain can only go on along the validator's graph. */
  lemma AutomaticMoveIsAnEdge(o: Oracle, steps: seq<Step>, s: State, intent: Option<bool>)
    requires s.flow.Some? && s.flow.value.index < |steps|
    requires var i := s.flow.value.index;
             IsAutomatic(steps[i]) && RoutesKnown(steps, i) && (steps[i].kind.Decision? ==> Given(steps[i].fallback))
    ensures var m := Visit(o, steps, s, intent); m.Auto? ==> m.s.flow.value.index in Targets(steps, s.flow.value.index)
  {
    var i, here := s.flow.value.index, Arrived(s);
    var answer := o(|here.log|);
    match steps[i].kind {
      case Collect => AdvanceFollowsEdge(o, steps, i, here);
      case Validate =>
        AdvanceFollowsEdge(o, steps, i, here);
        if Given(steps[i].fallback) { FallbackFollowsEdge(steps, i, here, false); }
      case ToolCall =>
        if !Given(steps[i].toolId) {
          AdvanceFollowsEdge(o, steps, i, here);
        } else {
          match answer.tool {
            case ToolMissing => GivingUpFollowsEdge(o, steps, i, here);
            case ToolFailed => GivingUpFollowsEdge(o, steps, i, Log(here, ToolCalled(i)));
            case ToolReplied(output) =>
              AdvanceFollowsEdge(o, steps, i,
                Log(here, ToolCalled(i)).(data := WithToolResult(steps[i], here.data, output)));
          }
        }
      case Decision =>
        var key := steps[i].decision.resultKey;
        var data := here.data - {key};
        var choice := AcceptedChoice(steps[i].decision, data, answer.decision);
        if choice.Some? {
          AdvanceFollowsEdge(o, steps, i, Log(here, Judged(i, true)).(data := data[key := Plain(choice.value)]));
        } else {
          FallbackFollowsEdge(steps, i, Log(here, Judged(i, false)).(data := data), true);
        }
      case _ =>
    }
  }

  lemma GivingUpFollowsEdge(o: Oracle, steps: seq<Step>, i: nat, s: State)
    requires s.flow.Some? && i < |steps| && RoutesKnown(steps, i)
    ensures var m := ToolGivenUp(o, steps, i, s); m.Auto? ==> m.s.flow.value.index in Targets(steps, i)
  {
    if Given(steps[i].fallback) {
      FallbackFollowsEdge(steps, i, s, false);
    } else {
      AdvanceFollowsEdge(o, steps, i, s);
    }
  }

  /** Gates, endings and reviews stop a chain that reaches them. */
  lemma OtherStepsStop(o: Oracle, steps: seq<Step>, s: State)
    requires s.flow.Some? && s.flow.value.index < |steps|
    requires RunsByItself(steps[s.flow.value.index]) && !IsAutomatic(steps[s.flow.value.index])
    ensures Visit(o, steps, s, None).Stop?
  {
  }

  // ---- Bounded chains ----

  ghost predicate ExecutableGraph(steps: seq<Step>) {
    && AutomaticRoutesKnown(steps)
    && !HasCycle(AutomaticGraph(steps))
    && forall i :: 0 <= i < |steps| && steps[i].kind.Decision? ==> Given(steps[i].fallback)
  }

  lemma AcceptedIsExecutable(payloads: seq<Step>)
    requires Accepted(payloads)
    ensures ExecutableGraph(Ordered(payloads))
  {
    forall i | 0 <= i < |Ordered(payloads)| && Ordered(payloads)[i].kind.Decision?
      ensures Given(Ordered(payloads)[i].fallback)
    {
      var j := PositionInDefinition(payloads, i);
      assert StepOk(payloads, j);
    }
  }

  lemma PositionInDefinition(payloads: seq<Step>, i: nat) returns (j: nat)
    requires i < |Ordered(payloads)|
    ensures j < |payloads| && payloads[j] == Ordered(payloads)[i]
  {
    OrderedIsSortedPermutation(payloads);
    assert Ordered(payloads)[i] in multiset(payloads);
    j :| 0 <= j < |payloads| && payloads[j] == Ordered(payloads)[i];
  }

  ghost predicate OnChain(steps: seq<Step>, s: State) {
    s.flow.Some? && s.flow.value.index < |steps| && RunsByItself(steps[s.flow.value.index])
  }

  /** Unprompted visits move along the graph, and stop at steps outside it. */
  ghost predicate FollowsGraph(visit: Visitor, steps: seq<Step>, g: Graph) {
    forall s :: OnChain(steps, s) && visit(s, None).Auto? ==>
      var next := visit(s, None).s;
      && OnChain(steps, next) && s.flow.value.index in g
      && (next.flow.value.index in g ==> next.flow.value.index in g[s.flow.value.index])
  }

  lemma VisitsFollowGraph(o: Oracle, steps: seq<Step>)
    requires ExecutableGraph(steps)
    ensures FollowsGraph(Visits(o, steps), steps, AutomaticGraph(steps))
  {
    forall s | OnChain(steps, s) && Visits(o, steps)(s, None).Auto?
      ensures var next := Visits(o, steps)(s, None).s;
              && OnChain(steps, next) && s.flow.value.index in AutomaticGraph(steps)
              && (next.flow.value.index in AutomaticGraph(steps) ==>
                    next.flow.value.index in AutomaticGraph(steps)[s.flow.value.index])
    {
      UnpromptedMove(o, steps, s);
    }
  }

  lemma UnpromptedMove(o: Oracle, steps: seq<Step>, s: State)
    requires ExecutableGraph(steps) && OnChain(steps, s)
    requires Visit(o, steps, s, None).Auto?
    ensures s.flow.value.index in AutomaticGraph(steps)
    ensures var j := Visit(o, steps, s, None).s.flow.value.index;
            j in Automatic(steps) ==> j in AutomaticGraph(steps)[s.flow.value.index]
  {
    if IsAutomatic(steps[s.flow.value.index]) {
      AutomaticMoveIsAnEdge(o, steps, s, None);
    } else {
      OtherStepsStop(o, steps, s);
    }
  }

  /** `path` is the run of automatic steps that led to the current one. */
  lemma {:induction false} ChainIsBounded(visit: Visitor, steps: seq<Step>, g: Graph, s: State, depth: nat, path: seq<nat>)
    requires Closed(g) && !HasCycle(g) && FollowsGraph(visit, steps, g) && OnChain(steps, s)
    requires path != [] ==> IsPath(g, path)
    requires path != [] && s.flow.value.index in g ==> s.flow.value.index in g[path[|path| - 1]]
    ensures |path| + ChainLength(visit, s, None, depth) <= |g| + 1
    decreases if depth > MAX_DEPTH then 0 else MAX_DEPTH + 1 - depth
  {
    var i := s.flow.value.index;
    if path != [] { AcyclicPathsAreShort(g, path); }
    if depth <= MAX_DEPTH && visit(s, None).Auto? {
      if path != [] { ExtendPath(g, path, i); }
      assert IsPath(g, path + [i]);
      ChainIsBounded(visit, steps, g, visit(s, None).s, depth + 1, path + [i]);
    }
  }

  /** An accepted workflow with A automatic steps makes at most A + 2 visits a turn,
      whatever tools, forms, decisions and conditions answer, from any session. */
  lemma AutoAdvanceIsBounded(o: Oracle, payloads: seq<Step>, s: State, intent: Option<bool>)
    requires Accepted(payloads)
    ensures Calls(o, Ordered(payloads), s, intent, 0) <= |Automatic(Ordered(payloads))| + 2
  {
    var steps := Ordered(payloads);
    AcceptedIsExecutable(payloads);
    VisitsFollowGraph(o, steps);
    BoundedFromAnywhere(Visits(o, steps), steps, AutomaticGraph(steps), s, intent);
    assert |AutomaticGraph(steps).Keys| == |AutomaticGraph(steps)|;
  }

  /** The first visit may start anywhere: at a form, a confirmation or an opened gate. */
  lemma BoundedFromAnywhere(visit: Visitor, steps: seq<Step>, g: Graph, s: State, intent: Option<bool>)
    requires Closed(g) && !HasCycle(g) && FollowsGraph(visit, steps, g)
    requires visit(s, intent).Auto? ==> OnChain(steps, visit(s, intent).s)
    ensures ChainLength(visit, s, intent, 0) <= |g| + 2
  {
    if visit(s, intent).Auto? {
      ChainIsBounded(visit, steps, g, visit(s, intent).s, 1, []);
    }
  }

  lemma {:induction false} DepthErrorTakesAllCalls(visit: Visitor, s: State, intent: Option<bool>, depth: nat)
    requires depth <= MAX_DEPTH + 1
    requires forall s, intent :: visit(s, intent).Stop? ==> visit(s, intent).r != Failed(DepthExceeded)
    ensures ChainLength(visit, s, intent, depth) <= MAX_DEPTH + 2 - depth
    ensures Chain(visit, s, intent, depth).1 == Failed(DepthExceeded) <==>
              ChainLength(visit, s, intent, depth) == MAX_DEPTH + 2 - depth
    decreases MAX_DEPTH + 1 - depth
  {
    if depth <= MAX_DEPTH && visit(s, intent).Auto? {
      DepthErrorTakesAllCalls(visit, visit(s, intent).s, None, depth + 1);
    }
  }

  /** With at most 19 automatic steps the depth guard of the executor never fires. */
  lemma DepthGuardUnreachable(o: Oracle, payloads: seq<Step>, s: State, intent: Option<bool>)
    requires Accepted(payloads) && |Automatic(Ordered(payloads))| <= MAX_DEPTH - 1
    ensures Run(o, Ordered(payloads), s, intent, 0).1 != Failed(DepthExceeded)
  {
    AutoAdvanceIsBounded(o, payloads, s, intent);
    DepthErrorTakesAllCalls(Visits(o, Ordered(payloads)), s, intent, 0);
  }

  /** Nor does it after a review, when the chain starts behind the review step. */
  lemma DepthGuardUnreachableAfterReview(o: Oracle, payloads: seq<Step>, s: State)
    requires Accepted(payloads) && |Automatic(Ordered(payloads))| <= MAX_DEPTH - 1
    ensures Resumed(o, Ordered(payloads), s).1 != Failed(DepthExceeded)
  {
    var steps := Ordered(payloads);
    if s.flow.Some? && s.flow.value.index < |steps| {
      var m := Advanced(o, steps, s.flow.value.index, s);
      if m.Auto? {
        AcceptedIsExecutable(payloads);
        VisitsFollowGraph(o, steps);
        ChainIsBounded(Visits(o, steps), steps, AutomaticGraph(steps), m.s, 1, []);
        assert |AutomaticGraph(steps).Keys| == |AutomaticGraph(steps)|;
        DepthErrorTakesAllCalls(Visits(o, steps), m.s, None, 1);
      }
    }
  }
}
