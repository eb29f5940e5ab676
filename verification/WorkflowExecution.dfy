/** The workflow executor: handlers that update the session in place and call each
    other, each proved to do what one visit of `WorkflowSemantics` says. */
module WorkflowExecution {
  import opened Options
  import opened Workflows
  import opened Confirmations
  import opened WorkflowSemantics
  import Text
  import Decisions

  /** First match wins; a rule without a condition always matches. */
  method EvaluateRules(rules: seq<Rule>, data: Data, holds: (Condition, Data) -> bool)
      returns (goto: Option<string>)
    ensures goto == FirstMatch(rules, data, holds)
  {
    for k := 0 to |rules|
      invariant FirstMatch(rules[k..], data, holds) == FirstMatch(rules, data, holds)
    {
      var rule := rules[k];
      assert rules[k..][1..] == rules[k + 1..];
      if rule.condition.None? || holds(rule.condition.value, data) {
        return rule.goto;
      }
    }
    goto := None;
  }

  class Executor {
    const steps: seq<Step>
    const world: Oracle
    var flow: Option<Flow>
    var data: Data
    var log: seq<Event>

    ghost function View(): State
      reads this
    {
      State(flow, data, log)
    }

    constructor (steps: seq<Step>, world: Oracle)
      ensures View() == FRESH && this.steps == steps && this.world == world
    {
      this.steps, this.world := steps, world;
      flow, data, log := None, map[], [];
    }

    method FindId(target: string) returns (found: Option<nat>)
      ensures found == IndexOf(Ids(steps), target)
    {
      for i := 0 to |steps|
        invariant target !in Ids(steps)[..i]
      {
        if steps[i].id == target {
          FirstIsUnique(Ids(steps), target, i);
          return Some(i);
        }
      }
      assert Ids(steps)[..|steps|] == Ids(steps);
      found := None;
    }

    method FindName(target: string) returns (found: Option<nat>)
      ensures found == IndexOf(Names(steps), target)
    {
      for i := 0 to |steps|
        invariant target !in Names(steps)[..i]
      {
        if steps[i].name == target {
          FirstIsUnique(Names(steps), target, i);
          return Some(i);
        }
      }
      assert Names(steps)[..|steps|] == Names(steps);
      found := None;
    }

    method FindOrder(target: int) returns (found: Option<nat>)
      ensures found == IndexOf(Orders(steps), target)
    {
      for i := 0 to |steps|
        invariant target !in Orders(steps)[..i]
      {
        if steps[i].order == target {
          FirstIsUnique(Orders(steps), target, i);
          return Some(i);
        }
      }
      assert Orders(steps)[..|steps|] == Orders(steps);
      found := None;
    }

    /** Ids survive renaming and reordering; names and order numbers are older forms. */
    method ResolveStepTarget(target: Option<string>) returns (found: Option<nat>)
      ensures found == if target.Some? then Resolve(steps, target.value) else None
    {
      if target.None? {
        return None;
      }
      found := FindId(target.value);
      if found.None? {
        found := FindName(target.value);
      }
      if found.None? {
        var number := Text.ParseInt(target.value);
        if number.Some? {
          found := FindOrder(number.value);
        }
      }
    }

    method PerformRollback(current: nat) returns (r: Result)
      requires flow.Some?
      modifies this
      ensures Stop(View(), r) == RolledBack(steps, old(View()), current)
    {
      var snapshots := flow.value.snapshots;
      if snapshots == [] {
        return Failed(NoSnapshot);
      }
      while snapshots != [] && !Refillable(steps, current, snapshots[|snapshots| - 1].index)
        invariant BackToRefillable(steps, current, snapshots)
               == BackToRefillable(steps, current, old(flow.value.snapshots))
        decreases |snapshots|
      {
        snapshots := snapshots[..|snapshots| - 1];
      }
      if snapshots == [] {
        return Failed(NothingToRefill);
      }
      var prev := snapshots[|snapshots| - 1];
      flow := Some(flow.value.(index := prev.index, snapshots := snapshots, status := InProgress, pending := None));
      data := prev.data;
      return Waiting;
    }

    method EnterStep(next: nat, depth: nat) returns (r: Result)
      requires flow.Some? && next < |steps| && depth <= MAX_DEPTH
      modifies this
      ensures (View(), r) == Continued(world, steps, Entered(steps, next, old(View())), depth)
      decreases MAX_DEPTH + 1 - depth, 1
    {
      flow := Some(flow.value.(index := next, status := InProgress));
      if RunsByItself(steps[next]) {
        SilenceIsNoIntent();
        r := ProcessStep("", depth + 1);
      } else {
        r := Waiting;
      }
    }

    method Advance(current: nat, depth: nat) returns (r: Result)
      requires flow.Some? && current < |steps| && depth <= MAX_DEPTH
      modifies this
      ensures (View(), r) == Continued(world, steps, Advanced(world, steps, current, old(View())), depth)
      decreases MAX_DEPTH + 1 - depth, 2
    {
      var next := current + 1;
      if steps[current].rules != [] {
        var goto := EvaluateRules(steps[current].rules, data, world(|log|).holds);
        if goto.Some? {
          var resolved := ResolveStepTarget(goto);
          if resolved.None? {
            return Failed(BadBranch);
          }
          next := resolved.value;
        }
      }
      if next >= |steps| {
        flow := Some(flow.value.(index := next, status := Completed));
        return Finished;
      }
      r := EnterStep(next, depth);
    }

    method FollowFallback(current: nat, decision: bool, depth: nat) returns (r: Result)
      requires flow.Some? && current < |steps| && depth <= MAX_DEPTH
      modifies this
      ensures (View(), r) == Continued(world, steps, FellBack(steps, current, old(View()), decision), depth)
      decreases MAX_DEPTH + 1 - depth, 2
    {
      var target := ResolveStepTarget(steps[current].fallback);
      if target.None? {
        return Failed(MissingFallback);
      }
      if decision && !Safe(steps[target.value]) {
        return Failed(UnsafeFallback);
      }
      r := EnterStep(target.value, depth);
    }

    method HandleCollect(current: nat, depth: nat) returns (r: Result)
      requires flow.Some? && current < |steps| && depth <= MAX_DEPTH
      modifies this
      ensures (View(), r) == Continued(world, steps, Collected(world, steps, current, old(View())), depth)
      decreases MAX_DEPTH + 1 - depth, 3
    {
      if steps[current].fields == [] {
        r := Advance(current, depth);
        return;
      }
      var answer := world(|log|).collect;
      if answer.Unusable? {
        return Waiting;
      }
      data := Filled(steps[current].fields, data, answer);
      if !answer.complete {
        return Waiting;
      }
      r := Advance(current, depth);
    }

    method HandleValidate(current: nat, depth: nat) returns (r: Result)
      requires flow.Some? && current < |steps| && depth <= MAX_DEPTH
      modifies this
      ensures (View(), r) == Continued(world, steps, Validated(world, steps, current, old(View())), depth)
      decreases MAX_DEPTH + 1 - depth, 3
    {
      if !world(|log|).checksPass {
        if Given(steps[current].fallback) {
          r := FollowFallback(current, false, depth);
          return;
        }
        if steps[current].onFailure.Rollback? {
          r := PerformRollback(current);
          return;
        }
        return Waiting;
      }
      r := Advance(current, depth);
    }

    method HandleToolFailure(current: nat, depth: nat) returns (r: Result)
      requires flow.Some? && current < |steps| && depth <= MAX_DEPTH
      modifies this
      ensures (View(), r) == Continued(world, steps, ToolGivenUp(world, steps, current, old(View())), depth)
      decreases MAX_DEPTH + 1 - depth, 3
    {
      if Given(steps[current].fallback) {
        r := FollowFallback(current, false, depth);
      } else if steps[current].onFailure.Skip? {
        r := Advance(current, depth);
      } else if steps[current].onFailure.Escalate? {
        log := log + [Queued(EscalatedNotice)];
        flow, data := None, map[];
        r := Escalated;
      } else if steps[current].onFailure.Rollback? {
        r := PerformRollback(current);
      } else {
        r := Failed(ToolFault);
      }
    }

    method HandleToolCall(current: nat, depth: nat) returns (r: Result)
      requires flow.Some? && current < |steps| && depth <= MAX_DEPTH
      modifies this
      ensures (View(), r) == Continued(world, steps, ToolRun(world, steps, current, old(View())), depth)
      decreases MAX_DEPTH + 1 - depth, 4
    {
      if !Given(steps[current].toolId) {
        r := Advance(current, depth);
        return;
      }
      var answer := world(|log|).tool;
      match answer {
        case ToolMissing =>
          r := HandleToolFailure(current, depth);
        case ToolFailed =>
          log := log + [ToolCalled(current)];
          r := HandleToolFailure(current, depth);
        case ToolReplied(output) =>
          log := log + [ToolCalled(current)];
          data := WithToolResult(steps[current], data, output);
          r := Advance(current, depth);
      }
    }

    /** First entry always shows the gate; only an affirmative to a shown gate opens it. */
    method HandleToolGate(current: nat, input: string, depth: nat) returns (r: Result)
      requires flow.Some? && current < |steps| && depth <= MAX_DEPTH
      modifies this
      ensures (View(), r) == Continued(world, steps, ToolGate(world, steps, current, old(View()), ConfirmationIntent(input)), depth)
      decreases MAX_DEPTH + 1 - depth, 5
    {
      if steps[current].requiresConfirm {
        var intent := ConfirmationIntent(input);
        var shown := flow.value.pending == Some(steps[current].id);
        if !shown || intent != Some(true) {
          if shown && intent == Some(false) {
            flow := Some(flow.value.(pending := None));
            r := PerformRollback(current);
            return;
          }
          flow := Some(flow.value.(pending := Some(steps[current].id)));
          log := log + [GateShown(current)];
          return Waiting;
        }
        flow := Some(flow.value.(pending := None));
      }
      r := HandleToolCall(current, depth);
    }

    method HandleDecision(current: nat, depth: nat) returns (r: Result)
      requires flow.Some? && current < |steps| && depth <= MAX_DEPTH
      modifies this
      ensures (View(), r) == Continued(world, steps, Decided(world, steps, current, old(View())), depth)
      decreases MAX_DEPTH + 1 - depth, 3
    {
      var config := steps[current].decision;
      if !ConfigValid(config) {
        return Failed(BadDecisionConfig);
      }
      var choice := AcceptedChoice(config, data - {config.resultKey}, world(|log|).decision);
      data := data - {config.resultKey};
      if choice.Some? {
        data := data[config.resultKey := Plain(choice.value)];
      }
      log := log + [Judged(current, choice.Some?)];
      if choice.Some? {
        r := Advance(current, depth);
      } else {
        r := FollowFallback(current, true, depth);
      }
    }

    method HandleConfirm(current: nat, input: string, depth: nat) returns (r: Result)
      requires flow.Some? && current < |steps| && depth <= MAX_DEPTH
      modifies this
      ensures (View(), r) == Continued(world, steps, Confirmed(world, steps, current, old(View()), ConfirmationIntent(input)), depth)
      decreases MAX_DEPTH + 1 - depth, 3
    {
      var intent := ConfirmationIntent(input);
      if intent == Some(false) {
        r := PerformRollback(current);
        return;
      }
      if intent == Some(true) {
        r := Advance(current, depth);
        return;
      }
      r := Waiting;
    }

    method HandleHumanReview(current: nat) returns (r: Result)
      requires flow.Some?
      modifies this
      ensures Stop(View(), r) == Paused(current, old(View()))
    {
      flow := Some(flow.value.(index := current, status := PausedForReview));
      log := log + [Queued(EscalatedNotice)];
      r := Escalated;
    }

    /** Posts until a delivery succeeds or the attempts are used up. */
    method DeliverCompleteWebhook(current: nat) returns (ok: bool)
      requires flow.Some?
      modifies this
      ensures (log, ok) == Delivered(world, current, old(log), WEBHOOK_ATTEMPTS)
      ensures data == old(data)["_webhook_result" := if ok then WEBHOOK_OK else WEBHOOK_FAILED]
      ensures flow == if ok then old(flow) else Some(old(flow).value.(index := current, status := AwaitRetry))
    {
      for attempt := 0 to WEBHOOK_ATTEMPTS
        invariant flow == old(flow) && data == old(data)
        invariant Delivered(world, current, log, WEBHOOK_ATTEMPTS - attempt)
               == Delivered(world, current, old(log), WEBHOOK_ATTEMPTS)
      {
        var delivered := world(|log|).delivered;
        log := log + [WebhookCalled(current)];
        if delivered {
          data := data["_webhook_result" := WEBHOOK_OK];
          return true;
        }
      }
      data := data["_webhook_result" := WEBHOOK_FAILED];
      flow := Some(flow.value.(index := current, status := AwaitRetry));
      ok := false;
    }

    method HandleComplete(current: nat) returns (r: Result)
      requires flow.Some? && current < |steps|
      modifies this
      ensures Stop(View(), r) == Ended(world, steps, current, old(View()))
    {
      flow := Some(flow.value.(index := current, status := Completed));
      var exhausted := false;
      if steps[current].webhookUrl && steps[current].webhookEnabled {
        var ok := DeliverCompleteWebhook(current);
        exhausted := !ok;
      }
      if exhausted {
        log := log + [Queued(SubmitFailedNotice)];
        return RetryLater;
      }
      log := log + [Queued(CompletedNotice)];
      r := Finished;
    }

    /** Remembers the data the step is entered with. */
    method TakeSnapshot()
      requires flow.Some?
      modifies this
      ensures View() == Arrived(old(View()))
    {
      var current := flow.value.index;
      var snapshots := flow.value.snapshots;
      if snapshots == [] || snapshots[|snapshots| - 1].index != current {
        snapshots := snapshots + [Snapshot(current, data)];
      }
      if |snapshots| > MAX_SNAPSHOTS {
        snapshots := snapshots[|snapshots| - MAX_SNAPSHOTS..];
      }
      flow := Some(flow.value.(snapshots := snapshots));
      log := log + [Visited(current, data)];
    }

    /** Runs the handler of the step just arrived at. */
    method Dispatch(input: string, depth: nat, ghost before: State) returns (r: Result)
      requires before.flow.Some? && before.flow.value.index < |steps| && depth <= MAX_DEPTH
      requires View() == Arrived(before)
      modifies this
      ensures (View(), r) == Continued(world, steps, Visit(world, steps, before, ConfirmationIntent(input)), depth)
      decreases MAX_DEPTH + 1 - depth, 7
    {
      var current := flow.value.index;
      match steps[current].kind {
        case Collect => r := HandleCollect(current, depth);
        case Validate => r := HandleValidate(current, depth);
        case ToolCall => r := HandleToolGate(current, input, depth);
        case Decision => r := HandleDecision(current, depth);
        case Confirm => r := HandleConfirm(current, input, depth);
        case HumanReview => r := HandleHumanReview(current);
        case Complete => r := HandleComplete(current);
        case Unset => r := Failed(UnknownStepType);
        case OtherType(_) => r := Failed(UnknownStepType);
      }
    }

    method VisitStep(input: string, depth: nat) returns (r: Result)
      requires depth <= MAX_DEPTH
      modifies this
      ensures (View(), r) == Continued(world, steps, Visit(world, steps, old(View()), ConfirmationIntent(input)), depth)
      decreases MAX_DEPTH + 1 - depth, 8
    {
      if flow.None? {
        return Failed(NoWorkflow);
      }
      if steps == [] {
        return Failed(NoSteps);
      }
      if flow.value.index >= |steps| {
        return Finished;
      }
      ghost var before := View();
      TakeSnapshot();
      r := Dispatch(input, depth, before);
    }

    method ProcessStep(input: string, depth: nat) returns (r: Result)
      modifies this
      ensures (View(), r) == Run(world, steps, old(View()), ConfirmationIntent(input), depth)
      decreases if depth > MAX_DEPTH then 0 else MAX_DEPTH + 1 - depth, 9
    {
      if depth > MAX_DEPTH {
        return Failed(DepthExceeded);
      }
      r := VisitStep(input, depth);
    }

    method ResumeAfterReview() returns (r: Result)
      modifies this
      ensures (View(), r) == Resumed(world, steps, old(View()))
    {
      if flow.None? {
        return Failed(NoWorkflow);
      }
      var current := flow.value.index;
      if current >= |steps| {
        return Failed(CannotResume);
      }
      r := Advance(current, 0);
    }

    method CancelWorkflow()
      requires flow.Some?
      modifies this
      ensures View() == old(View()).(flow := Some(old(flow).value.(status := Cancelled)), data := map[])
    {
      flow := Some(flow.value.(status := Cancelled));
      data := map[];
    }

    method FinalizeTurn(r: Result)
      modifies this
      ensures View() == Finalized((old(View()), r))
    {
      if r.Finished? {
        flow, data := None, map[];
      }
    }

    /** One turn of the session, as the runtime routes it. */
    method TakeTurn(t: Turn)
      modifies this
      ensures View() == TurnTaken(world, steps, old(View()), t)
    {
      match t {
        case Begin(reason) =>
          if flow.None? || flow.value.status.Completed? || flow.value.status.Cancelled? {
            flow, data := Some(Flow(0, InProgress, [], None)), map[];
            log := log + [TurnStarted(reason, ConfirmationIntent(reason))];
            var _ := ProcessStep(reason, 0);
          }
        case Say(message, leaves, retries, resumes) =>
          if flow.None? || flow.value.status.Completed? || flow.value.status.Cancelled? {
            flow := None;
          } else if leaves {
            CancelWorkflow();
          } else if flow.value.status.PausedForReview? {
            if resumes {
              log := log + [TurnStarted(message, ConfirmationIntent(message))];
              var r := ResumeAfterReview();
              FinalizeTurn(r);
            }
          } else if retries || !flow.value.status.AwaitRetry? {
            log := log + [TurnStarted(message, ConfirmationIntent(message))];
            var r := ProcessStep(message, 0);
            FinalizeTurn(r);
          }
      }
    }
  }
}
