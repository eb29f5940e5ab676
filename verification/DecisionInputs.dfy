/** Where the inputs of decisions come from: which steps can put a field into the session's data,
    and that a decision with an input nobody fills is never accepted. */
module DecisionInputs {
  import opened Options
  import opened Text
  import opened Confirmations
  import opened Workflows
  import opened WorkflowValidation
  import opened WorkflowSemantics
  import opened WorkflowInvariants
  import opened WorkflowSoundness
  import opened WorkflowLaws
  import opened WorkflowLimits
  import opened AutomaticCycles
  import opened WorkflowRoutes

  /** A visit to the step can put the field into the data. */
  predicate Feeds(s: Step, f: string) {
    || (s.kind.Collect? && f in s.fields)
    || (s.kind.ToolCall? && (f in s.outputMapping || f == "_tool_result_" + s.name))
    || (s.kind.Decision? && f == s.decision.resultKey)
    || (s.kind.Complete? && s.webhookUrl && s.webhookEnabled && f == "_webhook_result")
  }

  predicate Fed(steps: seq<Step>, f: string) {
    exists i :: 0 <= i < |steps| && Feeds(steps[i], f)
  }

  predicate LacksIn(f: string, snapshots: seq<Snapshot>) {
    forall k :: 0 <= k < |snapshots| ==> f !in snapshots[k].data
  }

  /** Neither the data nor a snapshot has the field. */
  predicate Lacks(s: State, f: string) {
    f !in s.data && (s.flow.Some? ==> LacksIn(f, s.flow.value.snapshots))
  }

  predicate Needs(steps: seq<Step>, i: nat, f: string) {
    i < |steps| && steps[i].kind.Decision? && f in steps[i].decision.inputFields
  }

  /** No decision that needs the field was accepted. */
  ghost predicate NoneAccepted(steps: seq<Step>, f: string, log: seq<Event>) {
    forall k :: 0 <= k < |log| && log[k].Judged? && log[k].accepted ==> !Needs(steps, log[k].index, f)
  }

  ghost predicate Barren(steps: seq<Step>, f: string, s: State) {
    Lacks(s, f) && NoneAccepted(steps, f, s.log)
  }

  // ---- The moves ----

  lemma ArrivalIsBarren(steps: seq<Step>, f: string, s: State)
    requires Barren(steps, f, s) && s.flow.Some?
    ensures Barren(steps, f, Arrived(s))
  {
  }

  lemma EventsAreBarren(steps: seq<Step>, f: string, s: State, e: Event)
    requires Barren(steps, f, s) && (e.Judged? && e.accepted ==> !Needs(steps, e.index, f))
    ensures Barren(steps, f, Log(s, e))
  {
  }

  lemma AdvanceIsBarren(o: Oracle, steps: seq<Step>, f: string, i: nat, s: State)
    requires Barren(steps, f, s) && s.flow.Some? && i < |steps|
    ensures Barren(steps, f, Advanced(o, steps, i, s).s)
  {
  }

  lemma FallbackIsBarren(steps: seq<Step>, f: string, i: nat, s: State, decision: bool)
    requires Barren(steps, f, s) && s.flow.Some? && i < |steps|
    ensures Barren(steps, f, FellBack(steps, i, s, decision).s)
  {
  }

  lemma {:induction false} BackingLacks(steps: seq<Step>, f: string, current: nat, snapshots: seq<Snapshot>)
    requires LacksIn(f, snapshots)
    ensures LacksIn(f, BackToRefillable(steps, current, snapshots))
  {
    if snapshots != [] && !Refillable(steps, current, snapshots[|snapshots| - 1].index) {
      BackingLacks(steps, f, current, snapshots[..|snapshots| - 1]);
    }
  }

  lemma RollbackIsBarren(steps: seq<Step>, f: string, i: nat, s: State)
    requires Barren(steps, f, s) && s.flow.Some?
    ensures Barren(steps, f, RolledBack(steps, s, i).s)
  {
    BackingLacks(steps, f, i, s.flow.value.snapshots);
  }

  // ---- The steps ----

  lemma FormIsBarren(o: Oracle, steps: seq<Step>, f: string, i: nat, s: State)
    requires Barren(steps, f, s) && s.flow.Some? && i < |steps| && f !in steps[i].fields
    ensures Barren(steps, f, Collected(o, steps, i, s).s)
  {
    if steps[i].fields == [] {
      AdvanceIsBarren(o, steps, f, i, s);
    } else if o(|s.log|).collect.Submitted? {
      AdvanceIsBarren(o, steps, f, i, s.(data := Filled(steps[i].fields, s.data, o(|s.log|).collect)));
    }
  }

  lemma CheckIsBarren(o: Oracle, steps: seq<Step>, f: string, i: nat, s: State)
    requires Barren(steps, f, s) && s.flow.Some? && i < |steps|
    ensures Barren(steps, f, Validated(o, steps, i, s).s)
  {
    AdvanceIsBarren(o, steps, f, i, s);
    FallbackIsBarren(steps, f, i, s, false);
    RollbackIsBarren(steps, f, i, s);
  }

  lemma GivingUpIsBarren(o: Oracle, steps: seq<Step>, f: string, i: nat, s: State)
    requires Barren(steps, f, s) && s.flow.Some? && i < |steps|
    ensures Barren(steps, f, ToolGivenUp(o, steps, i, s).s)
  {
    if Given(steps[i].fallback) {
      FallbackIsBarren(steps, f, i, s, false);
    } else {
      match steps[i].onFailure {
        case Skip => AdvanceIsBarren(o, steps, f, i, s);
        case Escalate => EventsAreBarren(steps, f, s, Queued(EscalatedNotice));
        case Rollback => RollbackIsBarren(steps, f, i, s);
        case _ =>
      }
    }
  }

  lemma CallIsBarren(o: Oracle, steps: seq<Step>, f: string, i: nat, s: State)
    requires Barren(steps, f, s) && s.flow.Some? && i < |steps|
    requires f !in steps[i].outputMapping && f != "_tool_result_" + steps[i].name
    ensures Barren(steps, f, ToolRun(o, steps, i, s).s)
  {
    var called := Log(s, ToolCalled(i));
    EventsAreBarren(steps, f, s, ToolCalled(i));
    AdvanceIsBarren(o, steps, f, i, s);
    GivingUpIsBarren(o, steps, f, i, s);
    GivingUpIsBarren(o, steps, f, i, called);
    if o(|s.log|).tool.ToolReplied? {
      AdvanceIsBarren(o, steps, f, i, called.(data := WithToolResult(steps[i], s.data, o(|s.log|).tool.output)));
    }
  }

  lemma GateIsBarren(o: Oracle, steps: seq<Step>, f: string, i: nat, s: State, intent: Option<bool>)
    requires Barren(steps, f, s) && s.flow.Some? && i < |steps|
    requires f !in steps[i].outputMapping && f != "_tool_result_" + steps[i].name
    ensures Barren(steps, f, ToolGate(o, steps, i, s, intent).s)
  {
    var closed := s.(flow := Some(s.flow.value.(pending := None)));
    CallIsBarren(o, steps, f, i, s);
    CallIsBarren(o, steps, f, i, closed);
    RollbackIsBarren(steps, f, i, closed);
    EventsAreBarren(steps, f, s, GateShown(i));
  }

  lemma DecisionIsBarren(o: Oracle, steps: seq<Step>, f: string, i: nat, s: State)
    requires Barren(steps, f, s) && s.flow.Some? && i < |steps| && steps[i].kind.Decision? && f != steps[i].decision.resultKey
    ensures Barren(steps, f, Decided(o, steps, i, s).s)
  {
    var config := steps[i].decision;
    var cleared := s.(data := s.data - {config.resultKey});
    var choice := AcceptedChoice(config, cleared.data, o(|s.log|).decision);
    if choice.Some? {
      assert !Needs(steps, i, f);
      EventsAreBarren(steps, f, cleared, Judged(i, true));
      AdvanceIsBarren(o, steps, f, i, Log(s, Judged(i, true)).(data := cleared.data[config.resultKey := Plain(choice.value)]));
    } else {
      EventsAreBarren(steps, f, cleared, Judged(i, false));
      FallbackIsBarren(steps, f, i, Log(s, Judged(i, false)).(data := cleared.data), true);
    }
  }

  lemma {:induction false} DeliveryIsBarren(o: Oracle, steps: seq<Step>, f: string, i: nat, log: seq<Event>, attempts: nat)
    requires NoneAccepted(steps, f, log)
    ensures NoneAccepted(steps, f, Delivered(o, i, log, attempts).0)
    decreases attempts
  {
    if attempts > 0 { DeliveryIsBarren(o, steps, f, i, log + [WebhookCalled(i)], attempts - 1); }
  }

  lemma EndIsBarren(o: Oracle, steps: seq<Step>, f: string, i: nat, s: State)
    requires Barren(steps, f, s) && s.flow.Some? && i < |steps|
    requires steps[i].webhookUrl && steps[i].webhookEnabled ==> f != "_webhook_result"
    ensures Barren(steps, f, Ended(o, steps, i, s).s)
  {
    DeliveryIsBarren(o, steps, f, i, s.log, WEBHOOK_ATTEMPTS);
  }

  lemma HandlingIsBarren(o: Oracle, steps: seq<Step>, f: string, i: nat, s: State, intent: Option<bool>)
    requires Barren(steps, f, s) && s.flow.Some? && i < |steps| && !Feeds(steps[i], f)
    ensures Barren(steps, f, Handled(o, steps, i, s, intent).s)
  {
    match steps[i].kind {
      case Collect => FormIsBarren(o, steps, f, i, s);
      case Validate => CheckIsBarren(o, steps, f, i, s);
      case ToolCall => GateIsBarren(o, steps, f, i, s, intent);
      case Decision => DecisionIsBarren(o, steps, f, i, s);
      case Confirm =>
        AdvanceIsBarren(o, steps, f, i, s);
        RollbackIsBarren(steps, f, i, s);
      case HumanReview => EventsAreBarren(steps, f, s, Queued(EscalatedNotice));
      case Complete => EndIsBarren(o, steps, f, i, s);
      case _ =>
    }
  }

  lemma VisitIsBarren(o: Oracle, steps: seq<Step>, f: string, s: State, intent: Option<bool>)
    requires Barren(steps, f, s) && !Fed(steps, f)
    ensures Barren(steps, f, Visit(o, steps, s, intent).s)
  {
    if s.flow.Some? && s.flow.value.index < |steps| {
      ArrivalIsBarren(steps, f, s);
      HandlingIsBarren(o, steps, f, s.flow.value.index, Arrived(s), intent);
    }
  }

  // ---- Turns ----

  ghost predicate StaysBarren(visit: Visitor, steps: seq<Step>, f: string) {
    forall s, intent :: Barren(steps, f, s) ==> Barren(steps, f, visit(s, intent).s)
  }

  lemma {:induction false} ChainIsBarren(visit: Visitor, steps: seq<Step>, f: string, s: State, intent: Option<bool>, depth: nat)
    requires Barren(steps, f, s) && StaysBarren(visit, steps, f)
    ensures Barren(steps, f, Chain(visit, s, intent, depth).0)
    decreases if depth > MAX_DEPTH then 0 else MAX_DEPTH + 1 - depth
  {
    if depth <= MAX_DEPTH && visit(s, intent).Auto? {
      ChainIsBarren(visit, steps, f, visit(s, intent).s, None, depth + 1);
    }
  }

  lemma RunIsBarren(o: Oracle, steps: seq<Step>, f: string, s: State, intent: Option<bool>, depth: nat)
    requires Barren(steps, f, s) && !Fed(steps, f)
    ensures Barren(steps, f, Run(o, steps, s, intent, depth).0)
  {
    forall s, intent | Barren(steps, f, s) ensures Barren(steps, f, Visits(o, steps)(s, intent).s) {
      VisitIsBarren(o, steps, f, s, intent);
    }
    ChainIsBarren(Visits(o, steps), steps, f, s, intent, depth);
  }

  lemma ResumptionIsBarren(o: Oracle, steps: seq<Step>, f: string, s: State)
    requires Barren(steps, f, s) && !Fed(steps, f)
    ensures Barren(steps, f, Resumed(o, steps, s).0)
  {
    if s.flow.Some? && s.flow.value.index < |steps| {
      AdvanceIsBarren(o, steps, f, s.flow.value.index, s);
      var m := Advanced(o, steps, s.flow.value.index, s);
      if m.Auto? { RunIsBarren(o, steps, f, m.s, None, 1); }
    }
  }

  lemma BeginIsBarren(o: Oracle, steps: seq<Step>, f: string, s: State, reason: string)
    requires Barren(steps, f, s) && !Fed(steps, f)
    ensures Barren(steps, f, TurnTaken(o, steps, s, Begin(reason)))
  {
    EventsAreBarren(steps, f, s, TurnStarted(reason, ConfirmationIntent(reason)));
    RunIsBarren(o, steps, f, Started(s, reason), ConfirmationIntent(reason), 0);
  }

  lemma SayingIsBarren(o: Oracle, steps: seq<Step>, f: string, s: State, t: Turn)
    requires t.Say? && Barren(steps, f, s) && !Fed(steps, f)
    ensures Barren(steps, f, TurnTaken(o, steps, s, t))
  {
    var heard, intent := Heard(s, t.message), ConfirmationIntent(t.message);
    EventsAreBarren(steps, f, s, TurnStarted(t.message, intent));
    RunIsBarren(o, steps, f, heard, intent, 0);
    ResumptionIsBarren(o, steps, f, heard);
    FinalizingIsBarren(steps, f, Run(o, steps, heard, intent, 0));
    FinalizingIsBarren(steps, f, Resumed(o, steps, heard));
  }

  lemma FinalizingIsBarren(steps: seq<Step>, f: string, out: (State, Result))
    requires Barren(steps, f, out.0)
    ensures Barren(steps, f, Finalized(out))
  {
  }

  lemma TurnIsBarren(o: Oracle, steps: seq<Step>, f: string, s: State, t: Turn)
    requires Barren(steps, f, s) && !Fed(steps, f)
    ensures Barren(steps, f, TurnTaken(o, steps, s, t))
  {
    if t.Begin? {
      BeginIsBarren(o, steps, f, s, t.reason);
    } else {
      SayingIsBarren(o, steps, f, s, t);
    }
  }

  lemma {:induction false} RunsAreBarren(o: Oracle, steps: seq<Step>, f: string, turns: seq<Turn>)
    requires !Fed(steps, f)
    ensures Barren(steps, f, AfterTurns(o, steps, turns))
  {
    if turns != [] {
      RunsAreBarren(o, steps, f, turns[..|turns| - 1]);
      TurnIsBarren(o, steps, f, AfterTurns(o, steps, turns[..|turns| - 1]), turns[|turns| - 1]);
    }
  }

  /** A decision with an input that no step fills is accepted in no run. */
  lemma UnfedDecisionsAreRejected(o: Oracle, steps: seq<Step>, turns: seq<Turn>, i: nat, f: string)
    requires Needs(steps, i, f) && !Fed(steps, f)
    ensures Judged(i, true) !in AfterTurns(o, steps, turns).log
  {
    RunsAreBarren(o, steps, f, turns);
  }

  // ---- Which fields can appear ----

  /** Everything is answered, forms with this field. */
  function Feeding(f: string, answer: DecisionAnswer): Oracle {
    (n: nat) => Answer(Submitted(map[f := Plain("x")], {}, false), true, ToolReplied(map[]), answer, true,
                       (c: Condition, d: Data) => false)
  }

  /** Some visit puts the field into data that lacked it. */
  ghost predicate CanAppear(steps: seq<Step>, f: string) {
    exists o, s, intent :: Appears(o, steps, s, intent, f)
  }

  ghost predicate Appears(o: Oracle, steps: seq<Step>, s: State, intent: Option<bool>, f: string) {
    Barren(steps, f, s) && f in Visit(o, steps, s, intent).s.data
  }

  lemma FormFeeds(steps: seq<Step>, i: nat, f: string)
    requires i < |steps| && steps[i].kind.Collect? && f in steps[i].fields
    ensures Appears(Feeding(f, NoAnswer), steps, At(i, InProgress, None, map[]), None, f)
  {
    FormVisit(Feeding(f, NoAnswer), steps, At(i, InProgress, None, map[]), i, None);
  }

  lemma ToolFeeds(steps: seq<Step>, i: nat, f: string)
    requires i < |steps| && steps[i].kind.ToolCall? && Given(steps[i].toolId)
    requires f in steps[i].outputMapping || f == "_tool_result_" + steps[i].name
    ensures Appears(Feeding(f, NoAnswer), steps, At(i, InProgress, Some(steps[i].id), map[]), Some(true), f)
  {
    var o, s := Feeding(f, NoAnswer), At(i, InProgress, Some(steps[i].id), map[]);
    GateHears(o, steps, s, i, Some(true));
    var from := if Gated(steps[i]) then Unasked(Arrived(s)) else Arrived(s);
    RunCallsTool(o, steps, i, from);
  }

  lemma DecisionFeeds(steps: seq<Step>, i: nat, f: string)
    requires i < |steps| && steps[i].kind.Decision? && ConfigValid(steps[i].decision) && f == steps[i].decision.resultKey
    ensures CanAppear(steps, f)
  {
    var config := steps[i].decision;
    var choice := SomeChoice(config);
    var o, s := Feeding(f, Answered(Certain(config, choice))), At(i, InProgress, None, Present(config));
    var here := DecisionIsLeft(o, steps, i, s, choice);
    var data := s.data - {f};
    CertainChoiceIsEarned(config, choice, data);
    AcceptedIfEarned(config, data, o(|Arrived(s).log|).decision);
    AdvanceKeepsData(o, steps, i, Log(Arrived(s), Judged(i, true)).(data := data[f := Plain(choice)]));
    assert Appears(o, steps, s, None, f);
  }

  lemma EndFeeds(steps: seq<Step>, i: nat)
    requires i < |steps| && steps[i].kind.Complete? && steps[i].webhookUrl && steps[i].webhookEnabled
    ensures Appears(Feeding("_webhook_result", NoAnswer), steps, At(i, InProgress, None, map[]), None, "_webhook_result")
  {
  }

  /** In an accepted workflow a field can appear in the data if and only if it is a field of a
      form, an output or the result of a tool call, the result of a decision, or the outcome of
      a webhook: fields that other steps declare never do. */
  lemma FieldsAppearExactly(payloads: seq<Step>, f: string)
    requires Accepted(payloads)
    ensures CanAppear(Ordered(payloads), f) <==> Fed(Ordered(payloads), f)
  {
    var steps := Ordered(payloads);
    if Fed(steps, f) {
      var i :| 0 <= i < |steps| && Feeds(steps[i], f);
      var p := PositionInDefinition(payloads, i);
      assert StepOk(payloads, p);
      StepFeeds(steps, i, f);
    } else {
      forall o, s, intent ensures !Appears(o, steps, s, intent, f) {
        if Barren(steps, f, s) { VisitIsBarren(o, steps, f, s, intent); }
      }
    }
  }

  lemma StepFeeds(steps: seq<Step>, i: nat, f: string)
    requires i < |steps| && Feeds(steps[i], f)
    requires steps[i].kind.ToolCall? ==> Given(steps[i].toolId)
    requires steps[i].kind.Decision? ==> ConfigValid(steps[i].decision)
    ensures CanAppear(steps, f)
  {
    match steps[i].kind {
      case Collect => FormFeeds(steps, i, f);
      case ToolCall => ToolFeeds(steps, i, f);
      case Decision => DecisionFeeds(steps, i, f);
      case Complete => EndFeeds(steps, i);
    }
  }

  /** Only records named after a tool step or the webhook can share the key of a decision's result. */
  predicate OnlyRecords(s: Step, key: string) {
    || (s.kind.ToolCall? && key == "_tool_result_" + s.name)
    || (s.kind.Complete? && key == "_webhook_result")
  }

  /** In an accepted workflow the result of a decision is put there by no form, by no mapped tool
      output and by no other decision. */
  lemma ResultsAreTheirOwn(payloads: seq<Step>, i: nat, j: nat)
    requires StepsOk(payloads) && i < |Ordered(payloads)| && j < |Ordered(payloads)| && i != j
    requires Ordered(payloads)[i].kind.Decision?
    ensures var steps, key := Ordered(payloads), Ordered(payloads)[i].decision.resultKey;
            Feeds(steps[j], key) ==> OnlyRecords(steps[j], key)
  {
    var steps := Ordered(payloads);
    StepsAreToldApart(payloads, if i < j then i else j, if i < j then j else i);
    var p := PositionInDefinition(payloads, i);
    var q := PositionInDefinition(payloads, j);
    KeyIsOwn(payloads, p, q);
  }

  lemma DeclaredIsAvailable(payloads: seq<Step>, s: Step)
    requires s in payloads
    ensures forall f :: f in s.fields || f in s.outputMapping ==> f in AvailableInputs(payloads)
  {
  }

  lemma KeyIsOwn(payloads: seq<Step>, p: nat, q: nat)
    requires StepsOk(payloads) && p < |payloads| && q < |payloads| && p != q && payloads[p].kind.Decision?
    ensures var key := payloads[p].decision.resultKey; Feeds(payloads[q], key) ==> OnlyRecords(payloads[q], key)
  {
    assert StepOk(payloads, p) && StepOk(payloads, q);
    DeclaredIsAvailable(payloads, payloads[q]);
  }

  // ---- Acceptance does not ask who fills an input ----

  /** A pause that declares a field nobody asks for, and a decision on it. */
  const UNFED := [
    Plainly("pause", 0, HumanReview, ["x"], []),
    Plainly("judge", 1, Decision, [], [])
      .(decision := DecisionConfig(["x"], ["yes", "other"], "verdict", 0.0, 0.0), fallback := Some("id-pause"))]

  lemma UnfedIdentity()
    ensures IdentityOk(UNFED, 0) && IdentityOk(UNFED, 1)
  {
    StripKeeps("pause");
    StripKeeps("judge");
    assert "pause" != "judge" by { assert "pause"[0] != "judge"[0]; }
  }

  lemma UnfedRouting(refs: set<string>)
    requires "id-pause" in refs
    ensures RoutingOk(UNFED[0], refs) && RoutingOk(UNFED[1], refs)
  {
  }

  lemma IdIsListed(payloads: seq<Step>, s: Step)
    requires s in payloads && s.id != ""
    ensures s.id in TargetRefs(payloads)
  {
  }

  lemma UnfedStepsOk()
    ensures StepsOk(UNFED)
  {
    UnfedIdentity();
    assert UNFED[0] in UNFED && UNFED[0].id == "id-pause";
    IdIsListed(UNFED, UNFED[0]);
    UnfedRouting(TargetRefs(UNFED));
    UnfedDecisionOk();
    PlainStepOk(UNFED, 0, TargetRefs(UNFED));
    BothStepsOk(UNFED);
  }

  lemma UnfedIsOrdered()
    ensures Ordered(UNFED) == UNFED
  {
    AscendingIsOrdered(UNFED);
  }

  lemma UnfedDecisionOk()
    ensures DecisionOk(UNFED, 1)
  {
    assert "x" in AvailableInputs(UNFED) by { assert UNFED[0] in UNFED && "x" in UNFED[0].fields; }
    assert Ids(UNFED)[0] == "id-pause" && WorkflowValidation.Lookup(UNFED, "id-pause") == Some(UNFED[0]);
  }

  /** An input that no step fills is declared by some step that does not ask for it. */
  lemma UnfedInputsAreDeclared(payloads: seq<Step>, i: nat, f: string) returns (j: nat)
    requires StepsOk(payloads) && Needs(Ordered(payloads), i, f) && !Fed(Ordered(payloads), f)
    ensures j < |payloads|
    ensures (f in payloads[j].fields && !payloads[j].kind.Collect?)
            || (f in payloads[j].outputMapping && !payloads[j].kind.ToolCall?)
  {
    var steps := Ordered(payloads);
    var p := PositionInDefinition(payloads, i);
    assert StepOk(payloads, p) && f in AvailableInputs(payloads);
    var s :| s in payloads && (f in s.fields || f in s.outputMapping);
    j :| 0 <= j < |payloads| && payloads[j] == s;
    OrderedIsSortedPermutation(payloads);
    assert s in multiset(steps);
    var k :| 0 <= k < |steps| && steps[k] == s;
    assert !Feeds(steps[k], f);
  }

  /** Validation accepts a decision on a field that a step other than a form declares, and no run
      of such a workflow accepts that decision. */
  lemma AcceptedButNeverDecided(o: Oracle, turns: seq<Turn>)
    ensures Accepted(UNFED) && Needs(Ordered(UNFED), 1, "x")
    ensures Judged(1, true) !in AfterTurns(o, Ordered(UNFED), turns).log
  {
    UnfedStepsOk();
    UnfedIsOrdered();
    assert Automatic(UNFED) == {1};
    assert Reference(UNFED, "id-pause") == Some(0) by { assert Ids(UNFED)[0] == "id-pause"; }
    ClearedIsAcyclic(AutomaticGraph(UNFED), [1]);
    UnfedDecisionsAreRejected(o, UNFED, turns, 1, "x");
  }
}
