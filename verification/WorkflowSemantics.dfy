/** What one turn of a workflow does, as a function of the session and of the answers
    that forms, tools, webhooks, decisions and branch conditions give.

    A turn is a chain of visits. A visit handles the current step and either stops
    with a result or leaves the session at a further step that runs by itself. */
module WorkflowSemantics {
  import opened Options
  import opened Text
  import opened Workflows
  import opened Confirmations
  import Decisions

  datatype Value = Plain(text: string) | Record(items: map<string, string>)
  type Data = map<string, Value>

  // ---- Answers from outside ----

  /** What a message or form yields at a collect step: nothing usable, or values of which
      some are dropped again, and whether every required field is now present and valid. */
  datatype CollectAnswer = Unusable | Submitted(provided: Data, dropped: set<string>, complete: bool)

  /** `ToolMissing` fails before any request leaves the server. */
  datatype ToolAnswer = ToolMissing | ToolFailed | ToolReplied(output: map<string, string>)

  datatype DecisionAnswer = NoAnswer | Answered(answer: Decisions.Answer)

  datatype Answer = Answer(
    collect: CollectAnswer, checksPass: bool, tool: ToolAnswer, decision: DecisionAnswer,
    delivered: bool, holds: (Condition, Data) -> bool)

  /** The outside world answers by the position in the session's log, hence arbitrarily. */
  type Oracle = nat -> Answer

  // ---- The session ----

  datatype Status = InProgress | AwaitRetry | PausedForReview | Completed | Cancelled

  datatype Snapshot = Snapshot(index: nat, data: Data)

  datatype Flow = Flow(index: nat, status: Status, snapshots: seq<Snapshot>, pending: Option<string>)

  datatype Notice = EscalatedNotice | SubmitFailedNotice | CompletedNotice

  datatype Event =
    | TurnStarted(text: string, intent: Option<bool>)
    | Visited(index: nat, data: Data)
    | GateShown(index: nat)
    | ToolCalled(index: nat)
    | WebhookCalled(index: nat)
    | Judged(index: nat, accepted: bool)
    | Queued(notice: Notice)

  datatype State = State(flow: Option<Flow>, data: Data, log: seq<Event>)

  datatype Fault =
    | DepthExceeded | NoWorkflow | NoSteps | UnknownStepType | BadBranch
    | MissingFallback | UnsafeFallback | BadDecisionConfig | ToolFault
    | NoSnapshot | NothingToRefill | CannotResume

  datatype Result = Waiting | Finished | Escalated | RetryLater | Failed(fault: Fault)

  /** A visit stops, or leaves the session at a step that runs without input. */
  datatype Move = Stop(s: State, r: Result) | Auto(s: State)

  /** A chain goes on only at a step that runs by itself; only the depth guard reports depth. */
  predicate WellMade(steps: seq<Step>, m: Move) {
    match m
    case Auto(s) => s.flow.Some? && s.flow.value.index < |steps| && RunsByItself(steps[s.flow.value.index])
    case Stop(_, r) => r != Failed(DepthExceeded)
  }

  /** No handler takes its own step for an unknown one. */
  predicate KnowsType(m: Move) {
    m.Stop? ==> m.r != Failed(UnknownStepType)
  }

  const MAX_DEPTH := 20
  const MAX_SNAPSHOTS := 5
  const WEBHOOK_ATTEMPTS := 4

  // ---- Snapshots and rollback ----

  function Newest(snapshots: seq<Snapshot>): seq<Snapshot> {
    if |snapshots| > MAX_SNAPSHOTS then snapshots[|snapshots| - MAX_SNAPSHOTS..] else snapshots
  }

  function Snapped(f: Flow, data: Data): Flow {
    var grown := if f.snapshots == [] || f.snapshots[|f.snapshots| - 1].index != f.index
                 then f.snapshots + [Snapshot(f.index, data)] else f.snapshots;
    f.(snapshots := Newest(grown))
  }

  /** A step that the user can fill in again, other than the current one. */
  predicate Refillable(steps: seq<Step>, current: nat, index: nat) {
    index != current && index < |steps| && steps[index].kind.Collect? && steps[index].fields != []
  }

  function BackToRefillable(steps: seq<Step>, current: nat, snapshots: seq<Snapshot>): seq<Snapshot> {
    if snapshots == [] || Refillable(steps, current, snapshots[|snapshots| - 1].index) then snapshots
    else BackToRefillable(steps, current, snapshots[..|snapshots| - 1])
  }

  function RolledBack(steps: seq<Step>, s: State, current: nat): (m: Move)
    requires s.flow.Some?
    ensures WellMade(steps, m) && KnowsType(m)
  {
    var f := s.flow.value;
    var kept := BackToRefillable(steps, current, f.snapshots);
    if f.snapshots == [] then Stop(s, Failed(NoSnapshot))
    else if kept == [] then Stop(s, Failed(NothingToRefill))
    else
      var target := kept[|kept| - 1];
      Stop(s.(flow := Some(Flow(target.index, InProgress, kept, None)), data := target.data), Waiting)
  }

  // ---- Moving on ----

  predicate RunsByItself(s: Step) {
    || s.kind.Validate? || s.kind.ToolCall? || s.kind.Decision? || s.kind.Complete? || s.kind.HumanReview?
    || (s.kind.Collect? && s.fields == [])
  }

  function Entered(steps: seq<Step>, j: nat, s: State): (m: Move)
    requires s.flow.Some? && j < |steps|
    ensures WellMade(steps, m) && KnowsType(m)
  {
    var s' := s.(flow := Some(s.flow.value.(index := j, status := InProgress)));
    if RunsByItself(steps[j]) then Auto(s') else Stop(s', Waiting)
  }

  /** The target of the first rule whose condition holds or that has none. */
  function FirstMatch(rules: seq<Rule>, data: Data, holds: (Condition, Data) -> bool): Option<string> {
    if rules == [] then None
    else if rules[0].condition.None? || holds(rules[0].condition.value, data) then rules[0].goto
    else FirstMatch(rules[1..], data, holds)
  }

  function Advanced(o: Oracle, steps: seq<Step>, i: nat, s: State): (m: Move)
    requires s.flow.Some? && i < |steps|
    ensures WellMade(steps, m) && KnowsType(m)
  {
    var goto := FirstMatch(steps[i].rules, s.data, o(|s.log|).holds);
    var next := if goto.Some? then Resolve(steps, goto.value) else Some(i + 1);
    if next.None? then Stop(s, Failed(BadBranch))
    else if next.value >= |steps| then
      Stop(s.(flow := Some(s.flow.value.(index := next.value, status := Completed))), Finished)
    else Entered(steps, next.value, s)
  }

  function FellBack(steps: seq<Step>, i: nat, s: State, decision: bool): (m: Move)
    requires s.flow.Some? && i < |steps|
    ensures WellMade(steps, m) && KnowsType(m)
  {
    var target := if steps[i].fallback.Some? then Resolve(steps, steps[i].fallback.value) else None;
    if target.None? then Stop(s, Failed(MissingFallback))
    else if decision && !Safe(steps[target.value]) then Stop(s, Failed(UnsafeFallback))
    else Entered(steps, target.value, s)
  }

  // ---- One step of each type ----

  function Log(s: State, e: Event): State {
    s.(log := s.log + [e])
  }

  function Filled(fields: seq<string>, data: Data, a: CollectAnswer): Data
    requires a.Submitted?
  {
    data + (map k | k in a.provided && k in fields && k !in a.dropped :: a.provided[k])
    - (set k | k in a.dropped && k in a.provided && k in fields)
  }

  function Collected(o: Oracle, steps: seq<Step>, i: nat, s: State): (m: Move)
    requires s.flow.Some? && i < |steps|
    ensures WellMade(steps, m) && KnowsType(m)
  {
    if steps[i].fields == [] then Advanced(o, steps, i, s) else
    match o(|s.log|).collect
    case Unusable => Stop(s, Waiting)
    case Submitted(_, _, complete) =>
      var s' := s.(data := Filled(steps[i].fields, s.data, o(|s.log|).collect));
      if complete then Advanced(o, steps, i, s') else Stop(s', Waiting)
  }

  function Validated(o: Oracle, steps: seq<Step>, i: nat, s: State): (m: Move)
    requires s.flow.Some? && i < |steps|
    ensures WellMade(steps, m) && KnowsType(m)
  {
    if o(|s.log|).checksPass then Advanced(o, steps, i, s)
    else if Given(steps[i].fallback) then FellBack(steps, i, s, false)
    else if steps[i].onFailure.Rollback? then RolledBack(steps, s, i)
    else Stop(s, Waiting)
  }

  function Lookup(m: map<string, string>, k: string): string {
    if k in m then m[k] else ""
  }

  function WithToolResult(step: Step, data: Data, output: map<string, string>): Data {
    (data + map k | k in step.outputMapping :: Plain(Lookup(output, step.outputMapping[k])))
    ["_tool_result_" + step.name := Record(output)]
  }

  function ToolGivenUp(o: Oracle, steps: seq<Step>, i: nat, s: State): (m: Move)
    requires s.flow.Some? && i < |steps|
    ensures WellMade(steps, m) && KnowsType(m)
  {
    if Given(steps[i].fallback) then FellBack(steps, i, s, false) else
    match steps[i].onFailure
    case Skip => Advanced(o, steps, i, s)
    case Escalate => Stop(Log(s, Queued(EscalatedNotice)).(flow := None, data := map[]), Escalated)
    case Rollback => RolledBack(steps, s, i)
    case _ => Stop(s, Failed(ToolFault))
  }

  function ToolRun(o: Oracle, steps: seq<Step>, i: nat, s: State): (m: Move)
    requires s.flow.Some? && i < |steps|
    ensures WellMade(steps, m) && KnowsType(m)
  {
    if !Given(steps[i].toolId) then Advanced(o, steps, i, s) else
    match o(|s.log|).tool
    case ToolMissing => ToolGivenUp(o, steps, i, s)
    case ToolFailed => ToolGivenUp(o, steps, i, Log(s, ToolCalled(i)))
    case ToolReplied(output) =>
      var s' := Log(s, ToolCalled(i)).(data := WithToolResult(steps[i], s.data, output));
      Advanced(o, steps, i, s')
  }

  /** A tool step that wants its requester's word first. */
  function ToolGate(o: Oracle, steps: seq<Step>, i: nat, s: State, intent: Option<bool>): (m: Move)
    requires s.flow.Some? && i < |steps|
    ensures WellMade(steps, m) && KnowsType(m)
  {
    var f := s.flow.value;
    var closed := s.(flow := Some(f.(pending := None)));
    if !steps[i].requiresConfirm then ToolRun(o, steps, i, s)
    else if f.pending == Some(steps[i].id) && intent == Some(true) then ToolRun(o, steps, i, closed)
    else if f.pending == Some(steps[i].id) && intent == Some(false) then RolledBack(steps, closed, i)
    else Stop(Log(s, GateShown(i)).(flow := Some(f.(pending := Some(steps[i].id)))), Waiting)
  }

  predicate InputsPresent(config: DecisionConfig, data: Data) {
    forall f :: f in config.inputFields ==> f in data && data[f] != Plain("")
  }

  /** The choice a decision step settles on, if its answer is usable and accepted. */
  function AcceptedChoice(config: DecisionConfig, data: Data, a: DecisionAnswer): Option<string> {
    if !InputsPresent(config, data) || a.NoAnswer? then None else
    var parsed := Decisions.ParseChoice(a.answer, config);
    if parsed.Some? && Decisions.Accepted(parsed.value, config) then Some(parsed.value.choice) else None
  }

  function Decided(o: Oracle, steps: seq<Step>, i: nat, s: State): (m: Move)
    requires s.flow.Some? && i < |steps|
    ensures WellMade(steps, m) && KnowsType(m)
  {
    var config := steps[i].decision;
    if !ConfigValid(config) then Stop(s, Failed(BadDecisionConfig)) else
    var data := s.data - {config.resultKey};
    var choice := AcceptedChoice(config, data, o(|s.log|).decision);
    if choice.Some?
    then Advanced(o, steps, i, Log(s, Judged(i, true)).(data := data[config.resultKey := Plain(choice.value)]))
    else FellBack(steps, i, Log(s, Judged(i, false)).(data := data), true)
  }

  function Confirmed(o: Oracle, steps: seq<Step>, i: nat, s: State, intent: Option<bool>): (m: Move)
    requires s.flow.Some? && i < |steps|
    ensures WellMade(steps, m) && KnowsType(m)
  {
    match intent
    case Some(false) => RolledBack(steps, s, i)
    case Some(true) => Advanced(o, steps, i, s)
    case None => Stop(s, Waiting)
  }

  function Paused(i: nat, s: State): (m: Move)
    requires s.flow.Some?
  {
    Stop(Log(s, Queued(EscalatedNotice)).(flow := Some(s.flow.value.(index := i, status := PausedForReview))), Escalated)
  }

  /** The log after at most `attempts` deliveries, and whether one succeeded. */
  function Delivered(o: Oracle, i: nat, log: seq<Event>, attempts: nat): (seq<Event>, bool)
    decreases attempts
  {
    if attempts == 0 then (log, false)
    else if o(|log|).delivered then (log + [WebhookCalled(i)], true)
    else Delivered(o, i, log + [WebhookCalled(i)], attempts - 1)
  }

  const WEBHOOK_OK := Record(map["ok" := "true"])
  const WEBHOOK_FAILED := Record(map["ok" := "false"])

  function Ended(o: Oracle, steps: seq<Step>, i: nat, s: State): (m: Move)
    requires s.flow.Some? && i < |steps|
    ensures WellMade(steps, m) && KnowsType(m)
  {
    var f := s.flow.value.(index := i, status := Completed);
    if !(steps[i].webhookUrl && steps[i].webhookEnabled) then
      Stop(Log(s, Queued(CompletedNotice)).(flow := Some(f)), Finished)
    else
      var (log, ok) := Delivered(o, i, s.log, WEBHOOK_ATTEMPTS);
      if ok then
        Stop(State(Some(f), s.data["_webhook_result" := WEBHOOK_OK], log + [Queued(CompletedNotice)]), Finished)
      else
        Stop(State(Some(f.(status := AwaitRetry)), s.data["_webhook_result" := WEBHOOK_FAILED],
                   log + [Queued(SubmitFailedNotice)]), RetryLater)
  }

  // ---- Visits, chains of visits and turns ----

  function Handled(o: Oracle, steps: seq<Step>, i: nat, s: State, intent: Option<bool>): (m: Move)
    requires s.flow.Some? && i < |steps|
    ensures WellMade(steps, m)
    ensures KnowsType(m) <==> !steps[i].kind.Unset? && !steps[i].kind.OtherType?
  {
    match steps[i].kind
    case Collect => Collected(o, steps, i, s)
    case Validate => Validated(o, steps, i, s)
    case ToolCall => ToolGate(o, steps, i, s, intent)
    case Decision => Decided(o, steps, i, s)
    case Confirm => Confirmed(o, steps, i, s, intent)
    case HumanReview => Paused(i, s)
    case Complete => Ended(o, steps, i, s)
    case _ => Stop(s, Failed(UnknownStepType))
  }

  function Arrived(s: State): State
    requires s.flow.Some?
  {
    var f := s.flow.value;
    Log(s, Visited(f.index, s.data)).(flow := Some(Snapped(f, s.data)))
  }

  function Visit(o: Oracle, steps: seq<Step>, s: State, intent: Option<bool>): (m: Move)
    ensures WellMade(steps, m)
  {
    if s.flow.None? then Stop(s, Failed(NoWorkflow))
    else if steps == [] then Stop(s, Failed(NoSteps))
    else if s.flow.value.index >= |steps| then Stop(s, Finished)
    else Handled(o, steps, s.flow.value.index, Arrived(s), intent)
  }

  type Visitor = (State, Option<bool>) -> Move

  /** The chain of visits that starts at the current step; only the first hears the reply. */
  function Chain(visit: Visitor, s: State, intent: Option<bool>, depth: nat): (State, Result)
    decreases if depth > MAX_DEPTH then 0 else MAX_DEPTH + 1 - depth
  {
    if depth > MAX_DEPTH then (s, Failed(DepthExceeded)) else
    match visit(s, intent)
    case Stop(s', r) => (s', r)
    case Auto(s') => Chain(visit, s', None, depth + 1)
  }

  /** How many visits a chain attempts, the refused one of a too deep chain included. */
  function ChainLength(visit: Visitor, s: State, intent: Option<bool>, depth: nat): nat
    decreases if depth > MAX_DEPTH then 0 else MAX_DEPTH + 1 - depth
  {
    if depth > MAX_DEPTH then 1 else
    match visit(s, intent)
    case Stop(_, _) => 1
    case Auto(s') => 1 + ChainLength(visit, s', None, depth + 1)
  }

  function Visits(o: Oracle, steps: seq<Step>): Visitor {
    (s: State, intent: Option<bool>) => Visit(o, steps, s, intent)
  }

  function Run(o: Oracle, steps: seq<Step>, s: State, intent: Option<bool>, depth: nat): (State, Result) {
    Chain(Visits(o, steps), s, intent, depth)
  }

  /** Carries a move on: visits the step it leaves the session at, if any. */
  function Continued(o: Oracle, steps: seq<Step>, m: Move, depth: nat): (State, Result) {
    match m
    case Stop(s', r) => (s', r)
    case Auto(s') => Run(o, steps, s', None, depth + 1)
  }

  function Calls(o: Oracle, steps: seq<Step>, s: State, intent: Option<bool>, depth: nat): nat {
    ChainLength(Visits(o, steps), s, intent, depth)
  }

  /** A turn either starts the workflow or brings a message, which may be worded as
      a wish to leave, to retry a submission or to resume after a review. */
  datatype Turn = Begin(reason: string) | Say(message: string, leaves: bool, retries: bool, resumes: bool)

  predicate Idle(s: State) {
    s.flow.None? || s.flow.value.status.Completed? || s.flow.value.status.Cancelled?
  }

  /** A finished turn clears the workflow, so that no data reaches the next one. */
  function Finalized(out: (State, Result)): State {
    if out.1.Finished? then out.0.(flow := None, data := map[]) else out.0
  }

  function Heard(s: State, text: string): State {
    Log(s, TurnStarted(text, ConfirmationIntent(text)))
  }

  function Started(s: State, reason: string): State {
    Heard(s, reason).(flow := Some(Flow(0, InProgress, [], None)), data := map[])
  }

  function Resumed(o: Oracle, steps: seq<Step>, s: State): (State, Result) {
    if s.flow.None? then (s, Failed(NoWorkflow)) else
    var i := s.flow.value.index;
    if i >= |steps| then (s, Failed(CannotResume)) else Continued(o, steps, Advanced(o, steps, i, s), 0)
  }

  function TurnTaken(o: Oracle, steps: seq<Step>, s: State, t: Turn): State {
    match t
    case Begin(reason) =>
      if Idle(s) then Run(o, steps, Started(s, reason), ConfirmationIntent(reason), 0).0 else s
    case Say(message, leaves, retries, resumes) =>
      if Idle(s) then s.(flow := None)
      else if leaves then s.(flow := Some(s.flow.value.(status := Cancelled)), data := map[])
      else if s.flow.value.status.PausedForReview? && !resumes then s
      else if s.flow.value.status.PausedForReview? then
        Finalized(Resumed(o, steps, Heard(s, message)))
      else if s.flow.value.status.AwaitRetry? && !retries then s
      else Finalized(Run(o, steps, Heard(s, message), ConfirmationIntent(message), 0))
  }

  const FRESH := State(None, map[], [])

  function AfterTurns(o: Oracle, steps: seq<Step>, turns: seq<Turn>): State {
    if turns == [] then FRESH
    else TurnTaken(o, steps, AfterTurns(o, steps, turns[..|turns| - 1]), turns[|turns| - 1])
  }
}
