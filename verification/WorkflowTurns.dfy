/** What one message does to a session with a workflow: a confirmation is passed on an
    affirmative only, and a refusal undoes the form before it, exactly as far as snapshots reach. */
module WorkflowTurns {
  import opened Options
  import opened AutomaticCycles
  import opened Workflows
  import opened Confirmations
  import opened WorkflowValidation
  import opened WorkflowSemantics
  import opened WorkflowSoundness
  import opened WorkflowInvariants
  import opened WorkflowLaws

  /** A session that a message reaches: the workflow runs and waits for one. */
  predicate Active(s: State) {
    s.flow.Some? && s.flow.value.status.InProgress?
  }

  lemma StoppedRun(o: Oracle, steps: seq<Step>, s: State, intent: Option<bool>)
    requires Visit(o, steps, s, intent).Stop?
    ensures var m := Visit(o, steps, s, intent); Run(o, steps, s, intent, 0) == (m.s, m.r)
  {
  }

  lemma ActiveTurnRuns(o: Oracle, steps: seq<Step>, s: State, t: Turn)
    requires Active(s) && t.Say? && !t.leaves
    ensures TurnTaken(o, steps, s, t) == Finalized(Run(o, steps, Heard(s, t.message), ConfirmationIntent(t.message), 0))
  {
  }

  // ---- Confirmations ----

  /** The events of a turn that only visits the step it finds. */
  function Asked(s: State, text: string): seq<Event>
    requires s.flow.Some?
  {
    [TurnStarted(text, ConfirmationIntent(text)), Visited(s.flow.value.index, s.data)]
  }

  /** The session is back at an earlier form other than step i, as that was visited before. */
  predicate IsBack(steps: seq<Step>, i: nat, before: State, after: State) {
    && after.flow.Some? && after.flow.value.status.InProgress? && after.flow.value.pending.None?
    && Refillable(steps, i, after.flow.value.index) && Visited(after.flow.value.index, after.data) in before.log
  }

  /** At a confirmation an unclear reply asks again and changes nothing. */
  lemma UnclearReplyAsksAgain(o: Oracle, steps: seq<Step>, s: State, i: nat, t: Turn)
    requires Active(s) && Stands(steps, s, i) && steps[i].kind.Confirm? && |s.flow.value.snapshots| <= MAX_SNAPSHOTS
    requires t.Say? && !t.leaves && !Affirms(t.message) && !Refuses(t.message)
    ensures OnlyLogged(s, TurnTaken(o, steps, s, t), Asked(s, t.message))
    ensures Run(o, steps, Heard(s, t.message), ConfirmationIntent(t.message), 0).1.Waiting?
  {
    var heard := Heard(s, t.message);
    ActiveTurnRuns(o, steps, s, t);
    ConfirmationVisit(o, steps, heard, i, t.message);
    StoppedRun(o, steps, heard, ConfirmationIntent(t.message));
    ArrivalIsRecorded(heard);
  }

  lemma HereIsSound(steps: seq<Step>, s: State, text: string, i: nat)
    requires Sound(steps, s) && Settled(s) && Stands(steps, s, i)
    ensures SnapshotsSound(steps, Arrived(Heard(s, text)))
    ensures Arrived(Heard(s, text)).log == s.log + Asked(s, text)
  {
    HearingKeepsSound(steps, s, text);
    ArrivalKeepsSound(steps, Heard(s, text));
  }

  lemma RolledBackFromHere(steps: seq<Step>, s: State, text: string, i: nat)
    requires Active(s) && Stands(steps, s, i) && Sound(steps, s) && Settled(s)
    ensures var m := RolledBack(steps, Arrived(Heard(s, text)), i);
            && m.Stop? && !m.r.Finished? && m.s.log == s.log + Asked(s, text)
            && (OnlyLogged(s, m.s, Asked(s, text)) || IsBack(steps, i, s, m.s))
  {
    var here := Arrived(Heard(s, text));
    ArrivalIsRecorded(Heard(s, text));
    HereIsSound(steps, s, text, i);
    RollbackRestoresAVisit(steps, here, i);
    var m := RolledBack(steps, here, i);
    if m.r.Waiting? { EarlierVisit(s, text, m.s.flow.value.index, m.s.data); }
  }

  lemma EarlierVisit(s: State, text: string, j: nat, data: Data)
    requires s.flow.Some? && j != s.flow.value.index && Visited(j, data) in s.log + Asked(s, text)
    ensures Visited(j, data) in s.log
  {
  }

  /** A refusal goes back to an earlier form, or changes nothing if none is recorded. */
  lemma RefusalGoesBack(o: Oracle, steps: seq<Step>, s: State, i: nat, t: Turn)
    requires Active(s) && Stands(steps, s, i) && steps[i].kind.Confirm? && Sound(steps, s) && Settled(s)
    requires t.Say? && !t.leaves && Refuses(t.message)
    ensures var after := TurnTaken(o, steps, s, t);
            && after.log == s.log + Asked(s, t.message)
            && (OnlyLogged(s, after, Asked(s, t.message)) || IsBack(steps, i, s, after))
  {
    var heard := Heard(s, t.message);
    ActiveTurnRuns(o, steps, s, t);
    RefusalsExactly(t.message);
    ConfirmationMoves(o, steps, heard, i, Some(false));
    StoppedRun(o, steps, heard, Some(false));
    RolledBackFromHere(steps, s, t.message, i);
  }

  /** In every run, a message to a confirmation that is no explicit affirmative makes no call,
      and leaves the session where it is or, if it is a refusal, back at an earlier form. */
  lemma ConfirmationsNeedAnAffirmative(o: Oracle, steps: seq<Step>, turns: seq<Turn>, t: Turn, i: nat)
    requires var s := AfterTurns(o, steps, turns);
             !Idle(s) && Stands(steps, s, i) && steps[i].kind.Confirm? && t.Say? && !t.leaves
    ensures var s, after := AfterTurns(o, steps, turns), AfterTurns(o, steps, turns + [t]);
            || Affirms(t.message)
            || OnlyLogged(s, after, Asked(s, t.message))
            || (Refuses(t.message) && after.log == s.log + Asked(s, t.message) && IsBack(steps, i, s, after))
  {
    var s := AfterTurns(o, steps, turns);
    assert (turns + [t])[..|turns|] == turns;
    RunsAreSound(o, steps, turns);
    if Refuses(t.message) {
      RefusalGoesBack(o, steps, s, i, t);
    } else if !Affirms(t.message) {
      UnclearReplyAsksAgain(o, steps, s, i, t);
    }
  }

  // ---- What a refusal undoes ----

  /** No form that could be filled in again. */
  predicate Unfillable(steps: seq<Step>, i: nat) {
    !(i < |steps| && steps[i].kind.Collect? && steps[i].fields != [])
  }

  /** After k visits of a turn that began at form f with these data: the last k snapshots are
      that visit and steps nobody fills in, or all five are such steps. */
  ghost predicate Trail(steps: seq<Step>, snaps: seq<Snapshot>, k: nat, f: nat, data: Data) {
    && k >= 1 && |snaps| <= MAX_SNAPSHOTS
    && (k <= MAX_SNAPSHOTS ==> k <= |snaps| && snaps[|snaps| - k] == Snapshot(f, data))
    && (k > MAX_SNAPSHOTS ==> |snaps| == MAX_SNAPSHOTS)
    && (forall q :: 0 <= q < |snaps| && q > |snaps| - k ==> Unfillable(steps, snaps[q].index))
  }

  function Snaps(s: State): seq<Snapshot> {
    if s.flow.Some? then s.flow.value.snapshots else []
  }

  /** The session stands elsewhere than at the step recorded last. */
  predicate MovedOn(s: State) {
    s.flow.Some? && Snaps(s) != [] && Snaps(s)[|Snaps(s)| - 1].index != s.flow.value.index
  }

  function Recorded(snaps: seq<Snapshot>, here: Snapshot): seq<Snapshot> {
    (if |snaps| < MAX_SNAPSHOTS then snaps else snaps[1..]) + [here]
  }

  lemma ArrivalRecords(s: State)
    requires MovedOn(s) && |Snaps(s)| <= MAX_SNAPSHOTS
    ensures Snaps(Arrived(s)) == Recorded(Snaps(s), Snapshot(s.flow.value.index, s.data))
  {
    var grown := Snaps(s) + [Snapshot(s.flow.value.index, s.data)];
    assert |grown| > MAX_SNAPSHOTS ==> grown[|grown| - MAX_SNAPSHOTS..] == Snaps(s)[1..] + [Snapshot(s.flow.value.index, s.data)];
  }

  lemma RecordExtendsTrail(steps: seq<Step>, snaps: seq<Snapshot>, here: Snapshot, k: nat, f: nat, data: Data)
    requires Trail(steps, snaps, k, f, data) && Unfillable(steps, here.index)
    ensures Trail(steps, Recorded(snaps, here), k + 1, f, data)
  {
    var new_ := Recorded(snaps, here);
    var cut := if |snaps| < MAX_SNAPSHOTS then 0 else 1;
    assert forall q :: 0 <= q < |new_| - 1 ==> new_[q] == snaps[q + cut];
  }

  lemma ArrivalExtendsTrail(steps: seq<Step>, s: State, k: nat, f: nat, data: Data)
    requires MovedOn(s) && Trail(steps, Snaps(s), k, f, data) && Unfillable(steps, s.flow.value.index)
    ensures Trail(steps, Snaps(Arrived(s)), k + 1, f, data)
    ensures Snaps(Arrived(s))[|Snaps(Arrived(s))| - 1].index == s.flow.value.index
  {
    ArrivalRecords(s);
    RecordExtendsTrail(steps, Snaps(s), Snapshot(s.flow.value.index, s.data), k, f, data);
  }

  /** A move that goes on, or that ends at a confirmation, leaves the snapshots alone. */
  predicate KeepsTrail(steps: seq<Step>, here: State, m: Move) {
    m.Auto? || (m.s.flow.Some? && m.s.flow.value.index < |steps| && steps[m.s.flow.value.index].kind.Confirm?) ==>
      m.s.flow.Some? && Snaps(m.s) == Snaps(here)
  }

  lemma GivingUpKeepsTrail(o: Oracle, steps: seq<Step>, i: nat, here: State)
    requires here.flow.Some? && i < |steps|
    ensures KeepsTrail(steps, here, ToolGivenUp(o, steps, i, here))
  {
    if Given(steps[i].fallback) {
      FallbackRelocates(steps, i, here, false);
    } else {
      match steps[i].onFailure {
        case Skip => AdvanceRelocates(o, steps, i, here);
        case Rollback => RollbackKeepsOrRestores(steps, here, i);
        case _ =>
      }
    }
  }

  lemma CallKeepsTrail(o: Oracle, steps: seq<Step>, i: nat, here: State)
    requires here.flow.Some? && i < |steps|
    ensures KeepsTrail(steps, here, ToolRun(o, steps, i, here))
  {
    AdvanceRelocates(o, steps, i, here);
    if Given(steps[i].toolId) {
      var called := Log(here, ToolCalled(i));
      match o(|here.log|).tool {
        case ToolMissing => GivingUpKeepsTrail(o, steps, i, here);
        case ToolFailed => GivingUpKeepsTrail(o, steps, i, called);
        case ToolReplied(output) =>
          AdvanceRelocates(o, steps, i, called.(data := WithToolResult(steps[i], here.data, output)));
      }
    }
  }

  lemma GateKeepsTrail(o: Oracle, steps: seq<Step>, i: nat, here: State, intent: Option<bool>)
    requires here.flow.Some? && i < |steps|
    ensures KeepsTrail(steps, here, ToolGate(o, steps, i, here, intent))
  {
    CallKeepsTrail(o, steps, i, here);
    CallKeepsTrail(o, steps, i, Unasked(here));
    RollbackKeepsOrRestores(steps, Unasked(here), i);
  }

  lemma DecisionKeepsTrail(o: Oracle, steps: seq<Step>, i: nat, here: State)
    requires here.flow.Some? && i < |steps|
    ensures KeepsTrail(steps, here, Decided(o, steps, i, here))
  {
    var key := steps[i].decision.resultKey;
    var choice := AcceptedChoice(steps[i].decision, here.data - {key}, o(|here.log|).decision);
    if choice.Some? {
      AdvanceRelocates(o, steps, i, Log(here, Judged(i, true)).(data := (here.data - {key})[key := Plain(choice.value)]));
    } else {
      FallbackRelocates(steps, i, Log(here, Judged(i, false)).(data := here.data - {key}), true);
    }
  }

  lemma FormKeepsTrail(o: Oracle, steps: seq<Step>, i: nat, here: State)
    requires here.flow.Some? && i < |steps|
    ensures KeepsTrail(steps, here, Collected(o, steps, i, here))
  {
    AdvanceRelocates(o, steps, i, here);
    if o(|here.log|).collect.Submitted? {
      AdvanceRelocates(o, steps, i, here.(data := Filled(steps[i].fields, here.data, o(|here.log|).collect)));
    }
  }

  lemma CheckKeepsTrail(o: Oracle, steps: seq<Step>, i: nat, here: State)
    requires here.flow.Some? && i < |steps|
    ensures KeepsTrail(steps, here, Validated(o, steps, i, here))
  {
    AdvanceRelocates(o, steps, i, here);
    if Given(steps[i].fallback) { FallbackRelocates(steps, i, here, false); }
    RollbackKeepsOrRestores(steps, here, i);
  }

  lemma ConfirmationKeepsTrail(o: Oracle, steps: seq<Step>, i: nat, here: State, intent: Option<bool>)
    requires here.flow.Some? && i < |steps|
    ensures KeepsTrail(steps, here, Confirmed(o, steps, i, here, intent))
  {
    AdvanceRelocates(o, steps, i, here);
    RollbackKeepsOrRestores(steps, here, i);
  }

  lemma VisitKeepsTrail(o: Oracle, steps: seq<Step>, s: State, i: nat, intent: Option<bool>)
    requires Stands(steps, s, i)
    ensures KeepsTrail(steps, Arrived(s), Visit(o, steps, s, intent))
  {
    var here := Arrived(s);
    match steps[i].kind {
      case Collect => FormKeepsTrail(o, steps, i, here);
      case Validate => CheckKeepsTrail(o, steps, i, here);
      case ToolCall => GateKeepsTrail(o, steps, i, here, intent);
      case Decision => DecisionKeepsTrail(o, steps, i, here);
      case Confirm => ConfirmationKeepsTrail(o, steps, i, here, intent);
      case HumanReview =>
      case Complete =>
      case _ =>
    }
  }

  lemma RollbackKeepsOrRestores(steps: seq<Step>, here: State, i: nat)
    requires here.flow.Some?
    ensures var m := RolledBack(steps, here, i);
            m.Stop? && (m.s == here || (m.s.flow.Some? && Refillable(steps, i, m.s.flow.value.index)))
  {
    BackToRefillableIsLongest(steps, i, here.flow.value.snapshots);
  }

  lemma NoSelfEdge(g: Graph, i: nat)
    requires !HasCycle(g) && i in g
    ensures i !in g[i]
  {
    assert i in g[i] ==> IsCycle(g, [i, i]);
  }

  lemma NoStepFollowsItself(o: Oracle, steps: seq<Step>, s: State)
    requires ExecutableGraph(steps) && OnChain(steps, s) && Visit(o, steps, s, None).Auto?
    ensures Visit(o, steps, s, None).s.flow.value.index != s.flow.value.index
  {
    UnpromptedMove(o, steps, s);
    NoSelfEdge(AutomaticGraph(steps), s.flow.value.index);
  }

  predicate AtConfirmation(steps: seq<Step>, s: State) {
    s.flow.Some? && s.flow.value.index < |steps| && steps[s.flow.value.index].kind.Confirm?
  }

  /** A visit counted by `on` goes on to one more, and ends, where it ends so, well. */
  predicate CountsAt(visit: Visitor, on: (State, nat) -> bool, ends: State -> bool, good: (State, nat) -> bool, s: State, k: nat) {
    on(s, k) ==>
      && !ends(s)
      && (visit(s, None).Auto? ==> on(visit(s, None).s, k + 1))
      && (ends(visit(s, None).s) ==> good(visit(s, None).s, k + 1))
  }

  ghost predicate Counts(visit: Visitor, on: (State, nat) -> bool, ends: State -> bool, good: (State, nat) -> bool) {
    forall s: State, k: nat :: CountsAt(visit, on, ends, good, s, k)
  }

  /** Counting the visits of a chain that keeps an invariant of state and count. */
  lemma {:induction false} ChainCounts(visit: Visitor, on: (State, nat) -> bool, ends: State -> bool,
                                       good: (State, nat) -> bool, s: State, depth: nat, k: nat)
    requires on(s, k) && Counts(visit, on, ends, good)
    ensures var after := Chain(visit, s, None, depth).0; ends(after) ==> good(after, k + ChainLength(visit, s, None, depth))
    decreases if depth > MAX_DEPTH then 0 else MAX_DEPTH + 1 - depth
  {
    assert CountsAt(visit, on, ends, good, s, k);
    if depth <= MAX_DEPTH && visit(s, None).Auto? {
      ChainCounts(visit, on, ends, good, visit(s, None).s, depth + 1, k + 1);
    }
  }

  ghost predicate OnTrail(steps: seq<Step>, f: nat, data: Data, s: State, k: nat) {
    OnChain(steps, s) && MovedOn(s) && Trail(steps, Snaps(s), k, f, data)
  }

  ghost predicate TrailTold(steps: seq<Step>, f: nat, data: Data, s: State, k: nat) {
    MovedOn(s) && Trail(steps, Snaps(s), k, f, data)
  }

  lemma MoveExtendsTrail(steps: seq<Step>, s: State, m: Move, k: nat, f: nat, data: Data)
    requires OnTrail(steps, f, data, s, k) && WellMade(steps, m) && KeepsTrail(steps, Arrived(s), m)
    requires m.Auto? ==> m.s.flow.value.index != s.flow.value.index
    ensures m.Auto? ==> OnTrail(steps, f, data, m.s, k + 1)
    ensures AtConfirmation(steps, m.s) ==> TrailTold(steps, f, data, m.s, k + 1)
  {
    ArrivalExtendsTrail(steps, s, k, f, data);
  }

  ghost function Trailing(steps: seq<Step>, f: nat, data: Data): (State, nat) -> bool {
    (s: State, k: nat) => OnTrail(steps, f, data, s, k)
  }

  ghost function Told(steps: seq<Step>, f: nat, data: Data): (State, nat) -> bool {
    (s: State, k: nat) => TrailTold(steps, f, data, s, k)
  }

  function Confirming(steps: seq<Step>): State -> bool {
    (s: State) => AtConfirmation(steps, s)
  }

  lemma VisitExtendsTrail(o: Oracle, steps: seq<Step>, s: State, k: nat, f: nat, data: Data)
    requires ExecutableGraph(steps) && OnTrail(steps, f, data, s, k)
    ensures var m := Visit(o, steps, s, None);
            && (m.Auto? ==> OnTrail(steps, f, data, m.s, k + 1))
            && (AtConfirmation(steps, m.s) ==> TrailTold(steps, f, data, m.s, k + 1))
  {
    var m := Visit(o, steps, s, None);
    VisitKeepsTrail(o, steps, s, s.flow.value.index, None);
    if m.Auto? { NoStepFollowsItself(o, steps, s); }
    MoveExtendsTrail(steps, s, m, k, f, data);
  }

  lemma VisitCounts(o: Oracle, steps: seq<Step>, f: nat, data: Data, s: State, k: nat)
    requires ExecutableGraph(steps)
    ensures CountsAt(Visits(o, steps), Trailing(steps, f, data), Confirming(steps), Told(steps, f, data), s, k)
  {
    if OnTrail(steps, f, data, s, k) { VisitExtendsTrail(o, steps, s, k, f, data); }
  }

  /** Each visit of a chain adds itself to the trail. */
  lemma VisitsExtendTrail(o: Oracle, steps: seq<Step>, f: nat, data: Data)
    requires ExecutableGraph(steps)
    ensures Counts(Visits(o, steps), Trailing(steps, f, data), Confirming(steps), Told(steps, f, data))
  {
    forall s: State, k: nat
      ensures CountsAt(Visits(o, steps), Trailing(steps, f, data), Confirming(steps), Told(steps, f, data), s, k)
    {
      VisitCounts(o, steps, f, data, s, k);
    }
  }

  /** What the session's data were when it came to the form it is at. */
  function DataOnArrival(s: State): Data
    requires s.flow.Some?
  {
    var snaps := Snaps(s);
    if snaps != [] && snaps[|snaps| - 1].index == s.flow.value.index then snaps[|snaps| - 1].data else s.data
  }

  lemma ArrivalBeginsTrail(steps: seq<Step>, s: State)
    requires s.flow.Some? && |Snaps(s)| <= MAX_SNAPSHOTS
    ensures Trail(steps, Snaps(Arrived(s)), 1, s.flow.value.index, DataOnArrival(s))
    ensures Snaps(Arrived(s))[|Snaps(Arrived(s))| - 1].index == s.flow.value.index
  {
    ArrivalIsRecorded(s);
  }

  lemma FirstVisitBeginsTrail(o: Oracle, steps: seq<Step>, s: State, f: nat, intent: Option<bool>)
    requires Stands(steps, s, f) && steps[f].kind.Collect? && steps[f].fields != [] && |Snaps(s)| <= MAX_SNAPSHOTS
    ensures var m := Visit(o, steps, s, intent);
            && (m.Auto? ==> OnTrail(steps, f, DataOnArrival(s), m.s, 1))
            && (AtConfirmation(steps, m.s) ==> TrailTold(steps, f, DataOnArrival(s), m.s, 1))
  {
    ArrivalBeginsTrail(steps, s);
    VisitKeepsTrail(o, steps, s, f, intent);
    MoveBeginsTrail(steps, s, Visit(o, steps, s, intent), f);
  }

  lemma MoveBeginsTrail(steps: seq<Step>, s: State, m: Move, f: nat)
    requires Stands(steps, s, f) && steps[f].kind.Collect? && steps[f].fields != [] && |Snaps(s)| <= MAX_SNAPSHOTS
    requires WellMade(steps, m) && KeepsTrail(steps, Arrived(s), m)
    ensures m.Auto? ==> OnTrail(steps, f, DataOnArrival(s), m.s, 1)
    ensures AtConfirmation(steps, m.s) ==> TrailTold(steps, f, DataOnArrival(s), m.s, 1)
  {
    ArrivalBeginsTrail(steps, s);
  }

  /** A chain that ends at a confirmation has recorded each of its visits. */
  lemma FormBeginsTrail(o: Oracle, steps: seq<Step>, s: State, f: nat, intent: Option<bool>)
    requires ExecutableGraph(steps) && Stands(steps, s, f) && steps[f].kind.Collect? && steps[f].fields != []
    requires |Snaps(s)| <= MAX_SNAPSHOTS
    ensures var after := Run(o, steps, s, intent, 0).0;
            AtConfirmation(steps, after) ==> TrailTold(steps, f, DataOnArrival(s), after, Calls(o, steps, s, intent, 0))
  {
    var d := DataOnArrival(s);
    FirstVisitBeginsTrail(o, steps, s, f, intent);
    VisitsExtendTrail(o, steps, f, d);
    WholeChainCounts(Visits(o, steps), Trailing(steps, f, d), Confirming(steps), Told(steps, f, d), s, intent);
  }

  lemma WholeChainCounts(visit: Visitor, on: (State, nat) -> bool, ends: State -> bool, good: (State, nat) -> bool,
                         s: State, intent: Option<bool>)
    requires Counts(visit, on, ends, good)
    requires var m := visit(s, intent); (m.Auto? ==> on(m.s, 1)) && (ends(m.s) ==> good(m.s, 1))
    ensures var after := Chain(visit, s, intent, 0).0; ends(after) ==> good(after, ChainLength(visit, s, intent, 0))
  {
    var m := visit(s, intent);
    if m.Auto? { ChainCounts(visit, on, ends, good, m.s, 1, 1); }
  }

  lemma TrailDecidesRollback(steps: seq<Step>, here: State, k: nat, f: nat, data: Data, i: nat)
    requires here.flow.Some? && Trail(steps, Snaps(here), k, f, data) && f != i && !Unfillable(steps, f)
    ensures var m := RolledBack(steps, here, i);
            && m.Stop? && !m.r.Finished?
            && (k <= MAX_SNAPSHOTS ==> m.s.flow.Some? && m.s.flow.value.index == f && m.s.data == data && Active(m.s))
            && (k > MAX_SNAPSHOTS ==> m.s == here)
  {
    var snaps := Snaps(here);
    BackToRefillableIsLongest(steps, i, snaps);
    var kept := BackToRefillable(steps, i, snaps);
    if kept != [] { assert kept[|kept| - 1] == snaps[|kept| - 1]; }
  }

  lemma RefusalFollowsTrail(o: Oracle, steps: seq<Step>, s: State, k: nat, f: nat, data: Data, t: Turn)
    requires Active(s) && AtConfirmation(steps, s) && MovedOn(s) && Trail(steps, Snaps(s), k, f, data) && !Unfillable(steps, f)
    requires t.Say? && !t.leaves && Refuses(t.message)
    ensures var after := TurnTaken(o, steps, s, t);
            && (k < MAX_SNAPSHOTS ==> Active(after) && after.flow.value.index == f && after.data == data)
            && (k >= MAX_SNAPSHOTS ==> OnlyLogged(s, after, Asked(s, t.message)))
  {
    var heard, i := Heard(s, t.message), s.flow.value.index;
    ActiveTurnRuns(o, steps, s, t);
    RefusalsExactly(t.message);
    ConfirmationMoves(o, steps, heard, i, Some(false));
    StoppedRun(o, steps, heard, Some(false));
    ArrivalIsRecorded(heard);
    ArrivalExtendsTrail(steps, heard, k, f, data);
    TrailDecidesRollback(steps, Arrived(heard), k + 1, f, data, i);
  }

  /** A message fills a form and its chain ends at a confirmation; a refusal there gives back
      the data the session had on coming to the form, if the chain made at most four visits.
      If it made more, the snapshots no longer reach the form, and the refusal changes nothing. */
  lemma RefusalUndoesForm(o: Oracle, payloads: seq<Step>, s: State, f: nat, fill: Turn, refuse: Turn)
    requires Accepted(payloads) && Active(s) && |Snaps(s)| <= MAX_SNAPSHOTS && Stands(Ordered(payloads), s, f)
    requires Ordered(payloads)[f].kind.Collect? && Ordered(payloads)[f].fields != []
    requires fill.Say? && !fill.leaves && refuse.Say? && !refuse.leaves && Refuses(refuse.message)
    requires var filled := TurnTaken(o, Ordered(payloads), s, fill); Active(filled) && AtConfirmation(Ordered(payloads), filled)
    ensures var steps := Ordered(payloads);
            var filled := TurnTaken(o, steps, s, fill);
            var after := TurnTaken(o, steps, filled, refuse);
            var visits := Calls(o, steps, Heard(s, fill.message), ConfirmationIntent(fill.message), 0);
            && (visits <= 4 ==> Active(after) && after.flow.value.index == f && after.data == DataOnArrival(s))
            && (visits > 4 ==> OnlyLogged(filled, after, Asked(filled, refuse.message)))
  {
    var steps := Ordered(payloads);
    var heard := Heard(s, fill.message);
    AcceptedIsExecutable(payloads);
    ActiveTurnRuns(o, steps, s, fill);
    FormBeginsTrail(o, steps, heard, f, ConfirmationIntent(fill.message));
    var visits := Calls(o, steps, heard, ConfirmationIntent(fill.message), 0);
    RefusalFollowsTrail(o, steps, TurnTaken(o, steps, s, fill), visits, f, DataOnArrival(s), refuse);
  }

  // ---- What else a message does ----

  lemma VisitLogsItself(o: Oracle, steps: seq<Step>, s: State, i: nat, intent: Option<bool>)
    requires Stands(steps, s, i)
    ensures s.log + [Visited(i, s.data)] <= Visit(o, steps, s, intent).s.log
  {
    if Rejects(o, steps, s) {
      RejectionAdds(o, steps, s, intent);
    } else {
      var here := Arrived(s);
      assert here.log == s.log + [Visited(i, s.data)] && here.data == s.data;
      HandlingAdds(o, steps, i, here, intent);
    }
  }

  lemma RunLogsItself(o: Oracle, steps: seq<Step>, s: State, i: nat, intent: Option<bool>)
    requires Stands(steps, s, i)
    ensures s.log + [Visited(i, s.data)] <= Run(o, steps, s, intent, 0).0.log
  {
    VisitLogsItself(o, steps, s, i, intent);
    var m := Visit(o, steps, s, intent);
    if m.Auto? { RunStaysInTurn(o, steps, m.s, None, 1); }
  }

  /** Starting a workflow visits its first step with no data, whatever an earlier one left. */
  lemma StartIsClean(o: Oracle, steps: seq<Step>, s: State, reason: string)
    requires Idle(s) && steps != []
    ensures s.log + [TurnStarted(reason, ConfirmationIntent(reason)), Visited(0, map[])]
         <= TurnTaken(o, steps, s, Begin(reason)).log
  {
    RunLogsItself(o, steps, Started(s, reason), 0, ConfirmationIntent(reason));
  }

  /** A message reaches the step the session is at; after failed deliveries only a wish to
      retry does, and then with the data as they were. */
  lemma MessageReachesItsStep(o: Oracle, steps: seq<Step>, s: State, i: nat, t: Turn)
    requires Stands(steps, s, i) && t.Say? && !t.leaves
    requires Active(s) || (s.flow.value.status.AwaitRetry? && t.retries)
    ensures s.log + Asked(s, t.message) <= TurnTaken(o, steps, s, t).log
  {
    RunLogsItself(o, steps, Heard(s, t.message), i, ConfirmationIntent(t.message));
  }

  /** A running workflow is not restarted, a review is left and a submission repeated only by
      asking for it, leaving cancels and forgets the data, and a message after the end only
      forgets the workflow; none of these calls anything. */
  lemma OtherMessagesCallNothing(o: Oracle, steps: seq<Step>, s: State, t: Turn)
    ensures t.Say? && Idle(s) ==> TurnTaken(o, steps, s, t) == State(None, s.data, s.log)
    ensures t.Begin? && !Idle(s) ==> TurnTaken(o, steps, s, t) == s
    ensures t.Say? && t.leaves && !Idle(s) ==>
              TurnTaken(o, steps, s, t) == State(Some(s.flow.value.(status := Cancelled)), map[], s.log)
    ensures t.Say? && !t.leaves && !Idle(s) && s.flow.value.status.PausedForReview? && !t.resumes ==>
              TurnTaken(o, steps, s, t) == s
    ensures t.Say? && !t.leaves && !Idle(s) && s.flow.value.status.AwaitRetry? && !t.retries ==>
              TurnTaken(o, steps, s, t) == s
  {
  }

  /** Resuming goes on behind the review by its route, with the data as they were. */
  lemma ResumingTakesTheRoute(o: Oracle, steps: seq<Step>, s: State, i: nat, t: Turn)
    requires Stands(steps, s, i) && s.flow.value.status.PausedForReview? && t.Say? && !t.leaves && t.resumes
    ensures exists m :: TakesItsRoute(o, steps, i, Heard(s, t.message), m)
              && TurnTaken(o, steps, s, t) == Finalized(Continued(o, steps, m, 0))
  {
    AdvanceTakesItsRoute(o, steps, i, Heard(s, t.message));
    assert TurnTaken(o, steps, s, t) == Finalized(Continued(o, steps, Advanced(o, steps, i, Heard(s, t.message)), 0));
  }

  /** A message that ends the workflow leaves no data behind. */
  lemma EndedWorkflowIsCleared(o: Oracle, steps: seq<Step>, s: State, t: Turn)
    requires Active(s) && t.Say? && !t.leaves
    ensures var out := Run(o, steps, Heard(s, t.message), ConfirmationIntent(t.message), 0);
            TurnTaken(o, steps, s, t) == if out.1.Finished? then State(None, map[], out.0.log) else out.0
  {
  }
}
