/** What every run of a workflow keeps, whatever the turns and the answers from outside:
    gated tools are called only in direct reply to their own gate, snapshots record visited
    steps, and a rejected decision is followed by no call in its turn. */
module WorkflowInvariants {
  import opened Options
  import opened Workflows
  import opened Confirmations
  import opened WorkflowValidation
  import opened WorkflowSemantics
  import opened WorkflowSoundness
  import opened DecisionSafety

  // ---- Confirmation gates ----

  predicate Affirmative(e: Event) {
    e.TurnStarted? && e.intent == Some(true)
  }

  /** The call of step i logged at m is the direct reply to its own gate: the step was visited
      and its gate shown, the next thing heard was an affirmative, and the step that heard it
      was this one, with the data it showed. */
  predicate CallConfirmed(log: seq<Event>, i: nat, m: nat) {
    && 4 <= m <= |log|
    && log[m - 4].Visited? && log[m - 4].index == i && log[m - 3] == GateShown(i)
    && Affirmative(log[m - 2]) && log[m - 1] == log[m - 4]
  }

  predicate GateHonoured(steps: seq<Step>, log: seq<Event>, m: nat)
    requires m < |log|
  {
    log[m].ToolCalled? && log[m].index < |steps| && Gated(steps[log[m].index]) ==>
      CallConfirmed(log, log[m].index, m)
  }

  ghost predicate GatesHonoured(steps: seq<Step>, log: seq<Event>) {
    forall m :: 0 <= m < |log| ==> GateHonoured(steps, log, m)
  }

  /** The last thing before the present message was the gate of step i, shown with these data. */
  predicate AwaitsReply(log: seq<Event>, i: nat, data: Data) {
    var shown := if log != [] && log[|log| - 1].TurnStarted? then log[..|log| - 1] else log;
    |shown| >= 2 && shown[|shown| - 2..] == [Visited(i, data), GateShown(i)]
  }

  /** A pending confirmation names the current step, whose gate was just shown. */
  predicate PendingNamesCurrent(steps: seq<Step>, s: State) {
    s.flow.Some? && s.flow.value.pending.Some? ==>
      var i := s.flow.value.index;
      && i < |steps| && Gated(steps[i]) && s.flow.value.pending == Some(steps[i].id)
      && (s.flow.value.status.Cancelled? || AwaitsReply(s.log, i, s.data))
  }

  /** Between turns the gate itself is the last thing logged. */
  predicate Settled(s: State) {
    s.flow.Some? && s.flow.value.pending.Some? ==> s.log != [] && !s.log[|s.log| - 1].TurnStarted?
  }

  // ---- Snapshots ----

  ghost predicate SnapshotsSound(steps: seq<Step>, s: State) {
    s.flow.Some? ==>
      var snaps := s.flow.value.snapshots;
      && |snaps| <= MAX_SNAPSHOTS
      && (forall k :: 0 <= k < |snaps| - 1 ==> snaps[k].index != snaps[k + 1].index)
      && (forall k :: 0 <= k < |snaps| ==>
            snaps[k].index < |steps| && Visited(snaps[k].index, snaps[k].data) in s.log)
  }

  /** A pause stands at a review step and an unsent submission at a final step. */
  ghost predicate StatusFitsStep(steps: seq<Step>, s: State) {
    s.flow.Some? ==>
      var i := s.flow.value.index;
      && (s.flow.value.status.PausedForReview? ==> i < |steps| && steps[i].kind.HumanReview?)
      && (s.flow.value.status.AwaitRetry? ==> i < |steps| && steps[i].kind.Complete?)
  }

  ghost predicate Sound(steps: seq<Step>, s: State) {
    && GatesHonoured(steps, s.log) && PendingNamesCurrent(steps, s)
    && SnapshotsSound(steps, s) && StatusFitsStep(steps, s)
  }

  // ---- Logs that grow without tool calls ----

  ghost predicate CallFree(log: seq<Event>, from: nat) {
    forall k :: from <= k < |log| ==> !log[k].ToolCalled?
  }

  lemma GrowthKeepsGates(steps: seq<Step>, before: seq<Event>, after: seq<Event>)
    requires before <= after && GatesHonoured(steps, before)
    requires forall m :: |before| <= m < |after| ==> GateHonoured(steps, after, m)
    ensures GatesHonoured(steps, after)
  {
    forall m | 0 <= m < |before| ensures GateHonoured(steps, after, m) {
      assert GateHonoured(steps, before, m);
    }
  }

  lemma CallFreeGrowthKeepsGates(steps: seq<Step>, before: seq<Event>, after: seq<Event>)
    requires before <= after && GatesHonoured(steps, before) && CallFree(after, |before|)
    ensures GatesHonoured(steps, after)
  {
    GrowthKeepsGates(steps, before, after);
  }

  // ---- Moves that leave the log and the snapshots alone ----

  /** The move only changes where the session stands. */
  ghost predicate Relocated(s: State, m: Move) {
    && m.s.log == s.log && m.s.flow.Some? && s.flow.Some?
    && m.s.flow.value.snapshots == s.flow.value.snapshots && m.s.flow.value.pending == s.flow.value.pending
    && (m.s.flow == s.flow || m.s.flow.value.status.InProgress? || m.s.flow.value.status.Completed?)
  }

  lemma AdvanceRelocates(o: Oracle, steps: seq<Step>, i: nat, s: State)
    requires s.flow.Some? && i < |steps|
    ensures Relocated(s, Advanced(o, steps, i, s))
  {
  }

  lemma FallbackRelocates(steps: seq<Step>, i: nat, s: State, decision: bool)
    requires s.flow.Some? && i < |steps|
    ensures Relocated(s, FellBack(steps, i, s, decision))
  {
  }

  predicate Unpending(s: State) {
    s.flow.None? || s.flow.value.pending.None?
  }

  /** Without a pending confirmation a relocation keeps everything. */
  lemma RelocationKeepsSound(steps: seq<Step>, s: State, m: Move)
    requires Sound(steps, s) && Relocated(s, m) && s.flow.value.pending.None?
    ensures Sound(steps, m.s) && Unpending(m.s)
  {
  }

  // ---- Rollback ----

  lemma {:induction false} BackToRefillableIsLongest(steps: seq<Step>, current: nat, snaps: seq<Snapshot>)
    ensures var kept := BackToRefillable(steps, current, snaps);
            && kept <= snaps
            && (kept != [] ==> Refillable(steps, current, kept[|kept| - 1].index))
            && forall k :: |kept| <= k < |snaps| ==> !Refillable(steps, current, snaps[k].index)
  {
    if snaps != [] && !Refillable(steps, current, snaps[|snaps| - 1].index) {
      BackToRefillableIsLongest(steps, current, snaps[..|snaps| - 1]);
    }
  }

  /** A rollback that succeeds lands on the latest earlier-visited form other than the
      current step, with the data of that visit, a prefix of the snapshots and no pending
      confirmation, and makes no call; otherwise nothing changes. */
  lemma RollbackRestoresAVisit(steps: seq<Step>, s: State, current: nat)
    requires s.flow.Some? && SnapshotsSound(steps, s)
    ensures var m := RolledBack(steps, s, current);
            && m.Stop? && m.s.log == s.log && (m.r.Waiting? || m.r.Failed?)
            && (m.r.Failed? ==>
                  && m.s == s
                  && forall snap :: snap in s.flow.value.snapshots ==> !Refillable(steps, current, snap.index))
            && (m.r.Waiting? ==>
                  && m.s.flow.Some?
                  && Refillable(steps, current, m.s.flow.value.index)
                  && Visited(m.s.flow.value.index, m.s.data) in s.log
                  && m.s.flow.value.snapshots <= s.flow.value.snapshots
                  && (forall k :: |m.s.flow.value.snapshots| <= k < |s.flow.value.snapshots| ==>
                        !Refillable(steps, current, s.flow.value.snapshots[k].index))
                  && m.s.flow.value.pending.None? && m.s.flow.value.status.InProgress?)
  {
    BackToRefillableIsLongest(steps, current, s.flow.value.snapshots);
  }

  lemma RollbackKeepsSound(steps: seq<Step>, s: State, current: nat)
    requires s.flow.Some? && Sound(steps, s) && s.flow.value.pending.None?
    ensures Sound(steps, RolledBack(steps, s, current).s) && Unpending(RolledBack(steps, s, current).s)
  {
    RollbackRestoresAVisit(steps, s, current);
  }

  // ---- Arriving at a step ----

  /** The session with no confirmation pending. */
  function Unasked(s: State): State
    requires s.flow.Some?
  {
    s.(flow := Some(s.flow.value.(pending := None)))
  }

  lemma ArrivalKeepsSound(steps: seq<Step>, s: State)
    requires Sound(steps, s) && s.flow.Some? && s.flow.value.index < |steps|
    ensures Sound(steps, Unasked(Arrived(s)))
    ensures s.flow.value.pending.None? ==> Unasked(Arrived(s)) == Arrived(s)
    ensures Arrived(s).flow.value.pending == s.flow.value.pending
    ensures Arrived(s).flow.value.index == s.flow.value.index
    ensures Arrived(s).log == s.log + [Visited(s.flow.value.index, s.data)] && Arrived(s).data == s.data
  {
    var after := Arrived(s);
    CallFreeGrowthKeepsGates(steps, s.log, after.log);
    var old_, new_ := s.flow.value.snapshots, after.flow.value.snapshots;
    var here := Snapshot(s.flow.value.index, s.data);
    assert after.log[|s.log|] == Visited(here.index, here.data);
    forall k | 0 <= k < |new_|
      ensures new_[k].index < |steps| && Visited(new_[k].index, new_[k].data) in after.log
    {
      if new_[k] in old_ {
        var p :| 0 <= p < |old_| && old_[p] == new_[k];
        assert Visited(new_[k].index, new_[k].data) in s.log;
      } else {
        assert new_[k] == here;
      }
    }
  }

  // ---- One visit ----

  lemma CallKeepsGates(steps: seq<Step>, log: seq<Event>, i: nat)
    requires GatesHonoured(steps, log) && i < |steps| && (Gated(steps[i]) ==> CallConfirmed(log, i, |log|))
    ensures GatesHonoured(steps, log + [ToolCalled(i)])
  {
    var after := log + [ToolCalled(i)];
    assert Gated(steps[i]) ==> CallConfirmed(after, i, |log|);
    GrowthKeepsGates(steps, log, after);
  }

  lemma LoggingKeepsSound(steps: seq<Step>, s: State, after: State)
    requires Sound(steps, s) && s.log <= after.log && CallFree(after.log, |s.log|)
    requires after.flow.None? || (after.flow == s.flow && s.flow.value.pending.None?)
    ensures Sound(steps, after)
  {
    CallFreeGrowthKeepsGates(steps, s.log, after.log);
  }

  lemma AdvanceKeepsSound(o: Oracle, steps: seq<Step>, i: nat, s: State)
    requires Sound(steps, s) && s.flow.Some? && s.flow.value.pending.None? && i < |steps|
    ensures Sound(steps, Advanced(o, steps, i, s).s) && Unpending(Advanced(o, steps, i, s).s)
  {
    AdvanceRelocates(o, steps, i, s);
    RelocationKeepsSound(steps, s, Advanced(o, steps, i, s));
  }

  lemma FallbackKeepsSound(steps: seq<Step>, i: nat, s: State, decision: bool)
    requires Sound(steps, s) && s.flow.Some? && s.flow.value.pending.None? && i < |steps|
    ensures Sound(steps, FellBack(steps, i, s, decision).s) && Unpending(FellBack(steps, i, s, decision).s)
  {
    FallbackRelocates(steps, i, s, decision);
    RelocationKeepsSound(steps, s, FellBack(steps, i, s, decision));
  }

  lemma GivingUpKeepsSound(o: Oracle, steps: seq<Step>, i: nat, s: State)
    requires Sound(steps, s) && s.flow.Some? && s.flow.value.pending.None? && i < |steps|
    ensures Sound(steps, ToolGivenUp(o, steps, i, s).s) && Unpending(ToolGivenUp(o, steps, i, s).s)
  {
    if Given(steps[i].fallback) {
      FallbackKeepsSound(steps, i, s, false);
    } else {
      match steps[i].onFailure {
        case Skip => AdvanceKeepsSound(o, steps, i, s);
        case Escalate => LoggingKeepsSound(steps, s, Log(s, Queued(EscalatedNotice)).(flow := None, data := map[]));
        case Rollback => RollbackKeepsSound(steps, s, i);
        case _ =>
      }
    }
  }

  lemma ToolKeepsSound(o: Oracle, steps: seq<Step>, i: nat, s: State)
    requires Sound(steps, s) && s.flow.Some? && s.flow.value.pending.None? && i < |steps|
    requires Gated(steps[i]) ==> CallConfirmed(s.log, i, |s.log|)
    ensures Sound(steps, ToolRun(o, steps, i, s).s) && Unpending(ToolRun(o, steps, i, s).s)
  {
    var called := Log(s, ToolCalled(i));
    CallKeepsGates(steps, s.log, i);
    assert Sound(steps, called);
    AdvanceKeepsSound(o, steps, i, s);
    GivingUpKeepsSound(o, steps, i, s);
    GivingUpKeepsSound(o, steps, i, called);
    if o(|s.log|).tool.ToolReplied? {
      AdvanceKeepsSound(o, steps, i, called.(data := WithToolResult(steps[i], s.data, o(|s.log|).tool.output)));
    }
  }

  /** An affirmative is heard in the turn that brought it, by a workflow that is not cancelled. */
  ghost predicate ReplyIsLogged(s: State, intent: Option<bool>) {
    intent == Some(true) ==>
      && s.log != [] && Affirmative(s.log[|s.log| - 1])
      && (s.flow.Some? ==> !s.flow.value.status.Cancelled?)
  }

  lemma AffirmedGateIsReady(s: State, i: nat)
    requires AwaitsReply(s.log, i, s.data) && ReplyIsLogged(s, Some(true))
    ensures var log := s.log + [Visited(i, s.data)]; CallConfirmed(log, i, |log|)
  {
    var shown := s.log[..|s.log| - 1];
    assert shown[|shown| - 2..][0] == s.log[|s.log| - 3] && shown[|shown| - 2..][1] == s.log[|s.log| - 2];
  }

  /** Showing the gate arms it for the current step. */
  lemma ShowingKeepsSound(steps: seq<Step>, s: State, here: State)
    requires s.flow.Some? && s.flow.value.index < |steps| && Gated(steps[s.flow.value.index]) && here == Arrived(s)
    requires Sound(steps, Unasked(here))
    ensures var i := s.flow.value.index;
            var after := Log(here, GateShown(i)).(flow := Some(here.flow.value.(pending := Some(steps[i].id))));
            Sound(steps, after) && Settled(after)
  {
    var i := s.flow.value.index;
    var log := here.log + [GateShown(i)];
    CallFreeGrowthKeepsGates(steps, here.log, log);
    assert log[|log| - 2..] == [Visited(i, s.data), GateShown(i)];
  }

  lemma GateKeepsSound(o: Oracle, steps: seq<Step>, s: State, intent: Option<bool>)
    requires Sound(steps, s) && s.flow.Some? && s.flow.value.index < |steps|
    requires steps[s.flow.value.index].kind.ToolCall? && ReplyIsLogged(s, intent)
    ensures var after := ToolGate(o, steps, s.flow.value.index, Arrived(s), intent).s;
            Sound(steps, after) && Settled(after)
  {
    var i, here := s.flow.value.index, Arrived(s);
    ArrivalKeepsSound(steps, s);
    if !steps[i].requiresConfirm {
      ToolKeepsSound(o, steps, i, here);
    } else if s.flow.value.pending == Some(steps[i].id) && intent == Some(true) {
      AffirmedGateIsReady(s, i);
      ToolKeepsSound(o, steps, i, Unasked(here));
    } else if s.flow.value.pending == Some(steps[i].id) && intent == Some(false) {
      RollbackKeepsSound(steps, Unasked(here), i);
    } else {
      ShowingKeepsSound(steps, s, here);
    }
  }

  lemma {:induction false} DeliveryOnlyLogsWebhooks(o: Oracle, i: nat, log: seq<Event>, attempts: nat)
    ensures var after := Delivered(o, i, log, attempts).0;
            && log <= after && |after| <= |log| + attempts
            && forall k :: |log| <= k < |after| ==> after[k] == WebhookCalled(i)
    decreases attempts
  {
    if attempts > 0 && !o(|log|).delivered {
      DeliveryOnlyLogsWebhooks(o, i, log + [WebhookCalled(i)], attempts - 1);
    }
  }

  lemma EndingKeepsSound(o: Oracle, steps: seq<Step>, i: nat, s: State)
    requires Sound(steps, s) && s.flow.Some? && s.flow.value.pending.None?
    requires i < |steps| && steps[i].kind.Complete?
    ensures Sound(steps, Ended(o, steps, i, s).s) && Unpending(Ended(o, steps, i, s).s)
  {
    DeliveryOnlyLogsWebhooks(o, i, s.log, WEBHOOK_ATTEMPTS);
    var after := Ended(o, steps, i, s).s;
    assert s.log <= after.log && CallFree(after.log, |s.log|);
    LoggingKeepsSound(steps, s, s.(log := after.log));
  }

  lemma DecisionKeepsSound(o: Oracle, steps: seq<Step>, i: nat, s: State)
    requires Sound(steps, s) && s.flow.Some? && s.flow.value.pending.None? && i < |steps|
    ensures Sound(steps, Decided(o, steps, i, s).s) && Unpending(Decided(o, steps, i, s).s)
  {
    var config := steps[i].decision;
    var data := s.data - {config.resultKey};
    var choice := AcceptedChoice(config, data, o(|s.log|).decision);
    var judged := Log(s, Judged(i, choice.Some?));
    LoggingKeepsSound(steps, s, judged);
    if choice.Some? {
      AdvanceKeepsSound(o, steps, i, judged.(data := data[config.resultKey := Plain(choice.value)]));
    } else {
      FallbackKeepsSound(steps, i, judged.(data := data), true);
    }
  }

  lemma ValidationKeepsSound(o: Oracle, steps: seq<Step>, i: nat, s: State)
    requires Sound(steps, s) && s.flow.Some? && s.flow.value.pending.None? && i < |steps|
    ensures Sound(steps, Validated(o, steps, i, s).s) && Unpending(Validated(o, steps, i, s).s)
  {
    AdvanceKeepsSound(o, steps, i, s);
    FallbackKeepsSound(steps, i, s, false);
    RollbackKeepsSound(steps, s, i);
  }

  /** Every other step has no gate, so nothing is pending there. */
  lemma UngatedKeepsSound(o: Oracle, steps: seq<Step>, i: nat, here: State, intent: Option<bool>)
    requires Sound(steps, here) && here.flow.Some? && here.flow.value.pending.None?
    requires i < |steps| && !steps[i].kind.ToolCall? && here.flow.value.index == i
    ensures var after := Handled(o, steps, i, here, intent).s; Sound(steps, after) && Unpending(after)
  {
    match steps[i].kind {
      case Collect =>
        AdvanceKeepsSound(o, steps, i, here);
        if o(|here.log|).collect.Submitted? {
          AdvanceKeepsSound(o, steps, i, here.(data := Filled(steps[i].fields, here.data, o(|here.log|).collect)));
        }
      case Validate => ValidationKeepsSound(o, steps, i, here);
      case Decision => DecisionKeepsSound(o, steps, i, here);
      case Confirm =>
        AdvanceKeepsSound(o, steps, i, here);
        RollbackKeepsSound(steps, here, i);
      case HumanReview => LoggingKeepsSound(steps, here, Log(here, Queued(EscalatedNotice)));
      case Complete => EndingKeepsSound(o, steps, i, here);
      case _ =>
    }
  }

  lemma VisitKeepsSound(o: Oracle, steps: seq<Step>, s: State, intent: Option<bool>)
    requires Sound(steps, s) && ReplyIsLogged(s, intent)
    ensures var after := Visit(o, steps, s, intent).s; Sound(steps, after) && Settled(after)
  {
    if s.flow.Some? && s.flow.value.index < |steps| {
      var i := s.flow.value.index;
      if steps[i].kind.ToolCall? {
        GateKeepsSound(o, steps, s, intent);
      } else {
        ArrivalKeepsSound(steps, s);
        UngatedKeepsSound(o, steps, i, Arrived(s), intent);
      }
    }
  }

  // ---- Chains, turns and runs ----

  lemma {:induction false} ChainKeepsSound(visit: Visitor, steps: seq<Step>, s: State, intent: Option<bool>, depth: nat)
    requires Sound(steps, s) && ReplyIsLogged(s, intent) && (depth > 0 ==> Settled(s))
    requires forall s, intent :: Sound(steps, s) && ReplyIsLogged(s, intent) ==>
               Sound(steps, visit(s, intent).s) && Settled(visit(s, intent).s)
    ensures var after := Chain(visit, s, intent, depth).0; Sound(steps, after) && Settled(after)
    decreases if depth > MAX_DEPTH then 0 else MAX_DEPTH + 1 - depth
  {
    if depth <= MAX_DEPTH && visit(s, intent).Auto? {
      ChainKeepsSound(visit, steps, visit(s, intent).s, None, depth + 1);
    }
  }

  lemma RunKeepsSound(o: Oracle, steps: seq<Step>, s: State, intent: Option<bool>, depth: nat)
    requires Sound(steps, s) && ReplyIsLogged(s, intent) && (depth > 0 ==> Settled(s))
    ensures var after := Run(o, steps, s, intent, depth).0; Sound(steps, after) && Settled(after)
  {
    forall s, intent | Sound(steps, s) && ReplyIsLogged(s, intent)
      ensures var after := Visits(o, steps)(s, intent).s; Sound(steps, after) && Settled(after)
    {
      VisitKeepsSound(o, steps, s, intent);
    }
    ChainKeepsSound(Visits(o, steps), steps, s, intent, depth);
  }

  lemma ResumptionKeepsSound(o: Oracle, steps: seq<Step>, s: State)
    requires Sound(steps, s) && s.flow.Some? && s.flow.value.status.PausedForReview?
    ensures var after := Resumed(o, steps, s).0; Sound(steps, after) && Settled(after)
  {
    var i := s.flow.value.index;
    AdvanceKeepsSound(o, steps, i, s);
    var m := Advanced(o, steps, i, s);
    if m.Auto? {
      RunKeepsSound(o, steps, m.s, None, 1);
    }
  }

  lemma HearingKeepsSound(steps: seq<Step>, s: State, text: string)
    requires Sound(steps, s) && Settled(s)
    ensures Sound(steps, Heard(s, text))
    ensures s.flow.Some? && !s.flow.value.status.Cancelled? ==> ReplyIsLogged(Heard(s, text), ConfirmationIntent(text))
    ensures Sound(steps, Started(s, text)) && ReplyIsLogged(Started(s, text), ConfirmationIntent(text))
  {
    var log := s.log + [TurnStarted(text, ConfirmationIntent(text))];
    CallFreeGrowthKeepsGates(steps, s.log, log);
    assert log[..|s.log|] == s.log;
  }

  lemma BeginKeepsSound(o: Oracle, steps: seq<Step>, s: State, reason: string)
    requires Sound(steps, s) && Settled(s)
    ensures var after := TurnTaken(o, steps, s, Begin(reason)); Sound(steps, after) && Settled(after)
  {
    HearingKeepsSound(steps, s, reason);
    RunKeepsSound(o, steps, Started(s, reason), ConfirmationIntent(reason), 0);
  }

  lemma SayingKeepsSound(o: Oracle, steps: seq<Step>, s: State, t: Turn)
    requires Sound(steps, s) && Settled(s) && t.Say?
    ensures var after := TurnTaken(o, steps, s, t); Sound(steps, after) && Settled(after)
  {
    HearingKeepsSound(steps, s, t.message);
    if !Idle(s) && !t.leaves {
      if s.flow.value.status.PausedForReview? {
        ResumptionKeepsSound(o, steps, Heard(s, t.message));
      } else {
        RunKeepsSound(o, steps, Heard(s, t.message), ConfirmationIntent(t.message), 0);
      }
    }
  }

  lemma TurnKeepsSound(o: Oracle, steps: seq<Step>, s: State, t: Turn)
    requires Sound(steps, s) && Settled(s)
    ensures var after := TurnTaken(o, steps, s, t); Sound(steps, after) && Settled(after)
  {
    if t.Begin? {
      BeginKeepsSound(o, steps, s, t.reason);
    } else {
      SayingKeepsSound(o, steps, s, t);
    }
  }

  /** Every run keeps the gates, the pending confirmation, the snapshots and the status sound. */
  lemma {:induction false} RunsAreSound(o: Oracle, steps: seq<Step>, turns: seq<Turn>)
    ensures var after := AfterTurns(o, steps, turns); Sound(steps, after) && Settled(after)
  {
    if turns != [] {
      RunsAreSound(o, steps, turns[..|turns| - 1]);
      TurnKeepsSound(o, steps, AfterTurns(o, steps, turns[..|turns| - 1]), turns[|turns| - 1]);
    }
  }

  // ---- Rejected decisions over runs ----

  /** No external call follows a rejection before the next turn. */
  ghost predicate QuietAfterRejection(log: seq<Event>) {
    forall k, m :: 0 <= k < m < |log| && log[k].Judged? && !log[k].accepted && External(log[m]) ==>
      exists t :: k < t < m && log[t].TurnStarted?
  }

  /** The same within the part of the log that one chain added. */
  ghost predicate QuietPart(log: seq<Event>, from: nat) {
    forall k, m :: from <= k < m < |log| && log[k].Judged? && !log[k].accepted ==> !External(log[m])
  }

  /** Whether the visit judges a decision and rejects it. */
  predicate Rejects(o: Oracle, steps: seq<Step>, s: State) {
    && s.flow.Some? && s.flow.value.index < |steps|
    && var step := steps[s.flow.value.index];
    && step.kind.Decision? && ConfigValid(step.decision)
    && AcceptedChoice(step.decision, s.data - {step.decision.resultKey}, o(|s.log| + 1).decision).None?
  }

  // ---- What a visit adds to the log ----

  /** New entries start no turn and reject no decision. */
  ghost predicate Adds(s: State, after: State) {
    && s.log <= after.log
    && forall k :: |s.log| <= k < |after.log| ==>
         !after.log[k].TurnStarted? && (after.log[k].Judged? ==> after.log[k].accepted)
  }

  lemma AddsChain(a: State, b: State, c: State)
    requires Adds(a, b) && Adds(b, c)
    ensures Adds(a, c)
  {
  }

  lemma GivingUpAdds(o: Oracle, steps: seq<Step>, i: nat, s: State)
    requires s.flow.Some? && i < |steps|
    ensures Adds(s, ToolGivenUp(o, steps, i, s).s)
  {
    if Given(steps[i].fallback) {
      FallbackRelocates(steps, i, s, false);
    } else if steps[i].onFailure.Skip? {
      AdvanceRelocates(o, steps, i, s);
    }
  }

  lemma ToolAdds(o: Oracle, steps: seq<Step>, i: nat, s: State)
    requires s.flow.Some? && i < |steps|
    ensures Adds(s, ToolRun(o, steps, i, s).s)
  {
    AdvanceRelocates(o, steps, i, s);
    if Given(steps[i].toolId) {
      var called := Log(s, ToolCalled(i));
      match o(|s.log|).tool {
        case ToolMissing => GivingUpAdds(o, steps, i, s);
        case ToolFailed => GivingUpAdds(o, steps, i, called);
        case ToolReplied(output) =>
          AdvanceRelocates(o, steps, i, called.(data := WithToolResult(steps[i], s.data, output)));
      }
    }
  }

  lemma GateAdds(o: Oracle, steps: seq<Step>, i: nat, s: State, intent: Option<bool>)
    requires s.flow.Some? && i < |steps|
    ensures Adds(s, ToolGate(o, steps, i, s, intent).s)
  {
    ToolAdds(o, steps, i, s);
    ToolAdds(o, steps, i, s.(flow := Some(s.flow.value.(pending := None))));
  }

  lemma EndAdds(o: Oracle, steps: seq<Step>, i: nat, s: State)
    requires s.flow.Some? && i < |steps|
    ensures Adds(s, Ended(o, steps, i, s).s)
  {
    DeliveryOnlyLogsWebhooks(o, i, s.log, WEBHOOK_ATTEMPTS);
  }

  lemma AcceptanceAdds(o: Oracle, steps: seq<Step>, i: nat, s: State)
    requires s.flow.Some? && i < |steps| && ConfigValid(steps[i].decision)
    requires var c := steps[i].decision; AcceptedChoice(c, s.data - {c.resultKey}, o(|s.log|).decision).Some?
    ensures Adds(s, Decided(o, steps, i, s).s)
  {
    var key := steps[i].decision.resultKey;
    var choice := AcceptedChoice(steps[i].decision, s.data - {key}, o(|s.log|).decision);
    var judged := Log(s, Judged(i, true)).(data := (s.data - {key})[key := Plain(choice.value)]);
    AdvanceRelocates(o, steps, i, judged);
  }

  lemma CollectAdds(o: Oracle, steps: seq<Step>, i: nat, s: State)
    requires s.flow.Some? && i < |steps|
    ensures Adds(s, Collected(o, steps, i, s).s)
  {
    AdvanceRelocates(o, steps, i, s);
    if o(|s.log|).collect.Submitted? {
      AdvanceRelocates(o, steps, i, s.(data := Filled(steps[i].fields, s.data, o(|s.log|).collect)));
    }
  }

  lemma HandlingAdds(o: Oracle, steps: seq<Step>, i: nat, s: State, intent: Option<bool>)
    requires s.flow.Some? && i < |steps|
    requires var c := steps[i].decision;
             steps[i].kind.Decision? && ConfigValid(c) ==>
               AcceptedChoice(c, s.data - {c.resultKey}, o(|s.log|).decision).Some?
    ensures Adds(s, Handled(o, steps, i, s, intent).s)
  {
    match steps[i].kind {
      case Collect => CollectAdds(o, steps, i, s);
      case Validate =>
        AdvanceRelocates(o, steps, i, s);
        FallbackRelocates(steps, i, s, false);
      case ToolCall => GateAdds(o, steps, i, s, intent);
      case Decision =>
        if ConfigValid(steps[i].decision) { AcceptanceAdds(o, steps, i, s); }
      case Confirm => AdvanceRelocates(o, steps, i, s);
      case HumanReview =>
      case Complete => EndAdds(o, steps, i, s);
      case _ =>
    }
  }

  /** Only a rejecting visit logs a rejection, and no visit starts a turn. */
  lemma VisitAdds(o: Oracle, steps: seq<Step>, s: State, intent: Option<bool>)
    requires !Rejects(o, steps, s)
    ensures Adds(s, Visit(o, steps, s, intent).s)
  {
    if s.flow.Some? && s.flow.value.index < |steps| {
      var here := Arrived(s);
      assert here.log == s.log + [Visited(s.flow.value.index, s.data)] && here.data == s.data;
      HandlingAdds(o, steps, s.flow.value.index, here, intent);
      AddsChain(s, here, Visit(o, steps, s, intent).s);
    }
  }

  lemma RejectionAdds(o: Oracle, steps: seq<Step>, s: State, intent: Option<bool>)
    requires Rejects(o, steps, s)
    ensures Visit(o, steps, s, intent).s.log
         == s.log + [Visited(s.flow.value.index, s.data), Judged(s.flow.value.index, false)]
  {
    var i, here := s.flow.value.index, Arrived(s);
    var judged := Log(here, Judged(i, false)).(data := s.data - {steps[i].decision.resultKey});
    FallbackRelocates(steps, i, judged, true);
  }

  // ---- Chains and turns ----

  /** What was logged is kept, and no turn starts in between. */
  ghost predicate SameTurn(before: seq<Event>, after: seq<Event>) {
    before <= after && forall k :: |before| <= k < |after| ==> !after[k].TurnStarted?
  }

  lemma VisitStaysInTurn(o: Oracle, steps: seq<Step>, s: State, intent: Option<bool>)
    ensures SameTurn(s.log, Visit(o, steps, s, intent).s.log)
  {
    if Rejects(o, steps, s) { RejectionAdds(o, steps, s, intent); } else { VisitAdds(o, steps, s, intent); }
  }

  lemma {:induction false} ChainStaysInTurn(visit: Visitor, s: State, intent: Option<bool>, depth: nat)
    requires forall s: State, intent :: SameTurn(s.log, visit(s, intent).s.log)
    ensures SameTurn(s.log, Chain(visit, s, intent, depth).0.log)
    decreases if depth > MAX_DEPTH then 0 else MAX_DEPTH + 1 - depth
  {
    if depth <= MAX_DEPTH && visit(s, intent).Auto? {
      ChainStaysInTurn(visit, visit(s, intent).s, None, depth + 1);
    }
  }

  lemma RunStaysInTurn(o: Oracle, steps: seq<Step>, s: State, intent: Option<bool>, depth: nat)
    ensures SameTurn(s.log, Run(o, steps, s, intent, depth).0.log)
  {
    forall s: State, intent ensures SameTurn(s.log, Visits(o, steps)(s, intent).s.log) {
      VisitStaysInTurn(o, steps, s, intent);
    }
    ChainStaysInTurn(Visits(o, steps), s, intent, depth);
  }

  /** Every turn is logged with the reading of its own text. */
  ghost predicate IntentsLogged(log: seq<Event>) {
    forall k :: 0 <= k < |log| && log[k].TurnStarted? ==> log[k].intent == ConfirmationIntent(log[k].text)
  }

  /** The state in which the visits of a turn begin. */
  lemma SayResumes(o: Oracle, steps: seq<Step>, s: State, t: Turn, heard: State)
    requires t.Say? && !Idle(s) && !t.leaves && heard == Heard(s, t.message)
    requires s.flow.value.status.PausedForReview? && t.resumes
    ensures SameTurn(heard.log, TurnTaken(o, steps, s, t).log)
  {
    ResumptionStaysInTurn(o, steps, heard);
  }

  lemma SayRuns(o: Oracle, steps: seq<Step>, s: State, t: Turn, heard: State)
    requires t.Say? && !Idle(s) && !t.leaves && heard == Heard(s, t.message)
    requires !s.flow.value.status.PausedForReview? && !(s.flow.value.status.AwaitRetry? && !t.retries)
    ensures SameTurn(heard.log, TurnTaken(o, steps, s, t).log)
  {
    RunStaysInTurn(o, steps, heard, ConfirmationIntent(t.message), 0);
  }

  lemma SayShape(o: Oracle, steps: seq<Step>, s: State, t: Turn) returns (heard: State)
    requires t.Say?
    ensures SameTurn(heard.log, TurnTaken(o, steps, s, t).log)
    ensures heard.log == s.log || heard.log == Heard(s, t.message).log
  {
    heard := s;
    if !Idle(s) && !t.leaves {
      if s.flow.value.status.PausedForReview? {
        if t.resumes {
          heard := Heard(s, t.message);
          SayResumes(o, steps, s, t, heard);
        }
      } else if !(s.flow.value.status.AwaitRetry? && !t.retries) {
        heard := Heard(s, t.message);
        SayRuns(o, steps, s, t, heard);
      }
    }
  }

  lemma TurnShape(o: Oracle, steps: seq<Step>, s: State, t: Turn) returns (heard: State)
    ensures SameTurn(heard.log, TurnTaken(o, steps, s, t).log)
    ensures heard.log == s.log || (t.Begin? && heard.log == Heard(s, t.reason).log)
                               || (t.Say? && heard.log == Heard(s, t.message).log)
  {
    if t.Begin? {
      heard := if Idle(s) then Started(s, t.reason) else s;
      RunStaysInTurn(o, steps, heard, ConfirmationIntent(t.reason), 0);
    } else {
      heard := SayShape(o, steps, s, t);
    }
  }

  lemma ResumptionStaysInTurn(o: Oracle, steps: seq<Step>, s: State)
    requires s.flow.Some?
    ensures SameTurn(s.log, Resumed(o, steps, s).0.log)
  {
    if s.flow.value.index < |steps| {
      var m := Advanced(o, steps, s.flow.value.index, s);
      AdvanceRelocates(o, steps, s.flow.value.index, s);
      if m.Auto? { RunStaysInTurn(o, steps, m.s, None, 1); }
    }
  }

  lemma SameTurnKeepsIntents(a: seq<Event>, b: seq<Event>)
    requires SameTurn(a, b) && IntentsLogged(a)
    ensures IntentsLogged(b)
  {
  }

  lemma HeardLogsIntent(s: State, text: string)
    requires IntentsLogged(s.log)
    ensures IntentsLogged(Heard(s, text).log)
  {
  }

  lemma TurnLogsIntent(o: Oracle, steps: seq<Step>, s: State, t: Turn)
    requires IntentsLogged(s.log)
    ensures IntentsLogged(TurnTaken(o, steps, s, t).log)
  {
    var heard := TurnShape(o, steps, s, t);
    HeardLogsIntent(s, if t.Begin? then t.reason else t.message);
    SameTurnKeepsIntents(heard.log, TurnTaken(o, steps, s, t).log);
  }

  lemma {:induction false} RunsLogIntents(o: Oracle, steps: seq<Step>, turns: seq<Turn>)
    ensures IntentsLogged(AfterTurns(o, steps, turns).log)
  {
    if turns != [] {
      RunsLogIntents(o, steps, turns[..|turns| - 1]);
      TurnLogsIntent(o, steps, AfterTurns(o, steps, turns[..|turns| - 1]), turns[|turns| - 1]);
    }
  }

  /** In every run, each call of a gated tool is the direct reply to its own gate: the step was
      visited and its gate shown, the next message was an explicit affirmative, and the step
      that heard it was this one, with the very data it had shown. So no message to another
      step, and no answer but the first, opens a gate. */
  lemma GatedCallsAreConfirmed(o: Oracle, steps: seq<Step>, turns: seq<Turn>, m: nat)
    requires var log := AfterTurns(o, steps, turns).log;
             m < |log| && log[m].ToolCalled? && log[m].index < |steps| && Gated(steps[log[m].index])
    ensures var log := AfterTurns(o, steps, turns).log;
            && m >= 4
            && log[m - 4].Visited? && log[m - 4].index == log[m].index
            && log[m - 3] == GateShown(log[m].index)
            && log[m - 2].TurnStarted? && Affirms(log[m - 2].text)
            && log[m - 1] == log[m - 4]
  {
    RunsAreSound(o, steps, turns);
    RunsLogIntents(o, steps, turns);
    var log := AfterTurns(o, steps, turns).log;
    assert GateHonoured(steps, log, m);
    AffirmativesExactly(log[m - 2].text);
  }

  // ---- Rejected decisions over runs ----

  lemma {:induction false} ChainIsQuiet(visit: Visitor, rejects: State -> bool, s: State, intent: Option<bool>, depth: nat)
    requires forall s, intent :: !rejects(s) ==> Adds(s, visit(s, intent).s)
    requires forall s, intent, depth: nat :: rejects(s) && depth <= MAX_DEPTH ==>
               s.log <= Chain(visit, s, intent, depth).0.log && QuietFrom(Chain(visit, s, intent, depth).0.log, |s.log|)
    ensures s.log <= Chain(visit, s, intent, depth).0.log
    ensures QuietPart(Chain(visit, s, intent, depth).0.log, |s.log|)
    decreases if depth > MAX_DEPTH then 0 else MAX_DEPTH + 1 - depth
  {
    if depth <= MAX_DEPTH && !rejects(s) && visit(s, intent).Auto? {
      var next := visit(s, intent).s;
      assert Adds(s, next);
      ChainIsQuiet(visit, rejects, next, None, depth + 1);
    }
  }

  lemma RunIsQuiet(o: Oracle, payloads: seq<Step>, s: State, intent: Option<bool>, depth: nat)
    requires Accepted(payloads) && UniqueIds(payloads)
    ensures s.log <= Run(o, Ordered(payloads), s, intent, depth).0.log
    ensures QuietPart(Run(o, Ordered(payloads), s, intent, depth).0.log, |s.log|)
  {
    var steps := Ordered(payloads);
    var rejects := (s: State) => Rejects(o, steps, s);
    forall s, intent | !rejects(s) ensures Adds(s, Visits(o, steps)(s, intent).s) {
      VisitAdds(o, steps, s, intent);
    }
    forall s, intent, depth: nat | rejects(s) && depth <= MAX_DEPTH
      ensures var log := Chain(Visits(o, steps), s, intent, depth).0.log; s.log <= log && QuietFrom(log, |s.log|)
    {
      RejectedDecisionIsSafe(o, payloads, s, intent, depth);
    }
    ChainIsQuiet(Visits(o, steps), rejects, s, intent, depth);
  }

  lemma QuietPartKeepsQuiet(before: seq<Event>, after: seq<Event>)
    requires QuietAfterRejection(before) && before <= after && QuietPart(after, |before|)
    requires |before| < |after| && after[|before|].TurnStarted?
    ensures QuietAfterRejection(after)
  {
    forall k, m | 0 <= k < m < |after| && after[k].Judged? && !after[k].accepted && External(after[m])
      ensures exists t :: k < t < m && after[t].TurnStarted?
    {
      if m < |before| {
        assert before[k] == after[k] && before[m] == after[m];
        var t :| k < t < m && before[t].TurnStarted?;
        assert after[t].TurnStarted?;
      } else if k < |before| {
        assert after[|before|].TurnStarted?;
      }
    }
  }

  lemma OpeningStaysQuiet(before: seq<Event>, e: Event, after: seq<Event>)
    requires e.TurnStarted? && before + [e] <= after && QuietPart(after, |before| + 1)
    ensures QuietPart(after, |before|) && before <= after && after[|before|] == e
  {
    assert (before + [e])[|before|] == e;
  }

  /** A turn heard as `text` whose visits end with the log `after`. */
  lemma HeardTurnIsQuiet(s: State, text: string, after: seq<Event>)
    requires QuietAfterRejection(s.log)
    requires Heard(s, text).log <= after && QuietPart(after, |s.log| + 1)
    ensures QuietAfterRejection(after)
  {
    OpeningStaysQuiet(s.log, TurnStarted(text, ConfirmationIntent(text)), after);
    QuietPartKeepsQuiet(s.log, after);
  }

  lemma BeginIsQuiet(o: Oracle, payloads: seq<Step>, s: State, reason: string)
    requires Accepted(payloads) && UniqueIds(payloads) && QuietAfterRejection(s.log)
    ensures QuietAfterRejection(TurnTaken(o, Ordered(payloads), s, Begin(reason)).log)
  {
    if Idle(s) {
      RunIsQuiet(o, payloads, Started(s, reason), ConfirmationIntent(reason), 0);
      HeardTurnIsQuiet(s, reason, Run(o, Ordered(payloads), Started(s, reason), ConfirmationIntent(reason), 0).0.log);
    }
  }

  lemma SayingIsQuiet(o: Oracle, payloads: seq<Step>, s: State, t: Turn)
    requires Accepted(payloads) && UniqueIds(payloads) && QuietAfterRejection(s.log) && t.Say?
    ensures QuietAfterRejection(TurnTaken(o, Ordered(payloads), s, t).log)
  {
    var steps, heard := Ordered(payloads), Heard(s, t.message);
    var after := TurnTaken(o, steps, s, t).log;
    if after != s.log {
      if s.flow.value.status.PausedForReview? {
        ResumptionIsQuiet(o, payloads, heard);
      } else {
        RunIsQuiet(o, payloads, heard, ConfirmationIntent(t.message), 0);
      }
      HeardTurnIsQuiet(s, t.message, after);
    }
  }

  lemma TurnIsQuiet(o: Oracle, payloads: seq<Step>, s: State, t: Turn)
    requires Accepted(payloads) && UniqueIds(payloads) && QuietAfterRejection(s.log)
    ensures QuietAfterRejection(TurnTaken(o, Ordered(payloads), s, t).log)
  {
    if t.Begin? { BeginIsQuiet(o, payloads, s, t.reason); } else { SayingIsQuiet(o, payloads, s, t); }
  }

  lemma ResumptionIsQuiet(o: Oracle, payloads: seq<Step>, s: State)
    requires Accepted(payloads) && UniqueIds(payloads) && s.flow.Some?
    ensures s.log <= Resumed(o, Ordered(payloads), s).0.log
    ensures QuietPart(Resumed(o, Ordered(payloads), s).0.log, |s.log|)
  {
    var steps := Ordered(payloads);
    if s.flow.value.index < |steps| {
      var m := Advanced(o, steps, s.flow.value.index, s);
      AdvanceRelocates(o, steps, s.flow.value.index, s);
      if m.Auto? { RunIsQuiet(o, payloads, m.s, None, 1); }
    }
  }

  /** In every run of an accepted workflow, no tool or webhook is called between a
      rejected decision and the start of the next turn. */
  lemma {:induction false} RejectionsAreQuiet(o: Oracle, payloads: seq<Step>, turns: seq<Turn>)
    requires Accepted(payloads) && UniqueIds(payloads)
    ensures QuietAfterRejection(AfterTurns(o, Ordered(payloads), turns).log)
  {
    if turns != [] {
      var before := turns[..|turns| - 1];
      RejectionsAreQuiet(o, payloads, before);
      TurnIsQuiet(o, payloads, AfterTurns(o, Ordered(payloads), before), turns[|turns| - 1]);
    }
  }
}
