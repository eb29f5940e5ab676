/** What each kind of step does to the session, told from the session before and after the
    visit or the turn, and what one turn undoes of another. */
module WorkflowLaws {
  import opened Options
  import opened Workflows
  import opened Confirmations
  import opened WorkflowSemantics
  import opened WorkflowSoundness
  import opened DecisionSafety
  import opened WorkflowInvariants
  import Decisions

  /** The session is at step i. */
  predicate Stands(steps: seq<Step>, s: State, i: nat) {
    s.flow.Some? && s.flow.value.index == i < |steps|
  }

  /** Nothing of the session changed but its snapshots and its log, which grew by these events. */
  predicate OnlyLogged(before: State, after: State, events: seq<Event>) {
    && before.flow.Some? && after.flow.Some?
    && after.flow.value.(snapshots := before.flow.value.snapshots) == before.flow.value
    && after.data == before.data && after.log == before.log + events
  }

  // ---- Going on ----

  /** A step at which the session waits for a message. */
  predicate AsksForInput(s: Step) {
    (s.kind.Collect? && s.fields != []) || s.kind.Confirm? || s.kind.Unset? || s.kind.OtherType?
  }

  /** The visit leaves the session, otherwise as it is here, at step j: behind the last step it
      ends, at a step that asks for input it waits, and into any other it goes on. */
  predicate GoesTo(steps: seq<Step>, here: State, m: Move, j: nat) {
    && here.flow.Some? && m.s.flow.Some? && m.s.data == here.data && m.s.log == here.log
    && m.s.flow.value == here.flow.value.(index := j, status := m.s.flow.value.status)
    && if j >= |steps| then m.Stop? && m.r.Finished? && m.s.flow.value.status.Completed?
       else m.s.flow.value.status.InProgress? && if AsksForInput(steps[j]) then m.Stop? && m.r.Waiting? else m.Auto?
  }

  predicate Matches(rule: Rule, data: Data, holds: (Condition, Data) -> bool) {
    rule.condition.None? || holds(rule.condition.value, data)
  }

  predicate IsFirstMatch(rules: seq<Rule>, k: nat, data: Data, holds: (Condition, Data) -> bool) {
    k < |rules| && Matches(rules[k], data, holds) && forall j :: 0 <= j < k ==> !Matches(rules[j], data, holds)
  }

  lemma {:induction false} FirstMatchIsFirst(rules: seq<Rule>, data: Data, holds: (Condition, Data) -> bool) returns (k: nat)
    ensures k <= |rules| && forall j :: 0 <= j < k ==> !Matches(rules[j], data, holds)
    ensures k < |rules| ==> Matches(rules[k], data, holds) && FirstMatch(rules, data, holds) == rules[k].goto
    ensures k == |rules| ==> FirstMatch(rules, data, holds).None?
  {
    k := 0;
    if rules != [] && !Matches(rules[0], data, holds) {
      var rest := FirstMatchIsFirst(rules[1..], data, holds);
      k := rest + 1;
      assert forall j :: 0 <= j < |rules| - 1 ==> rules[1..][j] == rules[j + 1];
    }
  }

  /** The visit takes the route of the first matching rule, and without one the next step in order. */
  ghost predicate TakesItsRoute(o: Oracle, steps: seq<Step>, i: nat, here: State, m: Move)
    requires i < |steps|
  {
    var rules, holds := steps[i].rules, o(|here.log|).holds;
    && ((forall k :: 0 <= k < |rules| ==> !Matches(rules[k], here.data, holds)) ==> GoesTo(steps, here, m, i + 1))
    && (forall k: nat :: IsFirstMatch(rules, k, here.data, holds) ==>
          if rules[k].goto.None? then GoesTo(steps, here, m, i + 1)
          else if Resolve(steps, rules[k].goto.value).None? then m == Stop(here, Failed(BadBranch))
          else GoesTo(steps, here, m, Resolve(steps, rules[k].goto.value).value))
  }

  lemma AdvanceGoesTo(o: Oracle, steps: seq<Step>, i: nat, here: State)
    requires here.flow.Some? && i < |steps|
    ensures var goto, m := FirstMatch(steps[i].rules, here.data, o(|here.log|).holds), Advanced(o, steps, i, here);
            if goto.None? then GoesTo(steps, here, m, i + 1)
            else if Resolve(steps, goto.value).None? then m == Stop(here, Failed(BadBranch))
            else GoesTo(steps, here, m, Resolve(steps, goto.value).value)
  {
  }

  lemma AdvanceTakesItsRoute(o: Oracle, steps: seq<Step>, i: nat, here: State)
    requires here.flow.Some? && i < |steps|
    ensures TakesItsRoute(o, steps, i, here, Advanced(o, steps, i, here))
  {
    var rules, holds := steps[i].rules, o(|here.log|).holds;
    var first := FirstMatchIsFirst(rules, here.data, holds);
    AdvanceGoesTo(o, steps, i, here);
    forall k: nat | IsFirstMatch(rules, k, here.data, holds) ensures k == first { }
  }

  /** A fallback that is found is entered; for a decision it has to be a safe step. */
  ghost predicate TakesItsFallback(steps: seq<Step>, i: nat, here: State, m: Move)
    requires i < |steps|
  {
    && steps[i].fallback.Some?
    && var j := Resolve(steps, steps[i].fallback.value);
       if j.None? then m == Stop(here, Failed(MissingFallback))
       else if steps[i].kind.Decision? && !Safe(steps[j.value]) then m == Stop(here, Failed(UnsafeFallback))
       else GoesTo(steps, here, m, j.value)
  }

  /** The session goes back to the latest recorded form other than this step, with the data
      recorded there; without one the visit fails and changes nothing. */
  ghost predicate GoesBack(steps: seq<Step>, i: nat, here: State, m: Move) {
    && here.flow.Some?
    && var snaps := here.flow.value.snapshots;
    && ((forall k :: 0 <= k < |snaps| ==> !Refillable(steps, i, snaps[k].index)) ==> m.Stop? && m.s == here && m.r.Failed?)
    && (forall k :: 0 <= k < |snaps| && Refillable(steps, i, snaps[k].index)
                    && (forall l :: k < l < |snaps| ==> !Refillable(steps, i, snaps[l].index)) ==>
          m == Stop(State(Some(Flow(snaps[k].index, InProgress, snaps[..k + 1], None)), snaps[k].data, here.log), Waiting))
  }

  lemma RollbackGoesBack(steps: seq<Step>, i: nat, here: State)
    requires here.flow.Some?
    ensures GoesBack(steps, i, here, RolledBack(steps, here, i))
  {
    var snaps := here.flow.value.snapshots;
    var kept := BackToRefillable(steps, i, snaps);
    BackToRefillableIsLongest(steps, i, snaps);
    forall k | 0 <= k < |snaps| && Refillable(steps, i, snaps[k].index)
               && (forall l :: k < l < |snaps| ==> !Refillable(steps, i, snaps[l].index))
      ensures kept == snaps[..k + 1]
    {
      assert snaps[|kept| - 1] == kept[|kept| - 1];
    }
  }

  // ---- Arriving ----

  /** On arrival the step and its data are the latest of at most five snapshots, unless the
      latest already is of this step. */
  lemma ArrivalIsRecorded(s: State)
    requires s.flow.Some? && |s.flow.value.snapshots| <= MAX_SNAPSHOTS
    ensures var old_, new_ := s.flow.value.snapshots, Arrived(s).flow.value.snapshots;
            var i := s.flow.value.index;
            && OnlyLogged(s, Arrived(s), [Visited(i, s.data)])
            && new_ != [] && new_[|new_| - 1].index == i
            && if old_ != [] && old_[|old_| - 1].index == i then new_ == old_
               else new_[|new_| - 1].data == s.data
                    && new_[..|new_| - 1] == if |old_| < MAX_SNAPSHOTS then old_ else old_[1..]
  {
  }

  // ---- Confirmation steps ----

  lemma ConfirmationMoves(o: Oracle, steps: seq<Step>, s: State, i: nat, intent: Option<bool>)
    requires Stands(steps, s, i) && steps[i].kind.Confirm?
    ensures var here, m := Arrived(s), Visit(o, steps, s, intent);
            && (intent == Some(true) ==> m == Advanced(o, steps, i, here))
            && (intent == Some(false) ==> m == RolledBack(steps, here, i))
            && (intent == None ==> m == Stop(here, Waiting))
  {
  }

  lemma ConfirmationHears(o: Oracle, steps: seq<Step>, s: State, i: nat, intent: Option<bool>)
    requires Stands(steps, s, i) && steps[i].kind.Confirm?
    ensures var here, m := Arrived(s), Visit(o, steps, s, intent);
            && (intent == Some(true) ==> TakesItsRoute(o, steps, i, here, m))
            && (intent == Some(false) ==> GoesBack(steps, i, here, m))
            && (intent == None ==> m == Stop(here, Waiting))
  {
    ConfirmationMoves(o, steps, s, i, intent);
    AdvanceTakesItsRoute(o, steps, i, Arrived(s));
    RollbackGoesBack(steps, i, Arrived(s));
  }

  /** How a text is read. */
  lemma IntentTells(text: string, intent: Option<bool>)
    requires intent == ConfirmationIntent(text)
    ensures intent == if Affirms(text) then Some(true) else if Refuses(text) then Some(false) else None
    ensures !(Affirms(text) && Refuses(text))
  {
    AffirmativesExactly(text);
    RefusalsExactly(text);
  }

  /** A confirmation is passed on an affirmative only, goes back on a refusal and asks again
      on any other reply. */
  lemma ConfirmationVisit(o: Oracle, steps: seq<Step>, s: State, i: nat, text: string)
    requires Stands(steps, s, i) && steps[i].kind.Confirm?
    ensures var here, m := Arrived(s), Visit(o, steps, s, ConfirmationIntent(text));
            && (Affirms(text) ==> TakesItsRoute(o, steps, i, here, m))
            && (Refuses(text) ==> GoesBack(steps, i, here, m))
            && (!Affirms(text) && !Refuses(text) ==> m == Stop(here, Waiting))
  {
    var intent := ConfirmationIntent(text);
    IntentTells(text, intent);
    ConfirmationHears(o, steps, s, i, intent);
  }

  // ---- Forms and checks ----

  /** The values a form takes over, those it drops again, and no others. */
  ghost predicate TakesValues(fields: seq<string>, before: Data, a: CollectAnswer, after: Data)
    requires a.Submitted?
  {
    && (forall k :: k in fields && k in a.provided && k !in a.dropped ==> k in after && after[k] == a.provided[k])
    && (forall k :: k in fields && k in a.provided && k in a.dropped ==> k !in after)
    && (forall k :: k !in fields || k !in a.provided ==>
          (k in after <==> k in before) && (k in before && k in after ==> after[k] == before[k]))
  }

  lemma FilledTakesValues(fields: seq<string>, before: Data, a: CollectAnswer)
    requires a.Submitted?
    ensures TakesValues(fields, before, a, Filled(fields, before, a))
  {
  }

  /** A form keeps what was submitted for its fields, and is left exactly when it is complete. */
  lemma FormVisit(o: Oracle, steps: seq<Step>, s: State, i: nat, intent: Option<bool>)
    requires Stands(steps, s, i) && steps[i].kind.Collect?
    ensures var here, m := Arrived(s), Visit(o, steps, s, intent);
            var a := o(|here.log|).collect;
            && (steps[i].fields == [] ==> TakesItsRoute(o, steps, i, here, m))
            && (steps[i].fields != [] && a.Unusable? ==> m == Stop(here, Waiting))
            && (steps[i].fields != [] && a.Submitted? ==>
                  && TakesValues(steps[i].fields, s.data, a, m.s.data)
                  && var filled := here.(data := m.s.data);
                     if a.complete then TakesItsRoute(o, steps, i, filled, m) else m == Stop(filled, Waiting))
  {
    var here := Arrived(s);
    AdvanceTakesItsRoute(o, steps, i, here);
    var a := o(|here.log|).collect;
    if a.Submitted? {
      var filled := here.(data := Filled(steps[i].fields, s.data, a));
      FilledTakesValues(steps[i].fields, s.data, a);
      AdvanceTakesItsRoute(o, steps, i, filled);
      AdvanceRelocates(o, steps, i, filled);
      AdvanceKeepsData(o, steps, i, filled);
    }
  }

  lemma AdvanceKeepsData(o: Oracle, steps: seq<Step>, i: nat, here: State)
    requires here.flow.Some? && i < |steps|
    ensures Advanced(o, steps, i, here).s.data == here.data
  {
  }

  lemma CheckMoves(o: Oracle, steps: seq<Step>, s: State, i: nat, intent: Option<bool>)
    requires Stands(steps, s, i) && steps[i].kind.Validate?
    ensures var here := Arrived(s);
            Visit(o, steps, s, intent) ==
              if o(|here.log|).checksPass then Advanced(o, steps, i, here)
              else if Given(steps[i].fallback) then FellBack(steps, i, here, false)
              else if steps[i].onFailure.Rollback? then RolledBack(steps, here, i)
              else Stop(here, Waiting)
  {
  }

  lemma FallbackIsTaken(steps: seq<Step>, i: nat, here: State)
    requires here.flow.Some? && i < |steps| && Given(steps[i].fallback)
    ensures TakesItsFallback(steps, i, here, FellBack(steps, i, here, steps[i].kind.Decision?))
  {
  }

  /** A check is passed exactly when its rules hold; otherwise the fallback, then the failure
      action decide. */
  lemma CheckVisit(o: Oracle, steps: seq<Step>, s: State, i: nat, intent: Option<bool>)
    requires Stands(steps, s, i) && steps[i].kind.Validate?
    ensures var here, m := Arrived(s), Visit(o, steps, s, intent);
            if o(|here.log|).checksPass then TakesItsRoute(o, steps, i, here, m)
            else if Given(steps[i].fallback) then TakesItsFallback(steps, i, here, m)
            else if steps[i].onFailure.Rollback? then GoesBack(steps, i, here, m)
            else m == Stop(here, Waiting)
  {
    var here := Arrived(s);
    CheckMoves(o, steps, s, i, intent);
    AdvanceTakesItsRoute(o, steps, i, here);
    RollbackGoesBack(steps, i, here);
    if Given(steps[i].fallback) { FallbackIsTaken(steps, i, here); }
  }

  // ---- Tools ----

  /** Mapped fields get the tool's values, empty where it gave none, the whole result is kept
      under the step's name, and everything else stays. */
  ghost predicate StoresResult(step: Step, before: Data, output: map<string, string>, after: Data) {
    var whole := "_tool_result_" + step.name;
    && whole in after && after[whole] == Record(output)
    && (forall k :: k in step.outputMapping && k != whole ==>
          && k in after
          && (step.outputMapping[k] in output ==> after[k] == Plain(output[step.outputMapping[k]]))
          && (step.outputMapping[k] !in output ==> after[k] == Plain("")))
    && (forall k :: k !in step.outputMapping && k != whole ==>
          (k in after <==> k in before) && (k in before && k in after ==> after[k] == before[k]))
  }

  lemma ResultIsStored(step: Step, before: Data, output: map<string, string>)
    ensures StoresResult(step, before, output, WithToolResult(step, before, output))
  {
  }

  /** What follows a failed call. */
  ghost predicate GivesUp(o: Oracle, steps: seq<Step>, i: nat, here: State, m: Move)
    requires i < |steps|
  {
    if Given(steps[i].fallback) then TakesItsFallback(steps, i, here, m)
    else if steps[i].onFailure.Skip? then TakesItsRoute(o, steps, i, here, m)
    else if steps[i].onFailure.Escalate? then
      m == Stop(State(None, map[], here.log + [Queued(EscalatedNotice)]), Escalated)
    else if steps[i].onFailure.Rollback? then GoesBack(steps, i, here, m)
    else m == Stop(here, Failed(ToolFault))
  }

  lemma GivingUpMoves(o: Oracle, steps: seq<Step>, i: nat, here: State)
    requires here.flow.Some? && i < |steps|
    ensures ToolGivenUp(o, steps, i, here) ==
              if Given(steps[i].fallback) then FellBack(steps, i, here, false)
              else if steps[i].onFailure.Skip? then Advanced(o, steps, i, here)
              else if steps[i].onFailure.Escalate? then
                Stop(State(None, map[], here.log + [Queued(EscalatedNotice)]), Escalated)
              else if steps[i].onFailure.Rollback? then RolledBack(steps, here, i)
              else Stop(here, Failed(ToolFault))
  {
  }

  lemma FailureGivesUp(o: Oracle, steps: seq<Step>, i: nat, here: State)
    requires here.flow.Some? && i < |steps| && !steps[i].kind.Decision?
    ensures GivesUp(o, steps, i, here, ToolGivenUp(o, steps, i, here))
  {
    GivingUpMoves(o, steps, i, here);
    if Given(steps[i].fallback) {
      FallbackIsTaken(steps, i, here);
    } else if steps[i].onFailure.Skip? {
      AdvanceTakesItsRoute(o, steps, i, here);
    } else if steps[i].onFailure.Rollback? {
      RollbackGoesBack(steps, i, here);
    }
  }

  /** A tool is called once; its result is stored before the route is chosen, and without a
      result nothing is stored. */
  ghost predicate CallsTool(o: Oracle, steps: seq<Step>, i: nat, here: State, m: Move)
    requires i < |steps|
  {
    var called := here.(log := here.log + [ToolCalled(i)]);
    if !Given(steps[i].toolId) then TakesItsRoute(o, steps, i, here, m)
    else match o(|here.log|).tool
      case ToolMissing => GivesUp(o, steps, i, here, m)
      case ToolFailed => GivesUp(o, steps, i, called, m)
      case ToolReplied(output) =>
        StoresResult(steps[i], here.data, output, m.s.data)
        && TakesItsRoute(o, steps, i, called.(data := m.s.data), m)
  }

  lemma RunCallsTool(o: Oracle, steps: seq<Step>, i: nat, here: State)
    requires here.flow.Some? && i < |steps| && !steps[i].kind.Decision?
    ensures CallsTool(o, steps, i, here, ToolRun(o, steps, i, here))
  {
    AdvanceTakesItsRoute(o, steps, i, here);
    if Given(steps[i].toolId) {
      match o(|here.log|).tool {
        case ToolMissing => FailureGivesUp(o, steps, i, here);
        case ToolFailed => FailureGivesUp(o, steps, i, Log(here, ToolCalled(i)));
        case ToolReplied(output) =>
          var stored := Log(here, ToolCalled(i)).(data := WithToolResult(steps[i], here.data, output));
          ResultIsStored(steps[i], here.data, output);
          AdvanceTakesItsRoute(o, steps, i, stored);
          AdvanceKeepsData(o, steps, i, stored);
      }
    }
  }

  lemma GateHears(o: Oracle, steps: seq<Step>, s: State, i: nat, intent: Option<bool>)
    requires Stands(steps, s, i) && steps[i].kind.ToolCall?
    ensures var here, m := Arrived(s), Visit(o, steps, s, intent);
            var open := s.flow.value.pending == Some(steps[i].id);
            && (!Gated(steps[i]) ==> m == ToolRun(o, steps, i, here))
            && (Gated(steps[i]) && open && intent == Some(true) ==> m == ToolRun(o, steps, i, Unasked(here)))
            && (Gated(steps[i]) && open && intent == Some(false) ==> m == RolledBack(steps, Unasked(here), i))
            && (Gated(steps[i]) && !(open && intent.Some?) ==>
                  m == Stop(State(Some(here.flow.value.(pending := Some(steps[i].id))), here.data,
                                  here.log + [GateShown(i)]), Waiting))
  {
  }

  /** A tool without a gate is called at once; with one it is called on an affirmative while
      its own gate is pending, a refusal then goes back, and anything else shows the gate. */
  lemma ToolVisit(o: Oracle, steps: seq<Step>, s: State, i: nat, text: string)
    requires Stands(steps, s, i) && steps[i].kind.ToolCall?
    ensures var here, m := Arrived(s), Visit(o, steps, s, ConfirmationIntent(text));
            var open := s.flow.value.pending == Some(steps[i].id);
            && (!Gated(steps[i]) ==> CallsTool(o, steps, i, here, m))
            && (Gated(steps[i]) && open && Affirms(text) ==> CallsTool(o, steps, i, Unasked(here), m))
            && (Gated(steps[i]) && open && Refuses(text) ==> GoesBack(steps, i, Unasked(here), m))
            && (Gated(steps[i]) && !(open && (Affirms(text) || Refuses(text))) ==>
                  m == Stop(State(Some(here.flow.value.(pending := Some(steps[i].id))), here.data,
                                  here.log + [GateShown(i)]), Waiting))
  {
    var here, intent := Arrived(s), ConfirmationIntent(text);
    IntentTells(text, intent);
    GateHears(o, steps, s, i, intent);
    RunCallsTool(o, steps, i, here);
    RunCallsTool(o, steps, i, Unasked(here));
    RollbackGoesBack(steps, i, Unasked(here));
  }

  // ---- Decisions ----

  /** What a decision is accepted on: every input present, a complete answer over the
      configured choices, and a choice other than "other" that no choice beats and that
      reaches both thresholds. */
  ghost predicate Earned(config: DecisionConfig, data: Data, a: DecisionAnswer) {
    && a.Answered? && (forall f :: f in config.inputFields ==> f in data && data[f] != Plain(""))
    && var answer := a.answer;
    && answer.kind == "choice" && 0 < |answer.model| <= 128
    && answer.choice in config.choices && answer.choice != "other"
    && (forall c :: c in answer.probabilities <==> c in config.choices)
    && (forall c :: c in answer.probabilities ==> 0.0 <= answer.probabilities[c] <= 1.0)
    && -0.001 <= Decisions.Total(config.choices, answer.probabilities) - 1.0 <= 0.001
    && (forall c :: c in answer.probabilities ==> answer.probabilities[c] <= answer.probabilities[answer.choice])
    && config.minConfidence <= answer.confidence && 0.0 <= answer.confidence <= 1.0
    && config.minProbability <= answer.probabilities[answer.choice]
  }

  lemma AcceptedIfEarned(config: DecisionConfig, data: Data, a: DecisionAnswer)
    ensures AcceptedChoice(config, data, a) == if Earned(config, data, a) then Some(a.answer.choice) else None
  {
    if a.Answered? {
      var p := a.answer.probabilities;
      assert p.Keys == (set c | c in config.choices) <==> forall c :: c in p <==> c in config.choices;
    }
  }

  /** A decision that is earned is stored under its key and routed by it; any other leaves no
      choice behind and takes the failure route. */
  lemma DecisionVisit(o: Oracle, steps: seq<Step>, s: State, i: nat, intent: Option<bool>)
    requires Stands(steps, s, i) && steps[i].kind.Decision? && ConfigValid(steps[i].decision) && Given(steps[i].fallback)
    ensures var here, m, key := Arrived(s), Visit(o, steps, s, intent), steps[i].decision.resultKey;
            var a := o(|here.log|).decision;
            if Earned(steps[i].decision, s.data - {key}, a) then
              TakesItsRoute(o, steps, i, State(here.flow, s.data[key := Plain(a.answer.choice)], here.log + [Judged(i, true)]), m)
            else
              TakesItsFallback(steps, i, State(here.flow, s.data - {key}, here.log + [Judged(i, false)]), m)
  {
    var here, key := Arrived(s), steps[i].decision.resultKey;
    var a := o(|here.log|).decision;
    AcceptedIfEarned(steps[i].decision, s.data - {key}, a);
    if Earned(steps[i].decision, s.data - {key}, a) {
      var stored := State(here.flow, s.data[key := Plain(a.answer.choice)], here.log + [Judged(i, true)]);
      assert (s.data - {key})[key := Plain(a.answer.choice)] == stored.data;
      AdvanceTakesItsRoute(o, steps, i, stored);
    }
  }

  // ---- Reviews and endings ----

  lemma ReviewVisit(o: Oracle, steps: seq<Step>, s: State, i: nat, intent: Option<bool>)
    requires Stands(steps, s, i) && steps[i].kind.HumanReview?
    ensures var here := Arrived(s);
            Visit(o, steps, s, intent) ==
              Stop(State(Some(here.flow.value.(status := PausedForReview)), s.data, here.log + [Queued(EscalatedNotice)]), Escalated)
  {
  }

  function Posts(i: nat, n: nat): seq<Event> {
    seq(n, _ => WebhookCalled(i))
  }

  /** Delivery stops at the first success, here after n posts, and fails exactly when every attempt did. */
  predicate StopsAfter(o: Oracle, i: nat, log: seq<Event>, attempts: nat, n: nat, out: (seq<Event>, bool)) {
    && n <= attempts && out.0 == log + Posts(i, n)
    && (forall k :: |log| <= k < |log| + n - 1 ==> !o(k).delivered)
    && (out.1 ==> n > 0 && o(|log| + n - 1).delivered)
    && (!out.1 ==> n == attempts && (n > 0 ==> !o(|log| + n - 1).delivered))
  }

  lemma OneMorePost(o: Oracle, i: nat, log: seq<Event>, attempts: nat, n: nat, out: (seq<Event>, bool))
    requires attempts > 0 && !o(|log|).delivered && StopsAfter(o, i, log + [WebhookCalled(i)], attempts - 1, n, out)
    ensures StopsAfter(o, i, log, attempts, n + 1, out)
  {
    assert log + [WebhookCalled(i)] + Posts(i, n) == log + Posts(i, n + 1);
  }

  lemma {:induction false} DeliveryStopsAtSuccess(o: Oracle, i: nat, log: seq<Event>, attempts: nat) returns (n: nat)
    ensures StopsAfter(o, i, log, attempts, n, Delivered(o, i, log, attempts))
    decreases attempts
  {
    if attempts == 0 {
      n := 0;
    } else if o(|log|).delivered {
      n := 1;
    } else {
      var later := DeliveryStopsAtSuccess(o, i, log + [WebhookCalled(i)], attempts - 1);
      OneMorePost(o, i, log, attempts, later, Delivered(o, i, log, attempts));
      n := later + 1;
    }
  }

  /** A final step without a webhook ends the workflow; with one it ends it exactly when one
      of at most four deliveries succeeds, and is kept for a retry otherwise. */
  lemma EndVisit(o: Oracle, steps: seq<Step>, s: State, i: nat, intent: Option<bool>)
    requires Stands(steps, s, i) && steps[i].kind.Complete?
    ensures var here, m := Arrived(s), Visit(o, steps, s, intent);
            var done := Some(here.flow.value.(status := Completed));
            && (!(steps[i].webhookUrl && steps[i].webhookEnabled) ==>
                  m == Stop(State(done, s.data, here.log + [Queued(CompletedNotice)]), Finished))
            && (steps[i].webhookUrl && steps[i].webhookEnabled ==>
                  exists n, log, ok :: StopsAfter(o, i, here.log, 4, n, (log, ok))
                    && m == if ok
                      then Stop(State(done, s.data["_webhook_result" := WEBHOOK_OK], log + [Queued(CompletedNotice)]), Finished)
                      else Stop(State(Some(here.flow.value.(status := AwaitRetry)), s.data["_webhook_result" := WEBHOOK_FAILED],
                                      log + [Queued(SubmitFailedNotice)]), RetryLater))
  {
    var n := DeliveryStopsAtSuccess(o, i, Arrived(s).log, WEBHOOK_ATTEMPTS);
    var (log, ok) := Delivered(o, i, Arrived(s).log, WEBHOOK_ATTEMPTS);
    assert StopsAfter(o, i, Arrived(s).log, 4, n, (log, ok));
  }
}
