/** When an accepted workflow fails for its configuration, and when it meets a step it cannot
    execute: exactly which definitions can, for some session and some answers. */
module ConfigurationFaults {
  import opened Options
  import opened Text
  import opened Workflows
  import opened WorkflowValidation
  import opened WorkflowSemantics
  import opened WorkflowSoundness
  import opened DecisionSafety

  // ---- Known targets ----

  lemma StepIsReferable(payloads: seq<Step>, s: Step, t: string)
    requires s in payloads && (s.name == t || IntText(s.order) == t || s.id == t)
    ensures Reference(Ordered(payloads), t).Some?
  {
    var steps := Ordered(payloads);
    OrderedIsSortedPermutation(payloads);
    assert s in multiset(steps);
    var k :| 0 <= k < |steps| && steps[k] == s;
    assert Ids(steps)[k] == s.id && Names(steps)[k] == s.name && OrderTexts(steps)[k] == IntText(s.order);
  }

  lemma SourceOfReference(payloads: seq<Step>, t: string) returns (s: Step)
    requires t in TargetRefs(payloads)
    ensures s in payloads && (Strip(s.name) == t || IntText(s.order) == t || s.id == t)
  {
    if t in OrderRefs(payloads) {
      s :| s in payloads && IntText(s.order) == t;
    } else if t in IdRefs(payloads) {
      s :| s in payloads && s.id == t;
    } else {
      s :| s in payloads && Strip(s.name) == t;
    }
  }

  /** A known target reference is a raw name, an id or an order, or the trimmed form of a name. */
  lemma KnownUnlessTrimmed(payloads: seq<Step>, t: string) returns (s: Step)
    requires t in TargetRefs(payloads)
    ensures s in payloads
    ensures Reference(Ordered(payloads), t).Some? || (Strip(s.name) == t && s.name != t)
  {
    s := SourceOfReference(payloads, t);
    if s.name == t || IntText(s.order) == t || s.id == t {
      StepIsReferable(payloads, s, t);
    }
  }

  /** With trimmed names every route of every step has a target, so the cycle check
      finds all its references. */
  lemma TrimmedNamesMakeRoutesKnown(payloads: seq<Step>, i: nat)
    requires StepsOk(payloads) && NamesTrimmed(payloads) && i < |Ordered(payloads)|
    ensures RoutesKnown(Ordered(payloads), i)
  {
    var j := PositionInDefinition(payloads, i);
    var s, refs := payloads[j], TargetRefs(payloads);
    assert StepOk(payloads, j);
    forall r | r in s.rules ensures Known(Ordered(payloads), r.goto) {
      var k :| 0 <= k < |s.rules| && s.rules[k] == r;
      assert RuleOk(s.rules, k, refs);
      var _ := KnownUnlessTrimmed(payloads, r.goto.value);
    }
    if Given(s.fallback) {
      var _ := KnownUnlessTrimmed(payloads, s.fallback.value);
    }
  }

  // ---- Which routes can be taken ----

  predicate ConfigurationFault(r: Result) {
    r.Failed? && (r.fault.BadBranch? || r.fault.MissingFallback? || r.fault.UnsafeFallback? || r.fault.BadDecisionConfig?)
  }

  predicate Resolves(steps: seq<Step>, target: Option<string>) {
    target.Some? && Resolve(steps, target.value).Some?
  }

  /** No earlier rule has the same condition, so that rule k can be the first to match. */
  predicate IsLive(rules: seq<Rule>, k: nat) {
    k < |rules| && forall j :: 0 <= j < k ==> rules[j].condition != rules[k].condition
  }

  predicate LiveRulesResolve(steps: seq<Step>, rules: seq<Rule>) {
    forall k: nat :: k < |rules| && IsLive(rules, k) ==> Resolves(steps, rules[k].goto)
  }

  /** A step the session waits at: a form, a confirmation, a gated tool or a review. */
  predicate IsWaitingStep(s: Step) {
    (s.kind.Collect? && s.fields != []) || s.kind.Confirm? || Gated(s) || s.kind.HumanReview?
  }

  /** A route the cycle check did not look at leads nowhere: a live rule of a waiting step, or
      the failure route of a gated tool. */
  predicate HasLostRoute(steps: seq<Step>, s: Step) {
    || (IsWaitingStep(s) && !LiveRulesResolve(steps, s.rules))
    || (Gated(s) && Given(s.fallback) && !Resolves(steps, s.fallback))
  }

  /** What executing step i relies on. */
  predicate RoutesResolve(steps: seq<Step>, s: Step) {
    && (IsAutomatic(s) || IsWaitingStep(s) ==> LiveRulesResolve(steps, s.rules))
    && (s.kind.Validate? || s.kind.ToolCall? || s.kind.Decision? ==> Given(s.fallback) ==> Resolves(steps, s.fallback))
  }

  predicate SoundConfiguration(steps: seq<Step>, i: nat)
    requires i < |steps|
  {
    && RoutesResolve(steps, steps[i])
    && (steps[i].kind.Decision? ==>
          && ConfigValid(steps[i].decision) && Given(steps[i].fallback) && Resolves(steps, steps[i].fallback)
          && Safe(steps[Resolve(steps, steps[i].fallback.value).value]))
  }

  lemma KnownResolves(steps: seq<Step>, target: Option<string>)
    requires Known(steps, target)
    ensures Resolves(steps, target)
  {
    ResolversAgree(steps, target.value);
  }

  lemma KnownRoutesResolve(steps: seq<Step>, i: nat)
    requires i < |steps| && RoutesKnown(steps, i)
    ensures RoutesResolve(steps, steps[i])
  {
    var rules := steps[i].rules;
    forall k: nat | IsLive(rules, k) ensures Resolves(steps, rules[k].goto) {
      assert rules[k] in rules;
      KnownResolves(steps, rules[k].goto);
    }
    if Given(steps[i].fallback) { KnownResolves(steps, steps[i].fallback); }
  }

  /** In an accepted definition only lost routes stand in the way. */
  lemma SoundUnlessLost(payloads: seq<Step>, i: nat)
    requires Accepted(payloads) && UniqueIds(payloads)
    requires i < |Ordered(payloads)| && !HasLostRoute(Ordered(payloads), Ordered(payloads)[i])
    ensures SoundConfiguration(Ordered(payloads), i)
  {
    var steps := Ordered(payloads);
    if IsAutomatic(steps[i]) {
      assert i in Automatic(steps);
      KnownRoutesResolve(steps, i);
    }
    if steps[i].kind.Decision? { DecisionFallbackIsSafe(payloads, i); }
  }

  // ---- No lost route, no fault ----

  /** The first rule to match is a live one. */
  lemma {:induction false} FirstMatchIsLive(rules: seq<Rule>, data: Data, holds: (Condition, Data) -> bool) returns (k: nat)
    ensures FirstMatch(rules, data, holds).Some? ==> IsLive(rules, k) && rules[k].goto == FirstMatch(rules, data, holds)
    ensures k < |rules| ==> rules[k].condition.None? || holds(rules[k].condition.value, data)
    ensures forall j :: 0 <= j < k && j < |rules| ==>
              rules[j].condition.Some? && !holds(rules[j].condition.value, data)
  {
    k := 0;
    if rules != [] && rules[0].condition.Some? && !holds(rules[0].condition.value, data) {
      var rest := FirstMatchIsLive(rules[1..], data, holds);
      k := rest + 1;
      assert forall j :: 0 <= j < |rules| - 1 ==> rules[1..][j] == rules[j + 1];
    }
  }

  lemma AdvanceIsConfigured(o: Oracle, steps: seq<Step>, i: nat, s: State)
    requires s.flow.Some? && i < |steps| && LiveRulesResolve(steps, steps[i].rules)
    ensures var m := Advanced(o, steps, i, s); m.Stop? ==> !ConfigurationFault(m.r)
  {
    var k := FirstMatchIsLive(steps[i].rules, s.data, o(|s.log|).holds);
    if FirstMatch(steps[i].rules, s.data, o(|s.log|).holds).Some? {
      assert Resolves(steps, steps[i].rules[k].goto);
    }
  }

  lemma FallbackIsConfigured(steps: seq<Step>, i: nat, s: State)
    requires s.flow.Some? && i < |steps| && Resolves(steps, steps[i].fallback)
    ensures var m := FellBack(steps, i, s, false); m.Stop? ==> !ConfigurationFault(m.r)
  {
  }

  lemma GivingUpIsConfigured(o: Oracle, steps: seq<Step>, i: nat, s: State)
    requires s.flow.Some? && i < |steps| && LiveRulesResolve(steps, steps[i].rules)
    requires Given(steps[i].fallback) ==> Resolves(steps, steps[i].fallback)
    ensures var m := ToolGivenUp(o, steps, i, s); m.Stop? ==> !ConfigurationFault(m.r)
  {
    if Given(steps[i].fallback) { FallbackIsConfigured(steps, i, s); } else { AdvanceIsConfigured(o, steps, i, s); }
  }

  lemma ToolIsConfigured(o: Oracle, steps: seq<Step>, i: nat, s: State)
    requires s.flow.Some? && i < |steps| && LiveRulesResolve(steps, steps[i].rules)
    requires Given(steps[i].fallback) ==> Resolves(steps, steps[i].fallback)
    ensures var m := ToolRun(o, steps, i, s); m.Stop? ==> !ConfigurationFault(m.r)
  {
    if !Given(steps[i].toolId) {
      AdvanceIsConfigured(o, steps, i, s);
    } else {
      match o(|s.log|).tool {
        case ToolMissing => GivingUpIsConfigured(o, steps, i, s);
        case ToolFailed => GivingUpIsConfigured(o, steps, i, Log(s, ToolCalled(i)));
        case ToolReplied(output) =>
          AdvanceIsConfigured(o, steps, i, Log(s, ToolCalled(i)).(data := WithToolResult(steps[i], s.data, output)));
      }
    }
  }

  lemma VisitIsConfigured(o: Oracle, steps: seq<Step>, s: State, intent: Option<bool>)
    requires s.flow.Some? && s.flow.value.index < |steps| ==> SoundConfiguration(steps, s.flow.value.index)
    ensures var m := Visit(o, steps, s, intent); m.Stop? ==> !ConfigurationFault(m.r)
  {
    if s.flow.Some? && s.flow.value.index < |steps| {
      var i, here := s.flow.value.index, Arrived(s);
      match steps[i].kind {
        case Collect =>
          AdvanceIsConfigured(o, steps, i, here);
          if steps[i].fields != [] && o(|here.log|).collect.Submitted? {
            AdvanceIsConfigured(o, steps, i,
              here.(data := Filled(steps[i].fields, here.data, o(|here.log|).collect)));
          }
        case Validate =>
          AdvanceIsConfigured(o, steps, i, here);
          if Given(steps[i].fallback) { FallbackIsConfigured(steps, i, here); }
        case ToolCall =>
          ToolIsConfigured(o, steps, i, here);
          ToolIsConfigured(o, steps, i, here.(flow := Some(here.flow.value.(pending := None))));
        case Decision =>
          var key := steps[i].decision.resultKey;
          var data := here.data - {key};
          var choice := AcceptedChoice(steps[i].decision, data, o(|here.log|).decision);
          if choice.Some? {
            AdvanceIsConfigured(o, steps, i, Log(here, Judged(i, true)).(data := data[key := Plain(choice.value)]));
          }
        case Confirm => AdvanceIsConfigured(o, steps, i, here);
        case _ =>
      }
    }
  }

  lemma {:induction false} ChainIsConfigured(visit: Visitor, s: State, intent: Option<bool>, depth: nat)
    requires forall s, intent :: visit(s, intent).Stop? ==> !ConfigurationFault(visit(s, intent).r)
    ensures !ConfigurationFault(Chain(visit, s, intent, depth).1)
    decreases if depth > MAX_DEPTH then 0 else MAX_DEPTH + 1 - depth
  {
    if depth <= MAX_DEPTH && visit(s, intent).Auto? {
      ChainIsConfigured(visit, visit(s, intent).s, None, depth + 1);
    }
  }

  predicate NoLostRoute(steps: seq<Step>) {
    forall s :: s in steps ==> !HasLostRoute(steps, s)
  }

  lemma RunIsConfigured(o: Oracle, payloads: seq<Step>, s: State, intent: Option<bool>, depth: nat)
    requires Accepted(payloads) && UniqueIds(payloads) && NoLostRoute(Ordered(payloads))
    ensures !ConfigurationFault(Run(o, Ordered(payloads), s, intent, depth).1)
  {
    var steps := Ordered(payloads);
    forall i: nat | i < |steps| ensures SoundConfiguration(steps, i) { SoundUnlessLost(payloads, i); }
    forall s, intent ensures var m := Visits(o, steps)(s, intent); m.Stop? ==> !ConfigurationFault(m.r) {
      VisitIsConfigured(o, steps, s, intent);
    }
    ChainIsConfigured(Visits(o, steps), s, intent, depth);
  }

  /** Nor does the turn that leaves a review step. */
  lemma ResumptionIsConfigured(o: Oracle, payloads: seq<Step>, s: State)
    requires Accepted(payloads) && UniqueIds(payloads) && NoLostRoute(Ordered(payloads))
    requires AtReview(Ordered(payloads), s)
    ensures !ConfigurationFault(Resumed(o, Ordered(payloads), s).1)
  {
    var steps, i := Ordered(payloads), s.flow.value.index;
    SoundUnlessLost(payloads, i);
    AdvanceIsConfigured(o, steps, i, s);
    var m := Advanced(o, steps, i, s);
    if m.Auto? { RunIsConfigured(o, payloads, m.s, None, 1); }
  }

  // ---- A lost route, a fault ----

  predicate AtReview(steps: seq<Step>, s: State) {
    s.flow.Some? && s.flow.value.index < |steps| && steps[s.flow.value.index].kind.HumanReview?
  }

  /** Some session and some answers end a turn in a configuration fault. */
  ghost predicate CanMisroute(steps: seq<Step>) {
    || (exists o, s, intent :: ConfigurationFault(Run(o, steps, s, intent, 0).1))
    || (exists o, s :: AtReview(steps, s) && ConfigurationFault(Resumed(o, steps, s).1))
  }

  /** Forms are filled in, tools answer as told, and exactly one condition holds. */
  function Telling(condition: Option<Condition>, tool: ToolAnswer): Oracle {
    (n: nat) => Answer(Submitted(map[], {}, true), true, tool, NoAnswer, true,
                       (c: Condition, d: Data) => condition == Some(c))
  }

  function StandingAt(i: nat, pending: Option<string>): State {
    State(Some(Flow(i, InProgress, [], pending)), map[], [])
  }

  /** The rule of the one condition that holds is taken, if it is live and defaults stand last. */
  lemma {:induction false} LiveRuleIsTaken(rules: seq<Rule>, k: nat, data: Data, holds: (Condition, Data) -> bool)
    requires IsLive(rules, k) && forall j :: 0 <= j < k ==> rules[j].condition.Some?
    requires forall c :: holds(c, data) <==> rules[k].condition == Some(c)
    ensures FirstMatch(rules, data, holds) == rules[k].goto
  {
    if k > 0 {
      assert forall j :: 0 <= j < |rules| - 1 ==> rules[1..][j] == rules[j + 1];
      assert rules[0].condition != rules[k].condition;
      LiveRuleIsTaken(rules[1..], k - 1, data, holds);
    }
  }

  lemma LostRuleMisroutes(steps: seq<Step>, i: nat, k: nat, s: State, tool: ToolAnswer)
    requires s.flow.Some? && i < |steps|
    requires var rules := steps[i].rules;
             && IsLive(rules, k) && (forall j :: 0 <= j < k ==> rules[j].condition.Some?)
             && rules[k].goto.Some? && !Resolves(steps, rules[k].goto)
    ensures Advanced(Telling(steps[i].rules[k].condition, tool), steps, i, s) == Stop(s, Failed(BadBranch))
  {
    var condition := steps[i].rules[k].condition;
    LiveRuleIsTaken(steps[i].rules, k, s.data, Telling(condition, tool)(|s.log|).holds);
  }

  lemma FirstVisitStops(o: Oracle, steps: seq<Step>, s: State, intent: Option<bool>, fault: Fault)
    requires var m := Visit(o, steps, s, intent); m.Stop? && m.r == Failed(fault)
    ensures Run(o, steps, s, intent, 0).1 == Failed(fault)
  {
  }

  lemma FormMisroutes(steps: seq<Step>, i: nat, k: nat)
    requires i < |steps| && steps[i].kind.Collect? && steps[i].fields != [] && TakesLostRule(steps, i, k)
    ensures CanMisroute(steps)
  {
    var o, s := Telling(steps[i].rules[k].condition, ToolMissing), StandingAt(i, None);
    var here := Arrived(s);
    LostRuleMisroutes(steps, i, k, here.(data := Filled(steps[i].fields, here.data, o(|here.log|).collect)), ToolMissing);
    FirstVisitStops(o, steps, s, None, BadBranch);
  }

  lemma ConfirmationMisroutes(steps: seq<Step>, i: nat, k: nat)
    requires i < |steps| && steps[i].kind.Confirm? && TakesLostRule(steps, i, k)
    ensures CanMisroute(steps)
  {
    var o, s := Telling(steps[i].rules[k].condition, ToolMissing), StandingAt(i, None);
    LostRuleMisroutes(steps, i, k, Arrived(s), ToolMissing);
    FirstVisitStops(o, steps, s, Some(true), BadBranch);
  }

  lemma GatedToolMisroutes(steps: seq<Step>, i: nat, k: nat)
    requires i < |steps| && Gated(steps[i]) && Given(steps[i].toolId) && TakesLostRule(steps, i, k)
    ensures CanMisroute(steps)
  {
    var tool := ToolReplied(map[]);
    var o, s := Telling(steps[i].rules[k].condition, tool), StandingAt(i, Some(steps[i].id));
    var here := Arrived(s);
    var closed := here.(flow := Some(here.flow.value.(pending := None)));
    LostRuleMisroutes(steps, i, k, Log(closed, ToolCalled(i)).(data := WithToolResult(steps[i], closed.data, map[])), tool);
    FirstVisitStops(o, steps, s, Some(true), BadBranch);
  }

  lemma GatedFallbackMisroutes(steps: seq<Step>, i: nat)
    requires i < |steps| && Gated(steps[i]) && Given(steps[i].toolId)
    requires Given(steps[i].fallback) && !Resolves(steps, steps[i].fallback)
    ensures CanMisroute(steps)
  {
    var o, s := Telling(None, ToolFailed), StandingAt(i, Some(steps[i].id));
    FirstVisitStops(o, steps, s, Some(true), MissingFallback);
  }

  lemma ReviewMisroutes(steps: seq<Step>, i: nat, k: nat)
    requires i < |steps| && steps[i].kind.HumanReview? && TakesLostRule(steps, i, k)
    ensures CanMisroute(steps)
  {
    var o, s := Telling(steps[i].rules[k].condition, ToolMissing), StandingAt(i, None);
    LostRuleMisroutes(steps, i, k, s, ToolMissing);
    assert AtReview(steps, s) && Resumed(o, steps, s).1 == Failed(BadBranch);
  }

  predicate TakesLostRule(steps: seq<Step>, i: nat, k: nat)
    requires i < |steps|
  {
    var rules := steps[i].rules;
    && IsLive(rules, k) && (forall j :: 0 <= j < k ==> rules[j].condition.Some?)
    && rules[k].goto.Some? && !Resolves(steps, rules[k].goto)
  }

  lemma LostRuleIsTaken(payloads: seq<Step>, i: nat) returns (k: nat)
    requires StepsOk(payloads) && i < |Ordered(payloads)|
    requires !LiveRulesResolve(Ordered(payloads), Ordered(payloads)[i].rules)
    ensures TakesLostRule(Ordered(payloads), i, k)
  {
    var steps := Ordered(payloads);
    var p := PositionInDefinition(payloads, i);
    assert StepOk(payloads, p);
    var rules, refs := payloads[p].rules, TargetRefs(payloads);
    assert rules == steps[i].rules;
    k :| k < |rules| && IsLive(rules, k) && !Resolves(steps, rules[k].goto);
    assert RuleOk(rules, k, refs);
    forall j | 0 <= j < k ensures rules[j].condition.Some? { assert RuleOk(rules, j, refs); }
  }

  lemma LostRouteMisroutes(payloads: seq<Step>, i: nat)
    requires StepsOk(payloads) && i < |Ordered(payloads)| && HasLostRoute(Ordered(payloads), Ordered(payloads)[i])
    ensures CanMisroute(Ordered(payloads))
  {
    var steps := Ordered(payloads);
    var p := PositionInDefinition(payloads, i);
    assert StepOk(payloads, p);
    if Gated(steps[i]) && Given(steps[i].fallback) && !Resolves(steps, steps[i].fallback) {
      GatedFallbackMisroutes(steps, i);
    } else {
      var k := LostRuleIsTaken(payloads, i);
      match steps[i].kind {
        case Collect => FormMisroutes(steps, i, k);
        case Confirm => ConfirmationMisroutes(steps, i, k);
        case ToolCall => GatedToolMisroutes(steps, i, k);
        case HumanReview => ReviewMisroutes(steps, i, k);
      }
    }
  }

  // ---- Exactly when ----

  /** An accepted workflow can fail for its configuration exactly when some form, confirmation,
      gated tool or review has a live rule whose target is not found, or some gated tool a
      failure route that is not. */
  lemma MisroutesExactly(payloads: seq<Step>)
    requires Accepted(payloads) && UniqueIds(payloads)
    ensures CanMisroute(Ordered(payloads)) <==> !NoLostRoute(Ordered(payloads))
  {
    var steps := Ordered(payloads);
    if NoLostRoute(steps) {
      forall o, s, intent ensures !ConfigurationFault(Run(o, steps, s, intent, 0).1) {
        RunIsConfigured(o, payloads, s, intent, 0);
      }
      forall o, s | AtReview(steps, s) ensures !ConfigurationFault(Resumed(o, steps, s).1) {
        ResumptionIsConfigured(o, payloads, s);
      }
    } else {
      var s :| s in steps && HasLostRoute(steps, s);
      var i :| 0 <= i < |steps| && steps[i] == s;
      LostRouteMisroutes(payloads, i);
    }
  }

  /** In particular no accepted workflow with trimmed names can. */
  lemma AcceptedNeverMisroutes(payloads: seq<Step>)
    requires Accepted(payloads) && UniqueIds(payloads) && NamesTrimmed(payloads)
    ensures !CanMisroute(Ordered(payloads))
  {
    var steps := Ordered(payloads);
    forall s | s in steps ensures !HasLostRoute(steps, s) {
      var i :| 0 <= i < |steps| && steps[i] == s;
      TrimmedNamesMakeRoutesKnown(payloads, i);
      KnownRoutesResolve(steps, i);
    }
    MisroutesExactly(payloads);
  }

  // ---- Steps the executor does not know ----

  lemma KnownTypesAreRun(o: Oracle, steps: seq<Step>, s: State, intent: Option<bool>)
    requires forall i :: 0 <= i < |steps| ==> !steps[i].kind.Unset? && !steps[i].kind.OtherType?
    ensures var m := Visit(o, steps, s, intent); m.Stop? ==> m.r != Failed(UnknownStepType)
  {
  }

  lemma {:induction false} ChainKnowsTypes(visit: Visitor, s: State, intent: Option<bool>, depth: nat)
    requires forall s, intent :: visit(s, intent).Stop? ==> visit(s, intent).r != Failed(UnknownStepType)
    ensures Chain(visit, s, intent, depth).1 != Failed(UnknownStepType)
    decreases if depth > MAX_DEPTH then 0 else MAX_DEPTH + 1 - depth
  {
    if depth <= MAX_DEPTH && visit(s, intent).Auto? {
      ChainKnowsTypes(visit, visit(s, intent).s, None, depth + 1);
    }
  }

  lemma UnsetTypeFails(o: Oracle, steps: seq<Step>, s: State, intent: Option<bool>)
    requires s.flow.Some? && s.flow.value.index < |steps| && steps[s.flow.value.index].kind.Unset?
    ensures Run(o, steps, s, intent, 0) == (Arrived(s), Failed(UnknownStepType))
  {
    assert Visit(o, steps, s, intent) == Stop(Arrived(s), Failed(UnknownStepType));
  }

  ghost predicate CanMeetUnknownType(steps: seq<Step>) {
    exists o, s, intent :: Run(o, steps, s, intent, 0).1 == Failed(UnknownStepType)
  }

  /** An accepted workflow can meet a step it cannot execute exactly when some step's type is empty. */
  lemma UnknownTypeExactly(payloads: seq<Step>)
    requires Accepted(payloads)
    ensures CanMeetUnknownType(Ordered(payloads)) <==> exists s :: s in payloads && s.kind.Unset?
  {
    var steps := Ordered(payloads);
    OrderedIsSortedPermutation(payloads);
    if s :| s in payloads && s.kind.Unset? {
      assert s in multiset(steps);
      var i :| 0 <= i < |steps| && steps[i] == s;
      UnsetTypeFails(Telling(None, ToolMissing), steps, StandingAt(i, None), None);
    } else {
      forall i | 0 <= i < |steps| ensures !steps[i].kind.Unset? && !steps[i].kind.OtherType? {
        var p := PositionInDefinition(payloads, i);
        assert StepOk(payloads, p) && payloads[p] in payloads;
      }
      forall o, s, intent ensures Run(o, steps, s, intent, 0).1 != Failed(UnknownStepType) {
        forall s, intent ensures var m := Visits(o, steps)(s, intent); m.Stop? ==> m.r != Failed(UnknownStepType) {
          KnownTypesAreRun(o, steps, s, intent);
        }
        ChainKnowsTypes(Visits(o, steps), s, intent, 0);
      }
    }
  }
}
