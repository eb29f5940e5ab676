/** Acceptance of a workflow definition: the checks on each step and the cycle check. */
module WorkflowValidation {
  import opened Options
  import opened Text
  import opened Workflows
  import opened AutomaticCycles

  datatype Problem =
    | NoSteps
    | MissingName(step: nat) | DuplicateName(step: nat)
    | BadOrder(step: nat) | DuplicateOrder(step: nat)
    | BadType(step: nat) | BadFailureAction(step: nat)
    | MissingTool(step: nat)
    | UnknownFallback(step: nat) | TerminalWithRoutes(step: nat)
    | DecisionWithoutFallback(step: nat) | FallbackNotSupported(step: nat)
    | BadDecisionConfig(step: nat) | DecisionKeyTaken(step: nat)
    | UnknownDecisionInputs(step: nat) | UnsafeDecisionFallback(step: nat)
    | MissingGoto(step: nat, rule: nat) | UnknownGoto(step: nat, rule: nat)
    | DefaultNotLast(step: nat) | BadCondition(step: nat, rule: nat)
    | AutomaticCycle

  /** `LookupFailed` is the KeyError of a target that no reference table holds. */
  datatype Report = Checked(problems: seq<Problem>) | LookupFailed

  const OPERATORS := {"eq", "ne", "gt", "lt", "gte", "lte", "contains", "not_contains", "regex", "in", "not_in"}

  // ---- What acceptance means ----

  function TrimmedNames(payloads: seq<Step>): set<string> {
    set s | s in payloads && Strip(s.name) != "" :: Strip(s.name)
  }

  function OrderRefs(payloads: seq<Step>): set<string> {
    set s | s in payloads :: IntText(s.order)
  }

  function IdRefs(payloads: seq<Step>): set<string> {
    set s | s in payloads && s.id != "" :: s.id
  }

  /** The targets a route may name. */
  function TargetRefs(payloads: seq<Step>): set<string> {
    TrimmedNames(payloads) + OrderRefs(payloads) + IdRefs(payloads)
  }

  function AvailableInputs(payloads: seq<Step>): set<string> {
    (set s, f | s in payloads && f in s.fields :: f)
    + (set s, f | s in payloads && f in s.outputMapping :: f)
  }

  /** The step a decision's failure route names, looked up in the definition's own order. */
  function Lookup(payloads: seq<Step>, target: string): Option<Step> {
    var k := Reference(payloads, target);
    if k.Some? then Some(payloads[k.value]) else None
  }

  predicate RuleOk(rules: seq<Rule>, k: nat, refs: set<string>)
    requires k < |rules|
  {
    && Given(rules[k].goto) && rules[k].goto.value in refs
    && (rules[k].condition.None? ==> k == |rules| - 1)
    && (rules[k].condition.Some? ==>
          rules[k].condition.value.field != "" && rules[k].condition.value.op in OPERATORS)
  }

  predicate RulesOk(rules: seq<Rule>, refs: set<string>) {
    forall k :: 0 <= k < |rules| ==> RuleOk(rules, k, refs)
  }

  /** Name and order are usable and not taken by an earlier step. */
  predicate IdentityOk(payloads: seq<Step>, i: nat)
    requires i < |payloads|
  {
    && Strip(payloads[i].name) != ""
    && (forall j :: 0 <= j < i ==> Strip(payloads[j].name) != Strip(payloads[i].name))
    && payloads[i].order >= 0
    && (forall j :: 0 <= j < i ==> payloads[j].order != payloads[i].order)
  }

  /** Type, failure action, tool and routes fit together. */
  predicate RoutingOk(s: Step, refs: set<string>) {
    && !s.kind.OtherType? && !s.onFailure.OtherAction?
    && (s.kind.ToolCall? ==> Given(s.toolId))
    && (Given(s.fallback) ==>
          s.fallback.value in refs && (s.kind.Decision? || s.kind.ToolCall? || s.kind.Validate?))
    && (s.kind.Complete? ==> s.rules == [] && !Given(s.fallback))
    && (s.kind.Decision? ==> Given(s.fallback))
    && RulesOk(s.rules, refs)
  }

  predicate DecisionOk(payloads: seq<Step>, i: nat)
    requires i < |payloads|
  {
    var s := payloads[i];
    s.kind.Decision? ==>
      && ConfigValid(s.decision)
      && s.decision.resultKey !in AvailableInputs(payloads)
      && (forall j :: 0 <= j < i && payloads[j].kind.Decision? ==>
            payloads[j].decision.resultKey != s.decision.resultKey)
      && (forall f :: f in s.decision.inputFields ==> f in AvailableInputs(payloads))
      && (Given(s.fallback) ==>
            Lookup(payloads, s.fallback.value).Some? && Safe(Lookup(payloads, s.fallback.value).value))
  }

  predicate StepOk(payloads: seq<Step>, i: nat)
    requires i < |payloads|
  {
    IdentityOk(payloads, i) && RoutingOk(payloads[i], TargetRefs(payloads)) && DecisionOk(payloads, i)
  }

  predicate StepsOk(payloads: seq<Step>) {
    StepsOkBefore(payloads, |payloads|)
  }

  predicate StepsOkBefore(payloads: seq<Step>, i: nat)
    requires i <= |payloads|
  {
    forall j :: 0 <= j < i ==> StepOk(payloads, j)
  }

  function NamesBefore(payloads: seq<Step>, i: nat): set<string>
    requires i <= |payloads|
  {
    set j | 0 <= j < i :: Strip(payloads[j].name)
  }

  function OrdersBefore(payloads: seq<Step>, i: nat): set<int>
    requires i <= |payloads|
  {
    set j | 0 <= j < i :: payloads[j].order
  }

  function KeysBefore(payloads: seq<Step>, i: nat): set<string>
    requires i <= |payloads|
  {
    set j | 0 <= j < i && payloads[j].kind.Decision? :: payloads[j].decision.resultKey
  }

  predicate IsAutomatic(s: Step) {
    || ((s.kind.Validate? || s.kind.ToolCall? || s.kind.Decision?) && !Gated(s))
    || (s.kind.Collect? && s.fields == [])
  }

  function Automatic(steps: seq<Step>): set<nat> {
    set i: nat | i < |steps| && IsAutomatic(steps[i])
  }

  predicate HasDefault(rules: seq<Rule>) {
    exists k :: 0 <= k < |rules| && rules[k].condition.None?
  }

  predicate Known(steps: seq<Step>, target: Option<string>) {
    target.Some? && Reference(steps, target.value).Some?
  }

  /** Every route that leaves step i has a target in the reference table. */
  predicate RoutesKnown(steps: seq<Step>, i: nat)
    requires i < |steps|
  {
    && (forall r :: r in steps[i].rules ==> Known(steps, r.goto))
    && (Given(steps[i].fallback) ==> Known(steps, steps[i].fallback))
  }

  function Targets(steps: seq<Step>, i: nat): set<nat>
    requires i < |steps|
  {
    (set r | r in steps[i].rules && Known(steps, r.goto) :: Reference(steps, r.goto.value).value)
    + (if !HasDefault(steps[i].rules) && i + 1 < |steps| then {i + 1} else {})
    + (if Given(steps[i].fallback) && Known(steps, steps[i].fallback)
       then {Reference(steps, steps[i].fallback.value).value} else {})
  }

  /** The automatic steps and the moves between them. */
  function AutomaticGraph(steps: seq<Step>): (g: Graph)
    ensures Closed(g) && g.Keys == Automatic(steps)
  {
    map i | i in Automatic(steps) :: Targets(steps, i) * Automatic(steps)
  }

  predicate AutomaticRoutesKnown(steps: seq<Step>) {
    forall i :: i in Automatic(steps) ==> RoutesKnown(steps, i)
  }

  /** What the validator guarantees when it reports nothing. */
  ghost predicate Accepted(payloads: seq<Step>) {
    && StepsOk(payloads)
    && AutomaticRoutesKnown(Ordered(payloads))
    && !HasCycle(AutomaticGraph(Ordered(payloads)))
  }

  /** No step name carries surrounding whitespace. */
  predicate NamesTrimmed(payloads: seq<Step>) {
    forall s :: s in payloads ==> Strip(s.name) == s.name
  }

  // ---- The validator ----

  /** Appends one problem for each way in which the routes of step i are wrong. */
  method ValidateNextStepRules(i: nat, rules: seq<Rule>, refs: set<string>, before: seq<Problem>)
      returns (problems: seq<Problem>)
    ensures before <= problems
    ensures |problems| == |before| <==> RulesOk(rules, refs)
  {
    problems := before;
    for k := 0 to |rules|
      invariant before <= problems
      invariant |problems| == |before| <==> forall j :: 0 <= j < k ==> RuleOk(rules, j, refs)
    {
      var rule := rules[k];
      ghost var was := |problems|;
      if !Given(rule.goto) {
        problems := problems + [MissingGoto(i, k)];
      } else if rule.goto.value !in refs {
        problems := problems + [UnknownGoto(i, k)];
      }
      if rule.condition.None? {
        if k != |rules| - 1 {
          problems := problems + [DefaultNotLast(i)];
        }
      } else {
        if rule.condition.value.field == "" {
          problems := problems + [BadCondition(i, k)];
        }
        if rule.condition.value.op !in OPERATORS {
          problems := problems + [BadCondition(i, k)];
        }
      }
      assert |problems| == was <==> RuleOk(rules, k, refs);
    }
  }

  method ValidateIdentity(payloads: seq<Step>, i: nat, names: set<string>, orders: set<int>, before: seq<Problem>)
      returns (names': set<string>, orders': set<int>, problems: seq<Problem>)
    requires i < |payloads|
    requires before == [] ==> names == NamesBefore(payloads, i)
    requires before == [] ==> orders == OrdersBefore(payloads, i)
    ensures before <= problems
    ensures problems == [] <==> before == [] && IdentityOk(payloads, i)
    ensures problems == [] ==> names' == NamesBefore(payloads, i + 1)
    ensures problems == [] ==> orders' == OrdersBefore(payloads, i + 1)
  {
    problems, orders' := before, orders;
    var s := payloads[i];
    var name := Strip(s.name);
    if name == "" {
      problems := problems + [MissingName(i)];
      name := "#" + Decimal(i + 1);
    } else if name in names {
      problems := problems + [DuplicateName(i)];
    }
    names' := names + {name};
    if s.order < 0 {
      problems := problems + [BadOrder(i)];
    } else if s.order in orders {
      problems := problems + [DuplicateOrder(i)];
    } else {
      orders' := orders + {s.order};
    }
  }

  method ValidateRouting(i: nat, s: Step, refs: set<string>, before: seq<Problem>)
      returns (problems: seq<Problem>)
    ensures before <= problems
    ensures |problems| == |before| <==> RoutingOk(s, refs)
  {
    problems := before;
    if s.kind.OtherType? {
      problems := problems + [BadType(i)];
    }
    if s.onFailure.OtherAction? {
      problems := problems + [BadFailureAction(i)];
    }
    if s.kind.ToolCall? && !Given(s.toolId) {
      problems := problems + [MissingTool(i)];
    }
    if Given(s.fallback) && s.fallback.value !in refs {
      problems := problems + [UnknownFallback(i)];
    }
    if s.kind.Complete? && (s.rules != [] || Given(s.fallback)) {
      problems := problems + [TerminalWithRoutes(i)];
    }
    if s.kind.Decision? && !Given(s.fallback) {
      problems := problems + [DecisionWithoutFallback(i)];
    }
    if Given(s.fallback) && !(s.kind.Decision? || s.kind.ToolCall? || s.kind.Validate?) {
      problems := problems + [FallbackNotSupported(i)];
    }
    problems := ValidateNextStepRules(i, s.rules, refs, problems);
  }

  method ValidateDecision(payloads: seq<Step>, i: nat, inputs: set<string>, keys: set<string>, before: seq<Problem>)
      returns (keys': set<string>, problems: seq<Problem>)
    requires i < |payloads| && inputs == AvailableInputs(payloads)
    requires before == [] ==> keys == KeysBefore(payloads, i)
    ensures before <= problems
    ensures problems == [] <==> before == [] && DecisionOk(payloads, i)
    ensures problems == [] ==> keys' == KeysBefore(payloads, i + 1)
  {
    problems, keys' := before, keys;
    var s := payloads[i];
    if s.kind.Decision? {
      if !ConfigValid(s.decision) {
        problems := problems + [BadDecisionConfig(i)];
      } else {
        if s.decision.resultKey in inputs || s.decision.resultKey in keys {
          problems := problems + [DecisionKeyTaken(i)];
        }
        keys' := keys + {s.decision.resultKey};
        if exists f :: f in s.decision.inputFields && f !in inputs {
          problems := problems + [UnknownDecisionInputs(i)];
        }
      }
      if Given(s.fallback) {
        var target := Lookup(payloads, s.fallback.value);
        if target.None? || !Safe(target.value) {
          problems := problems + [UnsafeDecisionFallback(i)];
        }
      }
    }
  }

  /** Earlier columns give way to later ones, and a column's first row wins. */
  function Overlay(refs: map<string, nat>, column: seq<string>): map<string, nat> {
    map t | t in refs.Keys + (set x | x in column) ::
      if t in column then IndexOf(column, t).value else refs[t]
  }

  /** One pass over a column, last row first, so that the first row of a value is kept. */
  method OverlayColumn(base: map<string, nat>, column: seq<string>) returns (refs: map<string, nat>)
    ensures refs == Overlay(base, column)
  {
    refs := base;
    for i := |column| downto 0
      invariant refs.Keys == base.Keys + (set x | x in column[i..])
      invariant forall t :: t in refs && t !in column[i..] ==> t in base && refs[t] == base[t]
      invariant forall t :: t in column[i..] ==> refs[t] == i + IndexOf(column[i..], t).value
    {
      refs := refs[column[i] := i];
      assert column[i..] == [column[i]] + column[i + 1..];
      assert column[i..][1..] == column[i + 1..];
    }
    assert column[0..] == column;
  }

  method FillReferences(steps: seq<Step>) returns (refs: map<string, nat>)
    ensures forall t :: t in refs <==> Reference(steps, t).Some?
    ensures forall t :: t in refs ==> Reference(steps, t) == Some(refs[t])
  {
    refs := OverlayColumn(map[], OrderTexts(steps));
    refs := OverlayColumn(refs, Names(steps));
    refs := OverlayColumn(refs, Ids(steps));
  }

  method ValidateAutomaticCycles(payloads: seq<Step>) returns (report: Report)
    ensures report.LookupFailed? <==> !AutomaticRoutesKnown(Ordered(payloads))
    ensures report.Checked? ==>
              (report.problems == [] <==> !HasCycle(AutomaticGraph(Ordered(payloads))))
  {
    var steps := Ordered(payloads);
    var refs := FillReferences(steps);
    var automatic := Automatic(steps);
    var graph: Graph := map[];
    var todo := automatic;
    while todo != {}
      invariant todo <= automatic && graph.Keys == automatic - todo
      invariant forall i :: i in graph ==> RoutesKnown(steps, i) && graph[i] == Targets(steps, i) * automatic
      decreases todo
    {
      var idx :| idx in todo;
      var s := steps[idx];
      if (exists r :: r in s.rules && (r.goto.None? || r.goto.value !in refs))
         || (Given(s.fallback) && s.fallback.value !in refs) {
        assert !RoutesKnown(steps, idx);
        return LookupFailed;
      }
      var targets := set r | r in s.rules && r.goto.Some? && r.goto.value in refs :: refs[r.goto.value];
      if !HasDefault(s.rules) && idx + 1 < |steps| {
        targets := targets + {idx + 1};
      }
      if Given(s.fallback) {
        targets := targets + {refs[s.fallback.value]};
      }
      assert targets == Targets(steps, idx);
      graph := graph[idx := targets * automatic];
      todo := todo - {idx};
    }
    assert graph == AutomaticGraph(steps);
    var search := new Search(graph);
    var cyclic := search.FindsCycle();
    report := Checked(if cyclic then [AutomaticCycle] else []);
  }

  lemma OneMoreStepOk(payloads: seq<Step>, i: nat)
    requires i < |payloads|
    ensures StepsOkBefore(payloads, i + 1) <==> StepsOkBefore(payloads, i) && StepOk(payloads, i)
  {
  }

  method ValidateSteps(payloads: seq<Step>) returns (problems: seq<Problem>)
    ensures problems == [] <==> StepsOk(payloads)
  {
    problems := [];
    var names: set<string>, orders: set<int>, keys: set<string> := {}, {}, {};
    var refs, inputs := TargetRefs(payloads), AvailableInputs(payloads);
    for i := 0 to |payloads|
      invariant problems == [] <==> StepsOkBefore(payloads, i)
      invariant problems == [] ==> names == NamesBefore(payloads, i)
      invariant problems == [] ==> orders == OrdersBefore(payloads, i)
      invariant problems == [] ==> keys == KeysBefore(payloads, i)
    {
      OneMoreStepOk(payloads, i);
      names, orders, problems := ValidateIdentity(payloads, i, names, orders, problems);
      problems := ValidateRouting(i, payloads[i], refs, problems);
      keys, problems := ValidateDecision(payloads, i, inputs, keys, problems);
    }
  }

  /** Reports nothing exactly for the accepted definitions. */
  method ValidateWorkflowSteps(payloads: seq<Step>, requireSteps: bool) returns (report: Report)
    ensures report == Checked([]) <==> Accepted(payloads) && (requireSteps ==> payloads != [])
    ensures report.LookupFailed? <==> StepsOk(payloads) && !AutomaticRoutesKnown(Ordered(payloads))
  {
    if requireSteps && payloads == [] {
      assert Automatic(Ordered(payloads)) == {};
      return Checked([NoSteps]);
    }
    var problems := ValidateSteps(payloads);
    if problems != [] {
      return Checked(problems);
    }
    report := ValidateAutomaticCycles(payloads);
  }
}
