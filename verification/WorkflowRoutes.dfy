/** An accepted definition holds no dead configuration: which rules, failure routes and choices
    a run can take. */
module WorkflowRoutes {
  import opened Options
  import opened Text
  import opened Workflows
  import opened WorkflowValidation
  import opened WorkflowSemantics
  import opened WorkflowLaws
  import opened ConfigurationFaults
  import opened WorkflowInvariants
  import opened WorkflowSoundness
  import Decisions

  // ---- A decision that is certain ----

  function Certain(config: DecisionConfig, choice: string): Decisions.Answer {
    Decisions.Answer("m", "choice", choice, 1.0, map x | x in config.choices :: if x == choice then 1.0 else 0.0)
  }

  function Present(config: DecisionConfig): Data {
    map f | f in config.inputFields :: Plain("x")
  }

  lemma {:induction false} CertaintyIsTotal(choices: seq<string>, p: map<string, real>, choice: string)
    requires forall x :: x in choices ==> x in p && p[x] == if x == choice then 1.0 else 0.0
    requires forall i, j :: 0 <= i < j < |choices| ==> choices[i] != choices[j]
    ensures Decisions.Total(choices, p) == if choice in choices then 1.0 else 0.0
  {
    if choices != [] {
      CertaintyIsTotal(choices[1..], p, choice);
      assert choices == [choices[0]] + choices[1..];
    }
  }

  /** Every configured choice but "other" can be accepted, once the inputs are there. */
  lemma CertainChoiceIsEarned(config: DecisionConfig, choice: string, data: Data)
    requires ConfigValid(config) && choice in config.choices && choice != "other"
    requires forall f :: f in config.inputFields ==> f in data && data[f] == Plain("x")
    ensures Earned(config, data, Answered(Certain(config, choice)))
  {
    CertaintyIsTotal(config.choices, Certain(config, choice).probabilities, choice);
  }

  lemma SomeChoice(config: DecisionConfig) returns (choice: string)
    requires ConfigValid(config)
    ensures choice in config.choices && choice != "other"
  {
    choice := if config.choices[0] != "other" then config.choices[0] else config.choices[1];
  }

  // ---- Rules ----

  /** The session leaves step i from the state `here`: after a visit, or when a review is over. */
  predicate LeavesFrom(o: Oracle, steps: seq<Step>, i: nat, s: State, intent: Option<bool>, here: State) {
    && Stands(steps, s, i) && here.flow.Some?
    && if steps[i].kind.HumanReview? then here == s && s.flow.value.status.PausedForReview?
       else Visit(o, steps, s, intent) == Advanced(o, steps, i, here)
  }

  predicate TakesRule(o: Oracle, steps: seq<Step>, i: nat, k: nat, s: State, intent: Option<bool>, here: State) {
    LeavesFrom(o, steps, i, s, intent, here) && IsFirstMatch(steps[i].rules, k, here.data, o(|here.log|).holds)
  }

  ghost predicate CanTakeRule(steps: seq<Step>, i: nat, k: nat) {
    exists o, s, intent, here :: TakesRule(o, steps, i, k, s, intent, here)
  }

  /** Everything succeeds, and exactly this condition holds. */
  function Succeeding(condition: Option<Condition>, answer: DecisionAnswer): Oracle {
    (n: nat) => Answer(Submitted(map[], {}, true), true, ToolReplied(map[]), answer, true,
                       (c: Condition, d: Data) => condition == Some(c))
  }

  function At(i: nat, status: Status, pending: Option<string>, data: Data): State {
    State(Some(Flow(i, status, [], pending)), data, [])
  }

  lemma OnlyRuleMatches(rules: seq<Rule>, k: nat, refs: set<string>, data: Data, answer: DecisionAnswer, n: nat)
    requires RulesOk(rules, refs) && k < |rules| && IsLive(rules, k)
    ensures IsFirstMatch(rules, k, data, Succeeding(rules[k].condition, answer)(n).holds)
  {
    forall j | 0 <= j < k
      ensures !Matches(rules[j], data, Succeeding(rules[k].condition, answer)(n).holds)
    {
      assert RuleOk(rules, j, refs);
    }
  }

  /** How a session can leave a step of this kind. */
  lemma StepCanBeLeft(steps: seq<Step>, i: nat, condition: Option<Condition>)
      returns (o: Oracle, s: State, intent: Option<bool>, here: State, answer: DecisionAnswer)
    requires i < |steps| && !steps[i].kind.Unset? && !steps[i].kind.OtherType? && !steps[i].kind.Complete?
    requires steps[i].kind.ToolCall? ==> Given(steps[i].toolId)
    requires steps[i].kind.Decision? ==> ConfigValid(steps[i].decision)
    ensures o == Succeeding(condition, answer) && LeavesFrom(o, steps, i, s, intent, here)
  {
    answer, intent := NoAnswer, Some(true);
    s := At(i, InProgress, Some(steps[i].id), map[]);
    match steps[i].kind {
      case Collect =>
        o := Succeeding(condition, answer);
        here := FormIsLeft(o, steps, i, s);
      case Validate =>
        o := Succeeding(condition, answer);
        here := Arrived(s);
        CheckMoves(o, steps, s, i, intent);
      case ToolCall =>
        o := Succeeding(condition, answer);
        here := ToolIsLeft(o, steps, i, s);
      case Decision =>
        var choice := SomeChoice(steps[i].decision);
        answer := Answered(Certain(steps[i].decision, choice));
        s := At(i, InProgress, None, Present(steps[i].decision));
        o := Succeeding(condition, answer);
        here := DecisionIsLeft(o, steps, i, s, choice);
      case Confirm =>
        o := Succeeding(condition, answer);
        here := Arrived(s);
        ConfirmationMoves(o, steps, s, i, intent);
      case HumanReview =>
        o := Succeeding(condition, answer);
        s := At(i, PausedForReview, None, map[]);
        here := s;
    }
  }

  lemma FormIsLeft(o: Oracle, steps: seq<Step>, i: nat, s: State) returns (here: State)
    requires Stands(steps, s, i) && steps[i].kind.Collect? && o(|Arrived(s).log|).collect == Submitted(map[], {}, true)
    ensures LeavesFrom(o, steps, i, s, Some(true), here)
  {
    here := Arrived(s);
    if steps[i].fields != [] { here := here.(data := Filled(steps[i].fields, here.data, o(|here.log|).collect)); }
  }

  lemma ToolIsLeft(o: Oracle, steps: seq<Step>, i: nat, s: State) returns (here: State)
    requires Stands(steps, s, i) && steps[i].kind.ToolCall? && Given(steps[i].toolId)
    requires s.flow.value.pending == Some(steps[i].id) && o(|Arrived(s).log|).tool == ToolReplied(map[])
    ensures LeavesFrom(o, steps, i, s, Some(true), here)
  {
    GateHears(o, steps, s, i, Some(true));
    var from := if Gated(steps[i]) then Unasked(Arrived(s)) else Arrived(s);
    here := Log(from, ToolCalled(i)).(data := WithToolResult(steps[i], from.data, map[]));
  }

  lemma DecisionIsLeft(o: Oracle, steps: seq<Step>, i: nat, s: State, choice: string) returns (here: State)
    requires Stands(steps, s, i) && steps[i].kind.Decision? && ConfigValid(steps[i].decision)
    requires choice in steps[i].decision.choices && choice != "other"
    requires s.data == Present(steps[i].decision)
    requires o(|Arrived(s).log|).decision == Answered(Certain(steps[i].decision, choice))
    ensures LeavesFrom(o, steps, i, s, Some(true), here)
  {
    var config := steps[i].decision;
    var data := s.data - {config.resultKey};
    CertainChoiceIsEarned(config, choice, data);
    AcceptedIfEarned(config, data, o(|Arrived(s).log|).decision);
    here := Log(Arrived(s), Judged(i, true)).(data := data[config.resultKey := Plain(choice)]);
  }

  lemma LiveRuleCanBeTaken(steps: seq<Step>, i: nat, k: nat, refs: set<string>)
    requires i < |steps| && k < |steps[i].rules| && IsLive(steps[i].rules, k)
    requires RoutingOk(steps[i], refs) && !steps[i].kind.Unset?
    requires steps[i].kind.Decision? ==> ConfigValid(steps[i].decision)
    ensures CanTakeRule(steps, i, k)
  {
    var o, s, intent, here, answer := StepCanBeLeft(steps, i, steps[i].rules[k].condition);
    OnlyRuleMatches(steps[i].rules, k, refs, here.data, answer, |here.log|);
    assert TakesRule(o, steps, i, k, s, intent, here);
  }

  lemma HiddenRuleIsNotTaken(steps: seq<Step>, i: nat, k: nat)
    requires i < |steps| && k < |steps[i].rules| && !IsLive(steps[i].rules, k)
    ensures !CanTakeRule(steps, i, k)
  {
    var rules := steps[i].rules;
    var j :| 0 <= j < k && rules[j].condition == rules[k].condition;
    forall o, s, intent, here ensures !TakesRule(o, steps, i, k, s, intent, here) {
      SameConditionMatches(rules, j, k, here.data, o(|here.log|).holds);
    }
  }

  /** A rule of a step of an accepted workflow can be taken if and only if no earlier rule has the
      same condition. */
  lemma RulesCanBeTakenExactly(payloads: seq<Step>, i: nat, k: nat)
    requires Accepted(payloads) && i < |Ordered(payloads)| && !Ordered(payloads)[i].kind.Unset?
    requires k < |Ordered(payloads)[i].rules|
    ensures CanTakeRule(Ordered(payloads), i, k) <==> IsLive(Ordered(payloads)[i].rules, k)
  {
    var steps := Ordered(payloads);
    if IsLive(steps[i].rules, k) {
      var p := PositionInDefinition(payloads, i);
      assert StepOk(payloads, p);
      LiveRuleCanBeTaken(steps, i, k, TargetRefs(payloads));
    } else {
      HiddenRuleIsNotTaken(steps, i, k);
    }
  }

  lemma SameConditionMatches(rules: seq<Rule>, j: nat, k: nat, data: Data, holds: (Condition, Data) -> bool)
    requires j < k < |rules| && rules[j].condition == rules[k].condition
    ensures !IsFirstMatch(rules, k, data, holds)
  {
    if IsFirstMatch(rules, k, data, holds) { assert Matches(rules[j], data, holds); }
  }

  // ---- Failure routes ----

  ghost predicate CanTakeFallback(steps: seq<Step>, i: nat) {
    exists o, s, intent, here :: FallsBackFrom(o, steps, i, s, intent, here)
  }

  predicate FallsBackFrom(o: Oracle, steps: seq<Step>, i: nat, s: State, intent: Option<bool>, here: State) {
    Stands(steps, s, i) && here.flow.Some? && Visit(o, steps, s, intent) == FellBack(steps, i, here, steps[i].kind.Decision?)
  }

  function Failing(): Oracle {
    (n: nat) => Answer(Unusable, false, ToolMissing, NoAnswer, false, (c: Condition, d: Data) => false)
  }

  /** Every failure route of an accepted workflow can be taken. */
  lemma FallbacksCanBeTaken(payloads: seq<Step>, i: nat)
    requires Accepted(payloads) && i < |Ordered(payloads)| && Given(Ordered(payloads)[i].fallback)
    ensures CanTakeFallback(Ordered(payloads), i)
  {
    var steps := Ordered(payloads);
    var p := PositionInDefinition(payloads, i);
    assert StepOk(payloads, p);
    var o, s := Failing(), At(i, InProgress, Some(steps[i].id), map[]);
    var here := FailureFallsBack(o, steps, i, s);
  }

  lemma FailureFallsBack(o: Oracle, steps: seq<Step>, i: nat, s: State) returns (here: State)
    requires o == Failing() && Stands(steps, s, i) && Given(steps[i].fallback) && s.flow.value.pending == Some(steps[i].id)
    requires steps[i].kind.Decision? || steps[i].kind.ToolCall? || steps[i].kind.Validate?
    requires steps[i].kind.ToolCall? ==> Given(steps[i].toolId)
    requires steps[i].kind.Decision? ==> ConfigValid(steps[i].decision)
    ensures FallsBackFrom(o, steps, i, s, Some(true), here)
  {
    here := Arrived(s);
    match steps[i].kind {
      case Validate => CheckMoves(o, steps, s, i, Some(true));
      case ToolCall =>
        GateHears(o, steps, s, i, Some(true));
        here := if Gated(steps[i]) then Unasked(here) else here;
      case Decision =>
        here := Log(here, Judged(i, false)).(data := s.data - {steps[i].decision.resultKey});
    }
  }

  // ---- Names and orders ----

  lemma TwiceInMultiset<T>(xs: seq<T>, i: nat, j: nat)
    requires i < j < |xs| && xs[i] == xs[j]
    ensures multiset(xs)[xs[i]] >= 2
  {
    assert xs == xs[..j] + xs[j..];
    assert xs[..j][i] in multiset(xs[..j]) && xs[j..][0] in multiset(xs[j..]);
  }

  lemma {:induction false} OnceInMultiset<T>(xs: seq<T>, x: T)
    requires forall i, j :: 0 <= i < j < |xs| ==> xs[i] != xs[j]
    ensures multiset(xs)[x] <= 1
  {
    if xs != [] {
      var init, last := xs[..|xs| - 1], xs[|xs| - 1];
      OnceInMultiset(init, x);
      assert xs == init + [last];
      if x == last {
        forall i | 0 <= i < |init| ensures init[i] != x { assert xs[i] != xs[|xs| - 1]; }
      }
    }
  }

  /** The steps of an accepted workflow run in strictly ascending order, from zero on, and no two
      have the same name, blanks around it aside. */
  lemma StepsAreToldApart(payloads: seq<Step>, i: nat, j: nat)
    requires StepsOk(payloads) && i < j < |Ordered(payloads)|
    ensures var steps := Ordered(payloads);
            && 0 <= steps[i].order < steps[j].order
            && Strip(steps[i].name) != "" && Strip(steps[j].name) != "" && Strip(steps[i].name) != Strip(steps[j].name)
  {
    var steps := Ordered(payloads);
    OrderedIsSortedPermutation(payloads);
    var p := PositionInDefinition(payloads, i);
    var q := PositionInDefinition(payloads, j);
    assert StepOk(payloads, p) && StepOk(payloads, q);
    if p == q {
      forall k, l | 0 <= k < l < |payloads| ensures payloads[k] != payloads[l] { assert StepOk(payloads, l); }
      OnceInMultiset(payloads, steps[i]);
      TwiceInMultiset(steps, i, j);
      assert false;
    }
  }
}
