/** Where the guarantees of acceptance end: the depth bound is tight, and untrimmed names
    and blank step types slip through to the executor. */
module WorkflowLimits {
  import opened Options
  import opened Text
  import opened Workflows
  import opened AutomaticCycles
  import opened WorkflowValidation
  import opened WorkflowSemantics
  import opened WorkflowSoundness
  import opened ConfigurationFaults

  const NO_DECISION := DecisionConfig([], [], "", 0.0, 0.0)

  function Plainly(name: string, order: int, kind: StepType, fields: seq<string>, rules: seq<Rule>): Step {
    Step("id-" + name, name, order, kind, fields, Retry, None, None, map[], NO_DECISION, false, false, false, rules)
  }

  /** Whatever is asked, the answer lets the step pass. */
  const AGREEABLE: Oracle :=
    (n: nat) => Answer(Submitted(map[], {}, true), true, ToolMissing, NoAnswer, true, (c: Condition, d: Data) => true)

  // ---- A form, n checks and an end ----

  function LineStep(n: nat, i: nat): Step {
    Plainly(Decimal(i), i,
            if i == 0 then Collect else if i <= n then Validate else Complete,
            if i == 0 then ["field"] else [], [])
  }

  function Line(n: nat): (r: seq<Step>)
    ensures |r| == n + 2
  {
    seq(n + 2, i requires 0 <= i => LineStep(n, i))
  }

  lemma {:induction false} InsertLast(s: Step, sorted: seq<Step>)
    requires forall x :: x in sorted ==> x.order < s.order
    ensures Insert(s, sorted) == sorted + [s]
  {
    if sorted != [] {
      assert sorted == [sorted[0]] + sorted[1..];
      InsertLast(s, sorted[1..]);
    }
  }

  lemma {:induction false} AscendingIsOrdered(steps: seq<Step>)
    requires forall i, j :: 0 <= i < j < |steps| ==> steps[i].order < steps[j].order
    ensures Ordered(steps) == steps
  {
    if steps != [] {
      var init := steps[..|steps| - 1];
      AscendingIsOrdered(init);
      InsertLast(steps[|steps| - 1], init);
      assert steps == init + [steps[|steps| - 1]];
    }
  }

  lemma DecimalIsTrimmed(i: nat)
    ensures Strip(Decimal(i)) == Decimal(i)
  {
    var d := Decimal(i);
    assert IsDigit(d[0]) && IsDigit(d[|d| - 1]);
    StripKeeps(d);
  }

  lemma LineNamesDiffer(n: nat, i: nat, j: nat)
    requires j < i < n + 2
    ensures Strip(Line(n)[j].name) != Strip(Line(n)[i].name)
  {
    DecimalIsTrimmed(i);
    DecimalIsTrimmed(j);
    IntTextInjective(i, j);
  }

  lemma LineStepOk(n: nat, i: nat)
    requires i < n + 2
    ensures StepOk(Line(n), i)
  {
    DecimalIsTrimmed(i);
    forall j | 0 <= j < i ensures Strip(Line(n)[j].name) != Strip(Line(n)[i].name) {
      LineNamesDiffer(n, i, j);
    }
  }

  lemma LineStepsOk(n: nat)
    ensures StepsOk(Line(n))
  {
    forall i | 0 <= i < n + 2 ensures StepOk(Line(n), i) {
      LineStepOk(n, i);
    }
  }

  ghost function UpTo(n: nat): (r: set<nat>)
    ensures |r| == n && forall i :: i in r <==> 1 <= i <= n
  {
    if n == 0 then {} else UpTo(n - 1) + {n}
  }

  lemma LineTargets(n: nat, i: nat)
    requires i < n + 2
    ensures IsAutomatic(Line(n)[i]) <==> 1 <= i <= n
    ensures RoutesKnown(Line(n), i)
    ensures Targets(Line(n), i) <= {i + 1}
  {
    assert Line(n)[i] == LineStep(n, i);
  }

  lemma LineIsAutomatic(n: nat)
    ensures Automatic(Line(n)) == UpTo(n)
    ensures AutomaticRoutesKnown(Line(n))
    ensures forall i :: i in UpTo(n) ==> AutomaticGraph(Line(n))[i] <= {i + 1}
  {
    forall i | 0 <= i < n + 2 ensures IsAutomatic(Line(n)[i]) <==> i in UpTo(n) {
      LineTargets(n, i);
    }
    assert Automatic(Line(n)) == UpTo(n);
    forall i | i in UpTo(n) ensures RoutesKnown(Line(n), i) && AutomaticGraph(Line(n))[i] <= {i + 1} {
      LineTargets(n, i);
    }
  }

  lemma AscentIsAcyclic(g: Graph, n: nat)
    requires Closed(g) && g.Keys == UpTo(n) && forall i :: i in g ==> g[i] <= {i + 1}
    ensures !HasCycle(g)
  {
    var order: seq<nat> := seq(n, k requires 0 <= k < n => n - k);
    forall k, w | 0 <= k < n && w in g[order[k]] ensures w in order[..k] {
      assert w == order[k] + 1;
      assert w in g;
      assert order[..k][k - 1] == w;
    }
    forall v | v in g ensures v in order {
      assert order[n - v] == v;
    }
    ClearedIsAcyclic(g, order);
  }

  lemma LineHasNoCycle(n: nat)
    ensures AutomaticRoutesKnown(Line(n)) && !HasCycle(AutomaticGraph(Line(n)))
  {
    LineIsAutomatic(n);
    AscentIsAcyclic(AutomaticGraph(Line(n)), n);
  }

  lemma LineIsAccepted(n: nat)
    ensures Accepted(Line(n)) && Ordered(Line(n)) == Line(n) && |Automatic(Line(n))| == n
  {
    LineStepsOk(n);
    AscendingIsOrdered(Line(n));
    LineHasNoCycle(n);
    assert |Automatic(Line(n))| == n by { LineIsAutomatic(n); }
  }

  lemma LineMovesOn(n: nat, s: State)
    requires s.flow.Some? && s.flow.value.index <= n
    ensures var m := Visit(AGREEABLE, Line(n), s, None);
            m.Auto? && m.s.flow.Some? && m.s.flow.value.index == s.flow.value.index + 1
  {
    var i := s.flow.value.index;
    assert Line(n)[i] == LineStep(n, i) && Line(n)[i + 1] == LineStep(n, i + 1);
  }

  lemma {:induction false} LineRunsDeep(n: nat, s: State, depth: nat)
    requires n >= MAX_DEPTH && depth <= MAX_DEPTH + 1
    requires s.flow.Some? && s.flow.value.index == depth
    ensures Run(AGREEABLE, Line(n), s, None, depth).1 == Failed(DepthExceeded)
    decreases MAX_DEPTH + 1 - depth
  {
    if depth <= MAX_DEPTH {
      LineMovesOn(n, s);
      LineRunsDeep(n, Visit(AGREEABLE, Line(n), s, None).s, depth + 1);
    }
  }

  /** The depth guard stays silent in all accepted workflows with `a` automatic steps. */
  ghost predicate DepthGuardSilent(a: nat) {
    forall o, payloads, s, intent ::
      Accepted(payloads) && |Automatic(Ordered(payloads))| == a ==>
        Run(o, Ordered(payloads), s, intent, 0).1 != Failed(DepthExceeded)
  }

  lemma ShallowIsSilent(a: nat)
    requires a <= MAX_DEPTH - 1
    ensures DepthGuardSilent(a)
  {
    forall o, payloads, s, intent | Accepted(payloads) && |Automatic(Ordered(payloads))| == a
      ensures Run(o, Ordered(payloads), s, intent, 0).1 != Failed(DepthExceeded)
    {
      DepthGuardUnreachable(o, payloads, s, intent);
    }
  }

  lemma DeepLineFails(a: nat)
    requires a >= MAX_DEPTH
    ensures !DepthGuardSilent(a)
  {
    LineIsAccepted(a);
    LineRunsDeep(a, State(Some(Flow(0, InProgress, [], None)), map[], []), 0);
  }

  /** That is so exactly when `a` is at most 19. */
  lemma DepthBoundIsExact(a: nat)
    ensures a <= MAX_DEPTH - 1 <==> DepthGuardSilent(a)
  {
    if a <= MAX_DEPTH - 1 { ShallowIsSilent(a); } else { DeepLineFails(a); }
  }

  // ---- Accepted, but not as the executor reads it ----

  /** A step whose only route names t, followed by a step named t with a blank before it. */
  function Ask(kind: StepType, t: string): Step {
    Plainly(t + t, 0, kind, [], [Rule(None, Some(t))])
  }

  function End(t: string): Step {
    Plainly(" " + t, 1, Complete, [], [])
  }

  function Untrimmed(kind: StepType, t: string): (r: seq<Step>)
    ensures |r| == 2 && r[0] == Ask(kind, t) && r[1] == End(t)
  {
    [Ask(kind, t), End(t)]
  }

  /** A single step with an empty type. */
  const BLANK := [Plainly("only", 0, Unset, [], [])]

  lemma OneBlankIsStripped(t: string)
    requires t != "" && !IsSpace(t[0]) && !IsSpace(t[|t| - 1])
    ensures Strip(" " + t) == t && Strip(t) == t
  {
    StripKeeps(t);
    assert (" " + t)[1..] == t;
  }

  lemma LetterIsNoNumber(t: string)
    requires t != "" && !IsSpace(t[0]) && !IsSpace(t[|t| - 1])
    requires !IsDigit(t[0]) && t[0] != '-' && t[0] != '+'
    ensures ParseInt(t).None?
  {
    StripKeeps(t);
  }

  lemma LostTarget(steps: seq<Step>, t: string)
    requires forall s :: s in steps ==> s.id != t && s.name != t
    requires ParseInt(t).None?
    ensures Resolve(steps, t).None?
  {
    assert t !in Ids(steps);
    assert t !in Names(steps);
  }

  lemma TargetIsListed(payloads: seq<Step>, s: Step)
    requires s in payloads && Strip(s.name) != ""
    ensures Strip(s.name) in TargetRefs(payloads)
  {
  }

  predicate Wordlike(t: string) {
    && t != "" && !IsSpace(t[0]) && !IsSpace(t[|t| - 1])
    && !IsDigit(t[0]) && t[0] != '-' && t[0] != '+' && t[0] != 'i'
  }

  lemma UntrimmedIdentity(kind: StepType, t: string)
    requires Wordlike(t)
    ensures IdentityOk(Untrimmed(kind, t), 0) && IdentityOk(Untrimmed(kind, t), 1) && Strip(End(t).name) == t
  {
    OneBlankIsStripped(t);
    StripKeeps(t + t);
  }

  lemma UntrimmedRouting(kind: StepType, t: string, refs: set<string>)
    requires t in refs && t != "" && (kind.Confirm? || kind.Validate?)
    ensures RoutingOk(Ask(kind, t), refs) && RoutingOk(End(t), refs)
  {
    assert RuleOk(Ask(kind, t).rules, 0, refs);
  }

  lemma PlainStepOk(payloads: seq<Step>, i: nat, refs: set<string>)
    requires i < |payloads| && !payloads[i].kind.Decision? && refs == TargetRefs(payloads)
    requires IdentityOk(payloads, i) && RoutingOk(payloads[i], refs)
    ensures StepOk(payloads, i)
  {
  }

  lemma NextStepOk(payloads: seq<Step>, i: nat)
    requires i < |payloads| && StepsOkBefore(payloads, i) && StepOk(payloads, i)
    ensures StepsOkBefore(payloads, i + 1)
  {
  }

  lemma BothStepsOk(payloads: seq<Step>)
    requires |payloads| == 2 && StepOk(payloads, 0) && StepOk(payloads, 1)
    ensures StepsOk(payloads)
  {
    NextStepOk(payloads, 0);
    NextStepOk(payloads, 1);
  }

  lemma UntrimmedTargetIsListed(kind: StepType, t: string)
    requires Wordlike(t)
    ensures t in TargetRefs(Untrimmed(kind, t))
  {
    OneBlankIsStripped(t);
    assert Untrimmed(kind, t)[1] in Untrimmed(kind, t);
    TargetIsListed(Untrimmed(kind, t), End(t));
  }

  lemma UntrimmedStepsOk(kind: StepType, t: string)
    requires Wordlike(t) && (kind.Confirm? || kind.Validate?)
    ensures StepsOk(Untrimmed(kind, t)) && Ordered(Untrimmed(kind, t)) == Untrimmed(kind, t)
  {
    var steps := Untrimmed(kind, t);
    UntrimmedIdentity(kind, t);
    UntrimmedTargetIsListed(kind, t);
    var refs := TargetRefs(steps);
    UntrimmedRouting(kind, t, refs);
    PlainStepOk(steps, 0, refs);
    PlainStepOk(steps, 1, refs);
    BothStepsOk(steps);
    AscendingIsOrdered(steps);
  }

  lemma UntrimmedIsAccepted(t: string)
    requires Wordlike(t)
    ensures Accepted(Untrimmed(Confirm, t))
  {
    var steps := Untrimmed(Confirm, t);
    UntrimmedStepsOk(Confirm, t);
    assert Automatic(steps) == {};
    ClearedIsAcyclic(AutomaticGraph(steps), []);
  }

  lemma AdvanceToLostTarget(o: Oracle, steps: seq<Step>, i: nat, s: State, rule: Rule)
    requires s.flow.Some? && i < |steps| && steps[i].rules == [rule]
    requires rule.condition.None? && rule.goto.Some? && Resolve(steps, rule.goto.value).None?
    ensures Advanced(o, steps, i, s) == Stop(s, Failed(BadBranch))
  {
  }

  lemma UntrimmedTargetIsLost(kind: StepType, t: string)
    requires Wordlike(t)
    ensures Resolve(Untrimmed(kind, t), t).None?
  {
    var steps := Untrimmed(kind, t);
    LetterIsNoNumber(t);
    assert steps[0].id[0] == 'i' && steps[1].id[0] == 'i';
    LostTarget(steps, t);
  }

  lemma AffirmedConfirmation(o: Oracle, steps: seq<Step>, s: State, m: Move)
    requires s.flow.Some? && s.flow.value.index < |steps| && steps[s.flow.value.index].kind.Confirm?
    requires Advanced(o, steps, s.flow.value.index, Arrived(s)) == m
    ensures Visit(o, steps, s, Some(true)) == m
  {
  }

  /** For every word-like text t: a route to t passes validation when some step is named t
      with a blank before it, and then stops the workflow at run time. */
  lemma UntrimmedNameMisroutes(o: Oracle, t: string)
    requires Wordlike(t)
    ensures Accepted(Untrimmed(Confirm, t)) && !NamesTrimmed(Untrimmed(Confirm, t))
    ensures var s := State(Some(Flow(0, InProgress, [], None)), map[], []);
            Visit(o, Ordered(Untrimmed(Confirm, t)), s, Some(true)) == Stop(Arrived(s), Failed(BadBranch))
  {
    UntrimmedIsAccepted(t);
    UntrimmedStepsOk(Confirm, t);
    UntrimmedIdentity(Confirm, t);
    assert Untrimmed(Confirm, t)[1] in Untrimmed(Confirm, t);
    UntrimmedTargetIsLost(Confirm, t);
    var s := State(Some(Flow(0, InProgress, [], None)), map[], []);
    AdvanceToLostTarget(o, Untrimmed(Confirm, t), 0, Arrived(s), Ask(Confirm, t).rules[0]);
    AffirmedConfirmation(o, Untrimmed(Confirm, t), s, Stop(Arrived(s), Failed(BadBranch)));
  }

  /** The same route out of an automatic step makes the cycle check break off instead. */
  lemma UntrimmedNameBreaksOff(t: string)
    requires Wordlike(t)
    ensures var payloads := Untrimmed(Validate, t);
            StepsOk(payloads) && !NamesTrimmed(payloads) && !AutomaticRoutesKnown(Ordered(payloads))
  {
    var steps := Untrimmed(Validate, t);
    UntrimmedStepsOk(Validate, t);
    UntrimmedIdentity(Validate, t);
    UntrimmedTargetIsLost(Validate, t);
    assert steps[1] in steps && steps[0].rules[0] in steps[0].rules && 0 in Automatic(steps);
    ResolversAgree(steps, t);
  }

  lemma BlankIsAccepted()
    ensures Accepted(BLANK) && Ordered(BLANK) == BLANK
  {
    AscendingIsOrdered(BLANK);
  }

  /** A blank type is validated as a form and not executed at all. */
  lemma BlankTypeIsNotRun()
    ensures Accepted(BLANK)
    ensures var s := State(Some(Flow(0, InProgress, [], None)), map[], []);
            Run(AGREEABLE, Ordered(BLANK), s, None, 0).1 == Failed(UnknownStepType)
  {
    BlankIsAccepted();
    UnsetTypeFails(AGREEABLE, BLANK, State(Some(Flow(0, InProgress, [], None)), map[], []), None);
  }
}
