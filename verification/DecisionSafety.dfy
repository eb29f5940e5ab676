/** Rejected decisions in accepted workflows: they reach a safe step, keep no stale
    choice and cause no external call. */
module DecisionSafety {
  import opened Options
  import opened Text
  import opened Workflows
  import opened WorkflowValidation
  import opened WorkflowSemantics
  import opened WorkflowSoundness

  // ---- Looking a target up in the definition or in the ordered list ----

  ghost predicate Keys<K>(steps: seq<Step>, key: Step -> K, ks: seq<K>) {
    |ks| == |steps| && forall i :: 0 <= i < |ks| ==> ks[i] == key(steps[i])
  }

  lemma OrderedKeyIsDefined<K>(payloads: seq<Step>, key: Step -> K, a: seq<K>, b: seq<K>, j: nat)
    requires Keys(payloads, key, a) && Keys(Ordered(payloads), key, b) && j < |b|
    requires forall i, j :: 0 <= i < j < |a| ==> a[i] != a[j]
    ensures IndexOf(a, b[j]).Some? && payloads[IndexOf(a, b[j]).value] == Ordered(payloads)[j]
  {
    var k := PositionInDefinition(payloads, j);
    assert a[k] == b[j];
  }

  lemma DefinedKeyIsOrdered<K>(payloads: seq<Step>, key: Step -> K, a: seq<K>, b: seq<K>, i: nat) returns (j: nat)
    requires Keys(payloads, key, a) && Keys(Ordered(payloads), key, b) && i < |a|
    ensures j < |b| && b[j] == a[i]
  {
    OrderedIsSortedPermutation(payloads);
    assert payloads[i] in multiset(Ordered(payloads));
    j :| 0 <= j < |Ordered(payloads)| && Ordered(payloads)[j] == payloads[i];
  }

  lemma KeyedAlike<K>(payloads: seq<Step>, key: Step -> K, a: seq<K>, b: seq<K>, t: K)
    requires Keys(payloads, key, a) && Keys(Ordered(payloads), key, b)
    requires forall i, j :: 0 <= i < j < |a| ==> a[i] != a[j]
    ensures t in a <==> t in b
    ensures t in a ==> Ordered(payloads)[IndexOf(b, t).value] == payloads[IndexOf(a, t).value]
  {
    if t in a {
      var j := DefinedKeyIsOrdered(payloads, key, a, b, IndexOf(a, t).value);
      assert t in b;
    }
    if t in b { OrderedKeyIsDefined(payloads, key, a, b, IndexOf(b, t).value); }
  }

  lemma StepKeysDistinct(payloads: seq<Step>, i: nat, j: nat)
    requires StepsOk(payloads) && i < j < |payloads|
    ensures payloads[i].name != payloads[j].name && IntText(payloads[i].order) != IntText(payloads[j].order)
  {
    assert StepOk(payloads, j);
    IntTextInjective(payloads[i].order, payloads[j].order);
  }

  /** The validator searches the definition, the executor the ordered list; both find the same step. */
  lemma ReferenceIsOrderBlind(payloads: seq<Step>, t: string)
    requires StepsOk(payloads) && UniqueIds(payloads)
    ensures Reference(payloads, t).Some? <==> Reference(Ordered(payloads), t).Some?
    ensures Reference(payloads, t).Some? ==>
              Ordered(payloads)[Reference(Ordered(payloads), t).value] == payloads[Reference(payloads, t).value]
  {
    var steps := Ordered(payloads);
    forall i, j | 0 <= i < j < |payloads| ensures Names(payloads)[i] != Names(payloads)[j] {
      StepKeysDistinct(payloads, i, j);
    }
    forall i, j | 0 <= i < j < |payloads| ensures OrderTexts(payloads)[i] != OrderTexts(payloads)[j] {
      StepKeysDistinct(payloads, i, j);
    }
    KeyedAlike(payloads, (s: Step) => s.id, Ids(payloads), Ids(steps), t);
    KeyedAlike(payloads, (s: Step) => s.name, Names(payloads), Names(steps), t);
    KeyedAlike(payloads, (s: Step) => IntText(s.order), OrderTexts(payloads), OrderTexts(steps), t);
  }

  /** The failure route of every decision resolves, at run time, to a safe step. */
  lemma DecisionFallbackIsSafe(payloads: seq<Step>, i: nat)
    requires Accepted(payloads) && UniqueIds(payloads)
    requires i < |Ordered(payloads)| && Ordered(payloads)[i].kind.Decision?
    ensures var step := Ordered(payloads)[i];
            && ConfigValid(step.decision) && Given(step.fallback)
            && Resolve(Ordered(payloads), step.fallback.value).Some?
            && Safe(Ordered(payloads)[Resolve(Ordered(payloads), step.fallback.value).value])
  {
    var j := PositionInDefinition(payloads, i);
    assert StepOk(payloads, j);
    var f := payloads[j].fallback.value;
    ReferenceIsOrderBlind(payloads, f);
    ResolversAgree(Ordered(payloads), f);
  }

  // ---- What follows a rejection ----

  predicate External(e: Event) {
    e.ToolCalled? || e.WebhookCalled?
  }

  /** From here on the log neither calls out nor starts another turn. */
  ghost predicate QuietFrom(log: seq<Event>, from: nat) {
    forall k :: from <= k < |log| ==> !External(log[k]) && !log[k].TurnStarted?
  }

  /** What a chain that ends quietly at this step leaves. */
  ghost predicate EndsQuietly(out: (State, Result), s: State, j: nat) {
    && out.0.data == s.data && s.log <= out.0.log && QuietFrom(out.0.log, |s.log|)
    && out.0.flow.Some? && out.0.flow.value.index == j
    && (out.1.Waiting? || out.1.Escalated? || out.1.Finished? || out.1 == Failed(DepthExceeded))
  }

  /** A safe step that runs by itself is a pause for review or an end without delivery. */
  lemma SafeVisitIsQuiet(o: Oracle, steps: seq<Step>, j: nat, s: State)
    requires s.flow.Some? && s.flow.value.index == j < |steps| && Safe(steps[j]) && RunsByItself(steps[j])
    ensures var m := Visit(o, steps, s, None); m.Stop? && EndsQuietly((m.s, m.r), s, j)
  {
  }

  /** Entering a safe step ends the chain without an external call or a change of data. */
  lemma SafeEntryIsQuiet(o: Oracle, steps: seq<Step>, j: nat, s: State, depth: nat)
    requires s.flow.Some? && j < |steps| && Safe(steps[j])
    ensures EndsQuietly(Continued(o, steps, Entered(steps, j, s), depth), s, j)
  {
    if RunsByItself(steps[j]) {
      var entered := Entered(steps, j, s).s;
      SafeVisitIsQuiet(o, steps, j, entered);
    }
  }

  /** The session after a rejection: judged, and without an earlier choice. */
  function Rejected(s: State, i: nat, key: string): State
    requires s.flow.Some?
  {
    Log(Arrived(s), Judged(i, false)).(data := s.data - {key})
  }

  lemma RejectionFallsBack(o: Oracle, steps: seq<Step>, s: State, intent: Option<bool>, i: nat, j: nat)
    requires s.flow.Some? && s.flow.value.index == i < |steps| && steps[i].kind.Decision? && ConfigValid(steps[i].decision)
    requires AcceptedChoice(steps[i].decision, s.data - {steps[i].decision.resultKey}, o(|s.log| + 1).decision).None?
    requires steps[i].fallback.Some? && Resolve(steps, steps[i].fallback.value) == Some(j) && Safe(steps[j])
    ensures Visit(o, steps, s, intent) == Entered(steps, j, Rejected(s, i, steps[i].decision.resultKey))
  {
    assert Arrived(s).log == s.log + [Visited(i, s.data)];
  }

  lemma RejectedRunIsQuiet(o: Oracle, steps: seq<Step>, s: State, intent: Option<bool>, depth: nat, rejected: State, j: nat)
    requires s.flow.Some? && j < |steps| && Safe(steps[j]) && depth <= MAX_DEPTH && rejected.flow.Some?
    requires Visit(o, steps, s, intent) == Entered(steps, j, rejected)
    requires s.log <= rejected.log && QuietFrom(rejected.log, |s.log|)
    ensures var out := Run(o, steps, s, intent, depth);
            && out.0.data == rejected.data && out.0.flow.Some? && out.0.flow.value.index == j
            && s.log <= out.0.log && QuietFrom(out.0.log, |s.log|)
            && (out.1.Failed? ==> out.1.fault == DepthExceeded)
  {
    SafeEntryIsQuiet(o, steps, j, rejected, depth);
    assert Run(o, steps, s, intent, depth) == Continued(o, steps, Entered(steps, j, rejected), depth);
  }

  /** A rejected or failed decision drops any earlier choice, reaches an existing safe step
      and is followed by no tool or webhook call in its chain. */
  lemma RejectedDecisionIsSafe(o: Oracle, payloads: seq<Step>, s: State, intent: Option<bool>, depth: nat)
    requires Accepted(payloads) && UniqueIds(payloads) && depth <= MAX_DEPTH
    requires s.flow.Some? && s.flow.value.index < |Ordered(payloads)|
    requires var step := Ordered(payloads)[s.flow.value.index];
             && step.kind.Decision?
             && AcceptedChoice(step.decision, s.data - {step.decision.resultKey}, o(|s.log| + 1).decision).None?
    ensures var steps := Ordered(payloads);
            var out := Run(o, steps, s, intent, depth);
            && steps[s.flow.value.index].decision.resultKey !in out.0.data
            && out.0.flow.Some? && out.0.flow.value.index < |steps| && Safe(steps[out.0.flow.value.index])
            && s.log <= out.0.log && QuietFrom(out.0.log, |s.log|)
            && (out.1.Failed? ==> out.1.fault == DepthExceeded)
  {
    var steps, i := Ordered(payloads), s.flow.value.index;
    DecisionFallbackIsSafe(payloads, i);
    var j := Resolve(steps, steps[i].fallback.value).value;
    RejectionFallsBack(o, steps, s, intent, i, j);
    RejectedRunIsQuiet(o, steps, s, intent, depth, Rejected(s, i, steps[i].decision.resultKey), j);
  }
}
