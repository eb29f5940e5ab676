/** Workflow definitions: steps, routes and the resolution of a route's target. */
module Workflows {
  import opened Options
  import opened Text

  /** `Unset` is the empty string, which validation reads as a collect step and
      execution does not recognise. */
  datatype StepType =
    | Collect | Validate | ToolCall | Decision | Confirm | HumanReview | Complete
    | Unset | OtherType(name: string)

  datatype FailureAction = Retry | Skip | Rollback | Escalate | UnsetAction | OtherAction(name: string)

  datatype Condition = Condition(field: string, op: string, value: string)

  /** A rule without a condition is the default route. */
  datatype Rule = Rule(condition: Option<Condition>, goto: Option<string>)

  datatype DecisionConfig = DecisionConfig(
    inputFields: seq<string>, choices: seq<string>, resultKey: string,
    minConfidence: real, minProbability: real)

  datatype Step = Step(
    id: string, name: string, order: int, kind: StepType,
    fields: seq<string>,
    onFailure: FailureAction, fallback: Option<string>,
    toolId: Option<string>, outputMapping: map<string, string>,
    decision: DecisionConfig,
    webhookUrl: bool, webhookEnabled: bool,
    requiresConfirm: bool,
    rules: seq<Rule>)

  /** Python's truth value of an optional string. */
  predicate Given(s: Option<string>) {
    s.Some? && s.value != ""
  }

  ghost predicate Distinct<T(!new)>(xs: seq<T>) {
    forall i, j :: 0 <= i < j < |xs| ==> xs[i] != xs[j]
  }

  /** The constraints of the decision schema that its choices and keys must meet. */
  predicate ConfigValid(c: DecisionConfig) {
    && c.inputFields != [] && c.resultKey != "" && c.resultKey !in c.inputFields
    && 2 <= |c.choices| <= 32 && "other" in c.choices
    && (forall i, j :: 0 <= i < j < |c.choices| ==> c.choices[i] != c.choices[j])
    && (forall i, j :: 0 <= i < j < |c.inputFields| ==> c.inputFields[i] != c.inputFields[j])
    && 0.0 <= c.minConfidence <= 1.0 && 0.0 <= c.minProbability <= 1.0
  }

  /** A tool call that its requester has to confirm first. */
  predicate Gated(s: Step) {
    s.kind.ToolCall? && s.requiresConfirm
  }

  /** What a rejected decision may lead to: input, a manual pause, or a silent end. */
  predicate Safe(s: Step) {
    || s.kind.HumanReview?
    || (s.kind.Collect? && s.fields != [])
    || (s.kind.Complete? && !s.webhookEnabled)
  }

  // ---- Searching a list ----

  function IndexOf<T(==)>(xs: seq<T>, x: T): (k: Option<nat>)
    ensures k.Some? <==> x in xs
    ensures k.Some? ==> k.value < |xs| && xs[k.value] == x && x !in xs[..k.value]
  {
    if xs == [] then None
    else if xs[0] == x then Some(0)
    else
      var k := IndexOf(xs[1..], x);
      assert xs == [xs[0]] + xs[1..];
      if k.None? then None else
        assert xs[..k.value + 1] == [xs[0]] + xs[1..][..k.value];
        Some(k.value + 1)
  }

  lemma {:induction false} FirstIsUnique<T>(xs: seq<T>, x: T, i: nat)
    requires i < |xs| && xs[i] == x && x !in xs[..i]
    ensures IndexOf(xs, x) == Some(i)
  {
    if i > 0 {
      assert xs[..i] == [xs[0]] + xs[1..][..i - 1];
      FirstIsUnique(xs[1..], x, i - 1);
    }
  }

  lemma {:induction false} SameHitsSameIndex<T, U>(xs: seq<T>, x: T, ys: seq<U>, y: U)
    requires |xs| == |ys| && forall i :: 0 <= i < |xs| ==> (xs[i] == x <==> ys[i] == y)
    ensures IndexOf(xs, x) == IndexOf(ys, y)
  {
    if xs != [] {
      forall i | 0 <= i < |xs[1..]| ensures xs[1..][i] == x <==> ys[1..][i] == y {
        assert xs[1..][i] == xs[i + 1] && ys[1..][i] == ys[i + 1];
      }
      SameHitsSameIndex(xs[1..], x, ys[1..], y);
    }
  }

  function Ids(steps: seq<Step>): (r: seq<string>)
    ensures |r| == |steps|
  {
    seq(|steps|, i requires 0 <= i < |steps| => steps[i].id)
  }

  function Names(steps: seq<Step>): (r: seq<string>)
    ensures |r| == |steps|
  {
    seq(|steps|, i requires 0 <= i < |steps| => steps[i].name)
  }

  function Orders(steps: seq<Step>): (r: seq<int>)
    ensures |r| == |steps|
  {
    seq(|steps|, i requires 0 <= i < |steps| => steps[i].order)
  }

  function OrderTexts(steps: seq<Step>): (r: seq<string>)
    ensures |r| == |steps|
  {
    seq(|steps|, i requires 0 <= i < |steps| => IntText(steps[i].order))
  }

  // ---- The executor's list: steps by ascending order ----

  function Insert(s: Step, sorted: seq<Step>): seq<Step> {
    if sorted == [] || s.order < sorted[0].order then [s] + sorted
    else [sorted[0]] + Insert(s, sorted[1..])
  }

  function Ordered(steps: seq<Step>): seq<Step> {
    if steps == [] then [] else Insert(steps[|steps| - 1], Ordered(steps[..|steps| - 1]))
  }

  ghost predicate Sorted(steps: seq<Step>) {
    forall i, j :: 0 <= i < j < |steps| ==> steps[i].order <= steps[j].order
  }

  lemma {:induction false} InsertKeepsSorted(s: Step, sorted: seq<Step>)
    requires Sorted(sorted)
    ensures Sorted(Insert(s, sorted))
    ensures multiset(Insert(s, sorted)) == multiset(sorted) + multiset{s}
  {
    if sorted == [] || s.order < sorted[0].order {
    } else {
      InsertKeepsSorted(s, sorted[1..]);
      assert sorted == [sorted[0]] + sorted[1..];
      SmallestFirst(sorted[0], sorted[1..], s, Insert(s, sorted[1..]));
    }
  }

  lemma SmallestFirst(first: Step, rest: seq<Step>, s: Step, tail: seq<Step>)
    requires Sorted(tail) && multiset(tail) == multiset(rest) + multiset{s}
    requires first.order <= s.order && forall i :: 0 <= i < |rest| ==> first.order <= rest[i].order
    ensures Sorted([first] + tail)
  {
    forall k | 0 <= k < |tail| ensures first.order <= tail[k].order {
      assert tail[k] in multiset(tail);
    }
  }

  /** Ordering a definition sorts it and neither loses nor invents a step. */
  lemma {:induction false} OrderedIsSortedPermutation(steps: seq<Step>)
    ensures Sorted(Ordered(steps)) && multiset(Ordered(steps)) == multiset(steps)
    ensures |Ordered(steps)| == |steps|
  {
    if steps != [] {
      var last, init := steps[|steps| - 1], steps[..|steps| - 1];
      OrderedIsSortedPermutation(init);
      InsertKeepsSorted(last, Ordered(init));
      assert steps == init + [last];
    }
    assert |multiset(Ordered(steps))| == |multiset(steps)|;
  }

  // ---- Resolving a target ----

  /** How the executor finds a route's target: by id, then by name, then as an order number. */
  function Resolve(steps: seq<Step>, target: string): (r: Option<nat>)
    ensures r.Some? ==> r.value < |steps|
  {
    var byId := IndexOf(Ids(steps), target);
    if byId.Some? then byId else
    var byName := IndexOf(Names(steps), target);
    if byName.Some? then byName else
    match ParseInt(target)
    case Some(n) => IndexOf(Orders(steps), n)
    case None => None
  }

  /** How the cycle check reads the same target: it compares order texts instead. */
  function Reference(steps: seq<Step>, target: string): (r: Option<nat>)
    ensures r.Some? ==> r.value < |steps|
  {
    var byId := IndexOf(Ids(steps), target);
    if byId.Some? then byId else
    var byName := IndexOf(Names(steps), target);
    if byName.Some? then byName else IndexOf(OrderTexts(steps), target)
  }

  lemma IntTextInjective(m: int, n: int)
    ensures IntText(m) == IntText(n) ==> m == n
  {
    ParseIntOfIntText(m);
    ParseIntOfIntText(n);
  }

  lemma OrderTextsAgree(steps: seq<Step>, n: int)
    ensures IndexOf(OrderTexts(steps), IntText(n)) == IndexOf(Orders(steps), n)
  {
    var texts, orders := OrderTexts(steps), Orders(steps);
    forall i | 0 <= i < |steps| ensures texts[i] == IntText(n) <==> orders[i] == n {
      IntTextInjective(steps[i].order, n);
    }
    SameHitsSameIndex(texts, IntText(n), orders, n);
  }

  /** A target that is some step's order text resolves alike in both readings. */
  lemma OrderTargetsAgree(steps: seq<Step>, target: string)
    ensures target in OrderTexts(steps) ==>
              ParseInt(target).Some? &&
              IndexOf(OrderTexts(steps), target) == IndexOf(Orders(steps), ParseInt(target).value)
    ensures target !in OrderTexts(steps) && ParseInt(target).Some? && IntText(ParseInt(target).value) == target ==>
              IndexOf(Orders(steps), ParseInt(target).value).None?
  {
    var at := IndexOf(OrderTexts(steps), target);
    if at.Some? {
      ParseIntOfIntText(steps[at.value].order);
      OrderTextsAgree(steps, steps[at.value].order);
    } else if ParseInt(target).Some? {
      OrderTextsAgree(steps, ParseInt(target).value);
    }
  }

  /** The two resolvers agree on every target the cycle check knows. A target that only
      the executor resolves is a spelling of an order number other than its decimal text. */
  lemma ResolversAgree(steps: seq<Step>, target: string)
    ensures Reference(steps, target).Some? ==> Resolve(steps, target) == Reference(steps, target)
    ensures Resolve(steps, target).Some? && Reference(steps, target).None? ==>
              ParseInt(target).Some? && IntText(ParseInt(target).value) != target
  {
    OrderTargetsAgree(steps, target);
  }
}
