/** Semantic choices: which provider answers count, and which of those are accepted. */
module Decisions {
  import opened Options
  import opened Workflows

  datatype Answer = Answer(
    model: string, kind: string, choice: string, confidence: real, probabilities: map<string, real>)

  function Abs(x: real): real {
    if x < 0.0 then -x else x
  }

  predicate IsProbability(x: real) {
    0.0 <= x <= 1.0
  }

  function Total(choices: seq<string>, p: map<string, real>): real
    requires forall c :: c in choices ==> c in p
  {
    if choices == [] then 0.0 else p[choices[0]] + Total(choices[1..], p)
  }

  predicate Dominates(c: string, p: map<string, real>)
    requires c in p
  {
    forall d :: d in p ==> p[d] <= p[c]
  }

  /** The answer if it is a complete distribution over the configured choices with
      its choice at the maximum; None stands for an unavailable decision. */
  function ParseChoice(a: Answer, config: DecisionConfig): Option<Answer> {
    if && 0 < |a.model| <= 128 && a.kind == "choice"
       && a.choice in config.choices
       && a.probabilities.Keys == (set c | c in config.choices)
       && (forall c :: c in a.probabilities ==> IsProbability(a.probabilities[c]))
       && Abs(Total(config.choices, a.probabilities) - 1.0) <= 0.001
       && Dominates(a.choice, a.probabilities)
       && IsProbability(a.confidence)
    then Some(a) else None
  }

  predicate Accepted(a: Answer, config: DecisionConfig) {
    && a.choice != "other"
    && a.confidence >= config.minConfidence
    && a.choice in a.probabilities && a.probabilities[a.choice] >= config.minProbability
  }

  lemma {:induction false} TotalBoundsMember(choices: seq<string>, p: map<string, real>, c: string)
    requires forall x :: x in choices ==> x in p && 0.0 <= p[x]
    ensures 0.0 <= Total(choices, p)
    ensures c in choices ==> p[c] <= Total(choices, p)
  {
    if choices != [] {
      TotalBoundsMember(choices[1..], p, c);
    }
  }

  lemma {:induction false} TotalBoundsPair(choices: seq<string>, p: map<string, real>, c: string, d: string)
    requires forall x :: x in choices ==> x in p && 0.0 <= p[x]
    requires c in choices && d in choices && c != d
    ensures p[c] + p[d] <= Total(choices, p)
  {
    TotalBoundsMember(choices[1..], p, c);
    TotalBoundsMember(choices[1..], p, d);
    if choices[0] != c && choices[0] != d {
      TotalBoundsPair(choices[1..], p, c, d);
    }
  }

  /** An accepted answer names a configured choice other than "other" that no choice beats;
      once the required probability passes one half (and the tolerance), it is the only
      choice that could have been accepted. */
  lemma AcceptedChoiceIsDecisive(a: Answer, config: DecisionConfig, d: string)
    requires ParseChoice(a, config).Some? && Accepted(a, config)
    requires d in config.choices && d != a.choice
    ensures a.choice in config.choices && a.choice != "other"
    ensures a.probabilities[d] <= a.probabilities[a.choice]
    ensures config.minProbability > 0.5005 ==> a.probabilities[d] < config.minProbability
  {
    TotalBoundsPair(config.choices, a.probabilities, a.choice, d);
  }
}
