/** Where the text of a summary comes from: over every run it is the answer to the fold whose
    rows end at the watermark, asked with the summary of the rows below its own and with
    exactly the rows from there on. */
module SummaryLineage {
  import opened Options
  import opened ContextBudget
  import opened SummaryPrompts
  import opened SummaryProtocol

  /** The state after the first n steps of a run. */
  function At(pick: Picker, steps: seq<Step>, n: nat): State
    requires n <= |steps|
  {
    After(pick, steps[..n])
  }

  /** The step at position a answers a fold that is waiting for the model. */
  predicate Answers(pick: Picker, steps: seq<Step>, a: nat) {
    && a < |steps| && steps[a].Answer? && steps[a].text != ""
    && steps[a].id in At(pick, steps, a).folds && At(pick, steps, a).folds[steps[a].id].Chosen?
  }

  /** What the model was asked with when it gave that answer. */
  function Asked(pick: Picker, steps: seq<Step>, a: nat): (f: Fold)
    requires Answers(pick, steps, a)
    ensures f.Chosen?
  {
    At(pick, steps, a).folds[steps[a].id]
  }

  /** The context holds the answer given at a, truncated, and its watermark is where the rows
      asked about, which follow the watermark asked with, end. */
  predicate HoldsAnswer(pick: Picker, steps: seq<Step>, a: nat, c: Context)
    requires Answers(pick, steps, a)
  {
    var f, rows := Asked(pick, steps, a), At(pick, steps, a).rows;
    && c.summary.Some? && c.summary.value.text == Truncated(steps[a].text, SUMMARY_LIMIT)
    && c.upto == f.context.upto + |f.toFold| <= |rows|
    && f.toFold == rows[f.context.upto..c.upto]
  }

  /** The context has no summary, or one that holds an answer given before step n to a fold
      that was asked with such a context in turn. */
  ghost predicate HasLineage(pick: Picker, steps: seq<Step>, n: nat, c: Context)
    decreases n
  {
    (c.summary.None? && c.upto == 0)
    || exists a :: 0 <= a < n && Answers(pick, steps, a) && HoldsAnswer(pick, steps, a, c)
         && HasLineage(pick, steps, a, Asked(pick, steps, a).context)
  }

  /** The fold's answer is the one given at a, to this fold as it is. */
  ghost predicate WasAnswered(pick: Picker, steps: seq<Step>, a: nat, f: Fold)
    requires f.Answered?
  {
    && Answers(pick, steps, a) && Asked(pick, steps, a) == Chosen(f.context, f.toFold)
    && steps[a].text == f.text && HasLineage(pick, steps, a, f.context)
  }

  ghost predicate FoldTraced(pick: Picker, steps: seq<Step>, n: nat, f: Fold) {
    && HasLineage(pick, steps, n, f.context)
    && (f.Answered? ==> exists a :: 0 <= a < n && WasAnswered(pick, steps, a, f))
  }

  ghost predicate Traced(pick: Picker, steps: seq<Step>, n: nat, s: State) {
    HasLineage(pick, steps, n, s.context) && forall id :: id in s.folds ==> FoldTraced(pick, steps, n, s.folds[id])
  }

  lemma LineageLasts(pick: Picker, steps: seq<Step>, n: nat, c: Context)
    requires HasLineage(pick, steps, n, c)
    ensures HasLineage(pick, steps, n + 1, c)
  {
  }

  lemma FoldStaysTraced(pick: Picker, steps: seq<Step>, n: nat, f: Fold)
    requires FoldTraced(pick, steps, n, f)
    ensures FoldTraced(pick, steps, n + 1, f)
  {
    LineageLasts(pick, steps, n, f.context);
  }

  lemma StaysTraced(pick: Picker, steps: seq<Step>, n: nat, s: State)
    requires Traced(pick, steps, n, s)
    ensures Traced(pick, steps, n + 1, s)
  {
    LineageLasts(pick, steps, n, s.context);
    forall id | id in s.folds ensures FoldTraced(pick, steps, n + 1, s.folds[id]) {
      FoldStaysTraced(pick, steps, n, s.folds[id]);
    }
  }

  /** A fold that stored its answer leaves a context that holds it. */
  lemma PersistedHoldsAnswer(pick: Picker, steps: seq<Step>, a: nat, f: Fold)
    requires f.Answered? && WasAnswered(pick, steps, a, f)
    ensures HoldsAnswer(pick, steps, a, Persisted(f))
  {
    RunsAreSound(pick, steps[..a]);
    assert FoldSound(At(pick, steps, a), Asked(pick, steps, a));
  }

  lemma PersistingIsTraced(pick: Picker, steps: seq<Step>, n: nat, f: Fold)
    requires f.Answered? && FoldTraced(pick, steps, n, f)
    ensures HasLineage(pick, steps, n, Persisted(f))
  {
    var a :| 0 <= a < n && WasAnswered(pick, steps, a, f);
    PersistedHoldsAnswer(pick, steps, a, f);
    assert HasLineage(pick, steps, a, Asked(pick, steps, a).context);
  }

  lemma AnsweringIsTraced(pick: Picker, steps: seq<Step>, n: nat, s: State)
    requires n < |steps| && s == At(pick, steps, n) && Traced(pick, steps, n, s) && Answers(pick, steps, n)
    ensures var f := s.folds[steps[n].id]; FoldTraced(pick, steps, n + 1, Answered(f.context, f.toFold, steps[n].text))
  {
    var f := s.folds[steps[n].id];
    assert FoldTraced(pick, steps, n, f);
    LineageLasts(pick, steps, n, f.context);
    assert WasAnswered(pick, steps, n, Answered(f.context, f.toFold, steps[n].text));
  }

  lemma UpdateStaysTraced(pick: Picker, steps: seq<Step>, n: nat, s: State, id: nat, f: Fold)
    requires Traced(pick, steps, n, s) && FoldTraced(pick, steps, n, f)
    ensures Traced(pick, steps, n, s.(folds := s.folds[id := f]))
  {
  }

  lemma DropStaysTraced(pick: Picker, steps: seq<Step>, n: nat, s: State, id: nat)
    requires Traced(pick, steps, n, s)
    ensures Traced(pick, steps, n, Drop(s, id))
  {
  }

  /** A step that reads, chooses or stores: the fold it works on is traced already. */
  lemma WorkIsTraced(pick: Picker, steps: seq<Step>, n: nat, s: State, step: Step)
    requires Traced(pick, steps, n, s) && (step.Count? || step.Choose? || step.Persist?)
    ensures Traced(pick, steps, n, Next(pick, s, step))
  {
    if step.id in s.folds {
      var f := s.folds[step.id];
      assert FoldTraced(pick, steps, n, f);
      DropStaysTraced(pick, steps, n, s, step.id);
      match step {
        case Count(id) => UpdateStaysTraced(pick, steps, n, s, id, Counted(f.context, |s.rows|));
        case Choose(id) =>
          if f.Counted? { UpdateStaysTraced(pick, steps, n, s, id, Chosen(f.context, Batch(pick, s, f))); }
        case Persist(id) =>
          if f.Answered? { PersistingIsTraced(pick, steps, n, f); }
      }
    }
  }

  lemma StepIsTraced(pick: Picker, steps: seq<Step>, n: nat, s: State)
    requires n < |steps| && s == At(pick, steps, n) && Traced(pick, steps, n, s)
    ensures Traced(pick, steps, n + 1, Next(pick, s, steps[n]))
  {
    StaysTraced(pick, steps, n, s);
    match steps[n] {
      case Append(row) =>
      case Load(id) => UpdateStaysTraced(pick, steps, n + 1, s, id, Loaded(s.context));
      case Abort(id) => DropStaysTraced(pick, steps, n + 1, s, id);
      case Answer(id, text) =>
        DropStaysTraced(pick, steps, n + 1, s, id);
        if Answers(pick, steps, n) {
          AnsweringIsTraced(pick, steps, n, s);
          UpdateStaysTraced(pick, steps, n + 1, s, id, Answered(s.folds[id].context, s.folds[id].toFold, text));
        }
      case _ => WorkIsTraced(pick, steps, n + 1, s, steps[n]);
    }
  }

  lemma {:induction false} RunsAreTraced(pick: Picker, steps: seq<Step>, n: nat)
    requires n <= |steps|
    ensures Traced(pick, steps, n, At(pick, steps, n))
  {
    if n > 0 {
      RunsAreTraced(pick, steps, n - 1);
      StepIsTraced(pick, steps, n - 1, At(pick, steps, n - 1));
      assert steps[..n][..n - 1] == steps[..n - 1];
    }
  }

  /** The rows of a run only grow. */
  lemma {:induction false} RowsOnlyGrow(pick: Picker, steps: seq<Step>, n: nat)
    requires n <= |steps|
    ensures At(pick, steps, n).rows <= After(pick, steps).rows
    decreases |steps| - n
  {
    if n == |steps| {
      assert steps[..n] == steps;
    } else {
      assert steps[..n + 1][..n] == steps[..n];
      RowsOnlyGrow(pick, steps, n + 1);
    }
  }

  /** What was asked about are the rows of the run from one watermark to the other. */
  lemma AskedAboutNextRows(pick: Picker, steps: seq<Step>, a: nat, c: Context)
    requires Answers(pick, steps, a) && HoldsAnswer(pick, steps, a, c)
    ensures var f, rows := Asked(pick, steps, a), After(pick, steps).rows;
            f.context.upto + |f.toFold| == c.upto <= |rows| && f.toFold == rows[f.context.upto..c.upto]
  {
    RowsOnlyGrow(pick, steps, a);
    SlicesOfPrefix(At(pick, steps, a).rows, After(pick, steps).rows, Asked(pick, steps, a).context.upto, c.upto);
  }

  lemma SlicesOfPrefix(a: seq<Row>, b: seq<Row>, i: nat, j: nat)
    requires a <= b && i <= j <= |a|
    ensures a[i..j] == b[i..j]
  {
  }

  /** In every run a persisted summary is an answer given in it, truncated, to a fold that was
      asked with the context of its own watermark, whose text is an answer in turn, and with
      exactly the rows of the run from there to the watermark. */
  lemma SummaryIsTheAnswer(pick: Picker, steps: seq<Step>) returns (a: nat)
    requires After(pick, steps).context.summary.Some?
    ensures Answers(pick, steps, a) && HasLineage(pick, steps, a, Asked(pick, steps, a).context)
    ensures var f, s := Asked(pick, steps, a), After(pick, steps);
            && s.context.summary.value.text == Truncated(steps[a].text, SUMMARY_LIMIT)
            && f.context.upto <= s.context.upto <= |s.rows| && f.toFold == s.rows[f.context.upto..s.context.upto]
  {
    RunsAreTraced(pick, steps, |steps|);
    assert steps[..|steps|] == steps;
    var c := After(pick, steps).context;
    a :| 0 <= a < |steps| && Answers(pick, steps, a) && HoldsAnswer(pick, steps, a, c)
      && HasLineage(pick, steps, a, Asked(pick, steps, a).context);
    AskedAboutNextRows(pick, steps, a, c);
  }

  // ---- The whole lineage ----

  /** One fold that counts towards the summary: the prior text and the rows it was asked with,
      and the answer. */
  datatype Folded = Folded(prior: string, rows: seq<Row>, answer: string)

  function RowsOf(folds: seq<Folded>): seq<Row> {
    if folds == [] then [] else RowsOf(folds[..|folds| - 1]) + folds[|folds| - 1].rows
  }

  function TextOf(folds: seq<Folded>): string {
    if folds == [] then "" else Truncated(folds[|folds| - 1].answer, SUMMARY_LIMIT)
  }

  /** Each fold was asked with the text the one before it left. */
  predicate Chained(folds: seq<Folded>) {
    folds == [] || (Chained(folds[..|folds| - 1]) && folds[|folds| - 1].prior == TextOf(folds[..|folds| - 1]))
  }

  lemma ChainGrows(earlier: seq<Folded>, last: Folded)
    requires Chained(earlier) && last.prior == TextOf(earlier)
    ensures var folds := earlier + [last];
            && Chained(folds) && TextOf(folds) == Truncated(last.answer, SUMMARY_LIMIT)
            && RowsOf(folds) == RowsOf(earlier) + last.rows
  {
    assert (earlier + [last])[..|earlier|] == earlier;
  }

  /** The fold that was answered at a. */
  function FoldedAt(pick: Picker, steps: seq<Step>, a: nat): Folded
    requires Answers(pick, steps, a)
  {
    Folded(PriorText(Asked(pick, steps, a).context), Asked(pick, steps, a).toFold, steps[a].text)
  }

  /** Every fold of the list was answered in the run. */
  ghost predicate Happened(pick: Picker, steps: seq<Step>, folds: seq<Folded>) {
    forall g :: g in folds ==> exists a :: 0 <= a < |steps| && Answers(pick, steps, a) && FoldedAt(pick, steps, a) == g
  }

  lemma HappenedGrows(pick: Picker, steps: seq<Step>, earlier: seq<Folded>, a: nat)
    requires Happened(pick, steps, earlier) && Answers(pick, steps, a)
    ensures Happened(pick, steps, earlier + [FoldedAt(pick, steps, a)])
  {
  }

  /** The folds a lineage consists of. */
  lemma {:induction false} LineageIsAChain(pick: Picker, steps: seq<Step>, n: nat, c: Context) returns (folds: seq<Folded>)
    requires HasLineage(pick, steps, n, c) && n <= |steps|
    ensures Chained(folds) && Happened(pick, steps, folds) && PriorText(c) == TextOf(folds)
    ensures c.upto <= |After(pick, steps).rows| && RowsOf(folds) == After(pick, steps).rows[..c.upto]
    decreases n
  {
    folds := [];
    if !(c.summary.None? && c.upto == 0) {
      var a :| 0 <= a < n && Answers(pick, steps, a) && HoldsAnswer(pick, steps, a, c)
        && HasLineage(pick, steps, a, Asked(pick, steps, a).context);
      var earlier := LineageIsAChain(pick, steps, a, Asked(pick, steps, a).context);
      AskedAboutNextRows(pick, steps, a, c);
      ChainGrows(earlier, FoldedAt(pick, steps, a));
      HappenedGrows(pick, steps, earlier, a);
      folds := earlier + [FoldedAt(pick, steps, a)];
      PrefixGrows(After(pick, steps).rows, Asked(pick, steps, a).context.upto, c.upto);
    }
  }

  lemma PrefixGrows(rows: seq<Row>, i: nat, j: nat)
    requires i <= j <= |rows|
    ensures rows[..i] + rows[i..j] == rows[..j]
  {
  }

  /** In every run the summary is the last of a chain of answers given in that run, each with
      the one before it, truncated, as prior summary, and together about exactly the rows
      below the watermark, each once and in order. */
  lemma SummaryIsAChainOfAnswers(pick: Picker, steps: seq<Step>) returns (folds: seq<Folded>)
    ensures var s := After(pick, steps);
            && Chained(folds) && Happened(pick, steps, folds) && PriorText(s.context) == TextOf(folds)
            && s.context.upto <= |s.rows| && RowsOf(folds) == s.rows[..s.context.upto]
  {
    RunsAreTraced(pick, steps, |steps|);
    assert steps[..|steps|] == steps;
    folds := LineageIsAChain(pick, steps, |steps|, After(pick, steps).context);
  }
}
