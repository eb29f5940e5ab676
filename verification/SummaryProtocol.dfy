/** The rolling summary of a session: folds read, ask the model and persist in separate
    steps, interleaved with each other and with turns that append rows. Only the persist
    step is atomic; it compares the watermark that the fold started from. */
module SummaryProtocol {
  import opened Options
  import opened ContextBudget
  import opened SummaryPrompts

  const SUMMARY_THRESHOLD := 12
  const RECENT_WINDOW := 6

  /** A summary text together with the rows it was made from, which is what it stands for. */
  datatype Summary = Summary(text: string, covers: seq<Row>)

  datatype Context = Context(summary: Option<Summary>, upto: nat)

  /** A fold in flight, by the last step it completed. */
  datatype Fold =
    | Loaded(context: Context)
    | Counted(context: Context, total: nat)
    | Chosen(context: Context, toFold: seq<Row>)
    | Answered(context: Context, toFold: seq<Row>, text: string)

  datatype State = State(rows: seq<Row>, context: Context, folds: map<nat, Fold>)

  datatype Step =
    | Append(row: Row)
    | Load(id: nat) | Count(id: nat) | Choose(id: nat) | Answer(id: nat, text: string) | Persist(id: nat)
    | Abort(id: nat)

  predicate HasSummary(c: Context) {
    c.summary.Some? && c.summary.value.text != ""
  }

  function PriorText(c: Context): string {
    if HasSummary(c) then c.summary.value.text else ""
  }

  /** The rows that the persisted summary stands for. */
  function Covered(c: Context): seq<Row> {
    if HasSummary(c) then c.summary.value.covers else []
  }

  function Drop(s: State, id: nat): State {
    s.(folds := s.folds - {id})
  }

  /** Rows from `offset` on, at most `limit` of them. */
  function Slice(rows: seq<Row>, offset: nat, limit: nat): seq<Row> {
    if offset >= |rows| then []
    else if offset + limit >= |rows| then rows[offset..] else rows[offset..offset + limit]
  }

  lemma SliceIsPrefix(rows: seq<Row>, k: nat)
    requires k <= |rows|
    ensures Slice(rows, 0, k) == rows[..k]
  {
  }

  function Min(a: int, b: int): int {
    if a <= b then a else b
  }

  function Candidates(s: State, f: Fold): seq<Row>
    requires f.Counted?
  {
    var room := f.total - RECENT_WINDOW - f.context.upto;
    Slice(s.rows, f.context.upto, if room < 0 then 0 else Min(room, BATCH_ROWS))
  }

  /** How many leading rows a fold takes, given the prior summary and the candidates. */
  type Picker = (string, seq<Row>) -> nat

  /** A picker takes at least one row when there is one. */
  ghost predicate Picks(pick: Picker) {
    forall prior, rows :: pick(prior, rows) <= |rows| && (rows != [] ==> pick(prior, rows) >= 1)
  }

  /** The picker in use: as many rows as fit one request. */
  function PickByBudget(): Picker {
    (prior: string, rows: seq<Row>) => BatchSize(RequestCost(prior), rows)
  }

  lemma BudgetPicks()
    ensures Picks(PickByBudget())
  {
    forall prior, rows: seq<Row>
      ensures PickByBudget()(prior, rows) <= |rows| && (rows != [] ==> PickByBudget()(prior, rows) >= 1)
    {
      if rows != [] { BatchFits(prior, rows); }
    }
  }

  function Batch(pick: Picker, s: State, f: Fold): seq<Row>
    requires f.Counted?
  {
    Slice(Candidates(s, f), 0, pick(PriorText(f.context), Candidates(s, f)))
  }

  /** Whether a fold that read watermark and row count has anything to do. */
  predicate WorthFolding(total: nat, upto: nat) {
    total >= SUMMARY_THRESHOLD && total > RECENT_WINDOW && total - RECENT_WINDOW > upto
  }

  function Persisted(f: Fold): Context
    requires f.Answered?
  {
    Context(Some(Summary(Truncated(f.text, SUMMARY_LIMIT), Covered(f.context) + f.toFold)), f.context.upto + |f.toFold|)
  }

  /** One step; a step that is not enabled changes nothing. */
  function Next(pick: Picker, s: State, step: Step): State {
    match step
    case Append(row) => s.(rows := s.rows + [row])
    case Load(id) => if id in s.folds then s else s.(folds := s.folds[id := Loaded(s.context)])
    case Count(id) =>
      if id in s.folds && s.folds[id].Loaded? then
        var f := s.folds[id];
        if WorthFolding(|s.rows|, f.context.upto) then s.(folds := s.folds[id := Counted(f.context, |s.rows|)])
        else Drop(s, id)
      else s
    case Choose(id) =>
      if id in s.folds && s.folds[id].Counted? then
        var f := s.folds[id];
        if Batch(pick, s, f) == [] then Drop(s, id)
        else s.(folds := s.folds[id := Chosen(f.context, Batch(pick, s, f))])
      else s
    case Answer(id, text) =>
      if id in s.folds && s.folds[id].Chosen? then
        var f := s.folds[id];
        if text == "" then Drop(s, id) else s.(folds := s.folds[id := Answered(f.context, f.toFold, text)])
      else s
    case Persist(id) =>
      if id in s.folds && s.folds[id].Answered? then
        var f := s.folds[id];
        if s.context.upto != f.context.upto then Drop(s, id)
        else Drop(s, id).(context := Persisted(f))
      else s
    case Abort(id) => Drop(s, id)
  }

  const EMPTY := State([], Context(None, 0), map[])

  function After(pick: Picker, steps: seq<Step>): State {
    if steps == [] then EMPTY else Next(pick, After(pick, steps[..|steps| - 1]), steps[|steps| - 1])
  }

  // ---- The executable form ----

  /** One session's stored rows and context, and its folds in flight. */
  class SessionStore {
    var rows: seq<Row>
    var context: Context
    var folds: map<nat, Fold>

    ghost function View(): State
      reads this
    {
      State(rows, context, folds)
    }

    constructor ()
      ensures View() == EMPTY
    {
      rows, context, folds := [], Context(None, 0), map[];
    }

    method AppendRow(row: Row)
      modifies this
      ensures View() == Next(PickByBudget(), old(View()), Append(row))
    {
      rows := rows + [row];
    }

    method LoadSession(id: nat)
      modifies this
      ensures View() == Next(PickByBudget(), old(View()), Load(id))
    {
      if id !in folds {
        folds := folds[id := Loaded(context)];
      }
    }

    method CountRows(id: nat)
      modifies this
      ensures View() == Next(PickByBudget(), old(View()), Count(id))
    {
      if id in folds && folds[id].Loaded? {
        var c := folds[id].context;
        var total := |rows|;
        if total < SUMMARY_THRESHOLD || total <= RECENT_WINDOW {
          folds := folds - {id};
          return;
        }
        var boundary := total - RECENT_WINDOW;
        if boundary <= c.upto {
          folds := folds - {id};
          return;
        }
        folds := folds[id := Counted(c, total)];
      }
    }

    method ChooseRows(id: nat)
      modifies this
      ensures View() == Next(PickByBudget(), old(View()), Choose(id))
    {
      if id in folds && folds[id].Counted? {
        var c := folds[id].context;
        var candidates := Candidates(State(rows, context, folds), folds[id]);
        var toFold := SelectBatch(PriorText(c), candidates);
        SliceIsPrefix(candidates, BatchSize(RequestCost(PriorText(c)), candidates));
        assert toFold == Batch(PickByBudget(), State(rows, context, folds), folds[id]);
        if toFold == [] {
          folds := folds - {id};
          return;
        }
        folds := folds[id := Chosen(c, toFold)];
      }
    }

    method TakeAnswer(id: nat, text: string)
      modifies this
      ensures View() == Next(PickByBudget(), old(View()), Answer(id, text))
    {
      if id in folds && folds[id].Chosen? {
        if text == "" {
          folds := folds - {id};
          return;
        }
        folds := folds[id := Answered(folds[id].context, folds[id].toFold, text)];
      }
    }

    /** Under the session's lock: the watermark decides whether the result is still current. */
    method PersistFold(id: nat)
      modifies this
      ensures View() == Next(PickByBudget(), old(View()), Persist(id))
    {
      if id in folds && folds[id].Answered? {
        var f := folds[id];
        folds := folds - {id};
        if context.upto != f.context.upto {
          return;
        }
        var text := TruncateText(f.text, SUMMARY_LIMIT);
        context := Context(Some(Summary(text, Covered(f.context) + f.toFold)), f.context.upto + |f.toFold|);
      }
    }

    method AbortFold(id: nat)
      modifies this
      ensures View() == Next(PickByBudget(), old(View()), Abort(id))
    {
      folds := folds - {id};
    }

    /** The rows that a turn sends besides the summary. */
    method ContextHistory() returns (history: seq<Row>)
      ensures history == History(View())
    {
      var boundary := if HasSummary(context) then context.upto else 0;
      history := Slice(rows, boundary, |rows|);
    }
  }

  function History(s: State): seq<Row> {
    Slice(s.rows, if HasSummary(s.context) then s.context.upto else 0, |s.rows|)
  }

  // ---- The invariant ----

  /** The context stands for exactly the first rows, none of them recent. */
  predicate Exact(c: Context, rows: seq<Row>) {
    && (c.upto == 0 || c.upto + RECENT_WINDOW <= |rows|)
    && c.upto <= |rows| && Covered(c) == rows[..c.upto]
    && (c.upto > 0 ==> HasSummary(c))
  }

  predicate FoldSound(s: State, f: Fold) {
    && Exact(f.context, s.rows)
    && f.context.upto <= s.context.upto
    && (f.Counted? ==> f.total <= |s.rows|)
    && (f.Chosen? || f.Answered? ==>
          && f.toFold != []
          && f.context.upto + |f.toFold| + RECENT_WINDOW <= |s.rows|
          && f.toFold == s.rows[f.context.upto..f.context.upto + |f.toFold|])
    && (f.Answered? ==> f.text != "")
  }

  predicate Sound(s: State) {
    Exact(s.context, s.rows) && forall id :: id in s.folds ==> FoldSound(s, s.folds[id])
  }

  lemma AppendKeepsExact(c: Context, rows: seq<Row>, row: Row)
    requires Exact(c, rows)
    ensures Exact(c, rows + [row])
  {
    assert (rows + [row])[..c.upto] == rows[..c.upto];
  }

  lemma AppendKeepsFold(s: State, row: Row, f: Fold)
    requires FoldSound(s, f)
    ensures FoldSound(s.(rows := s.rows + [row]), f)
  {
    AppendKeepsExact(f.context, s.rows, row);
    if f.Chosen? || f.Answered? {
      var a, b := f.context.upto, f.context.upto + |f.toFold|;
      assert (s.rows + [row])[a..b] == s.rows[a..b];
    }
  }

  lemma ChosenIsSound(pick: Picker, s: State, f: Fold)
    requires f.Counted? && FoldSound(s, f) && Batch(pick, s, f) != []
    ensures FoldSound(s, Chosen(f.context, Batch(pick, s, f)))
  {
    var u, batch := f.context.upto, Batch(pick, s, f);
    var room := f.total - RECENT_WINDOW - u;
    assert room >= 0;
    assert Candidates(s, f) == s.rows[u..u + Min(room, BATCH_ROWS)];
    assert batch == s.rows[u..u + |batch|];
  }

  lemma TruncationKeepsSomething(text: string)
    requires text != ""
    ensures Truncated(text, SUMMARY_LIMIT) != ""
  {
  }

  /** A fold that persists extends the summary by the next rows in order. */
  lemma PersistedIsExact(s: State, f: Fold)
    requires f.Answered? && FoldSound(s, f)
    ensures Exact(Persisted(f), s.rows) && Persisted(f).upto > f.context.upto
  {
    TruncationKeepsSomething(f.text);
    var a, b := f.context.upto, f.context.upto + |f.toFold|;
    assert s.rows[..b] == s.rows[..a] + s.rows[a..b];
  }

  lemma FoldsOutliveContext(s: State, c: Context)
    requires Sound(s) && Exact(c, s.rows) && s.context.upto <= c.upto
    ensures Sound(s.(context := c))
  {
    forall id | id in s.folds ensures FoldSound(s.(context := c), s.folds[id]) {
      assert FoldSound(s, s.folds[id]);
    }
  }

  lemma AppendIsSound(s: State, row: Row)
    requires Sound(s)
    ensures Sound(s.(rows := s.rows + [row]))
  {
    AppendKeepsExact(s.context, s.rows, row);
    forall id | id in s.folds ensures FoldSound(s.(rows := s.rows + [row]), s.folds[id]) {
      AppendKeepsFold(s, row, s.folds[id]);
    }
  }

  lemma UpdateIsSound(s: State, id: nat, f: Fold)
    requires Sound(s) && FoldSound(s, f)
    ensures Sound(s.(folds := s.folds[id := f]))
  {
    var after := s.(folds := s.folds[id := f]);
    forall k | k in after.folds ensures FoldSound(after, after.folds[k]) {
      assert k != id ==> FoldSound(s, s.folds[k]);
    }
  }

  lemma DropIsSound(s: State, id: nat)
    requires Sound(s)
    ensures Sound(Drop(s, id))
  {
    forall k | k in s.folds && k != id ensures FoldSound(Drop(s, id), s.folds[k]) {
      assert FoldSound(s, s.folds[k]);
    }
  }

  lemma PersistIsSound(pick: Picker, s: State, id: nat)
    requires Sound(s)
    ensures Sound(Next(pick, s, Persist(id)))
    ensures s.context.upto <= Next(pick, s, Persist(id)).context.upto
    ensures Next(pick, s, Persist(id)).context != s.context ==>
              s.context.upto < Next(pick, s, Persist(id)).context.upto
  {
    if id in s.folds && s.folds[id].Answered? {
      var f := s.folds[id];
      assert FoldSound(s, f);
      DropIsSound(s, id);
      if s.context.upto == f.context.upto {
        PersistedIsExact(s, f);
        FoldsOutliveContext(Drop(s, id), Persisted(f));
      }
    }
  }

  lemma ChooseIsSound(pick: Picker, s: State, id: nat)
    requires Sound(s)
    ensures Sound(Next(pick, s, Choose(id)))
  {
    if id in s.folds && s.folds[id].Counted? {
      var f := s.folds[id];
      assert FoldSound(s, f);
      DropIsSound(s, id);
      if Batch(pick, s, f) != [] {
        ChosenIsSound(pick, s, f);
        UpdateIsSound(s, id, Chosen(f.context, Batch(pick, s, f)));
      }
    }
  }

  lemma ReadingIsSound(pick: Picker, s: State, step: Step)
    requires Sound(s) && (step.Load? || step.Count? || step.Answer?)
    ensures Sound(Next(pick, s, step)) && Next(pick, s, step).context == s.context
  {
    DropIsSound(s, step.id);
    if step.Load? {
      UpdateIsSound(s, step.id, Loaded(s.context));
    } else if step.id in s.folds {
      var f := s.folds[step.id];
      assert FoldSound(s, f);
      UpdateIsSound(s, step.id, Counted(f.context, |s.rows|));
      if f.Chosen? && step.Answer? && step.text != "" {
        UpdateIsSound(s, step.id, Answered(f.context, f.toFold, step.text));
      }
    }
  }

  /** Every step keeps the invariant, never lowers the watermark, and raises it exactly
      when it changes the context. */
  lemma StepIsSound(pick: Picker, s: State, step: Step)
    requires Sound(s)
    ensures Sound(Next(pick, s, step))
    ensures s.context.upto <= Next(pick, s, step).context.upto
    ensures Next(pick, s, step).context != s.context ==> s.context.upto < Next(pick, s, step).context.upto
  {
    match step {
      case Append(row) => AppendIsSound(s, row);
      case Choose(id) => ChooseIsSound(pick, s, id);
      case Persist(id) => PersistIsSound(pick, s, id);
      case Abort(id) => DropIsSound(s, id);
      case _ => ReadingIsSound(pick, s, step);
    }
  }

  lemma {:induction false} RunsAreSound(pick: Picker, steps: seq<Step>)
    ensures Sound(After(pick, steps))
  {
    if steps != [] {
      RunsAreSound(pick, steps[..|steps| - 1]);
      StepIsSound(pick, After(pick, steps[..|steps| - 1]), steps[|steps| - 1]);
    }
  }

  /** After any interleaving of turns and folds the summary stands for exactly the rows
      below the watermark, and the last rows are never folded. */
  lemma SummaryStandsForPrefix(pick: Picker, steps: seq<Step>)
    ensures var s := After(pick, steps);
            && s.context.upto <= |s.rows| && Covered(s.context) == s.rows[..s.context.upto]
            && (s.context.upto == 0 || s.context.upto + RECENT_WINDOW <= |s.rows|)
  {
    RunsAreSound(pick, steps);
  }

  lemma ExactRepresentsAll(s: State)
    requires Exact(s.context, s.rows)
    ensures Covered(s.context) + History(s) == s.rows
  {
    assert s.rows == s.rows[..s.context.upto] + s.rows[s.context.upto..];
  }

  /** Summary and history together represent every row exactly once, in order. */
  lemma EachRowOnce(pick: Picker, steps: seq<Step>)
    ensures Covered(After(pick, steps).context) + History(After(pick, steps)) == After(pick, steps).rows
  {
    RunsAreSound(pick, steps);
    ExactRepresentsAll(After(pick, steps));
  }

  /** The watermark never falls over the course of a run. */
  lemma {:induction false} WatermarkNeverFalls(pick: Picker, steps: seq<Step>, k: nat)
    requires k <= |steps|
    ensures After(pick, steps[..k]).context.upto <= After(pick, steps).context.upto
    decreases |steps| - k
  {
    if k == |steps| {
      assert steps[..k] == steps;
    } else {
      RunsAreSound(pick, steps[..k]);
      StepIsSound(pick, After(pick, steps[..k]), steps[k]);
      assert steps[..k + 1][..k] == steps[..k];
      WatermarkNeverFalls(pick, steps, k + 1);
    }
  }

  // ---- Folds that run one at a time ----

  /** Every fold starts when no other is in flight, as one process's scheduler sees to. */
  ghost predicate Deduplicated(pick: Picker, steps: seq<Step>) {
    forall k :: 0 <= k < |steps| && steps[k].Load? ==> After(pick, steps[..k]).folds == map[]
  }

  /** Then at most one fold is in flight, and its result is never stale. */
  lemma {:induction false} DeduplicatedFoldsAreCurrent(pick: Picker, steps: seq<Step>)
    requires Deduplicated(pick, steps)
    ensures forall a, b :: a in After(pick, steps).folds && b in After(pick, steps).folds ==> a == b
    ensures forall a :: a in After(pick, steps).folds ==> After(pick, steps).folds[a].context == After(pick, steps).context
  {
    if steps != [] {
      var init, last := steps[..|steps| - 1], steps[|steps| - 1];
      forall k | 0 <= k < |init| && init[k].Load? ensures After(pick, init[..k]).folds == map[] {
        assert init[..k] == steps[..k] && steps[k].Load?;
      }
      DeduplicatedFoldsAreCurrent(pick, init);
    }
  }

  // ---- Catching up ----

  /** One fold from start to finish without interference. */
  function SoloFold(pick: Picker, s: State, id: nat, text: string): State {
    Next(pick, Next(pick, Next(pick, Next(pick, Next(pick, s, Load(id)), Count(id)), Choose(id)), Answer(id, text)), Persist(id))
  }

  lemma SoloChoice(pick: Picker, s: State, id: nat)
    requires Picks(pick) && Sound(s) && id !in s.folds && WorthFolding(|s.rows|, s.context.upto)
    ensures var f := Counted(s.context, |s.rows|);
            && Batch(pick, s, f) != []
            && Next(pick, Next(pick, Next(pick, s, Load(id)), Count(id)), Choose(id))
               == s.(folds := s.folds[id := Chosen(s.context, Batch(pick, s, f))])
  {
    var counted := Next(pick, Next(pick, s, Load(id)), Count(id));
    var f := Counted(s.context, |s.rows|);
    assert counted == s.(folds := s.folds[id := f]);
    assert Candidates(counted, f) == Candidates(s, f) && Candidates(s, f) != [];
  }

  lemma SoloFoldPersists(pick: Picker, s: State, id: nat, text: string)
    requires Picks(pick) && Sound(s) && id !in s.folds && WorthFolding(|s.rows|, s.context.upto) && text != ""
    ensures var g := Answered(s.context, Batch(pick, s, Counted(s.context, |s.rows|)), text);
            SoloFold(pick, s, id, text) == s.(context := Persisted(g))
  {
    SoloChoice(pick, s, id);
    var f := Counted(s.context, |s.rows|);
    var chosen := s.(folds := s.folds[id := Chosen(s.context, Batch(pick, s, f))]);
    var g := Answered(s.context, Batch(pick, s, f), text);
    assert Next(pick, chosen, Answer(id, text)) == s.(folds := s.folds[id := g]);
  }

  /** An undisturbed fold that gets an answer folds at least one more row. */
  lemma SoloFoldProgresses(pick: Picker, s: State, id: nat, text: string)
    requires Picks(pick) && Sound(s) && id !in s.folds && WorthFolding(|s.rows|, s.context.upto) && text != ""
    ensures var s' := SoloFold(pick, s, id, text);
            Sound(s') && s'.rows == s.rows && s'.folds == s.folds && s'.context.upto > s.context.upto
  {
    SoloFoldPersists(pick, s, id, text);
    SoloChoice(pick, s, id);
    var f := Counted(s.context, |s.rows|);
    assert FoldSound(s, f);
    ChosenIsSound(pick, s, f);
    var g := Answered(s.context, Batch(pick, s, f), text);
    PersistedIsExact(s, g);
    FoldsOutliveContext(s, Persisted(g));
  }

  function Repeated(fold: State -> State, s: State, n: nat): State
    decreases n
  {
    if n == 0 then s else Repeated(fold, fold(s), n - 1)
  }

  function SoloFolds(pick: Picker, s: State, id: nat, text: string, n: nat): State {
    Repeated((t: State) => SoloFold(pick, t, id, text), s, n)
  }

  lemma SoloFoldSettles(pick: Picker, s: State, id: nat, text: string)
    requires id !in s.folds && !WorthFolding(|s.rows|, s.context.upto)
    ensures SoloFold(pick, s, id, text) == s
  {
    var loaded := Next(pick, s, Load(id));
    assert Next(pick, loaded, Count(id)) == s;
  }

  /** A fold moves the watermark on while that is worth it, and else changes nothing. */
  ghost predicate Advances(fold: State -> State, id: nat) {
    forall s: State :: Sound(s) && id !in s.folds ==>
      if WorthFolding(|s.rows|, s.context.upto) then Progressed(s, fold(s)) else fold(s) == s
  }

  ghost predicate Progressed(s: State, t: State) {
    Sound(t) && t.rows == s.rows && t.folds == s.folds && t.context.upto > s.context.upto
  }

  lemma {:induction false} RepeatedCatchUp(fold: State -> State, s: State, id: nat, n: nat)
    requires Advances(fold, id) && Sound(s) && id !in s.folds && n + s.context.upto >= |s.rows| - RECENT_WINDOW
    requires |s.rows| >= SUMMARY_THRESHOLD
    ensures Repeated(fold, s, n).context.upto == |s.rows| - RECENT_WINDOW
    decreases n
  {
    if n > 0 { RepeatedCatchUp(fold, fold(s), id, n - 1); }
  }

  /** As many undisturbed folds as there are rows reach everything but the recent window. */
  lemma SoloFoldsCatchUp(pick: Picker, s: State, id: nat, text: string, n: nat)
    requires Picks(pick) && Sound(s) && id !in s.folds && text != "" && n + s.context.upto >= |s.rows|
    requires |s.rows| >= SUMMARY_THRESHOLD
    ensures SoloFolds(pick, s, id, text, n).context.upto == |s.rows| - RECENT_WINDOW
  {
    var fold := (t: State) => SoloFold(pick, t, id, text);
    forall t: State | Sound(t) && id !in t.folds
      ensures if WorthFolding(|t.rows|, t.context.upto) then Progressed(t, fold(t)) else fold(t) == t
    {
      if WorthFolding(|t.rows|, t.context.upto) {
        SoloFoldProgresses(pick, t, id, text);
      } else {
        SoloFoldSettles(pick, t, id, text);
      }
    }
    RepeatedCatchUp(fold, s, id, n);
  }
}
