/** What a fold asks the model: the text of its request read back as JSON, which rows it is
    about, and when there is a fold at all. */
module SummaryRequests {
  import opened Options
  import opened ContextBudget
  import opened Json
  import opened JsonReader
  import opened SummaryPrompts
  import opened SummaryProtocol
  import opened SummaryLineage

  // ---- The text of a request ----

  function FieldOf(fields: seq<Json.Field>, name: string): Option<Value> {
    if fields == [] then None
    else if fields[0].name == name then Some(fields[0].value) else FieldOf(fields[1..], name)
  }

  predicate TellsRow(v: Value, row: Row) {
    v.Object? && FieldOf(v.fields, "role") == Some(Text(row.role)) && FieldOf(v.fields, "content") == Some(Text(row.content))
  }

  /** Read as JSON, the request names this prior summary and these rows, in order. */
  predicate Asks(request: string, prior: string, rows: seq<Row>) {
    var r := ReadValue(request);
    && r.Got? && r.rest == "" && r.value.Object?
    && FieldOf(r.value.fields, "prior_summary") == Some(Text(prior))
    && var list := FieldOf(r.value.fields, "messages");
       list.Some? && list.value.Array? && |list.value.items| == |rows|
       && forall k :: 0 <= k < |rows| ==> TellsRow(list.value.items[k], rows[k])
  }

  lemma RowIsTold(row: Row)
    ensures TellsRow(RowValue(row), row) && PlainNumbers(RowValue(row))
  {
    var role, content := Json.Field("role", Text(row.role)), Json.Field("content", Text(row.content));
    assert [role, content][1..] == [content];
  }

  lemma PayloadTells(prior: string, rows: seq<Row>)
    ensures var v := Payload(prior, rows);
            && v.Object? && FieldOf(v.fields, "prior_summary") == Some(Text(Truncated(prior, SUMMARY_LIMIT)))
            && FieldOf(v.fields, "messages") == Some(Array(RowValues(rows)))
  {
    var first := Json.Field("prior_summary", Text(Truncated(prior, SUMMARY_LIMIT)));
    var second := Json.Field("messages", Array(RowValues(rows)));
    assert [first, second][1..] == [second];
  }

  lemma PayloadIsPlain(prior: string, rows: seq<Row>)
    ensures PlainNumbers(Payload(prior, rows))
  {
    forall k | 0 <= k < |rows| ensures PlainNumbers(RowValues(rows)[k]) { RowIsTold(rows[k]); }
  }

  /** The request for these rows names the prior summary, within its limit, and every row. */
  lemma RequestNamesAll(prior: string, rows: seq<Row>)
    ensures Asks(Dumps(Payload(prior, rows)), Truncated(prior, SUMMARY_LIMIT), rows)
  {
    PayloadIsPlain(prior, rows);
    DumpsIsReadBack(Payload(prior, rows));
    PayloadTells(prior, rows);
    forall k | 0 <= k < |rows| ensures TellsRow(RowValues(rows)[k], rows[k]) { RowIsTold(rows[k]); }
  }

  /** A text once cut to a limit is not cut again, so a persisted summary is named whole. */
  lemma CutOnce(text: string, limit: nat)
    ensures Truncated(Truncated(text, limit), limit) == Truncated(text, limit)
  {
    TruncationFits(text, limit);
    TruncationFits(Truncated(text, limit), limit);
  }

  /** In every run a request names the persisted summary whole. */
  lemma PersistedIsNamedWhole(pick: Picker, steps: seq<Step>, rows: seq<Row>)
    ensures var prior := PriorText(After(pick, steps).context); Asks(Dumps(Payload(prior, rows)), prior, rows)
  {
    var prior := PriorText(After(pick, steps).context);
    var folds := SummaryIsAChainOfAnswers(pick, steps);
    if folds != [] { CutOnce(folds[|folds| - 1].answer, SUMMARY_LIMIT); }
    RequestNamesAll(prior, rows);
  }

  // ---- The rows of a request ----

  /** The most rows that a fold may take. */
  function Most(f: Fold): int
    requires f.Counted?
  {
    Min(f.total - RECENT_WINDOW - f.context.upto, BATCH_ROWS)
  }

  lemma CandidatesAreNext(s: State, f: Fold)
    requires f.Counted? && FoldSound(s, f) && Most(f) > 0
    ensures f.context.upto + Most(f) <= |s.rows|
    ensures Candidates(s, f) == s.rows[f.context.upto..f.context.upto + Most(f)]
  {
  }

  /** The first of these rows, at least one and as many as one request holds. */
  predicate Fills(cost: seq<Row> -> nat, next: seq<Row>, rows: seq<Row>) {
    && rows != [] && rows <= next && cost(rows) <= INPUT_LIMIT
    && (|rows| < |next| ==> cost(next[..|rows| + 1]) > INPUT_LIMIT)
  }

  lemma CountedRowsFill(cost: seq<Row> -> nat, next: seq<Row>)
    requires next != [] && cost([next[0]]) <= INPUT_LIMIT
    ensures Fills(cost, next, next[..BatchSize(cost, next)])
  {
    BatchStops(cost, next);
  }

  lemma BatchIsCounted(s: State, f: Fold)
    requires f.Counted?
    ensures var c := Candidates(s, f);
            Batch(PickByBudget(), s, f) == c[..BatchSize(RequestCost(PriorText(f.context)), c)]
  {
    SliceIsPrefix(Candidates(s, f), BatchSize(RequestCost(PriorText(f.context)), Candidates(s, f)));
  }

  lemma BatchFills(s: State, f: Fold)
    requires f.Counted? && Candidates(s, f) != []
    ensures Fills(RequestCost(PriorText(f.context)), Candidates(s, f), Batch(PickByBudget(), s, f))
  {
    FirstRowFits(PriorText(f.context), Candidates(s, f)[0]);
    CountedRowsFill(RequestCost(PriorText(f.context)), Candidates(s, f));
    BatchIsCounted(s, f);
  }

  /** A fold takes the next rows, none of them recent: as many as one request holds. */
  lemma FoldTakesWhatFits(s: State, f: Fold)
    requires f.Counted? && FoldSound(s, f) && Most(f) > 0
    ensures f.context.upto + Most(f) <= |s.rows|
    ensures Fills(RequestCost(PriorText(f.context)), s.rows[f.context.upto..f.context.upto + Most(f)], Batch(PickByBudget(), s, f))
  {
    CandidatesAreNext(s, f);
    BatchFills(s, f);
  }

  // ---- Short sessions ----

  ghost predicate Untouched(s: State) {
    |s.rows| < SUMMARY_THRESHOLD ==> s.context == EMPTY.context && forall id :: id in s.folds ==> s.folds[id].Loaded?
  }

  /** No session of fewer rows than the threshold is summarized: its history is all its rows. */
  lemma {:induction false} ShortSessionsAreUntouched(pick: Picker, steps: seq<Step>)
    ensures Untouched(After(pick, steps))
    ensures var s := After(pick, steps); |s.rows| < SUMMARY_THRESHOLD ==> !HasSummary(s.context) && History(s) == s.rows
  {
    if steps != [] { ShortSessionsAreUntouched(pick, steps[..|steps| - 1]); }
  }
}
