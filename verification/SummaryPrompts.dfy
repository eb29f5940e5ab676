/** The request that folds message rows into a summary: how a row that is too large is
    shrunk, and how many rows are folded at once. */
module SummaryPrompts {
  import opened ContextBudget
  import opened Json

  datatype MessageRow = MessageRow(role: string, content: string)

  /** A stored message; the role column holds at most 16 characters. */
  type Row = m: MessageRow | |m.role| <= 16 witness MessageRow("", "")

  const INPUT_LIMIT := 6000
  const SUMMARY_LIMIT := 800
  const BATCH_ROWS := 100

  /** The estimate of the fixed instruction, 348 narrow characters long. */
  const INSTRUCTION_TOKENS := 87

  function RowValue(row: Row): Value {
    Object([Field("role", Text(row.role)), Field("content", Text(row.content))])
  }

  function RowValues(rows: seq<Row>): seq<Value> {
    seq(|rows|, k requires 0 <= k < |rows| => RowValue(rows[k]))
  }

  function Payload(prior: string, rows: seq<Row>): Value {
    Object([Field("prior_summary", Text(Truncated(prior, SUMMARY_LIMIT))), Field("messages", Array(RowValues(rows)))])
  }

  /** The estimate of the instruction and the payload, as two messages. */
  function PromptTokens(prior: string, rows: seq<Row>): nat {
    INSTRUCTION_TOKENS + 4 + EstimateTokens(Dumps(Payload(prior, rows))) + 4
  }

  // ---- What an empty row costs ----

  lemma {:induction false} EscapedLength(s: string)
    ensures |Escaped(s)| <= 6 * |s|
  {
    if s != "" { EscapedLength(s[..|s| - 1]); }
  }

  lemma EstimateAtMostLength(s: string)
    ensures EstimateTokens(s) <= |s|
  {
  }

  lemma EstimateThree(a: string, b: string, c: string)
    ensures EstimateTokens(a + b + c) <= |a| + EstimateTokens(b) + |c|
  {
    EstimateAppend(a, b);
    EstimateAppend(a + b, c);
    EstimateAtMostLength(a);
    EstimateAtMostLength(c);
  }

  lemma QuotedCost(s: string)
    ensures EstimateTokens(Quoted(s)) <= 2 + 6 * EstimateTokens(s)
    ensures |Quoted(s)| <= 2 + 6 * |s|
  {
    EscapingCostsAtMostSixfold(s);
    EscapedLength(s);
    EstimateThree("\"", Escaped(s), "\"");
  }

  lemma OneItemCost(v: Value)
    ensures EstimateTokens(Dumps(Array([v]))) <= 2 + EstimateTokens(Dumps(v))
  {
    assert DumpItems([v], 0) == Dumps(v);
    EstimateThree("[", Dumps(v), "]");
  }

  lemma TwoFieldsText(a: Field, b: Field)
    ensures Dumps(Object([a, b])) ==
            ("{" + Quoted(a.name) + ": ") + Dumps(a.value) + (", " + Quoted(b.name) + ": ") + Dumps(b.value) + "}"
  {
    SecondFieldText([a, b]);
  }

  lemma SecondFieldText(fields: seq<Field>)
    requires |fields| == 2
    ensures DumpFields(fields, 1) == ", " + Quoted(fields[1].name) + ": " + Dumps(fields[1].value)
  {
    assert DumpFields(fields, 2) == "";
  }

  lemma TwoFieldsCost(a: Field, b: Field)
    ensures EstimateTokens(Dumps(Object([a, b]))) <=
            EstimateTokens(Dumps(a.value)) + EstimateTokens(Dumps(b.value)) + 6 * (|a.name| + |b.name|) + 12
  {
    TwoFieldsText(a, b);
    QuotedCost(a.name);
    QuotedCost(b.name);
    var left := "{" + Quoted(a.name) + ": ";
    var mid := ", " + Quoted(b.name) + ": ";
    EstimateThree(left, Dumps(a.value), mid);
    EstimateAppend(left + Dumps(a.value) + mid, Dumps(b.value));
    EstimateAppend(left + Dumps(a.value) + mid + Dumps(b.value), "}");
    EstimateAtMostLength("}");
  }

  /** Any prior summary leaves room for a row whose content is empty. */
  lemma EmptyRowFits(prior: string, role: string)
    requires |role| <= 16
    ensures PromptTokens(prior, [MessageRow(role, "")]) <= INPUT_LIMIT
  {
    var row, kept := MessageRow(role, ""), Truncated(prior, SUMMARY_LIMIT);
    TruncationFits(prior, SUMMARY_LIMIT);
    QuotedCost(kept);
    QuotedCost(role);
    QuotedCost("");
    EstimateAtMostLength(role);
    EstimateAtMostLength("");
    TwoFieldsCost(Field("role", Text(role)), Field("content", Text("")));
    OneItemCost(RowValue(row));
    assert RowValues([row]) == [RowValue(row)];
    TwoFieldsCost(Field("prior_summary", Text(kept)), Field("messages", Array([RowValue(row)])));
  }

  // ---- Shrinking a single row ----

  function CutTo(prior: string, row: Row): int {
    Max(0, EstimateTokens(row.content) - Max(PromptTokens(prior, [row]) - INPUT_LIMIT, 32))
  }

  /** Each cut lowers the estimate of the content. */
  lemma CutDescends(prior: string, row: Row)
    requires PromptTokens(prior, [row]) > INPUT_LIMIT
    ensures EstimateTokens(Truncated(row.content, CutTo(prior, row))) < EstimateTokens(row.content)
  {
    EstimateZero(row.content);
    EmptyRowFits(prior, row.role);
    TruncationFits(row.content, CutTo(prior, row));
  }

  function Shrunk(prior: string, row: Row): (r: Row)
    ensures r.role == row.role && PromptTokens(prior, [r]) <= INPUT_LIMIT
    ensures PromptTokens(prior, [row]) <= INPUT_LIMIT ==> r == row
    decreases EstimateTokens(row.content)
  {
    if PromptTokens(prior, [row]) <= INPUT_LIMIT then row
    else
      CutDescends(prior, row);
      Shrunk(prior, row.(content := Truncated(row.content, CutTo(prior, row))))
  }

  /** The rows of a request: a single row is shrunk until the request fits, several are not. */
  function PromptRows(prior: string, rows: seq<Row>): seq<Row>
  {
    if |rows| == 1 then [Shrunk(prior, rows[0])] else rows
  }

  /** The shrinking loop ends for every row and prior summary, within the input limit. */
  method SummaryPrompt(prior: string, rows: seq<Row>) returns (sent: seq<Row>)
    ensures sent == PromptRows(prior, rows)
    ensures |rows| == 1 ==> PromptTokens(prior, sent) <= INPUT_LIMIT
  {
    sent := rows;
    if |rows| == 1 {
      var row: Row := rows[0];
      while PromptTokens(prior, [row]) > INPUT_LIMIT
        invariant Shrunk(prior, row) == Shrunk(prior, rows[0])
        decreases EstimateTokens(row.content)
      {
        CutDescends(prior, row);
        var content := TruncateText(row.content, CutTo(prior, row));
        row := row.(content := content);
      }
      sent := [row];
    }
  }

  /** What the shrinking keeps of a row's content: a prefix, perhaps with the marker,
      possibly cut again. */
  lemma {:induction false} ShrunkOnlyCuts(prior: string, row: Row)
    ensures EstimateTokens(Shrunk(prior, row).content) <= EstimateTokens(row.content)
    decreases EstimateTokens(row.content)
  {
    if PromptTokens(prior, [row]) > INPUT_LIMIT {
      CutDescends(prior, row);
      ShrunkOnlyCuts(prior, row.(content := Truncated(row.content, CutTo(prior, row))));
    }
  }

  // ---- Choosing a batch ----

  function RequestTokens(prior: string, rows: seq<Row>): nat
  {
    PromptTokens(prior, PromptRows(prior, rows))
  }

  /** How far one can count up from n while the next number passes. */
  function CountWhile(fits: nat -> bool, n: nat, hi: nat): (k: nat)
    requires n <= hi
    ensures n <= k <= hi
    decreases hi - n
  {
    if n < hi && fits(n + 1) then CountWhile(fits, n + 1, hi) else n
  }

  lemma {:induction false} CountStops(fits: nat -> bool, n: nat, hi: nat)
    requires n <= hi && fits(n)
    ensures var k := CountWhile(fits, n, hi); fits(k) && (k < hi ==> !fits(k + 1))
    decreases hi - n
  {
    if n < hi && fits(n + 1) { CountStops(fits, n + 1, hi); }
  }

  /** Whether the first k rows fit, by a given cost. */
  function FitsUpTo(cost: seq<Row> -> nat, candidates: seq<Row>): nat -> bool {
    (k: nat) => k <= |candidates| && cost(candidates[..k]) <= INPUT_LIMIT
  }

  /** The number of leading rows that one request takes: as many as fit, one at a time. */
  function BatchSize(cost: seq<Row> -> nat, candidates: seq<Row>): (k: nat)
    ensures k <= |candidates|
  {
    CountWhile(FitsUpTo(cost, candidates), 0, |candidates|)
  }

  function RequestCost(prior: string): seq<Row> -> nat {
    (rows: seq<Row>) => RequestTokens(prior, rows)
  }

  lemma FirstRowFits(prior: string, row: Row)
    ensures RequestTokens(prior, [row]) <= INPUT_LIMIT
  {
  }

  lemma BatchStops(cost: seq<Row> -> nat, candidates: seq<Row>)
    requires candidates != [] && cost([candidates[0]]) <= INPUT_LIMIT
    ensures var k := BatchSize(cost, candidates);
            && k >= 1 && cost(candidates[..k]) <= INPUT_LIMIT
            && (k < |candidates| ==> cost(candidates[..k + 1]) > INPUT_LIMIT)
  {
    var fits := FitsUpTo(cost, candidates);
    assert candidates[..1] == [candidates[0]];
    assert fits(1);
    CountStops(fits, 1, |candidates|);
  }

  /** A batch is never empty, its request fits, and one more row would not. */
  lemma BatchFits(prior: string, candidates: seq<Row>)
    requires candidates != []
    ensures var cost := RequestCost(prior);
            var k := BatchSize(cost, candidates);
            && k >= 1 && cost(candidates[..k]) <= INPUT_LIMIT
            && (k < |candidates| ==> cost(candidates[..k + 1]) > INPUT_LIMIT)
  {
    FirstRowFits(prior, candidates[0]);
    var cost := RequestCost(prior);
    assert cost([candidates[0]]) <= INPUT_LIMIT;
    BatchStops(cost, candidates);
  }

  ghost predicate IsCost(cost: seq<Row> -> nat, prior: string) {
    forall rows {:trigger PromptRows(prior, rows)} :: cost(rows) == PromptTokens(prior, PromptRows(prior, rows))
  }

  method RequestFits(prior: string, rows: seq<Row>, ghost cost: seq<Row> -> nat) returns (fits: bool)
    requires IsCost(cost, prior)
    ensures fits <==> cost(rows) <= INPUT_LIMIT
  {
    var sent := SummaryPrompt(prior, rows);
    fits := PromptTokens(prior, sent) <= INPUT_LIMIT;
  }

  lemma BatchIsNotEmpty(prior: string, candidates: seq<Row>)
    requires candidates != []
    ensures BatchSize(RequestCost(prior), candidates) >= 1
  {
    BatchFits(prior, candidates);
  }

  /** Counting goes on past k rows exactly if one more fits. */
  lemma BatchGrows(cost: seq<Row> -> nat, candidates: seq<Row>, k: nat, grown: seq<Row>)
    requires k < |candidates| && grown == candidates[..k + 1]
    ensures var fits := FitsUpTo(cost, candidates);
            CountWhile(fits, k, |candidates|) ==
            if cost(grown) <= INPUT_LIMIT then CountWhile(fits, k + 1, |candidates|) else k
  {
  }

  /** Grows the batch row by row. */
  method GrowBatch(prior: string, candidates: seq<Row>, ghost cost: seq<Row> -> nat) returns (toFold: seq<Row>)
    requires IsCost(cost, prior)
    ensures toFold == candidates[..BatchSize(cost, candidates)]
  {
    toFold := [];
    for k := 0 to |candidates|
      invariant toFold == candidates[..k]
      invariant CountWhile(FitsUpTo(cost, candidates), k, |candidates|) == BatchSize(cost, candidates)
    {
      var grown := toFold + [candidates[k]];
      assert grown == candidates[..k + 1];
      BatchGrows(cost, candidates, k, grown);
      var fits := RequestFits(prior, grown, cost);
      if !fits {
        break;
      }
      toFold := grown;
    }
  }

  /** The fallback for an oversized first row is never taken, because a single row is
      always shrunk to fit. */
  method SelectBatch(prior: string, candidates: seq<Row>) returns (toFold: seq<Row>)
    ensures toFold == candidates[..BatchSize(RequestCost(prior), candidates)]
    ensures candidates != [] ==> toFold != []
  {
    toFold := GrowBatch(prior, candidates, RequestCost(prior));
    if candidates != [] {
      BatchIsNotEmpty(prior, candidates);
      if toFold == [] {
        assert false;
      }
    }
  }
}
