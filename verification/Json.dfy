/** JSON text as the server prints it: non-ASCII characters as they are, control
    characters, quotes and backslashes escaped (section 7 of RFC 8259). */
module Json {
  import opened ContextBudget

  function HexDigit(n: nat): char
    requires n < 16
  {
    if n < 10 then ('0' as int + n) as char else ('a' as int + n - 10) as char
  }

  function EscapedChar(c: char): (r: string)
    ensures 1 <= |r| <= 6
    ensures forall k :: 0 <= k < |r| ==> r[k] as int >= 0x20
    ensures IsWide(c) ==> r == [c]
    ensures !IsWide(c) ==> forall k :: 0 <= k < |r| ==> !IsWide(r[k])
  {
    if c == '"' then "\\\""
    else if c == '\\' then "\\\\"
    else if c == '\n' then "\\n"
    else if c == '\r' then "\\r"
    else if c == '\t' then "\\t"
    else if c as int == 8 then "\\b"
    else if c as int == 12 then "\\f"
    else if (c as int) < 0x20 then
      ['\\', 'u', '0', '0', HexDigit(c as int / 16), HexDigit(c as int % 16)]
    else [c]
  }

  function Escaped(s: string): string {
    if s == "" then "" else Escaped(s[..|s| - 1]) + EscapedChar(s[|s| - 1])
  }

  function Quoted(s: string): string {
    "\"" + Escaped(s) + "\""
  }

  // ---- The form that is ASCII only ----

  function Hex4(n: nat): string
    requires n < 0x10000
  {
    [HexDigit(n / 4096), HexDigit(n / 256 % 16), HexDigit(n / 16 % 16), HexDigit(n % 16)]
  }

  function Unit(n: nat): string
    requires n < 0x10000
  {
    "\\u" + Hex4(n)
  }

  /** Printable ASCII as above; anything else by its UTF-16 units. */
  function AsciiEscapedChar(c: char): string {
    var n := c as int;
    if n < 0x7F then EscapedChar(c)
    else if n < 0x10000 then Unit(n)
    else Unit(0xD800 + (n - 0x10000) / 0x400) + Unit(0xDC00 + (n - 0x10000) % 0x400)
  }

  function AsciiEscaped(s: string): string {
    if s == "" then "" else AsciiEscaped(s[..|s| - 1]) + AsciiEscapedChar(s[|s| - 1])
  }

  // ---- Values ----

  datatype Value =
    | Null | Bool(b: bool) | Number(literal: string) | Text(s: string)
    | Array(items: seq<Value>) | Object(fields: seq<Field>)

  datatype Field = Field(name: string, value: Value)

  /** Numbers are given by the digits, sign, point and exponent that are printed. */
  predicate NumbersPrintable(v: Value) {
    match v
    case Number(l) => l != "" && forall k :: 0 <= k < |l| ==> l[k] as int >= 0x20
    case Array(items) => forall k :: 0 <= k < |items| ==> NumbersPrintable(items[k])
    case Object(fields) => forall k :: 0 <= k < |fields| ==> NumbersPrintable(fields[k].value)
    case _ => true
  }

  function Dumps(v: Value): string {
    match v
    case Null => "null"
    case Bool(b) => if b then "true" else "false"
    case Number(l) => l
    case Text(s) => Quoted(s)
    case Array(items) => "[" + DumpItems(items, 0) + "]"
    case Object(fields) => "{" + DumpFields(fields, 0) + "}"
  }

  function DumpItems(items: seq<Value>, k: nat): string
    requires k <= |items|
    decreases items, |items| - k
  {
    if k == |items| then ""
    else (if k == 0 then "" else ", ") + Dumps(items[k]) + DumpItems(items, k + 1)
  }

  function DumpFields(fields: seq<Field>, k: nat): string
    requires k <= |fields|
    decreases fields, |fields| - k
  {
    if k == |fields| then ""
    else (if k == 0 then "" else ", ") + Quoted(fields[k].name) + ": " + Dumps(fields[k].value) + DumpFields(fields, k + 1)
  }

  /** No control character, in particular no raw line break. */
  predicate OneLine(s: string) {
    forall k :: 0 <= k < |s| ==> s[k] as int >= 0x20
  }

  lemma {:induction false} EscapedIsOneLine(s: string)
    ensures OneLine(Escaped(s))
  {
    if s != "" { EscapedIsOneLine(s[..|s| - 1]); }
  }

  lemma OneLineAppend(a: string, b: string)
    requires OneLine(a) && OneLine(b)
    ensures OneLine(a + b)
  {
  }

  /** A printed value is never empty and never contains a raw line break. */
  lemma {:induction false} DumpsIsOneLine(v: Value)
    requires NumbersPrintable(v)
    ensures OneLine(Dumps(v)) && Dumps(v) != ""
    decreases v, 0
  {
    match v {
      case Text(s) =>
        EscapedIsOneLine(s);
      case Array(items) =>
        DumpItemsIsOneLine(items, 0);
        OneLineAppend("[", DumpItems(items, 0));
        OneLineAppend("[" + DumpItems(items, 0), "]");
      case Object(fields) =>
        DumpFieldsIsOneLine(fields, 0);
        OneLineAppend("{", DumpFields(fields, 0));
        OneLineAppend("{" + DumpFields(fields, 0), "}");
      case _ =>
    }
  }

  lemma {:induction false} DumpItemsIsOneLine(items: seq<Value>, k: nat)
    requires k <= |items| && forall j :: 0 <= j < |items| ==> NumbersPrintable(items[j])
    ensures OneLine(DumpItems(items, k))
    decreases items, |items| - k
  {
    if k < |items| {
      DumpsIsOneLine(items[k]);
      DumpItemsIsOneLine(items, k + 1);
      OneLineAppend(if k == 0 then "" else ", ", Dumps(items[k]));
      OneLineAppend((if k == 0 then "" else ", ") + Dumps(items[k]), DumpItems(items, k + 1));
    }
  }

  lemma {:induction false} DumpFieldsIsOneLine(fields: seq<Field>, k: nat)
    requires k <= |fields| && forall j :: 0 <= j < |fields| ==> NumbersPrintable(fields[j].value)
    ensures OneLine(DumpFields(fields, k))
    decreases fields, |fields| - k
  {
    if k < |fields| {
      EscapedIsOneLine(fields[k].name);
      DumpsIsOneLine(fields[k].value);
      DumpFieldsIsOneLine(fields, k + 1);
      var start := (if k == 0 then "" else ", ") + Quoted(fields[k].name) + ": ";
      OneLineAppend(if k == 0 then "" else ", ", Quoted(fields[k].name));
      OneLineAppend((if k == 0 then "" else ", ") + Quoted(fields[k].name), ": ");
      OneLineAppend(start, Dumps(fields[k].value));
      OneLineAppend(start + Dumps(fields[k].value), DumpFields(fields, k + 1));
    }
  }

  // ---- What escaping costs ----

  lemma {:induction false} NarrowHasNoWide(s: string)
    requires forall k :: 0 <= k < |s| ==> !IsWide(s[k])
    ensures WideCount(s) == 0
  {
    if s != "" { NarrowHasNoWide(s[..|s| - 1]); }
  }

  lemma {:induction false} EscapingKeepsWide(s: string)
    ensures WideCount(Escaped(s)) == WideCount(s)
    ensures |Escaped(s)| - WideCount(s) <= 6 * (|s| - WideCount(s))
  {
    if s != "" {
      var init, c := s[..|s| - 1], s[|s| - 1];
      EscapingKeepsWide(init);
      WideCountAppend(Escaped(init), EscapedChar(c));
      if IsWide(c) {
        WideCountSnoc("", c);
        assert "" + [c] == [c];
      } else {
        NarrowHasNoWide(EscapedChar(c));
      }
    }
  }

  /** Escaping expands a character at most sixfold, hence an estimate at most sixfold. */
  lemma EscapingCostsAtMostSixfold(s: string)
    ensures EstimateTokens(Escaped(s)) <= 6 * EstimateTokens(s)
  {
    EscapingKeepsWide(s);
  }
}
