/** A reader of JSON texts (RFC 8259), and that it gives back every value the server prints. */
module JsonReader {
  import opened ContextBudget
  import opened Json

  /** What was read, and the text behind it. */
  datatype Read<T> = Fails | Got(value: T, rest: string)

  // ---- White space and numbers ----

  predicate IsBlank(c: char) {
    c == ' ' || c == '\t' || c == '\n' || c == '\r'
  }

  function Skip(s: string): (r: string)
    ensures |r| <= |s|
  {
    if s != "" && IsBlank(s[0]) then Skip(s[1..]) else s
  }

  predicate IsNumberChar(c: char) {
    '0' <= c <= '9' || c == '-' || c == '+' || c == '.' || c == 'e' || c == 'E'
  }

  function NumberLength(s: string): (n: nat)
    ensures n <= |s|
  {
    if s != "" && IsNumberChar(s[0]) then 1 + NumberLength(s[1..]) else 0
  }

  // ---- Strings ----

  function HexValue(c: char): int {
    if '0' <= c <= '9' then c as int - '0' as int
    else if 'a' <= c <= 'f' then c as int - 'a' as int + 10
    else if 'A' <= c <= 'F' then c as int - 'A' as int + 10
    else -1
  }

  /** The character that four hexadecimal digits name, unless it is half of a pair. */
  function FromHex(s: string): Read<char>
    requires |s| >= 4
  {
    if exists k :: 0 <= k < 4 && HexValue(s[k]) < 0 then Fails else
      var n := ((HexValue(s[0]) * 16 + HexValue(s[1])) * 16 + HexValue(s[2])) * 16 + HexValue(s[3]);
      if 0 <= n < 0xD800 then Got(n as char, s[4..]) else if 0xE000 <= n < 0x10000 then Got(n as char, s[4..]) else Fails
  }

  /** What stands behind a backslash. */
  function ReadEscape(s: string): (r: Read<char>)
    ensures r.Got? ==> |r.rest| < |s|
  {
    if s == "" then Fails
    else if s[0] == '"' || s[0] == '\\' || s[0] == '/' then Got(s[0], s[1..])
    else if s[0] == 'n' then Got('\n', s[1..])
    else if s[0] == 'r' then Got('\r', s[1..])
    else if s[0] == 't' then Got('\t', s[1..])
    else if s[0] == 'b' then Got(8 as char, s[1..])
    else if s[0] == 'f' then Got(12 as char, s[1..])
    else if s[0] == 'u' && |s| >= 5 then FromHex(s[1..])
    else Fails
  }

  function Before(c: char, r: Read<string>): Read<string> {
    if r.Got? then Got([c] + r.value, r.rest) else Fails
  }

  /** The text of a string, behind its opening quotation mark. */
  function ReadText(s: string): (r: Read<string>)
    ensures r.Got? ==> |r.rest| < |s|
    decreases |s|
  {
    if s == "" || (s[0] as int) < 0x20 then Fails
    else if s[0] == '"' then Got("", s[1..])
    else if s[0] == '\\' then
      var e := ReadEscape(s[1..]);
      if e.Got? then Before(e.value, ReadText(e.rest)) else Fails
    else Before(s[0], ReadText(s[1..]))
  }

  // ---- Values ----

  function ReadValue(s: string): (r: Read<Value>)
    ensures r.Got? ==> |r.rest| < |s|
    decreases |s|, 0
  {
    if s == "" then Fails
    else if "null" <= s then Got(Null, s[4..])
    else if "true" <= s then Got(Bool(true), s[4..])
    else if "false" <= s then Got(Bool(false), s[5..])
    else if s[0] == '"' then
      var t := ReadText(s[1..]);
      if t.Got? then Got(Text(t.value), t.rest) else Fails
    else if s[0] == '[' then
      var t := ReadItems(Skip(s[1..]), true);
      if t.Got? then Got(Array(t.value), t.rest) else Fails
    else if s[0] == '{' then
      var t := ReadFields(Skip(s[1..]), true);
      if t.Got? then Got(Object(t.value), t.rest) else Fails
    else if NumberLength(s) > 0 then Got(Number(s[..NumberLength(s)]), s[NumberLength(s)..])
    else Fails
  }

  /** Items up to the closing bracket, each but the first behind a comma. */
  function ReadItems(s: string, first: bool): (r: Read<seq<Value>>)
    ensures r.Got? ==> |r.rest| < |s|
    decreases |s|, 1
  {
    if s == "" then Fails
    else if s[0] == ']' then Got([], s[1..])
    else if !first && s[0] != ',' then Fails
    else
      var v := ReadValue(if first then s else Skip(s[1..]));
      if v.Fails? then Fails else
        var more := ReadItems(Skip(v.rest), false);
        if more.Got? then Got([v.value] + more.value, more.rest) else Fails
  }

  function ReadFields(s: string, first: bool): (r: Read<seq<Field>>)
    ensures r.Got? ==> |r.rest| < |s|
    decreases |s|, 1
  {
    if s == "" then Fails
    else if s[0] == '}' then Got([], s[1..])
    else if !first && s[0] != ',' then Fails
    else
      var f := ReadField(if first then s else Skip(s[1..]));
      if f.Fails? then Fails else
        var more := ReadFields(Skip(f.rest), false);
        if more.Got? then Got([f.value] + more.value, more.rest) else Fails
  }

  function ReadField(s: string): (r: Read<Field>)
    ensures r.Got? ==> |r.rest| < |s|
    decreases |s|, 0
  {
    if s == "" || s[0] != '"' then Fails else
      var name := ReadText(s[1..]);
      if name.Fails? then Fails else
        var colon := Skip(name.rest);
        if colon == "" || colon[0] != ':' then Fails else
          var v := ReadValue(Skip(colon[1..]));
          if v.Got? then Got(Field(name.value, v.value), v.rest) else Fails
  }

  // ---- What is printed is read back ----

  lemma FirstAndRest<T>(xs: seq<T>, k: nat)
    requires k < |xs|
    ensures [xs[k]] + xs[k + 1..] == xs[k..]
  {
  }

  /** Numbers are printed with the characters of JSON numbers. */
  predicate PlainNumbers(v: Value) {
    match v
    case Number(l) => l != "" && forall k :: 0 <= k < |l| ==> IsNumberChar(l[k])
    case Array(items) => forall k :: 0 <= k < |items| ==> PlainNumbers(items[k])
    case Object(fields) => forall k :: 0 <= k < |fields| ==> PlainNumbers(fields[k].value)
    case _ => true
  }

  lemma Associative(a: string, b: string, c: string)
    ensures (a + b) + c == a + (b + c)
  {
  }

  lemma EscapedSnoc(s: string, c: char)
    ensures Escaped(s + [c]) == Escaped(s) + EscapedChar(c)
  {
    assert (s + [c])[..|s|] == s;
  }

  lemma EscapedConsSnoc(c: char, s: string, d: char)
    requires Escaped([c] + s) == EscapedChar(c) + Escaped(s)
    ensures Escaped([c] + (s + [d])) == EscapedChar(c) + Escaped(s + [d])
  {
    Associative([c], s, [d]);
    EscapedSnoc([c] + s, d);
    EscapedSnoc(s, d);
    Associative(EscapedChar(c), Escaped(s), EscapedChar(d));
  }

  lemma EscapedOne(c: char)
    ensures Escaped([c] + "") == EscapedChar(c) + Escaped("")
  {
    EscapedSnoc("", c);
    assert [c] + "" == "" + [c];
    assert "" + EscapedChar(c) == EscapedChar(c) == EscapedChar(c) + "";
  }

  lemma {:induction false} EscapedCons(c: char, s: string)
    ensures Escaped([c] + s) == EscapedChar(c) + Escaped(s)
  {
    if s == "" {
      EscapedOne(c);
    } else {
      var init, d := s[..|s| - 1], s[|s| - 1];
      EscapedCons(c, init);
      EscapedConsSnoc(c, init, d);
      assert s == init + [d];
    }
  }

  lemma HexReadsBack(n: nat)
    requires n < 16
    ensures HexValue(HexDigit(n)) == n
  {
  }

  lemma ControlReadsBack(c: char, rest: string)
    requires (c as int) < 0x20
    ensures FromHex(['0', '0', HexDigit(c as int / 16), HexDigit(c as int % 16)] + rest) == Got(c, rest)
  {
    var s := ['0', '0', HexDigit(c as int / 16), HexDigit(c as int % 16)] + rest;
    HexReadsBack(c as int / 16);
    HexReadsBack(c as int % 16);
    assert s[0] == '0' && s[1] == '0' && s[2] == HexDigit(c as int / 16) && s[3] == HexDigit(c as int % 16);
    assert s[4..] == rest;
  }

  lemma PlainReadsBack(c: char, rest: string)
    requires c as int >= 0x20 && c != '"' && c != '\\'
    ensures ReadText([c] + rest) == Before(c, ReadText(rest))
  {
    assert ([c] + rest)[1..] == rest;
  }

  lemma EscapeReadsBack(e: string, c: char, rest: string)
    requires ReadEscape(e + rest) == Got(c, rest)
    ensures ReadText(("\\" + e) + rest) == Before(c, ReadText(rest))
  {
    Associative("\\", e, rest);
    assert ("\\" + (e + rest))[1..] == e + rest;
  }

  /** An escaped character is read back. */
  lemma CharReadsBack(c: char, rest: string)
    ensures ReadText(EscapedChar(c) + rest) == Before(c, ReadText(rest))
  {
    var e := EscapedChar(c);
    if |e| == 1 {
      PlainReadsBack(c, rest);
    } else {
      assert e == "\\" + e[1..];
      assert ReadEscape(e[1..] + rest) == Got(c, rest) by {
        var behind := e[1..] + rest;
        if |e| == 2 {
          assert behind[0] == e[1] && behind[1..] == rest;
        } else {
          ControlReadsBack(c, rest);
          assert behind[0] == 'u' && behind[1..] == ['0', '0', HexDigit(c as int / 16), HexDigit(c as int % 16)] + rest;
        }
      }
      EscapeReadsBack(e[1..], c, rest);
    }
  }

  lemma {:induction false} TextReadsBack(s: string, rest: string)
    ensures ReadText(Escaped(s) + ("\"" + rest)) == Got(s, rest)
  {
    var tail := "\"" + rest;
    if s == "" {
      assert Escaped(s) + tail == tail && tail[1..] == rest;
    } else {
      var c, later := s[0], s[1..];
      assert s == [c] + later;
      EscapedCons(c, later);
      Associative(EscapedChar(c), Escaped(later), tail);
      CharReadsBack(c, Escaped(later) + tail);
      TextReadsBack(later, rest);
    }
  }

  lemma {:induction false} NumberReadsBack(l: string, rest: string)
    requires (forall k :: 0 <= k < |l| ==> IsNumberChar(l[k])) && (rest != "" ==> !IsNumberChar(rest[0]))
    ensures NumberLength(l + rest) == |l|
  {
    if l == "" {
      assert l + rest == rest;
    } else {
      assert (l + rest)[1..] == l[1..] + rest;
      NumberReadsBack(l[1..], rest);
    }
  }

  /** A printed value does not begin with white space or a closing bracket. */
  lemma DumpsBegins(v: Value)
    requires PlainNumbers(v)
    ensures Dumps(v) != "" && !IsBlank(Dumps(v)[0]) && Dumps(v)[0] != ']' && Dumps(v)[0] != '}'
  {
  }

  lemma BeginsWith(v: Value, after: string)
    requires PlainNumbers(v)
    ensures var here := Dumps(v) + after; here != "" && !IsBlank(here[0]) && here[0] != ']'
  {
    DumpsBegins(v);
  }

  lemma SkipNothing(s: string)
    requires s != "" && !IsBlank(s[0])
    ensures Skip(s) == s && Skip(" " + s) == s
  {
    assert (" " + s)[1..] == s;
  }

  lemma QuotedFirst(s: string, rest: string)
    ensures var all := Quoted(s) + rest;
            all != "" && all[0] == '"' && all[1..] == Escaped(s) + ("\"" + rest)
  {
    Associative("\"" + Escaped(s), "\"", rest);
    Associative("\"", Escaped(s), "\"" + rest);
  }

  lemma TextValueReadsBack(s: string, rest: string)
    ensures ReadValue(Quoted(s) + rest) == Got(Text(s), rest)
  {
    QuotedFirst(s, rest);
    TextReadsBack(s, rest);
  }

  /** Every printed value is read back, whatever follows that cannot belong to a number. */
  lemma {:induction false} ReadsBack(v: Value, rest: string)
    requires PlainNumbers(v) && (rest != "" ==> !IsNumberChar(rest[0]))
    ensures ReadValue(Dumps(v) + rest) == Got(v, rest)
    decreases v, 0
  {
    var s := Dumps(v) + rest;
    match v {
      case Null => assert "null" <= s && s[4..] == rest;
      case Bool(b) =>
        if b {
          assert "true" <= s && s[4..] == rest && s[0] == 't';
        } else {
          assert "false" <= s && s[5..] == rest && s[0] == 'f';
        }
      case Number(l) =>
        NumberReadsBack(l, rest);
        assert IsNumberChar(s[0]) && s[..|l|] == l && s[|l|..] == rest;
      case Text(t) => TextValueReadsBack(t, rest);
      case Array(items) =>
        ItemsReadBack(items, 0, rest);
        ArrayReadsBack(items, rest);
      case Object(fields) =>
        FieldsReadBack(fields, 0, rest);
        ObjectReadsBack(fields, rest);
    }
  }

  lemma Opened(open: string, inner: string, close: string, rest: string)
    requires |open| == 1
    ensures (open + inner + close) + rest == open + (inner + (close + rest))
    ensures (open + (inner + (close + rest)))[1..] == inner + (close + rest)
  {
    Associative(open + inner, close, rest);
    Associative(open, inner, close + rest);
  }

  /** The comma before an item, the item and what follows. */
  lemma Separated(first: bool, item: string, later: string, close: string)
    ensures var here := item + (later + close);
            (if first then "" else ", ") + item + later + close == if first then here else ", " + here
    ensures var here := item + (later + close); (", " + here)[0] == ',' && (", " + here)[1..] == " " + here
  {
    Associative((if first then "" else ", ") + item, later, close);
    Associative(if first then "" else ", ", item, later + close);
    if first {
      assert "" + (item + (later + close)) == item + (later + close);
    }
    Associative(",", " ", item + (later + close));
    assert "," + " " == ", ";
  }

  /** A list of items read up to its end, given how the first is read. */
  lemma ListStep(v: Value, more: seq<Value>, here: string, after: string, rest: string, first: bool)
    requires here != "" && !IsBlank(here[0]) && here[0] != ']'
    requires after != "" && !IsBlank(after[0])
    requires ReadValue(here) == Got(v, after) && ReadItems(after, false) == Got(more, rest)
    ensures var s := if first then here else ", " + here;
            ReadItems(s, first) == Got([v] + more, rest) && s != "" && !IsBlank(s[0]) && (!first ==> s[0] == ',')
  {
    SkipNothing(here);
    SkipNothing(after);
    assert (", " + here)[0] == ',' && (", " + here)[1..] == " " + here;
  }

  lemma ArrayReadsBack(items: seq<Value>, rest: string)
    requires var s := DumpItems(items, 0) + ("]" + rest);
             s != "" && !IsBlank(s[0]) && ReadItems(s, true) == Got(items, rest)
    ensures ReadValue(Dumps(Array(items)) + rest) == Got(Array(items), rest)
  {
    Opened("[", DumpItems(items, 0), "]", rest);
    ArrayOpens(DumpItems(items, 0) + ("]" + rest), items, rest);
  }

  lemma ArrayOpens(inner: string, items: seq<Value>, rest: string)
    requires inner != "" && !IsBlank(inner[0]) && ReadItems(inner, true) == Got(items, rest)
    ensures ReadValue("[" + inner) == Got(Array(items), rest)
  {
    SkipNothing(inner);
    assert ("[" + inner)[0] == '[' && ("[" + inner)[1..] == inner;
  }

  /** What stands before item `k` of a printed array. */
  ghost predicate ItemsAt(items: seq<Value>, k: nat, s: string, rest: string)
    requires k <= |items|
  {
    s == DumpItems(items, k) + ("]" + rest) && s != "" && !IsBlank(s[0]) && (k > 0 ==> s[0] == ',' || s[0] == ']')
  }

  lemma {:induction false} ItemsReadBack(items: seq<Value>, k: nat, rest: string)
    requires k <= |items| && forall j :: 0 <= j < |items| ==> PlainNumbers(items[j])
    ensures var s := DumpItems(items, k) + ("]" + rest);
            ItemsAt(items, k, s, rest) && ReadItems(s, k == 0) == Got(items[k..], rest)
    decreases items, |items| - k + 1
  {
    if k == |items| {
      NoItemsReadBack(items, rest);
    } else {
      var next: nat := k + 1;
      var after := DumpItems(items, next) + ("]" + rest);
      ItemsReadBack(items, next, rest);
      ReadsBack(items[k], after);
      ItemStep(items, k, next, after, rest);
    }
  }

  lemma NoItemsReadBack(items: seq<Value>, rest: string)
    ensures var s := DumpItems(items, |items|) + ("]" + rest);
            ItemsAt(items, |items|, s, rest) && ReadItems(s, items == []) == Got(items[|items|..], rest)
  {
    var close := "]" + rest;
    assert DumpItems(items, |items|) + close == close && close[1..] == rest && items[|items|..] == [];
  }

  lemma DumpedItem(items: seq<Value>, k: nat, tail: string)
    requires k < |items|
    ensures var here := Dumps(items[k]) + (DumpItems(items, k + 1) + tail);
            DumpItems(items, k) + tail == if k == 0 then here else ", " + here
  {
    Separated(k == 0, Dumps(items[k]), DumpItems(items, k + 1), tail);
  }

  lemma ItemStep(items: seq<Value>, k: nat, next: nat, after: string, rest: string)
    requires k + 1 == next <= |items| && PlainNumbers(items[k]) && ItemsAt(items, next, after, rest)
    requires ReadItems(after, false) == Got(items[next..], rest) && ReadValue(Dumps(items[k]) + after) == Got(items[k], after)
    ensures var s := DumpItems(items, k) + ("]" + rest);
            ItemsAt(items, k, s, rest) && ReadItems(s, k == 0) == Got(items[k..], rest)
  {
    BeginsWith(items[k], after);
    DumpedItem(items, k, "]" + rest);
    ListStep(items[k], items[k + 1..], Dumps(items[k]) + after, after, rest, k == 0);
    FirstAndRest(items, k);
  }

  // ---- Objects ----

  function FieldText(f: Field): string {
    Quoted(f.name) + ": " + Dumps(f.value)
  }

  lemma FieldReadsBack(f: Field, rest: string)
    requires PlainNumbers(f.value) && ReadValue(Dumps(f.value) + rest) == Got(f.value, rest)
    ensures var s := FieldText(f) + rest; s != "" && s[0] == '"' && ReadField(s) == Got(f, rest)
  {
    var here := Dumps(f.value) + rest;
    var colon := ":" + (" " + here);
    Associative(Quoted(f.name) + ": ", Dumps(f.value), rest);
    Associative(Quoted(f.name), ": ", here);
    Associative(":", " ", here);
    assert ":" + " " == ": ";
    QuotedFirst(f.name, colon);
    TextReadsBack(f.name, colon);
    SkipNothing(colon);
    assert colon[1..] == " " + here;
    DumpsBegins(f.value);
    SkipNothing(here);
  }

  lemma DumpedField(fields: seq<Field>, k: nat, tail: string)
    requires k < |fields|
    ensures var here := FieldText(fields[k]) + (DumpFields(fields, k + 1) + tail);
            DumpFields(fields, k) + tail == if k == 0 then here else ", " + here
  {
    var comma, name, value := if k == 0 then "" else ", ", Quoted(fields[k].name), Dumps(fields[k].value);
    Associative(comma, name, ": ");
    Associative(comma, name + ": ", value);
    Separated(k == 0, FieldText(fields[k]), DumpFields(fields, k + 1), tail);
  }

  lemma ObjectReadsBack(fields: seq<Field>, rest: string)
    requires var s := DumpFields(fields, 0) + ("}" + rest);
             s != "" && !IsBlank(s[0]) && ReadFields(s, true) == Got(fields, rest)
    ensures ReadValue(Dumps(Object(fields)) + rest) == Got(Object(fields), rest)
  {
    Opened("{", DumpFields(fields, 0), "}", rest);
    ObjectOpens(DumpFields(fields, 0) + ("}" + rest), fields, rest);
  }

  lemma ObjectOpens(inner: string, fields: seq<Field>, rest: string)
    requires inner != "" && !IsBlank(inner[0]) && ReadFields(inner, true) == Got(fields, rest)
    ensures ReadValue("{" + inner) == Got(Object(fields), rest)
  {
    SkipNothing(inner);
    assert ("{" + inner)[0] == '{' && ("{" + inner)[1..] == inner;
  }

  /** What stands before field `k` of a printed object. */
  ghost predicate FieldsAt(fields: seq<Field>, k: nat, s: string, rest: string)
    requires k <= |fields|
  {
    s == DumpFields(fields, k) + ("}" + rest) && s != "" && !IsBlank(s[0]) && (k > 0 ==> s[0] == ',' || s[0] == '}')
  }

  lemma {:induction false} FieldsReadBack(fields: seq<Field>, k: nat, rest: string)
    requires k <= |fields| && forall j :: 0 <= j < |fields| ==> PlainNumbers(fields[j].value)
    ensures var s := DumpFields(fields, k) + ("}" + rest);
            FieldsAt(fields, k, s, rest) && ReadFields(s, k == 0) == Got(fields[k..], rest)
    decreases fields, |fields| - k + 1
  {
    if k == |fields| {
      NoFieldsReadBack(fields, rest);
    } else {
      var next: nat := k + 1;
      var after := DumpFields(fields, next) + ("}" + rest);
      FieldsReadBack(fields, next, rest);
      ReadsBack(fields[k].value, after);
      FieldStep(fields, k, next, after, rest);
    }
  }

  lemma NoFieldsReadBack(fields: seq<Field>, rest: string)
    ensures var s := DumpFields(fields, |fields|) + ("}" + rest);
            FieldsAt(fields, |fields|, s, rest) && ReadFields(s, fields == []) == Got(fields[|fields|..], rest)
  {
    var close := "}" + rest;
    assert DumpFields(fields, |fields|) + close == close && close[1..] == rest && fields[|fields|..] == [];
  }

  lemma FieldListStep(f: Field, more: seq<Field>, here: string, after: string, rest: string, first: bool)
    requires here != "" && here[0] == '"' && after != "" && !IsBlank(after[0])
    requires ReadField(here) == Got(f, after) && ReadFields(after, false) == Got(more, rest)
    ensures var s := if first then here else ", " + here;
            ReadFields(s, first) == Got([f] + more, rest) && s != "" && !IsBlank(s[0]) && (!first ==> s[0] == ',')
  {
    SkipNothing(here);
    SkipNothing(after);
    assert (", " + here)[0] == ',' && (", " + here)[1..] == " " + here;
  }

  lemma FieldStep(fields: seq<Field>, k: nat, next: nat, after: string, rest: string)
    requires k + 1 == next <= |fields| && PlainNumbers(fields[k].value) && FieldsAt(fields, next, after, rest)
    requires ReadFields(after, false) == Got(fields[next..], rest)
    requires ReadValue(Dumps(fields[k].value) + after) == Got(fields[k].value, after)
    ensures var s := DumpFields(fields, k) + ("}" + rest);
            FieldsAt(fields, k, s, rest) && ReadFields(s, k == 0) == Got(fields[k..], rest)
  {
    FieldReadsBack(fields[k], after);
    DumpedField(fields, k, "}" + rest);
    FieldListStep(fields[k], fields[k + 1..], FieldText(fields[k]) + after, after, rest, k == 0);
    FirstAndRest(fields, k);
  }

  /** Reading what is printed gives the value back, so that no two values print alike. */
  lemma DumpsIsReadBack(v: Value)
    requires PlainNumbers(v)
    ensures ReadValue(Dumps(v)) == Got(v, "")
  {
    ReadsBack(v, "");
    assert Dumps(v) + "" == Dumps(v);
  }
}
