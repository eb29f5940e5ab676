/** Text as the server sees it: character classes, trimming, decimal numerals
    and the pieces of Python's `str` and `int` that the modelled code relies on. */
module Options {
  datatype Option<+T> = None | Some(value: T)
}

module Text {
  import opened Options

  /** The characters Python's `str.strip` removes. */
  predicate IsSpace(c: char) {
    var n := c as int;
    || 9 <= n <= 13 || 28 <= n <= 32 || n == 0x85 || n == 0xA0 || n == 0x1680
    || 0x2000 <= n <= 0x200A || n == 0x2028 || n == 0x2029 || n == 0x202F || n == 0x205F || n == 0x3000
  }

  function StripLeft(s: string): string {
    if s != [] && IsSpace(s[0]) then StripLeft(s[1..]) else s
  }

  function StripRight(s: string): string {
    if s != [] && IsSpace(s[|s| - 1]) then StripRight(s[..|s| - 1]) else s
  }

  function Strip(s: string): string {
    StripRight(StripLeft(s))
  }

  predicate IsBlank(s: string) {
    forall k :: 0 <= k < |s| ==> IsSpace(s[k])
  }

  lemma {:induction false} StripLeftPads(s: string) returns (left: string)
    ensures IsBlank(left) && s == left + StripLeft(s)
  {
    left := [];
    if s != [] && IsSpace(s[0]) {
      var rest := StripLeftPads(s[1..]);
      left := [s[0]] + rest;
    }
  }

  lemma {:induction false} StripRightPads(s: string) returns (right: string)
    ensures IsBlank(right) && s == StripRight(s) + right
  {
    right := [];
    if s != [] && IsSpace(s[|s| - 1]) {
      var rest := StripRightPads(s[..|s| - 1]);
      right := rest + [s[|s| - 1]];
    }
  }

  /** Stripping takes white space off the ends, and nothing else. */
  lemma StripPads(s: string) returns (left: string, right: string)
    ensures IsBlank(left) && IsBlank(right) && s == left + Strip(s) + right
  {
    left := StripLeftPads(s);
    right := StripRightPads(StripLeft(s));
  }

  /** Python's `part in s`. */
  predicate Contains(s: string, part: string) {
    part <= s || (s != [] && Contains(s[1..], part))
  }

  lemma {:induction false} ContainsAt(s: string, part: string) returns (i: nat)
    requires Contains(s, part)
    ensures i + |part| <= |s| && s[i..i + |part|] == part
  {
    if part <= s {
      i := 0;
    } else {
      var k := ContainsAt(s[1..], part);
      i := k + 1;
      assert s[1..][k..k + |part|] == s[i..i + |part|];
    }
  }

  lemma {:induction false} ContainedIfAt(s: string, part: string, i: nat)
    requires i + |part| <= |s| && s[i..i + |part|] == part
    ensures Contains(s, part)
  {
    if i > 0 {
      assert s[1..][i - 1..i - 1 + |part|] == s[i..i + |part|];
      ContainedIfAt(s[1..], part, i - 1);
    } else {
      assert s[..|part|] == part;
    }
  }

  // ---- Decimal numerals ----

  predicate IsDigit(c: char) {
    '0' <= c <= '9'
  }

  predicate AllDigits(s: string) {
    forall k :: 0 <= k < |s| ==> IsDigit(s[k])
  }

  function Digit(d: nat): (c: char)
    requires d < 10
    ensures IsDigit(c) && c as int - '0' as int == d
  {
    ('0' as int + d) as char
  }

  /** Python's `str(n)` for a natural number. */
  function Decimal(n: nat): (s: string)
    ensures s != [] && AllDigits(s)
    decreases n
  {
    if n < 10 then [Digit(n)] else Decimal(n / 10) + [Digit(n % 10)]
  }

  function Numeral(s: string): nat
    requires AllDigits(s)
  {
    if s == [] then 0 else 10 * Numeral(s[..|s| - 1]) + (s[|s| - 1] as int - '0' as int)
  }

  lemma {:induction false} NumeralOfDecimal(n: nat)
    ensures Numeral(Decimal(n)) == n
    decreases n
  {
    if n < 10 {
      assert [Digit(n)][..0] == [];
    } else {
      NumeralOfDecimal(n / 10);
      assert Decimal(n)[..|Decimal(n)| - 1] == Decimal(n / 10);
    }
  }

  /** Python's `str(n)`. */
  function IntText(n: int): string {
    if n < 0 then "-" + Decimal(-n) else Decimal(n)
  }

  /** Digits in which single underscores may separate digits. */
  predicate DigitGroups(s: string) {
    && s != [] && IsDigit(s[0]) && IsDigit(s[|s| - 1])
    && (forall k :: 0 <= k < |s| ==> IsDigit(s[k]) || s[k] == '_')
    && (forall k :: 0 <= k < |s| - 1 ==> IsDigit(s[k]) || IsDigit(s[k + 1]))
  }

  function DropUnderscores(s: string): (r: string)
    requires forall k :: 0 <= k < |s| ==> IsDigit(s[k]) || s[k] == '_'
    ensures AllDigits(r)
    ensures AllDigits(s) ==> r == s
  {
    if s == [] then [] else
      (if s[0] == '_' then [] else [s[0]]) + DropUnderscores(s[1..])
  }

  function Magnitude(s: string): Option<int> {
    if DigitGroups(s) then Some(Numeral(DropUnderscores(s))) else None
  }

  /** Python's `int(s)` on ASCII input; None stands for its ValueError. */
  function ParseInt(s: string): Option<int> {
    var t := Strip(s);
    if t != [] && t[0] == '-' then
      var m := Magnitude(t[1..]);
      if m.Some? then Some(-m.value) else None
    else
      var m := Magnitude(if t != [] && t[0] == '+' then t[1..] else t);
      if m.Some? then Some(m.value) else None
  }

  lemma StripKeeps(s: string)
    requires s != [] && !IsSpace(s[0]) && !IsSpace(s[|s| - 1])
    ensures Strip(s) == s
  {
  }

  lemma MagnitudeOfDecimal(n: nat)
    ensures Magnitude(Decimal(n)) == Some(n)
  {
    NumeralOfDecimal(n);
  }

  lemma ParseUnsigned(d: string, n: int)
    requires d != [] && AllDigits(d) && Magnitude(d) == Some(n)
    ensures ParseInt(d) == Some(n)
  {
    assert IsDigit(d[0]) && IsDigit(d[|d| - 1]);
    StripKeeps(d);
  }

  lemma ParseNegative(d: string, n: int)
    requires d != [] && AllDigits(d) && Magnitude(d) == Some(n)
    ensures ParseInt("-" + d) == Some(-n)
  {
    var t := "-" + d;
    assert IsDigit(d[|d| - 1]) && t[|t| - 1] == d[|d| - 1];
    assert t[1..] == d;
    StripKeeps(t);
  }

  lemma {:induction false} ParseIntOfIntText(n: int)
    ensures ParseInt(IntText(n)) == Some(n)
  {
    if n < 0 {
      MagnitudeOfDecimal(-n);
      ParseNegative(Decimal(-n), -n);
    } else {
      MagnitudeOfDecimal(n);
      ParseUnsigned(Decimal(n), n);
    }
  }
}
