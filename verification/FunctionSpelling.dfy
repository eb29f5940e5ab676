/** How a cleaned function name is spelled: the words of the name, joined by underscores. */
module FunctionSpelling {
  import opened Text
  import opened FunctionNames

  predicate IsWordChar(c: char) {
    IsAllowed(c) && c != '_'
  }

  predicate IsWord(w: string) {
    forall k :: 0 <= k < |w| ==> IsWordChar(w[k])
  }

  /** How many letters and digits the text begins with. */
  function WordLength(s: string): (n: nat)
    ensures n <= |s| && IsWord(s[..n]) && (n < |s| ==> !IsWordChar(s[n]))
  {
    if s != "" && IsWordChar(s[0]) then
      var n := WordLength(s[1..]);
      assert forall k :: 0 < k <= n ==> s[k] == s[1..][k - 1];
      n + 1
    else 0
  }

  /** The runs of letters and digits in a text, in order. */
  function Words(s: string): (ws: seq<string>)
    decreases |s|
  {
    if s == "" then []
    else if !IsWordChar(s[0]) then Words(s[1..])
    else [s[..WordLength(s)]] + Words(s[WordLength(s)..])
  }

  function Underlined(ws: seq<string>): string {
    if ws == [] then "" else if |ws| == 1 then ws[0] else ws[0] + "_" + Underlined(ws[1..])
  }

  // ---- Underscoring ----

  lemma {:induction false} UnderscoredAt(s: string)
    ensures |Underscored(s)| == |s|
    ensures forall k :: 0 <= k < |s| ==> Underscored(s)[k] == if IsAllowed(s[k]) then s[k] else '_'
  {
    if s != "" { UnderscoredAt(s[1..]); }
  }

  lemma {:induction false} DigitsGoFirst(s: string)
    ensures WithoutLeadingDigits(Underscored(s)) == Underscored(WithoutLeadingDigits(s))
  {
    if s != "" { DigitsGoFirst(s[1..]); }
  }

  lemma UnderscoredSlices(s: string, n: nat)
    requires n <= |s|
    ensures |Underscored(s)| == |s| && Underscored(s)[n..] == Underscored(s[n..])
    ensures IsWord(s[..n]) ==> Underscored(s)[..n] == s[..n]
  {
    UnderscoredAt(s);
    UnderscoredAt(s[n..]);
  }

  lemma {:induction false} SameWordLength(s: string)
    ensures WordLength(Underscored(s)) == WordLength(s)
  {
    if s != "" { SameWordLength(s[1..]); }
  }

  lemma {:induction false} SameWords(s: string)
    ensures Words(Underscored(s)) == Words(s)
    decreases |s|
  {
    if s != "" {
      UnderscoredAt(s);
      if !IsWordChar(s[0]) {
        SameWords(s[1..]);
      } else {
        SameWordLength(s);
        UnderscoredSlices(s, WordLength(s));
        SameWords(s[WordLength(s)..]);
      }
    }
  }

  // ---- Collapsing and trimming ----

  lemma CollapsedCons(c: char, t: string)
    requires c != '_'
    ensures Collapsed([c] + t) == [c] + Collapsed(t)
  {
    assert ([c] + t)[1..] == t;
    if t == "" { assert [c] + t == [c] && Collapsed(t) == ""; }
  }

  lemma {:induction false} WordStays(w: string, rest: string)
    requires IsWord(w)
    ensures Collapsed(w + rest) == w + Collapsed(rest)
  {
    if w == "" {
      assert w + rest == rest && w + Collapsed(rest) == Collapsed(rest);
    } else {
      WordStays(w[1..], rest);
      CollapsedCons(w[0], w[1..] + rest);
      FirstOfAppend(w, rest);
      FirstOfAppend(w, Collapsed(rest));
    }
  }

  lemma FirstOfAppend(w: string, rest: string)
    requires w != ""
    ensures [w[0]] + (w[1..] + rest) == w + rest
  {
  }

  lemma {:induction false} TrailingOnly(a: string, u: string)
    requires WithoutTrailingUnderscores(u) != ""
    ensures WithoutTrailingUnderscores(a + u) == a + WithoutTrailingUnderscores(u)
  {
    if u[|u| - 1] == '_' {
      assert (a + u)[..|a + u| - 1] == a + u[..|u| - 1];
      TrailingOnly(a, u[..|u| - 1]);
    }
  }

  lemma {:induction false} SomethingStays(u: string)
    requires u != "" && u[0] != '_'
    ensures WithoutTrailingUnderscores(u) != ""
  {
    if u[|u| - 1] == '_' { SomethingStays(u[..|u| - 1]); }
  }

  /** A gap becomes one underscore. */
  lemma GapCollapses(rest: string)
    requires AllAllowed(rest) && rest != "" && rest[0] == '_'
    ensures Collapsed(rest) == "_" + WithoutLeadingUnderscores(Collapsed(rest))
    ensures var u := WithoutLeadingUnderscores(Collapsed(rest)); u != "" ==> u[0] != '_'
  {
    CollapsedIsClean(rest);
    UnledIsClean(Collapsed(rest));
    var c := Collapsed(rest);
    assert c[0] == '_' && c == [c[0]] + c[1..];
    if c[1..] != "" { assert c[1..][0] == c[1]; }
  }

  function Trimmed(t: string): string {
    WithoutTrailingUnderscores(WithoutLeadingUnderscores(Collapsed(t)))
  }

  lemma GapIsSkipped(t: string)
    requires AllAllowed(t) && t != "" && t[0] == '_'
    ensures Trimmed(t) == Trimmed(t[1..])
  {
  }

  lemma WordIsKept(w: string, rest: string)
    requires IsWord(w) && w != "" && AllAllowed(rest) && (rest != "" ==> rest[0] == '_')
    ensures Trimmed(w + rest) == if Trimmed(rest) == "" then w else w + "_" + Trimmed(rest)
  {
    WordStays(w, rest);
    assert WithoutTrailingUnderscores(w) == w;
    if rest == "" {
      assert w + Collapsed(rest) == w;
    } else {
      GapCollapses(rest);
      var u := WithoutLeadingUnderscores(Collapsed(rest));
      assert w + ("_" + u) == (w + "_") + u;
      if u == "" {
        assert (w + "_")[..|w|] == w && (w + "_") + u == w + "_";
      } else {
        SomethingStays(u);
        TrailingOnly(w + "_", u);
      }
    }
  }

  lemma {:induction false} WordsAreSolid(s: string)
    ensures forall k :: 0 <= k < |Words(s)| ==> Words(s)[k] != ""
    decreases |s|
  {
    if s != "" {
      if IsWordChar(s[0]) { WordsAreSolid(s[WordLength(s)..]); } else { WordsAreSolid(s[1..]); }
    }
  }

  lemma UnderlinedIsSolid(ws: seq<string>)
    requires forall k :: 0 <= k < |ws| ==> ws[k] != ""
    ensures Underlined(ws) == "" <==> ws == []
  {
  }

  lemma {:induction false} TrimmingSpellsWords(t: string)
    requires AllAllowed(t)
    ensures Trimmed(t) == Underlined(Words(t))
    decreases |t|
  {
    if t != "" {
      if !IsWordChar(t[0]) {
        GapIsSkipped(t);
        TrimmingSpellsWords(t[1..]);
      } else {
        var n := WordLength(t);
        var w, rest := t[..n], t[n..];
        assert w + rest == t;
        TrimmingSpellsWords(rest);
        WordIsKept(w, rest);
        WordsAreSolid(rest);
        UnderlinedIsSolid(Words(rest));
        assert ([w] + Words(rest))[1..] == Words(rest);
      }
    }
  }

  /** A cleaned name is the words of the name, without digits at its front, joined by underscores. */
  lemma CleanedSpellsWords(name: string)
    ensures Cleaned(name) == Underlined(Words(WithoutLeadingDigits(name)))
  {
    var body := WithoutLeadingDigits(name);
    DigitsGoFirst(name);
    UnderscoredIsAllowed(body);
    TrimmingSpellsWords(Underscored(body));
    SameWords(body);
  }

  lemma {:induction false} OnlyAllowedHolds(s: string)
    ensures OnlyAllowed(s) != "" <==> exists k :: 0 <= k < |s| && IsAllowed(s[k])
  {
    if s != "" {
      OnlyAllowedHolds(s[1..]);
      if k :| 0 <= k < |s| && IsAllowed(s[k]) {
        if k > 0 { assert s[1..][k - 1] == s[k]; }
      }
      if OnlyAllowed(s[1..]) != "" {
        var k :| 0 <= k < |s[1..]| && IsAllowed(s[1..][k]);
        assert s[k + 1] == s[1..][k];
      }
    }
  }

  /** A function's name is the words of the name given, joined by underscores and cut at the
      limit; "unnamed" where there are none, and the digest of a name with no usable character. */
  lemma SanitizedSpellsWords(digest: Digest, name: string)
    requires IsDigest(digest)
    ensures var spelled := Underlined(Words(WithoutLeadingDigits(name)));
            var usable := exists k :: 0 <= k < |name| && IsAllowed(name[k]);
            && (!usable ==> Sanitized(digest, name) == "tool_" + digest(name))
            && (usable && spelled == "" ==> Sanitized(digest, name) == "unnamed")
            && (usable && spelled != "" ==>
                  Sanitized(digest, name) == if |spelled| <= 64 then spelled else spelled[..64])
  {
    OnlyAllowedHolds(name);
    CleanedSpellsWords(name);
  }
}
