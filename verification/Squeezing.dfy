/** Text up to white space: what remains of it, and when one text keeps all of another. */
module Squeezing {
  import opened Text

  /** The text without its white space. */
  function Squeeze(s: string): string {
    if s == "" then "" else
      Squeeze(s[..|s| - 1]) + if IsSpace(s[|s| - 1]) then "" else [s[|s| - 1]]
  }

  function SqueezeAll(parts: seq<string>): string {
    if parts == [] then "" else SqueezeAll(parts[..|parts| - 1]) + Squeeze(parts[|parts| - 1])
  }

  /** `kept` holds the characters of `s` in order, and perhaps others. */
  predicate Keeps(kept: string, s: string) {
    || s == ""
    || (kept != "" && ((kept[0] == s[0] && Keeps(kept[1..], s[1..])) || Keeps(kept[1..], s)))
  }

  lemma {:induction false} SqueezeAppend(a: string, b: string)
    ensures Squeeze(a + b) == Squeeze(a) + Squeeze(b)
  {
    if b == "" {
      assert a + b == a;
    } else {
      SqueezeAppend(a, b[..|b| - 1]);
      assert (a + b)[..|a + b| - 1] == a + b[..|b| - 1];
    }
  }

  lemma {:induction false} SqueezeAllAppend(a: seq<string>, b: seq<string>)
    ensures SqueezeAll(a + b) == SqueezeAll(a) + SqueezeAll(b)
  {
    if b == [] {
      assert a + b == a;
    } else {
      SqueezeAllAppend(a, b[..|b| - 1]);
      LastOfAppend(a, b);
      Regroup(SqueezeAll(a), SqueezeAll(b[..|b| - 1]), Squeeze(b[|b| - 1]));
    }
  }

  lemma Regroup(a: string, b: string, c: string)
    ensures (a + b) + c == a + (b + c)
  {
  }

  lemma LastOfAppend<T>(a: seq<T>, b: seq<T>)
    requires b != []
    ensures (a + b)[..|a + b| - 1] == a + b[..|b| - 1] && (a + b)[|a + b| - 1] == b[|b| - 1]
  {
  }

  lemma SqueezeAllOne(s: string)
    ensures SqueezeAll([s]) == Squeeze(s)
  {
    assert [s][..0] == [];
  }

  lemma SqueezeAllSnoc(parts: seq<string>, s: string)
    ensures SqueezeAll(parts + [s]) == SqueezeAll(parts) + Squeeze(s)
  {
    assert (parts + [s])[..|parts|] == parts;
  }

  lemma {:induction false} BlankSqueezesAway(s: string)
    requires IsBlank(s)
    ensures Squeeze(s) == ""
  {
    if s != "" { BlankSqueezesAway(s[..|s| - 1]); }
  }

  lemma {:induction false} SolidStays(s: string)
    requires forall k :: 0 <= k < |s| ==> !IsSpace(s[k])
    ensures Squeeze(s) == s
  {
    if s != "" {
      SolidStays(s[..|s| - 1]);
      assert s == s[..|s| - 1] + [s[|s| - 1]];
    }
  }

  lemma {:induction false} SqueezeIsShorter(s: string)
    ensures |Squeeze(s)| <= |s|
    ensures forall c :: c in Squeeze(s) ==> c in s
  {
    if s != "" { SqueezeIsShorter(s[..|s| - 1]); }
  }

  lemma PaddingSqueezesAway(left: string, s: string, right: string)
    requires IsBlank(left) && IsBlank(right)
    ensures Squeeze(left + s + right) == Squeeze(s)
  {
    BlankSqueezesAway(left);
    BlankSqueezesAway(right);
    SqueezeAppend(left + s, right);
    SqueezeAppend(left, s);
  }

  lemma StripSqueezes(s: string)
    ensures Squeeze(Strip(s)) == Squeeze(s)
  {
    var left, right := StripPads(s);
    PaddingSqueezesAway(left, Strip(s), right);
  }

  lemma StripIsPart(s: string)
    ensures |Strip(s)| <= |s|
    ensures forall c :: c in Strip(s) ==> c in s
  {
    var left, right := StripPads(s);
    forall c | c in Strip(s) ensures c in s { assert c in left + Strip(s); }
  }

  lemma JoinSqueezes(a: string, sep: string, b: string)
    requires IsBlank(sep)
    ensures Squeeze(Strip(a + sep + b)) == Squeeze(a) + Squeeze(b)
  {
    StripSqueezes(a + sep + b);
    SqueezeAppend(a + sep, b);
    SqueezeAppend(a, sep);
    BlankSqueezesAway(sep);
  }

  // ---- Keeping ----

  lemma {:induction false} KeepsItself(s: string)
    ensures Keeps(s, s)
  {
    if s != "" { KeepsItself(s[1..]); }
  }

  lemma {:induction false} KeepsMore(extra: string, kept: string, s: string)
    requires Keeps(kept, s)
    ensures Keeps(extra + kept, s)
  {
    if extra == "" {
      assert extra + kept == kept;
    } else {
      KeepsMore(extra[1..], kept, s);
      assert (extra + kept)[1..] == extra[1..] + kept;
    }
  }

  lemma {:induction false} KeepsFirst(kept: string, s: string)
    requires Keeps(kept, s) && s != ""
    ensures Keeps(kept, s[1..])
  {
    if s != [] {
      if Keeps(kept[1..], s) {
        KeepsFirst(kept[1..], s);
      }
      KeepsMore([kept[0]], kept[1..], s[1..]);
      assert [kept[0]] + kept[1..] == kept;
    }
  }

  lemma {:induction false} KeepsSuffix(kept: string, a: string, b: string)
    requires Keeps(kept, a + b)
    ensures Keeps(kept, b)
  {
    if a == "" {
      assert a + b == b;
    } else {
      KeepsFirst(kept, a + b);
      assert (a + b)[1..] == a[1..] + b;
      KeepsSuffix(kept, a[1..], b);
    }
  }

  lemma {:induction false} KeepsAppend(kept: string, s: string, kept': string, s': string)
    requires Keeps(kept, s) && Keeps(kept', s')
    ensures Keeps(kept + kept', s + s')
    decreases |kept|
  {
    if s == "" {
      assert s + s' == s';
      KeepsMore(kept, kept', s');
    } else {
      assert (kept + kept')[1..] == kept[1..] + kept' && (s + s')[1..] == s[1..] + s';
      if kept[0] == s[0] && Keeps(kept[1..], s[1..]) {
        KeepsAppend(kept[1..], s[1..], kept', s');
      } else {
        KeepsAppend(kept[1..], s, kept', s');
      }
    }
  }

  /** What is kept is no longer than what keeps it, and made of its characters. */
  lemma {:induction false} KeptIsPart(kept: string, s: string)
    requires Keeps(kept, s)
    ensures |s| <= |kept|
    ensures forall c :: c in s ==> c in kept
  {
    if s != "" {
      if kept[0] == s[0] && Keeps(kept[1..], s[1..]) {
        KeptIsPart(kept[1..], s[1..]);
        forall c | c in s ensures c in kept { assert c == s[0] || c in s[1..]; }
      } else {
        KeptIsPart(kept[1..], s);
      }
    }
  }

  // ---- Splitting ----

  /** Python's `s.split(sep)`: the separators are found from the left. */
  function SplitOn(s: string, sep: string): (parts: seq<string>)
    requires sep != ""
    ensures parts != []
    decreases |s|
  {
    if s == "" then [""]
    else if sep <= s then [""] + SplitOn(s[|sep|..], sep)
    else
      var rest := SplitOn(s[1..], sep);
      [[s[0]] + rest[0]] + rest[1..]
  }

  function Joined(parts: seq<string>, sep: string): string
    requires parts != []
  {
    if |parts| == 1 then parts[0] else parts[0] + sep + Joined(parts[1..], sep)
  }

  /** Splitting takes out separators only: joining the parts gives the text back. */
  lemma {:induction false} JoinUndoesSplit(s: string, sep: string)
    requires sep != ""
    ensures Joined(SplitOn(s, sep), sep) == s
    decreases |s|
  {
    if s != "" {
      if sep <= s {
        var rest := SplitOn(s[|sep|..], sep);
        JoinUndoesSplit(s[|sep|..], sep);
        assert ([""] + rest)[1..] == rest;
        assert s == "" + sep + s[|sep|..];
      } else {
        var rest := SplitOn(s[1..], sep);
        JoinUndoesSplit(s[1..], sep);
        JoinedFirst(s[0], rest, sep);
      }
    }
  }

  lemma JoinedFirst(c: char, rest: seq<string>, sep: string)
    requires rest != []
    ensures Joined([[c] + rest[0]] + rest[1..], sep) == [c] + Joined(rest, sep)
  {
    var parts := [[c] + rest[0]] + rest[1..];
    assert parts[1..] == rest[1..];
    if |rest| > 1 {
      assert [c] + rest[0] + sep + Joined(rest[1..], sep) == [c] + (rest[0] + sep + Joined(rest[1..], sep));
    }
  }

  lemma PrefixStartsAlike(a: string, b: string)
    requires a != "" && b != "" && a[0] != b[0]
    ensures !(a <= b)
  {
  }

  lemma {:induction false} SplitFindsNone(s: string, sep: string)
    requires sep != "" && forall k :: 0 <= k < |s| ==> s[k] != sep[0]
    ensures SplitOn(s, sep) == [s]
    decreases |s|
  {
    if s != "" {
      SplitFindsNone(s[1..], sep);
      PrefixStartsAlike(sep, s);
      var rest := [s[1..]];
      assert [s[0]] + rest[0] == s && [s] + rest[1..] == [s];
    }
  }

  /** A part stripped of white space, unless nothing is left. */
  function Solid(s: string): seq<string> {
    if Strip(s) == "" then [] else [Strip(s)]
  }

  function Stripped(parts: seq<string>): seq<string> {
    if parts == [] then [] else Stripped(parts[..|parts| - 1]) + Solid(parts[|parts| - 1])
  }

  function Parts(s: string, sep: string): seq<string>
    requires sep != ""
  {
    Stripped(SplitOn(s, sep))
  }

  lemma SolidSqueezes(s: string)
    ensures SqueezeAll(Solid(s)) == Squeeze(s)
    ensures forall p :: p in Solid(s) ==> p != ""
  {
    StripSqueezes(s);
    SqueezeAllOne(Strip(s));
  }

  lemma {:induction false} StrippedSqueezes(parts: seq<string>)
    ensures SqueezeAll(Stripped(parts)) == SqueezeAll(parts)
    ensures forall p :: p in Stripped(parts) ==> p != ""
  {
    if parts != [] {
      var init, last := parts[..|parts| - 1], parts[|parts| - 1];
      StrippedSqueezes(init);
      SolidSqueezes(last);
      SqueezeAllAppend(Stripped(init), Solid(last));
    }
  }

  lemma {:induction false} JoinedSqueezes(parts: seq<string>, sep: string)
    requires parts != [] && IsBlank(sep)
    ensures Squeeze(Joined(parts, sep)) == SqueezeAll(parts)
  {
    assert parts == [parts[0]] + parts[1..];
    SqueezeAllAppend([parts[0]], parts[1..]);
    SqueezeAllOne(parts[0]);
    if |parts| > 1 {
      JoinedSqueezes(parts[1..], sep);
      SqueezeAppend(parts[0] + sep, Joined(parts[1..], sep));
      SqueezeAppend(parts[0], sep);
      BlankSqueezesAway(sep);
    }
  }

  /** Splitting at white space and stripping loses white space only. */
  lemma PartsSqueeze(s: string, sep: string)
    requires sep != "" && IsBlank(sep)
    ensures SqueezeAll(Parts(s, sep)) == Squeeze(s)
    ensures forall p :: p in Parts(s, sep) ==> p != ""
  {
    JoinUndoesSplit(s, sep);
    JoinedSqueezes(SplitOn(s, sep), sep);
    StrippedSqueezes(SplitOn(s, sep));
  }

  lemma OnePart(s: string, sep: string)
    requires sep != "" && s != "" && forall k :: 0 <= k < |s| ==> s[k] != sep[0] && !IsSpace(s[k])
    ensures Parts(s, sep) == [s]
  {
    SplitFindsNone(s, sep);
    StripKeeps(s);
    assert Solid(s) == [s];
    assert [s][..0] == [] && Stripped([]) == [] && [] + [s] == [s];
  }
}
