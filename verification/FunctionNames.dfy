/** Names of the functions offered to the model: cleaned, at most 64 characters, and unique. */
module FunctionNames {
  import opened Text

  const MAX_FUNCTION_NAME_LENGTH := 64

  // ---- Cleaning a name ----

  predicate IsAllowed(c: char) {
    'a' <= c <= 'z' || 'A' <= c <= 'Z' || '0' <= c <= '9' || c == '_'
  }

  predicate AllAllowed(s: string) {
    forall k :: 0 <= k < |s| ==> IsAllowed(s[k])
  }

  /** No underscore follows another. */
  predicate Single(s: string) {
    forall k :: 0 <= k < |s| - 1 ==> s[k] != '_' || s[k + 1] != '_'
  }

  function OnlyAllowed(s: string): string {
    if s == [] then [] else (if IsAllowed(s[0]) then [s[0]] else []) + OnlyAllowed(s[1..])
  }

  function Underscored(s: string): string {
    if s == [] then [] else [if IsAllowed(s[0]) then s[0] else '_'] + Underscored(s[1..])
  }

  function WithoutLeadingDigits(s: string): string {
    if s != [] && IsDigit(s[0]) then WithoutLeadingDigits(s[1..]) else s
  }

  function Collapsed(s: string): string {
    if |s| < 2 then s
    else if s[0] == '_' && s[1] == '_' then Collapsed(s[1..])
    else [s[0]] + Collapsed(s[1..])
  }

  function WithoutLeadingUnderscores(s: string): string {
    if s != [] && s[0] == '_' then WithoutLeadingUnderscores(s[1..]) else s
  }

  function WithoutTrailingUnderscores(s: string): string {
    if s != [] && s[|s| - 1] == '_' then WithoutTrailingUnderscores(s[..|s| - 1]) else s
  }

  /** Python's `s[:n]`. */
  function Truncated(s: string, n: int): (r: string)
    ensures r <= s && (n >= 0 ==> |r| <= n)
  {
    if 0 <= n <= |s| then s[..n]
    else if n > |s| then s
    else if |s| + n > 0 then s[..|s| + n] else []
  }

  type Digest = string -> string

  predicate IsHexByte(s: string) {
    |s| == 8 && forall k :: 0 <= k < 8 ==> IsDigit(s[k]) || 'a' <= s[k] <= 'f'
  }

  /** A digest writes eight hexadecimal digits. */
  ghost predicate IsDigest(digest: Digest) {
    forall s: string :: IsHexByte(digest(s))
  }

  /** A name a function may have. */
  predicate IsFunctionName(s: string) {
    1 <= |s| <= MAX_FUNCTION_NAME_LENGTH && AllAllowed(s) && s[0] != '_' && Single(s)
  }

  predicate IsClean(s: string) {
    AllAllowed(s) && Single(s)
  }

  lemma SliceStaysClean(s: string, a: nat, b: nat)
    requires a <= b <= |s| && IsClean(s)
    ensures IsClean(s[a..b])
  {
  }

  function Cleaned(name: string): string {
    WithoutTrailingUnderscores(WithoutLeadingUnderscores(Collapsed(WithoutLeadingDigits(Underscored(name)))))
  }

  // ---- What each stage leaves ----

  lemma {:induction false} UnderscoredIsAllowed(s: string)
    ensures AllAllowed(Underscored(s))
  {
    if s != [] { UnderscoredIsAllowed(s[1..]); }
  }

  lemma {:induction false} UndigitedIsAllowed(s: string)
    requires AllAllowed(s)
    ensures AllAllowed(WithoutLeadingDigits(s))
  {
    if s != [] && IsDigit(s[0]) { UndigitedIsAllowed(s[1..]); }
  }

  lemma {:induction false} CollapsedIsClean(s: string)
    requires AllAllowed(s)
    ensures IsClean(Collapsed(s)) && (s != [] ==> Collapsed(s) != [] && Collapsed(s)[0] == s[0])
  {
    if |s| >= 2 { CollapsedIsClean(s[1..]); }
  }

  lemma {:induction false} UnledIsClean(s: string)
    requires IsClean(s)
    ensures IsClean(WithoutLeadingUnderscores(s))
    ensures WithoutLeadingUnderscores(s) != [] ==> WithoutLeadingUnderscores(s)[0] != '_'
  {
    if s != [] && s[0] == '_' {
      SliceStaysClean(s, 1, |s|);
      UnledIsClean(s[1..]);
    }
  }

  lemma {:induction false} UntrailedIsPrefix(s: string)
    ensures WithoutTrailingUnderscores(s) <= s
  {
    if s != [] && s[|s| - 1] == '_' { UntrailedIsPrefix(s[..|s| - 1]); }
  }

  lemma CleanedIsClean(name: string)
    ensures IsClean(Cleaned(name)) && (Cleaned(name) != [] ==> Cleaned(name)[0] != '_')
  {
    var undigited := WithoutLeadingDigits(Underscored(name));
    var unled := WithoutLeadingUnderscores(Collapsed(undigited));
    UnderscoredIsAllowed(name);
    UndigitedIsAllowed(Underscored(name));
    CollapsedIsClean(undigited);
    UnledIsClean(Collapsed(undigited));
    UntrailedIsPrefix(unled);
    SliceStaysClean(unled, 0, |Cleaned(name)|);
  }

  const UNNAMED := "unnamed"

  lemma UnnamedIsName()
    ensures IsFunctionName(UNNAMED)
  {
  }

  function Readable(name: string): (r: string)
    ensures IsFunctionName(r)
  {
    var clean := Cleaned(name);
    CleanedIsClean(name);
    var cut := Truncated(clean, MAX_FUNCTION_NAME_LENGTH);
    if cut == [] then UnnamedIsName(); UNNAMED
    else SliceStaysClean(clean, 0, |cut|); cut
  }

  function Hashed(hex: string): (r: string)
    requires IsHexByte(hex)
    ensures IsFunctionName(r)
  {
    "tool_" + hex
  }

  function Sanitized(digest: Digest, name: string): (r: string)
    requires IsDigest(digest)
    ensures IsFunctionName(r)
  {
    if OnlyAllowed(name) != [] then Readable(name)
    else
      assert IsHexByte(digest(name));
      Hashed(digest(name))
  }

  // ---- What each stage keeps ----

  lemma {:induction false} UnderscoredKeeps(s: string)
    requires AllAllowed(s)
    ensures Underscored(s) == s
  {
    if s != [] { UnderscoredKeeps(s[1..]); }
  }

  lemma {:induction false} CollapsedKeeps(s: string)
    requires Single(s)
    ensures Collapsed(s) == s
  {
    if |s| >= 2 {
      assert s == [s[0]] + s[1..];
      CollapsedKeeps(s[1..]);
    }
  }

  lemma CleanIsKept(name: string)
    requires IsFunctionName(name) && !IsDigit(name[0]) && name[|name| - 1] != '_'
    ensures Cleaned(name) == name
  {
    UnderscoredKeeps(name);
    assert WithoutLeadingDigits(name) == name;
    CollapsedKeeps(name);
    assert WithoutLeadingUnderscores(name) == name;
    assert WithoutTrailingUnderscores(name) == name;
  }

  /** A name that is already clean keeps its spelling. */
  lemma CleanNamesAreKept(digest: Digest, name: string)
    requires IsDigest(digest) && IsFunctionName(name) && !IsDigit(name[0]) && name[|name| - 1] != '_'
    ensures Sanitized(digest, name) == name
  {
    CleanIsKept(name);
    assert IsAllowed(name[0]);
  }

  // ---- Numbered candidates ----

  function Suffix(i: nat): (s: string)
    ensures |s| == 1 + |Decimal(i)| && s[0] == '_'
  {
    "_" + Decimal(i)
  }

  function Candidate(base: string, i: nat): string {
    Truncated(base, MAX_FUNCTION_NAME_LENGTH - |Suffix(i)|) + Suffix(i)
  }

  /** The digits at the end of a text. */
  function TrailingDigits(s: string): (r: string)
    ensures |r| <= |s| && r == s[|s| - |r|..] && AllDigits(r)
  {
    if s != [] && IsDigit(s[|s| - 1]) then TrailingDigits(s[..|s| - 1]) + [s[|s| - 1]] else []
  }

  lemma {:induction false} TrailingDigitsAfterUnderscore(head: string, digits: string)
    requires AllDigits(digits)
    ensures TrailingDigits(head + "_" + digits) == digits
  {
    var s := head + "_" + digits;
    if digits == [] {
      assert s[|s| - 1] == '_';
    } else {
      var shorter := digits[..|digits| - 1];
      TrailingDigitsAfterUnderscore(head, shorter);
      assert s[..|s| - 1] == head + "_" + shorter;
      assert digits == shorter + [digits[|digits| - 1]];
    }
  }

  /** Whatever is cut from the base, candidates with different numbers differ. */
  lemma CandidatesDiffer(base: string, i: nat, j: nat)
    requires Candidate(base, i) == Candidate(base, j)
    ensures i == j
  {
    var head, head' := Truncated(base, MAX_FUNCTION_NAME_LENGTH - |Suffix(i)|), Truncated(base, MAX_FUNCTION_NAME_LENGTH - |Suffix(j)|);
    assert Candidate(base, i) == head + "_" + Decimal(i) && Candidate(base, j) == head' + "_" + Decimal(j);
    TrailingDigitsAfterUnderscore(head, Decimal(i));
    TrailingDigitsAfterUnderscore(head', Decimal(j));
    NumeralOfDecimal(i);
    NumeralOfDecimal(j);
  }

  /** Distinct names that are all used are no more than the used names. */
  lemma {:induction false} DistinctNamesFit(name: nat -> string, n: nat, used: set<string>)
    requires forall i :: 2 <= i < n + 2 ==> name(i) in used
    requires forall i, j :: 2 <= i < j < n + 2 ==> name(i) != name(j)
    ensures n <= |used|
    decreases n
  {
    if n > 0 { DistinctNamesFit(name, n - 1, used - {name(n + 1)}); }
  }

  /** As many taken candidates as there are used names leave the next one free. */
  lemma TakenAreFew(base: string, used: set<string>, i: nat)
    requires i >= 2 && forall j :: 2 <= j < i ==> Candidate(base, j) in used
    ensures i - 2 <= |used|
  {
    var name := (k: nat) => Candidate(base, k);
    forall j, k | 2 <= j < k < i ensures name(j) != name(k) {
      if name(j) == name(k) { CandidatesDiffer(base, j, k); }
    }
    DistinctNamesFit(name, i - 2, used);
  }

  // ---- Lengths ----

  function PowerOfTen(k: nat): nat {
    if k == 0 then 1 else 10 * PowerOfTen(k - 1)
  }

  lemma {:induction false} DecimalLength(n: nat, k: nat)
    requires k >= 1 && n < PowerOfTen(k)
    ensures |Decimal(n)| <= k
    decreases k
  {
    if n >= 10 {
      DecimalLength(n / 10, k - 1);
    }
  }

  /** What no suffix can outgrow: names stay short while fewer than this many are in use. */
  predicate InSupply(i: nat) {
    i < PowerOfTen(MAX_FUNCTION_NAME_LENGTH - 1)
  }

  lemma SupplyLasts(i: nat, j: nat)
    requires i <= j && InSupply(j)
    ensures InSupply(i)
  {
  }

  lemma CandidateIsShort(base: string, i: nat)
    requires InSupply(i) && base != [] && AllAllowed(base)
    ensures 1 <= |Candidate(base, i)| <= MAX_FUNCTION_NAME_LENGTH && AllAllowed(Candidate(base, i))
  {
    DecimalLength(i, MAX_FUNCTION_NAME_LENGTH - 1);
  }

  // ---- Allocation ----

  /** The base if it is free, else the candidate with the least free number from 2 on. */
  ghost predicate IsFirstFree(name: string, base: string, used: set<string>) {
    && name !in used
    && (base !in used ==> name == base)
    && (base in used ==> exists i :: i >= 2 && name == Candidate(base, i) && TakenBelow(base, used, i))
  }

  predicate TakenBelow(base: string, used: set<string>, i: nat) {
    forall j :: 2 <= j < i ==> Candidate(base, j) in used
  }

  /** A name the model accepts: unlike a cleaned name it may hold a double underscore. */
  predicate IsShortName(s: string) {
    1 <= |s| <= MAX_FUNCTION_NAME_LENGTH && AllAllowed(s)
  }

  lemma TakenEndBelow(base: string, used: set<string>, i: nat, j: nat)
    requires i >= 2 && Candidate(base, i) !in used && TakenBelow(base, used, j)
    ensures j <= i
  {
  }

  lemma FirstFreeIsUnique(a: string, b: string, base: string, used: set<string>)
    requires IsFirstFree(a, base, used) && IsFirstFree(b, base, used)
    ensures a == b
  {
    if base in used {
      var i :| i >= 2 && a == Candidate(base, i) && TakenBelow(base, used, i);
      var j :| j >= 2 && b == Candidate(base, j) && TakenBelow(base, used, j);
      TakenEndBelow(base, used, i, j);
      TakenEndBelow(base, used, j, i);
    }
  }

  lemma FirstFreeIsShort(name: string, base: string, used: set<string>)
    requires IsFirstFree(name, base, used) && IsShortName(base) && InSupply(|used| + 2)
    ensures IsShortName(name)
  {
    if base in used {
      var i :| i >= 2 && name == Candidate(base, i) && TakenBelow(base, used, i);
      TakenAreFew(base, used, i);
      CandidateIsShort(base, i);
    }
  }

  lemma TakenGrows(base: string, used: set<string>, i: nat, name: string)
    requires i >= 2 && TakenBelow(base, used, i - 1) && name in used
    requires name == if i == 2 then base else Candidate(base, i - 1)
    ensures TakenBelow(base, used, i)
  {
  }

  /** The numbering loop both allocators run. */
  method FirstFreeName(base: string, used: set<string>) returns (name: string)
    ensures IsFirstFree(name, base, used)
  {
    name := base;
    var i := 2;
    while name in used
      invariant i >= 2 && TakenBelow(base, used, i - 1)
      invariant name == if i == 2 then base else Candidate(base, i - 1)
      invariant i > 2 ==> base in used
      decreases |used| + 3 - i
    {
      TakenGrows(base, used, i, name);
      TakenAreFew(base, used, i);
      var suffix := Suffix(i);
      name := Truncated(base, MAX_FUNCTION_NAME_LENGTH - |suffix|) + suffix;
      i := i + 1;
    }
  }

  function Elements(names: seq<string>): set<string> {
    set n | n in names
  }

  type Cleaner = string -> string

  ghost predicate ShortNames(clean: Cleaner) {
    forall s: string :: IsShortName(clean(s))
  }

  /** The cleaner the runtime uses. */
  ghost function Sanitizer(digest: Digest): (clean: Cleaner)
    requires IsDigest(digest)
    ensures ShortNames(clean)
  {
    name => Sanitized(digest, name)
  }

  /** Each name is the first one free once the names before it are taken. */
  ghost predicate Allocated(clean: Cleaner, bases: seq<string>, names: seq<string>, used: set<string>) {
    && |names| == |bases|
    && (names != [] ==>
      && Allocated(clean, bases[..|bases| - 1], names[..|names| - 1], used)
      && IsFirstFree(names[|names| - 1], clean(bases[|bases| - 1]), used + Elements(names[..|names| - 1])))
  }

  lemma AllocatedExtends(clean: Cleaner, bases: seq<string>, names: seq<string>, used: set<string>, base: string, name: string)
    requires Allocated(clean, bases, names, used)
    requires IsFirstFree(name, clean(base), used + Elements(names))
    ensures Allocated(clean, bases + [base], names + [name], used)
  {
    assert (bases + [base])[..|bases|] == bases && (names + [name])[..|names|] == names;
  }

  /** The names follow from the bases alone: allocation is deterministic. */
  lemma {:induction false} AllocationIsUnique(clean: Cleaner, bases: seq<string>, a: seq<string>, b: seq<string>, used: set<string>)
    requires Allocated(clean, bases, a, used) && Allocated(clean, bases, b, used)
    ensures a == b
  {
    if bases != [] {
      var a', b' := a[..|a| - 1], b[..|b| - 1];
      AllocationIsUnique(clean, bases[..|bases| - 1], a', b', used);
      FirstFreeIsUnique(a[|a| - 1], b[|b| - 1], clean(bases[|bases| - 1]), used + Elements(a'));
      assert a == a' + [a[|a| - 1]] && b == b' + [b[|b| - 1]];
    }
  }

  lemma {:induction false} ElementsCount(names: seq<string>)
    ensures |Elements(names)| <= |names|
  {
    if names != [] {
      ElementsCount(names[..|names| - 1]);
      assert Elements(names) == Elements(names[..|names| - 1]) + {names[|names| - 1]};
    }
  }

  /** For any list of skill and tool names the function names are pairwise distinct, new, and short. */
  lemma {:induction false} AllocatedAreDistinct(clean: Cleaner, bases: seq<string>, names: seq<string>, used: set<string>)
    requires Allocated(clean, bases, names, used)
    ensures forall k :: 0 <= k < |names| ==> names[k] !in used
    ensures forall j, k :: 0 <= j < k < |names| ==> names[j] != names[k]
    ensures ShortNames(clean) && InSupply(|used| + |bases| + 2) ==> forall k :: 0 <= k < |names| ==> IsShortName(names[k])
  {
    if names != [] {
      var shorter, last := names[..|names| - 1], names[|names| - 1];
      AllocatedAreDistinct(clean, bases[..|bases| - 1], shorter, used);
      assert names == shorter + [last];
      LastIsNew(shorter, last, used);
      if ShortNames(clean) && InSupply(|used| + |bases| + 2) {
        SupplyLasts(|used| + |shorter| + 2, |used| + |bases| + 2);
        LastIsShort(clean, bases[|bases| - 1], shorter, last, used, |used| + |bases| + 2);
      }
    }
  }

  /** So it is for the names the runtime gives its functions. */
  lemma FunctionNamesAreShortAndDistinct(digest: Digest, bases: seq<string>, names: seq<string>)
    requires IsDigest(digest) && Allocated(Sanitizer(digest), bases, names, {}) && InSupply(|bases| + 2)
    ensures forall k :: 0 <= k < |names| ==> IsShortName(names[k])
    ensures forall j, k :: 0 <= j < k < |names| ==> names[j] != names[k]
  {
    AllocatedAreDistinct(Sanitizer(digest), bases, names, {});
  }

  lemma LastIsNew(shorter: seq<string>, last: string, used: set<string>)
    requires last !in used + Elements(shorter)
    ensures last !in used && forall j :: 0 <= j < |shorter| ==> shorter[j] != last
  {
    forall j | 0 <= j < |shorter| ensures shorter[j] != last { assert shorter[j] in Elements(shorter); }
  }

  lemma LastIsShort(clean: Cleaner, base: string, shorter: seq<string>, last: string, used: set<string>, supply: nat)
    requires IsFirstFree(last, clean(base), used + Elements(shorter))
    requires ShortNames(clean) && |used| + |shorter| + 2 <= supply && InSupply(supply)
    ensures IsShortName(last)
  {
    var taken := used + Elements(shorter);
    assert IsShortName(clean(base));
    ElementsCount(shorter);
    assert |taken| <= |used| + |Elements(shorter)|;
    SupplyLasts(|taken| + 2, supply);
    FirstFreeIsShort(last, clean(base), taken);
  }

  class NameTable {
    const clean: Cleaner
    var used: set<string>

    constructor (clean: Cleaner)
      ensures this.clean == clean && used == {}
    {
      this.clean := clean;
      used := {};
    }

    method UniqueName(base: string) returns (name: string)
      modifies this
      ensures IsFirstFree(name, clean(base), old(used))
      ensures used == old(used) + {name}
    {
      name := FirstFreeName(clean(base), used);
      used := used + {name};
    }

    method UniqueNames(bases: seq<string>) returns (names: seq<string>)
      modifies this
      ensures Allocated(clean, bases, names, old(used)) && used == old(used) + Elements(names)
    {
      names := [];
      while |names| < |bases|
        invariant |names| <= |bases| && used == old(used) + Elements(names)
        invariant Allocated(clean, bases[..|names|], names, old(used))
      {
        var n := |names|;
        var name := UniqueName(bases[n]);
        AllocatedExtends(clean, bases[..n], names, old(used), bases[n], name);
        assert bases[..n + 1] == bases[..n] + [bases[n]];
        names := names + [name];
      }
      assert bases[..|bases|] == bases;
    }
  }

  /** Every tool is found under its own name, and nothing else is. */
  predicate Keyed<T(==)>(toolMap: map<string, T>, names: seq<string>, tools: seq<T>) {
    && |names| == |tools| == |toolMap| && toolMap.Keys == Elements(names)
    && forall k :: 0 <= k < |tools| ==> names[k] in toolMap && toolMap[names[k]] == tools[k]
  }

  lemma KeyedExtends<T>(toolMap: map<string, T>, names: seq<string>, tools: seq<T>, name: string, tool: T)
    requires Keyed(toolMap, names, tools) && name !in toolMap
    ensures Keyed(toolMap[name := tool], names + [name], tools + [tool])
  {
    var names', grown := names + [name], toolMap[name := tool];
    assert Elements(names') == Elements(names) + {name};
    forall k | 0 <= k < |names'| ensures names'[k] in grown && grown[names'[k]] == (tools + [tool])[k] {
      if k < |names| { assert names[k] in toolMap && names[k] != name; }
    }
  }

  function NamesOf<T>(tools: seq<T>, nameOf: T -> string): seq<string> {
    seq(|tools|, i requires 0 <= i < |tools| => nameOf(tools[i]))
  }

  lemma NamesOfExtends<T>(tools: seq<T>, nameOf: T -> string, n: nat)
    requires n < |tools|
    ensures tools[..n + 1] == tools[..n] + [tools[n]]
    ensures NamesOf(tools[..n + 1], nameOf) == NamesOf(tools[..n], nameOf) + [nameOf(tools[n])]
  {
  }

  lemma AllocatedNext<T>(clean: Cleaner, tools: seq<T>, nameOf: T -> string, names: seq<string>, used: set<string>, name: string)
    requires |names| < |tools| && used == Elements(names) && Allocated(clean, NamesOf(tools[..|names|], nameOf), names, {})
    requires IsFirstFree(name, clean(nameOf(tools[|names|])), used)
    ensures Allocated(clean, NamesOf(tools[..|names| + 1], nameOf), names + [name], {})
    ensures tools[..|names| + 1] == tools[..|names|] + [tools[|names|]]
  {
    NamesOfExtends(tools, nameOf, |names|);
    assert {} + used == used;
    AllocatedExtends(clean, NamesOf(tools[..|names|], nameOf), names, {}, nameOf(tools[|names|]), name);
  }

  /** The tools of one skill keyed by their function names: no tool hides another. */
  method NameTools<T(==)>(clean: Cleaner, tools: seq<T>, nameOf: T -> string) returns (names: seq<string>, toolMap: map<string, T>)
    ensures Allocated(clean, NamesOf(tools, nameOf), names, {})
    ensures Keyed(toolMap, names, tools)
  {
    names, toolMap := [], map[];
    while |names| < |tools|
      invariant |names| <= |tools| && Keyed(toolMap, names, tools[..|names|])
      invariant Allocated(clean, NamesOf(tools[..|names|], nameOf), names, {})
    {
      var tool := tools[|names|];
      var funcName := FirstFreeName(clean(nameOf(tool)), toolMap.Keys);
      AllocatedNext(clean, tools, nameOf, names, toolMap.Keys, funcName);
      KeyedExtends(toolMap, names, tools[..|names|], funcName, tool);
      names := names + [funcName];
      toolMap := toolMap[funcName := tool];
    }
    assert tools[..|tools|] == tools;
  }
}
