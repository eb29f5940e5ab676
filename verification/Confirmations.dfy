/** Reading a reply to a confirmation question: which texts affirm, which refuse, and that no
    other text does. */
module Confirmations {
  import opened Options
  import opened Text

  function LowerChar(c: char): char {
    if 'A' <= c <= 'Z' then (c as int + 32) as char else c
  }

  function Lower(s: string): string {
    seq(|s|, i requires 0 <= i < |s| => LowerChar(s[i]))
  }

  function DropTrailing(s: string, marks: string): string {
    if s != [] && s[|s| - 1] in marks then DropTrailing(s[..|s| - 1], marks) else s
  }

  const MARKS := ".!。！"
  const NEGATIVE_WORDS := {"不", "n", "no"}
  const NEGATIVE_PARTS := {"取消", "不是", "不对", "不行", "重新", "修改", "cancel", "不确认", "不要", "不同意", "not", "don't"}
  const AFFIRMATIVE_WORDS :=
    {"y", "yes", "ok", "sure", "确认", "确定", "是", "好", "对", "行", "可以", "没问题", "正确", "confirm"}

  /** What is read of a text: no case, no blanks around it, no marks behind it. */
  function Reading(text: string): string {
    DropTrailing(Lower(Strip(text)), MARKS)
  }

  /** Some(true) only for an explicit affirmative, Some(false) for a refusal. */
  function ConfirmationIntent(text: string): Option<bool> {
    IntentOf(Reading(text))
  }

  function IntentOf(t: string): Option<bool> {
    if t in NEGATIVE_WORDS || exists part :: part in NEGATIVE_PARTS && Contains(t, part) then Some(false)
    else if t in AFFIRMATIVE_WORDS then Some(true)
    else None
  }

  // ---- What a reply says ----

  predicate AllMarks(s: string) {
    forall k :: 0 <= k < |s| ==> s[k] in MARKS
  }

  /** The text is the word in any case, padded with blanks and followed by marks. */
  ghost predicate Spells(text: string, word: string) {
    exists left, cased, marks, right ::
      && text == left + cased + marks + right
      && IsBlank(left) && Lower(cased) == word && AllMarks(marks) && IsBlank(right)
  }

  /** The part occurs in the text, in any case. */
  ghost predicate Mentions(text: string, part: string) {
    exists before, cased, after :: text == before + cased + after && Lower(cased) == part
  }

  ghost predicate Affirms(text: string) {
    exists word :: word in AFFIRMATIVE_WORDS && Spells(text, word)
  }

  ghost predicate Refuses(text: string) {
    || (exists word :: word in NEGATIVE_WORDS && Spells(text, word))
    || (exists part :: part in NEGATIVE_PARTS && Mentions(text, part))
  }

  // ---- Parts of texts ----

  lemma LowerAppend(a: string, b: string)
    ensures Lower(a + b) == Lower(a) + Lower(b)
  {
  }

  lemma LowerSlice(s: string, i: nat, j: nat)
    requires i <= j <= |s|
    ensures Lower(s[i..j]) == Lower(s)[i..j]
  {
  }

  lemma {:induction false} StripLeftOf(left: string, body: string)
    requires IsBlank(left) && (body == [] || !IsSpace(body[0]))
    ensures StripLeft(left + body) == body
  {
    if left != [] {
      assert (left + body)[1..] == left[1..] + body;
      StripLeftOf(left[1..], body);
    } else {
      assert left + body == body;
    }
  }

  lemma {:induction false} StripRightOf(body: string, right: string)
    requires IsBlank(right) && (body == [] || !IsSpace(body[|body| - 1]))
    ensures StripRight(body + right) == body
  {
    if right != [] {
      var init := right[..|right| - 1];
      assert (body + right)[..|body + right| - 1] == body + init;
      StripRightOf(body, init);
    } else {
      assert body + right == body;
    }
  }

  /** Stripping finds the body between the blanks. */
  lemma StripOf(left: string, body: string, right: string)
    requires IsBlank(left) && IsBlank(right) && body != [] && !IsSpace(body[0]) && !IsSpace(body[|body| - 1])
    ensures Strip(left + body + right) == body
  {
    assert left + body + right == left + (body + right);
    StripLeftOf(left, body + right);
    StripRightOf(body, right);
  }

  lemma {:induction false} DropTrailingOf(word: string, marks: string)
    requires AllMarks(marks) && word != [] && word[|word| - 1] !in MARKS
    ensures DropTrailing(word + marks, MARKS) == word
  {
    if marks != [] {
      var init := marks[..|marks| - 1];
      assert (word + marks)[..|word + marks| - 1] == word + init;
      DropTrailingOf(word, init);
    } else {
      assert word + marks == word;
    }
  }

  lemma {:induction false} DropTrailingSplits(s: string) returns (marks: string)
    ensures s == DropTrailing(s, MARKS) + marks && AllMarks(marks)
  {
    marks := [];
    if s != [] && s[|s| - 1] in MARKS {
      var rest := DropTrailingSplits(s[..|s| - 1]);
      marks := rest + [s[|s| - 1]];
    }
  }

  /** How a text is put together from what is read of it. */
  lemma ReadingSplits(text: string) returns (left: string, cased: string, marks: string, right: string)
    ensures text == left + cased + marks + right && IsBlank(left) && IsBlank(right) && AllMarks(marks)
    ensures Lower(cased) == Reading(text)
  {
    left, right := StripPads(text);
    var body := Strip(text);
    var lowered := DropTrailingSplits(Lower(body));
    var n := |Reading(text)|;
    cased, marks := body[..n], body[n..];
    LowerSlice(body, 0, n);
    LowerSlice(body, n, |body|);
    assert Lower(marks) == lowered;
    forall k | 0 <= k < |marks| ensures marks[k] in MARKS {
      assert lowered[k] == LowerChar(marks[k]) && lowered[k] in MARKS;
    }
    assert left + body + right == left + (cased + marks) + right;
  }

  /** A plain word has no blanks and no marks, so that padding and marks can be told from it. */
  predicate IsPlain(word: string) {
    word != [] && forall k :: 0 <= k < |word| ==> !IsSpace(word[k]) && word[k] !in MARKS
  }

  lemma LowerKeepsPlain(cased: string)
    requires IsPlain(Lower(cased))
    ensures IsPlain(cased)
  {
    forall k | 0 <= k < |cased| ensures !IsSpace(cased[k]) && cased[k] !in MARKS {
      assert !IsSpace(Lower(cased)[k]) && Lower(cased)[k] !in MARKS;
    }
  }

  lemma LowerMarks(marks: string)
    requires AllMarks(marks)
    ensures Lower(marks) == marks
  {
  }

  lemma SpelledIsRead(left: string, cased: string, marks: string, right: string)
    requires IsBlank(left) && IsPlain(Lower(cased)) && AllMarks(marks) && IsBlank(right)
    ensures Reading(left + cased + marks + right) == Lower(cased)
  {
    LowerKeepsPlain(cased);
    var body := cased + marks;
    assert left + cased + marks + right == left + body + right;
    StripOf(left, body, right);
    LowerAppend(cased, marks);
    LowerMarks(marks);
    DropTrailingOf(Lower(cased), marks);
  }

  /** A text spells a plain word exactly when that is what is read of it. */
  lemma SpellsWhatIsRead(text: string, word: string)
    requires IsPlain(word)
    ensures Spells(text, word) <==> Reading(text) == word
  {
    if Reading(text) == word {
      var left, cased, marks, right := ReadingSplits(text);
    }
    if Spells(text, word) {
      var left, cased, marks, right :|
        text == left + cased + marks + right
        && IsBlank(left) && Lower(cased) == word && AllMarks(marks) && IsBlank(right);
      SpelledIsRead(left, cased, marks, right);
    }
  }

  lemma ReadIsMentioned(text: string, part: string)
    requires Contains(Reading(text), part)
    ensures Mentions(text, part)
  {
    var left, cased, marks, right := ReadingSplits(text);
    var i := ContainsAt(Lower(cased), part);
    var j := i + |part|;
    LowerSlice(cased, i, j);
    assert text == (left + cased[..i]) + cased[i..j] + (cased[j..] + marks + right);
  }

  lemma CharOf(left: string, cased: string, tail: string, k: nat)
    requires k < |left + cased + tail|
    ensures k < |left| ==> (left + cased + tail)[k] == left[k]
    ensures |left| <= k < |left| + |cased| ==> (left + cased + tail)[k] == cased[k - |left|]
    ensures k >= |left| + |cased| ==> (left + cased + tail)[k] == tail[k - |left| - |cased|]
  {
  }

  /** A plain occurrence lies between the blanks before and the marks and blanks behind. */
  lemma OccursInside(text: string, left: string, cased: string, tail: string, at: nat, found: string)
    requires text == left + cased + tail && IsBlank(left) && IsPlain(found)
    requires forall k :: 0 <= k < |tail| ==> tail[k] in MARKS || IsSpace(tail[k])
    requires at + |found| <= |text| && text[at..at + |found|] == found
    ensures |left| <= at && at + |found| <= |left| + |cased|
    ensures cased[at - |left|..at - |left| + |found|] == found
  {
    var last := at + |found| - 1;
    CharOf(left, cased, tail, at);
    CharOf(left, cased, tail, last);
    assert text[at..at + |found|][0] == found[0] && text[at..at + |found|][|found| - 1] == found[|found| - 1];
    assert |left| <= at && at + |found| <= |left| + |cased|;
    SliceOfMiddle(left, cased, tail, at, |found|);
  }

  lemma SliceOfMiddle(left: string, cased: string, tail: string, at: nat, n: nat)
    requires |left| <= at && at + n <= |left| + |cased|
    ensures (left + cased + tail)[at..at + n] == cased[at - |left|..at - |left| + n]
  {
  }

  lemma MentionIsRead(text: string, part: string)
    requires IsPlain(part) && Mentions(text, part)
    ensures Contains(Reading(text), part)
  {
    var before, found, after :| text == before + found + after && Lower(found) == part;
    MentionIsReadAt(text, part, before, found, after);
  }

  lemma MiddleOf(text: string, before: string, found: string, after: string)
    requires text == before + found + after
    ensures |before| + |found| <= |text| && text[|before|..|before| + |found|] == found
  {
  }

  lemma MarksThenBlanks(marks: string, right: string)
    requires AllMarks(marks) && IsBlank(right)
    ensures forall k :: 0 <= k < |marks + right| ==> (marks + right)[k] in MARKS || IsSpace((marks + right)[k])
  {
  }

  lemma CasedContains(cased: string, found: string, part: string, i: nat)
    requires i + |found| <= |cased| && cased[i..i + |found|] == found && Lower(found) == part
    ensures Contains(Lower(cased), part)
  {
    LowerSlice(cased, i, i + |found|);
    ContainedIfAt(Lower(cased), part, i);
  }

  lemma MentionIsReadAt(text: string, part: string, before: string, found: string, after: string)
    requires IsPlain(part) && text == before + found + after && Lower(found) == part
    ensures Contains(Reading(text), part)
  {
    var left, cased, marks, right := ReadingSplits(text);
    LowerKeepsPlain(found);
    Regrouped(left, cased, marks, right);
    MarksThenBlanks(marks, right);
    MiddleOf(text, before, found, after);
    OccursInside(text, left, cased, marks + right, |before|, found);
    CasedContains(cased, found, part, |before| - |left|);
  }

  lemma Regrouped(a: string, b: string, c: string, d: string)
    ensures a + b + c + d == a + b + (c + d)
  {
  }

  // ---- The words ----

  lemma WordIsPlain(word: string)
    requires word in NEGATIVE_WORDS || word in NEGATIVE_PARTS || word in AFFIRMATIVE_WORDS
    ensures IsPlain(word)
  {
  }

  lemma PartBeginsSomewhere(word: string, part: string)
    requires |part| >= 2
    ensures Contains(word, part) ==> exists i :: 0 <= i < |word| - 1 && word[i] == part[0] && word[i + 1] == part[1]
  {
    if Contains(word, part) {
      var i := ContainsAt(word, part);
      var found := word[i..i + |part|];
      assert found[0] == word[i] && found[1] == word[i + 1];
    }
  }

  lemma PairsDiffer(word: string, part: string, i: nat)
    requires word in AFFIRMATIVE_WORDS && part in NEGATIVE_PARTS && i < |word| - 1
    ensures |part| >= 2 && (word[i] != part[0] || word[i + 1] != part[1])
  {
  }

  lemma PartsAreLonger(part: string)
    requires part in NEGATIVE_PARTS
    ensures |part| >= 2
  {
  }

  /** No affirmative word holds a refusing part. */
  lemma AffirmativesHoldNoRefusal(word: string, part: string)
    requires word in AFFIRMATIVE_WORDS && part in NEGATIVE_PARTS
    ensures !Contains(word, part)
  {
    PartsAreLonger(part);
    PartBeginsSomewhere(word, part);
    forall i | 0 <= i < |word| - 1 ensures word[i] != part[0] || word[i + 1] != part[1] { PairsDiffer(word, part, i); }
  }

  // ---- Exactly which texts affirm and refuse ----

  lemma ReadRefusals(text: string)
    ensures Refuses(text) <==>
            Reading(text) in NEGATIVE_WORDS || exists part :: part in NEGATIVE_PARTS && Contains(Reading(text), part)
  {
    forall word | word in NEGATIVE_WORDS ensures Spells(text, word) <==> Reading(text) == word {
      WordIsPlain(word);
      SpellsWhatIsRead(text, word);
    }
    forall part | part in NEGATIVE_PARTS ensures Mentions(text, part) <==> Contains(Reading(text), part) {
      WordIsPlain(part);
      if Mentions(text, part) { MentionIsRead(text, part); }
      if Contains(Reading(text), part) { ReadIsMentioned(text, part); }
    }
  }

  lemma ReadAffirmatives(text: string)
    ensures Affirms(text) <==> Reading(text) in AFFIRMATIVE_WORDS
  {
    forall word | word in AFFIRMATIVE_WORDS ensures Spells(text, word) <==> Reading(text) == word {
      WordIsPlain(word);
      SpellsWhatIsRead(text, word);
    }
  }

  lemma IntentOfAffirmative(t: string)
    ensures IntentOf(t) == Some(true) <==> t in AFFIRMATIVE_WORDS
  {
    if t in AFFIRMATIVE_WORDS {
      forall part | part in NEGATIVE_PARTS ensures !Contains(t, part) { AffirmativesHoldNoRefusal(t, part); }
      assert t !in NEGATIVE_WORDS;
    }
  }

  /** A text reads as a refusal exactly when it spells a refusing word or mentions a refusing part. */
  lemma RefusalsExactly(text: string)
    ensures ConfirmationIntent(text) == Some(false) <==> Refuses(text)
  {
    ReadRefusals(text);
  }

  /** A text reads as an affirmative exactly when it spells an affirmative word. */
  lemma AffirmativesExactly(text: string)
    ensures ConfirmationIntent(text) == Some(true) <==> Affirms(text)
  {
    ReadAffirmatives(text);
    IntentOfAffirmative(Reading(text));
  }

  /** A step entered without a message can neither confirm nor refuse. */
  lemma SilenceIsNoIntent()
    ensures ConfirmationIntent("") == None && !Affirms("") && !Refuses("")
  {
    assert Reading("") == "";
    forall part | part in NEGATIVE_PARTS ensures !Contains("", part) {
      if Contains("", part) { var i := ContainsAt("", part); }
    }
    RefusalsExactly("");
    AffirmativesExactly("");
  }
}
