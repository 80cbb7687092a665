/**
  The three field patterns that both registration forms test values against.
  Each pattern is unanchored at the start, so `RegExp.test` asks whether the
  value CONTAINS a match:

    name      /([A-Za-zА-ЯЄІЇа-яєії])+$/   a run of letters that reaches the end
    phone     /[0-9+()-\s]{5,}/            five or more phone characters in a row
    telegram  /\@?[\d\w]{5,}/              an optional '@', then five or more word characters

  For each, a ghost predicate states what the pattern matches, and an
  executable test (the answer the engine gives) is proved to agree with it.
 */
module FormRules {
  import opened JsRuntime

  /** `[A-Za-zА-ЯЄІЇа-яєії]`: Latin letters, Cyrillic А–я, and Є І Ї є і ї (but not Ё ё). */
  predicate IsNameLetter(c: char) {
    IsAsciiUpper(c) || IsAsciiLower(c)
    || ('\U{0410}' <= c <= '\U{042F}') || ('\U{0430}' <= c <= '\U{044F}')
    || c == '\U{0404}' || c == '\U{0406}' || c == '\U{0407}'
    || c == '\U{0454}' || c == '\U{0456}' || c == '\U{0457}'
  }

  /** `[0-9+()-\s]`; `)-\s` is not a range (its end is a class escape), so '-' is a member. */
  predicate IsPhoneChar(c: char) {
    IsDigit(c) || c == '+' || c == '(' || c == ')' || c == '-' || IsJsSpace(c)
  }

  /** The m characters of s from position k on all satisfy p. */
  ghost predicate Window(s: string, p: char -> bool, k: int, m: int)
    requires 0 <= k && 0 <= m && k + m <= |s|
  {
    forall j :: k <= j < k + m ==> p(s[j])
  }

  /** What `/([L])+$/` matches: a non-empty run of L that ends at the end of s. */
  ghost predicate NameMatches(s: string) {
    exists k :: LettersFrom(s, k)
  }

  /** s[k..] is non-empty and made of name letters. */
  ghost predicate LettersFrom(s: string, k: int) {
    0 <= k < |s| && Window(s, IsNameLetter, k, |s| - k)
  }

  /** What `/[P]{n,}/` matches somewhere in s: a run of at least n characters of P. */
  ghost predicate RunMatches(s: string, p: char -> bool, n: nat) {
    exists k, m :: 0 <= k && n <= m && k + m <= |s| && Window(s, p, k, m)
  }

  /** A run of exactly n characters of p starts at k. */
  ghost predicate RunAt(s: string, p: char -> bool, n: nat, k: int) {
    0 <= k && k + n <= |s| && Window(s, p, k, n)
  }

  /** What `/\@?[W]{5,}/` matches somewhere in s: an optional '@', then at least five word characters. */
  ghost predicate TelegramMatches(s: string) {
    exists k, m :: 0 <= k && 5 <= m && k + m <= |s|
      && (Window(s, IsWordChar, k, m) || (s[k] == '@' && k + 1 + m <= |s| && Window(s, IsWordChar, k + 1, m)))
  }

  /** The name test: the last character is a letter. */
  function NameTest(s: string): (ok: bool)
    ensures ok <==> NameMatches(s)
  {
    assert |s| > 0 && IsNameLetter(s[|s| - 1]) ==> LettersFrom(s, |s| - 1);
    assert forall k :: LettersFrom(s, k) ==> IsNameLetter(s[|s| - 1]);
    |s| > 0 && IsNameLetter(s[|s| - 1])
  }

  /** No run of n characters of p lies wholly inside s[..i]. */
  ghost predicate NoRunBefore(s: string, p: char -> bool, n: nat, i: nat)
    requires i <= |s|
  {
    forall k :: 0 <= k && k + n <= i ==> !RunAt(s, p, n, k)
  }

  /**
    One left-to-right pass that counts the current run of p; `run` is the
    length of the longest p-suffix of s[..i].
   */
  function ScanRun(s: string, p: char -> bool, n: nat, i: nat, run: nat): bool
    requires run <= i <= |s|
    decreases |s| - i
  {
    if i == |s| then false
    else if p(s[i]) then (if run + 1 >= n then true else ScanRun(s, p, n, i + 1, run + 1))
    else ScanRun(s, p, n, i + 1, 0)
  }

  /** A run of at least n contains a run of exactly n, and the converse. */
  lemma RunMatchesExactly(s: string, p: char -> bool, n: nat)
    ensures RunMatches(s, p, n) <==> exists k :: RunAt(s, p, n, k)
  {
    if RunMatches(s, p, n) {
      var k, m :| 0 <= k && n <= m && k + m <= |s| && Window(s, p, k, m);
      assert RunAt(s, p, n, k);
    }
    if exists k :: RunAt(s, p, n, k) {
      var k :| RunAt(s, p, n, k);
      assert Window(s, p, k, n);
    }
  }

  /** The pass answers true exactly when a run of n exists, given the state it was started in. */
  lemma {:induction false} ScanRunCorrect(s: string, p: char -> bool, n: nat, i: nat, run: nat)
    requires 0 < n && run < n && run <= i <= |s|
    requires Window(s, p, i - run, run)
    requires i - run > 0 ==> !p(s[i - run - 1])
    requires NoRunBefore(s, p, n, i)
    ensures ScanRun(s, p, n, i, run) <==> exists k :: RunAt(s, p, n, k)
    decreases |s| - i
  {
    if i == |s| {
      assert forall k :: !RunAt(s, p, n, k);
    } else if p(s[i]) {
      assert Window(s, p, i - run, run + 1);
      if run + 1 >= n {
        assert RunAt(s, p, n, i + 1 - n);
      } else {
        forall k | 0 <= k && k + n <= i + 1
          ensures !RunAt(s, p, n, k)
        {
          if k + n == i + 1 {
            assert k <= i - run - 1;
            assert !p(s[i - run - 1]);
          }
        }
        ScanRunCorrect(s, p, n, i + 1, run + 1);
      }
    } else {
      forall k | 0 <= k && k + n <= i + 1
        ensures !RunAt(s, p, n, k)
      {
        if k + n == i + 1 {
          assert !p(s[i]);
        }
      }
      ScanRunCorrect(s, p, n, i + 1, 0);
    }
  }

  /** `/[P]{n,}/.test(s)`, for n > 0: the scan from the start. */
  function RunTest(s: string, p: char -> bool, n: nat): (ok: bool)
    requires 0 < n
    ensures ok <==> RunMatches(s, p, n)
  {
    ScanRunCorrect(s, p, n, 0, 0);
    RunMatchesExactly(s, p, n);
    ScanRun(s, p, n, 0, 0)
  }

  /** The phone test: five or more phone characters in a row, anywhere. */
  function PhoneTest(s: string): (ok: bool)
    ensures ok <==> RunMatches(s, IsPhoneChar, 5)
  {
    RunTest(s, IsPhoneChar, 5)
  }

  /** The optional '@' changes nothing: the telegram pattern matches iff five word characters stand in a row. */
  lemma TelegramAtIsIrrelevant(s: string)
    ensures TelegramMatches(s) <==> RunMatches(s, IsWordChar, 5)
  {
    if TelegramMatches(s) {
      var k, m :| 0 <= k && 5 <= m && k + m <= |s|
        && (Window(s, IsWordChar, k, m) || (s[k] == '@' && k + 1 + m <= |s| && Window(s, IsWordChar, k + 1, m)));
      if Window(s, IsWordChar, k, m) {
        assert RunMatches(s, IsWordChar, 5);
      } else {
        assert Window(s, IsWordChar, k + 1, m);
        assert RunMatches(s, IsWordChar, 5);
      }
    }
    if RunMatches(s, IsWordChar, 5) {
      var k, m :| 0 <= k && 5 <= m && k + m <= |s| && Window(s, IsWordChar, k, m);
      assert TelegramMatches(s);
    }
  }

  /** The telegram test: five or more word characters in a row, anywhere. */
  function TelegramTest(s: string): (ok: bool)
    ensures ok <==> TelegramMatches(s)
  {
    TelegramAtIsIrrelevant(s);
    RunTest(s, IsWordChar, 5)
  }

  /** How loose the patterns are: digits before the last letter, prose around a number, text around a login. */
  lemma PatternExamples()
    ensures NameTest("123abc") && !NameTest("abc1") && !NameTest("")
    ensures PhoneTest("tel: 12-34 x") && !PhoneTest("1234")
    ensures TelegramTest("x!hello") && !TelegramTest("@abcd")
  {
    assert PhoneTest("tel: 12-34 x") by {
      var s := "tel: 12-34 x";
      assert Window(s, IsPhoneChar, 4, 7);
      assert RunMatches(s, IsPhoneChar, 5);
    }
    assert TelegramTest("x!hello") by {
      var s := "x!hello";
      assert Window(s, IsWordChar, 2, 5);
      assert RunMatches(s, IsWordChar, 5);
    }
    assert !TelegramTest("@abcd") by {
      var s := "@abcd";
      assert !Window(s, IsWordChar, 0, 5) by { assert !IsWordChar(s[0]); }
    }
  }
}
