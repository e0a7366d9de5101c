/** The numeric-token classifier `_is_num` (scraping_projet.py:67-73).

    The source matches the regular expression
    `^\d{1,3}(?: \d{3})*(?:[.,]\d+)?$` against the stripped token. Here that
    language is written twice: once as a grammar (`MatchesNumPattern`, built
    from the pieces of the expression) and once as a hand-written left-to-right
    recogniser (`IsNumShape`), and `RecogniserMatchesGrammar` proves the two
    agree on every string. */
module Numeric {
  import opened Text

  predicate IsDecimalMark(c: char) { c == ',' || c == '.' }

  // ---------------------------------------------------------------------
  // The grammar, piece by piece.

  /** `(?: \d{3})*`: zero or more groups of one space and three digits. */
  ghost predicate Groups(r: string)
    decreases |r|
  {
    |r| == 0 || (|r| >= 4 && r[0] == ' ' && AllDigits(r[1..4]) && Groups(r[4..]))
  }

  /** `\d{1,3}(?: \d{3})*`: a thousands-grouped integer part. */
  ghost predicate GroupedInt(s: string) {
    exists m :: 1 <= m <= 3 && m <= |s| && AllDigits(s[..m]) && Groups(s[m..])
  }

  /** `(?:[.,]\d+)?`: an optional decimal mark followed by at least one digit. */
  ghost predicate Fraction(f: string) {
    |f| == 0 || (|f| >= 2 && IsDecimalMark(f[0]) && AllDigits(f[1..]))
  }

  /** The whole expression, anchored at both ends. */
  ghost predicate MatchesNumPattern(s: string) {
    exists k :: 0 <= k <= |s| && GroupedInt(s[..k]) && Fraction(s[k..])
  }

  // ---------------------------------------------------------------------
  // The recogniser.

  /** Length of the run of digits that starts at position `i`. */
  function DigitRun(s: string, i: nat): (n: nat)
    requires i <= |s|
    ensures i + n <= |s| && AllDigits(s[i..i + n])
    ensures i + n == |s| || !IsDigit(s[i + n])
    decreases |s| - i
  {
    if i < |s| && IsDigit(s[i]) then
      var n := DigitRun(s, i + 1);
      assert s[i..i + 1 + n] == [s[i]] + s[i + 1..i + 1 + n];
      1 + n
    else 0
  }

  /** Scans, from position `i`, groups of " ddd" and then either the end of
      the string or a decimal mark followed by digits up to the end. */
  predicate GroupsThenFraction(s: string, i: nat)
    requires i <= |s|
    decreases |s| - i
  {
    if i == |s| then true
    else if s[i] == ' ' then
      i + 4 <= |s| && IsDigit(s[i + 1]) && IsDigit(s[i + 2]) && IsDigit(s[i + 3])
      && GroupsThenFraction(s, i + 4)
    else if IsDecimalMark(s[i]) then
      i + 1 < |s| && DigitRun(s, i + 1) == |s| - (i + 1)
    else false
  }

  /** One to three leading digits, then groups and an optional fraction. */
  predicate IsNumShape(s: string) {
    var n := DigitRun(s, 0);
    1 <= n <= 3 && GroupsThenFraction(s, n)
  }

  /** `_is_num`: strip the token; an empty result is not a number; otherwise
      the stripped token must have the numeric shape. */
  predicate IsNum(tok: string) {
    var t := Strip(tok);
    if |t| == 0 then false else IsNumShape(t)
  }

  // ---------------------------------------------------------------------
  // Correctness of the recogniser.

  /** A maximal run of `n` digits at `i` is what `DigitRun` measures. */
  lemma DigitRunExact(s: string, i: nat, n: nat)
    requires i + n <= |s| && AllDigits(s[i..i + n])
    requires i + n == |s| || !IsDigit(s[i + n])
    ensures DigitRun(s, i) == n
  {
    var d := DigitRun(s, i);
    assert forall k :: i <= k < i + n ==> IsDigit(s[k]) by {
      forall k | i <= k < i + n ensures IsDigit(s[k]) {
        assert s[k] == s[i..i + n][k - i];
      }
    }
    assert forall k :: i <= k < i + d ==> IsDigit(s[k]) by {
      forall k | i <= k < i + d ensures IsDigit(s[k]) {
        assert s[k] == s[i..i + d][k - i];
      }
    }
  }

  /** Whatever the tail scanner accepts splits into groups and a fraction. */
  lemma {:induction false} TailSound(s: string, i: nat) returns (k: nat)
    requires i <= |s| && GroupsThenFraction(s, i)
    ensures i <= k <= |s| && Groups(s[i..k]) && Fraction(s[k..])
    decreases |s| - i
  {
    if i == |s| {
      k := i;
    } else if s[i] == ' ' {
      k := TailSound(s, i + 4);
      assert s[i..k][1..4] == s[i + 1..i + 4];
      assert s[i..k][4..] == s[i + 4..k];
    } else {
      k := i;
      assert s[i..][1..] == s[i + 1..i + 1 + DigitRun(s, i + 1)];
    }
  }

  /** Groups followed by a fraction are accepted by the tail scanner. */
  lemma {:induction false} TailComplete(s: string, i: nat, k: nat)
    requires i <= k <= |s| && Groups(s[i..k]) && Fraction(s[k..])
    ensures GroupsThenFraction(s, i)
    decreases |s| - i
  {
    if k == i {
      if i < |s| {
        assert s[i] == s[i..][0];
        assert s[i..][1..] == s[i + 1..|s|];
        DigitRunExact(s, i + 1, |s| - (i + 1));
      }
    } else {
      var g := s[i..k];
      assert g[0] == s[i];
      assert g[1..4] == s[i + 1..i + 4];
      assert s[i + 1] == g[1..4][0] && s[i + 2] == g[1..4][1] && s[i + 3] == g[1..4][2];
      assert g[4..] == s[i + 4..k];
      TailComplete(s, i + 4, k);
    }
  }

  /** Every string the recogniser accepts belongs to the regular language. */
  lemma RecogniserSound(s: string)
    requires IsNumShape(s)
    ensures MatchesNumPattern(s)
  {
    var n := DigitRun(s, 0);
    var k := TailSound(s, n);
    assert s[..k][..n] == s[..n] == s[0..0 + n];
    assert s[..k][n..] == s[n..k];
    assert GroupedInt(s[..k]);
  }

  /** Every string of the regular language is accepted by the recogniser. */
  lemma RecogniserComplete(s: string)
    requires MatchesNumPattern(s)
    ensures IsNumShape(s)
  {
    var k :| 0 <= k <= |s| && GroupedInt(s[..k]) && Fraction(s[k..]);
    var m :| 1 <= m <= 3 && m <= k && AllDigits(s[..k][..m]) && Groups(s[..k][m..]);
    assert s[..k][..m] == s[0..0 + m];
    assert s[..k][m..] == s[m..k];
    if m < k {
      assert s[m] == s[m..k][0];
    } else if m < |s| {
      assert s[m] == s[k..][0];
    }
    DigitRunExact(s, 0, m);
    TailComplete(s, m, k);
  }

  /** The recogniser accepts exactly the strings of the regular language. */
  lemma RecogniserMatchesGrammar(s: string)
    ensures IsNumShape(s) <==> MatchesNumPattern(s)
  {
    if IsNumShape(s) {
      RecogniserSound(s);
    }
    if MatchesNumPattern(s) {
      RecogniserComplete(s);
    }
  }

  /** `_is_num` in terms of the grammar: a token is numeric exactly when its
      stripped form is non-empty and belongs to the regular language; in
      particular an empty or all-whitespace token is never numeric, and a
      numeric token is non-empty and starts with a digit. */
  lemma IsNumMeaning(tok: string)
    ensures IsNum(tok) <==> (|Strip(tok)| > 0 && MatchesNumPattern(Strip(tok)))
    ensures AllSpace(tok) ==> !IsNum(tok)
    ensures IsNum(tok) ==> |tok| > 0 && IsDigit(Strip(tok)[0])
  {
    RecogniserMatchesGrammar(Strip(tok));
    if IsNum(tok) {
      var t := Strip(tok);
      assert t[0] == t[0..0 + DigitRun(t, 0)][0];
    }
  }

  /** A token of one to three digits, optionally followed by a decimal mark
      and more digits, is a number. */
  lemma SimpleNumberIsNum(s: string, m: nat)
    requires 1 <= m <= 3 && m <= |s| && AllDigits(s[..m])
    requires m == |s| || (m + 1 < |s| && IsDecimalMark(s[m]) && AllDigits(s[m + 1..]))
    ensures IsNum(s)
  {
    assert IsDigit(s[..m][0]);
    if m < |s| {
      assert IsDigit(s[m + 1..][|s| - m - 2]);
      DigitRunExact(s, m + 1, |s| - (m + 1));
      assert s[m + 1..|s|] == s[m + 1..];
    } else {
      assert IsDigit(s[..m][m - 1]);
    }
    StripStripped(s);
    assert s[0..0 + m] == s[..m];
    DigitRunExact(s, 0, m);
  }

  /** A stripped token that does not start with a digit is not a number. */
  lemma NonDigitStartNotNum(s: string)
    requires |s| > 0 && IsStripped(s) && !IsDigit(s[0])
    ensures !IsNum(s)
  {
    StripStripped(s);
    DigitRunExact(s, 0, 0);
  }

  /** Worked examples: the prices of the rate table are numbers. */
  lemma PricesAreNumbers(s: string)
    requires s in {"0,50", "35,00", "40,00", "45,00", "60,00", "150,00", "300"}
    ensures IsNum(s)
  {
    if s == "0,50" {
      SimpleNumberIsNum(s, 1);
    } else if s in {"150,00", "300"} {
      SimpleNumberIsNum(s, 3);
    } else {
      SimpleNumberIsNum(s, 2);
    }
  }

  /** Worked example: thousands grouped by a space form a number. */
  lemma NumAcceptsGrouped(s: string)
    requires s == "1 200"
    ensures IsNum(s)
  {
    StripStripped(s);
    DigitRunExact(s, 0, 1);
  }

  /** Worked example: a decimal comma followed by digits forms a number. */
  lemma NumAcceptsDecimal(s: string)
    requires s == "45,00"
    ensures IsNum(s)
  {
    StripStripped(s);
    DigitRunExact(s, 0, 2);
    DigitRunExact(s, 3, 2);
  }

  /** Worked example: four digits without a group separator are not a number. */
  lemma NumRejectsUngrouped(s: string)
    requires s == "1200"
    ensures !IsNum(s)
  {
    StripStripped(s);
    DigitRunExact(s, 0, 4);
  }

  /** Worked example: a group of two digits is not a thousands group. */
  lemma NumRejectsShortGroup(s: string)
    requires s == "12 34"
    ensures !IsNum(s)
  {
    StripStripped(s);
    DigitRunExact(s, 0, 2);
  }

  /** Worked examples: a digit run glued to "+", a word and the empty token
      are not numbers. */
  lemma NumRejectsOther(s: string)
    requires s in {"20+", "Clio", ""}
    ensures !IsNum(s)
  {
    StripStripped(s);
    if s == "20+" {
      DigitRunExact(s, 0, 2);
    } else if s == "Clio" {
      DigitRunExact(s, 0, 0);
    }
  }

  // ---------------------------------------------------------------------
  // Numbers contain no letters.

  /** The characters a numeric shape is made of. */
  predicate IsNumChar(c: char) { IsDigit(c) || c == ' ' || IsDecimalMark(c) }

  /** From `i` on, a string scanned by `GroupsThenFraction` holds only digits,
      spaces and decimal marks. */
  lemma {:induction false} GroupsChars(s: string, i: nat)
    requires i <= |s| && GroupsThenFraction(s, i)
    ensures forall k :: i <= k < |s| ==> IsNumChar(s[k])
    decreases |s| - i
  {
    if i < |s| {
      if s[i] == ' ' {
        GroupsChars(s, i + 4);
      } else {
        var n := DigitRun(s, i + 1);
        assert forall k :: i + 1 <= k < |s| ==> s[k] == s[i + 1..i + 1 + n][k - i - 1];
      }
    }
  }

  /** A numeric shape holds only digits, spaces and decimal marks. */
  lemma ShapeChars(s: string)
    requires IsNumShape(s)
    ensures forall k :: 0 <= k < |s| ==> IsNumChar(s[k])
  {
    var n := DigitRun(s, 0);
    GroupsChars(s, n);
    assert forall k :: 0 <= k < n ==> s[k] == s[0..n][k];
  }

  /** Whitespace and number characters upper-case to no letter. */
  lemma PlainCharAvoids(x: char, c: char)
    requires IsSpace(x) || IsNumChar(x)
    requires IsAsciiUpper(c)
    ensures UpperChar(x) != c
  {
  }

  /** A string made of whitespace, then number characters, then whitespace
      upper-cases to no letter. */
  lemma CutAvoids(tok: string, t: string, c: char)
    requires IsSpaceCut(tok, t)
    requires forall k :: 0 <= k < |t| ==> IsNumChar(t[k])
    requires IsAsciiUpper(c)
    ensures UpperAvoids(tok, c)
  {
    var i :| 0 <= i && i + |t| <= |tok| && t == tok[i..i + |t|] &&
             AllSpace(tok[..i]) && AllSpace(tok[i + |t|..]);
    forall k | 0 <= k < |tok| ensures UpperChar(tok[k]) != c {
      if k < i {
        assert tok[k] == tok[..i][k];
      } else if k < i + |t| {
        assert tok[k] == t[k - i];
      } else {
        assert tok[k] == tok[i + |t|..][k - i - |t|];
      }
      PlainCharAvoids(tok[k], c);
    }
  }

  /** A numeric token has no letter, in either case: the characters around
      its stripped form are whitespace and those inside are number
      characters, all unchanged by upper-casing. */
  lemma NumAvoidsLetters(tok: string, c: char)
    requires IsNum(tok) && IsAsciiUpper(c)
    ensures UpperAvoids(tok, c)
  {
    ShapeChars(Strip(tok));
    StripCut(tok);
    CutAvoids(tok, Strip(tok), c);
  }
}
