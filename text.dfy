/** Character and string helpers that stand in for the Python string
    operations the classifier uses: `str.strip()`, `str.upper()`,
    `str.replace("\n", " ")`, `" ".join(...)`, `in` and `startswith`.
    Whitespace is the fixed set of characters Python's `str.isspace`
    accepts; upper-casing covers ASCII and the accented letters that occur
    in the header markers. */
module Text {

  /** The characters Python's `str.strip()` removes when called without an argument. */
  predicate IsSpace(c: char) {
    c == ' ' || ('\t' <= c <= '\r') || ('\U{1C}' <= c <= '\U{1F}')
    || c == '\U{85}' || c == '\U{A0}' || c == '\U{1680}'
    || ('\U{2000}' <= c <= '\U{200A}') || c == '\U{2028}' || c == '\U{2029}'
    || c == '\U{202F}' || c == '\U{205F}' || c == '\U{3000}'
  }

  /** An ASCII decimal digit (the regex class `\d`, restricted to ASCII). */
  predicate IsDigit(c: char) { '0' <= c <= '9' }

  /** The regex class `[A-Z]`. */
  predicate IsAsciiUpper(c: char) { 'A' <= c <= 'Z' }

  predicate AllDigits(s: string) {
    forall k :: 0 <= k < |s| ==> IsDigit(s[k])
  }

  predicate AllSpace(s: string) {
    forall k :: 0 <= k < |s| ==> IsSpace(s[k])
  }

  /** A string that `str.strip()` leaves unchanged. */
  predicate IsStripped(s: string) {
    |s| == 0 || (!IsSpace(s[0]) && !IsSpace(s[|s| - 1]))
  }

  /** A leading space followed by a run of spaces is a run of spaces. */
  lemma SpacePrefixCons(s: string, m: nat)
    requires 0 < m <= |s| && IsSpace(s[0]) && AllSpace(s[1..][..m - 1])
    ensures AllSpace(s[..m])
  {
    assert forall k :: 1 <= k < m ==> s[k] == s[1..][..m - 1][k - 1];
  }

  /** Removes leading whitespace: the result is the suffix that starts at the
      first non-space character. */
  function TrimStart(s: string): (r: string)
    ensures |r| <= |s| && r == s[|s| - |r|..]
    ensures AllSpace(s[..|s| - |r|])
    ensures |r| == 0 || !IsSpace(r[0])
    decreases |s|
  {
    if |s| > 0 && IsSpace(s[0]) then
      var r := TrimStart(s[1..]);
      assert s[1..][|s| - 1 - |r|..] == s[|s| - |r|..];
      SpacePrefixCons(s, |s| - |r|);
      r
    else
      s
  }

  /** Removes trailing whitespace: the result is the prefix that ends at the
      last non-space character. */
  function TrimEnd(s: string): (r: string)
    ensures |r| <= |s| && r == s[..|r|]
    ensures AllSpace(s[|r|..])
    ensures |r| == 0 || !IsSpace(r[|r| - 1])
    decreases |s|
  {
    if |s| > 0 && IsSpace(s[|s| - 1]) then
      var r := TrimEnd(s[..|s| - 1]);
      assert s[..|s| - 1][..|r|] == s[..|r|];
      assert AllSpace(s[|r|..]) by {
        forall k | |r| <= k < |s| ensures IsSpace(s[k]) {
          if k < |s| - 1 {
            assert s[k] == s[..|s| - 1][|r|..][k - |r|];
          }
        }
      }
      r
    else
      s
  }

  /** `r` is what remains of `s` once an all-space prefix and an all-space
      suffix are cut off. */
  predicate IsSpaceCut(s: string, r: string) {
    exists i :: 0 <= i && i + |r| <= |s| && r == s[i..i + |r|] &&
                AllSpace(s[..i]) && AllSpace(s[i + |r|..])
  }

  /** Trimming the front and then the end of `s` cuts off an all-space
      prefix and an all-space suffix. */
  lemma TrimBoth(s: string, front: string, r: string)
    requires |front| <= |s| && front == s[|s| - |front|..] && AllSpace(s[..|s| - |front|])
    requires |r| <= |front| && r == front[..|r|] && AllSpace(front[|r|..])
    ensures IsSpaceCut(s, r)
  {
    var i := |s| - |front|;
    assert front[|r|..] == s[i + |r|..];
    assert r == s[i..i + |r|];
  }

  /** Python's `str.strip()`: the infix of `s` between its leading and its
      trailing whitespace. */
  function Strip(s: string): (r: string)
    ensures IsStripped(r)
    ensures |r| == 0 <==> AllSpace(s)
    ensures forall c :: c in r ==> c in s
  {
    var front := TrimStart(s);
    var r := TrimEnd(front);
    assert |r| > 0 ==> r[0] == front[0];
    assert |r| == 0 ==> AllSpace(s) by {
      if |r| == 0 {
        assert front[|r|..] == front;
        assert |front| == 0;
        assert s[..|s|] == s;
      }
    }
    assert AllSpace(s) ==> |r| == 0 by {
      if AllSpace(s) {
        assert AllSpace(front);
      }
    }
    assert forall c :: c in r ==> c in front;
    r
  }

  /** What `Strip` keeps: `s` with its all-space prefix and its all-space
      suffix cut off. */
  lemma StripCut(s: string)
    ensures IsSpaceCut(s, Strip(s))
  {
    var front := TrimStart(s);
    TrimBoth(s, front, TrimEnd(front));
  }

  /** A stripped string is its own strip: stripping is idempotent. */
  lemma StripStripped(s: string)
    requires IsStripped(s)
    ensures Strip(s) == s
  {
  }

  /** Python's `str.replace("\n", " ")`. */
  function ReplaceNewlines(s: string): (r: string)
    ensures |r| == |s| && '\n' !in r
    ensures forall k :: 0 <= k < |s| && s[k] != '\n' ==> r[k] == s[k]
    ensures forall k :: 0 <= k < |s| && s[k] == '\n' ==> r[k] == ' '
  {
    seq(|s|, k requires 0 <= k < |s| => if s[k] == '\n' then ' ' else s[k])
  }

  /** Upper-case of one character: ASCII letters and the accented letters
      é and è of the header markers; every other character is unchanged. */
  function UpperChar(c: char): (r: char)
    ensures 'a' <= c <= 'z' ==> IsAsciiUpper(r) && r as int + 32 == c as int
    ensures c == '\U{E9}' ==> r == '\U{C9}'
    ensures c == '\U{E8}' ==> r == '\U{C8}'
    ensures !('a' <= c <= 'z') && c != '\U{E9}' && c != '\U{E8}' ==> r == c
    ensures !('a' <= r <= 'z')
  {
    if 'a' <= c <= 'z' then (c as int - 32) as char
    else if c == '\U{E9}' then '\U{C9}'
    else if c == '\U{E8}' then '\U{C8}'
    else c
  }

  /** Python's `str.upper()`, character by character. */
  function Upper(s: string): (r: string)
    ensures |r| == |s|
    ensures forall k :: 0 <= k < |s| ==> r[k] == UpperChar(s[k])
  {
    seq(|s|, k requires 0 <= k < |s| => UpperChar(s[k]))
  }

  /** Upper-casing twice is upper-casing once. */
  lemma UpperIdempotent(s: string)
    ensures Upper(Upper(s)) == Upper(s)
  {
    var u := Upper(s);
    forall k | 0 <= k < |s| ensures UpperChar(u[k]) == u[k] {
      assert u[k] == UpperChar(s[k]);
    }
  }

  /** `needle` occurs in `hay` starting at position `i`. */
  predicate OccursAt(hay: string, needle: string, i: int) {
    0 <= i <= |hay| - |needle| && hay[i..i + |needle|] == needle
  }

  /** Python's `needle in hay` on strings. */
  function Contains(hay: string, needle: string): (b: bool)
    ensures b <==> exists i :: OccursAt(hay, needle, i)
    decreases |hay|
  {
    if |hay| < |needle| then false
    else if needle <= hay then
      assert OccursAt(hay, needle, 0);
      true
    else
      var rest := Contains(hay[1..], needle);
      if rest then
        var i :| OccursAt(hay[1..], needle, i);
        assert OccursAt(hay, needle, i + 1);
        true
      else
        assert forall i :: OccursAt(hay, needle, i) ==> i > 0 && OccursAt(hay[1..], needle, i - 1);
        false
  }

  /** Python's `" ".join(parts)`. */
  function Join(parts: seq<string>): string
    decreases |parts|
  {
    if |parts| == 0 then ""
    else if |parts| == 1 then parts[0]
    else parts[0] + " " + Join(parts[1..])
  }

  /** Joining a part in front of further parts puts one space between it and
      their join, and nothing when there are none. */
  lemma JoinCons(a: string, xs: seq<string>)
    ensures Join([a] + xs) == if |xs| == 0 then a else a + " " + Join(xs)
  {
    assert ([a] + xs)[1..] == xs;
  }

  /** Every part is a non-empty stripped string. */
  predicate AllTokens(parts: seq<string>) {
    forall k :: 0 <= k < |parts| ==> |parts[k]| > 0 && IsStripped(parts[k])
  }

  /** Joining non-empty stripped parts with single spaces gives a stripped
      string, empty exactly when there are no parts; so the `.strip()` the
      source applies after each join changes nothing. */
  lemma {:induction false} JoinStripped(parts: seq<string>)
    requires AllTokens(parts)
    ensures IsStripped(Join(parts))
    ensures |Join(parts)| == 0 <==> |parts| == 0
    ensures Strip(Join(parts)) == Join(parts)
    decreases |parts|
  {
    JoinStrippedShape(parts);
    StripStripped(Join(parts));
  }

  lemma {:induction false} JoinStrippedShape(parts: seq<string>)
    requires AllTokens(parts)
    ensures IsStripped(Join(parts))
    ensures |Join(parts)| == 0 <==> |parts| == 0
    decreases |parts|
  {
    if |parts| > 1 {
      var rest := Join(parts[1..]);
      JoinStrippedShape(parts[1..]);
      var j := parts[0] + " " + rest;
      assert j[0] == parts[0][0];
      assert j[|j| - 1] == rest[|rest| - 1];
    }
  }

  // ---------------------------------------------------------------------
  // Letters that a string cannot contain once upper-cased.

  /** No character of `s` upper-cases to `c`. */
  predicate UpperAvoids(s: string, c: char) {
    forall k :: 0 <= k < |s| ==> UpperChar(s[k]) != c
  }

  /** A join avoids a letter its parts avoid (the separator is a space). */
  lemma {:induction false} JoinAvoids(parts: seq<string>, c: char)
    requires c != ' '
    requires forall k :: 0 <= k < |parts| ==> UpperAvoids(parts[k], c)
    ensures UpperAvoids(Join(parts), c)
    decreases |parts|
  {
    if |parts| > 1 {
      JoinAvoids(parts[1..], c);
      var a, j := parts[0], Join(parts[1..]);
      forall k | 0 <= k < |a + " " + j| ensures UpperChar((a + " " + j)[k]) != c {
        if k > |a| {
          assert (a + " " + j)[k] == j[k - |a| - 1];
        }
      }
    }
  }

  /** A string whose upper-case misses a letter of `w` does not contain `w`
      once upper-cased. */
  lemma MissingLetter(s: string, w: string, j: nat)
    requires j < |w| && UpperAvoids(s, w[j])
    ensures !Contains(Upper(s), w)
  {
    var u := Upper(s);
    forall i ensures !OccursAt(u, w, i) {
      if 0 <= i <= |u| - |w| {
        assert u[i..i + |w|][j] == UpperChar(s[i + j]);
      }
    }
  }

  /** The first character of a join is the first character of its first part. */
  lemma JoinStart(parts: seq<string>)
    requires |parts| > 0 && |parts[0]| > 0
    ensures |Join(parts)| > 0 && Join(parts)[0] == parts[0][0]
  {
  }
}
