/** The forward scans shared by the two schema parsers: the model-name run
    (scraping_projet.py:101-105 and 150-154) and `next_num`
    (scraping_projet.py:109-112, repeated verbatim at 182-185), together with
    the declarative descriptions they are proved against. */
module Scanning {
  import opened Text
  import opened Numeric

  // ---------------------------------------------------------------------
  // Declarative descriptions.

  /** The tokens of `ts` that satisfy `p`, in order. */
  function Filter(ts: seq<string>, p: string -> bool): (r: seq<string>)
    ensures |r| <= |ts|
    decreases |ts|
  {
    if |ts| == 0 then []
    else (if p(ts[0]) then [ts[0]] else []) + Filter(ts[1..], p)
  }

  /** The numeric tokens of `ts`, in order. */
  function NumericOnly(ts: seq<string>): seq<string> {
    Filter(ts, IsNum)
  }

  /** `xs` cut or padded with "" to exactly `n` entries: the i-th entry is the
      i-th element of `xs` when there is one, and "" otherwise. */
  function PadTo(xs: seq<string>, n: nat): (r: seq<string>)
    ensures |r| == n
    ensures forall k :: 0 <= k < n ==> r[k] == (if k < |xs| then xs[k] else "")
  {
    if |xs| >= n then xs[..n] else xs + seq(n - |xs|, _ => "")
  }

  /** The longest prefix of `ts` whose tokens all satisfy `keep`. */
  function TakeWhile(ts: seq<string>, keep: string -> bool): (r: seq<string>)
    ensures r <= ts
    decreases |ts|
  {
    if |ts| > 0 && keep(ts[0]) then [ts[0]] + TakeWhile(ts[1..], keep) else []
  }

  // ---------------------------------------------------------------------
  // Facts about them.

  /** `Filter` keeps only tokens that satisfy `p`, and all of those, in order:
      filtering again changes nothing. */
  lemma {:induction false} FilterSound(ts: seq<string>, p: string -> bool)
    ensures forall k :: 0 <= k < |Filter(ts, p)| ==> p(Filter(ts, p)[k])
    ensures Filter(Filter(ts, p), p) == Filter(ts, p)
    decreases |ts|
  {
    if |ts| > 0 {
      FilterSound(ts[1..], p);
      var rest := Filter(ts[1..], p);
      if p(ts[0]) {
        assert ([ts[0]] + rest)[1..] == rest;
      } else {
        assert Filter(ts, p) == rest;
      }
    }
  }

  /** Every token of `TakeWhile(ts, keep)` satisfies `keep`, and the token
      right after it (if any) does not: the prefix is the longest one. */
  lemma {:induction false} TakeWhileMeaning(ts: seq<string>, keep: string -> bool)
    ensures forall k :: 0 <= k < |TakeWhile(ts, keep)| ==> keep(TakeWhile(ts, keep)[k])
    ensures |TakeWhile(ts, keep)| < |ts| ==> !keep(ts[|TakeWhile(ts, keep)|])
    decreases |ts|
  {
    if |ts| > 0 && keep(ts[0]) {
      TakeWhileMeaning(ts[1..], keep);
      var r := TakeWhile(ts[1..], keep);
      assert TakeWhile(ts, keep) == [ts[0]] + r;
      if |r| < |ts| - 1 {
        assert ts[1 + |r|] == ts[1..][|r|];
      }
    }
  }

  /** These two properties and being a prefix determine `TakeWhile`. */
  lemma TakeWhileUnique(ts: seq<string>, keep: string -> bool, p: seq<string>)
    requires p <= ts
    requires forall k :: 0 <= k < |p| ==> keep(p[k])
    requires |p| < |ts| ==> !keep(ts[|p|])
    ensures TakeWhile(ts, keep) == p
  {
    TakeWhileMeaning(ts, keep);
    var r := TakeWhile(ts, keep);
    assert forall k :: 0 <= k < |p| ==> keep(ts[k]) by {
      forall k | 0 <= k < |p| ensures keep(ts[k]) {
        assert ts[k] == p[k];
      }
    }
    assert forall k :: 0 <= k < |r| ==> keep(ts[k]) by {
      forall k | 0 <= k < |r| ensures keep(ts[k]) {
        assert ts[k] == r[k];
      }
    }
    assert |r| == |p|;
    assert r == ts[..|r|] && p == ts[..|p|];
  }

  lemma {:induction false} FilterAppend(a: seq<string>, b: seq<string>, p: string -> bool)
    ensures Filter(a + b, p) == Filter(a, p) + Filter(b, p)
    decreases |a|
  {
    if |a| > 0 {
      assert (a + b)[0] == a[0];
      assert (a + b)[1..] == a[1..] + b;
      FilterAppend(a[1..], b, p);
    } else {
      assert a + b == b;
    }
  }

  lemma {:induction false} FilterNone(ts: seq<string>, p: string -> bool)
    requires forall k :: 0 <= k < |ts| ==> !p(ts[k])
    ensures Filter(ts, p) == []
    decreases |ts|
  {
    if |ts| > 0 {
      FilterNone(ts[1..], p);
    }
  }

  /** Filtering tokens that all satisfy `p` keeps them all. */
  lemma {:induction false} FilterAll(ts: seq<string>, p: string -> bool)
    requires forall k :: 0 <= k < |ts| ==> p(ts[k])
    ensures Filter(ts, p) == ts
    decreases |ts|
  {
    if |ts| > 0 {
      FilterAll(ts[1..], p);
      assert [ts[0]] + ts[1..] == ts;
    }
  }

  /** When the last `n` tokens all satisfy `p`, padding their filtered
      form to `n` entries gives them back unchanged. */
  lemma PadFilterAll(toks: seq<string>, i: nat, p: string -> bool, n: nat)
    requires i + n == |toks|
    requires forall k :: i <= k < |toks| ==> p(toks[k])
    ensures PadTo(Filter(toks[i..], p), n) == toks[i..]
  {
    var rest := toks[i..];
    assert forall k :: 0 <= k < |rest| ==> p(rest[k]) by {
      forall k | 0 <= k < |rest| ensures p(rest[k]) {
        assert rest[k] == toks[i + k];
      }
    }
    FilterAll(rest, p);
    assert rest[..n] == rest;
  }

  /** Padding one entry short of `n` appends a single "". */
  lemma PadOneShort(xs: seq<string>, n: nat)
    requires |xs| + 1 == n
    ensures PadTo(xs, n) == xs + [""]
  {
    assert seq(1, _ => "") == [""];
  }

  /** Filtering from position `i` looks at `toks[i]` and then goes on from `i + 1`. */
  lemma FilterAt(toks: seq<string>, i: nat, p: string -> bool)
    requires i < |toks|
    ensures Filter(toks[i..], p) == (if p(toks[i]) then [toks[i]] else []) + Filter(toks[i + 1..], p)
  {
    assert toks[i..][1..] == toks[i + 1..];
  }

  /** Skipping a run of tokens that fail `p` does not change which tokens
      satisfying `p` remain. */
  lemma FilterSkip(toks: seq<string>, i: nat, j: nat, p: string -> bool)
    requires i <= j <= |toks|
    requires forall k :: i <= k < j ==> !p(toks[k])
    ensures Filter(toks[i..], p) == Filter(toks[j..], p)
  {
    assert toks[i..] == toks[i..j] + toks[j..];
    FilterAppend(toks[i..j], toks[j..], p);
    FilterNone(toks[i..j], p);
  }

  /** One `next_num` result moves one entry from the numeric tokens to the
      padded fields. */
  lemma PadStep(v: string, ys: seq<string>, n: nat)
    requires |v| == 0 ==> ys == []
    ensures PadTo((if |v| == 0 then [] else [v]) + ys, n + 1) == [v] + PadTo(ys, n)
  {
    var lhs := PadTo((if |v| == 0 then [] else [v]) + ys, n + 1);
    assert forall k :: 0 <= k < n + 1 ==> lhs[k] == ([v] + PadTo(ys, n))[k];
  }

  /** Padding non-empty entries that satisfy `p` to `n` gives `n` entries,
      each non-empty one satisfying `p`, with no non-empty entry after a "". */
  lemma PadShape(xs: seq<string>, n: nat, p: string -> bool)
    requires forall k :: 0 <= k < |xs| ==> |xs[k]| > 0 && p(xs[k])
    ensures forall k :: 0 <= k < n && |PadTo(xs, n)[k]| > 0 ==> p(PadTo(xs, n)[k])
    ensures forall k, l :: 0 <= k < l < n && |PadTo(xs, n)[k]| == 0 ==> |PadTo(xs, n)[l]| == 0
  {
  }

  /** The shape of the value fields of a record: exactly `n` entries, each
      non-empty one numeric, and after the first "" every entry is "". */
  lemma PaddedNumericFields(ts: seq<string>, n: nat)
    ensures |PadTo(NumericOnly(ts), n)| == n
    ensures forall k :: 0 <= k < n && |PadTo(NumericOnly(ts), n)[k]| > 0 ==>
              IsNum(PadTo(NumericOnly(ts), n)[k])
    ensures forall k, l :: 0 <= k < l < n && |PadTo(NumericOnly(ts), n)[k]| == 0 ==>
              |PadTo(NumericOnly(ts), n)[l]| == 0
  {
    var xs := NumericOnly(ts);
    FilterSound(ts, IsNum);
    forall k | 0 <= k < |xs| ensures |xs[k]| > 0 && IsNum(xs[k]) {
      IsNumMeaning(xs[k]);
    }
    PadShape(xs, n, IsNum);
  }

  // ---------------------------------------------------------------------
  // The scan itself.

  /** Where a forward scan from `idx` for a token satisfying `p` stops. */
  function SkipUntil(toks: seq<string>, idx: nat, p: string -> bool): (i: nat)
    ensures idx <= i && (idx <= |toks| ==> i <= |toks|) && (idx > |toks| ==> i == idx)
    decreases |toks| - idx
  {
    if idx < |toks| && !p(toks[idx]) then SkipUntil(toks, idx + 1, p) else idx
  }

  /** The scan stops at the first position from `idx` on that satisfies `p`,
      or at the end of the tokens when there is none. */
  lemma {:induction false} SkipUntilMeaning(toks: seq<string>, idx: nat, p: string -> bool)
    ensures forall k :: idx <= k < SkipUntil(toks, idx, p) ==> !p(toks[k])
    ensures SkipUntil(toks, idx, p) < |toks| ==> p(toks[SkipUntil(toks, idx, p)])
    decreases |toks| - idx
  {
    if idx < |toks| && !p(toks[idx]) {
      SkipUntilMeaning(toks, idx + 1, p);
    }
  }

  /** What a `next_num`-style scan for tokens satisfying `p` returns from
      `idx`: the token where the skip stopped and the position after it, or
      "" and the stop position when the skip ran off the end. */
  function NextMatch(toks: seq<string>, idx: nat, p: string -> bool): (r: (string, nat))
    ensures idx <= r.1 && (idx <= |toks| ==> r.1 <= |toks|)
  {
    var i := SkipUntil(toks, idx, p);
    if i < |toks| then (toks[i], i + 1) else ("", i)
  }

  /** The scan returns the first token from `idx` on that satisfies `p` and
      the position after it, or "" and the end of the tokens when there is
      none; as "" never satisfies `p`, an empty result means exactly that
      nothing from `idx` on does. */
  lemma NextMatchMeaning(toks: seq<string>, idx: nat, p: string -> bool)
    requires !p("")
    ensures var r := NextMatch(toks, idx, p);
            (|r.0| > 0 <==> exists k :: idx <= k < |toks| && p(toks[k])) &&
            (|r.0| > 0 ==> p(r.0) && r.1 > idx && r.0 == toks[r.1 - 1] &&
                           forall k :: idx <= k < r.1 - 1 ==> !p(toks[k])) &&
            (|r.0| == 0 ==> r.1 == (if idx < |toks| then |toks| else idx))
  {
    SkipUntilMeaning(toks, idx, p);
  }

  /** The matching tokens from `idx` on are the returned one followed by
      those from the returned position. */
  lemma NextMatchRemainder(toks: seq<string>, idx: nat, p: string -> bool)
    requires !p("") && idx <= |toks|
    ensures var r := NextMatch(toks, idx, p);
            Filter(toks[idx..], p) == (if |r.0| == 0 then [] else [r.0]) + Filter(toks[r.1..], p)
  {
    var i := SkipUntil(toks, idx, p);
    SkipUntilMeaning(toks, idx, p);
    FilterSkip(toks, idx, i, p);
    if i < |toks| {
      FilterAt(toks, i, p);
    } else {
      assert toks[i..] == [];
    }
  }

  /** The skip loop of `next_num` followed by its conditional return, for any
      token test `p`. */
  method ScanNext(toks: seq<string>, idx: nat, p: string -> bool) returns (v: string, next: nat)
    ensures (v, next) == NextMatch(toks, idx, p)
  {
    var i := idx;
    while i < |toks| && !p(toks[i])
      invariant idx <= i
      invariant SkipUntil(toks, i, p) == SkipUntil(toks, idx, p)
      decreases |toks| - i
    {
      i := i + 1;
    }
    v := if i < |toks| then toks[i] else "";
    next := if i < |toks| then i + 1 else i;
  }

  /** `next_num`: the scan with the numeric token test. */
  method NextNum(toks: seq<string>, idx: nat) returns (v: string, next: nat)
    ensures (v, next) == NextMatch(toks, idx, IsNum)
  {
    v, next := ScanNext(toks, idx, IsNum);
  }

  /** The values `n` consecutive `next_num`-style calls return, each one
      starting where the previous one left off. */
  function NextValues(toks: seq<string>, idx: nat, p: string -> bool, n: nat): (r: seq<string>)
    ensures |r| == n
    decreases n
  {
    if n == 0 then []
    else
      var m := NextMatch(toks, idx, p);
      [m.0] + NextValues(toks, m.1, p, n - 1)
  }

  /** `n` consecutive calls return the first `n` matching tokens from `idx`
      on, padded with "" when there are fewer. */
  lemma {:induction false} NextValuesPadded(toks: seq<string>, idx: nat, p: string -> bool, n: nat)
    requires !p("") && idx <= |toks|
    ensures NextValues(toks, idx, p, n) == PadTo(Filter(toks[idx..], p), n)
    decreases n
  {
    if n > 0 {
      var m := NextMatch(toks, idx, p);
      NextMatchMeaning(toks, idx, p);
      NextMatchRemainder(toks, idx, p);
      NextValuesPadded(toks, m.1, p, n - 1);
      if |m.0| == 0 {
        assert toks[m.1..] == [];
      }
      PadStep(m.0, Filter(toks[m.1..], p), n - 1);
    }
  }
}
