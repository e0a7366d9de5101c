/** Optional values and the "keep the rows that produce something, in order"
    pattern the classifier uses three times: `clean_table` keeps the
    non-empty raw rows, `_tokens` keeps the non-blank cells, and each schema
    loop keeps the rows that yield a record. */
module Filtering {

  datatype Option<T> = None | Some(value: T)

  /** The values `f` produces for the elements of `xs`, in the order of `xs`;
      elements for which `f` gives `None` are skipped. */
  function Collect<A, B>(xs: seq<A>, f: A -> Option<B>): (r: seq<B>)
    ensures |r| <= |xs|
    decreases |xs|
  {
    if |xs| == 0 then []
    else
      var rest := Collect(xs[..|xs| - 1], f);
      match f(xs[|xs| - 1])
      case Some(b) => rest + [b]
      case None => rest
  }

  /** The positions of the elements that `f` keeps, in increasing order. */
  function KeptIndices<A, B>(xs: seq<A>, f: A -> Option<B>): (ks: seq<nat>)
    ensures forall m :: 0 <= m < |ks| ==> ks[m] < |xs| && f(xs[ks[m]]).Some?
    ensures forall m, n :: 0 <= m < n < |ks| ==> ks[m] < ks[n]
    ensures forall k :: 0 <= k < |xs| && f(xs[k]).Some? ==> k in ks
    decreases |xs|
  {
    if |xs| == 0 then []
    else
      var init := xs[..|xs| - 1];
      var rest := KeptIndices(init, f);
      assert forall m :: 0 <= m < |rest| ==> xs[rest[m]] == init[rest[m]];
      assert forall k :: 0 <= k < |xs| - 1 ==> xs[k] == init[k];
      if f(xs[|xs| - 1]).Some? then rest + [|xs| - 1] else rest
  }

  /** `Collect` keeps exactly the elements `f` accepts, in their original
      order: its m-th value is what `f` gives for the m-th kept position. */
  lemma {:induction false} CollectInOrder<A, B>(xs: seq<A>, f: A -> Option<B>)
    ensures |Collect(xs, f)| == |KeptIndices(xs, f)|
    ensures forall m :: 0 <= m < |Collect(xs, f)| ==>
              Collect(xs, f)[m] == f(xs[KeptIndices(xs, f)[m]]).value
    decreases |xs|
  {
    if |xs| > 0 {
      var n := |xs| - 1;
      var init := xs[..n];
      CollectInOrder(init, f);
      var rest, ks := Collect(init, f), KeptIndices(init, f);
      if f(xs[n]).Some? {
        assert Collect(xs, f) == rest + [f(xs[n]).value];
        assert KeptIndices(xs, f) == ks + [n];
        forall m | 0 <= m < |rest| + 1
          ensures (rest + [f(xs[n]).value])[m] == f(xs[(ks + [n])[m]]).value
        {
          if m < |rest| {
            assert xs[ks[m]] == init[ks[m]];
          }
        }
      } else {
        forall m | 0 <= m < |rest| ensures rest[m] == f(xs[ks[m]]).value {
          assert xs[ks[m]] == init[ks[m]];
        }
      }
    }
  }

  /** Filtering a concatenation is the concatenation of the filtered parts:
      rows of one part never move past rows of the other. */
  lemma {:induction false} CollectAppend<A, B>(a: seq<A>, b: seq<A>, f: A -> Option<B>)
    ensures Collect(a + b, f) == Collect(a, f) + Collect(b, f)
    decreases |b|
  {
    if |b| > 0 {
      var b' := b[..|b| - 1];
      assert (a + b)[..|a + b| - 1] == a + b';
      CollectAppend(a, b', f);
    } else {
      assert a + b == a;
    }
  }

  /** Every collected value is one that `f` produced for some element. */
  lemma CollectSound<A, B>(xs: seq<A>, f: A -> Option<B>, m: nat)
    requires m < |Collect(xs, f)|
    ensures exists k :: 0 <= k < |xs| && f(xs[k]) == Some(Collect(xs, f)[m])
  {
    CollectInOrder(xs, f);
    var k := KeptIndices(xs, f)[m];
    assert f(xs[k]) == Some(Collect(xs, f)[m]);
  }

  /** Growing a prefix of the input by one element extends the output by
      that element's value, if any: the step of every loop that builds a
      `Collect`. */
  lemma CollectPrefix<A, B>(xs: seq<A>, k: nat, f: A -> Option<B>)
    requires k < |xs|
    ensures Collect(xs[..k + 1], f) ==
              Collect(xs[..k], f) + (match f(xs[k]) case Some(b) => [b] case None => [])
  {
    assert xs[..k + 1][..k] == xs[..k];
  }
}
