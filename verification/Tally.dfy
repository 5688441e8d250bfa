/** Adding up what each of many parties holds, and sequences with some elements left out. */
module Tally {

  function Total<T>(s: seq<T>, w: T -> nat): nat {
    if s == [] then 0 else Total(s[..|s| - 1], w) + w(s[|s| - 1])
  }

  lemma {:induction false} TotalMore<T>(s: seq<T>, x: T, w: T -> nat)
    ensures Total(s + [x], w) == Total(s, w) + w(x)
  {
    assert (s + [x])[..|s|] == s;
  }

  lemma {:induction false} TotalSet<T>(s: seq<T>, i: nat, x: T, w: T -> nat)
    requires i < |s|
    ensures Total(s[i := x], w) + w(s[i]) == Total(s, w) + w(x)
  {
    var front := s[..|s| - 1];
    if i == |s| - 1 {
      assert s[i := x][..|s| - 1] == front;
    } else {
      assert s[i := x][..|s| - 1] == front[i := x];
      TotalSet(front, i, x, w);
    }
  }

  lemma {:induction false} TotalConcat<T>(s: seq<T>, t: seq<T>, w: T -> nat)
    ensures Total(s + t, w) == Total(s, w) + Total(t, w)
  {
    if t == [] {
      assert s + t == s;
    } else {
      assert (s + t)[..|s + t| - 1] == s + t[..|t| - 1];
      TotalConcat(s, t[..|t| - 1], w);
    }
  }

  /** The first of a queue and the rest of it. */
  lemma {:induction false} TotalFirst<T>(s: seq<T>, w: T -> nat)
    requires s != []
    ensures Total(s, w) == w(s[0]) + Total(s[1..], w)
  {
    assert s == [s[0]] + s[1..];
    TotalConcat([s[0]], s[1..], w);
    assert [s[0]][..0] == [];
  }

  lemma {:induction false} TotalSame<T>(s: seq<T>, v: T -> nat, w: T -> nat)
    requires forall x | x in s :: v(x) <= w(x)
    ensures Total(s, v) <= Total(s, w)
    ensures (forall x | x in s :: v(x) == w(x)) ==> Total(s, v) == Total(s, w)
  {
    if s != [] {
      TotalSame(s[..|s| - 1], v, w);
    }
  }

  /** `xs` is `ys` with some elements left out. */
  ghost predicate Subsequence<T>(xs: seq<T>, ys: seq<T>)
    decreases |ys|
  {
    || xs == []
    || (ys != [] && Subsequence(xs, ys[..|ys| - 1]))
    || (ys != [] && xs[|xs| - 1] == ys[|ys| - 1] && Subsequence(xs[..|xs| - 1], ys[..|ys| - 1]))
  }

  lemma {:induction false} SubsequenceMore<T>(xs: seq<T>, ys: seq<T>, y: T)
    requires Subsequence(xs, ys)
    ensures Subsequence(xs, ys + [y]) && Subsequence(xs + [y], ys + [y])
  {
    assert (ys + [y])[..|ys|] == ys && (xs + [y])[..|xs|] == xs;
  }

  lemma {:induction false} SubsequenceTransitive<T>(xs: seq<T>, ys: seq<T>, zs: seq<T>)
    requires Subsequence(xs, ys) && Subsequence(ys, zs)
    ensures Subsequence(xs, zs)
    decreases |zs|
  {
    if xs != [] {
      var front := zs[..|zs| - 1];
      if Subsequence(ys, front) {
        SubsequenceTransitive(xs, ys, front);
      } else if Subsequence(xs, ys[..|ys| - 1]) {
        SubsequenceTransitive(xs, ys[..|ys| - 1], front);
      } else {
        SubsequenceTransitive(xs[..|xs| - 1], ys[..|ys| - 1], front);
      }
    }
  }

  lemma {:induction false} PrefixSubsequence<T>(xs: seq<T>, ys: seq<T>)
    requires xs <= ys
    ensures Subsequence(xs, ys)
    decreases |ys|
  {
    if xs != [] {
      if |xs| == |ys| {
        PrefixSubsequence(xs[..|xs| - 1], ys[..|ys| - 1]);
      } else {
        PrefixSubsequence(xs, ys[..|ys| - 1]);
      }
    }
  }
}
