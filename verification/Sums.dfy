/** Weighted sums over sequences: chip totals and seat counts alike. */
module Sums {

  function Sum<T>(s: seq<T>, w: T -> nat): nat {
    if s == [] then 0 else Sum(s[..|s| - 1], w) + w(s[|s| - 1])
  }

  lemma {:induction false} SumUpdate<T>(s: seq<T>, i: nat, x: T, w: T -> nat)
    requires i < |s|
    ensures Sum(s[i := x], w) + w(s[i]) == Sum(s, w) + w(x)
  {
    var n := |s| - 1;
    if i == n {
      assert s[i := x][..n] == s[..n];
    } else {
      assert s[i := x][..n] == s[..n][i := x];
      SumUpdate(s[..n], i, x, w);
    }
  }

  lemma {:induction false} SumSame<T, U>(s: seq<T>, w: T -> nat, t: seq<U>, v: U -> nat)
    requires |s| == |t|
    requires forall i :: 0 <= i < |s| ==> w(s[i]) == v(t[i])
    ensures Sum(s, w) == Sum(t, v)
  {
    if s != [] { SumSame(s[..|s| - 1], w, t[..|t| - 1], v); }
  }

  /** A sum split pointwise into two. */
  lemma {:induction false} SumSplit<T, U, V>(s: seq<T>, w: T -> nat, t: seq<U>, v: U -> nat, r: seq<V>, x: V -> nat)
    requires |s| == |t| == |r|
    requires forall i :: 0 <= i < |s| ==> w(s[i]) == v(t[i]) + x(r[i])
    ensures Sum(s, w) == Sum(t, v) + Sum(r, x)
  {
    if s != [] { SumSplit(s[..|s| - 1], w, t[..|t| - 1], v, r[..|r| - 1], x); }
  }

  lemma {:induction false} SumMono<T>(s: seq<T>, w: T -> nat, v: T -> nat)
    requires forall i :: 0 <= i < |s| ==> w(s[i]) <= v(s[i])
    ensures Sum(s, w) <= Sum(s, v)
  {
    if s != [] { SumMono(s[..|s| - 1], w, v); }
  }

  lemma {:induction false} SumZero<T>(s: seq<T>, w: T -> nat)
    requires forall i :: 0 <= i < |s| ==> w(s[i]) == 0
    ensures Sum(s, w) == 0
  {
    if s != [] { SumZero(s[..|s| - 1], w); }
  }

  lemma {:induction false} SumAtLeast<T>(s: seq<T>, w: T -> nat, i: nat)
    requires i < |s|
    ensures w(s[i]) <= Sum(s, w)
  {
    if i < |s| - 1 { SumAtLeast(s[..|s| - 1], w, i); }
  }

  lemma {:induction false} SumAtLeastTwo<T>(s: seq<T>, w: T -> nat, i: nat, j: nat)
    requires i < j < |s|
    ensures w(s[i]) + w(s[j]) <= Sum(s, w)
  {
    if j < |s| - 1 { SumAtLeastTwo(s[..|s| - 1], w, i, j); } else { SumAtLeast(s[..j], w, i); }
  }

  /** A positive sum has a positive term. */
  lemma {:induction false} SumWitness<T>(s: seq<T>, w: T -> nat) returns (i: nat)
    requires Sum(s, w) > 0
    ensures i < |s| && w(s[i]) > 0
  {
    if w(s[|s| - 1]) > 0 { i := |s| - 1; } else { i := SumWitness(s[..|s| - 1], w); }
  }

  lemma {:induction false} SumBound<T>(s: seq<T>, w: T -> nat, b: nat)
    requires forall i :: 0 <= i < |s| ==> w(s[i]) <= b
    ensures Sum(s, w) <= b * |s|
  {
    if s != [] {
      SumBound(s[..|s| - 1], w, b);
      assert b * |s| == b * (|s| - 1) + b;
    }
  }
}
