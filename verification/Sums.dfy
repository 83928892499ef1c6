/** Sums over sequences, weighted by a named function, and how they move when
    one element is appended or replaced. Every law about money in this project
    is a statement about such a sum. */
module Sums {

  function Sum<T>(s: seq<T>, f: T -> int): int {
    if s == [] then 0 else Sum(s[..|s| - 1], f) + f(s[|s| - 1])
  }

  lemma {:induction false} SumSnoc<T>(s: seq<T>, x: T, f: T -> int)
    ensures Sum(s + [x], f) == Sum(s, f) + f(x)
  {}

  lemma {:induction false} SumExt<T>(s: seq<T>, f: T -> int, g: T -> int)
    requires forall k :: 0 <= k < |s| ==> f(s[k]) == g(s[k])
    ensures Sum(s, f) == Sum(s, g)
  {
    if s != [] {
      SumExt(s[..|s| - 1], f, g);
    }
  }

  lemma {:induction false} SumZero<T>(s: seq<T>, f: T -> int)
    requires forall k :: 0 <= k < |s| ==> f(s[k]) == 0
    ensures Sum(s, f) == 0
  {
    if s != [] {
      SumZero(s[..|s| - 1], f);
    }
  }

  /** Replacing element `i` moves the sum by the difference of the two weights. */
  lemma {:induction false} SumUpdate<T>(s: seq<T>, i: nat, x: T, f: T -> int)
    requires i < |s|
    ensures Sum(s[i := x], f) == Sum(s, f) - f(s[i]) + f(x)
  {
    var n := |s| - 1;
    if i == n {
      assert s[i := x][..n] == s[..n];
    } else {
      SumUpdate(s[..n], i, x, f);
      assert s[i := x][..n] == s[..n][i := x];
    }
  }

  /** Two weights that agree everywhere but at position `i`. */
  lemma {:induction false} SumDiffAt<T>(s: seq<T>, i: nat, f: T -> int, g: T -> int)
    requires i < |s|
    requires forall k :: 0 <= k < |s| && k != i ==> f(s[k]) == g(s[k])
    ensures Sum(s, g) == Sum(s, f) - f(s[i]) + g(s[i])
  {
    var n := |s| - 1;
    if i == n {
      SumExt(s[..n], f, g);
    } else {
      SumDiffAt(s[..n], i, f, g);
    }
  }

  /** A weight that splits pointwise into two splits the sum. */
  lemma {:induction false} SumSplit<T>(s: seq<T>, f: T -> int, g: T -> int, h: T -> int)
    requires forall k :: 0 <= k < |s| ==> h(s[k]) == f(s[k]) + g(s[k])
    ensures Sum(s, h) == Sum(s, f) + Sum(s, g)
  {
    if s != [] {
      SumSplit(s[..|s| - 1], f, g, h);
    }
  }

  lemma {:induction false} SumNonNegative<T>(s: seq<T>, f: T -> int)
    requires forall k :: 0 <= k < |s| ==> 0 <= f(s[k])
    ensures 0 <= Sum(s, f)
  {
    if s != [] {
      SumNonNegative(s[..|s| - 1], f);
    }
  }

  /** No term of a sum of non-negative terms exceeds the sum. */
  lemma {:induction false} SumCovers<T>(s: seq<T>, i: nat, f: T -> int)
    requires i < |s|
    requires forall k :: 0 <= k < |s| ==> 0 <= f(s[k])
    ensures f(s[i]) <= Sum(s, f)
  {
    var n := |s| - 1;
    if i == n {
      SumNonNegative(s[..n], f);
    } else {
      SumCovers(s[..n], i, f);
    }
  }

  lemma {:induction false} SumConcat<T>(s: seq<T>, t: seq<T>, f: T -> int)
    ensures Sum(s + t, f) == Sum(s, f) + Sum(t, f)
  {
    if t == [] {
      assert s + t == s;
    } else {
      var n := |t| - 1;
      SumConcat(s, t[..n], f);
      assert (s + t)[..|s| + n] == s + t[..n];
    }
  }

  lemma {:induction false} SumOf1<T>(x: T, f: T -> int)
    ensures Sum([x], f) == f(x)
  {}

  lemma {:induction false} SumOf2<T>(x: T, y: T, f: T -> int)
    ensures Sum([x, y], f) == f(x) + f(y)
  {
    assert [x, y] == [x] + [y];
    SumOf1(x, f);
    SumSnoc([x], y, f);
  }

  lemma {:induction false} SumOf3<T>(x: T, y: T, z: T, f: T -> int)
    ensures Sum([x, y, z], f) == f(x) + f(y) + f(z)
  {
    assert [x, y, z] == [x, y] + [z];
    SumOf2(x, y, f);
    SumSnoc([x, y], z, f);
  }
}
