/** Sums and multiset unions over a sequence, and how one update changes them.
    The protocol models use them to count workers by what they are doing. */
module Sums {

  function Sum<T>(s: seq<T>, f: T -> int): int {
    if s == [] then 0 else f(s[0]) + Sum(s[1..], f)
  }

  function Gather<T, R>(s: seq<T>, f: T -> multiset<R>): multiset<R> {
    if s == [] then multiset{} else f(s[0]) + Gather(s[1..], f)
  }

  lemma {:induction false} SumUpdate<T>(s: seq<T>, i: nat, v: T, f: T -> int)
    requires i < |s|
    ensures Sum(s[i := v], f) == Sum(s, f) - f(s[i]) + f(v)
  {
    var u := s[i := v];
    if i == 0 {
      assert u[1..] == s[1..];
    } else {
      assert u[1..] == s[1..][i - 1 := v];
      SumUpdate(s[1..], i - 1, v, f);
    }
  }

  /** Replacing `s[i]` moves the union from what `s[i]` contributed to what `v` does. */
  lemma {:induction false} GatherUpdate<T, R>(s: seq<T>, i: nat, v: T, f: T -> multiset<R>)
    requires i < |s|
    ensures Gather(s[i := v], f) + f(s[i]) == Gather(s, f) + f(v)
  {
    var u := s[i := v];
    if i == 0 {
      assert u[1..] == s[1..];
    } else {
      assert u[1..] == s[1..][i - 1 := v];
      GatherUpdate(s[1..], i - 1, v, f);
      var head, before, after := f(s[0]), Gather(s[1..], f), Gather(u[1..], f);
      assert head + after + f(s[i]) == head + (after + f(s[i])) == head + (before + f(v)) == head + before + f(v);
    }
  }

  lemma MulStep(x: int, n: int)
    ensures x * (n + 1) == x * n + x
  {
  }

  lemma {:induction false} SumBounds<T>(s: seq<T>, f: T -> int, lo: int, hi: int)
    requires forall x :: x in s ==> lo <= f(x) <= hi
    ensures lo * |s| <= Sum(s, f) <= hi * |s|
  {
    if s != [] {
      assert forall x :: x in s[1..] ==> x in s;
      SumBounds(s[1..], f, lo, hi);
      MulStep(lo, |s[1..]|);
      MulStep(hi, |s[1..]|);
    }
  }

  lemma {:induction false} GatherEmpty<T, R>(s: seq<T>, f: T -> multiset<R>)
    requires forall x :: x in s ==> f(x) == multiset{}
    ensures Gather(s, f) == multiset{}
  {
    if s != [] {
      assert forall x :: x in s[1..] ==> x in s;
      GatherEmpty(s[1..], f);
    }
  }

  lemma {:induction false} GatherAppend<T, R>(s: seq<T>, t: seq<T>, f: T -> multiset<R>)
    ensures Gather(s + t, f) == Gather(s, f) + Gather(t, f)
  {
    if s == [] {
      assert s + t == t;
    } else {
      assert (s + t)[1..] == s[1..] + t;
      GatherAppend(s[1..], t, f);
    }
  }

  lemma {:induction false} SumAppend<T>(s: seq<T>, t: seq<T>, f: T -> int)
    ensures Sum(s + t, f) == Sum(s, f) + Sum(t, f)
  {
    if s == [] {
      assert s + t == t;
    } else {
      assert (s + t)[1..] == s[1..] + t;
      SumAppend(s[1..], t, f);
    }
  }

  lemma SumLast<T>(s: seq<T>, i: nat, f: T -> int)
    requires i < |s|
    ensures Sum(s[..i + 1], f) == Sum(s[..i], f) + f(s[i])
  {
    assert s[..i + 1] == s[..i] + [s[i]];
    SumAppend(s[..i], [s[i]], f);
    assert Sum([s[i]], f) == f(s[i]) + Sum([s[i]][1..], f);
  }

  function Without<T>(b: seq<T>, i: nat): seq<T>
    requires i < |b|
  {
    b[..i] + b[i + 1..]
  }

  lemma WithoutCounts<T>(b: seq<T>, i: nat)
    requires i < |b|
    ensures multiset(b) == multiset(Without(b, i)) + multiset{b[i]}
  {
    assert b == b[..i] + [b[i]] + b[i + 1..];
  }

  lemma SameRest<T>(a: multiset<T>, b: multiset<T>, x: T)
    requires a + multiset{x} == b + multiset{x}
    ensures a == b
  {
    forall y
      ensures a[y] == b[y]
    {
      assert (a + multiset{x})[y] == (b + multiset{x})[y];
    }
  }

  /** Sums over a sequence do not depend on its order. */
  lemma {:induction false} SumPermutation<T>(a: seq<T>, b: seq<T>, f: T -> int)
    requires multiset(a) == multiset(b)
    ensures Sum(a, f) == Sum(b, f)
  {
    if a == [] {
      assert |multiset(b)| == |b| == 0;
    } else {
      assert a[0] in multiset(b);
      var i :| 0 <= i < |b| && b[i] == a[0];
      WithoutCounts(a, 0);
      WithoutCounts(b, i);
      SameRest(multiset(Without(a, 0)), multiset(Without(b, i)), a[0]);
      assert Without(a, 0) == a[1..];
      SumPermutation(a[1..], Without(b, i), f);
      SumMiddle(b, i, f);
    }
  }

  lemma SumMiddle<T>(b: seq<T>, i: nat, f: T -> int)
    requires i < |b|
    ensures Sum(b, f) == Sum(Without(b, i), f) + f(b[i])
  {
    assert b == b[..i + 1] + b[i + 1..];
    SumAppend(b[..i + 1], b[i + 1..], f);
    SumLast(b, i, f);
    SumAppend(b[..i], b[i + 1..], f);
  }

  lemma ConcatAssoc<T>(a: seq<T>, b: seq<T>, c: seq<T>)
    ensures a + (b + c) == a + b + c
  {
  }
}
