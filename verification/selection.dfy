/** Picking random targets (selectRandom of pkg/k8s): a shuffle in place, then a prefix. */
module Selection {

  /** One call of the shuffle's swap function; the library decides which and how many. */
  type Swap = (nat, nat)

  predicate InRange(swaps: seq<Swap>, n: nat) {
    forall s :: s in swaps ==> s.0 < n && s.1 < n
  }

  function Shuffled<T>(s: seq<T>, swaps: seq<Swap>): (r: seq<T>)
    requires InRange(swaps, |s|)
    ensures |r| == |s|
  {
    if swaps == [] then s
    else
      assert forall w :: w in swaps[..|swaps| - 1] ==> w in swaps;
      var before := Shuffled(s, swaps[..|swaps| - 1]);
      var (i, j) := swaps[|swaps| - 1];
      assert swaps[|swaps| - 1] in swaps;
      before[i := before[j]][j := before[i]]
  }

  /** The chosen items: all of them when there is no limit to apply. */
  function Select<T>(s: seq<T>, max: int, swaps: seq<Swap>): seq<T>
    requires InRange(swaps, |s|)
  {
    if max <= 0 || max >= |s| then s else Shuffled(s, swaps)[..max]
  }

  /** The source's form: swaps in the array, then its first `max` elements. */
  method SelectRandom<T>(items: array<T>, max: int, swaps: seq<Swap>) returns (chosen: seq<T>)
    requires InRange(swaps, items.Length)
    modifies items
    ensures chosen == Select(old(items[..]), max, swaps)
    ensures max <= 0 || max >= items.Length ==> items[..] == old(items[..])
  {
    if max <= 0 || max >= items.Length {
      return items[..];
    }
    var k := 0;
    while k < |swaps|
      invariant 0 <= k <= |swaps|
      invariant InRange(swaps[..k], items.Length)
      invariant items[..] == Shuffled(old(items[..]), swaps[..k])
    {
      var (i, j) := swaps[k];
      assert swaps[k] in swaps;
      assert forall w :: w in swaps[..k + 1] ==> w in swaps;
      assert swaps[..k + 1][..k] == swaps[..k];
      items[i], items[j] := items[j], items[i];
      k := k + 1;
    }
    assert swaps[..|swaps|] == swaps;
    return items[..max];
  }

  lemma SwapPermutes<T>(s: seq<T>, i: nat, j: nat)
    requires i < |s| && j < |s|
    ensures multiset(s[i := s[j]][j := s[i]]) == multiset(s)
  {
  }

  lemma {:induction false} ShufflePermutes<T>(s: seq<T>, swaps: seq<Swap>)
    requires InRange(swaps, |s|)
    ensures multiset(Shuffled(s, swaps)) == multiset(s)
  {
    if swaps != [] {
      assert swaps[|swaps| - 1] in swaps;
      assert forall w :: w in swaps[..|swaps| - 1] ==> w in swaps;
      ShufflePermutes(s, swaps[..|swaps| - 1]);
      SwapPermutes(Shuffled(s, swaps[..|swaps| - 1]), swaps[|swaps| - 1].0, swaps[|swaps| - 1].1);
    }
  }

  ghost predicate Distinct<T(!new)>(s: seq<T>) {
    forall i, j :: 0 <= i < |s| && 0 <= j < |s| && s[i] == s[j] ==> i == j
  }

  lemma {:induction false} DistinctCounts<T(!new)>(s: seq<T>)
    ensures Distinct(s) <==> forall x :: multiset(s)[x] <= 1
  {
    if s != [] {
      var last := |s| - 1;
      var init := s[..last];
      assert s == init + [s[last]];
      DistinctCounts(init);
      if Distinct(s) {
        assert Distinct(init);
        assert s[last] !in init;
        assert multiset(init)[s[last]] == 0;
        assert forall x :: multiset(s)[x] == multiset(init)[x] + multiset([s[last]])[x];
      } else {
        if Distinct(init) {
          assert s[last] in init;
          assert multiset(s)[s[last]] == multiset(init)[s[last]] + 1;
        } else {
          var x :| multiset(init)[x] > 1;
          assert multiset(s)[x] >= multiset(init)[x];
        }
      }
    }
  }

  /** For every shuffle the choice is part of the items, of the asked size, without repeats if
      the items have none. */
  lemma SelectionLaw<T(!new)>(s: seq<T>, max: int, swaps: seq<Swap>)
    requires InRange(swaps, |s|)
    ensures multiset(Select(s, max, swaps)) <= multiset(s)
    ensures |Select(s, max, swaps)| == if max <= 0 || max >= |s| then |s| else max
    ensures forall x :: x in Select(s, max, swaps) ==> x in s
    ensures Distinct(s) ==> Distinct(Select(s, max, swaps))
  {
    var all := Shuffled(s, swaps);
    ShufflePermutes(s, swaps);
    if max > 0 && max < |s| {
      assert all == all[..max] + all[max..];
      assert multiset(all[..max]) <= multiset(all);
      forall x | x in all[..max]
        ensures x in s
      {
        assert x in multiset(all) && x in multiset(s);
      }
      DistinctCounts(s);
      DistinctCounts(all);
    }
  }
}
