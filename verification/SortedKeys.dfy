/** Enumerating a set of integer keys in increasing order. */
module SortedKeys {

  /** The key set in increasing order. */
  function Sorted(keys: set<int>): seq<int>
    decreases |keys|
  {
    if keys == {} then []
    else
      LeastExists(keys);
      var least :| least in keys && forall k <- keys :: least <= k;
      [least] + Sorted(keys - {least})
  }

  lemma {:induction false} LeastExists(keys: set<int>)
    requires keys != {}
    ensures exists least :: least in keys && forall k <- keys :: least <= k
    decreases |keys|
  {
    assert (forall k <- keys :: false) ==> keys == {};
    var x :| x in keys;
    var rest := keys - {x};
    assert keys == rest + {x};
    if rest != {} {
      LeastExists(rest);
      var l :| l in rest && forall j <- rest :: l <= j;
      var least := if l <= x then l else x;
      forall k | k in keys
        ensures least <= k
      {
        assert k == x || k in rest;
      }
      assert least in keys;
    }
  }

  lemma {:induction false} SortedMembers(keys: set<int>)
    ensures forall i :: 0 <= i < |Sorted(keys)| ==> Sorted(keys)[i] in keys
    ensures forall k <- keys :: k in Sorted(keys)
    decreases |keys|
  {
    if keys != {} {
      SortedMembers(keys - {Sorted(keys)[0]});
    }
  }

  /** The integers from `lo` to `hi`. */
  function Interval(lo: int, hi: int): set<int>
    decreases hi - lo
  {
    if lo > hi then {} else {lo} + Interval(lo + 1, hi)
  }

  lemma {:induction false} IntervalMembers(lo: int, hi: int)
    ensures forall k :: k in Interval(lo, hi) <==> lo <= k <= hi
    decreases hi - lo
  {
    if lo <= hi {
      IntervalMembers(lo + 1, hi);
    }
  }

  lemma {:induction false} SortedInterval(lo: int, hi: int)
    requires lo <= hi + 1
    ensures Sorted(Interval(lo, hi)) == seq(hi - lo + 1, i => lo + i)
    decreases hi - lo
  {
    IntervalMembers(lo, hi);
    IntervalMembers(lo + 1, hi);
    if lo <= hi {
      assert lo in Interval(lo, hi);
      assert Sorted(Interval(lo, hi))[0] == lo;
      assert Interval(lo, hi) - {lo} == Interval(lo + 1, hi);
      SortedInterval(lo + 1, hi);
    }
  }
}
