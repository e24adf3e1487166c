/** Sorting of asset sequences under the `MultiAsset` order. The Rust code calls the
    library's `Vec::sort`; because the order is total and `Equal` only for identical
    assets, every sorting algorithm yields the same sequence (`SortedPermutationsEqual`),
    so an insertion sort stands in for it. */
module AssetSort {
  import opened XcmAsset

  ghost predicate Sorted(s: seq<MultiAsset>)
  {
    forall i, j :: 0 <= i < j < |s| ==> Le(s[i], s[j])
  }

  function Insert(x: MultiAsset, s: seq<MultiAsset>): (r: seq<MultiAsset>)
    ensures multiset(r) == multiset(s) + multiset{x}
    ensures Sorted(s) ==> Sorted(r)
  {
    if s == [] then [x]
    else if Le(x, s[0]) then
      InsertFrontSorted(x, s);
      [x] + s
    else
      var t := Insert(x, s[1..]);
      assert s == [s[0]] + s[1..];
      InsertConsSorted(x, s, t);
      [s[0]] + t
  }

  lemma InsertFrontSorted(x: MultiAsset, s: seq<MultiAsset>)
    requires s != [] && Le(x, s[0])
    ensures Sorted(s) ==> Sorted([x] + s)
  {
    if Sorted(s) {
      forall j | 0 <= j < |s| ensures Le(x, s[j]) {
        LeTotalOrder(x, s[0], s[j]);
      }
    }
  }

  lemma InsertConsSorted(x: MultiAsset, s: seq<MultiAsset>, t: seq<MultiAsset>)
    requires s != [] && !Le(x, s[0])
    requires multiset(t) == multiset(s[1..]) + multiset{x}
    requires Sorted(s[1..]) ==> Sorted(t)
    ensures Sorted(s) ==> Sorted([s[0]] + t)
  {
    if Sorted(s) {
      assert Sorted(s[1..]) by {
        forall i, j | 0 <= i < j < |s| - 1 ensures Le(s[1..][i], s[1..][j]) {
          assert s[1..][i] == s[i + 1] && s[1..][j] == s[j + 1];
        }
      }
      forall j | 0 <= j < |t| ensures Le(s[0], t[j]) {
        assert t[j] in multiset(t);
        if t[j] == x {
          LeTotalOrder(x, s[0], x);
        } else {
          assert t[j] in multiset(s[1..]);
          var k :| 0 <= k < |s[1..]| && s[1..][k] == t[j];
          assert s[k + 1] == t[j];
        }
      }
    }
  }

  /** The sorted permutation of `s` (what `Vec::sort` leaves behind). */
  function SortAssets(s: seq<MultiAsset>): (r: seq<MultiAsset>)
    ensures Sorted(r)
    ensures multiset(r) == multiset(s)
    ensures |r| == |s|
  {
    if s == [] then []
    else
      assert s == [s[0]] + s[1..];
      var r := Insert(s[0], SortAssets(s[1..]));
      assert |multiset(r)| == |multiset(s)|;
      r
  }

  lemma SortedTail(s: seq<MultiAsset>)
    requires Sorted(s) && s != []
    ensures Sorted(s[1..])
  {
    forall i, j | 0 <= i < j < |s| - 1 ensures Le(s[1..][i], s[1..][j]) {
      assert s[1..][i] == s[i + 1] && s[1..][j] == s[j + 1];
    }
  }

  lemma SortedHeadIsLeast(s: seq<MultiAsset>, x: MultiAsset)
    requires Sorted(s) && x in s
    ensures Le(s[0], x)
  {
    var i :| 0 <= i < |s| && s[i] == x;
    LeTotalOrder(x, x, x);
  }

  lemma MultisetCons(s: seq<MultiAsset>)
    requires s != []
    ensures multiset(s) == multiset{s[0]} + multiset(s[1..])
  {
    assert s == [s[0]] + s[1..];
  }

  /** A sorted sequence is determined by its elements: sorting is deterministic whatever
      algorithm does it. */
  lemma {:induction false} SortedPermutationsEqual(a: seq<MultiAsset>, b: seq<MultiAsset>)
    requires Sorted(a) && Sorted(b) && multiset(a) == multiset(b)
    ensures a == b
    decreases |a|
  {
    if a != [] {
      SortedHeadsEqual(a, b);
      SortedTail(a);
      SortedTail(b);
      SortedPermutationsEqual(a[1..], b[1..]);
      assert a == [a[0]] + a[1..] && b == [b[0]] + b[1..];
    }
  }

  /** Two sorted permutations start with the same entry; the rest are permutations too. */
  lemma SortedHeadsEqual(a: seq<MultiAsset>, b: seq<MultiAsset>)
    requires Sorted(a) && Sorted(b) && multiset(a) == multiset(b) && a != []
    ensures b != [] && a[0] == b[0]
    ensures multiset(a[1..]) == multiset(b[1..])
  {
    assert |b| == |multiset(b)| == |multiset(a)| == |a|;
    assert a[0] in multiset(b) && b[0] in multiset(a);
    SortedHeadIsLeast(b, a[0]);
    SortedHeadIsLeast(a, b[0]);
    LeTotalOrder(a[0], b[0], b[0]);
    MultisetCons(a);
    MultisetCons(b);
    assert a[0] == b[0];
    assert multiset(a[1..]) == multiset(a) - multiset{a[0]};
    assert multiset(b[1..]) == multiset(b) - multiset{b[0]};
  }

  /** Sorting an already sorted sequence changes nothing. */
  lemma SortSortedIsIdentity(s: seq<MultiAsset>)
    requires Sorted(s)
    ensures SortAssets(s) == s
  {
    SortedPermutationsEqual(SortAssets(s), s);
  }

  /** Appending one asset to a sorted sequence and sorting inserts it in place. */
  lemma SortAppendIsInsert(s: seq<MultiAsset>, a: MultiAsset)
    requires Sorted(s)
    ensures SortAssets(s + [a]) == Insert(a, s)
  {
    assert multiset(s + [a]) == multiset(s) + multiset{a};
    SortedPermutationsEqual(SortAssets(s + [a]), Insert(a, s));
  }

  /** Strictly increasing neighbours make a sorted sequence. */
  lemma {:induction false} ChainSorted(s: seq<MultiAsset>)
    requires forall i :: 0 < i < |s| ==> Lt(s[i - 1], s[i])
    ensures Sorted(s)
    ensures forall i, j :: 0 <= i < j < |s| ==> Lt(s[i], s[j])
    decreases |s|
  {
    if |s| > 1 {
      var t := s[..|s| - 1];
      assert forall i :: 0 < i < |t| ==> Lt(t[i - 1], t[i]) by {
        forall i | 0 < i < |t| ensures Lt(t[i - 1], t[i]) {
          assert t[i - 1] == s[i - 1] && t[i] == s[i];
        }
      }
      ChainSorted(t);
      var n := |s| - 1;
      forall i | 0 <= i < n ensures Lt(s[i], s[n]) {
        assert t[i] == s[i];
        if i < n - 1 {
          assert Lt(t[i], t[n - 1]);
          CmpAssetTrans(s[i], s[n - 1], s[n]);
        }
      }
      forall i, j | 0 <= i < j < |s| ensures Lt(s[i], s[j]) {
        if j < n {
          assert t[i] == s[i] && t[j] == s[j];
        }
      }
    }
  }
}
