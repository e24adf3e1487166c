/** `MultiAssets`: a list of assets kept sorted and free of duplicates, with the checked
    constructor used by decoding, the canonicalising constructor, `push`, `contains` and the
    location rewrites `reanchor` / `prepend_with`. */
module XcmMultiAssets {
  import opened Wrappers
  import opened Ints
  import opened XcmAsset
  import opened AssetSort

  /** The largest number of entries a decoded `MultiAssets` may have. */
  const MAX_ITEMS_IN_MULTIASSETS: nat := 20

  // ---------------------------------------------------------------------------
  // Canonical form

  /** Two entries a canonical list may not hold together: the same asset twice, or two
      fungible entries of one asset class. */
  predicate Clash(a: MultiAsset, b: MultiAsset)
  {
    a == b || (a.fun.Fungible? && b.fun.Fungible? && a.id == b.id)
  }

  ghost predicate ClashFree(s: seq<MultiAsset>)
  {
    forall i, j :: 0 <= i < j < |s| ==> !Clash(s[i], s[j])
  }

  /** Neighbours strictly increase and never clash. */
  ghost predicate Increasing(s: seq<MultiAsset>)
  {
    forall i :: 0 < i < |s| ==> Lt(s[i - 1], s[i]) && !Clash(s[i - 1], s[i])
  }

  /** The test `from_sorted_and_deduplicated` applies to each pair of neighbours:
      `a.id < b.id`, or `a < b` with at least one of them non-fungible. */
  predicate StrictPair(a: MultiAsset, b: MultiAsset)
  {
    IdLess(a.id, b.id) || (Lt(a, b) && (IsNonFungible(a, None) || IsNonFungible(b, None)))
  }

  ghost predicate PairwiseStrict(s: seq<MultiAsset>)
  {
    forall i :: 0 < i < |s| ==> StrictPair(s[i - 1], s[i])
  }

  /** The invariant the Rust type documents: sorted, and accepted by the strict check. */
  ghost predicate IsCanonical(s: seq<MultiAsset>)
  {
    Sorted(s) && PairwiseStrict(s)
  }

  lemma PairwiseStrictCons(a: MultiAsset, s: seq<MultiAsset>)
    requires s != []
    ensures PairwiseStrict([a] + s) <==> StrictPair(a, s[0]) && PairwiseStrict(s)
  {
    var t := [a] + s;
    assert t[1] == s[0];
    if PairwiseStrict(t) {
      assert StrictPair(t[0], t[1]);
      forall i | 0 < i < |s| ensures StrictPair(s[i - 1], s[i]) {
        assert t[i] == s[i - 1] && t[i + 1] == s[i];
      }
    }
    if StrictPair(a, s[0]) && PairwiseStrict(s) {
      forall i | 0 < i < |t| ensures StrictPair(t[i - 1], t[i]) {
        if i > 1 {
          assert t[i - 1] == s[i - 2] && t[i] == s[i - 1];
          assert StrictPair(s[(i - 1) - 1], s[i - 1]);
        }
      }
      assert PairwiseStrict(t);
    }
  }

  /** The `try_fold` of `from_sorted_and_deduplicated` over the neighbours. */
  function CheckNeighbours(first: MultiAsset, rest: seq<MultiAsset>): (ok: bool)
    ensures ok <==> PairwiseStrict([first] + rest)
    decreases |rest|
  {
    if rest == [] then true
    else
      PairwiseStrictCons(first, rest);
      assert rest == [rest[0]] + rest[1..];
      StrictPair(first, rest[0]) && CheckNeighbours(rest[0], rest[1..])
  }

  /** `MultiAssets::from_sorted_and_deduplicated`: accepts the list unchanged when every
      neighbour pair passes the strict test, and fails otherwise. */
  function FromSortedAndDeduplicated(r: seq<MultiAsset>): (res: Result<seq<MultiAsset>, ()>)
    ensures res.Ok? <==> PairwiseStrict(r)
    ensures res.Ok? ==> res.value == r
  {
    if r == [] then Ok([])
    else
      assert r == [r[0]] + r[1..];
      if CheckNeighbours(r[0], r[1..]) then Ok(r) else Err(())
  }

  /** Between sorted neighbours, the strict test is "strictly less and no clash". */
  lemma StrictPairOnSorted(a: MultiAsset, b: MultiAsset)
    requires Le(a, b)
    ensures StrictPair(a, b) <==> Lt(a, b) && !Clash(a, b)
  {
    LeTotalOrder(a, b, b);
    CmpAssetIdEqual(a.id, b.id);
  }

  lemma IncreasingCons(a: MultiAsset, s: seq<MultiAsset>)
    requires s != [] && Lt(a, s[0]) && !Clash(a, s[0]) && Increasing(s)
    ensures Increasing([a] + s)
  {
    var t := [a] + s;
    forall i | 0 < i < |t| ensures Lt(t[i - 1], t[i]) && !Clash(t[i - 1], t[i]) {
      if i > 1 {
        assert t[i - 1] == s[i - 2] && t[i] == s[i - 1];
      }
    }
  }

  lemma IncreasingIsCanonical(s: seq<MultiAsset>)
    ensures Increasing(s) <==> IsCanonical(s)
  {
    if Increasing(s) {
      ChainSorted(s);
      forall i | 0 < i < |s| ensures StrictPair(s[i - 1], s[i]) {
        StrictPairOnSorted(s[i - 1], s[i]);
      }
    }
    if IsCanonical(s) {
      forall i | 0 < i < |s| ensures Lt(s[i - 1], s[i]) && !Clash(s[i - 1], s[i]) {
        StrictPairOnSorted(s[i - 1], s[i]);
      }
    }
  }

  /** In an increasing list no two entries clash, not only neighbours. */
  lemma IncreasingIsClashFree(s: seq<MultiAsset>)
    requires Increasing(s)
    ensures ClashFree(s)
  {
    ChainSorted(s);
    forall i, j | 0 <= i < j < |s| ensures !Clash(s[i], s[j]) {
      LeTotalOrder(s[i], s[j], s[j]);
      if s[i].fun.Fungible? && s[j].fun.Fungible? && s[i].id == s[j].id {
        var k := i + 1;
        var x := s[k];
        assert Lt(s[i], x) && !Clash(s[i], x);
        assert Le(x, s[j]) by {
          if k < j { LeTotalOrder(x, s[j], s[j]); } else { LeTotalOrder(x, x, x); }
        }
        CmpAssetIdEqual(s[i].id, x.id);
        CmpAssetIdFlip(s[i].id, x.id);
        assert false;
      }
    }
  }

  lemma SortedClashFreeIsIncreasing(s: seq<MultiAsset>)
    requires Sorted(s) && ClashFree(s)
    ensures Increasing(s)
  {
    forall i | 0 < i < |s| ensures Lt(s[i - 1], s[i]) && !Clash(s[i - 1], s[i]) {
      LeTotalOrder(s[i - 1], s[i], s[i]);
    }
  }

  /** On a sorted list the strict check accepts exactly the lists in which no asset occurs
      twice and no asset class has two fungible entries. */
  lemma StrictCheckOnSortedList(s: seq<MultiAsset>)
    requires Sorted(s)
    ensures FromSortedAndDeduplicated(s).Ok? <==> ClashFree(s)
  {
    IncreasingIsCanonical(s);
    if ClashFree(s) {
      SortedClashFreeIsIncreasing(s);
    }
    if IsCanonical(s) {
      IncreasingIsClashFree(s);
    }
  }

  /** The check alone does not make a list canonical: it only compares neighbours, so with a
      non-fungible entry in between it accepts an unsorted list holding two fungible entries
      of the parent chain's asset. */
  lemma StrictCheckAdmitsUnsortedDuplicates()
    ensures var parent := Concrete(MultiLocation(1, []));
            var here := Concrete(MultiLocation(0, []));
            var s := [MultiAsset(parent, Fungible(1)), MultiAsset(here, NonFungible(Undefined)),
                      MultiAsset(parent, Fungible(2))];
            FromSortedAndDeduplicated(s).Ok? && !Sorted(s) && !ClashFree(s)
  {
    var parent := Concrete(MultiLocation(1, []));
    var here := Concrete(MultiLocation(0, []));
    var s := [MultiAsset(parent, Fungible(1)), MultiAsset(here, NonFungible(Undefined)),
              MultiAsset(parent, Fungible(2))];
    assert StrictPair(s[0], s[1]);
    assert StrictPair(s[1], s[2]);
    assert !Le(s[1], s[2]);
    assert Clash(s[0], s[2]);
  }

  const Here: AssetId := Concrete(MultiLocation(0, []))
  const Parent: AssetId := Concrete(MultiLocation(1, []))

  /** Cases from the unit test of `from_sorted_and_deduplicated`: fungibles of different
      classes in order. */
  lemma FromSortedAndDeduplicatedFungibleExamples()
    ensures FromSortedAndDeduplicated([MultiAsset(Here, Fungible(10)), MultiAsset(Parent, Fungible(10))]).Ok?
    ensures FromSortedAndDeduplicated([MultiAsset(Parent, Fungible(10)), MultiAsset(Here, Fungible(10))]).Err?
    ensures FromSortedAndDeduplicated([MultiAsset(Here, Fungible(10)), MultiAsset(Here, Fungible(10))]).Err?
  {
  }

  /** Cases from the same test with non-fungible entries. */
  lemma FromSortedAndDeduplicatedNonFungibleExamples()
    ensures var zero := Abstract(seq(32, _ => 0));
            && FromSortedAndDeduplicated([MultiAsset(Here, NonFungible(Undefined)), MultiAsset(Here, NonFungible(Undefined))]).Err?
            && FromSortedAndDeduplicated([MultiAsset(Here, NonFungible(Undefined)), MultiAsset(zero, NonFungible(Undefined))]).Ok?
            && FromSortedAndDeduplicated([MultiAsset(Here, Fungible(10)), MultiAsset(Here, NonFungible(Undefined))]).Ok?
            && FromSortedAndDeduplicated([MultiAsset(Here, NonFungible(Undefined)), MultiAsset(Here, Fungible(10))]).Err?
  {
    CmpAssetEqual(MultiAsset(Here, NonFungible(Undefined)), MultiAsset(Here, NonFungible(Undefined)));
  }

  /** Cases from the same test with byte-array instances of different widths. */
  lemma FromSortedAndDeduplicatedInstanceExamples()
    ensures var good := Array4([103, 111, 111, 100]);
            var notGood := Array8([110, 111, 116, 103, 111, 111, 100, 33]);
            && FromSortedAndDeduplicated([MultiAsset(Here, NonFungible(good)), MultiAsset(Here, NonFungible(notGood))]).Ok?
            && FromSortedAndDeduplicated([MultiAsset(Here, NonFungible(notGood)), MultiAsset(Here, NonFungible(good))]).Err?
  {
  }

  // ---------------------------------------------------------------------------
  // From<Vec<MultiAsset>>: sort, then merge neighbours

  /** The fold closure of `From<Vec<MultiAsset>>`: two fungible entries of one class merge
      into their saturating sum, two identical non-fungible entries into one; any other pair
      is not merged (`None`). */
  function MergeStep(a: MultiAsset, b: MultiAsset): (r: Option<MultiAsset>)
    ensures r.Some? <==> Clash(a, b)
    ensures r.Some? ==> r.value.id == a.id && r.value.fun.Fungible? == a.fun.Fungible?
    ensures r.Some? && a.fun.Fungible? ==>
              r.value.fun.amount == Min(a.fun.amount + b.fun.amount, U128_MAX)
    ensures r.Some? && a.fun.NonFungible? ==> r.value == a == b
  {
    match (a.fun, b.fun)
    case (Fungible(x), Fungible(y)) =>
      SaturatingAddU128IsMin(x, y);
      if a.id == b.id then Some(MultiAsset(a.id, Fungible(SaturatingAddU128(x, y)))) else None
    case (NonFungible(x), NonFungible(y)) =>
      if a.id == b.id && x == y then Some(MultiAsset(a.id, NonFungible(x))) else None
    case _ => None
  }

  /** The output of the fold, given the carried entry and the entries still to come. */
  function MergeRun(acc: MultiAsset, rest: seq<MultiAsset>): (r: seq<MultiAsset>)
    ensures 1 <= |r| <= |rest| + 1
    ensures r[0].id == acc.id && r[0].fun.Fungible? == acc.fun.Fungible?
    ensures acc.fun.NonFungible? ==> r[0] == acc
    decreases |rest|
  {
    if rest == [] then [acc]
    else
      match MergeStep(acc, rest[0])
      case Some(m) => MergeRun(m, rest[1..])
      case None => [acc] + MergeRun(rest[0], rest[1..])
  }

  /** What `From<Vec<MultiAsset>>` builds from `assets`. */
  function Canonicalize(assets: seq<MultiAsset>): seq<MultiAsset>
  {
    if assets == [] then []
    else
      var s := SortAssets(assets);
      MergeRun(s[0], s[1..])
  }

  /** `From<Vec<MultiAsset>>::from`: the sort followed by the fold. */
  method FromVec(assets: seq<MultiAsset>) returns (res: seq<MultiAsset>)
    ensures res == Canonicalize(assets)
  {
    res := [];
    if assets != [] {
      var sorted := SortAssets(assets);
      res := MergeFold(sorted);
    }
  }

  /** The fold of `From<Vec<MultiAsset>>` as a loop: the carried entry absorbs each entry it
      merges with, and is pushed to the output before any entry it does not. */
  method MergeFold(sorted: seq<MultiAsset>) returns (res: seq<MultiAsset>)
    requires sorted != []
    ensures res == MergeRun(sorted[0], sorted[1..])
  {
    res := [];
    var acc := sorted[0];
    var i := 1;
    while i < |sorted|
      invariant 1 <= i <= |sorted|
      invariant res + MergeRun(acc, sorted[i..]) == MergeRun(sorted[0], sorted[1..])
    {
      MergeRunUnfold(acc, sorted, i);
      match MergeStep(acc, sorted[i]) {
        case Some(m) =>
          acc := m;
        case None =>
          res := res + [acc];
          acc := sorted[i];
      }
      i := i + 1;
    }
    assert sorted[i..] == [];
    res := res + [acc];
  }

  /** One step of the fold, at position `i` of `s`. */
  lemma MergeRunUnfold(acc: MultiAsset, s: seq<MultiAsset>, i: nat)
    requires i < |s|
    ensures MergeStep(acc, s[i]).Some? ==> MergeRun(acc, s[i..]) == MergeRun(MergeStep(acc, s[i]).value, s[i + 1..])
    ensures MergeStep(acc, s[i]).None? ==> MergeRun(acc, s[i..]) == [acc] + MergeRun(s[i], s[i + 1..])
  {
    assert s[i..][0] == s[i] && s[i..][1..] == s[i + 1..];
  }

  /** Every entry still to come is at or above the carried one, or merges with it. */
  ghost predicate Ahead(acc: MultiAsset, rest: seq<MultiAsset>)
  {
    forall j :: 0 <= j < |rest| ==> Le(acc, rest[j]) || Clash(acc, rest[j])
  }

  lemma AheadAfterMerge(acc: MultiAsset, rest: seq<MultiAsset>, m: MultiAsset)
    requires rest != [] && Sorted(rest) && MergeStep(acc, rest[0]) == Some(m)
    ensures Ahead(m, rest[1..])
  {
    forall j | 0 <= j < |rest| - 1 ensures Le(m, rest[1..][j]) || Clash(m, rest[1..][j]) {
      var x := rest[j + 1];
      assert rest[1..][j] == x;
      assert Le(rest[0], x);
      if m.fun.Fungible? && x.fun.Fungible? {
        CmpAssetIdEqual(m.id, x.id);
      }
    }
  }

  /** An entry the fold emits is below, and does not clash with, the next output entry. */
  lemma EmitStep(acc: MultiAsset, b: MultiAsset, o: MultiAsset)
    requires Le(acc, b) && !Clash(acc, b)
    requires o.id == b.id && o.fun.Fungible? == b.fun.Fungible?
    requires b.fun.NonFungible? ==> o == b
    ensures Lt(acc, o) && !Clash(acc, o)
  {
    LeTotalOrder(acc, b, b);
    CmpAssetIdEqual(acc.id, b.id);
  }

  lemma {:induction false} MergeRunIncreasing(acc: MultiAsset, rest: seq<MultiAsset>)
    requires Sorted(rest) && Ahead(acc, rest)
    ensures Increasing(MergeRun(acc, rest))
    decreases |rest|
  {
    if rest != [] {
      SortedTail(rest);
      match MergeStep(acc, rest[0]) {
        case Some(m) =>
          AheadAfterMerge(acc, rest, m);
          MergeRunIncreasing(m, rest[1..]);
        case None =>
          assert Ahead(rest[0], rest[1..]) by {
            forall j | 0 <= j < |rest| - 1 ensures Le(rest[0], rest[1..][j]) {
              assert rest[1..][j] == rest[j + 1];
            }
          }
          MergeRunIncreasing(rest[0], rest[1..]);
          var t := MergeRun(rest[0], rest[1..]);
          EmitStep(acc, rest[0], t[0]);
          IncreasingCons(acc, t);
      }
    }
  }

  lemma SortedAhead(s: seq<MultiAsset>)
    requires Sorted(s) && s != []
    ensures Sorted(s[1..]) && Ahead(s[0], s[1..])
  {
    SortedTail(s);
    forall j | 0 <= j < |s| - 1 ensures Le(s[0], s[1..][j]) {
      assert s[1..][j] == s[j + 1];
    }
  }

  /** The result of `From<Vec<MultiAsset>>` is canonical: sorted, and accepted by
      `from_sorted_and_deduplicated`. */
  lemma CanonicalizeIsCanonical(assets: seq<MultiAsset>)
    ensures IsCanonical(Canonicalize(assets))
    ensures FromSortedAndDeduplicated(Canonicalize(assets)) == Ok(Canonicalize(assets))
    ensures ClashFree(Canonicalize(assets))
  {
    var c := Canonicalize(assets);
    if assets != [] {
      var s := SortAssets(assets);
      SortedAhead(s);
      MergeRunIncreasing(s[0], s[1..]);
    }
    IncreasingIsCanonical(c);
    IncreasingIsClashFree(c);
  }

  // ---------------------------------------------------------------------------
  // What the canonical form holds

  /** The fungible amount `a` contributes to asset class `id`. */
  function AmountOf(a: MultiAsset, id: AssetId): nat
  {
    if a.fun.Fungible? && a.id == id then a.fun.amount else 0
  }

  /** The total fungible amount of asset class `id` over the entries of `s`. */
  function FungibleTotal(s: seq<MultiAsset>, id: AssetId): nat
  {
    if s == [] then 0 else AmountOf(s[0], id) + FungibleTotal(s[1..], id)
  }

  lemma {:induction false} FungibleTotalAppend(s: seq<MultiAsset>, t: seq<MultiAsset>, id: AssetId)
    ensures FungibleTotal(s + t, id) == FungibleTotal(s, id) + FungibleTotal(t, id)
    decreases |s|
  {
    if s != [] {
      assert (s + t)[0] == s[0];
      assert (s + t)[1..] == s[1..] + t;
      FungibleTotalAppend(s[1..], t, id);
    } else {
      assert s + t == t;
    }
  }

  lemma FungibleTotalRemove(t: seq<MultiAsset>, k: nat, id: AssetId)
    requires k < |t|
    ensures FungibleTotal(t, id) == AmountOf(t[k], id) + FungibleTotal(t[..k] + t[k + 1..], id)
  {
    assert t == t[..k] + ([t[k]] + t[k + 1..]);
    FungibleTotalAppend(t[..k], [t[k]] + t[k + 1..], id);
    FungibleTotalAppend(t[..k], t[k + 1..], id);
    assert ([t[k]] + t[k + 1..])[1..] == t[k + 1..];
  }

  lemma MultisetRemove(t: seq<MultiAsset>, k: nat)
    requires k < |t|
    ensures multiset(t[..k] + t[k + 1..]) == multiset(t) - multiset{t[k]}
  {
    assert t == t[..k] + [t[k]] + t[k + 1..];
  }

  lemma {:induction false} FungibleTotalPermutation(s: seq<MultiAsset>, t: seq<MultiAsset>, id: AssetId)
    requires multiset(s) == multiset(t)
    ensures FungibleTotal(s, id) == FungibleTotal(t, id)
    decreases |s|
  {
    if s == [] {
      assert |t| == |multiset(t)| == 0;
    } else {
      assert s[0] in multiset(t);
      var k :| 0 <= k < |t| && t[k] == s[0];
      MultisetRemove(t, k);
      MultisetCons(s);
      FungibleTotalPermutation(s[1..], t[..k] + t[k + 1..], id);
      FungibleTotalRemove(t, k, id);
    }
  }

  lemma {:induction false} FungibleTotalZero(s: seq<MultiAsset>, id: AssetId)
    requires forall j :: 0 <= j < |s| ==> AmountOf(s[j], id) == 0
    ensures FungibleTotal(s, id) == 0
    decreases |s|
  {
    if s != [] {
      assert forall j :: 0 <= j < |s| - 1 ==> s[1..][j] == s[j + 1];
      FungibleTotalZero(s[1..], id);
    }
  }

  /** After an emitted fungible entry no later entry belongs to its class. */
  lemma NoLaterFungibleOfClass(acc: MultiAsset, rest: seq<MultiAsset>)
    requires rest != [] && Sorted(rest) && Ahead(acc, rest) && !Clash(acc, rest[0])
    requires acc.fun.Fungible?
    ensures FungibleTotal(rest, acc.id) == 0
  {
    forall j | 0 <= j < |rest| ensures AmountOf(rest[j], acc.id) == 0 {
      if rest[j].fun.Fungible? && rest[j].id == acc.id {
        assert Le(acc, rest[0]);
        assert Le(rest[0], rest[j]) by { if j > 0 { } else { LeTotalOrder(rest[0], rest[0], rest[0]); } }
        CmpAssetIdEqual(acc.id, rest[0].id);
        CmpAssetIdFlip(acc.id, rest[0].id);
        assert false;
      }
    }
    FungibleTotalZero(rest, acc.id);
  }

  /** After a merge step, the merged entry carries the amounts of both. */
  lemma {:induction false} MergedTotal(acc: MultiAsset, rest: seq<MultiAsset>, m: MultiAsset, r: seq<MultiAsset>, id: AssetId)
    requires rest != []
    requires AmountOf(m, id) == Min(AmountOf(acc, id) + AmountOf(rest[0], id), U128_MAX)
    requires FungibleTotal(r, id) == Min(AmountOf(m, id) + FungibleTotal(rest[1..], id), U128_MAX)
    ensures FungibleTotal(r, id) == Min(AmountOf(acc, id) + FungibleTotal(rest, id), U128_MAX)
  {
    FungibleTotalCons(rest, id);
    SaturateTwice(FungibleTotal(r, id), AmountOf(m, id), AmountOf(acc, id), AmountOf(rest[0], id),
                  FungibleTotal(rest[1..], id), FungibleTotal(rest, id));
  }

  lemma {:induction false} FungibleTotalCons(s: seq<MultiAsset>, id: AssetId)
    requires s != []
    ensures FungibleTotal(s, id) == AmountOf(s[0], id) + FungibleTotal(s[1..], id)
  {
  }

  lemma MergeStepAmount(a: MultiAsset, b: MultiAsset, m: MultiAsset, id: AssetId)
    requires MergeStep(a, b) == Some(m)
    ensures AmountOf(m, id) == Min(AmountOf(a, id) + AmountOf(b, id), U128_MAX)
  {
  }

  /** Saturating in two steps is saturating once: `t` saturates `a + b` and then `c`,
      where `s` is `b + c`. */
  lemma SaturateTwice(t: nat, ab: nat, a: nat, b: nat, c: nat, s: nat)
    requires ab == Min(a + b, U128_MAX) && t == Min(ab + c, U128_MAX) && s == b + c
    ensures t == Min(a + s, U128_MAX)
  {
  }

  /** An emitted entry keeps its own amount, when the entries after it hold none of its
      class. */
  lemma EmittedTotal(acc: MultiAsset, rest: seq<MultiAsset>, t: seq<MultiAsset>, id: AssetId)
    requires AmountOf(acc, id) != 0 ==> FungibleTotal(rest, id) == 0
    requires FungibleTotal(t, id) == Min(FungibleTotal(rest, id), U128_MAX)
    ensures FungibleTotal([acc] + t, id) == Min(AmountOf(acc, id) + FungibleTotal(rest, id), U128_MAX)
  {
    assert ([acc] + t)[0] == acc && ([acc] + t)[1..] == t;
    assert FungibleTotal([acc] + t, id) == AmountOf(acc, id) + FungibleTotal(t, id);
  }

  lemma {:induction false} MergeRunTotal(acc: MultiAsset, rest: seq<MultiAsset>, id: AssetId)
    requires Sorted(rest) && Ahead(acc, rest)
    ensures FungibleTotal(MergeRun(acc, rest), id) == Min(AmountOf(acc, id) + FungibleTotal(rest, id), U128_MAX)
    decreases |rest|
  {
    if rest != [] {
      SortedTail(rest);
      match MergeStep(acc, rest[0]) {
        case Some(m) =>
          AheadAfterMerge(acc, rest, m);
          MergeRunTotal(m, rest[1..], id);
          MergeStepAmount(acc, rest[0], m, id);
          MergedTotal(acc, rest, m, MergeRun(m, rest[1..]), id);
        case None =>
          SortedAhead(rest);
          MergeRunTotal(rest[0], rest[1..], id);
          assert FungibleTotal(rest, id) == AmountOf(rest[0], id) + FungibleTotal(rest[1..], id);
          if AmountOf(acc, id) != 0 {
            NoLaterFungibleOfClass(acc, rest);
          }
          EmittedTotal(acc, rest, MergeRun(rest[0], rest[1..]), id);
      }
    }
  }

  /** `From<Vec<MultiAsset>>` conserves every fungible class's total, up to saturation at
      the largest `u128`. */
  lemma CanonicalizeFungibleTotal(assets: seq<MultiAsset>, id: AssetId)
    ensures FungibleTotal(Canonicalize(assets), id) == Min(FungibleTotal(assets, id), U128_MAX)
  {
    if assets != [] {
      var s := SortAssets(assets);
      assert s != [];
      SortedMergeTotal(s, assets, id);
    }
  }

  lemma SortedMergeTotal(s: seq<MultiAsset>, assets: seq<MultiAsset>, id: AssetId)
    requires s != [] && Sorted(s) && multiset(s) == multiset(assets)
    ensures FungibleTotal(MergeRun(s[0], s[1..]), id) == Min(FungibleTotal(assets, id), U128_MAX)
  {
    SortedAhead(s);
    MergeRunTotal(s[0], s[1..], id);
    assert FungibleTotal(s, id) == AmountOf(s[0], id) + FungibleTotal(s[1..], id);
    FungibleTotalPermutation(s, assets, id);
  }

  lemma {:induction false} MergeRunNonFungibles(acc: MultiAsset, rest: seq<MultiAsset>, x: MultiAsset)
    requires x.fun.NonFungible?
    ensures x in MergeRun(acc, rest) <==> x == acc || x in rest
    decreases |rest|
  {
    if rest != [] {
      assert rest == [rest[0]] + rest[1..];
      match MergeStep(acc, rest[0]) {
        case Some(m) =>
          MergeRunNonFungibles(m, rest[1..], x);
        case None =>
          MergeRunNonFungibles(rest[0], rest[1..], x);
      }
    }
  }

  /** `From<Vec<MultiAsset>>` keeps exactly the non-fungible entries of its input, each once. */
  lemma CanonicalizeNonFungibles(assets: seq<MultiAsset>, x: MultiAsset)
    requires x.fun.NonFungible?
    ensures x in Canonicalize(assets) <==> x in assets
  {
    if assets != [] {
      var s := SortAssets(assets);
      MergeRunNonFungibles(s[0], s[1..], x);
      assert s == [s[0]] + s[1..];
      assert x in s <==> x in multiset(s);
    }
  }

  /** No fungible entry has amount zero. */
  ghost predicate NoZeroAmounts(s: seq<MultiAsset>)
  {
    forall x :: x in s && x.fun.Fungible? ==> x.fun.amount != 0
  }

  lemma {:induction false} MergeRunNoZeroAmounts(acc: MultiAsset, rest: seq<MultiAsset>)
    requires NoZeroAmounts([acc] + rest)
    ensures NoZeroAmounts(MergeRun(acc, rest))
    decreases |rest|
  {
    if rest != [] {
      assert rest == [rest[0]] + rest[1..];
      assert NoZeroAmounts(rest);
      match MergeStep(acc, rest[0]) {
        case Some(m) =>
          MergeRunNoZeroAmounts(m, rest[1..]);
        case None =>
          MergeRunNoZeroAmounts(rest[0], rest[1..]);
      }
    }
  }

  /** Merging never produces a zero amount out of non-zero ones. */
  lemma CanonicalizeNoZeroAmounts(assets: seq<MultiAsset>)
    requires NoZeroAmounts(assets)
    ensures NoZeroAmounts(Canonicalize(assets))
  {
    if assets != [] {
      var s := SortAssets(assets);
      assert forall x :: x in s <==> x in multiset(assets);
      assert s == [s[0]] + s[1..];
      MergeRunNoZeroAmounts(s[0], s[1..]);
    }
  }

  lemma {:induction false} MergeRunOfIncreasing(acc: MultiAsset, rest: seq<MultiAsset>)
    requires Increasing([acc] + rest)
    ensures MergeRun(acc, rest) == [acc] + rest
    decreases |rest|
  {
    if rest != [] {
      var t := [acc] + rest;
      assert t[0] == acc && t[1] == rest[0];
      assert rest == [rest[0]] + rest[1..];
      assert Increasing(rest) by {
        forall i | 0 < i < |rest| ensures Lt(rest[i - 1], rest[i]) && !Clash(rest[i - 1], rest[i]) {
          assert t[i] == rest[i - 1] && t[i + 1] == rest[i];
        }
      }
      MergeRunOfIncreasing(rest[0], rest[1..]);
    }
  }

  /** A canonical list is its own canonical form, so `From<Vec<MultiAsset>>` is idempotent. */
  lemma CanonicalizeIdempotent(assets: seq<MultiAsset>)
    ensures IsCanonical(assets) ==> Canonicalize(assets) == assets
    ensures Canonicalize(Canonicalize(assets)) == Canonicalize(assets)
  {
    forall s: seq<MultiAsset> | IsCanonical(s) ensures Canonicalize(s) == s {
      if s != [] {
        SortSortedIsIdentity(s);
        IncreasingIsCanonical(s);
        assert s == [s[0]] + s[1..];
        MergeRunOfIncreasing(s[0], s[1..]);
      }
    }
    CanonicalizeIsCanonical(assets);
  }

  /** `MultiAssets::contains`: some entry is a super-set of `inner`. */
  function AnyContains(s: seq<MultiAsset>, inner: MultiAsset): (r: bool)
    ensures r <==> exists i :: 0 <= i < |s| && Contains(s[i], inner)
  {
    if s == [] then false
    else
      assert forall i :: 0 < i < |s| ==> s[i] == s[1..][i - 1];
      Contains(s[0], inner) || AnyContains(s[1..], inner)
  }

  lemma ContainsViaMember(s: seq<MultiAsset>, e: MultiAsset, x: MultiAsset)
    requires e in s && Contains(e, x)
    ensures AnyContains(s, x)
  {
    var i :| 0 <= i < |s| && s[i] == e;
  }

  lemma {:induction false} MergeRunCovers(acc: MultiAsset, rest: seq<MultiAsset>, x: MultiAsset)
    requires x == acc || x in rest
    ensures AnyContains(MergeRun(acc, rest), x)
    decreases |rest|
  {
    if rest == [] {
      ContainsViaMember([acc], acc, x);
    } else {
      assert rest == [rest[0]] + rest[1..];
      match MergeStep(acc, rest[0]) {
        case Some(m) =>
          if x == acc || x == rest[0] {
            MergeRunCovers(m, rest[1..], m);
            var r := MergeRun(m, rest[1..]);
            var i :| 0 <= i < |r| && Contains(r[i], m);
            ContainsIsPartialOrder(r[i], m, x);
          } else {
            MergeRunCovers(m, rest[1..], x);
          }
        case None =>
          var r := MergeRun(rest[0], rest[1..]);
          if x == acc {
            ContainsViaMember([acc] + r, acc, x);
          } else {
            MergeRunCovers(rest[0], rest[1..], x);
            var i :| 0 <= i < |r| && Contains(r[i], x);
            assert ([acc] + r)[i + 1] == r[i];
          }
      }
    }
  }

  /** Every entry of the input is contained in the canonical form. */
  lemma CanonicalizeCovers(assets: seq<MultiAsset>, x: MultiAsset)
    requires x in assets
    ensures AnyContains(Canonicalize(assets), x)
  {
    var s := SortAssets(assets);
    assert x in multiset(s);
    assert s == [s[0]] + s[1..];
    MergeRunCovers(s[0], s[1..], x);
  }

  /** From the unit tests: two fungible entries of one class merge into their sum. */
  lemma CanonicalizeMergesAmounts()
    ensures Canonicalize([MultiAsset(Here, Fungible(100)), MultiAsset(Here, Fungible(10))])
            == [MultiAsset(Here, Fungible(110))]
  {
    var a := [MultiAsset(Here, Fungible(100)), MultiAsset(Here, Fungible(10))];
    assert Insert(a[1], []) == [a[1]];
    assert !Le(a[0], a[1]);
    assert Insert(a[0], [a[1]]) == [a[1]] + Insert(a[0], []);
    assert SortAssets(a) == [a[1], a[0]];
    assert MergeRun(a[1], [a[0]]) == MergeRun(MultiAsset(Here, Fungible(110)), []);
  }

  /** At the top of the range the merged amount saturates. */
  lemma CanonicalizeSaturates()
    ensures Canonicalize([MultiAsset(Here, Fungible(U128_MAX)), MultiAsset(Here, Fungible(5))])
            == [MultiAsset(Here, Fungible(U128_MAX))]
  {
    var a := [MultiAsset(Here, Fungible(U128_MAX)), MultiAsset(Here, Fungible(5))];
    assert Insert(a[1], []) == [a[1]];
    assert !Le(a[0], a[1]);
    assert Insert(a[0], [a[1]]) == [a[1]] + Insert(a[0], []);
    assert SortAssets(a) == [a[1], a[0]];
    assert MergeRun(a[1], [a[0]]) == MergeRun(MultiAsset(Here, Fungible(U128_MAX)), []);
  }

  /** Two identical non-fungible entries collapse into one. */
  lemma CanonicalizeCollapsesInstances()
    ensures Canonicalize([MultiAsset(Here, NonFungible(Index(1))), MultiAsset(Here, NonFungible(Index(1)))])
            == [MultiAsset(Here, NonFungible(Index(1)))]
  {
    var a := [MultiAsset(Here, NonFungible(Index(1))), MultiAsset(Here, NonFungible(Index(1)))];
    LeTotalOrder(a[0], a[0], a[0]);
    assert Insert(a[1], []) == [a[1]];
    assert Insert(a[0], [a[1]]) == [a[0], a[1]];
    assert SortAssets(a) == a;
    assert MergeRun(a[0], [a[1]]) == MergeRun(a[0], []);
  }

  // ---------------------------------------------------------------------------
  // Decoding

  /** An entry as decoded from the wire, before the zero-amount check. */
  datatype UncheckedAsset = UncheckedAsset(id: AssetId, fun: UncheckedFungibility)

  /** The element-wise decoding of the vector: the first zero amount is the error. */
  function DecodeEntries(raw: seq<UncheckedAsset>): (r: Result<seq<MultiAsset>, DecodeError>)
    ensures r.Ok? <==> forall i :: 0 <= i < |raw| ==> DecodeFungibility(raw[i].fun).Ok?
    ensures r.Ok? ==> |r.value| == |raw|
                      && forall i :: 0 <= i < |raw| ==>
                           r.value[i] == MultiAsset(raw[i].id, DecodeFungibility(raw[i].fun).value)
    ensures r.Err? ==> r.error == ZeroFungibleAmount
  {
    if raw == [] then Ok([])
    else
      assert forall i :: 0 < i < |raw| ==> raw[i] == raw[1..][i - 1];
      match DecodeFungibility(raw[0].fun)
      case Err(e) => Err(e)
      case Ok(f) =>
        match DecodeEntries(raw[1..])
        case Err(e) => Err(e)
        case Ok(rest) => Ok([MultiAsset(raw[0].id, f)] + rest)
  }

  /** `Decode for MultiAssets`: a vector bounded by `MAX_ITEMS_IN_MULTIASSETS` whose
      entries must pass the strict check of `from_sorted_and_deduplicated`. */
  function DecodeMultiAssets(raw: seq<UncheckedAsset>): (r: Result<seq<MultiAsset>, DecodeError>)
    ensures |raw| > MAX_ITEMS_IN_MULTIASSETS ==> r == Err(TooManyItems)
    ensures r.Ok? ==> |r.value| <= MAX_ITEMS_IN_MULTIASSETS && PairwiseStrict(r.value)
                      && NoZeroAmounts(r.value) && |r.value| == |raw|
  {
    if |raw| > MAX_ITEMS_IN_MULTIASSETS then Err(TooManyItems)
    else
      match DecodeEntries(raw)
      case Err(e) => Err(e)
      case Ok(items) =>
        match FromSortedAndDeduplicated(items)
        case Ok(v) => Ok(v)
        case Err(_) => Err(OutOfOrder)
  }

  /** The encoded form of a list of assets. */
  function EncodeMultiAssets(s: seq<MultiAsset>): (raw: seq<UncheckedAsset>)
    ensures |raw| == |s|
  {
    seq(|s|, i requires 0 <= i < |s| => UncheckedAsset(s[i].id, EncodeFungibility(s[i].fun)))
  }

  /** Decoding inverts encoding on exactly the lists decoding admits. */
  lemma DecodeEncodeRoundTrip(s: seq<MultiAsset>)
    ensures DecodeMultiAssets(EncodeMultiAssets(s)).Ok?
            <==> |s| <= MAX_ITEMS_IN_MULTIASSETS && PairwiseStrict(s) && NoZeroAmounts(s)
    ensures DecodeMultiAssets(EncodeMultiAssets(s)).Ok? ==> DecodeMultiAssets(EncodeMultiAssets(s)).value == s
  {
    var raw := EncodeMultiAssets(s);
    forall i | 0 <= i < |s| ensures DecodeFungibility(raw[i].fun).Ok?
                                    <==> !(s[i].fun.Fungible? && s[i].fun.amount == 0) {
      FungibilityDecodeRoundTrip(s[i].fun);
    }
    if NoZeroAmounts(s) {
      forall i | 0 <= i < |s|
        ensures DecodeFungibility(raw[i].fun) == Ok(s[i].fun)
      {
        assert s[i] in s;
        FungibilityDecodeRoundTrip(s[i].fun);
      }
      var d := DecodeEntries(raw);
      assert d.Ok? && d.value == s;
    }
    if DecodeEntries(raw).Ok? {
      forall x | x in s && x.fun.Fungible? ensures x.fun.amount != 0 {
        var i :| 0 <= i < |s| && s[i] == x;
        FungibilityDecodeRoundTrip(s[i].fun);
      }
    }
  }

  /** What decoding accepts it re-encodes to the same input. */
  lemma DecodeIsInjective(raw: seq<UncheckedAsset>)
    requires DecodeMultiAssets(raw).Ok?
    ensures EncodeMultiAssets(DecodeMultiAssets(raw).value) == raw
  {
    var v := DecodeMultiAssets(raw).value;
    forall i | 0 <= i < |raw| ensures EncodeMultiAssets(v)[i] == raw[i] {
      assert DecodeFungibility(raw[i].fun).Ok?;
    }
  }

  lemma ClashFreeFirstPair(c: seq<MultiAsset>)
    requires ClashFree(c)
    ensures |c| > 1 ==> !Clash(c[0], c[1])
  {
  }

  lemma FungibleTotalOfCopies(n: nat, a: MultiAsset)
    requires a.fun.Fungible?
    ensures FungibleTotal(seq(n, _ => a), a.id) == n * a.fun.amount
  {
    if n > 0 {
      assert seq(n, _ => a)[1..] == seq(n - 1, _ => a);
      FungibleTotalOfCopies(n - 1, a);
    }
  }

  /** From the unit test of the decoding limit: more copies of one asset than the limit
      allows still decode, because the canonical form merges them into one entry. */
  lemma ManyCopiesDecode()
    ensures var a := MultiAsset(Concrete(MultiLocation(0, [1])), Fungible(1));
            var c := Canonicalize(seq(MAX_ITEMS_IN_MULTIASSETS + 1, _ => a));
            && c == [MultiAsset(a.id, Fungible(MAX_ITEMS_IN_MULTIASSETS + 1))]
            && DecodeMultiAssets(EncodeMultiAssets(c)) == Ok(c)
  {
    var a := MultiAsset(Concrete(MultiLocation(0, [1])), Fungible(1));
    var lots := seq(MAX_ITEMS_IN_MULTIASSETS + 1, _ => a);
    var c := Canonicalize(lots);
    CanonicalizeIsCanonical(lots);
    assert NoZeroAmounts(lots);
    CanonicalizeNoZeroAmounts(lots);
    forall i | 0 <= i < |c| ensures c[i].fun.Fungible? && c[i].id == a.id {
      if c[i].fun.NonFungible? {
        CanonicalizeNonFungibles(lots, c[i]);
        assert false;
      }
      if c[i].id != a.id {
        assert c[i] in c;
        FungibleTotalRemove(c, i, c[i].id);
        CanonicalizeFungibleTotal(lots, c[i].id);
        FungibleTotalZero(lots, c[i].id);
        assert false;
      }
    }
    ClashFreeFirstPair(c);
    assert |c| == 1;
    FungibleTotalOfCopies(MAX_ITEMS_IN_MULTIASSETS + 1, a);
    CanonicalizeFungibleTotal(lots, a.id);
    assert c[1..] == [];
    DecodeEncodeRoundTrip(c);
  }

  // ---------------------------------------------------------------------------
  // push

  /** The first entry `push` folds `a` into (an entry clashing with it), or `|s|`. */
  function FirstClash(s: seq<MultiAsset>, a: MultiAsset): (k: nat)
    ensures k <= |s|
    ensures k < |s| ==> Clash(s[k], a)
    ensures forall j :: 0 <= j < k ==> !Clash(s[j], a)
    decreases |s|
  {
    if s == [] then 0
    else if Clash(s[0], a) then 0
    else
      assert forall j :: 0 < j < |s| ==> s[j] == s[1..][j - 1];
      1 + FirstClash(s[1..], a)
  }

  /** The list after `MultiAssets::push(a)`: merged into the first clashing entry (a saturating
      sum for a fungible, nothing for an instance already present), or appended and re-sorted. */
  function PushSpec(s: seq<MultiAsset>, a: MultiAsset): seq<MultiAsset>
  {
    var k := FirstClash(s, a);
    if k == |s| then SortAssets(s + [a]) else s[k := MergeStep(s[k], a).value]
  }

  lemma {:induction false} InsertIncreasing(a: MultiAsset, s: seq<MultiAsset>)
    requires Increasing(s)
    requires forall j :: 0 <= j < |s| ==> !Clash(s[j], a)
    ensures Increasing(Insert(a, s))
    ensures Insert(a, s) != [] && (Insert(a, s)[0] == a || (s != [] && Insert(a, s)[0] == s[0]))
    decreases |s|
  {
    if s != [] {
      LeTotalOrder(a, s[0], s[0]);
      if Le(a, s[0]) {
        IncreasingCons(a, s);
      } else {
        var t := s[1..];
        assert Increasing(t) by {
          forall i | 0 < i < |t| ensures Lt(t[i - 1], t[i]) && !Clash(t[i - 1], t[i]) {
            assert t[i - 1] == s[i] && t[i] == s[i + 1];
          }
        }
        assert forall j :: 0 <= j < |t| ==> t[j] == s[j + 1];
        InsertIncreasing(a, t);
        var r := Insert(a, t);
        if r[0] != a {
          assert Lt(s[0], s[1]) && !Clash(s[0], s[1]);
        } else {
          LeTotalOrder(s[0], a, a);
        }
        IncreasingCons(s[0], r);
      }
    }
  }

  /** Raising the amount of a fungible entry keeps an increasing list increasing. */
  lemma ReplaceAmountIncreasing(s: seq<MultiAsset>, k: nat, m: MultiAsset)
    requires Increasing(s) && k < |s|
    requires s[k].fun.Fungible? && m.fun.Fungible? && m.id == s[k].id
    ensures Increasing(s[k := m])
  {
    var t := s[k := m];
    if k > 0 {
      CmpAssetIdEqual(s[k - 1].id, s[k].id);
    }
    if k + 1 < |s| {
      CmpAssetIdEqual(s[k].id, s[k + 1].id);
    }
    forall i | 0 < i < |t| ensures Lt(t[i - 1], t[i]) && !Clash(t[i - 1], t[i]) {
      assert Lt(s[i - 1], s[i]) && !Clash(s[i - 1], s[i]);
    }
  }

  /** `push` keeps a canonical list canonical. */
  lemma PushKeepsCanonical(s: seq<MultiAsset>, a: MultiAsset)
    requires IsCanonical(s)
    ensures IsCanonical(PushSpec(s, a))
  {
    IncreasingIsCanonical(s);
    var k := FirstClash(s, a);
    if k == |s| {
      SortAppendIsInsert(s, a);
      InsertIncreasing(a, s);
      IncreasingIsCanonical(Insert(a, s));
    } else if a.fun.Fungible? {
      ReplaceAmountIncreasing(s, k, MergeStep(s[k], a).value);
      IncreasingIsCanonical(PushSpec(s, a));
    } else {
      assert PushSpec(s, a) == s;
    }
  }

  /** After `push(a)` the list contains `a`, and everything it contained before. */
  lemma PushContains(s: seq<MultiAsset>, a: MultiAsset, x: MultiAsset)
    ensures AnyContains(PushSpec(s, a), a)
    ensures AnyContains(s, x) ==> AnyContains(PushSpec(s, a), x)
  {
    var k := FirstClash(s, a);
    var r := PushSpec(s, a);
    if k == |s| {
      assert multiset(r) == multiset(s + [a]);
      assert a in multiset(r);
      ContainsViaMember(r, a, a);
      if AnyContains(s, x) {
        var i :| 0 <= i < |s| && Contains(s[i], x);
        assert (s + [a])[i] == s[i];
        assert s[i] in multiset(r);
        ContainsViaMember(r, s[i], x);
      }
    } else {
      assert r[k] == MergeStep(s[k], a).value;
      ContainsViaMember(r, r[k], a);
      if AnyContains(s, x) {
        var i :| 0 <= i < |s| && Contains(s[i], x);
        if i == k {
          ContainsIsPartialOrder(r[k], s[k], x);
        }
        assert Contains(r[i], x);
      }
    }
  }

  /** `push` of a clashing asset keeps the length; any other asset adds one entry. */
  lemma PushLength(s: seq<MultiAsset>, a: MultiAsset)
    ensures (exists j :: 0 <= j < |s| && Clash(s[j], a)) ==> |PushSpec(s, a)| == |s|
    ensures (forall j :: 0 <= j < |s| ==> !Clash(s[j], a)) ==> |PushSpec(s, a)| == |s| + 1
    ensures a.fun.NonFungible? && a in s ==> PushSpec(s, a) == s
  {
    if a.fun.NonFungible? && a in s {
      var j :| 0 <= j < |s| && s[j] == a;
      assert Clash(s[j], a);
    }
  }

  lemma ClashFreeClassTotal(s: seq<MultiAsset>, k: nat)
    requires ClashFree(s) && k < |s| && s[k].fun.Fungible?
    ensures FungibleTotal(s, s[k].id) == s[k].fun.amount
  {
    var u := s[..k] + s[k + 1..];
    forall j | 0 <= j < |u| ensures AmountOf(u[j], s[k].id) == 0 {
      if j < k {
        assert u[j] == s[j] && !Clash(s[j], s[k]);
      } else {
        assert u[j] == s[j + 1] && !Clash(s[k], s[j + 1]);
      }
    }
    FungibleTotalZero(u, s[k].id);
    FungibleTotalRemove(s, k, s[k].id);
  }

  /** On a canonical list, pushing a fungible amount adds it to its class's total,
      saturating, and leaves every other class's total alone. */
  lemma PushFungibleTotal(s: seq<MultiAsset>, a: MultiAsset, id: AssetId)
    requires IsCanonical(s) && a.fun.Fungible?
    ensures id == a.id ==> FungibleTotal(PushSpec(s, a), id) == Min(FungibleTotal(s, id) + a.fun.amount, U128_MAX)
    ensures id != a.id ==> FungibleTotal(PushSpec(s, a), id) == FungibleTotal(s, id)
  {
    IncreasingIsCanonical(s);
    IncreasingIsClashFree(s);
    var k := FirstClash(s, a);
    if k == |s| {
      PushAppendTotal(s, a, id);
    } else {
      PushMergeTotal(s, a, k, id);
    }
  }

  /** Pushing a fungible amount of a class the list does not hold appends it. */
  lemma PushAppendTotal(s: seq<MultiAsset>, a: MultiAsset, id: AssetId)
    requires a.fun.Fungible? && FirstClash(s, a) == |s|
    ensures FungibleTotal(PushSpec(s, a), id) == FungibleTotal(s, id) + AmountOf(a, id)
    ensures id == a.id ==> FungibleTotal(s, id) == 0
  {
    var r := PushSpec(s, a);
    assert r == SortAssets(s + [a]);
    FungibleTotalPermutation(r, s + [a], id);
    FungibleTotalAppend(s, [a], id);
    assert [a][1..] == [];
    if id == a.id {
      forall j | 0 <= j < |s| ensures AmountOf(s[j], id) == 0 {
        assert !Clash(s[j], a);
      }
      FungibleTotalZero(s, id);
    }
  }

  /** Pushing a fungible amount onto the entry of its class adds to that entry only. */
  lemma PushMergeTotal(s: seq<MultiAsset>, a: MultiAsset, k: nat, id: AssetId)
    requires ClashFree(s) && a.fun.Fungible? && k == FirstClash(s, a) && k < |s|
    ensures id == a.id ==> FungibleTotal(PushSpec(s, a), id) == Min(FungibleTotal(s, id) + a.fun.amount, U128_MAX)
    ensures id != a.id ==> FungibleTotal(PushSpec(s, a), id) == FungibleTotal(s, id)
  {
    var r := PushSpec(s, a);
    assert r == s[k := MergeStep(s[k], a).value];
    FungibleTotalRemove(s, k, id);
    FungibleTotalRemove(r, k, id);
    assert r[..k] + r[k + 1..] == s[..k] + s[k + 1..];
    if id == a.id {
      ClashFreeClassTotal(s, k);
    }
  }

  // ---------------------------------------------------------------------------
  // reanchor / prepend_with

  /** One entry after its rewrite attempt: rewritten, or unchanged when the rewrite fails. */
  function RewriteOrKeep(a: MultiAsset, f: LocationRewrite): (r: MultiAsset)
    ensures r.fun == a.fun
    ensures RewriteAsset(a, f).Some? ==> r == RewriteAsset(a, f).value
    ensures RewriteAsset(a, f).None? ==> r == a
  {
    match RewriteAsset(a, f)
    case Some(b) => b
    case None => a
  }

  /** The entries of `s`, each after its rewrite attempt. */
  function RewriteEach(s: seq<MultiAsset>, f: LocationRewrite): (r: seq<MultiAsset>)
    ensures |r| == |s|
  {
    seq(|s|, i requires 0 <= i < |s| => RewriteOrKeep(s[i], f))
  }

  /** The index of the first entry whose rewrite fails, or `|s|`. */
  function FirstRewriteFailure(s: seq<MultiAsset>, f: LocationRewrite): (k: nat)
    ensures k <= |s|
    ensures k < |s| ==> RewriteAsset(s[k], f).None?
    ensures forall j :: 0 <= j < k ==> RewriteAsset(s[j], f).Some?
    decreases |s|
  {
    if s == [] then 0
    else if RewriteAsset(s[0], f).None? then 0
    else
      assert forall j :: 0 < j < |s| ==> s[j] == s[1..][j - 1];
      1 + FirstRewriteFailure(s[1..], f)
  }

  /** The first failure is at `k` when every entry before `k` succeeds and the entry at `k`
      (if any) fails. */
  lemma {:induction false} FirstRewriteFailureAt(s: seq<MultiAsset>, f: LocationRewrite, k: nat)
    requires k <= |s|
    requires forall j :: 0 <= j < k ==> RewriteAsset(s[j], f).Some?
    requires k < |s| ==> RewriteAsset(s[k], f).None?
    ensures FirstRewriteFailure(s, f) == k
    decreases |s|
  {
    if s != [] && k > 0 {
      assert RewriteAsset(s[0], f).Some?;
      forall j | 0 <= j < k - 1 ensures RewriteAsset(s[1..][j], f).Some? {
        assert s[1..][j] == s[j + 1];
      }
      if k < |s| {
        assert s[1..][k - 1] == s[k];
      }
      FirstRewriteFailureAt(s[1..], f, k - 1);
    }
  }

  /** The outcome of the rewrite, given the index of the first failure. */
  lemma RewriteListAt(s: seq<MultiAsset>, f: LocationRewrite, k: nat)
    requires k <= |s|
    requires forall j :: 0 <= j < k ==> RewriteAsset(s[j], f).Some?
    requires k < |s| ==> RewriteAsset(s[k], f).None?
    ensures k == |s| ==> RewriteList(s, f) == (SortAssets(RewriteEach(s, f)), true)
    ensures k < |s| ==> RewriteList(s, f) == (RewriteEach(s[..k], f) + s[k..], false)
  {
    FirstRewriteFailureAt(s, f, k);
  }

  /** One step of the in-place walk: the entry at `i` takes its rewritten value. */
  lemma RewriteEachStep(s: seq<MultiAsset>, f: LocationRewrite, i: nat, b: MultiAsset)
    requires i < |s| && RewriteAsset(s[i], f) == Some(b)
    ensures (RewriteEach(s[..i], f) + s[i..])[i := b] == RewriteEach(s[..i + 1], f) + s[i + 1..]
  {
    var lhs := (RewriteEach(s[..i], f) + s[i..])[i := b];
    var rhs := RewriteEach(s[..i + 1], f) + s[i + 1..];
    assert |lhs| == |rhs|;
    forall j | 0 <= j < |lhs| ensures lhs[j] == rhs[j] {
      if j < i {
        assert s[..i][j] == s[j] && s[..i + 1][j] == s[j];
      } else if j > i {
        assert s[i..][j - i] == s[j] && s[i + 1..][j - i - 1] == s[j];
      }
    }
  }

  /** The list after `MultiAssets::reanchor` / `prepend_with`, and whether it succeeded: the
      entries are rewritten in order; the first failure stops the walk, leaving the entries
      before it rewritten, the rest as they were and the list unsorted; on success the list
      is re-sorted. */
  function RewriteList(s: seq<MultiAsset>, f: LocationRewrite): (seq<MultiAsset>, bool)
  {
    var k := FirstRewriteFailure(s, f);
    if k == |s| then (SortAssets(RewriteEach(s, f)), true)
    else (RewriteEach(s[..k], f) + s[k..], false)
  }

  /** The rewrite succeeds exactly when every entry's does; then the result is sorted and
      holds the rewritten entries, and otherwise it is the list with a rewritten prefix. */
  lemma RewriteListOutcome(s: seq<MultiAsset>, f: LocationRewrite)
    ensures RewriteList(s, f).1 <==> forall i :: 0 <= i < |s| ==> RewriteAsset(s[i], f).Some?
    ensures RewriteList(s, f).1 ==>
              Sorted(RewriteList(s, f).0)
              && multiset(RewriteList(s, f).0) == multiset(RewriteEach(s, f))
    ensures !RewriteList(s, f).1 ==>
              var k := FirstRewriteFailure(s, f);
              && |RewriteList(s, f).0| == |s|
              && RewriteList(s, f).0[k..] == s[k..]
              && RewriteList(s, f).0[..k] == RewriteEach(s[..k], f)
              && forall i :: 0 <= i < |s| ==> RewriteList(s, f).0[i].fun == s[i].fun
  {
    var k := FirstRewriteFailure(s, f);
    if k < |s| {
      var r := RewriteList(s, f).0;
      assert r[..k] == RewriteEach(s[..k], f);
      assert r[k..] == s[k..];
      forall i | 0 <= i < |s| ensures r[i].fun == s[i].fun {
        if i < k {
          assert r[i] == RewriteOrKeep(s[..k][i], f);
        } else {
          assert r[i] == s[k..][i - k];
        }
      }
    }
  }

  /** The rewrite maps distinct locations to distinct ones where it succeeds. */
  ghost predicate InjectiveRewrite(f: LocationRewrite)
  {
    forall l1, l2 :: f(l1).Some? && f(l1) == f(l2) ==> l1 == l2
  }

  lemma {:induction false} SortIncreasing(t: seq<MultiAsset>)
    requires ClashFree(t)
    ensures Increasing(SortAssets(t))
    decreases |t|
  {
    if t != [] {
      var u := t[1..];
      assert ClashFree(u) by {
        forall i, j | 0 <= i < j < |u| ensures !Clash(u[i], u[j]) {
          assert u[i] == t[i + 1] && u[j] == t[j + 1];
        }
      }
      SortIncreasing(u);
      var v := SortAssets(u);
      forall j | 0 <= j < |v| ensures !Clash(v[j], t[0]) {
        assert v[j] in multiset(u);
        var i :| 0 <= i < |u| && u[i] == v[j];
        assert !Clash(t[0], t[i + 1]);
      }
      InsertIncreasing(t[0], v);
    }
  }

  /** A successful injective rewrite keeps a canonical list canonical: the re-sort restores
      the order, and no two entries come to clash. */
  lemma RewriteKeepsCanonical(s: seq<MultiAsset>, f: LocationRewrite)
    requires IsCanonical(s) && InjectiveRewrite(f) && RewriteList(s, f).1
    ensures IsCanonical(RewriteList(s, f).0)
  {
    IncreasingIsCanonical(s);
    IncreasingIsClashFree(s);
    var t := RewriteEach(s, f);
    forall i, j | 0 <= i < j < |t| ensures !Clash(t[i], t[j]) {
      assert !Clash(s[i], s[j]);
      assert t[i] == RewriteOrKeep(s[i], f) && t[j] == RewriteOrKeep(s[j], f);
      if t[i].id == t[j].id {
        assert s[i].id == s[j].id;
      }
    }
    SortIncreasing(t);
    IncreasingIsCanonical(SortAssets(t));
  }

  // ---------------------------------------------------------------------------
  // The collection

  /** `MultiAssets`, the wrapper around the list of entries that `push`, `reanchor` and
      `prepend_with` update in place. */
  class MultiAssets {
    var inner: seq<MultiAsset>

    /** `MultiAssets::new`. */
    constructor New()
      ensures inner == []
    {
      inner := [];
    }

    /** `From<Vec<MultiAsset>>`: the canonical form of `assets`. */
    constructor From(assets: seq<MultiAsset>)
      ensures inner == Canonicalize(assets)
      ensures IsCanonical(inner)
    {
      var res := FromVec(assets);
      CanonicalizeIsCanonical(assets);
      inner := res;
    }

    /** `MultiAssets::push`: the walk over the entries of the same class. */
    method Push(a: MultiAsset)
      modifies this
      ensures inner == PushSpec(old(inner), a)
      ensures IsCanonical(old(inner)) ==> IsCanonical(inner)
    {
      ghost var s := inner;
      var i := 0;
      while i < |inner|
        invariant 0 <= i <= |inner| && inner == s
        invariant forall j :: 0 <= j < i ==> !Clash(inner[j], a)
      {
        var e := inner[i];
        if e.id == a.id {
          match (a.fun, e.fun) {
            case (Fungible(amount), Fungible(balance)) =>
              inner := inner[i := MultiAsset(e.id, Fungible(SaturatingAddU128(balance, amount)))];
              assert FirstClash(s, a) == i;
              if IsCanonical(s) { PushKeepsCanonical(s, a); }
              return;
            case (NonFungible(inst1), NonFungible(inst2)) =>
              if inst1 == inst2 {
                assert FirstClash(s, a) == i;
                assert s[i := MergeStep(s[i], a).value] == s;
                return;
              }
            case _ =>
          }
        }
        i := i + 1;
      }
      inner := SortAssets(inner + [a]);
      if IsCanonical(s) { PushKeepsCanonical(s, a); }
    }

    /** `MultiAssets::reanchor` and `MultiAssets::prepend_with`, which differ only in the
        location rewrite: rewrite each entry in place, stop at the first failure, and re-sort
        when all succeeded. */
    method Reanchor(f: LocationRewrite) returns (r: Result<(), ()>)
      modifies this
      ensures (inner, r.Ok?) == RewriteList(old(inner), f)
      ensures r.Ok? && IsCanonical(old(inner)) && InjectiveRewrite(f) ==> IsCanonical(inner)
    {
      ghost var s := inner;
      var k := RewriteEntries(f);
      RewriteListAt(s, f, k);
      if k < |inner| {
        return Err(());
      }
      assert s[..k] == s && s[k..] == [];
      assert inner == RewriteEach(s, f);
      inner := SortAssets(inner);
      if IsCanonical(s) && InjectiveRewrite(f) {
        RewriteKeepsCanonical(s, f);
      }
      return Ok(());
    }

    /** The `try_for_each` of `reanchor` / `prepend_with`: rewrites the entries in order
        and stops at the first that fails, which it reports by index (`|inner|` when none
        fails); the entries before it are rewritten, the rest are as they were. */
    method RewriteEntries(f: LocationRewrite) returns (k: nat)
      modifies this
      ensures k <= |old(inner)|
      ensures forall j :: 0 <= j < k ==> RewriteAsset(old(inner)[j], f).Some?
      ensures k < |old(inner)| ==> RewriteAsset(old(inner)[k], f).None?
      ensures inner == RewriteEach(old(inner)[..k], f) + old(inner)[k..]
    {
      ghost var s := inner;
      k := 0;
      while k < |inner| && RewriteAsset(inner[k], f).Some?
        invariant 0 <= k <= |inner| == |s|
        invariant forall j :: 0 <= j < k ==> RewriteAsset(s[j], f).Some?
        invariant inner == RewriteEach(s[..k], f) + s[k..]
        invariant k < |s| ==> inner[k] == s[k]
      {
        var b := RewriteAsset(inner[k], f).value;
        RewriteEachStep(s, f, k, b);
        inner := inner[k := b];
        k := k + 1;
        assert k < |s| ==> inner[k] == s[k] by {
          if k < |s| { assert s[k..][0] == s[k]; }
        }
      }
    }
  }
}
