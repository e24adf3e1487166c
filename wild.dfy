/** Wildcards over the holding (`WildMultiAsset`) and the filter that is either a definite
    list or a wildcard (`MultiAssetFilter`). */
module XcmWild {
  import opened Wrappers
  import opened Ints
  import opened XcmAsset
  import opened XcmMultiAssets

  /** All assets; all of one class and fungibility; and the same two capped at `count`
      individual assets. */
  datatype WildMultiAsset =
    | All
    | AllOf(id: AssetId, fun: WildFungibility)
    | AllCounted(count: U32)
    | AllOfCounted(id: AssetId, fun: WildFungibility, count: U32)

  /** `WildMultiAsset::count`: the cap of the counted variants. */
  function WildCount(w: WildMultiAsset): (r: Option<U32>)
    ensures r.Some? <==> w.AllCounted? || w.AllOfCounted?
    ensures r.Some? ==> r.value == w.count
  {
    match w
    case AllOfCounted(_, _, count) => Some(count)
    case AllCounted(count) => Some(count)
    case All => None
    case AllOf(_, _) => None
  }

  /** `WildMultiAsset::limit`, the same as `count`. */
  function WildLimit(w: WildMultiAsset): (r: Option<U32>)
    ensures r == WildCount(w)
  {
    WildCount(w)
  }

  /** The variant without its cap. */
  function Uncounted(w: WildMultiAsset): (r: WildMultiAsset)
    ensures r.All? || r.AllOf?
    ensures WildCount(r).None?
  {
    match w
    case AllOfCounted(id, fun, _) => AllOf(id, fun)
    case AllCounted(_) => All
    case _ => w
  }

  /** `WildMultiAsset::contains` (also `matches`): a cap of zero matches nothing; otherwise
      the cap is ignored, `All` matches everything and `AllOf` the assets of its class and
      fungibility. */
  function WildContains(w: WildMultiAsset, inner: MultiAsset): (r: bool)
    ensures WildCount(w) == Some(0) ==> !r
    ensures WildCount(w) != Some(0) ==>
              (r <==> Uncounted(w).All?
                      || (inner.id == Uncounted(w).id
                          && inner.fun.Fungible? == (Uncounted(w).fun == WildFungible)))
  {
    match w
    case AllOfCounted(_, _, 0) => false
    case AllCounted(0) => false
    case AllOf(id, fun) => IsKind(inner.fun, fun) && inner.id == id
    case AllOfCounted(id, fun, _) => IsKind(inner.fun, fun) && inner.id == id
    case All => true
    case AllCounted(_) => true
  }

  /** `WildMultiAsset::counted`: the counted variant of the same wildcard. */
  function Counted(w: WildMultiAsset, count: U32): (r: WildMultiAsset)
    ensures WildCount(r) == Some(count)
    ensures Uncounted(r) == Uncounted(w)
  {
    match w
    case AllOfCounted(id, fun, _) => AllOfCounted(id, fun, count)
    case AllOf(id, fun) => AllOfCounted(id, fun, count)
    case All => AllCounted(count)
    case AllCounted(_) => AllCounted(count)
  }

  /** A counted wildcard matches what its uncounted form matches, unless the cap is zero;
      re-counting replaces the cap. */
  lemma CountedMatches(w: WildMultiAsset, n: U32, m: U32, x: MultiAsset)
    ensures WildContains(Counted(w, n), x) <==> n > 0 && WildContains(Uncounted(w), x)
    ensures Counted(Counted(w, n), m) == Counted(w, m)
    ensures WildCount(w).None? ==> Uncounted(Counted(w, n)) == w
  {
  }

  /** `WildMultiAsset::reanchor`: rewrites the class of `AllOf` / `AllOfCounted`; the other
      variants succeed unchanged. On failure the wildcard is left as it was. */
  function WildReanchor(w: WildMultiAsset, f: LocationRewrite): (r: (WildMultiAsset, bool))
    ensures r.1 <==> (w.AllOf? || w.AllOfCounted? ==> RewriteId(w.id, f).Some?)
    ensures !r.1 ==> r.0 == w
    ensures WildCount(r.0) == WildCount(w)
    ensures r.0.All? == w.All? && r.0.AllCounted? == w.AllCounted?
    ensures r.0.AllOf? || r.0.AllOfCounted? ==> r.0.fun == w.fun
    ensures r.1 && (w.AllOf? || w.AllOfCounted?) ==> r.0.id == RewriteId(w.id, f).value
  {
    match w
    case AllOf(id, fun) =>
      (match RewriteId(id, f) case Some(id') => (AllOf(id', fun), true) case None => (w, false))
    case AllOfCounted(id, fun, count) =>
      (match RewriteId(id, f) case Some(id') => (AllOfCounted(id', fun, count), true) case None => (w, false))
    case All => (w, true)
    case AllCounted(_) => (w, true)
  }

  /** A successful rewrite carries what the wildcard matched over to the rewritten assets. */
  lemma WildReanchorTransports(w: WildMultiAsset, f: LocationRewrite, x: MultiAsset)
    requires WildReanchor(w, f).1 && RewriteAsset(x, f).Some?
    ensures WildContains(w, x) ==> WildContains(WildReanchor(w, f).0, RewriteAsset(x, f).value)
  {
  }

  /** Either a definite list of assets or a wildcard. */
  datatype MultiAssetFilter = Definite(assets: seq<MultiAsset>) | Wild(wild: WildMultiAsset)

  /** `MultiAssetFilter::matches`. */
  function FilterMatches(flt: MultiAssetFilter, inner: MultiAsset): (r: bool)
    ensures flt.Definite? ==> (r <==> exists i :: 0 <= i < |flt.assets| && Contains(flt.assets[i], inner))
    ensures flt.Wild? ==> r == WildContains(flt.wild, inner)
  {
    match flt
    case Definite(assets) => AnyContains(assets, inner)
    case Wild(wild) => WildContains(wild, inner)
  }

  /** A definite filter built from a vector matches every entry of that vector. */
  lemma DefiniteFromVecMatches(assets: seq<MultiAsset>, x: MultiAsset)
    requires x in assets
    ensures FilterMatches(Definite(Canonicalize(assets)), x)
  {
    CanonicalizeCovers(assets, x);
  }

  /** `MultiAssetFilter::reanchor`: delegates to the list or the wildcard. */
  function FilterReanchor(flt: MultiAssetFilter, f: LocationRewrite): (r: (MultiAssetFilter, bool))
    ensures flt.Definite? ==> r.0.Definite? && (r.0.assets, r.1) == RewriteList(flt.assets, f)
    ensures flt.Wild? ==> r.0.Wild? && (r.0.wild, r.1) == WildReanchor(flt.wild, f)
  {
    match flt
    case Definite(assets) =>
      var (s, ok) := RewriteList(assets, f);
      (Definite(s), ok)
    case Wild(wild) =>
      var (w, ok) := WildReanchor(wild, f);
      (Wild(w), ok)
  }

  /** `MultiAssetFilter::count`: the length of a definite list, truncated to `u32` by the
      `as` cast, or the wildcard's cap. */
  function FilterCount(flt: MultiAssetFilter): (r: Option<U32>)
    ensures flt.Definite? ==> r == Some(|flt.assets| % U32_LIMIT)
    ensures flt.Definite? && |flt.assets| < U32_LIMIT ==> r == Some(|flt.assets|)
    ensures flt.Wild? ==> r == WildCount(flt.wild)
  {
    match flt
    case Definite(assets) => Some(|assets| % U32_LIMIT)
    case Wild(wild) => WildCount(wild)
  }

  /** `MultiAssetFilter::limit`: no explicit limit on a definite list. */
  function FilterLimit(flt: MultiAssetFilter): (r: Option<U32>)
    ensures flt.Definite? ==> r.None?
    ensures flt.Wild? ==> r == WildLimit(flt.wild)
    ensures r.Some? ==> r == FilterCount(flt) && flt.Wild?
  {
    match flt
    case Definite(_) => None
    case Wild(wild) => WildLimit(wild)
  }
}
