# Verified model of XCM v3 assets, contract gas metering and pre-compile address matching

This project models three components of the Polkadot SDK and proves properties of them in
Dafny.

- **XCM v3 assets** (`polkadot/xcm/src/v3/multiasset.rs`). These are the values that
  cross-consensus messages use to name assets:
  - `AssetInstance`, `Fungibility`, `AssetId` and `MultiAsset`, with their derived and
    hand-written orderings and their conversions;
  - the canonical collection `MultiAssets`;
  - the wildcards `WildMultiAsset` and the filter `MultiAssetFilter`.

  The collection is a sorted vector in which each fungible class appears at most once and no
  non-fungible instance appears twice. It is a `class` whose `push`, `reanchor` and
  `prepend_with` update the vector in place. The value types are datatypes with pure
  functions.
  - Files: `asset.dfy`, `asset_sort.dfy`, `multi_assets.dfy`, `wild.dfy`.
  - Shared helpers: `order.dfy` (`Ordering`, lexicographic comparison), `ints.dfy` (integer
    widths and saturating arithmetic), `wrappers.dfy` (`Option`, `Result`).
- **Gas metering of the contracts pallet** (`substrate/frame/revive/src/gas.rs`). A
  `GasMeter` holds one call frame's two-dimensional `Weight` budget:
  - what is left, and the lowest level it has reached;
  - an `EngineMeter` that tracks the budget in the virtual machine's fuel units.

  Both are classes. Lending to nested calls, absorbing them back, charging, refunding and
  synchronising with the executor are methods that change their fields. File: `gas.dfy`.
- **Pre-compile address matching** (`substrate/frame/revive/src/precompiles.rs`).
  - An address matcher places a non-zero suffix big-endian in bytes 12..20 of a 20-byte
    address.
  - A `Fixed` matcher answers exactly that address. A `Prefix` matcher also ignores bytes
    0..4.
  - External matchers carry a `u32`, which `into_builtin` shifts into the upper half of the
    suffix.
  - A set of pre-compiles (a Rust tuple, modelled as a list in tuple order) reports the
    `Kind` of the first one that matches.

  The const-fn loops over byte arrays are methods over `array<U8>`, proved against pure
  specification functions. File: `precompiles.dfy`.

Two behaviours of the code are modelled as written and are worth knowing:

- **The strict check admits some unsorted lists.** `from_sorted_and_deduplicated` checks
  only adjacent pairs. So it accepts an unsorted list that holds two fungible entries of
  the same class, as long as a non-fungible entry separates them
  (`XcmMultiAssets.StrictCheckAdmitsUnsortedDuplicates`). On a sorted list the check means
  exactly "no two entries clash" (`XcmMultiAssets.StrictCheckOnSortedList`).
- **`charge_ref_time` stores nothing.** `EngineMeter::charge_ref_time` discards the result
  of its `checked_sub`: it reports the fuel left without charging it. So
  `ReviveGas.EngineMeter.ChargeRefTime` and `ReviveGas.GasMeter.SyncToExecutor` leave the
  fuel unchanged.

## Model

| member | source | states |
|---|---|---|
| XcmAsset.CmpInstance | polkadot/xcm/src/v3/multiasset.rs:42-79 | the derived `Ord` of `AssetInstance`: the variant's declaration position first (`Undefined`, `Index`, `Array4`, `Array8`, `Array16`, `Array32`), then its field, an index numerically and a byte array lexicographically |
| XcmAsset.CmpInstanceEqual | polkadot/xcm/src/v3/multiasset.rs:42-79 | the derived order of `AssetInstance` says `Equal` exactly for equal instances |
| XcmAsset.CmpInstanceFlip | polkadot/xcm/src/v3/multiasset.rs:42-79 | the order is antisymmetric: swapping the arguments flips the result |
| XcmAsset.CmpInstanceTrans | polkadot/xcm/src/v3/multiasset.rs:42-79 | the order is transitive |
| XcmAsset.InstanceFromUnsigned | polkadot/xcm/src/v3/multiasset.rs:126-148 | `From<u8>` to `From<u64>` make an `Index` of the value; there is no `From<u128>` |
| XcmAsset.InstanceFromBytes | polkadot/xcm/src/v3/multiasset.rs:96-124 | `From<()>` is `Undefined`, and `From<[u8; N]>` (N = 4, 8, 16, 32) is the `ArrayN` variant holding those bytes |
| XcmAsset.InstanceToUnsigned | polkadot/xcm/src/v3/multiasset.rs:200-248 | `TryFrom<AssetInstance>` for `u8`..`u128` succeeds exactly on an `Index` that fits the width, and returns that index |
| XcmAsset.UnsignedConversionRoundTrip | polkadot/xcm/src/v3/multiasset.rs:126-148 | the `From<u8/u16/u32/u64>` constructors and the `TryFrom` conversions invert each other |
| XcmAsset.InstanceToBytes | polkadot/xcm/src/v3/multiasset.rs:150-198 | `TryFrom<AssetInstance>` for `()` and the byte arrays succeeds exactly on the variant of that width |
| XcmAsset.BytesConversionRoundTrip | polkadot/xcm/src/v3/multiasset.rs:96-124 | the `From<()>` / `From<[u8; N]>` constructors and the byte-array conversions invert each other |
| XcmAsset.CmpFungibility | polkadot/xcm/src/v3/multiasset.rs:252-274 | the derived `Ord` of `Fungibility`: every `Fungible` before every `NonFungible`; two fungibles by amount, two non-fungibles by the instance order |
| XcmAsset.CmpFungibilityEqual | polkadot/xcm/src/v3/multiasset.rs:252-274 | the derived order of `Fungibility` says `Equal` exactly for equal values |
| XcmAsset.CmpFungibilityFlip | polkadot/xcm/src/v3/multiasset.rs:252-274 | that order is antisymmetric |
| XcmAsset.CmpFungibilityTrans | polkadot/xcm/src/v3/multiasset.rs:252-274 | that order is transitive |
| XcmAsset.IsKind | polkadot/xcm/src/v3/multiasset.rs:293-299 | `is_kind` holds exactly when a fungible value meets `WildFungible` or a non-fungible one meets `WildNonFungible` |
| XcmAsset.FungibilityFromI32 | polkadot/xcm/src/v3/multiasset.rs:301-306 | `From<i32>` is `amount as u128`: the amount is the input modulo 2^128, so a negative input becomes 2^128 + amount (agreeing with the input modulo 2^32 and above 2^128 - 2^31 - 1); never zero |
| XcmAsset.EncodeFungibility | polkadot/xcm/src/v3/multiasset.rs:252-280 | the derived encoding of `Fungibility` is the same-shaped `UncheckedFungibility` value: the amount or the instance is carried over unchanged |
| XcmAsset.DecodeFungibility | polkadot/xcm/src/v3/multiasset.rs:276-291 | decoding rejects exactly a fungible amount of zero, with that error; otherwise it keeps the amount or the instance |
| XcmAsset.FungibilityDecodeRoundTrip | polkadot/xcm/src/v3/multiasset.rs:276-291 | decoding an encoded `Fungibility` gives it back, unless it is a fungible zero, which is rejected |
| XcmAsset.CmpAssetId | polkadot/xcm/src/v3/multiasset.rs:370-394 | the derived `Ord` of `AssetId`: every `Concrete` before every `Abstract`; two locations by the location order, two names byte by byte |
| XcmAsset.IdLess | polkadot/xcm/src/v3/multiasset.rs:666 | `a.id < b.id`: the strict part of the `AssetId` order |
| XcmAsset.CmpAssetIdEqual | polkadot/xcm/src/v3/multiasset.rs:370-394 | the derived order of `AssetId` says `Equal` exactly for equal identifiers |
| XcmAsset.CmpAssetIdFlip | polkadot/xcm/src/v3/multiasset.rs:370-394 | that order is antisymmetric |
| XcmAsset.CmpAssetIdTrans | polkadot/xcm/src/v3/multiasset.rs:370-394 | that order is transitive |
| XcmAsset.RewriteId | polkadot/xcm/src/v3/multiasset.rs:415-435 | `prepend_with` / `reanchor` of an `AssetId`: an abstract identifier always succeeds unchanged; a concrete one fails exactly when its location does, and otherwise takes the rewritten location |
| XcmAsset.CmpAsset | polkadot/xcm/src/v3/multiasset.rs:480-488 | the hand-written `Ord` of `MultiAsset`: a fungible before a non-fungible; otherwise the pairs `(id, fun)` compare lexicographically |
| XcmAsset.Lt | polkadot/xcm/src/v3/multiasset.rs:474-478 | `a < b` on assets: `partial_cmp` is `Some(cmp)`, so `<` holds exactly when `cmp` is `Less` |
| XcmAsset.Le | polkadot/xcm/src/v3/multiasset.rs:474-478 | `a <= b` on assets: `cmp` is not `Greater` |
| XcmAsset.CmpAssetIsKeyOrder | polkadot/xcm/src/v3/multiasset.rs:474-488 | the `Ord` of `MultiAsset` compares fungibility variants first, then the id, then the fungibility |
| XcmAsset.CmpAssetEqual | polkadot/xcm/src/v3/multiasset.rs:474-488 | that order says `Equal` exactly for equal assets |
| XcmAsset.CmpAssetFlip | polkadot/xcm/src/v3/multiasset.rs:474-488 | that order is antisymmetric |
| XcmAsset.CmpAssetTrans | polkadot/xcm/src/v3/multiasset.rs:474-488 | that order is transitive |
| XcmAsset.LeTotalOrder | polkadot/xcm/src/v3/multiasset.rs:474-488 | `<=` on assets is a total order: reflexive, antisymmetric, transitive and total |
| XcmAsset.FungiblesFirst | polkadot/xcm/src/v3/multiasset.rs:480-487 | every fungible asset sorts before every non-fungible one |
| XcmAsset.IsFungible | polkadot/xcm/src/v3/multiasset.rs:497-500 | holds exactly for a fungible asset whose id equals the given id, if one is given |
| XcmAsset.IsNonFungible | polkadot/xcm/src/v3/multiasset.rs:502-505 | the same for a non-fungible asset |
| XcmAsset.Contains | polkadot/xcm/src/v3/multiasset.rs:534-544 | same id, and either both are fungible with the outer amount at least the inner one, or both are the same non-fungible instance |
| XcmAsset.ContainsIsPartialOrder | polkadot/xcm/src/v3/multiasset.rs:534-544 | `contains` is reflexive, antisymmetric and transitive, and never relates a fungible asset to a non-fungible one |
| XcmAsset.RewriteAsset | polkadot/xcm/src/v3/multiasset.rs:508-531 | `MultiAsset::prepend_with` / `reanchor` / `reanchored` rewrite the id and keep the fungibility; they fail exactly when the id's rewrite fails |
| AssetSort.Sorted | polkadot/xcm/src/v3/multiasset.rs:559 | every entry is `<=` every later one in the asset order ("all items must be ordered") |
| AssetSort.SortAssets | polkadot/xcm/src/v3/multiasset.rs:613 | the library sort returns a sorted permutation of its input |
| AssetSort.SortedPermutationsEqual | polkadot/xcm/src/v3/multiasset.rs:474-488 | under this total order two sorted permutations of the same elements are equal, so any sorting algorithm gives the same vector |
| AssetSort.SortSortedIsIdentity | polkadot/xcm/src/v3/multiasset.rs:613 | sorting a sorted vector leaves it unchanged |
| AssetSort.SortAppendIsInsert | polkadot/xcm/src/v3/multiasset.rs:713-714 | appending to a sorted vector and sorting inserts the new entry in place |
| AssetSort.ChainSorted | polkadot/xcm/src/v3/multiasset.rs:661-673 | strictly increasing neighbours make the whole vector strictly increasing |
| XcmMultiAssets.Clash | polkadot/xcm/src/v3/multiasset.rs:616-630 | two entries clash (the fold merges them, and `push` absorbs one into the other) exactly when they are fungibles of one class, or the same non-fungible instance of one class |
| XcmMultiAssets.StrictPair | polkadot/xcm/src/v3/multiasset.rs:666 | the test on neighbours: the second id is strictly greater, or the pair is strictly ordered with at least one side non-fungible |
| XcmMultiAssets.PairwiseStrict | polkadot/xcm/src/v3/multiasset.rs:661-673 | every neighbouring pair passes the test that `from_sorted_and_deduplicated` folds over |
| XcmMultiAssets.ClashFree | polkadot/xcm/src/v3/multiasset.rs:558 | no two entries are of one asset class in the sense of `Clash` |
| XcmMultiAssets.IsCanonical | polkadot/xcm/src/v3/multiasset.rs:554-560 | the collection invariant: sorted by the asset order, and every neighbouring pair passes the strict test |
| XcmMultiAssets.CheckNeighbours | polkadot/xcm/src/v3/multiasset.rs:665-671 | the fold over adjacent pairs succeeds exactly when every adjacent pair passes the strict comparison |
| XcmMultiAssets.FromSortedAndDeduplicated | polkadot/xcm/src/v3/multiasset.rs:661-673 | `from_sorted_and_deduplicated` accepts exactly the vectors whose adjacent pairs pass, and wraps them unchanged |
| XcmMultiAssets.StrictPairOnSorted | polkadot/xcm/src/v3/multiasset.rs:666 | on an ordered pair, the strict comparison means strictly less and not clashing |
| XcmMultiAssets.IncreasingIsCanonical | polkadot/xcm/src/v3/multiasset.rs:554-560 | strictly increasing with no clashing neighbours is the same as sorted and clash-free (the collection's invariant) |
| XcmMultiAssets.StrictCheckOnSortedList | polkadot/xcm/src/v3/multiasset.rs:661-673 | on a sorted vector the strict check succeeds exactly when no two entries clash |
| XcmMultiAssets.StrictCheckAdmitsUnsortedDuplicates | polkadot/xcm/src/v3/multiasset.rs:661-673 | an unsorted vector with two fungible entries of one class passes the check |
| XcmMultiAssets.FromSortedAndDeduplicatedFungibleExamples | polkadot/xcm/src/v3/multiasset.rs:1006-1061 | the fungible cases of the unit test: the ordered pair is accepted; the reversed pair and the duplicate are rejected |
| XcmMultiAssets.FromSortedAndDeduplicatedNonFungibleExamples | polkadot/xcm/src/v3/multiasset.rs:1006-1061 | the non-fungible cases of that test |
| XcmMultiAssets.FromSortedAndDeduplicatedInstanceExamples | polkadot/xcm/src/v3/multiasset.rs:1006-1061 | the cases of that test with byte-array instances of different widths |
| XcmMultiAssets.MergeRun | polkadot/xcm/src/v3/multiasset.rs:614-636 | the fold over the sorted tail with `acc` as the first accumulator, and the final push of the last accumulator: a clashing neighbour is merged in, any other one closes the previous entry |
| XcmMultiAssets.Canonicalize | polkadot/xcm/src/v3/multiasset.rs:609-641 | `From<Vec<MultiAsset>>` on values: empty stays empty; otherwise sort, then `MergeRun` from the first element |
| XcmMultiAssets.MergeStep | polkadot/xcm/src/v3/multiasset.rs:616-635 | the fold closure merges a pair exactly when it clashes: fungibles into their saturating sum, equal instances into one |
| XcmMultiAssets.FromVec | polkadot/xcm/src/v3/multiasset.rs:609-641 | `From<Vec<MultiAsset>>` sorts, then merges neighbours, and yields the canonical form of its input |
| XcmMultiAssets.MergeFold | polkadot/xcm/src/v3/multiasset.rs:614-636 | the fold over the sorted vector emits what the merge of the first entry with the rest emits |
| XcmMultiAssets.MergeRunIncreasing | polkadot/xcm/src/v3/multiasset.rs:614-636 | merging a sorted run yields a strictly increasing, clash-free vector |
| XcmMultiAssets.CanonicalizeIsCanonical | polkadot/xcm/src/v3/multiasset.rs:609-641 | the converted vector is sorted and clash-free, and passes `from_sorted_and_deduplicated` unchanged |
| XcmMultiAssets.FungibleTotalPermutation | polkadot/xcm/src/v3/multiasset.rs:613 | sorting does not change the total fungible amount of any class |
| XcmMultiAssets.MergeRunTotal | polkadot/xcm/src/v3/multiasset.rs:614-636 | merging keeps each class's total fungible amount, saturated at `u128::MAX` |
| XcmMultiAssets.CanonicalizeFungibleTotal | polkadot/xcm/src/v3/multiasset.rs:609-641 | after conversion each class holds the saturated sum of its fungible amounts |
| XcmMultiAssets.CanonicalizeNonFungibles | polkadot/xcm/src/v3/multiasset.rs:609-641 | a non-fungible asset is in the converted vector exactly when it is in the input |
| XcmMultiAssets.CanonicalizeNoZeroAmounts | polkadot/xcm/src/v3/multiasset.rs:609-641 | conversion introduces no zero amounts |
| XcmMultiAssets.CanonicalizeIdempotent | polkadot/xcm/src/v3/multiasset.rs:609-641 | a canonical vector converts to itself, so converting twice equals converting once |
| XcmMultiAssets.CanonicalizeCovers | polkadot/xcm/src/v3/multiasset.rs:609-641 | every input entry is contained in some entry of the converted vector |
| XcmMultiAssets.CanonicalizeMergesAmounts | polkadot/xcm/src/v3/multiasset.rs:609-641 | two fungible entries of one class become one entry with the sum |
| XcmMultiAssets.CanonicalizeSaturates | polkadot/xcm/src/v3/multiasset.rs:618-624 | the merged amount saturates at `u128::MAX` |
| XcmMultiAssets.CanonicalizeCollapsesInstances | polkadot/xcm/src/v3/multiasset.rs:625-629 | two equal non-fungible entries become one |
| XcmMultiAssets.AnyContains | polkadot/xcm/src/v3/multiasset.rs:723-727 | `MultiAssets::contains`: some entry contains the asset |
| XcmMultiAssets.EncodeMultiAssets | polkadot/xcm/src/v3/multiasset.rs:561-577 | the derived encoding of the vector: each entry's id with its fungibility encoded as `UncheckedFungibility`, in order, with nothing dropped |
| XcmMultiAssets.DecodeEntries | polkadot/xcm/src/v3/multiasset.rs:588-595 | the element-wise decode succeeds exactly when no entry holds a fungible zero, and keeps ids and order |
| XcmMultiAssets.DecodeMultiAssets | polkadot/xcm/src/v3/multiasset.rs:580-595 | decoding rejects more than `MAX_ITEMS_IN_MULTIASSETS` (20) entries; whatever it accepts is bounded, passes the strict check and holds no zero amount |
| XcmMultiAssets.DecodeEncodeRoundTrip | polkadot/xcm/src/v3/multiasset.rs:580-595 | an encoded vector decodes exactly when it is bounded, passes the strict check and holds no zero amount, and then decodes to itself |
| XcmMultiAssets.DecodeIsInjective | polkadot/xcm/src/v3/multiasset.rs:588-595 | whatever decoding accepts re-encodes to the same input |
| XcmMultiAssets.ManyCopiesDecode | polkadot/xcm/src/v3/multiasset.rs:1165-1171 | 21 copies of one asset, more than the limit, convert to a single entry of amount 21, which encodes and decodes back to itself |
| XcmMultiAssets.FirstClash | polkadot/xcm/src/v3/multiasset.rs:701-712 | the index of the first entry that clashes with the pushed asset, or the length when none does |
| XcmMultiAssets.PushSpec | polkadot/xcm/src/v3/multiasset.rs:700-715 | `push` on values: merge into the first clashing entry found by the filter and leave everything else; with no clash, append and sort |
| XcmMultiAssets.PushKeepsCanonical | polkadot/xcm/src/v3/multiasset.rs:700-715 | `push` keeps a canonical vector canonical |
| XcmMultiAssets.PushContains | polkadot/xcm/src/v3/multiasset.rs:700-715 | after `push` the vector contains the pushed asset and everything it contained before |
| XcmMultiAssets.PushLength | polkadot/xcm/src/v3/multiasset.rs:700-715 | `push` grows the vector by one exactly when no entry clashes, and pushing a held instance changes nothing |
| XcmMultiAssets.PushFungibleTotal | polkadot/xcm/src/v3/multiasset.rs:700-715 | pushing a fungible asset adds its amount, saturating, to its own class's total and leaves every other class's total alone |
| XcmMultiAssets.MultiAssets.From | polkadot/xcm/src/v3/multiasset.rs:609-641 | the collection built from a vector holds its canonical form |
| XcmMultiAssets.MultiAssets.New | polkadot/xcm/src/v3/multiasset.rs:651-653 | `new` makes an empty collection |
| XcmMultiAssets.MultiAssets.Push | polkadot/xcm/src/v3/multiasset.rs:700-715 | the entries become the pushed specification of the old entries; a canonical collection stays canonical |
| XcmMultiAssets.MultiAssets.Reanchor | polkadot/xcm/src/v3/multiasset.rs:749-767 | `prepend_with` / `reanchor` leave the entries and report success as the rewrite specification says; a successful injective rewrite keeps the collection canonical |
| XcmMultiAssets.MultiAssets.RewriteEntries | polkadot/xcm/src/v3/multiasset.rs:751-752 | the in-place `try_for_each` rewrites the entries before the first failure and leaves the rest as they were |
| XcmMultiAssets.RewriteEach | polkadot/xcm/src/v3/multiasset.rs:749-767 | every entry rewritten by `MultiAsset::reanchor` / `prepend_with`, a failing rewrite leaving its entry unchanged; the length is kept |
| XcmMultiAssets.RewriteList | polkadot/xcm/src/v3/multiasset.rs:749-767 | the collection's `reanchor` / `prepend_with` on values: with no failure, all entries rewritten and then sorted, and success; otherwise the entries before the first failure rewritten, the rest untouched, no sort, and failure |
| XcmMultiAssets.RewriteListOutcome | polkadot/xcm/src/v3/multiasset.rs:749-767 | the rewrite succeeds exactly when every entry's does, and the result is then sorted with the rewritten entries; on failure the prefix is rewritten, the rest unchanged and every fungibility kept |
| XcmMultiAssets.RewriteKeepsCanonical | polkadot/xcm/src/v3/multiasset.rs:1064-1162 | an injective rewrite of a canonical collection yields a canonical collection (what the tests `reanchor_preserves_sorting` and `prepend_preserves_sorting` check) |
| XcmWild.WildCount | polkadot/xcm/src/v3/multiasset.rs:862-868 | `count` is the cap of the counted variants and `None` otherwise |
| XcmWild.WildLimit | polkadot/xcm/src/v3/multiasset.rs:871-873 | `limit` equals `count` |
| XcmWild.Uncounted | polkadot/xcm/src/v3/multiasset.rs:827-835 | the wildcard with its cap dropped (`AllOfCounted` becomes `AllOf`, `AllCounted` becomes `All`): the variant whose kind and id `contains` tests |
| XcmWild.WildContains | polkadot/xcm/src/v3/multiasset.rs:827-846 | `contains` / `matches`: a zero cap matches nothing; otherwise `All` matches everything and `AllOf` the assets of its class and kind |
| XcmWild.Counted | polkadot/xcm/src/v3/multiasset.rs:877-883 | `counted` sets the cap and keeps the uncounted wildcard |
| XcmWild.CountedMatches | polkadot/xcm/src/v3/multiasset.rs:827-883 | a counted wildcard matches what the uncounted one matches, unless the cap is zero; re-counting replaces the cap |
| XcmWild.WildReanchor | polkadot/xcm/src/v3/multiasset.rs:848-859 | only the classes of `AllOf` / `AllOfCounted` are rewritten, each to its reanchored location; on failure the wildcard is unchanged; the cap and the kind are kept |
| XcmWild.WildReanchorTransports | polkadot/xcm/src/v3/multiasset.rs:827-859 | after a successful rewrite the wildcard matches the rewritten forms of the assets it matched |
| XcmWild.FilterMatches | polkadot/xcm/src/v3/multiasset.rs:946-951 | a definite filter matches what some entry contains; a wild filter matches what its wildcard matches |
| XcmWild.DefiniteFromVecMatches | polkadot/xcm/src/v3/multiasset.rs:929-933 | a definite filter built from a vector matches every entry of that vector |
| XcmWild.FilterReanchor | polkadot/xcm/src/v3/multiasset.rs:955-964 | the filter reanchors through the list rewrite or through the wildcard's |
| XcmWild.FilterCount | polkadot/xcm/src/v3/multiasset.rs:967-973 | a definite filter counts its length, truncated to `u32`; a wild one gives its cap |
| XcmWild.FilterLimit | polkadot/xcm/src/v3/multiasset.rs:976-982 | no limit on a definite filter; a wild one gives exactly its wildcard's limit (`Wild::limit`), the cap of a counted wildcard |
| ReviveGas.CheckedSub | substrate/frame/revive/src/gas.rs:218 | `checked_sub` on `Weight` succeeds exactly when both components cover the subtrahend, and then adding it back restores the input |
| ReviveGas.SaturatingSub | substrate/frame/revive/src/gas.rs:231 | component-wise saturating subtraction never exceeds the input and is exact when it does not underflow |
| ReviveGas.SaturatingAdd | substrate/frame/revive/src/gas.rs:231 | component-wise saturating addition is at least each operand and exact without overflow |
| ReviveGas.WeightMin | substrate/frame/revive/src/gas.rs:184 | `min` on `Weight` is component-wise, below both operands |
| ReviveGas.EngineMeter.constructor | substrate/frame/revive/src/gas.rs:48-53 | the fuel is the reference time divided by the rate, rounded down |
| ReviveGas.EngineMeter.SetFuel | substrate/frame/revive/src/gas.rs:57-61 | stores the new fuel and returns the fuel used since the last update, at the rate, saturating, with no proof size |
| ReviveGas.EngineMeter.ChargeRefTime | substrate/frame/revive/src/gas.rs:65-72 | a zero rate is `InvalidSchedule`; more fuel needed than left is `OutOfGas`; otherwise the fuel left, or `OutOfGas` when it does not fit `i64` |
| ReviveGas.NestedSplit | substrate/frame/revive/src/gas.rs:183-187 | a nested call gets at most the amount asked and what is left; parent and child budgets add up to the parent's budget |
| ReviveGas.NestedSplitCases | substrate/frame/revive/src/gas.rs:395-434 | an affordable request is granted in full, an excessive one takes everything, and the grant is the component-wise minimum (the nested tests of the unit tests) |
| ReviveGas.AbsorbLowest | substrate/frame/revive/src/gas.rs:190-195 | the absorbed low is at most the old low and at most the parent's budget plus the nested limit less what the nested call required |
| ReviveGas.GasMeter.New | substrate/frame/revive/src/gas.rs:160-170 | a new meter starts with the whole limit left and as its low, and an engine meter of the same rate |
| ReviveGas.FreshMeterConsumedNothing | substrate/frame/revive/src/gas.rs:160-170 | a meter as `new` leaves it has consumed and requires nothing |
| ReviveGas.GasMeter.GasLeftLowest | substrate/frame/revive/src/gas.rs:307-309 | the low is below both the recorded low and the budget left, component-wise |
| ReviveGas.GasMeter.GasRequired | substrate/frame/revive/src/gas.rs:269-271 | what a re-run needs is the limit less the low, never above the limit |
| ReviveGas.GasMeter.GasConsumed | substrate/frame/revive/src/gas.rs:274-276 | what was spent is the limit less what is left, never above the limit |
| ReviveGas.ValidMeterAccounting | substrate/frame/revive/src/gas.rs:269-276 | on a valid meter (budget within the limit) `gas_consumed` and `gas_required` are exact differences, and consumed plus left is the limit |
| ReviveGas.RequiredCoversConsumed | substrate/frame/revive/src/gas.rs:265-276 | what a re-run needs is never below what was consumed |
| ReviveGas.GasMeter.EngineFuelLeft | substrate/frame/revive/src/gas.rs:284-286 | the engine fuel as `i64`, or `OutOfGas` when it does not fit |
| ReviveGas.GasMeter.NestedTakeAll | substrate/frame/revive/src/gas.rs:176-180 | the parent keeps nothing and the child's fresh meter gets all of it; both meters stay valid |
| ReviveGas.GasMeter.Nested | substrate/frame/revive/src/gas.rs:183-187 | the parent loses what the child is lent, as the nested split says; the child is a fresh meter of that limit; both meters stay valid |
| ReviveGas.GasMeter.AbsorbNested | substrate/frame/revive/src/gas.rs:190-195 | the parent regains the child's leftover and its low becomes the absorbed low, never higher than before |
| ReviveGas.NestedThenAbsorb | substrate/frame/revive/src/gas.rs:183-195 | lending and absorbing leave the parent with its budget less what the child consumed, and its low less what the child required |
| ReviveGas.UnusedNestedRestoresParent | substrate/frame/revive/src/gas.rs:183-195 | a child that consumed nothing leaves the parent as it was |
| ReviveGas.GasMeter.Charge | substrate/frame/revive/src/gas.rs:207-220 | succeeds exactly when the budget covers the token's weight, then deducts it; on failure nothing is deducted; a valid meter stays valid |
| ReviveGas.GasMeter.AdjustGas | substrate/frame/revive/src/gas.rs:226-232 | refunds the overcharge, capped at the limit, and first records the low when the token asks for it; a valid meter stays valid |
| ReviveGas.GasMeter.SyncFromExecutor | substrate/frame/revive/src/gas.rs:239-250 | a negative fuel is `OutOfGas`; otherwise the fuel is stored and the reference time it used is deducted, or `OutOfGas` with the budget unchanged when it does not cover it; a valid meter stays valid |
| ReviveGas.GasMeter.SyncToExecutor | substrate/frame/revive/src/gas.rs:260-263 | the reference time charged since `before` is converted to fuel and checked against the engine's fuel; a zero conversion rate gives `InvalidSchedule`, as `charge_ref_time` does |
| ReviveGas.ZeroBudgetRefusesCharge | substrate/frame/revive/src/gas.rs:385-391 | a meter with a zero budget refuses a charge |
| ReviveGas.OverchargeDoesNotCharge | substrate/frame/revive/src/gas.rs:436-446 | a charge beyond the budget fails and takes nothing, so the full budget can be charged afterwards |
| ReviveGas.NestedRequest | substrate/frame/revive/src/gas.rs:395-434 | the meters after a nested request split the budget as the nested split says; a request of at least the budget takes it all |
| RevivePrecompiles.BeBytesRoundTrip | substrate/frame/revive/src/precompiles.rs:424 | reading back the big-endian bytes of a value that fits gives the value |
| RevivePrecompiles.FromBeBytesBound | substrate/frame/revive/src/precompiles.rs:424 | n big-endian bytes read as a number below 256^n |
| RevivePrecompiles.FromBeBytesAppend | substrate/frame/revive/src/precompiles.rs:424 | appending bytes shifts the value left by their count in bytes and adds them |
| RevivePrecompiles.IntoBuiltin | substrate/frame/revive/src/precompiles.rs:398-412 | `into_builtin` keeps the kind and shifts the value left by 32 bits, so the result is above `u32::MAX` |
| RevivePrecompiles.IntoBuiltinInjective | substrate/frame/revive/src/precompiles.rs:398-412 | distinct external matchers stay distinct after `into_builtin` |
| RevivePrecompiles.Suffix | substrate/frame/revive/src/precompiles.rs:416-421 | the suffix of a matcher is non-zero |
| RevivePrecompiles.BaseAddressOf | substrate/frame/revive/src/precompiles.rs:423-432 | the base address is zero up to byte 12 and spells the suffix big-endian in bytes 12..20 |
| RevivePrecompiles.HighestAddressOf | substrate/frame/revive/src/precompiles.rs:434-446 | the highest address is the base address, with bytes 0..4 set to `0xFF` for a prefix matcher |
| RevivePrecompiles.MatchStart | substrate/frame/revive/src/precompiles.rs:450-453 | the first compared byte: 0 for a `Fixed` matcher, 4 for a `Prefix` matcher, never past byte 12 where the suffix starts |
| RevivePrecompiles.Matches | substrate/frame/revive/src/precompiles.rs:448-461 | `matches`: the address agrees with the base address from the first compared byte to the end |
| RevivePrecompiles.MatchesLayout | substrate/frame/revive/src/precompiles.rs:448-461 | an address matches exactly when it spells the suffix in bytes 12..20 and is zero from the first compared byte up to them |
| RevivePrecompiles.MatchDeterminesSuffix | substrate/frame/revive/src/precompiles.rs:448-461 | a matching address determines the matcher's suffix |
| RevivePrecompiles.MatchedRange | substrate/frame/revive/src/precompiles.rs:423-461 | a matcher matches its base and highest addresses, and every address it matches lies between them as big-endian numbers |
| RevivePrecompiles.BuiltinAndExternalDisjoint | substrate/frame/revive/src/precompiles.rs:364-370 | a builtin matcher whose suffix fits in `u32` shares no address with an external matcher |
| RevivePrecompiles.BaseAddress | substrate/frame/revive/src/precompiles.rs:423-432 | the loop over the address array builds the base address |
| RevivePrecompiles.HighestAddress | substrate/frame/revive/src/precompiles.rs:434-446 | the array built is the highest address |
| RevivePrecompiles.MatchesAddress | substrate/frame/revive/src/precompiles.rs:448-461 | the comparison loop answers whether the address matches |
| RevivePrecompiles.HasDuplicates | substrate/frame/revive/src/precompiles.rs:463-477 | the double loop answers exactly whether two matchers share a suffix |
| RevivePrecompiles.AsBuiltin | substrate/frame/revive/src/precompiles.rs:251-255 | the blanket implementation gives an external pre-compile the `into_builtin` matcher and keeps its contract-info flag |
| RevivePrecompiles.KindOf | substrate/frame/revive/src/precompiles.rs:331-335 | the kind is `WithContractInfo` exactly when the flag is set |
| RevivePrecompiles.FirstMatch | substrate/frame/revive/src/precompiles.rs:327-341 | the index of the first matching pre-compile, or the length when none matches |
| RevivePrecompiles.FirstMatchKind | substrate/frame/revive/src/precompiles.rs:327-341 | the kind lookup answers `None` exactly when no pre-compile matches |
| RevivePrecompiles.KindLookup | substrate/frame/revive/src/precompiles.rs:327-341 | the loop over the set returns the kind of the first match |
| RevivePrecompiles.CombinedKind | substrate/frame/revive/src/precompiles.rs:373-376 | the builtin set is consulted first and the external set only when it has no match |
| RevivePrecompiles.UsesExternalRange | substrate/frame/revive/src/precompiles.rs:315-325 | the flag is set exactly when some suffix exceeds `u32::MAX` |
| RevivePrecompiles.UniqueMatch | substrate/frame/revive/src/precompiles.rs:309-314 | without duplicate suffixes at most one pre-compile matches an address |
| RevivePrecompiles.BuiltinsShadowNothing | substrate/frame/revive/src/precompiles.rs:364-376 | when no builtin uses the external range, an address a builtin answers is answered by no external pre-compile |
| RevivePrecompiles.PublicBaseAddress | substrate/frame/revive/src/precompiles.rs:386-388 | the external base address is the builtin base address of `into_builtin` |
| RevivePrecompiles.PublicHighestAddress | substrate/frame/revive/src/precompiles.rs:390-392 | the same for the highest address |
| RevivePrecompiles.PublicMatches | substrate/frame/revive/src/precompiles.rs:394-396 | the same for matching |
| RevivePrecompiles.PublicBaseAddressLayout | substrate/frame/revive/src/precompiles.rs:398-432 | an external matcher's value lands big-endian in bytes 12..16, and bytes 16..20 are zero |
| RevivePrecompiles.FirstMatchKindOfPair | substrate/frame/revive/src/precompiles.rs:327-341 | the lookup in a two-element set tries the first, then the second |
| RevivePrecompiles.BuiltinMatcherAddresses | substrate/frame/revive/src/precompiles/tests.rs:60-79 | the base and highest addresses of the two test matchers are those of the unit test |
| RevivePrecompiles.CollectionKindMisses | substrate/frame/revive/src/precompiles/tests.rs:81-96 | the test set answers `None` for the test's non-matching addresses |
| RevivePrecompiles.CollectionKindFixedHit | substrate/frame/revive/src/precompiles/tests.rs:82-85 | the fixed matcher answers its address with contract info |
| RevivePrecompiles.CollectionKindPrefixHit | substrate/frame/revive/src/precompiles/tests.rs:86-95 | the prefix matcher answers any address that differs from its base in bytes 0..4 only |
| RevivePrecompiles.CollectionKindPrefixExamples | substrate/frame/revive/src/precompiles/tests.rs:86-95 | the prefix addresses of the unit test are answered without contract info |
| RevivePrecompiles.PublicFixedAddresses | substrate/frame/revive/src/precompiles/tests.rs:117-121 | the external fixed test matcher's base and highest addresses |
| RevivePrecompiles.PublicPrefixAddresses | substrate/frame/revive/src/precompiles/tests.rs:117-124 | the external prefix test matcher's base and highest addresses |

## Left out

- `MultiLocation` is not part of this model. It is a stand-in datatype (parents, interior
  codes) with the derived order. Its `prepend_with` / `reanchor` arithmetic is a parameter:
  a partial function that fails or gives the new location. Where the collection must stay
  canonical, that function is required to be injective (`InjectiveRewrite`).
- SCALE encoding, `BoundedVec`, `MaxEncodedLen` and `UncheckedFungibility`'s wire layout are
  not modelled. Decoding starts from already parsed entries, and only its checks (the
  zero amount, the length bound of 20, the strict order) are modelled.
- The conversions from and to the XCM v4 types (`TryFrom<NewAssetInstance>` and the others)
  are left out: those types are not part of this model.
- The one-line constructors `From<(A, B)>`, `From<u128>`, `From<T: Into<AssetInstance>>`,
  `From<T> for AssetId`, `into_multiasset`, `into_wild` and the filter's `From` impls are
  left out. They only wrap their arguments.
- The accessors `len`, `get`, `is_none`, `inner`, `into_inner`, `drain` and `gas_left` are
  left out. They only read the state the contracts already expose.
- `from_sorted_and_deduplicated_skip_checks` is left out. It wraps its argument unchanged
  and is only used when the caller already knows the vector is canonical.
- XcmWild.WildReanchor, XcmWild.FilterReanchor: the wildcard and filter reanchors are
  modelled on values, returning the new value and a success flag, not as updates in place.
- XcmAsset.FungibilityFromI32: requires a non-zero input. The source only has a debug
  assertion; a release build turns zero into `Fungible(0)`.
- ReviveGas.GasMeter.AbsorbNested: requires that the `Weight` additions do not overflow.
  The source adds with `+`, which panics on overflow in debug builds.
- `GasMeter::into_dispatch_result`, `ChargedAmount::amount` and the recording of charged
  tokens in test builds are left out. The first builds a dispatch record from the
  modelled `gas_consumed`; the others are bookkeeping for tracing.
- `ref_time_per_fuel` is computed from benchmark weights. It is modelled as a positive
  parameter of the engine meter (`saturating_div` panics on zero).
- `Precompile::call` / `call_with_info`, the tuple's `call`, ABI decoding and the builtin
  pre-compiles (`ecrecover` and the rest) are left out. They run code outside this model;
  only which pre-compile answers an address is modelled.
- `CHECK_COLLISION` is a compile-time panic. It appears as the hypothesis of
  RevivePrecompiles.UniqueMatch and RevivePrecompiles.BuiltinsShadowNothing, and the
  duplicate check itself is RevivePrecompiles.HasDuplicates.
- The test `builtin_matching_works` is left out. It depends on the builtin set, which is not
  part of this model.
- ReviveGas.NestedSplitCases: the numeric nested-meter tests are stated for all budgets and
  requests, not replayed with their constants.
- Concurrency, I/O and the runtime configuration (`Config`, `WeightInfo`) are not modelled.
