/** The leaf value types of the cross-consensus asset format (version 3) and the single
    asset `MultiAsset`: identifiers, fungibility, their orderings, conversions and
    containment (polkadot/xcm/src/v3/multiasset.rs, lines 41-545). */
module XcmAsset {
  import opened Wrappers
  import opened Ints
  import opened Order

  type Bytes4 = s: seq<U8> | |s| == 4 witness [0, 0, 0, 0]
  type Bytes8 = s: seq<U8> | |s| == 8 witness [0, 0, 0, 0, 0, 0, 0, 0]
  type Bytes16 = s: seq<U8> | |s| == 16 witness seq(16, _ => 0)
  type Bytes32 = s: seq<U8> | |s| == 32 witness seq(32, _ => 0)

  /** The errors a decoder reports for malformed asset data. */
  datatype DecodeError =
    | ZeroFungibleAmount  // "Fungible asset of zero amount is not allowed"
    | TooManyItems        // the bounded vector's length prefix exceeds its bound
    | OutOfOrder          // "Out of order"

  // ---------------------------------------------------------------------------
  // AssetInstance

  /** Identifies one instance of a non-fungible asset class. */
  datatype AssetInstance =
    | Undefined
    | Index(index: U128)
    | Array4(bytes4: Bytes4)
    | Array8(bytes8: Bytes8)
    | Array16(bytes16: Bytes16)
    | Array32(bytes32: Bytes32)

  /** Position of the variant in the declaration: `derive(Ord)` compares it first. */
  function InstanceRank(i: AssetInstance): nat
  {
    match i
    case Undefined => 0
    case Index(_) => 1
    case Array4(_) => 2
    case Array8(_) => 3
    case Array16(_) => 4
    case Array32(_) => 5
  }

  /** The variant's field, as the sequence `derive(Ord)` compares next. */
  function InstancePayload(i: AssetInstance): seq<int>
  {
    match i
    case Undefined => []
    case Index(n) => [n]
    case Array4(b) => b
    case Array8(b) => b
    case Array16(b) => b
    case Array32(b) => b
  }

  /** The derived order of `AssetInstance`. */
  function CmpInstance(a: AssetInstance, b: AssetInstance): Ordering
  {
    Then(CmpInt(InstanceRank(a), InstanceRank(b)), CmpLex(InstancePayload(a), InstancePayload(b)))
  }

  lemma CmpInstanceEqual(a: AssetInstance, b: AssetInstance)
    ensures CmpInstance(a, b) == Equal <==> a == b
  {
    CmpLexEqual(InstancePayload(a), InstancePayload(b));
  }

  lemma CmpInstanceFlip(a: AssetInstance, b: AssetInstance)
    ensures CmpInstance(b, a) == Flip(CmpInstance(a, b))
  {
    CmpLexFlip(InstancePayload(a), InstancePayload(b));
  }

  lemma CmpInstanceTrans(a: AssetInstance, b: AssetInstance, c: AssetInstance)
    requires CmpInstance(a, b) == Less && CmpInstance(b, c) == Less
    ensures CmpInstance(a, c) == Less
  {
    if InstanceRank(a) == InstanceRank(b) == InstanceRank(c) {
      CmpLexTrans(InstancePayload(a), InstancePayload(b), InstancePayload(c));
    }
  }

  /** The unsigned integer types that convert to and from `AssetInstance::Index`. */
  datatype UnsignedWidth = Width8 | Width16 | Width32 | Width64 | Width128

  function WidthLimit(w: UnsignedWidth): nat
  {
    match w
    case Width8 => U8_LIMIT
    case Width16 => 0x1_0000
    case Width32 => U32_LIMIT
    case Width64 => U64_LIMIT
    case Width128 => U128_LIMIT
  }

  /** `From<u8>`, `From<u16>`, `From<u32>`, `From<u64>` for `AssetInstance`: an index.
      There is no `From<u128>`. */
  function InstanceFromUnsigned(x: nat, w: UnsignedWidth): AssetInstance
    requires w != Width128 && x < WidthLimit(w)
  {
    Index(x)
  }

  /** `TryFrom<AssetInstance>` for `u8` .. `u128`: only an index that fits the width. */
  function InstanceToUnsigned(i: AssetInstance, w: UnsignedWidth): (r: Result<nat, ()>)
    ensures r.Ok? <==> i.Index? && i.index < WidthLimit(w)
    ensures r.Ok? ==> r.value < WidthLimit(w) && i == Index(r.value)
  {
    match i
    case Index(n) => if n < WidthLimit(w) then Ok(n) else Err(())
    case _ => Err(())
  }

  /** Narrowing through a width and widening back are inverse to each other. */
  lemma UnsignedConversionRoundTrip(i: AssetInstance, x: nat, w: UnsignedWidth)
    requires w != Width128
    ensures x < WidthLimit(w) ==> InstanceToUnsigned(InstanceFromUnsigned(x, w), w) == Ok(x)
    ensures InstanceToUnsigned(i, w) == Ok(x) ==> InstanceFromUnsigned(x, w) == i
  {
  }

  /** `From<()>` and the array `From` impls for `AssetInstance`. */
  function InstanceFromBytes(b: seq<U8>): AssetInstance
    requires |b| == 0 || |b| == 4 || |b| == 8 || |b| == 16 || |b| == 32
  {
    if |b| == 0 then Undefined
    else if |b| == 4 then Array4(b)
    else if |b| == 8 then Array8(b)
    else if |b| == 16 then Array16(b)
    else Array32(b)
  }

  /** `TryFrom<AssetInstance>` for `()`, `[u8; 4]`, `[u8; 8]`, `[u8; 16]`, `[u8; 32]`:
      succeeds only on the variant of that width (`()` is `Undefined`). */
  function InstanceToBytes(i: AssetInstance, width: nat): (r: Result<seq<U8>, ()>)
    ensures r.Ok? <==> ((width == 0 && i.Undefined?) || (width == 4 && i.Array4?)
                        || (width == 8 && i.Array8?) || (width == 16 && i.Array16?)
                        || (width == 32 && i.Array32?))
    ensures r.Ok? ==> |r.value| == width
  {
    match i
    case Undefined => if width == 0 then Ok([]) else Err(())
    case Array4(b) => if width == 4 then Ok(b) else Err(())
    case Array8(b) => if width == 8 then Ok(b) else Err(())
    case Array16(b) => if width == 16 then Ok(b) else Err(())
    case Array32(b) => if width == 32 then Ok(b) else Err(())
    case Index(_) => Err(())
  }

  lemma BytesConversionRoundTrip(i: AssetInstance, b: seq<U8>)
    requires |b| == 0 || |b| == 4 || |b| == 8 || |b| == 16 || |b| == 32
    ensures InstanceToBytes(InstanceFromBytes(b), |b|) == Ok(b)
    ensures InstanceToBytes(i, |b|) == Ok(b) ==> InstanceFromBytes(b) == i
  {
  }

  // ---------------------------------------------------------------------------
  // Fungibility

  /** A fungible amount or a specific non-fungible instance. The type admits a zero amount;
      decoding refuses it. */
  datatype Fungibility = Fungible(amount: U128) | NonFungible(instance: AssetInstance)

  /** The kind-only classification used by wildcards. */
  datatype WildFungibility = WildFungible | WildNonFungible

  function FungibilityRank(f: Fungibility): nat
  {
    if f.Fungible? then 0 else 1
  }

  /** The derived order of `Fungibility`: every `Fungible` before every `NonFungible`,
      then by amount or by instance. */
  function CmpFungibility(a: Fungibility, b: Fungibility): Ordering
  {
    match (a, b)
    case (Fungible(x), Fungible(y)) => CmpInt(x, y)
    case (NonFungible(x), NonFungible(y)) => CmpInstance(x, y)
    case _ => CmpInt(FungibilityRank(a), FungibilityRank(b))
  }

  lemma CmpFungibilityEqual(a: Fungibility, b: Fungibility)
    ensures CmpFungibility(a, b) == Equal <==> a == b
  {
    if a.NonFungible? && b.NonFungible? {
      CmpInstanceEqual(a.instance, b.instance);
    }
  }

  lemma CmpFungibilityFlip(a: Fungibility, b: Fungibility)
    ensures CmpFungibility(b, a) == Flip(CmpFungibility(a, b))
  {
    if a.NonFungible? && b.NonFungible? {
      CmpInstanceFlip(a.instance, b.instance);
    }
  }

  lemma CmpFungibilityTrans(a: Fungibility, b: Fungibility, c: Fungibility)
    requires CmpFungibility(a, b) == Less && CmpFungibility(b, c) == Less
    ensures CmpFungibility(a, c) == Less
  {
    if a.NonFungible? && b.NonFungible? && c.NonFungible? {
      CmpInstanceTrans(a.instance, b.instance, c.instance);
    }
  }

  /** `Fungibility::is_kind`. */
  function IsKind(f: Fungibility, w: WildFungibility): (r: bool)
    ensures r <==> f.Fungible? == (w == WildFungible)
  {
    match (f, w)
    case (Fungible(_), WildFungible) => true
    case (NonFungible(_), WildNonFungible) => true
    case _ => false
  }

  /** `From<i32>` for `Fungibility`: `amount as u128` sign-extends a negative amount, so it
      becomes `2^128 + amount`. A zero amount trips a debug assertion. */
  function FungibilityFromI32(amount: int): (r: Fungibility)
    requires -0x8000_0000 <= amount < 0x8000_0000 && amount != 0
    ensures r.Fungible? && r.amount != 0
    ensures r.amount == amount % U128_LIMIT
    ensures r.amount % U32_LIMIT == amount % U32_LIMIT
    ensures amount < 0 ==> r.amount > U128_MAX - 0x8000_0000
  {
    Fungible(if amount >= 0 then amount else U128_LIMIT + amount)
  }

  /** `Fungibility` as the wire format carries it, before the zero-amount check. */
  datatype UncheckedFungibility =
    | UncheckedFungible(rawAmount: U128)
    | UncheckedNonFungible(rawInstance: AssetInstance)

  /** The hand-written `Decode` for `Fungibility`: a fungible amount of zero is malformed. */
  function DecodeFungibility(u: UncheckedFungibility): (r: Result<Fungibility, DecodeError>)
    ensures r.Err? <==> u.UncheckedFungible? && u.rawAmount == 0
    ensures r.Err? ==> r.error == ZeroFungibleAmount
    ensures r.Ok? && u.UncheckedFungible? ==> r.value == Fungible(u.rawAmount) && r.value.amount != 0
    ensures r.Ok? && u.UncheckedNonFungible? ==> r.value == NonFungible(u.rawInstance)
  {
    match u
    case UncheckedFungible(a) => if a != 0 then Ok(Fungible(a)) else Err(ZeroFungibleAmount)
    case UncheckedNonFungible(i) => Ok(NonFungible(i))
  }

  /** What a decodable `Fungibility` encodes to. */
  function EncodeFungibility(f: Fungibility): UncheckedFungibility
  {
    match f
    case Fungible(a) => UncheckedFungible(a)
    case NonFungible(i) => UncheckedNonFungible(i)
  }

  lemma FungibilityDecodeRoundTrip(f: Fungibility)
    ensures DecodeFungibility(EncodeFungibility(f)) == (if f.Fungible? && f.amount == 0
                                                         then Err(ZeroFungibleAmount) else Ok(f))
  {
  }

  // ---------------------------------------------------------------------------
  // MultiLocation (defined outside the core) and AssetId

  /** Stand-in for `MultiLocation`, whose definition is not part of this model: a parent
      count and an interior path of junctions, each junction an abstract ordered code.
      The order mirrors `derive(Ord)`: parents, then the `Junctions` variant (the path
      length), then the junctions lexicographically. */
  datatype MultiLocation = MultiLocation(parents: U8, interior: seq<nat>)

  function CmpLocation(a: MultiLocation, b: MultiLocation): Ordering
  {
    Then(CmpInt(a.parents, b.parents),
         Then(CmpInt(|a.interior|, |b.interior|), CmpLex(a.interior, b.interior)))
  }

  lemma CmpLocationEqual(a: MultiLocation, b: MultiLocation)
    ensures CmpLocation(a, b) == Equal <==> a == b
  {
    CmpLexEqual(a.interior, b.interior);
  }

  lemma CmpLocationFlip(a: MultiLocation, b: MultiLocation)
    ensures CmpLocation(b, a) == Flip(CmpLocation(a, b))
  {
    CmpLexFlip(a.interior, b.interior);
  }

  lemma CmpLocationTrans(a: MultiLocation, b: MultiLocation, c: MultiLocation)
    requires CmpLocation(a, b) == Less && CmpLocation(b, c) == Less
    ensures CmpLocation(a, c) == Less
  {
    if a.parents == b.parents == c.parents && |a.interior| == |b.interior| == |c.interior| {
      CmpLexTrans(a.interior, b.interior, c.interior);
    }
  }

  /** `MultiLocation::reanchor(target, context)` or `MultiLocation::prepend_with(prefix)`,
      with its arguments fixed: `None` when the location cannot be expressed, in which case
      the location is left as it was. */
  type LocationRewrite = MultiLocation -> Option<MultiLocation>

  /** Names an asset class. */
  datatype AssetId = Concrete(location: MultiLocation) | Abstract(name: Bytes32)

  /** The derived order of `AssetId`: `Concrete` before `Abstract`. */
  function CmpAssetId(a: AssetId, b: AssetId): Ordering
  {
    match (a, b)
    case (Concrete(x), Concrete(y)) => CmpLocation(x, y)
    case (Abstract(x), Abstract(y)) => CmpLex(x, y)
    case (Concrete(_), Abstract(_)) => Less
    case (Abstract(_), Concrete(_)) => Greater
  }

  lemma CmpAssetIdEqual(a: AssetId, b: AssetId)
    ensures CmpAssetId(a, b) == Equal <==> a == b
  {
    match (a, b)
    case (Concrete(x), Concrete(y)) => CmpLocationEqual(x, y);
    case (Abstract(x), Abstract(y)) => CmpLexEqual(x, y);
    case _ =>
  }

  lemma CmpAssetIdFlip(a: AssetId, b: AssetId)
    ensures CmpAssetId(b, a) == Flip(CmpAssetId(a, b))
  {
    match (a, b)
    case (Concrete(x), Concrete(y)) => CmpLocationFlip(x, y);
    case (Abstract(x), Abstract(y)) => CmpLexFlip(x, y);
    case _ =>
  }

  lemma CmpAssetIdTrans(a: AssetId, b: AssetId, c: AssetId)
    requires CmpAssetId(a, b) == Less && CmpAssetId(b, c) == Less
    ensures CmpAssetId(a, c) == Less
  {
    if a.Concrete? && b.Concrete? && c.Concrete? {
      CmpLocationTrans(a.location, b.location, c.location);
    } else if a.Abstract? && b.Abstract? && c.Abstract? {
      CmpLexTrans(a.name, b.name, c.name);
    }
  }

  /** `a.id < b.id` in the Rust code. */
  predicate IdLess(a: AssetId, b: AssetId)
  {
    CmpAssetId(a, b) == Less
  }

  /** `AssetId::reanchor` / `AssetId::prepend_with`: rewrites a concrete location; an
      abstract id is left alone. `None` is the error, with the id unchanged. */
  function RewriteId(id: AssetId, f: LocationRewrite): (r: Option<AssetId>)
    ensures id.Abstract? ==> r == Some(id)
    ensures id.Concrete? ==> (r.None? <==> f(id.location).None?)
    ensures id.Concrete? && r.Some? ==> r.value == Concrete(f(id.location).value)
  {
    match id
    case Abstract(_) => Some(id)
    case Concrete(l) =>
      match f(l)
      case None => None
      case Some(l') => Some(Concrete(l'))
  }

  // ---------------------------------------------------------------------------
  // MultiAsset

  /** One concrete holding: an asset class and an amount or instance. */
  datatype MultiAsset = MultiAsset(id: AssetId, fun: Fungibility)

  /** The hand-written `Ord` of `MultiAsset`: any fungible before any non-fungible,
      whatever the ids; otherwise the pair `(id, fun)`. */
  function CmpAsset(a: MultiAsset, b: MultiAsset): Ordering
  {
    match (a.fun, b.fun)
    case (Fungible(_), NonFungible(_)) => Less
    case (NonFungible(_), Fungible(_)) => Greater
    case _ => Then(CmpAssetId(a.id, b.id), CmpFungibility(a.fun, b.fun))
  }

  /** `a < b` for assets. */
  predicate Lt(a: MultiAsset, b: MultiAsset)
  {
    CmpAsset(a, b) == Less
  }

  /** `a <= b` for assets. */
  predicate Le(a: MultiAsset, b: MultiAsset)
  {
    CmpAsset(a, b) != Greater
  }

  /** The order of `MultiAsset` is the lexicographic order of the key (kind, id, fun). */
  lemma CmpAssetIsKeyOrder(a: MultiAsset, b: MultiAsset)
    ensures CmpAsset(a, b) == Then(CmpInt(FungibilityRank(a.fun), FungibilityRank(b.fun)),
                                   Then(CmpAssetId(a.id, b.id), CmpFungibility(a.fun, b.fun)))
  {
  }

  lemma CmpAssetEqual(a: MultiAsset, b: MultiAsset)
    ensures CmpAsset(a, b) == Equal <==> a == b
  {
    CmpAssetIdEqual(a.id, b.id);
    CmpFungibilityEqual(a.fun, b.fun);
  }

  lemma CmpAssetFlip(a: MultiAsset, b: MultiAsset)
    ensures CmpAsset(b, a) == Flip(CmpAsset(a, b))
  {
    CmpAssetIdFlip(a.id, b.id);
    CmpFungibilityFlip(a.fun, b.fun);
  }

  lemma CmpAssetTrans(a: MultiAsset, b: MultiAsset, c: MultiAsset)
    requires Lt(a, b) && Lt(b, c)
    ensures Lt(a, c)
  {
    if FungibilityRank(a.fun) == FungibilityRank(b.fun) == FungibilityRank(c.fun) {
      CmpAssetIdEqual(a.id, b.id);
      CmpAssetIdEqual(b.id, c.id);
      CmpFungibilityEqual(a.fun, b.fun);
      CmpFungibilityEqual(b.fun, c.fun);
      if CmpAssetId(a.id, b.id) == Less && CmpAssetId(b.id, c.id) == Less {
        CmpAssetIdTrans(a.id, b.id, c.id);
      } else if CmpAssetId(a.id, b.id) == Equal && CmpAssetId(b.id, c.id) == Equal {
        CmpFungibilityTrans(a.fun, b.fun, c.fun);
        CmpAssetIdEqual(a.id, c.id);
      }
    }
  }

  /** `Le` is a total order on assets: reflexive, antisymmetric, transitive and total. */
  lemma LeTotalOrder(a: MultiAsset, b: MultiAsset, c: MultiAsset)
    ensures Le(a, a)
    ensures Le(a, b) && Le(b, a) ==> a == b
    ensures Le(a, b) && Le(b, c) ==> Le(a, c)
    ensures Le(a, b) || Le(b, a)
    ensures Lt(a, b) <==> Le(a, b) && a != b
  {
    CmpAssetEqual(a, a);
    CmpAssetEqual(a, b);
    CmpAssetEqual(b, c);
    CmpAssetEqual(a, c);
    CmpAssetFlip(a, b);
    if Lt(a, b) && Lt(b, c) {
      CmpAssetTrans(a, b, c);
    }
  }

  /** Fungibles come first: every fungible asset is below every non-fungible one, whatever
      the ids. */
  lemma FungiblesFirst(a: MultiAsset, b: MultiAsset)
    requires a.fun.Fungible? && b.fun.NonFungible?
    ensures Lt(a, b) && !Le(b, a)
  {
  }

  /** `MultiAsset::is_fungible`: fungible and, when an id is given, of that id. */
  function IsFungible(a: MultiAsset, maybeId: Option<AssetId>): (r: bool)
    ensures r <==> a.fun.Fungible? && (maybeId.Some? ==> maybeId.value == a.id)
  {
    a.fun.Fungible? && (match maybeId case None => true case Some(i) => i == a.id)
  }

  /** `MultiAsset::is_non_fungible`. */
  function IsNonFungible(a: MultiAsset, maybeId: Option<AssetId>): (r: bool)
    ensures r <==> a.fun.NonFungible? && (maybeId.Some? ==> maybeId.value == a.id)
  {
    a.fun.NonFungible? && (match maybeId case None => true case Some(i) => i == a.id)
  }

  /** `MultiAsset::contains`: `outer` is a super-set of `inner`. */
  function Contains(outer: MultiAsset, inner: MultiAsset): (r: bool)
    ensures r <==> outer.id == inner.id
                   && ((outer.fun.Fungible? && inner.fun.Fungible? && outer.fun.amount >= inner.fun.amount)
                       || (outer.fun.NonFungible? && inner.fun.NonFungible? && outer.fun == inner.fun))
  {
    if outer.id == inner.id then
      match (outer.fun, inner.fun)
      case (Fungible(a), Fungible(i)) => a >= i
      case (NonFungible(a), NonFungible(i)) => a == i
      case _ => false
    else
      false
  }

  /** Containment is a partial order on assets. */
  lemma ContainsIsPartialOrder(a: MultiAsset, b: MultiAsset, c: MultiAsset)
    ensures Contains(a, a)
    ensures Contains(a, b) && Contains(b, a) ==> a == b
    ensures Contains(a, b) && Contains(b, c) ==> Contains(a, c)
    ensures Contains(a, b) ==> IsFungible(a, None) == IsFungible(b, None)
  {
  }

  /** `MultiAsset::reanchor` / `prepend_with` / `reanchored`: rewrite the id only. */
  function RewriteAsset(a: MultiAsset, f: LocationRewrite): (r: Option<MultiAsset>)
    ensures r.None? <==> RewriteId(a.id, f).None?
    ensures r.Some? ==> r.value == MultiAsset(RewriteId(a.id, f).value, a.fun)
  {
    match RewriteId(a.id, f)
    case None => None
    case Some(id') => Some(MultiAsset(id', a.fun))
  }
}
