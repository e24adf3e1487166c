/** Address matching of the contracts pallet's pre-compiles. A matcher places a non-zero
    suffix big-endian in bytes 12..20 of a 20-byte address; a `Fixed` matcher answers that one
    address, a `Prefix` matcher every address that differs from it in bytes 0..4 only.
    External pre-compiles put their `u32` in bytes 12..16, builtin ones may use all eight. */
module RevivePrecompiles {
  import opened Wrappers
  import opened Ints

  type NonZeroU32 = x: int | 0 < x < U32_LIMIT witness 1
  type NonZeroU64 = x: int | 0 < x < U64_LIMIT witness 1

  const ADDRESS_LEN: nat := 20
  /** First byte of the suffix field of an address. */
  const SUFFIX_START: nat := 12

  // ---------------------------------------------------------------------------------------
  // Big-endian bytes

  function Pow256(n: nat): (r: nat)
    ensures r >= 1
  {
    if n == 0 then 1 else 256 * Pow256(n - 1)
  }

  lemma Pow256Values()
    ensures Pow256(4) == U32_LIMIT
    ensures Pow256(8) == U64_LIMIT
  {
    assert Pow256(1) == 0x100;
    assert Pow256(2) == 0x1_0000;
    assert Pow256(3) == 0x100_0000;
    assert Pow256(4) == 0x1_0000_0000;
    assert Pow256(5) == 0x100_0000_0000;
    assert Pow256(6) == 0x1_0000_0000_0000;
    assert Pow256(7) == 0x100_0000_0000_0000;
  }

  /** The value of a big-endian byte string. */
  function FromBeBytes(b: seq<U8>): (r: nat)
  {
    if b == [] then 0 else FromBeBytes(b[..|b| - 1]) * 256 + b[|b| - 1]
  }

  /** The low `n` bytes of `x`, most significant first (`to_be_bytes` for `n == 8`). */
  function BeBytes(x: nat, n: nat): (r: seq<U8>)
    ensures |r| == n
  {
    if n == 0 then [] else BeBytes(x / 256, n - 1) + [x % 256]
  }

  /** A big-endian string of `n` bytes is below `256^n`. */
  lemma {:induction false} FromBeBytesBound(b: seq<U8>)
    ensures FromBeBytes(b) < Pow256(|b|)
    decreases |b|
  {
    if b != [] {
      FromBeBytesBound(b[..|b| - 1]);
    }
  }

  /** Encoding a value that fits and decoding it gives the value back. */
  lemma {:induction false} BeBytesRoundTrip(x: nat, n: nat)
    requires x < Pow256(n)
    ensures FromBeBytes(BeBytes(x, n)) == x
    decreases n
  {
    if n > 0 {
      BeBytesRoundTrip(x / 256, n - 1);
      var b := BeBytes(x, n);
      assert b[..|b| - 1] == BeBytes(x / 256, n - 1);
    }
  }

  /** The value of a concatenation: the front shifted by the length of the back. */
  lemma {:induction false} FromBeBytesAppend(x: seq<U8>, y: seq<U8>)
    ensures FromBeBytes(x + y) == FromBeBytes(x) * Pow256(|y|) + FromBeBytes(y)
    decreases |y|
  {
    if y == [] {
      assert x + y == x;
    } else {
      var y', c := y[..|y| - 1], y[|y| - 1];
      assert (x + y)[..|x + y| - 1] == x + y' && (x + y)[|x + y| - 1] == c;
      FromBeBytesAppend(x, y');
      ShiftByte(FromBeBytes(x), Pow256(|y'|), FromBeBytes(y'), c);
    }
  }

  /** Appending a byte shifts the value one byte up. */
  lemma ShiftByte(a: nat, p: nat, b: nat, c: nat)
    ensures (a * p + b) * 256 + c == a * (256 * p) + (b * 256 + c)
  {
  }

  lemma {:induction false} FromBeBytesZeros(n: nat)
    ensures FromBeBytes(seq(n, _ => 0)) == 0
    decreases n
  {
    if n > 0 {
      assert seq(n, _ => 0)[..n - 1] == seq(n - 1, _ => 0);
      FromBeBytesZeros(n - 1);
    }
  }

  // ---------------------------------------------------------------------------------------
  // Matchers

  /** `AddressMatcher`: the matcher of an external pre-compile. */
  datatype AddressMatcher = Fixed(value: NonZeroU32) | Prefix(value: NonZeroU32)

  /** `BuiltinAddressMatcher`: the same with the whole eight-byte suffix. */
  datatype BuiltinAddressMatcher = BuiltinFixed(value: NonZeroU64) | BuiltinPrefix(value: NonZeroU64)

  /** `AddressMatcher::into_builtin`: the same kind with the value shifted left by 32 bits,
      which keeps it non-zero, clears its low 32 bits and puts it above `u32::MAX`. */
  function IntoBuiltin(m: AddressMatcher): (r: BuiltinAddressMatcher)
    ensures r.BuiltinFixed? <==> m.Fixed?
    ensures r.value % U32_LIMIT == 0 && r.value / U32_LIMIT == m.value
    ensures r.value > U32_MAX
  {
    var shifted := m.value * U32_LIMIT;
    match m
    case Fixed(_) => BuiltinFixed(shifted)
    case Prefix(_) => BuiltinPrefix(shifted)
  }

  /** Converting to builtin loses nothing. */
  lemma IntoBuiltinInjective(m1: AddressMatcher, m2: AddressMatcher)
    requires IntoBuiltin(m1) == IntoBuiltin(m2)
    ensures m1 == m2
  {
    assert m1.value == IntoBuiltin(m1).value / U32_LIMIT;
  }

  /** `BuiltinAddressMatcher::suffix`. */
  function Suffix(m: BuiltinAddressMatcher): (r: U64)
    ensures r > 0
  {
    m.value
  }

  /** The first address byte `matches` compares. */
  function MatchStart(m: BuiltinAddressMatcher): (r: nat)
    ensures r <= SUFFIX_START
  {
    match m
    case BuiltinFixed(_) => 0
    case BuiltinPrefix(_) => 4
  }

  /** The address `base_address` builds: twelve zero bytes, then the suffix big-endian. */
  function BaseAddressOf(m: BuiltinAddressMatcher): (r: seq<U8>)
    ensures |r| == ADDRESS_LEN
    ensures forall k :: 0 <= k < SUFFIX_START ==> r[k] == 0
    ensures r[SUFFIX_START..] == BeBytes(Suffix(m), 8)
    ensures FromBeBytes(r[SUFFIX_START..]) == Suffix(m)
  {
    Pow256Values();
    BeBytesRoundTrip(Suffix(m), 8);
    var r := seq(SUFFIX_START, _ => 0) + BeBytes(Suffix(m), 8);
    assert r[SUFFIX_START..] == BeBytes(Suffix(m), 8);
    r
  }

  /** The address `highest_address` builds: the base address, with bytes 0..4 set to `0xFF`
      for a prefix matcher. */
  function HighestAddressOf(m: BuiltinAddressMatcher): (r: seq<U8>)
    ensures |r| == ADDRESS_LEN
    ensures r[4..] == BaseAddressOf(m)[4..]
    ensures m.BuiltinFixed? ==> r == BaseAddressOf(m)
    ensures m.BuiltinPrefix? ==> r[..4] == [0xFF, 0xFF, 0xFF, 0xFF]
  {
    var base := BaseAddressOf(m);
    match m
    case BuiltinFixed(_) => base
    case BuiltinPrefix(_) => [0xFF, 0xFF, 0xFF, 0xFF] + base[4..]
  }

  /** What `matches` decides: the address agrees with the base address from the first
      compared byte on. */
  predicate Matches(m: BuiltinAddressMatcher, address: seq<U8>)
    requires |address| == ADDRESS_LEN
  {
    address[MatchStart(m)..] == BaseAddressOf(m)[MatchStart(m)..]
  }

  /** A matching address spells the suffix in bytes 12..20 and has zero bytes from the first
      compared byte up to them; such an address matches. */
  lemma MatchesLayout(m: BuiltinAddressMatcher, address: seq<U8>)
    requires |address| == ADDRESS_LEN
    ensures Matches(m, address) <==>
              && address[SUFFIX_START..] == BeBytes(Suffix(m), 8)
              && forall k :: MatchStart(m) <= k < SUFFIX_START ==> address[k] == 0
  {
    var s := MatchStart(m);
    var base := BaseAddressOf(m);
    SliceEqPointwise(address, base, s);
    SliceEqPointwise(address, base, SUFFIX_START);
  }

  /** Two equally long sequences agree from `s` on exactly when they agree at each index. */
  lemma SliceEqPointwise(a: seq<U8>, b: seq<U8>, s: nat)
    requires |a| == |b| && s <= |a|
    ensures a[s..] == b[s..] <==> forall k :: s <= k < |a| ==> a[k] == b[k]
  {
    if a[s..] == b[s..] {
      forall k | s <= k < |a| ensures a[k] == b[k] {
        assert a[k] == a[s..][k - s] && b[k] == b[s..][k - s];
      }
    }
    if forall k :: s <= k < |a| ==> a[k] == b[k] {
      forall i | 0 <= i < |a| - s ensures a[s..][i] == b[s..][i] {
        assert a[s..][i] == a[s + i] && b[s..][i] == b[s + i];
      }
      assert a[s..] == b[s..];
    }
  }

  /** An address determines the suffix of every matcher that matches it. */
  lemma MatchDeterminesSuffix(m: BuiltinAddressMatcher, address: seq<U8>)
    requires |address| == ADDRESS_LEN && Matches(m, address)
    ensures FromBeBytes(address[SUFFIX_START..]) == Suffix(m)
  {
    MatchesLayout(m, address);
  }

  /** Two matchers that match the same address have the same suffix. */
  lemma CommonMatchSameSuffix(m1: BuiltinAddressMatcher, m2: BuiltinAddressMatcher, address: seq<U8>)
    requires |address| == ADDRESS_LEN && Matches(m1, address) && Matches(m2, address)
    ensures Suffix(m1) == Suffix(m2)
  {
    MatchDeterminesSuffix(m1, address);
    MatchDeterminesSuffix(m2, address);
  }

  /** A larger front gives a larger value, whatever follows it. */
  lemma FromBeBytesFrontMonotone(x: seq<U8>, y: seq<U8>, back: seq<U8>)
    requires |x| == |y| && FromBeBytes(x) <= FromBeBytes(y)
    ensures FromBeBytes(x + back) <= FromBeBytes(y + back)
  {
    FromBeBytesAppend(x, back);
    FromBeBytesAppend(y, back);
    MulMonotone(FromBeBytes(x), FromBeBytes(y), Pow256(|back|));
  }

  lemma MulMonotone(a: nat, b: nat, p: nat)
    requires a <= b
    ensures a * p <= b * p
  {
    var d := b - a;
    assert b * p == a * p + d * p;
  }

  lemma FromBeBytesAllOnes()
    ensures FromBeBytes([0xFF, 0xFF, 0xFF, 0xFF]) == U32_MAX
  {
    var h1: seq<U8> := [0xFF];
    var h2: seq<U8> := [0xFF, 0xFF];
    var h3: seq<U8> := [0xFF, 0xFF, 0xFF];
    var h4: seq<U8> := [0xFF, 0xFF, 0xFF, 0xFF];
    assert h1[..0] == [];
    assert FromBeBytes(h1) == 0xFF;
    assert h2[..1] == h1;
    assert FromBeBytes(h2) == 0xFFFF;
    assert h3[..2] == h2;
    assert FromBeBytes(h3) == 0xFF_FFFF;
    assert h4[..3] == h3;
  }

  /** Every address a prefix matcher matches lies between its base and highest address. */
  lemma PrefixMatchedRange(m: BuiltinAddressMatcher, address: seq<U8>)
    requires m.BuiltinPrefix? && |address| == ADDRESS_LEN && Matches(m, address)
    ensures FromBeBytes(BaseAddressOf(m)) <= FromBeBytes(address) <= FromBeBytes(HighestAddressOf(m))
  {
    var base := BaseAddressOf(m);
    var high := HighestAddressOf(m);
    var zeros: seq<U8> := seq(4, _ => 0);
    var ones: seq<U8> := [0xFF, 0xFF, 0xFF, 0xFF];
    assert address == address[..4] + base[4..];
    assert base == zeros + base[4..];
    assert high == ones + base[4..];
    FromBeBytesZeros(4);
    FromBeBytesBound(address[..4]);
    Pow256Values();
    FromBeBytesAllOnes();
    FromBeBytesFrontMonotone(zeros, address[..4], base[4..]);
    FromBeBytesFrontMonotone(address[..4], ones, base[4..]);
  }

  /** Every matcher matches its own base and highest address, and every address it matches
      lies between the two (read as big-endian numbers). */
  lemma MatchedRange(m: BuiltinAddressMatcher, address: seq<U8>)
    requires |address| == ADDRESS_LEN
    ensures Matches(m, BaseAddressOf(m)) && Matches(m, HighestAddressOf(m))
    ensures Matches(m, address) ==>
              FromBeBytes(BaseAddressOf(m)) <= FromBeBytes(address) <= FromBeBytes(HighestAddressOf(m))
  {
    var base := BaseAddressOf(m);
    var high := HighestAddressOf(m);
    assert high[MatchStart(m)..] == base[MatchStart(m)..];
    if m.BuiltinPrefix? && Matches(m, address) {
      PrefixMatchedRange(m, address);
    }
  }

  /** Builtin matchers whose suffix fits in `u32` and external matchers never share an
      address: the external range begins above it. */
  lemma BuiltinAndExternalDisjoint(b: BuiltinAddressMatcher, e: AddressMatcher, address: seq<U8>)
    requires |address| == ADDRESS_LEN
    requires Suffix(b) <= U32_MAX
    ensures !(Matches(b, address) && Matches(IntoBuiltin(e), address))
  {
    if Matches(b, address) && Matches(IntoBuiltin(e), address) {
      CommonMatchSameSuffix(b, IntoBuiltin(e), address);
      assert false;
    }
  }

  // ---------------------------------------------------------------------------------------
  // The loops of `BuiltinAddressMatcher`

  /** `BuiltinAddressMatcher::base_address`. */
  method BaseAddress(m: BuiltinAddressMatcher) returns (address: array<U8>)
    ensures fresh(address)
    ensures address[..] == BaseAddressOf(m)
  {
    var suffix := BeBytes(Suffix(m), 8);
    address := new U8[ADDRESS_LEN](_ => 0);
    var i := SUFFIX_START;
    while i < address.Length
      invariant SUFFIX_START <= i <= ADDRESS_LEN
      invariant forall k :: 0 <= k < SUFFIX_START ==> address[k] == 0
      invariant forall k :: SUFFIX_START <= k < i ==> address[k] == suffix[k - SUFFIX_START]
    {
      address[i] := suffix[i - SUFFIX_START];
      i := i + 1;
    }
    var base := BaseAddressOf(m);
    forall k | 0 <= k < ADDRESS_LEN ensures address[k] == base[k] {
      if k >= SUFFIX_START {
        assert base[k] == base[SUFFIX_START..][k - SUFFIX_START];
      }
    }
  }

  /** `BuiltinAddressMatcher::highest_address`. */
  method HighestAddress(m: BuiltinAddressMatcher) returns (address: array<U8>)
    ensures fresh(address)
    ensures address[..] == HighestAddressOf(m)
  {
    address := BaseAddress(m);
    match m {
      case BuiltinFixed(_) =>
      case BuiltinPrefix(_) =>
        address[0] := 0xFF;
        address[1] := 0xFF;
        address[2] := 0xFF;
        address[3] := 0xFF;
        assert address[..] == [0xFF, 0xFF, 0xFF, 0xFF] + BaseAddressOf(m)[4..];
    }
  }

  /** `BuiltinAddressMatcher::matches`: compares from byte 0 (fixed) or byte 4 (prefix). */
  method MatchesAddress(m: BuiltinAddressMatcher, address: array<U8>) returns (r: bool)
    requires address.Length == ADDRESS_LEN
    ensures r == Matches(m, address[..])
  {
    var base := BaseAddress(m);
    var i: nat := match m case BuiltinFixed(_) => 0 case BuiltinPrefix(_) => 4;
    ghost var start := i;
    assert start == MatchStart(m);
    while i < base.Length
      invariant start <= i <= ADDRESS_LEN
      invariant forall k :: start <= k < i ==> address[k] == base[k]
    {
      if address[i] != base[i] {
        assert address[..][start..][i - start] != base[..][start..][i - start];
        return false;
      }
      i := i + 1;
    }
    assert address[..][start..] == base[..][start..];
    return true;
  }

  /** Some two entries share a suffix. */
  ghost predicate HasDuplicateSuffixes(ms: seq<BuiltinAddressMatcher>)
  {
    exists i, j :: 0 <= i < j < |ms| && Suffix(ms[i]) == Suffix(ms[j])
  }

  /** `BuiltinAddressMatcher::has_duplicates`: a fixed and a prefix matcher with the same
      suffix count as duplicates. */
  method HasDuplicates(nums: array<BuiltinAddressMatcher>) returns (r: bool)
    ensures r <==> HasDuplicateSuffixes(nums[..])
  {
    var len := nums.Length;
    var i := 0;
    while i < len
      invariant 0 <= i <= len
      invariant forall a, b :: 0 <= a < i && a < b < len ==> Suffix(nums[a]) != Suffix(nums[b])
    {
      var j := i + 1;
      while j < len
        invariant i + 1 <= j <= len
        invariant forall b :: i < b < j ==> Suffix(nums[i]) != Suffix(nums[b])
        invariant forall a, b :: 0 <= a < i && a < b < len ==> Suffix(nums[a]) != Suffix(nums[b])
      {
        if Suffix(nums[i]) == Suffix(nums[j]) {
          assert nums[..][i] == nums[i] && nums[..][j] == nums[j];
          return true;
        }
        j := j + 1;
      }
      i := i + 1;
    }
    assert forall a, b :: 0 <= a < b < len ==> nums[..][a] == nums[a] && nums[..][b] == nums[b];
    return false;
  }

  // ---------------------------------------------------------------------------------------
  // Sets of pre-compiles

  /** `Kind`: whether the pre-compile keeps contract info. */
  datatype Kind = NoContractInfo | WithContractInfo

  /** One pre-compile of a set: its `MATCHER` and `HAS_CONTRACT_INFO`. The tuple of
      pre-compiles becomes a list, in tuple order. */
  datatype Precompile = Precompile(matcher: BuiltinAddressMatcher, hasContractInfo: bool)

  /** An external pre-compile, before `into_builtin`. */
  datatype PublicPrecompile = PublicPrecompile(matcher: AddressMatcher, hasContractInfo: bool)

  /** The blanket implementation that makes an external pre-compile a builtin one. */
  function AsBuiltin(p: PublicPrecompile): (r: Precompile)
    ensures r.matcher == IntoBuiltin(p.matcher) && r.hasContractInfo == p.hasContractInfo
  {
    Precompile(IntoBuiltin(p.matcher), p.hasContractInfo)
  }

  function KindOf(hasContractInfo: bool): (r: Kind)
    ensures r.WithContractInfo? <==> hasContractInfo
  {
    if hasContractInfo then WithContractInfo else NoContractInfo
  }

  function Matchers(ps: seq<Precompile>): (r: seq<BuiltinAddressMatcher>)
    ensures |r| == |ps| && forall i :: 0 <= i < |ps| ==> r[i] == ps[i].matcher
  {
    seq(|ps|, i requires 0 <= i < |ps| => ps[i].matcher)
  }

  /** The index of the first pre-compile of the list that matches `address`, or `|ps|`. */
  function FirstMatch(ps: seq<Precompile>, address: seq<U8>): (k: nat)
    requires |address| == ADDRESS_LEN
    ensures k <= |ps|
    ensures k < |ps| ==> Matches(ps[k].matcher, address)
    ensures forall j :: 0 <= j < k ==> !Matches(ps[j].matcher, address)
    decreases |ps|
  {
    if ps == [] then 0
    else if Matches(ps[0].matcher, address) then 0
    else
      assert forall j :: 0 < j < |ps| ==> ps[j] == ps[1..][j - 1];
      1 + FirstMatch(ps[1..], address)
  }

  /** The kind of the first pre-compile of the list that matches `address`. */
  function FirstMatchKind(ps: seq<Precompile>, address: seq<U8>): (r: Option<Kind>)
    requires |address| == ADDRESS_LEN
    ensures r.None? <==> forall i :: 0 <= i < |ps| ==> !Matches(ps[i].matcher, address)
    ensures r.Some? ==> exists i :: 0 <= i < |ps| && Matches(ps[i].matcher, address)
                                    && r.value == KindOf(ps[i].hasContractInfo)
                                    && forall j :: 0 <= j < i ==> !Matches(ps[j].matcher, address)
  {
    var k := FirstMatch(ps, address);
    if k == |ps| then None else Some(KindOf(ps[k].hasContractInfo))
  }

  /** `Precompiles::kind` of a tuple: the first matching entry decides. */
  method KindLookup(ps: seq<Precompile>, address: array<U8>) returns (r: Option<Kind>)
    requires address.Length == ADDRESS_LEN
    ensures r == FirstMatchKind(ps, address[..])
  {
    var i := 0;
    while i < |ps|
      invariant 0 <= i <= |ps|
      invariant forall j :: 0 <= j < i ==> !Matches(ps[j].matcher, address[..])
    {
      var m := MatchesAddress(ps[i].matcher, address);
      if m {
        assert FirstMatch(ps, address[..]) == i;
        if ps[i].hasContractInfo {
          return Some(WithContractInfo);
        } else {
          return Some(NoContractInfo);
        }
      }
      i := i + 1;
    }
    assert FirstMatch(ps, address[..]) == |ps|;
    return None;
  }

  /** `Precompiles::kind` of the pair (builtins, externals): the builtins are consulted
      first. */
  method CombinedKind(builtins: seq<Precompile>, externals: seq<PublicPrecompile>, address: array<U8>)
      returns (r: Option<Kind>)
    requires address.Length == ADDRESS_LEN
    ensures var fromBuiltin := FirstMatchKind(builtins, address[..]);
            r == if fromBuiltin.Some? then fromBuiltin
                 else FirstMatchKind(seq(|externals|, i requires 0 <= i < |externals| => AsBuiltin(externals[i])), address[..])
  {
    r := KindLookup(builtins, address);
    if r.None? {
      var ext := seq(|externals|, i requires 0 <= i < |externals| => AsBuiltin(externals[i]));
      r := KindLookup(ext, address);
    }
  }

  /** `USES_EXTERNAL_RANGE` of a tuple: whether some suffix exceeds `u32::MAX`. */
  method UsesExternalRange(ps: seq<Precompile>) returns (usesExternal: bool)
    ensures usesExternal <==> exists i :: 0 <= i < |ps| && Suffix(ps[i].matcher) > U32_MAX
  {
    usesExternal := false;
    var i := 0;
    while i < |ps|
      invariant 0 <= i <= |ps|
      invariant usesExternal <==> exists k :: 0 <= k < i && Suffix(ps[k].matcher) > U32_MAX
    {
      if Suffix(ps[i].matcher) > U32_MAX {
        usesExternal := true;
      }
      i := i + 1;
    }
  }

  /** Without duplicate suffixes at most one pre-compile of a set matches an address, so
      the first match is the only match and the tuple order does not matter. */
  lemma UniqueMatch(ps: seq<Precompile>, address: seq<U8>, i: nat, j: nat)
    requires |address| == ADDRESS_LEN
    requires !HasDuplicateSuffixes(Matchers(ps))
    requires i < |ps| && j < |ps|
    requires Matches(ps[i].matcher, address) && Matches(ps[j].matcher, address)
    ensures i == j
  {
    CommonMatchSameSuffix(ps[i].matcher, ps[j].matcher, address);
    var ms := Matchers(ps);
    assert Suffix(ms[i]) == Suffix(ms[j]);
  }

  /** When no builtin uses the external range, an address answered by a builtin is
      answered by no external pre-compile: which set is consulted first does not matter. */
  lemma BuiltinsShadowNothing(builtins: seq<Precompile>, externals: seq<PublicPrecompile>, address: seq<U8>)
    requires |address| == ADDRESS_LEN
    requires forall i :: 0 <= i < |builtins| ==> Suffix(builtins[i].matcher) <= U32_MAX
    ensures var ext := seq(|externals|, i requires 0 <= i < |externals| => AsBuiltin(externals[i]));
            FirstMatchKind(builtins, address).Some? ==> FirstMatchKind(ext, address).None?
  {
    var ext := seq(|externals|, i requires 0 <= i < |externals| => AsBuiltin(externals[i]));
    if FirstMatchKind(builtins, address).Some? {
      var b :| 0 <= b < |builtins| && Matches(builtins[b].matcher, address);
      forall e | 0 <= e < |ext| ensures !Matches(ext[e].matcher, address) {
        BuiltinAndExternalDisjoint(builtins[b].matcher, externals[e].matcher, address);
      }
    }
  }

  // ---------------------------------------------------------------------------------------
  // The external matcher's methods delegate to the builtin form

  /** `AddressMatcher::base_address`: the `u32` lands in bytes 12..16. */
  method PublicBaseAddress(m: AddressMatcher) returns (address: array<U8>)
    ensures fresh(address)
    ensures address[..] == BaseAddressOf(IntoBuiltin(m))
  {
    address := BaseAddress(IntoBuiltin(m));
  }

  /** `AddressMatcher::highest_address`. */
  method PublicHighestAddress(m: AddressMatcher) returns (address: array<U8>)
    ensures fresh(address)
    ensures address[..] == HighestAddressOf(IntoBuiltin(m))
  {
    address := HighestAddress(IntoBuiltin(m));
  }

  /** `AddressMatcher::matches`. */
  method PublicMatches(m: AddressMatcher, address: array<U8>) returns (r: bool)
    requires address.Length == ADDRESS_LEN
    ensures r == Matches(IntoBuiltin(m), address[..])
  {
    r := MatchesAddress(IntoBuiltin(m), address);
  }

  /** An external matcher's base address carries its value in bytes 12..16 and zeros in
      bytes 16..20. */
  lemma PublicBaseAddressLayout(m: AddressMatcher)
    ensures FromBeBytes(BaseAddressOf(IntoBuiltin(m))[SUFFIX_START..SUFFIX_START + 4]) == m.value
    ensures BaseAddressOf(IntoBuiltin(m))[SUFFIX_START + 4..] == [0, 0, 0, 0]
  {
    var base := BaseAddressOf(IntoBuiltin(m));
    var s := base[SUFFIX_START..];
    Pow256Values();
    BeBytesLowZero(m.value, 4, 4);
    assert s == BeBytes(m.value * Pow256(4), 8);
    assert s[..4] == base[SUFFIX_START..SUFFIX_START + 4];
    assert s[4..] == base[SUFFIX_START + 4..];
    BeBytesRoundTrip(m.value, 4);
  }

  /** Shifting left by `k` bytes appends `k` zero bytes. */
  lemma {:induction false} BeBytesLowZero(x: nat, n: nat, k: nat)
    ensures BeBytes(x * Pow256(k), n + k) == BeBytes(x, n) + seq(k, _ => 0)
    decreases k
  {
    if k > 0 {
      var y := x * Pow256(k);
      assert y == (x * Pow256(k - 1)) * 256;
      assert y / 256 == x * Pow256(k - 1) && y % 256 == 0;
      BeBytesLowZero(x, n, k - 1);
      assert seq(k, _ => 0) == seq(k - 1, _ => 0) + [0];
    }
  }

  // ---------------------------------------------------------------------------------------
  // The examples of the unit tests

  const Matcher1: Precompile := Precompile(BuiltinFixed(0x42), true)
  const Matcher2: Precompile := Precompile(BuiltinPrefix(0x88), false)

  /** An address from its first bytes and its last byte, zeros in between. */
  function Address(front: seq<U8>, last: U8): (r: seq<U8>)
    requires |front| < ADDRESS_LEN
    ensures |r| == ADDRESS_LEN && r[..|front|] == front && r[ADDRESS_LEN - 1] == last
    ensures forall k :: 0 <= k < |front| ==> r[k] == front[k]
    ensures forall k :: |front| <= k < ADDRESS_LEN - 1 ==> r[k] == 0
  {
    front + seq(ADDRESS_LEN - 1 - |front|, _ => 0) + [last]
  }

  lemma {:induction false} BeBytesOfZero(n: nat)
    ensures BeBytes(0, n) == seq(n, _ => 0)
    decreases n
  {
    if n > 0 {
      BeBytesOfZero(n - 1);
      assert seq(n, _ => 0) == seq(n - 1, _ => 0) + [0];
    }
  }

  /** A value below 256 takes the last of the `n` bytes. */
  lemma SmallBeBytes(x: U8, n: nat)
    requires n > 0
    ensures BeBytes(x, n) == seq(n - 1, _ => 0) + [x]
  {
    BeBytesOfZero(n - 1);
  }

  /** `kind` of a two-element set. */
  lemma FirstMatchKindOfPair(p: Precompile, q: Precompile, address: seq<U8>)
    requires |address| == ADDRESS_LEN
    ensures FirstMatchKind([p, q], address) ==
              if Matches(p.matcher, address) then Some(KindOf(p.hasContractInfo))
              else if Matches(q.matcher, address) then Some(KindOf(q.hasContractInfo))
              else None
  {
    var ps := [p, q];
    assert ps[0] == p && ps[1..] == [q] && [q][0] == q && [q][1..] == [];
    if !Matches(p.matcher, address) {
      assert FirstMatch(ps, address) == 1 + FirstMatch([q], address);
      if !Matches(q.matcher, address) {
        assert FirstMatch([q], address) == 1 + FirstMatch([], address);
      }
    }
  }

  /** The base and highest addresses of the builtin test matchers. */
  lemma BuiltinMatcherAddresses()
    ensures BaseAddressOf(Matcher1.matcher) == Address([], 0x42)
    ensures HighestAddressOf(Matcher1.matcher) == BaseAddressOf(Matcher1.matcher)
    ensures BaseAddressOf(Matcher2.matcher) == Address([], 0x88)
    ensures HighestAddressOf(Matcher2.matcher) == Address([0xFF, 0xFF, 0xFF, 0xFF], 0x88)
  {
    SmallBeBytes(0x42, 8);
    SmallBeBytes(0x88, 8);
    assert BaseAddressOf(Matcher2.matcher)[4..] == Address([0xFF, 0xFF, 0xFF, 0xFF], 0x88)[4..];
  }

  /** A difference at a compared byte rules a match out. */
  lemma Mismatch(m: BuiltinAddressMatcher, address: seq<U8>, k: nat)
    requires |address| == ADDRESS_LEN && MatchStart(m) <= k < ADDRESS_LEN
    requires address[k] != BaseAddressOf(m)[k]
    ensures !Matches(m, address)
  {
    var s := MatchStart(m);
    assert address[s..][k - s] != BaseAddressOf(m)[s..][k - s];
  }

  /** Equal bytes from byte 4 on make a prefix match. */
  lemma PrefixHit(m: BuiltinAddressMatcher, address: seq<U8>)
    requires m.BuiltinPrefix? && |address| == ADDRESS_LEN
    requires forall k :: 4 <= k < ADDRESS_LEN ==> address[k] == BaseAddressOf(m)[k]
    ensures Matches(m, address)
  {
    assert address[4..] == BaseAddressOf(m)[4..];
  }

  /** `kind` of the test set (fixed `0x42` with contract info, then prefix `0x88`) on
      addresses that match nothing. */
  lemma CollectionKindMisses()
    ensures FirstMatchKind([Matcher1, Matcher2], Address([0x10], 0x43)).None?
    ensures FirstMatchKind([Matcher1, Matcher2], Address([0x10], 0x42)).None?
    ensures FirstMatchKind([Matcher1, Matcher2], Address([0, 0, 0, 0, 0x10], 0x88)).None?
  {
    BuiltinMatcherAddresses();
    var a1 := Address([0x10], 0x43);
    FirstMatchKindOfPair(Matcher1, Matcher2, a1);
    Mismatch(Matcher1.matcher, a1, 19);
    Mismatch(Matcher2.matcher, a1, 19);
    var a3 := Address([0x10], 0x42);
    FirstMatchKindOfPair(Matcher1, Matcher2, a3);
    Mismatch(Matcher1.matcher, a3, 0);
    Mismatch(Matcher2.matcher, a3, 19);
    var a7 := Address([0, 0, 0, 0, 0x10], 0x88);
    FirstMatchKindOfPair(Matcher1, Matcher2, a7);
    Mismatch(Matcher1.matcher, a7, 19);
    Mismatch(Matcher2.matcher, a7, 4);
  }

  /** `kind` of the test set on its fixed address. */
  lemma CollectionKindFixedHit()
    ensures FirstMatchKind([Matcher1, Matcher2], Address([], 0x42)) == Some(WithContractInfo)
  {
    BuiltinMatcherAddresses();
    FirstMatchKindOfPair(Matcher1, Matcher2, Address([], 0x42));
  }

  /** `kind` of the test set on any address that ends like the prefix matcher's: whatever
      the first four bytes are, the prefix pre-compile answers. */
  lemma CollectionKindPrefixHit(front: seq<U8>)
    requires |front| <= 4
    ensures FirstMatchKind([Matcher1, Matcher2], Address(front, 0x88)) == Some(NoContractInfo)
  {
    BuiltinMatcherAddresses();
    var a := Address(front, 0x88);
    FirstMatchKindOfPair(Matcher1, Matcher2, a);
    Mismatch(Matcher1.matcher, a, 19);
    PrefixHit(Matcher2.matcher, a);
  }

  /** The prefix hits of the unit test. */
  lemma CollectionKindPrefixExamples()
    ensures FirstMatchKind([Matcher1, Matcher2], Address([], 0x88)) == Some(NoContractInfo)
    ensures FirstMatchKind([Matcher1, Matcher2], Address([0x22], 0x88)) == Some(NoContractInfo)
    ensures FirstMatchKind([Matcher1, Matcher2], Address([0x00, 0x10], 0x88)) == Some(NoContractInfo)
  {
    CollectionKindPrefixHit([]);
    CollectionKindPrefixHit([0x22]);
    CollectionKindPrefixHit([0x00, 0x10]);
  }

  /** The addresses of the external test matchers: the value sits in bytes 12..16. */
  lemma PublicFixedAddresses()
    ensures BaseAddressOf(IntoBuiltin(Fixed(0x42))) == Address([0, 0, 0, 0, 0, 0, 0, 0, 0, 0, 0, 0, 0, 0, 0, 0x42], 0)
    ensures HighestAddressOf(IntoBuiltin(Fixed(0x42))) == BaseAddressOf(IntoBuiltin(Fixed(0x42)))
  {
    Pow256Values();
    BeBytesLowZero(0x42, 4, 4);
    SmallBeBytes(0x42, 4);
  }

  lemma PublicPrefixAddresses()
    ensures BaseAddressOf(IntoBuiltin(Prefix(0x8))) == Address([0, 0, 0, 0, 0, 0, 0, 0, 0, 0, 0, 0, 0, 0, 0, 0x8], 0)
    ensures HighestAddressOf(IntoBuiltin(Prefix(0x8))) == Address([0xFF, 0xFF, 0xFF, 0xFF, 0, 0, 0, 0, 0, 0, 0, 0, 0, 0, 0, 0x8], 0)
  {
    Pow256Values();
    BeBytesLowZero(0x8, 4, 4);
    SmallBeBytes(0x8, 4);
    assert BaseAddressOf(IntoBuiltin(Prefix(0x8)))[4..] == Address([0xFF, 0xFF, 0xFF, 0xFF, 0, 0, 0, 0, 0, 0, 0, 0, 0, 0, 0, 0x8], 0)[4..];
  }
}
