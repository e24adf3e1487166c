/** Three-way comparisons as Rust's `Ord` defines them: on integers, lexicographic
    combination of fields (what `derive(Ord)` generates), and slices/arrays, which compare
    element by element with a proper prefix first. */
module Order {
  import opened Wrappers

  function Flip(o: Ordering): Ordering
  {
    match o
    case Less => Greater
    case Equal => Equal
    case Greater => Less
  }

  function CmpInt(a: int, b: int): (r: Ordering)
    ensures r == Equal <==> a == b
    ensures r == Less <==> a < b
  {
    if a < b then Less else if a == b then Equal else Greater
  }

  /** `Ordering::then`: the second comparison decides only a tie of the first. */
  function Then(first: Ordering, second: Ordering): Ordering
  {
    if first == Equal then second else first
  }

  /** Lexicographic comparison of slices (Rust's `Ord` for `[T]` and `[T; N]`). */
  function CmpLex(a: seq<int>, b: seq<int>): Ordering
    decreases |a|
  {
    if |a| == 0 then (if |b| == 0 then Equal else Less)
    else if |b| == 0 then Greater
    else Then(CmpInt(a[0], b[0]), CmpLex(a[1..], b[1..]))
  }

  lemma {:induction false} CmpLexEqual(a: seq<int>, b: seq<int>)
    ensures CmpLex(a, b) == Equal <==> a == b
    decreases |a|
  {
    if |a| > 0 && |b| > 0 {
      CmpLexEqual(a[1..], b[1..]);
      if a[0] == b[0] && a[1..] == b[1..] {
        assert a == [a[0]] + a[1..] && b == [b[0]] + b[1..];
      }
    }
  }

  lemma {:induction false} CmpLexFlip(a: seq<int>, b: seq<int>)
    ensures CmpLex(b, a) == Flip(CmpLex(a, b))
    decreases |a|
  {
    if |a| > 0 && |b| > 0 {
      CmpLexFlip(a[1..], b[1..]);
    }
  }

  lemma {:induction false} CmpLexTrans(a: seq<int>, b: seq<int>, c: seq<int>)
    requires CmpLex(a, b) == Less && CmpLex(b, c) == Less
    ensures CmpLex(a, c) == Less
    decreases |a|
  {
    if |a| > 0 && |b| > 0 && |c| > 0 {
      if a[0] == b[0] && b[0] == c[0] {
        CmpLexTrans(a[1..], b[1..], c[1..]);
      }
    }
  }
}
