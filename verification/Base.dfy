/** Small shared vocabulary: optional and fallible values, bytes, and integer ranges as sets. */
module Base {
  datatype Option<+T> = None | Some(value: T)

  datatype Result<+T, +E> = Ok(value: T) | Err(error: E)

  type Byte = n: int | 0 <= n < 256

  const MAX_INT64: int := 0x7FFF_FFFF_FFFF_FFFF

  function Min(a: int, b: int): int { if a < b then a else b }

  function Max(a: int, b: int): int { if a < b then b else a }

  function Pow2(k: nat): int { if k == 0 then 1 else 2 * Pow2(k - 1) }

  lemma {:induction false} PowPositive(k: nat)
    ensures 1 <= Pow2(k)
  {
    if k > 0 { PowPositive(k - 1); }
  }

  /** The byte offsets of the half-open range [start, end); empty when the range is inverted. */
  function Range(start: int, end: int): (r: set<int>)
    ensures forall x :: x in r <==> start <= x < end
    decreases end - start
  {
    if end <= start then {} else Range(start, end - 1) + {end - 1}
  }

  lemma RangeSize(start: int, end: int)
    ensures |Range(start, end)| == Max(end - start, 0)
    decreases end - start
  {
    if start < end {
      RangeSize(start, end - 1);
    }
  }

  lemma SubsetSize<T>(a: set<T>, b: set<T>)
    requires a <= b
    ensures |a| <= |b|
  {
    assert b == a + (b - a);
    assert |b| == |a| + |b - a|;
  }

  lemma OutsideOf(a: set<int>, b: set<int>) returns (x: int)
    requires !(a <= b)
    ensures x in a && x !in b
  {
    if y :| y in a && y !in b {
      x := y;
    } else {
      assert forall y :: y in a ==> y in b;
    }
  }

  lemma Inhabited(s: set<int>)
    ensures |s| == 0 || exists x :: x in s
  {
    if x :| x in s {
    } else {
      assert forall x :: x !in s;
      assert s == {};
    }
  }
}
