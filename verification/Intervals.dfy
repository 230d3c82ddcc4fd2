/**
 The coalesced byte-range set of pkg/transfer/interval.go, the durable record of which
 bytes of a file are on disk.

 `Insert` and `Complement` are the simple left-to-right forms; the class `IntervalSet` holds
 the program's own loops (binary search, in-place splice, running cursors), each proved to
 compute the simple form, whose meaning as a set of byte offsets is proved once.
 */
module Intervals {
  import opened Base

  datatype Interval = Interval(start: int, end: int)

  /** Non-empty ranges in increasing order, neither overlapping nor adjacent. */
  predicate Canonical(iv: seq<Interval>) {
    iv == [] ||
    (&& iv[0].start < iv[0].end
     && (|iv| > 1 ==> iv[0].end < iv[1].start)
     && Canonical(iv[1..]))
  }

  /** Every range lies inside [0, size]. */
  predicate Within(iv: seq<Interval>, size: int) {
    forall i | 0 <= i < |iv| :: 0 <= iv[i].start && iv[i].end <= size
  }

  /** The set of byte offsets a list of ranges denotes. */
  function Bytes(iv: seq<Interval>): set<int> {
    if iv == [] then {} else Range(iv[0].start, iv[0].end) + Bytes(iv[1..])
  }

  function Total(iv: seq<Interval>): int {
    if iv == [] then 0 else iv[0].end - iv[0].start + Total(iv[1..])
  }

  /** Merge [start, end) into an ordered list, one range at a time. */
  function Insert(iv: seq<Interval>, start: int, end: int): seq<Interval> {
    if end <= start then iv
    else if iv == [] then [Interval(start, end)]
    else if iv[0].end < start then [iv[0]] + Insert(iv[1..], start, end)
    else if end < iv[0].start then [Interval(start, end)] + iv
    else Insert(iv[1..], Min(start, iv[0].start), Max(end, iv[0].end))
  }

  /** The gaps of an ordered list from `next` up to `total`. */
  function Complement(iv: seq<Interval>, next: int, total: int): seq<Interval> {
    if iv == [] then
      if next < total then [Interval(next, total)] else []
    else
      var gap := if iv[0].start > next then [Interval(next, Min(iv[0].start, total))] else [];
      var next' := Max(next, iv[0].end);
      if next' >= total then gap else gap + Complement(iv[1..], next', total)
  }

  // ---------------------------------------------------------------- denotation

  /** A canonical list has no byte before its first range. */
  lemma {:induction false} BytesAbove(iv: seq<Interval>)
    requires Canonical(iv) && iv != []
    ensures iv[0].start in Bytes(iv)
    ensures forall x | x in Bytes(iv) :: iv[0].start <= x
  {
    if |iv| > 1 { BytesAbove(iv[1..]); }
  }

  lemma TailAbove(iv: seq<Interval>)
    requires Canonical(iv) && iv != []
    ensures forall x | x in Bytes(iv[1..]) :: iv[0].end < x
  {
  }

  lemma {:induction false} BytesConcat(a: seq<Interval>, b: seq<Interval>)
    ensures Bytes(a + b) == Bytes(a) + Bytes(b)
  {
    if a == [] {
      assert a + b == b;
    } else {
      assert (a + b)[1..] == a[1..] + b;
      BytesConcat(a[1..], b);
    }
  }

  lemma {:induction false} TotalConcat(a: seq<Interval>, b: seq<Interval>)
    ensures Total(a + b) == Total(a) + Total(b)
  {
    if a == [] {
      assert a + b == b;
    } else {
      assert (a + b)[1..] == a[1..] + b;
      TotalConcat(a[1..], b);
    }
  }

  /** A canonical list counts each of its bytes once. */
  lemma {:induction false} TotalIsCardinality(iv: seq<Interval>)
    requires Canonical(iv)
    ensures Total(iv) == |Bytes(iv)|
  {
    if iv != [] {
      TotalIsCardinality(iv[1..]);
      RangeSize(iv[0].start, iv[0].end);
      TailAbove(iv);
      assert Range(iv[0].start, iv[0].end) !! Bytes(iv[1..]);
    }
  }

  lemma {:induction false} WithinBytes(iv: seq<Interval>, size: int)
    requires Within(iv, size)
    ensures Bytes(iv) <= Range(0, size)
  {
    if iv != [] { WithinBytes(iv[1..], size); }
  }

  /** A canonical list whose bytes lie in [0, size) lies there range by range. */
  lemma {:induction false} BytesWithin(iv: seq<Interval>, size: int)
    requires Canonical(iv) && Bytes(iv) <= Range(0, size)
    ensures Within(iv, size)
  {
    if iv != [] {
      BytesWithin(iv[1..], size);
      assert iv[0].start in Bytes(iv) && iv[0].end - 1 in Bytes(iv);
    }
  }

  /** Canonical form is a normal form: equal byte sets have equal lists. */
  lemma {:induction false} CanonicalUnique(a: seq<Interval>, b: seq<Interval>)
    requires Canonical(a) && Canonical(b) && Bytes(a) == Bytes(b)
    ensures a == b
  {
    if a != [] { BytesAbove(a); TailAbove(a); }
    if b != [] { BytesAbove(b); TailAbove(b); }
    if a != [] && b != [] {
      assert a[0].end !in Bytes(a) && b[0].end !in Bytes(b);
      assert a[0].end - 1 in Bytes(a) && b[0].end - 1 in Bytes(b);
      assert a[0] == b[0];
      assert Bytes(a[1..]) == Bytes(a) - Range(a[0].start, a[0].end);
      assert Bytes(b[1..]) == Bytes(b) - Range(b[0].start, b[0].end);
      CanonicalUnique(a[1..], b[1..]);
      assert a == [a[0]] + a[1..] && b == [b[0]] + b[1..];
    }
  }

  // ---------------------------------------------------------------- Insert

  lemma {:induction false} InsertBytes(iv: seq<Interval>, start: int, end: int)
    ensures Bytes(Insert(iv, start, end)) == Bytes(iv) + Range(start, end)
  {
    if end <= start || iv == [] {
    } else if iv[0].end < start {
      InsertBytes(iv[1..], start, end);
      assert ([iv[0]] + Insert(iv[1..], start, end))[1..] == Insert(iv[1..], start, end);
    } else if end < iv[0].start {
      assert ([Interval(start, end)] + iv)[1..] == iv;
    } else {
      HullRange(iv[0], start, end);
      InsertBytes(iv[1..], Min(start, iv[0].start), Max(end, iv[0].end));
    }
  }

  lemma HullRange(v: Interval, start: int, end: int)
    requires start < end && start <= v.end && v.start <= end
    ensures Range(Min(start, v.start), Max(end, v.end)) == Range(start, end) + Range(v.start, v.end)
  {
  }

  /** Insert keeps the list canonical and starts no earlier than both arguments. */
  lemma {:induction false} InsertCanonical(iv: seq<Interval>, start: int, end: int)
    requires Canonical(iv)
    ensures Canonical(Insert(iv, start, end))
    ensures start < end ==> Insert(iv, start, end) != []
    ensures start < end ==> Insert(iv, start, end)[0].start == (if iv == [] then start else Min(start, iv[0].start))
  {
    if end <= start || iv == [] {
    } else if iv[0].end < start {
      InsertCanonical(iv[1..], start, end);
      assert ([iv[0]] + Insert(iv[1..], start, end))[1..] == Insert(iv[1..], start, end);
    } else if end < iv[0].start {
      assert ([Interval(start, end)] + iv)[1..] == iv;
    } else {
      InsertCanonical(iv[1..], Min(start, iv[0].start), Max(end, iv[0].end));
    }
  }

  lemma {:induction false} InsertWithin(iv: seq<Interval>, start: int, end: int, size: int)
    requires Within(iv, size) && 0 <= start && end <= size
    ensures Within(Insert(iv, start, end), size)
  {
    if end <= start || iv == [] {
    } else if iv[0].end < start {
      InsertWithin(iv[1..], start, end, size);
    } else if end < iv[0].start {
    } else {
      InsertWithin(iv[1..], Min(start, iv[0].start), Max(end, iv[0].end), size);
    }
  }

  function InsertAll(iv: seq<Interval>, adds: seq<Interval>): seq<Interval>
    decreases |adds|
  {
    if adds == [] then iv else InsertAll(Insert(iv, adds[0].start, adds[0].end), adds[1..])
  }

  /** Any sequence of additions, overlapping, empty or inverted ones included, denotes the union. */
  lemma {:induction false} InsertAllSound(iv: seq<Interval>, adds: seq<Interval>)
    requires Canonical(iv)
    ensures Canonical(InsertAll(iv, adds))
    ensures Bytes(InsertAll(iv, adds)) == Bytes(iv) + Bytes(adds)
    decreases |adds|
  {
    if adds != [] {
      InsertCanonical(iv, adds[0].start, adds[0].end);
      InsertBytes(iv, adds[0].start, adds[0].end);
      InsertAllSound(Insert(iv, adds[0].start, adds[0].end), adds[1..]);
    }
  }

  /** The order and the cutting of additions never show in the result. */
  lemma InsertAllOrderFree(iv: seq<Interval>, a: seq<Interval>, b: seq<Interval>)
    requires Canonical(iv) && Bytes(a) == Bytes(b)
    ensures InsertAll(iv, a) == InsertAll(iv, b)
  {
    InsertAllSound(iv, a);
    InsertAllSound(iv, b);
    CanonicalUnique(InsertAll(iv, a), InsertAll(iv, b));
  }

  // ---------------------------------------------------------------- Complement

  lemma {:induction false} ComplementBytes(iv: seq<Interval>, next: int, total: int)
    requires Canonical(iv)
    ensures Bytes(Complement(iv, next, total)) == Range(next, total) - Bytes(iv)
  {
    if iv != [] {
      var gap := if iv[0].start > next then [Interval(next, Min(iv[0].start, total))] else [];
      var next' := Max(next, iv[0].end);
      TailAbove(iv);
      if next' < total {
        ComplementBytes(iv[1..], next', total);
        BytesConcat(gap, Complement(iv[1..], next', total));
      }
    }
  }

  /** Started below `total`, the gaps are themselves canonical and start at or after `next`. */
  lemma {:induction false} ComplementCanonical(iv: seq<Interval>, next: int, total: int)
    requires Canonical(iv) && next < total
    ensures var out := Complement(iv, next, total);
            Canonical(out) && forall i | 0 <= i < |out| :: next <= out[i].start && out[i].end <= total
  {
    if iv != [] {
      var gap := if iv[0].start > next then [Interval(next, Min(iv[0].start, total))] else [];
      var next' := Max(next, iv[0].end);
      if next' < total {
        var rest := Complement(iv[1..], next', total);
        ComplementCanonical(iv[1..], next', total);
        if gap != [] { assert (gap + rest)[1..] == rest; } else { assert gap + rest == rest; }
      }
    }
  }

  /** A canonical list without a byte is the empty list. */
  lemma EmptyIffNoBytes(iv: seq<Interval>)
    requires Canonical(iv)
    ensures iv == [] <==> Bytes(iv) == {}
  {
  }

  // ---------------------------------------------------------------- the in-place form

  /** In a canonical list, ends and starts increase strictly with the position. */
  lemma {:induction false} Separated(iv: seq<Interval>, i: int, j: int)
    requires Canonical(iv) && 0 <= i <= j < |iv|
    ensures iv[j].start < iv[j].end
    ensures i < j ==> iv[i].end < iv[j].start
    decreases j
  {
    if j > 0 {
      if i > 0 {
        Separated(iv[1..], i - 1, j - 1);
      } else {
        Separated(iv[1..], 0, j - 1);
      }
    }
  }

  lemma AllSeparated(iv: seq<Interval>)
    requires Canonical(iv)
    ensures forall i, j | 0 <= i <= j < |iv| :: iv[i].end <= iv[j].end
  {
  }

  lemma TouchedBefore(iv: seq<Interval>, i: int, j: int)
    requires Canonical(iv) && 0 <= i <= j <= |iv|
    ensures j < |iv| ==> forall v | v in iv[i..j] :: v.end < iv[j].start
  {
    forall k | i <= k < j ensures j < |iv| ==> iv[k].end < iv[j].start {
      if j < |iv| { Separated(iv, k, j); }
    }
  }

  /**
   Replacing `mid`, the ranges that touch [start, end), by their hull is what Insert computes
   range by range.
   */
  lemma {:induction false} SpliceIsInsert(left: seq<Interval>, mid: seq<Interval>, right: seq<Interval>, start: int,
                                          end: int)
    requires start < end
    requires forall v | v in left :: v.end < start
    requires forall v | v in mid :: start <= v.end && v.start <= end
    requires right != [] ==> start <= right[0].end && end < right[0].start
    requires right != [] ==> forall v | v in mid :: v.end < right[0].start
    ensures Insert(left + mid + right, start, end) == left + [Hull(mid, start, end)] + right
    decreases |left| + |mid|
  {
    var all := left + mid + right;
    if left != [] {
      assert all[1..] == left[1..] + mid + right && all[0] == left[0];
      SpliceIsInsert(left[1..], mid, right, start, end);
      assert left == [left[0]] + left[1..];
    } else if mid != [] {
      assert all[1..] == left + mid[1..] + right && all[0] == mid[0];
      assert mid[0] in mid;
      SpliceIsInsert(left, mid[1..], right, Min(start, mid[0].start), Max(end, mid[0].end));
    } else {
      assert all == right;
    }
  }

  function Hull(iv: seq<Interval>, start: int, end: int): Interval {
    if iv == [] then Interval(start, end)
    else Hull(iv[1..], Min(start, iv[0].start), Max(end, iv[0].end))
  }

  lemma {:induction false} HullSnoc(iv: seq<Interval>, v: Interval, start: int, end: int)
    ensures var h := Hull(iv, start, end);
            Hull(iv + [v], start, end) == Interval(Min(h.start, v.start), Max(h.end, v.end))
  {
    if iv == [] {
      assert iv + [v] == [v] && [v][1..] == [];
    } else {
      assert (iv + [v])[1..] == iv[1..] + [v];
      HullSnoc(iv[1..], v, Min(start, iv[0].start), Max(end, iv[0].end));
    }
  }

  class IntervalSet {
    var iv: seq<Interval>
    var size: int

    ghost predicate Valid() reads this { Canonical(iv) }

    constructor (size: int)
      ensures Valid() && iv == [] && this.size == size
    {
      this.iv := [];
      this.size := size;
    }

    /** Merge [start, end) into the set. Empty and inverted ranges are ignored. */
    method Add(start: int, end: int)
      requires Valid()
      modifies this`iv
      ensures Valid()
      ensures iv == Insert(old(iv), start, end)
      ensures Bytes(iv) == Bytes(old(iv)) + Range(start, end)
    {
      if end > start {
        var i := FirstEndingAtOrAfter(iv, start);
        var j, hull := MergeFrom(iv, i, start, end);
        TouchedBefore(iv, i, j);
        assert iv == iv[..i] + iv[i..j] + iv[j..];
        SpliceIsInsert(iv[..i], iv[i..j], iv[j..], start, end);
        iv := iv[..i] + [hull] + iv[j..];
      }
      InsertBytes(old(iv), start, end);
      InsertCanonical(old(iv), start, end);
    }

    /** Binary search for the first range that is not strictly left of `start`. */
    static method FirstEndingAtOrAfter(v: seq<Interval>, start: int) returns (i: int)
      requires Canonical(v)
      ensures 0 <= i <= |v|
      ensures forall k | 0 <= k < i :: v[k].end < start
      ensures forall k | i <= k < |v| :: start <= v[k].end
    {
      AllSeparated(v);
      var hi := |v|;
      i := 0;
      while i < hi
        invariant 0 <= i <= hi <= |v|
        invariant forall k | 0 <= k < i :: v[k].end < start
        invariant forall k | hi <= k < |v| :: start <= v[k].end
      {
        var mid := (i + hi) / 2;
        if v[mid].end >= start { hi := mid; } else { i := mid + 1; }
      }
    }

    /** Absorb every following range that overlaps or touches [start, end). */
    static method MergeFrom(v: seq<Interval>, i: int, start: int, end: int) returns (j: int, hull: Interval)
      requires 0 <= i <= |v|
      ensures i <= j <= |v| && hull == Hull(v[i..j], start, end)
      ensures forall k | i <= k < j :: v[k].start <= end
      ensures j < |v| ==> end < v[j].start
    {
      var ns, ne := start, end;
      j := i;
      while j < |v| && v[j].start <= end
        invariant i <= j <= |v|
        invariant forall k | i <= k < j :: v[k].start <= end
        invariant Hull(v[i..j], start, end) == Interval(ns, ne)
      {
        HullSnoc(v[i..j], v[j], start, end);
        assert v[i..j + 1] == v[i..j] + [v[j]];
        if v[j].start < ns { ns := v[j].start; }
        if v[j].end > ne { ne := v[j].end; }
        j := j + 1;
      }
      hull := Interval(ns, ne);
    }

    /**
     The complement of the set within [0, total). It is in canonical form except that a total
     of zero or less yields one empty range when the set starts past offset zero.
     */
    method Missing(total: int) returns (out: seq<Interval>)
      requires Valid()
      ensures out == Complement(iv, 0, total)
      ensures Bytes(out) == Range(0, total) - Bytes(iv)
      ensures Canonical(out) <==> (total > 0 || iv == [] || iv[0].start <= 0)
      ensures Canonical(out) ==> (out == [] <==> Range(0, total) <= Bytes(iv))
    {
      out := [];
      var next := 0;
      var k := 0;
      while k < |iv|
        invariant 0 <= k <= |iv|
        invariant out + Complement(iv[k..], next, total) == Complement(iv, 0, total)
      {
        var v := iv[k];
        ComplementUnfold(iv, k, next, total, out);
        if v.start > next {
          out := out + [Interval(next, Min(v.start, total))];
        }
        if v.end > next {
          next := v.end;
        }
        if next >= total {
          break;
        }
        k := k + 1;
      }
      if next < total {
        out := out + [Interval(next, total)];
      }
      MissingMeaning(iv, total);
    }

    /** Whether every byte of [start, end) is in the set. */
    method Contains(start: int, end: int) returns (r: bool)
      requires Valid()
      ensures r <==> Range(start, end) <= Bytes(iv)
    {
      if end <= start {
        return true;
      }
      var pos := start;
      var k := 0;
      while k < |iv|
        invariant 0 <= k <= |iv| && start <= pos < end && Canonical(iv[k..])
        invariant Range(start, end) <= Bytes(iv) <==> Range(pos, end) <= Bytes(iv[k..])
      {
        var v := iv[k];
        assert iv[k..][0] == v && iv[k..][1..] == iv[k + 1..];
        BytesAbove(iv[k..]);
        TailAbove(iv[k..]);
        CoverStep(iv[k..], pos, end);
        if v.start > pos {
          return false;
        }
        if v.end >= end {
          return true;
        }
        if v.end > pos {
          pos := v.end;
        }
        k := k + 1;
      }
      assert end - 1 in Range(pos, end);
      return end <= pos;
    }

    /** The number of covered bytes. */
    method CoveredBytes() returns (n: int)
      requires Valid()
      ensures n == Total(iv) == |Bytes(iv)|
    {
      TotalIsCardinality(iv);
      n := 0;
      var k := 0;
      while k < |iv|
        invariant 0 <= k <= |iv| && n + Total(iv[k..]) == Total(iv)
      {
        n := n + iv[k].end - iv[k].start;
        assert iv[k..][1..] == iv[k + 1..];
        k := k + 1;
      }
    }

    /** An independent copy: a snapshot that later additions cannot reach. */
    method Clone() returns (c: IntervalSet)
      ensures fresh(c) && c.iv == iv && c.size == size
    {
      c := new IntervalSet(size);
      c.iv := iv;
    }

    /**
     How far the set reaches contiguously from `start`: the caller's [start, end) may be skipped
     up to there. The answer can exceed the length asked about when one range spans past `end`.
     */
    method PrefixCovered(start: int, end: int) returns (n: int)
      requires Valid()
      ensures 0 <= n && Range(start, start + n) <= Bytes(iv)
      ensures start + n >= end || start + n !in Bytes(iv)
    {
      var pos := start;
      var k := 0;
      while k < |iv|
        invariant 0 <= k <= |iv| && start <= pos && Canonical(iv[k..])
        invariant Range(start, pos) <= Bytes(iv)
        invariant pos in Bytes(iv) <==> pos in Bytes(iv[k..])
        invariant Bytes(iv[k..]) <= Bytes(iv)
        invariant forall x | pos <= x :: x in Bytes(iv) <==> x in Bytes(iv[k..])
      {
        var v := iv[k];
        assert iv[k..][0] == v && iv[k..][1..] == iv[k + 1..];
        BytesAbove(iv[k..]);
        TailAbove(iv[k..]);
        if v.end > pos {
          if v.start > pos {
            break;
          }
          pos := v.end;
          if pos >= end {
            break;
          }
        }
        k := k + 1;
      }
      n := pos - start;
    }
  }

  /** One turn of the complement loop. */
  lemma ComplementUnfold(iv: seq<Interval>, k: int, next: int, total: int, out: seq<Interval>)
    requires 0 <= k < |iv|
    ensures var out' := if iv[k].start > next then out + [Interval(next, Min(iv[k].start, total))] else out;
            var next' := Max(next, iv[k].end);
            out + Complement(iv[k..], next, total)
              == if next' >= total then out' else out' + Complement(iv[k + 1..], next', total)
  {
  }

  lemma MissingMeaning(iv: seq<Interval>, total: int)
    requires Canonical(iv)
    ensures var out := Complement(iv, 0, total);
            && Bytes(out) == Range(0, total) - Bytes(iv)
            && (Canonical(out) <==> (total > 0 || iv == [] || iv[0].start <= 0))
            && (Canonical(out) ==> Within(out, total) && (out == [] <==> Range(0, total) <= Bytes(iv)))
  {
    ComplementBytes(iv, 0, total);
    if total > 0 {
      ComplementCanonical(iv, 0, total);
    }
    if Canonical(Complement(iv, 0, total)) {
      EmptyIffNoBytes(Complement(iv, 0, total));
    }
  }

  /** Whether [pos, end) is covered, decided by the first range as far as it can be. */
  lemma CoverStep(iv: seq<Interval>, pos: int, end: int)
    requires Canonical(iv) && iv != [] && pos < end
    ensures iv[0].start > pos ==> !(Range(pos, end) <= Bytes(iv))
    ensures iv[0].start <= pos && iv[0].end >= end ==> Range(pos, end) <= Bytes(iv)
    ensures iv[0].start <= pos && iv[0].end < end ==>
              (Range(pos, end) <= Bytes(iv) <==> Range(Max(pos, iv[0].end), end) <= Bytes(iv[1..]))
  {
    BytesAbove(iv);
    TailAbove(iv);
    assert pos in Range(pos, end);
    if iv[0].start <= pos && iv[0].end < end {
      var p := Max(pos, iv[0].end);
      assert Range(pos, end) == Range(pos, p) + Range(p, end);
      assert Range(pos, p) <= Range(iv[0].start, iv[0].end);
      assert Range(p, end) !! Range(iv[0].start, iv[0].end);
    }
  }
}
