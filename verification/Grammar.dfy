/**
 Exactly which byte strings the decoder of pkg/transfer/interval_serde.go accepts, and as what. The
 encoder writes one spelling of every number; the decoder takes every spelling that fits 64 bits.
 */
module Grammar {
  import opened Base
  import opened Intervals
  import opened Serde

  /** The value of base-128 digits, least first. */
  function Value(w: seq<Byte>): nat {
    if w == [] then 0 else w[0] % 128 + 128 * Value(w[1..])
  }

  /** A varint, or what is left of one after i bytes: all but the last byte marked, at most ten, 64 bits. */
  predicate Word(w: seq<Byte>, i: nat) {
    && w != [] && i + |w| <= 10
    && (forall j | 0 <= j < |w| - 1 :: 128 <= w[j])
    && w[|w| - 1] < 128 && (i + |w| == 10 ==> w[|w| - 1] <= 1)
  }

  /** A number reads exactly when the buffer starts with a word, and it reads as its value. */
  lemma {:induction false} WordReads(w: seq<Byte>, t: seq<Byte>, i: nat)
    requires Word(w, i)
    ensures GetUvarint(w + t, i) == Some(Uvarint(Value(w), |w|))
    decreases |w|
  {
    assert (w + t)[0] == w[0];
    if |w| > 1 {
      assert (w + t)[1..] == w[1..] + t;
      WordReads(w[1..], t, i + 1);
    } else {
      assert w[1..] == [];
    }
  }

  lemma {:induction false} ReadIsWord(b: seq<Byte>, i: nat)
    requires GetUvarint(b, i).Some?
    ensures var r := GetUvarint(b, i).value; r.n <= |b| && Word(b[..r.n], i) && r.value == Value(b[..r.n])
    decreases |b|
  {
    var r := GetUvarint(b, i).value;
    if b[0] < 128 {
      assert b[..1][1..] == [];
    } else {
      ReadIsWord(b[1..], i + 1);
      var w := b[1..][..r.n - 1];
      assert b[..r.n][1..] == w;
      assert forall j | 1 <= j < r.n :: b[..r.n][j] == w[j - 1];
    }
  }

  lemma WordThen(w: seq<Byte>, t: seq<Byte>)
    requires Word(w, 0)
    ensures GetUvarint(w + t, 0) == Some(Uvarint(Value(w), |w|)) && (w + t)[|w|..] == t
  {
    WordReads(w, t, 0);
  }

  // ---------------------------------------------------------------- spellings

  /** One range: the gap before it and its length. */
  datatype Gap = Gap(skip: seq<Byte>, len: seq<Byte>)

  datatype Spelling = Spelling(size: seq<Byte>, count: seq<Byte>, gaps: seq<Gap>)

  function Flat(gaps: seq<Gap>): seq<Byte> {
    if gaps == [] then [] else gaps[0].skip + (gaps[0].len + Flat(gaps[1..]))
  }

  /** The bytes of a spelling. */
  function Blob(sp: Spelling): seq<Byte> { HEADER + (sp.size + (sp.count + Flat(sp.gaps))) }

  predicate Words(gaps: seq<Gap>) {
    gaps != [] ==> Word(gaps[0].skip, 0) && Word(gaps[0].len, 0) && Words(gaps[1..])
  }

  /** The ranges spelled, one after the other from prevEnd. */
  function RangesOf(gaps: seq<Gap>, prevEnd: int): seq<Interval> {
    if gaps == [] then []
    else
      var start := prevEnd + Value(gaps[0].skip);
      var end := start + Value(gaps[0].len);
      [Interval(start, end)] + RangesOf(gaps[1..], end)
  }

  /** A size of 63 bits, the right count, and non-empty ranges in order within the size. */
  predicate Fine(sp: Spelling) {
    && Word(sp.size, 0) && Word(sp.count, 0) && Words(sp.gaps)
    && Value(sp.size) <= MAX_INT64 && Value(sp.count) == |sp.gaps|
    && Ordered(RangesOf(sp.gaps, 0), 0, Value(sp.size))
  }

  // ---------------------------------------------------------------- every spelling is accepted

  lemma OneSpelled(g: Gap, t: seq<Byte>, i: nat, prevEnd: nat, size: nat)
    requires Word(g.skip, 0) && Word(g.len, 0) && size <= MAX_INT64
    requires 0 < Value(g.len) && prevEnd + Value(g.skip) + Value(g.len) <= size
    ensures var start := prevEnd + Value(g.skip);
            DecodeOne(g.skip + (g.len + t), i, prevEnd, size) == Ok((Interval(start, start + Value(g.len)), t))
  {
    WordThen(g.skip, g.len + t);
    WordThen(g.len, t);
  }

  lemma {:induction false} AllSpelled(gaps: seq<Gap>, count: nat, i: nat, prevEnd: nat, size: nat)
    requires Words(gaps) && size <= MAX_INT64 && Ordered(RangesOf(gaps, prevEnd), prevEnd, size) && i + |gaps| == count
    ensures DecodeIntervals(Flat(gaps), count, i, prevEnd, size) == Ok((RangesOf(gaps, prevEnd), []))
    decreases |gaps|
  {
    if gaps != [] {
      var g, rest := gaps[0], Flat(gaps[1..]);
      var v := RangesOf(gaps, prevEnd)[0];
      assert RangesOf(gaps, prevEnd)[1..] == RangesOf(gaps[1..], v.end);
      OneSpelled(g, rest, i, prevEnd, size);
      AllSpelled(gaps[1..], count, i + 1, v.end, size);
      DecodeStep(Flat(gaps), v, rest, count, i, prevEnd, size);
    }
  }

  lemma {:induction false} FlatLength(gaps: seq<Gap>)
    requires Words(gaps)
    ensures |gaps| <= |Flat(gaps)|
  {
    if gaps != [] { FlatLength(gaps[1..]); }
  }

  lemma SpelledIsAccepted(sp: Spelling)
    requires Fine(sp)
    ensures Decode(Blob(sp)) == Ok(Progress(Value(sp.size), InsertAll([], RangesOf(sp.gaps, 0))))
  {
    var b, rest1 := Blob(sp), sp.count + Flat(sp.gaps);
    assert b[..4] == HEADER[..4] && b[4] == HEADER[4] && b[5..] == sp.size + rest1;
    WordThen(sp.size, rest1);
    WordThen(sp.count, Flat(sp.gaps));
    FlatLength(sp.gaps);
    AllSpelled(sp.gaps, |sp.gaps|, 0, 0, Value(sp.size));
  }

  // ---------------------------------------------------------------- nothing else is

  lemma ReadThen(b: seq<Byte>) returns (w: seq<Byte>)
    requires GetUvarint(b, 0).Some?
    ensures var r := GetUvarint(b, 0).value;
            Word(w, 0) && r.value == Value(w) && r.n == |w| && r.n <= |b| && b == w + b[r.n..]
  {
    ReadIsWord(b, 0);
    w := b[..GetUvarint(b, 0).value.n];
  }

  lemma OneIsSpelled(rest: seq<Byte>, i: nat, prevEnd: nat, size: nat) returns (g: Gap)
    requires DecodeOne(rest, i, prevEnd, size).Ok?
    ensures var (v, left) := DecodeOne(rest, i, prevEnd, size).value;
            && Word(g.skip, 0) && Word(g.len, 0) && rest == g.skip + (g.len + left)
            && v == Interval(prevEnd + Value(g.skip), prevEnd + Value(g.skip) + Value(g.len))
  {
    var skip := ReadThen(rest);
    var len := ReadThen(rest[|skip|..]);
    g := Gap(skip, len);
  }

  lemma OneMoreGap(g: Gap, more: seq<Gap>, left: seq<Byte>, prevEnd: int)
    requires Word(g.skip, 0) && Word(g.len, 0) && Words(more)
    ensures var start := prevEnd + Value(g.skip);
            var v := Interval(start, start + Value(g.len));
            && Words([g] + more) && g.skip + (g.len + (Flat(more) + left)) == Flat([g] + more) + left
            && RangesOf([g] + more, prevEnd) == [v] + RangesOf(more, v.end)
  {
    assert ([g] + more)[1..] == more;
  }

  lemma {:induction false} AllAreSpelled(rest: seq<Byte>, count: nat, i: nat, prevEnd: nat, size: nat,
                                         iv: seq<Interval>, left: seq<Byte>)
    returns (gaps: seq<Gap>)
    requires i <= count && DecodeIntervals(rest, count, i, prevEnd, size) == Ok((iv, left))
    ensures Words(gaps) && |gaps| == count - i && rest == Flat(gaps) + left && iv == RangesOf(gaps, prevEnd)
    decreases count - i
  {
    if i == count {
      gaps := [];
    } else {
      DecodeOneBounds(rest, i, prevEnd, size);
      var (v, rest') := DecodeOne(rest, i, prevEnd, size).value;
      DecodeStep(rest, v, rest', count, i, prevEnd, size);
      var g := OneIsSpelled(rest, i, prevEnd, size);
      var iv' := DecodeIntervals(rest', count, i + 1, v.end, size).value.0;
      var more := AllAreSpelled(rest', count, i + 1, v.end, size, iv', left);
      gaps := [g] + more;
      OneMoreGap(g, more, left, prevEnd);
    }
  }

  /** The three parts behind the header of an accepted string. */
  lemma AcceptedParts(b: seq<Byte>) returns (size: seq<Byte>, count: seq<Byte>, rest: seq<Byte>, iv: seq<Interval>)
    requires Decode(b).Ok?
    ensures b == HEADER + (size + (count + rest)) && Word(size, 0) && Word(count, 0) && Value(size) <= MAX_INT64
    ensures DecodeIntervals(rest, Value(count), 0, 0, Value(size)) == Ok((iv, []))
  {
    size := ReadThen(b[5..]);
    var rest1 := b[5..][|size|..];
    count := ReadThen(rest1);
    rest := rest1[|count|..];
    iv := DecodeIntervals(rest, Value(count), 0, 0, Value(size)).value.0;
    HeaderOf(b);
  }

  lemma HeaderOf(b: seq<Byte>)
    requires Decode(b).Ok?
    ensures 5 <= |b| && b == HEADER + b[5..]
  {
    assert b[..5] == b[..4] + [b[4]] == HEADER;
  }

  lemma AcceptedIsSpelled(b: seq<Byte>) returns (sp: Spelling)
    requires Decode(b).Ok?
    ensures Fine(sp) && b == Blob(sp)
  {
    var size, count, rest, iv := AcceptedParts(b);
    var gaps := AllAreSpelled(rest, Value(count), 0, 0, Value(size), iv, []);
    DecodeIntervalsOrdered(rest, Value(count), 0, 0, Value(size));
    sp := Spelling(size, count, gaps);
    assert Flat(gaps) + [] == Flat(gaps);
  }

  /**
   The decoder accepts a string exactly when it spells a size and ranges in order within it, and
   yields those ranges, adjacent ones joined.
   */
  lemma AcceptedIff(b: seq<Byte>, p: Progress)
    ensures Decode(b) == Ok(p) <==>
              exists sp :: Fine(sp) && b == Blob(sp)
                           && p == Progress(Value(sp.size), InsertAll([], RangesOf(sp.gaps, 0)))
  {
    if Decode(b).Ok? {
      var sp := AcceptedIsSpelled(b);
      SpelledIsAccepted(sp);
    }
    forall sp | Fine(sp) && b == Blob(sp) ensures Decode(b).Ok? { SpelledIsAccepted(sp); }
    if sp :| Fine(sp) && b == Blob(sp) && p == Progress(Value(sp.size), InsertAll([], RangesOf(sp.gaps, 0))) {
      SpelledIsAccepted(sp);
    }
  }
}
