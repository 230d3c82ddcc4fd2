/**
 The progress blob of pkg/transfer/interval_serde.go: magic, version, then unsigned varints for
 the file size, the number of ranges, and per range the gap from the previous end and the length.
 */
module Serde {
  import opened Base
  import opened Intervals

  datatype Corrupt =
    | NegativeSize | EmptyInterval(i: nat) | Overlap(i: nat) | ExceedsSize(i: nat)
    | BadMagic | BadVersion | TruncatedSize | SizeRange | TruncatedCount | CountExceedsPayload
    | TruncatedStart(i: nat) | TruncatedLength(i: nat) | ZeroLength(i: nat) | DeltaRange(i: nat)
    | StartOverflow(i: nat) | EndOverflow(i: nat) | OutOfBounds(i: nat) | TrailingGarbage

  /** A decoded resume record: the file size it was taken for and the ranges on disk. */
  datatype Progress = Progress(size: int, iv: seq<Interval>)

  const HEADER: seq<Byte> := [72, 70, 68, 80, 1] // "HFDP", version 1

  // ---------------------------------------------------------------- varints

  /** 2^64 without the 7*i low bits: what is left for the i-th and later varint bytes. */
  function Cap(i: nat): nat
    requires i <= 9
    decreases 9 - i
  {
    if i == 9 then 2 else 128 * Cap(i + 1)
  }

  lemma CapValue()
    ensures Cap(0) == 0x1_0000_0000_0000_0000
  {
  }

  function PutUvarint(v: nat): seq<Byte> {
    if v < 128 then [v] else [v % 128 + 128] + PutUvarint(v / 128)
  }

  datatype Uvarint = Uvarint(value: nat, n: nat)

  /**
   Read one varint whose first byte is the i-th of the encoding. None stands for both failures
   of the 64-bit reader, a buffer that ends early and a value that does not fit.
   */
  function GetUvarint(b: seq<Byte>, i: nat): Option<Uvarint>
    decreases |b|
  {
    if b == [] || i >= 10 then None
    else if b[0] < 128 then
      if i == 9 && b[0] > 1 then None else Some(Uvarint(b[0], 1))
    else
      var rest := GetUvarint(b[1..], i + 1);
      if rest.None? then None
      else Some(Uvarint(b[0] - 128 + 128 * rest.value.value, rest.value.n + 1))
  }

  /** A value that was read fits in 64 bits and used up at least one of the bytes. */
  lemma {:induction false} GetBounds(b: seq<Byte>, i: nat)
    requires i <= 9 && GetUvarint(b, i).Some?
    ensures var r := GetUvarint(b, i).value;
            1 <= r.n <= |b| && r.n <= 10 - i && r.value < Cap(i)
    decreases |b|
  {
    if b[0] < 128 {
      CapPositive(i);
    } else {
      assert i < 9;
      GetBounds(b[1..], i + 1);
    }
  }

  lemma {:induction false} CapPositive(i: nat)
    requires i <= 9
    ensures 2 <= Cap(i) && (i < 9 ==> 256 <= Cap(i))
    decreases 9 - i
  {
  }

  /** Bytes after a varint never change how it reads. */
  lemma {:induction false} GetExtend(b: seq<Byte>, t: seq<Byte>, i: nat)
    requires GetUvarint(b, i).Some?
    ensures GetUvarint(b + t, i) == GetUvarint(b, i)
    decreases |b|
  {
    if b[0] >= 128 {
      assert (b + t)[1..] == b[1..] + t;
      GetExtend(b[1..], t, i + 1);
    }
  }

  lemma {:induction false} PutGet(v: nat, t: seq<Byte>, i: nat)
    requires i <= 9 && v < Cap(i)
    ensures GetUvarint(PutUvarint(v) + t, i) == Some(Uvarint(v, |PutUvarint(v)|))
    decreases v
  {
    if v >= 128 {
      assert i < 9;
      assert v / 128 < Cap(i + 1);
      PutGet(v / 128, t, i + 1);
      assert (PutUvarint(v) + t)[1..] == PutUvarint(v / 128) + t;
    }
  }

  /** Reading back what was just written, at the start of a longer buffer. */
  lemma ReadBack(v: nat, t: seq<Byte>)
    requires v <= MAX_INT64
    ensures |PutUvarint(v)| >= 1
    ensures GetUvarint(PutUvarint(v) + t, 0) == Some(Uvarint(v, |PutUvarint(v)|))
    ensures (PutUvarint(v) + t)[|PutUvarint(v)|..] == t
  {
    CapValue();
    PutGet(v, t, 0);
  }

  // ---------------------------------------------------------------- encoding

  /** Non-empty ranges in order from `floor` up to `size`; adjacent ones are allowed. */
  predicate Ordered(iv: seq<Interval>, floor: int, size: int) {
    iv == [] ||
    (&& floor <= iv[0].start < iv[0].end <= size
     && Ordered(iv[1..], iv[0].end, size))
  }

  function EncodeIntervals(iv: seq<Interval>, prevEnd: int, size: int): seq<Byte>
    requires Ordered(iv, prevEnd, size)
  {
    if iv == [] then [] else
      PutUvarint(iv[0].start - prevEnd)
      + (PutUvarint(iv[0].end - iv[0].start) + EncodeIntervals(iv[1..], iv[0].end, size))
  }

  function Encode(p: Progress): seq<Byte>
    requires Ordered(p.iv, 0, p.size) && 0 <= p.size
  {
    HEADER + (PutUvarint(p.size) + (PutUvarint(|p.iv|) + EncodeIntervals(p.iv, 0, p.size)))
  }

  /** The first defect the encoder reports, if any. */
  function Defect(iv: seq<Interval>, i: nat, prevEnd: int, size: int): Option<Corrupt>
    requires i <= |iv|
    decreases |iv| - i
  {
    if i == |iv| then None
    else if iv[i].end <= iv[i].start then Some(EmptyInterval(i))
    else if iv[i].start < prevEnd then Some(Overlap(i))
    else if iv[i].end > size then Some(ExceedsSize(i))
    else Defect(iv, i + 1, iv[i].end, size)
  }

  lemma {:induction false} DefectIffUnordered(iv: seq<Interval>, i: nat, prevEnd: int, size: int)
    requires i <= |iv|
    ensures Defect(iv, i, prevEnd, size).None? <==> Ordered(iv[i..], prevEnd, size)
    decreases |iv| - i
  {
    if i < |iv| {
      assert iv[i..][1..] == iv[i + 1..];
      DefectIffUnordered(iv, i + 1, iv[i].end, size);
    }
  }

  lemma {:induction false} CanonicalOrdered(iv: seq<Interval>, floor: int, size: int)
    requires Canonical(iv) && Within(iv, size) && (iv != [] ==> floor <= iv[0].start)
    ensures Ordered(iv, floor, size)
  {
    if iv != [] { CanonicalOrdered(iv[1..], iv[0].end, size); }
  }

  lemma {:induction false} OrderedCount(iv: seq<Interval>, floor: int, size: int)
    requires Ordered(iv, floor, size) && floor <= size
    ensures |iv| <= size - floor
    ensures forall i | 0 <= i < |iv| :: floor <= iv[i].start && iv[i].end <= size
    ensures |EncodeIntervals(iv, floor, size)| >= 2 * |iv|
  {
    if iv != [] {
      OrderedCount(iv[1..], iv[0].end, size);
      PutNonEmpty(iv[0].start - floor);
      PutNonEmpty(iv[0].end - iv[0].start);
    }
  }

  lemma PutNonEmpty(v: nat)
    ensures |PutUvarint(v)| >= 1
  {
  }

  // ---------------------------------------------------------------- decoding

  /** Read the i-th range, a gap and a length, bounded by `size`; also the bytes left over. */
  function DecodeOne(rest: seq<Byte>, i: nat, prevEnd: nat, size: nat): Result<(Interval, seq<Byte>), Corrupt> {
    var delta := GetUvarint(rest, 0);
    if delta.None? then Err(TruncatedStart(i)) else
    GetBounds(rest, 0);
    var rest1 := rest[delta.value.n..];
    var length := GetUvarint(rest1, 0);
    if length.None? then Err(TruncatedLength(i)) else
    GetBounds(rest1, 0);
    var rest2 := rest1[length.value.n..];
    if length.value.value == 0 then Err(ZeroLength(i))
    else if delta.value.value > MAX_INT64 || length.value.value > MAX_INT64 then Err(DeltaRange(i))
    else if delta.value.value > MAX_INT64 - prevEnd then Err(StartOverflow(i)) else
    var start := prevEnd + delta.value.value;
    if length.value.value > MAX_INT64 - start then Err(EndOverflow(i)) else
    var end := start + length.value.value;
    if end > size then Err(OutOfBounds(i)) else
    Ok((Interval(start, end), rest2))
  }

  lemma DecodeOneBounds(rest: seq<Byte>, i: nat, prevEnd: nat, size: nat)
    requires DecodeOne(rest, i, prevEnd, size).Ok?
    ensures var v := DecodeOne(rest, i, prevEnd, size).value.0;
            prevEnd <= v.start < v.end <= size
  {
  }

  lemma DecodeOneExtend(rest: seq<Byte>, t: seq<Byte>, i: nat, prevEnd: nat, size: nat)
    requires DecodeOne(rest, i, prevEnd, size).Ok?
    ensures var r := DecodeOne(rest, i, prevEnd, size).value;
            DecodeOne(rest + t, i, prevEnd, size) == Ok((r.0, r.1 + t))
  {
    GetBounds(rest, 0);
    GetExtend(rest, t, 0);
    var d := GetUvarint(rest, 0).value;
    var rest1 := rest[d.n..];
    GetBounds(rest1, 0);
    GetExtend(rest1, t, 0);
    assert (rest + t)[d.n..] == rest1 + t;
    var l := GetUvarint(rest1, 0).value;
    assert (rest1 + t)[l.n..] == rest1[l.n..] + t;
  }

  lemma DecodeOneEncoded(v: Interval, t: seq<Byte>, i: nat, prevEnd: nat, size: nat)
    requires prevEnd <= v.start < v.end <= size <= MAX_INT64
    ensures DecodeOne(PutUvarint(v.start - prevEnd) + (PutUvarint(v.end - v.start) + t), i, prevEnd, size) == Ok((v, t))
  {
    ReadBack(v.start - prevEnd, PutUvarint(v.end - v.start) + t);
    ReadBack(v.end - v.start, t);
  }

  /** Read ranges i..count from `rest`; on success also what is left over. */
  function DecodeIntervals(rest: seq<Byte>, count: nat, i: nat, prevEnd: nat, size: nat):
      Result<(seq<Interval>, seq<Byte>), Corrupt>
    requires i <= count
    decreases count - i
  {
    if i == count then Ok(([], rest)) else
      match DecodeOne(rest, i, prevEnd, size)
      case Err(e) => Err(e)
      case Ok((v, rest')) =>
        DecodeOneBounds(rest, i, prevEnd, size);
        Prepend([v], DecodeIntervals(rest', count, i + 1, v.end, size))
  }

  function Prepend(iv: seq<Interval>, d: Result<(seq<Interval>, seq<Byte>), Corrupt>):
      Result<(seq<Interval>, seq<Byte>), Corrupt>
  {
    match d
    case Err(e) => Err(e)
    case Ok((more, left)) => Ok((iv + more, left))
  }

  function Decode(b: seq<Byte>): Result<Progress, Corrupt> {
    if |b| < 5 || b[..4] != HEADER[..4] then Err(BadMagic)
    else if b[4] != HEADER[4] then Err(BadVersion) else
      var rest := b[5..];
      var size := GetUvarint(rest, 0);
      if size.None? then Err(TruncatedSize)
      else if size.value.value > MAX_INT64 then Err(SizeRange) else
      GetBounds(rest, 0);
      var rest1 := rest[size.value.n..];
      var count := GetUvarint(rest1, 0);
      if count.None? then Err(TruncatedCount) else
      GetBounds(rest1, 0);
      var rest2 := rest1[count.value.n..];
      if count.value.value > |rest2| + 1 then Err(CountExceedsPayload) else
      match DecodeIntervals(rest2, count.value.value, 0, 0, size.value.value)
      case Err(e) => Err(e)
      case Ok((iv, left)) =>
        if left != [] then Err(TrailingGarbage)
        else Ok(Progress(size.value.value, InsertAll([], iv)))
  }

  lemma {:induction false} DecodeIntervalsOrdered(rest: seq<Byte>, count: nat, i: nat, prevEnd: nat, size: nat)
    requires i <= count
    requires DecodeIntervals(rest, count, i, prevEnd, size).Ok?
    ensures var iv := DecodeIntervals(rest, count, i, prevEnd, size).value.0;
            |iv| == count - i && Ordered(iv, prevEnd, size)
    decreases count - i
  {
    if i < count {
      DecodeOneBounds(rest, i, prevEnd, size);
      var (v, rest') := DecodeOne(rest, i, prevEnd, size).value;
      DecodeIntervalsOrdered(rest', count, i + 1, v.end, size);
      var more := DecodeIntervals(rest', count, i + 1, v.end, size).value.0;
      assert ([v] + more)[1..] == more;
    }
  }

  lemma {:induction false} OrderedWithin(iv: seq<Interval>, adds: seq<Interval>, floor: int, size: int)
    requires Ordered(adds, floor, size) && 0 <= floor && Within(iv, size)
    ensures Within(InsertAll(iv, adds), size)
    decreases |adds|
  {
    if adds != [] {
      InsertWithin(iv, adds[0].start, adds[0].end, size);
      OrderedWithin(Insert(iv, adds[0].start, adds[0].end), adds[1..], adds[0].end, size);
    }
  }

  /** Whatever bytes are offered, an accepted blob yields a canonical set inside [0, size]. */
  lemma AcceptedIsCanonical(b: seq<Byte>)
    requires Decode(b).Ok?
    ensures var p := Decode(b).value;
            0 <= p.size <= MAX_INT64 && Canonical(p.iv) && Within(p.iv, p.size)
  {
    var rest := b[5..];
    GetBounds(rest, 0);
    var size := GetUvarint(rest, 0).value;
    var rest1 := rest[size.n..];
    GetBounds(rest1, 0);
    var count := GetUvarint(rest1, 0).value;
    var rest2 := rest1[count.n..];
    DecodeIntervalsOrdered(rest2, count.value, 0, 0, size.value);
    var iv := DecodeIntervals(rest2, count.value, 0, 0, size.value).value.0;
    OrderedWithin([], iv, 0, size.value);
    InsertAllSound([], iv);
  }

  // ---------------------------------------------------------------- round trip

  lemma {:induction false} DecodeEncodedIntervals(iv: seq<Interval>, t: seq<Byte>, count: nat, i: nat, prevEnd: nat,
                                                  size: nat)
    requires Ordered(iv, prevEnd, size) && prevEnd <= size <= MAX_INT64 && i + |iv| == count
    ensures DecodeIntervals(EncodeIntervals(iv, prevEnd, size) + t, count, i, prevEnd, size) == Ok((iv, t))
    decreases |iv|
  {
    if iv == [] {
      assert EncodeIntervals(iv, prevEnd, size) + t == t;
    } else {
      DecodeEncodedIntervals(iv[1..], t, count, i + 1, iv[0].end, size);
      DecodeEncodedCons(iv, t, count, i, prevEnd, size);
    }
  }

  lemma DecodeEncodedCons(iv: seq<Interval>, t: seq<Byte>, count: nat, i: nat, prevEnd: nat, size: nat)
    requires iv != [] && Ordered(iv, prevEnd, size) && size <= MAX_INT64 && i < count
    requires DecodeIntervals(EncodeIntervals(iv[1..], iv[0].end, size) + t, count, i + 1, iv[0].end, size)
          == Ok((iv[1..], t))
    ensures DecodeIntervals(EncodeIntervals(iv, prevEnd, size) + t, count, i, prevEnd, size) == Ok((iv, t))
  {
    EncodeStep(iv, t, prevEnd, size);
    DecodeEncodedStep(iv[0], EncodeIntervals(iv[1..], iv[0].end, size) + t, iv[1..], t,
                      EncodeIntervals(iv, prevEnd, size) + t, count, i, prevEnd, size);
    assert [iv[0]] + iv[1..] == iv;
  }

  lemma DecodeEncodedStep(v: Interval, left: seq<Byte>, more: seq<Interval>, t: seq<Byte>, rest: seq<Byte>,
                          count: nat, i: nat, prevEnd: nat, size: nat)
    requires prevEnd <= v.start < v.end <= size <= MAX_INT64 && i < count
    requires rest == PutUvarint(v.start - prevEnd) + (PutUvarint(v.end - v.start) + left)
    requires DecodeIntervals(left, count, i + 1, v.end, size) == Ok((more, t))
    ensures DecodeIntervals(rest, count, i, prevEnd, size) == Ok(([v] + more, t))
  {
    DecodeOneEncoded(v, left, i, prevEnd, size);
    DecodeStep(rest, v, left, count, i, prevEnd, size);
  }

  lemma EncodeStep(iv: seq<Interval>, t: seq<Byte>, prevEnd: int, size: int)
    requires iv != [] && Ordered(iv, prevEnd, size)
    ensures EncodeIntervals(iv, prevEnd, size) + t
         == PutUvarint(iv[0].start - prevEnd)
            + (PutUvarint(iv[0].end - iv[0].start) + (EncodeIntervals(iv[1..], iv[0].end, size) + t))
  {
  }

  lemma DecodeStep(rest: seq<Byte>, v: Interval, rest': seq<Byte>, count: nat, i: nat, prevEnd: nat, size: nat)
    requires i < count && DecodeOne(rest, i, prevEnd, size) == Ok((v, rest')) && 0 <= v.end
    ensures DecodeIntervals(rest, count, i, prevEnd, size)
         == Prepend([v], DecodeIntervals(rest', count, i + 1, v.end, size))
  {
  }

  /** Decoding an encoding followed by `t` parses the encoding and is left with exactly `t`. */
  lemma DecodeEncodedThen(p: Progress, t: seq<Byte>)
    requires Ordered(p.iv, 0, p.size) && 0 <= p.size <= MAX_INT64
    ensures Decode(Encode(p) + t)
         == if t == [] then Ok(Progress(p.size, InsertAll([], p.iv))) else Err(TrailingGarbage)
  {
    var ivs := EncodeIntervals(p.iv, 0, p.size);
    var b := Encode(p) + t;
    OrderedCount(p.iv, 0, p.size);
    var rest1 := PutUvarint(|p.iv|) + (ivs + t);
    assert b[..4] == HEADER[..4];
    assert b[5..] == PutUvarint(p.size) + rest1;
    ReadBack(p.size, rest1);
    ReadBack(|p.iv|, ivs + t);
    DecodeEncodedIntervals(p.iv, t, |p.iv|, 0, 0, p.size);
  }

  /** Round trip: encoding then decoding returns the same set, ranges and size included. */
  lemma RoundTrip(p: Progress)
    requires Canonical(p.iv) && Within(p.iv, p.size) && 0 <= p.size <= MAX_INT64
    ensures Ordered(p.iv, 0, p.size) && Decode(Encode(p)) == Ok(p)
  {
    CanonicalOrdered(p.iv, 0, p.size);
    DecodeEncodedThen(p, []);
    assert Encode(p) + [] == Encode(p);
    InsertAllSound([], p.iv);
    CanonicalUnique(InsertAll([], p.iv), p.iv);
  }

  /** Sets with adjacent ranges encode too; decoding returns the same bytes, coalesced. */
  lemma RoundTripBytes(p: Progress)
    requires Ordered(p.iv, 0, p.size) && 0 <= p.size <= MAX_INT64
    ensures Decode(Encode(p)).Ok?
    ensures Decode(Encode(p)).value.size == p.size && Bytes(Decode(Encode(p)).value.iv) == Bytes(p.iv)
  {
    DecodeEncodedThen(p, []);
    assert Encode(p) + [] == Encode(p);
    InsertAllSound([], p.iv);
  }

  // ---------------------------------------------------------------- no prefix, no extension

  lemma {:induction false} DecodeIntervalsExtend(rest: seq<Byte>, t: seq<Byte>, count: nat, i: nat, prevEnd: nat,
                                                 size: nat)
    requires i <= count
    requires DecodeIntervals(rest, count, i, prevEnd, size).Ok?
    ensures var r := DecodeIntervals(rest, count, i, prevEnd, size).value;
            DecodeIntervals(rest + t, count, i, prevEnd, size) == Ok((r.0, r.1 + t))
    decreases count - i
  {
    if i < count {
      DecodeOneBounds(rest, i, prevEnd, size);
      DecodeOneExtend(rest, t, i, prevEnd, size);
      var (v, rest') := DecodeOne(rest, i, prevEnd, size).value;
      DecodeIntervalsExtend(rest', t, count, i + 1, v.end, size);
    }
  }

  /**
   Accepted blobs form a prefix code: no proper extension of an accepted blob is accepted, so
   neither is any proper prefix of one.
   */
  lemma AcceptedIsPrefixFree(b: seq<Byte>, t: seq<Byte>)
    requires Decode(b).Ok? && t != []
    ensures Decode(b + t) == Err(TrailingGarbage)
  {
    var rest := b[5..];
    assert (b + t)[..4] == b[..4] && (b + t)[5..] == rest + t;
    ReadOn(rest, t);
    var size := GetUvarint(rest, 0).value;
    var rest1 := rest[size.n..];
    ReadOn(rest1, t);
    var count := GetUvarint(rest1, 0).value;
    DecodeIntervalsExtend(rest1[count.n..], t, count.value, 0, 0, size.value);
  }

  /** A number that reads from `rest` reads the same with more bytes behind it. */
  lemma ReadOn(rest: seq<Byte>, t: seq<Byte>)
    requires GetUvarint(rest, 0).Some?
    ensures var v := GetUvarint(rest, 0).value;
            GetUvarint(rest + t, 0) == Some(v) && v.n <= |rest| && (rest + t)[v.n..] == rest[v.n..] + t
  {
    GetBounds(rest, 0);
    GetExtend(rest, t, 0);
  }

  lemma NoPrefixDecodes(b: seq<Byte>, k: nat)
    requires Decode(b).Ok? && k < |b|
    ensures Decode(b[..k]).Err?
  {
    if Decode(b[..k]).Ok? {
      assert b == b[..k] + b[k..];
      AcceptedIsPrefixFree(b[..k], b[k..]);
    }
  }

  // ---------------------------------------------------------------- the program's loops

  method MarshalBinary(s: IntervalSet) returns (r: Result<seq<Byte>, Corrupt>)
    ensures r.Ok? <==> 0 <= s.size && Ordered(s.iv, 0, s.size)
    ensures r.Ok? ==> r.value == Encode(Progress(s.size, s.iv))
    ensures r.Err? && 0 <= s.size ==> Some(r.error) == Defect(s.iv, 0, 0, s.size)
  {
    if s.size < 0 {
      return Err(NegativeSize);
    }
    DefectIffUnordered(s.iv, 0, 0, s.size);
    assert s.iv[0..] == s.iv;
    var prevEnd := 0;
    var i := 0;
    while i < |s.iv|
      invariant 0 <= i <= |s.iv| && Defect(s.iv, 0, 0, s.size) == Defect(s.iv, i, prevEnd, s.size)
    {
      var v := s.iv[i];
      if v.end <= v.start { return Err(EmptyInterval(i)); }
      if v.start < prevEnd { return Err(Overlap(i)); }
      if v.end > s.size { return Err(ExceedsSize(i)); }
      prevEnd := v.end;
      i := i + 1;
    }
    var out := HEADER;
    out := out + PutUvarint(s.size);
    out := out + PutUvarint(|s.iv|);
    prevEnd := 0;
    i := 0;
    while i < |s.iv|
      invariant 0 <= i <= |s.iv| && Ordered(s.iv[i..], prevEnd, s.size)
      invariant out + EncodeIntervals(s.iv[i..], prevEnd, s.size) == Encode(Progress(s.size, s.iv))
    {
      var v := s.iv[i];
      EncodeUnfold(out, s.iv, i, prevEnd, s.size);
      out := out + PutUvarint(v.start - prevEnd);
      out := out + PutUvarint(v.end - v.start);
      prevEnd := v.end;
      i := i + 1;
    }
    return Ok(out);
  }

  lemma EncodeUnfold(out: seq<Byte>, iv: seq<Interval>, i: nat, prevEnd: int, size: int)
    requires i < |iv| && Ordered(iv[i..], prevEnd, size)
    ensures Ordered(iv[i + 1..], iv[i].end, size)
    ensures out + EncodeIntervals(iv[i..], prevEnd, size)
         == out + PutUvarint(iv[i].start - prevEnd) + PutUvarint(iv[i].end - iv[i].start)
            + EncodeIntervals(iv[i + 1..], iv[i].end, size)
  {
  }

  /** Decode in place; on any defect the receiver keeps its old contents. */
  method UnmarshalBinary(s: IntervalSet, b: seq<Byte>) returns (err: Option<Corrupt>)
    modifies s
    ensures Decode(b).Ok? ==> err.None? && s.size == Decode(b).value.size && s.iv == Decode(b).value.iv && s.Valid()
    ensures Decode(b).Err? ==> err == Some(Decode(b).error) && s.iv == old(s.iv) && s.size == old(s.size)
  {
    if |b| < 5 || b[..4] != HEADER[..4] { return Some(BadMagic); }
    if b[4] != HEADER[4] { return Some(BadVersion); }
    var rest := b[5..];
    var size := GetUvarint(rest, 0);
    if size.None? { return Some(TruncatedSize); }
    if size.value.value > MAX_INT64 { return Some(SizeRange); }
    GetBounds(rest, 0);
    rest := rest[size.value.n..];
    var count := GetUvarint(rest, 0);
    if count.None? { return Some(TruncatedCount); }
    GetBounds(rest, 0);
    rest := rest[count.value.n..];
    if count.value.value > |rest| + 1 { return Some(CountExceedsPayload); }
    var iv, left, defect := ReadIntervals(rest, count.value.value, size.value.value);
    if defect.Some? { return defect; }
    if |left| != 0 { return Some(TrailingGarbage); }
    var merged := new IntervalSet(size.value.value);
    AcceptedIsCanonical(b);
    var k := 0;
    while k < |iv|
      invariant 0 <= k <= |iv| && merged.Valid() && fresh(merged) && merged.size == size.value.value
      invariant s.iv == old(s.iv) && s.size == old(s.size)
      invariant InsertAll(merged.iv, iv[k..]) == InsertAll([], iv)
    {
      assert iv[k..][1..] == iv[k + 1..];
      merged.Add(iv[k].start, iv[k].end);
      k := k + 1;
    }
    s.iv, s.size := merged.iv, merged.size;
    return None;
  }

  /** The range loop of the decoder: a cursor over the buffer, one range at a time. */
  method ReadIntervals(buf: seq<Byte>, count: nat, size: nat)
    returns (iv: seq<Interval>, rest: seq<Byte>, defect: Option<Corrupt>)
    ensures var d := DecodeIntervals(buf, count, 0, 0, size);
            && (d.Ok? ==> defect.None? && d.value == (iv, rest))
            && (d.Err? ==> defect == Some(d.error))
  {
    iv, rest, defect := [], buf, None;
    var prevEnd: nat := 0;
    var i: nat := 0;
    PrependNothing(DecodeIntervals(rest, count, i, prevEnd, size));
    while i < count
      invariant i <= count && defect.None?
      invariant Prepend(iv, DecodeIntervals(rest, count, i, prevEnd, size)) == DecodeIntervals(buf, count, 0, 0, size)
    {
      var r := ReadOne(rest, i, prevEnd, size);
      if r.Err? { defect := Some(r.error); return; }
      DecodeOneBounds(rest, i, prevEnd, size);
      PrependTwice(iv, r.value.0, DecodeIntervals(r.value.1, count, i + 1, r.value.0.end, size));
      iv := iv + [r.value.0];
      rest := r.value.1;
      prevEnd := r.value.0.end;
      i := i + 1;
    }
    assert iv + [] == iv;
  }

  lemma PrependNothing(d: Result<(seq<Interval>, seq<Byte>), Corrupt>)
    ensures Prepend([], d) == d
  {
    if d.Ok? { assert [] + d.value.0 == d.value.0; }
  }

  lemma PrependTwice(iv: seq<Interval>, v: Interval, d: Result<(seq<Interval>, seq<Byte>), Corrupt>)
    ensures Prepend(iv, Prepend([v], d)) == Prepend(iv + [v], d)
  {
    if d.Ok? { assert iv + ([v] + d.value.0) == iv + [v] + d.value.0; }
  }

  /** The checks on one range, in the order the decoder makes them. */
  method ReadOne(rest: seq<Byte>, i: nat, prevEnd: nat, size: nat) returns (r: Result<(Interval, seq<Byte>), Corrupt>)
    ensures r == DecodeOne(rest, i, prevEnd, size)
  {
    var delta := GetUvarint(rest, 0);
    if delta.None? { return Err(TruncatedStart(i)); }
    GetBounds(rest, 0);
    var rest1 := rest[delta.value.n..];
    var length := GetUvarint(rest1, 0);
    if length.None? { return Err(TruncatedLength(i)); }
    GetBounds(rest1, 0);
    if length.value.value == 0 { return Err(ZeroLength(i)); }
    if delta.value.value > MAX_INT64 || length.value.value > MAX_INT64 { return Err(DeltaRange(i)); }
    if delta.value.value > MAX_INT64 - prevEnd { return Err(StartOverflow(i)); }
    var start := prevEnd + delta.value.value;
    if length.value.value > MAX_INT64 - start { return Err(EndOverflow(i)); }
    var end := start + length.value.value;
    if end > size { return Err(OutOfBounds(i)); }
    return Ok((Interval(start, end), rest1[length.value.n..]));
  }

  // ---------------------------------------------------------------- the salvage record

  /**
   pkg/sched writes the one-range record of a salvaged file by hand: the encoding of {[0, size)}
   for every file with a byte in it, and for an empty file a record the decoder refuses.
   */
  method FullIntervalBlob(size: nat) returns (out: seq<Byte>)
    requires size <= MAX_INT64
    ensures out == FullBlob(size)
    ensures size > 0 ==>
              && Ordered([Interval(0, size)], 0, size)
              && out == Encode(Progress(size, [Interval(0, size)]))
              && Decode(out) == Ok(Progress(size, [Interval(0, size)]))
    ensures size == 0 ==> Decode(out) == Err(ZeroLength(0))
  {
    FullBlobMeaning(size);
    out := [72, 70, 68, 80, 1];
    out := out + PutUvarint(size);
    out := out + PutUvarint(1);
    out := out + PutUvarint(0);
    out := out + PutUvarint(size);
  }

  function FullBlob(size: nat): seq<Byte> {
    HEADER + PutUvarint(size) + PutUvarint(1) + PutUvarint(0) + PutUvarint(size)
  }

  /**
   The hand-written record is byte for byte the encoding of {[0, size)} and decodes to it
   exactly when the file is not empty; an empty file's record is refused.
   */
  lemma FullBlobMeaning(size: nat)
    requires size <= MAX_INT64
    ensures size > 0 ==>
              Ordered([Interval(0, size)], 0, size) && FullBlob(size) == Encode(Progress(size, [Interval(0, size)]))
    ensures Decode(FullBlob(size)) == if size > 0 then Ok(Progress(size, [Interval(0, size)])) else Err(ZeroLength(0))
  {
    var ones := PutUvarint(1) + (PutUvarint(0) + PutUvarint(size));
    assert FullBlob(size) == HEADER + (PutUvarint(size) + ones);
    if size > 0 {
      FullBlobEncodes(size);
    } else {
      FullBlobEmpty();
    }
  }

  lemma FullBlobEncodes(size: nat)
    requires 0 < size <= MAX_INT64
    ensures Ordered([Interval(0, size)], 0, size)
    ensures HEADER + (PutUvarint(size) + (PutUvarint(1) + (PutUvarint(0) + PutUvarint(size))))
         == Encode(Progress(size, [Interval(0, size)]))
    ensures Decode(Encode(Progress(size, [Interval(0, size)]))) == Ok(Progress(size, [Interval(0, size)]))
  {
    var p := Progress(size, [Interval(0, size)]);
    assert p.iv[1..] == [];
    RoundTrip(p);
    assert EncodeIntervals(p.iv, 0, size) == PutUvarint(0) + PutUvarint(size) by {
      assert EncodeIntervals(p.iv[1..], size, size) == [];
    }
  }

  lemma FullBlobEmpty()
    ensures Decode(HEADER + (PutUvarint(0) + (PutUvarint(1) + (PutUvarint(0) + PutUvarint(0))))) == Err(ZeroLength(0))
  {
  }
}
