/**
 Chunk framing and byte regrouping of the xet client (pkg/xet/xorb.go, pkg/xet/decode.go).
 The LZ4 decompressor is a parameter: given a payload and a cap it yields at most cap + 1 bytes
 or fails.
 */
module Xorb {
  import opened Base

  type Inflate = (seq<Byte>, nat) -> Option<seq<Byte>>

  // ---------------------------------------------------------------- BG4

  /** How many of n positions are congruent to k modulo 4, as the groups are sized. */
  function GroupSize(n: nat, k: nat): nat { n / 4 + Min(Max(n % 4 - k, 0), 1) }

  /** Where each group starts. */
  function GroupStart(n: nat, k: nat): nat {
    if k == 0 then 0
    else if k == 1 then GroupSize(n, 0)
    else if k == 2 then GroupSize(n, 0) + GroupSize(n, 1)
    else GroupSize(n, 0) + GroupSize(n, 1) + GroupSize(n, 2)
  }

  /** Position p of the raw bytes sits in group p % 4 at index p / 4. */
  function Place(n: nat, p: nat): nat { GroupStart(n, p % 4) + p / 4 }

  lemma DivMod4(i: nat, k: nat)
    requires k < 4
    ensures (4 * i + k) / 4 == i && (4 * i + k) % 4 == k
  {
  }

  /** With n = 4q + r, the first r groups hold q + 1 bytes and the others q. */
  lemma Sizes(n: nat, q: nat, r: nat)
    requires r < 4 && n == 4 * q + r
    ensures GroupSize(n, 0) == q + (if 0 < r then 1 else 0) && GroupSize(n, 1) == q + (if 1 < r then 1 else 0)
    ensures GroupSize(n, 2) == q + (if 2 < r then 1 else 0) && GroupSize(n, 3) == q
  {
    DivMod4(q, r);
  }

  lemma PlaceOf(n: nat, i: nat, k: nat)
    requires k < 4
    ensures Place(n, 4 * i + k) == GroupStart(n, k) + i
  {
    DivMod4(i, k);
  }

  lemma InGroup(n: nat, i: nat, k: nat)
    requires k < 4
    ensures 4 * i + k < n <==> i < GroupSize(n, k)
    ensures i < GroupSize(n, k) ==> GroupStart(n, k) + i < n
  {
    Sizes(n, n / 4, n % 4);
  }

  lemma PlaceInside(n: nat, p: nat)
    requires p < n
    ensures Place(n, p) < n
  {
    InGroup(n, p / 4, p % 4);
  }

  /** The inverse: which raw position sits at place q. */
  function Origin(n: nat, q: nat): nat {
    if q < GroupStart(n, 1) then 4 * q
    else if q < GroupStart(n, 2) then 4 * (q - GroupStart(n, 1)) + 1
    else if q < GroupStart(n, 3) then 4 * (q - GroupStart(n, 2)) + 2
    else 4 * (Max(q - GroupStart(n, 3), 0)) + 3
  }

  /** Every place belongs to one group. */
  lemma GroupOf(n: nat, x: nat) returns (k: nat, i: nat)
    requires x < n
    ensures k < 4 && i < GroupSize(n, k) && x == GroupStart(n, k) + i
  {
    Sizes(n, n / 4, n % 4);
    k := if x < GroupStart(n, 1) then 0 else if x < GroupStart(n, 2) then 1 else if x < GroupStart(n, 3) then 2 else 3;
    i := x - GroupStart(n, k);
  }

  lemma ThereAndBack(n: nat, i: nat, k: nat)
    requires k < 4 && i < GroupSize(n, k)
    ensures 4 * i + k < n && GroupStart(n, k) + i < n
    ensures Place(n, 4 * i + k) == GroupStart(n, k) + i && Origin(n, GroupStart(n, k) + i) == 4 * i + k
  {
    InGroup(n, i, k);
    PlaceOf(n, i, k);
  }

  lemma OriginInside(n: nat, x: nat)
    requires x < n
    ensures Origin(n, x) < n && Place(n, Origin(n, x)) == x
  {
    var k, i := GroupOf(n, x);
    ThereAndBack(n, i, k);
  }

  lemma PlaceBack(n: nat, p: nat)
    requires p < n
    ensures Place(n, p) < n && Origin(n, Place(n, p)) == p
  {
    var i, k := p / 4, p % 4;
    assert p == 4 * i + k;
    InGroup(n, i, k);
    ThereAndBack(n, i, k);
  }

  /** The 4-way transpose: every group's bytes in order, group after group. */
  function Transposed(raw: seq<Byte>): (g: seq<Byte>)
    ensures |g| == |raw|
  {
    var n := |raw|;
    seq(n, q requires 0 <= q < n => OriginInside(n, q); raw[Origin(n, q)])
  }

  function Regrouped(g: seq<Byte>): (raw: seq<Byte>)
    ensures |raw| == |g|
  {
    var n := |g|;
    seq(n, p requires 0 <= p < n => PlaceInside(n, p); g[Place(n, p)])
  }

  /** Transposing is what the format describes: group k holds the bytes at positions 4i + k. */
  lemma TransposedGroups(raw: seq<Byte>, k: nat, i: nat)
    requires k < 4 && i < GroupSize(|raw|, k)
    ensures 4 * i + k < |raw| && GroupStart(|raw|, k) + i < |raw|
         && Transposed(raw)[GroupStart(|raw|, k) + i] == raw[4 * i + k]
  {
    ThereAndBack(|raw|, i, k);
  }

  /** Regrouping undoes the transpose, and the transpose undoes regrouping. */
  lemma RegroupInverts(s: seq<Byte>)
    ensures Regrouped(Transposed(s)) == s && Transposed(Regrouped(s)) == s
  {
    var n := |s|;
    forall p | 0 <= p < n ensures Regrouped(Transposed(s))[p] == s[p] {
      PlaceBack(n, p);
    }
    forall q | 0 <= q < n ensures Transposed(Regrouped(s))[q] == s[q] {
      OriginInside(n, q);
    }
  }

  /** The bytes that positions 4i to 4i + 3 take, as far as they exist. */
  lemma RegroupedAt(g: seq<Byte>, i: nat, k: nat)
    requires k < 4 && 4 * i + k < |g|
    ensures GroupStart(|g|, k) + i < |g| && Regrouped(g)[4 * i + k] == g[GroupStart(|g|, k) + i]
  {
    InGroup(|g|, i, k);
    ThereAndBack(|g|, i, k);
  }

  /** Four cursors over the groups, then the one to three bytes left over. */
  method Bg4Regroup(g: seq<Byte>) returns (out: array<Byte>)
    ensures fresh(out) && out[..] == Regrouped(g)
  {
    var n := |g|;
    var split := n / 4;
    var rem := n % 4;
    var s0 := split + Min(rem, 1);
    var s1 := split + Min(Max(rem - 1, 0), 1);
    var s2 := split + Min(Max(rem - 2, 0), 1);
    assert s0 == GroupStart(n, 1) && s0 + s1 == GroupStart(n, 2) && s0 + s1 + s2 == GroupStart(n, 3);
    out := new Byte[n](_ => 0);
    ghost var want := Regrouped(g);
    var i := 0;
    while i < split
      invariant 0 <= i <= split
      invariant forall p | 0 <= p < 4 * i :: out[p] == want[p]
    {
      FillQuad(g, out, i, s0, s1, s2);
      i := i + 1;
    }
    FillTail(g, out, split, rem, s0, s1);
  }

  method FillQuad(g: seq<Byte>, out: array<Byte>, i: nat, s0: nat, s1: nat, s2: nat)
    requires out.Length == |g| && 4 * i + 3 < |g|
    requires s0 == GroupStart(|g|, 1) && s0 + s1 == GroupStart(|g|, 2) && s0 + s1 + s2 == GroupStart(|g|, 3)
    requires forall p | 0 <= p < 4 * i :: out[p] == Regrouped(g)[p]
    modifies out
    ensures forall p | 0 <= p < 4 * (i + 1) :: out[p] == Regrouped(g)[p]
  {
    PutByte(g, out, i, 0, 0);
    PutByte(g, out, i, 1, s0);
    PutByte(g, out, i, 2, s0 + s1);
    PutByte(g, out, i, 3, s0 + s1 + s2);
  }

  method FillTail(g: seq<Byte>, out: array<Byte>, split: nat, rem: nat, s0: nat, s1: nat)
    requires out.Length == |g| == 4 * split + rem && rem < 4
    requires s0 == GroupStart(|g|, 1) && s0 + s1 == GroupStart(|g|, 2)
    requires forall p | 0 <= p < 4 * split :: out[p] == Regrouped(g)[p]
    modifies out
    ensures out[..] == Regrouped(g)
  {
    if rem >= 1 { PutByte(g, out, split, 0, 0); }
    if rem >= 2 { PutByte(g, out, split, 1, s0); }
    if rem == 3 { PutByte(g, out, split, 2, s0 + s1); }
    assert out[..] == Regrouped(g);
  }

  /** The i-th byte of group k, which starts at from, goes to position 4i + k. */
  method PutByte(g: seq<Byte>, out: array<Byte>, i: nat, k: nat, from: nat)
    requires k < 4 && 4 * i + k < out.Length == |g| && from == GroupStart(|g|, k)
    requires forall p | 0 <= p < 4 * i + k :: out[p] == Regrouped(g)[p]
    modifies out
    ensures forall p | 0 <= p < 4 * i + k + 1 :: out[p] == Regrouped(g)[p]
  {
    RegroupedAt(g, i, k);
    out[4 * i + k] := g[from + i];
  }

  // ---------------------------------------------------------------- frames

  const MAX_UNPACKED: nat := 131_072
  const MAX_PACKED: nat := 262_144

  datatype Scheme = NoCompression | Lz4 | Bg4Lz4

  datatype Header = Header(scheme: Scheme, packed: nat, unpacked: nat)

  datatype DataError =
    TruncatedHeader | VersionTooNew | UnknownScheme | PackedTooLong | UnpackedTooLong
    | TruncatedPayload | BadLz4 | LengthMismatch

  function U24(lo: Byte, mid: Byte, hi: Byte): nat { lo + 256 * mid + 65_536 * hi }

  function ParseHeader(b: seq<Byte>): Result<Header, DataError> {
    if |b| < 8 then Err(TruncatedHeader)
    else if b[0] > 0 then Err(VersionTooNew)
    else if b[4] > 2 then Err(UnknownScheme)
    else
      var scheme := if b[4] == 0 then NoCompression else if b[4] == 1 then Lz4 else Bg4Lz4;
      var h := Header(scheme, U24(b[1], b[2], b[3]), U24(b[5], b[6], b[7]));
      if h.packed > MAX_PACKED then Err(PackedTooLong)
      else if h.unpacked > MAX_UNPACKED then Err(UnpackedTooLong)
      else Ok(h)
  }

  predicate Sound(h: Header) { h.packed <= MAX_PACKED && h.unpacked <= MAX_UNPACKED }

  /** The eight bytes of a header. */
  function HeaderBytes(h: Header): seq<Byte>
    requires Sound(h)
  {
    [0, h.packed % 256, h.packed / 256 % 256, h.packed / 65_536,
     match h.scheme case NoCompression => 0 case Lz4 => 1 case Bg4Lz4 => 2,
     h.unpacked % 256, h.unpacked / 256 % 256, h.unpacked / 65_536]
  }

  lemma U24Back(v: nat)
    requires v < 16_777_216
    ensures v / 65_536 < 256 && U24(v % 256, v / 256 % 256, v / 65_536) == v
  {
    assert v / 256 / 256 == v / 65_536;
  }

  lemma U24Parts(lo: Byte, mid: Byte, hi: Byte)
    ensures var v := U24(lo, mid, hi); v % 256 == lo && v / 256 % 256 == mid && v / 65_536 == hi
  {
    var v := U24(lo, mid, hi);
    assert v / 256 == mid + 256 * hi;
  }

  /** Headers parse back to themselves, and every accepted header is one that was written. */
  lemma HeaderRoundTrip(h: Header, t: seq<Byte>)
    requires Sound(h)
    ensures ParseHeader(HeaderBytes(h) + t) == Ok(h)
  {
    U24Back(h.packed);
    U24Back(h.unpacked);
    var b := HeaderBytes(h) + t;
    assert b[..8] == HeaderBytes(h);
  }

  lemma AcceptedHeader(b: seq<Byte>)
    requires ParseHeader(b).Ok?
    ensures Sound(ParseHeader(b).value) && b[..8] == HeaderBytes(ParseHeader(b).value)
  {
    U24Parts(b[1], b[2], b[3]);
    U24Parts(b[5], b[6], b[7]);
  }

  /** A payload decoded as its header says, to exactly the declared length. */
  function DecodeChunk(inflate: Inflate, h: Header, payload: seq<Byte>): Result<seq<Byte>, DataError> {
    var out :=
      match h.scheme
      case NoCompression => Some(payload)
      case Lz4 => inflate(payload, h.unpacked)
      case Bg4Lz4 =>
        (match inflate(payload, h.unpacked)
         case None => None
         case Some(g) => Some(Regrouped(g)));
    if out.None? then Err(BadLz4)
    else if |out.value| != h.unpacked then Err(LengthMismatch)
    else Ok(out.value)
  }

  /** A chunk decodes to raw exactly when raw has the declared length and the payload stands for it. */
  lemma DecodedIff(inflate: Inflate, h: Header, payload: seq<Byte>, raw: seq<Byte>)
    ensures DecodeChunk(inflate, h, payload) == Ok(raw) <==>
              && |raw| == h.unpacked
              && match h.scheme
                 case NoCompression => payload == raw
                 case Lz4 => inflate(payload, h.unpacked) == Some(raw)
                 case Bg4Lz4 => inflate(payload, h.unpacked) == Some(Transposed(raw))
    ensures DecodeChunk(inflate, h, payload) == Err(BadLz4) <==>
              h.scheme != NoCompression && inflate(payload, h.unpacked) == None
  {
    RegroupInverts(raw);
    if h.scheme == Bg4Lz4 && inflate(payload, h.unpacked).Some? {
      RegroupInverts(inflate(payload, h.unpacked).value);
    }
  }

  function Prepend(c: seq<Byte>, r: Result<seq<seq<Byte>>, DataError>): Result<seq<seq<Byte>>, DataError> {
    if r.Ok? then Ok([c] + r.value) else r
  }

  datatype Step = Step(chunk: seq<Byte>, used: nat)

  /** The first frame of the data: its decoded chunk and its length in bytes. */
  function DecodeFirst(inflate: Inflate, data: seq<Byte>): (r: Result<Step, DataError>)
    ensures r.Ok? ==> 8 <= r.value.used <= |data|
  {
    var h := ParseHeader(data);
    if h.Err? then Err(h.error)
    else if |data| - 8 < h.value.packed then Err(TruncatedPayload)
    else
      var c := DecodeChunk(inflate, h.value, data[8..8 + h.value.packed]);
      if c.Err? then Err(c.error) else Ok(Step(c.value, 8 + h.value.packed))
  }

  function DecodeChunks(inflate: Inflate, data: seq<Byte>): Result<seq<seq<Byte>>, DataError>
    decreases |data|
  {
    if data == [] then Ok([])
    else
      var f := DecodeFirst(inflate, data);
      if f.Err? then Err(f.error) else Prepend(f.value.chunk, DecodeChunks(inflate, data[f.value.used..]))
  }

  datatype Frame = Frame(scheme: Scheme, payload: seq<Byte>, unpacked: nat)

  predicate Fits(f: Frame) { |f.payload| <= MAX_PACKED && f.unpacked <= MAX_UNPACKED }

  predicate AllFit(frames: seq<Frame>) { frames != [] ==> Fits(frames[0]) && AllFit(frames[1..]) }

  function HeaderOf(f: Frame): Header { Header(f.scheme, |f.payload|, f.unpacked) }

  function FrameBytes(frames: seq<Frame>): seq<Byte>
    requires AllFit(frames)
  {
    if frames == [] then [] else HeaderBytes(HeaderOf(frames[0])) + frames[0].payload + FrameBytes(frames[1..])
  }

  /** The chunks of a list of frames, or the first failure. */
  function Chunks(inflate: Inflate, frames: seq<Frame>): Result<seq<seq<Byte>>, DataError> {
    if frames == [] then Ok([])
    else
      var c := DecodeChunk(inflate, HeaderOf(frames[0]), frames[0].payload);
      if c.Err? then Err(c.error) else Prepend(c.value, Chunks(inflate, frames[1..]))
  }

  /** Decoding framed bytes decodes the frames, one by one. */
  lemma {:induction false} FramesRoundTrip(inflate: Inflate, frames: seq<Frame>)
    requires AllFit(frames)
    ensures DecodeChunks(inflate, FrameBytes(frames)) == Chunks(inflate, frames)
  {
    if frames != [] {
      var f := frames[0];
      var rest := FrameBytes(frames[1..]);
      var data := FrameBytes(frames);
      assert data == HeaderBytes(HeaderOf(f)) + (f.payload + rest);
      HeaderRoundTrip(HeaderOf(f), f.payload + rest);
      assert data[8..8 + |f.payload|] == f.payload && data[8 + |f.payload|..] == rest;
      FramesRoundTrip(inflate, frames[1..]);
    }
  }

  /** Accepted data is exactly a list of frames: nothing trails, nothing is skipped. */
  lemma {:induction false} AcceptedIsFrames(inflate: Inflate, data: seq<Byte>) returns (frames: seq<Frame>)
    requires DecodeChunks(inflate, data).Ok?
    ensures AllFit(frames) && FrameBytes(frames) == data
    ensures Chunks(inflate, frames) == DecodeChunks(inflate, data)
    decreases |data|
  {
    if data == [] {
      frames := [];
    } else {
      var h := ParseHeader(data).value;
      AcceptedHeader(data);
      var f := Frame(h.scheme, data[8..8 + h.packed], h.unpacked);
      var rest := AcceptedIsFrames(inflate, data[8 + h.packed..]);
      frames := [f] + rest;
      assert frames[1..] == rest;
      ThreeParts(data, 8, h.packed);
    }
  }

  lemma ThreeParts(data: seq<Byte>, a: nat, b: nat)
    requires a + b <= |data|
    ensures data == data[..a] + data[a..a + b] + data[a + b..]
  {
  }

  function Stored(chunks: seq<seq<Byte>>): (frames: seq<Frame>)
    ensures |frames| == |chunks|
    ensures forall i | 0 <= i < |frames| :: frames[i] == Frame(NoCompression, chunks[i], |chunks[i]|)
  {
    seq(|chunks|, i requires 0 <= i < |chunks| => Frame(NoCompression, chunks[i], |chunks[i]|))
  }

  /** Scheme-none framing round trips for every list of chunks within the size limit. */
  lemma {:induction false} StoredRoundTrip(inflate: Inflate, chunks: seq<seq<Byte>>)
    requires forall i | 0 <= i < |chunks| :: |chunks[i]| <= MAX_UNPACKED
    ensures AllFit(Stored(chunks)) && DecodeChunks(inflate, FrameBytes(Stored(chunks))) == Ok(chunks)
  {
    StoredFit(chunks);
    FramesRoundTrip(inflate, Stored(chunks));
    StoredChunks(inflate, chunks);
  }

  lemma {:induction false} StoredFit(chunks: seq<seq<Byte>>)
    requires forall i | 0 <= i < |chunks| :: |chunks[i]| <= MAX_UNPACKED
    ensures AllFit(Stored(chunks))
  {
    if chunks != [] {
      assert Stored(chunks)[1..] == Stored(chunks[1..]);
      StoredFit(chunks[1..]);
    }
  }

  lemma {:induction false} StoredChunks(inflate: Inflate, chunks: seq<seq<Byte>>)
    ensures Chunks(inflate, Stored(chunks)) == Ok(chunks)
  {
    if chunks != [] {
      assert Stored(chunks)[1..] == Stored(chunks[1..]);
      StoredChunks(inflate, chunks[1..]);
      assert chunks == [chunks[0]] + chunks[1..];
    }
  }

  /** A chunk and how to pack it. */
  datatype Item = Item(scheme: Scheme, chunk: seq<Byte>)

  function PackedAs(deflate: seq<Byte> -> seq<Byte>, it: Item): seq<Byte> {
    match it.scheme
    case NoCompression => it.chunk
    case Lz4 => deflate(it.chunk)
    case Bg4Lz4 => deflate(Transposed(it.chunk))
  }

  function Packed(deflate: seq<Byte> -> seq<Byte>, items: seq<Item>): seq<Frame> {
    if items == [] then []
    else [Frame(items[0].scheme, PackedAs(deflate, items[0]), |items[0].chunk|)] + Packed(deflate, items[1..])
  }

  function ChunksOf(items: seq<Item>): seq<seq<Byte>> {
    if items == [] then [] else [items[0].chunk] + ChunksOf(items[1..])
  }

  /** The compressor's output unpacks to its input, given room for it. */
  ghost predicate Inverts(inflate: Inflate, deflate: seq<Byte> -> seq<Byte>) {
    forall raw, room: nat | |raw| <= room :: inflate(deflate(raw), room) == Some(raw)
  }

  /** Frames of all three schemes, mixed in any order, decode to the chunks they were made from. */
  lemma {:induction false} PackedRoundTrip(inflate: Inflate, deflate: seq<Byte> -> seq<Byte>, items: seq<Item>)
    requires Inverts(inflate, deflate) && AllFit(Packed(deflate, items))
    ensures DecodeChunks(inflate, FrameBytes(Packed(deflate, items))) == Ok(ChunksOf(items))
  {
    FramesRoundTrip(inflate, Packed(deflate, items));
    PackedChunks(inflate, deflate, items);
  }

  lemma {:induction false} PackedChunks(inflate: Inflate, deflate: seq<Byte> -> seq<Byte>, items: seq<Item>)
    requires Inverts(inflate, deflate)
    ensures Chunks(inflate, Packed(deflate, items)) == Ok(ChunksOf(items))
  {
    if items != [] {
      var it := items[0];
      var frames := Packed(deflate, items);
      assert frames[1..] == Packed(deflate, items[1..]);
      PackedChunks(inflate, deflate, items[1..]);
      DecodedIff(inflate, HeaderOf(frames[0]), frames[0].payload, it.chunk);
    }
  }

  /** One pass of the parse loop. */
  method DecodeAt(inflate: Inflate, data: seq<Byte>, off: nat) returns (r: Result<Step, DataError>)
    requires off < |data|
    ensures r == DecodeFirst(inflate, data[off..])
  {
    var h := ParseHeader(data[off..]);
    if h.Err? {
      return Err(h.error);
    }
    var at := off + 8;
    if |data| - at < h.value.packed {
      return Err(TruncatedPayload);
    }
    assert data[off..][8..8 + h.value.packed] == data[at..at + h.value.packed];
    var c := DecodeChunk(inflate, h.value, data[at..at + h.value.packed]);
    if c.Err? {
      return Err(c.error);
    }
    return Ok(Step(c.value, 8 + h.value.packed));
  }

  /** The same, with what it adds to the chunks parsed before it. */
  method ParseOn(inflate: Inflate, data: seq<Byte>, off: nat, ghost chunks: seq<seq<Byte>>)
    returns (r: Result<Step, DataError>)
    requires off < |data| && Parsed(inflate, data, off, chunks)
    ensures r.Err? ==> DecodeChunks(inflate, data) == Err(r.error)
    ensures r.Ok? ==>
              && 0 < r.value.used <= |data| - off
              && Parsed(inflate, data, off + r.value.used, chunks + [r.value.chunk])
  {
    r := DecodeAt(inflate, data, off);
    Advance(inflate, data, off, chunks, r);
  }

  /** The parse loop. */
  method DecodeXorbChunks(inflate: Inflate, data: seq<Byte>) returns (r: Result<seq<seq<Byte>>, DataError>)
    ensures r == DecodeChunks(inflate, data)
  {
    var chunks := [];
    var off := 0;
    ParsedEnds(inflate, data, []);
    while off < |data|
      invariant 0 <= off <= |data| && Parsed(inflate, data, off, chunks)
      decreases |data| - off
    {
      var f := ParseOn(inflate, data, off, chunks);
      if f.Err? {
        return Err(f.error);
      }
      off := off + f.value.used;
      chunks := chunks + [f.value.chunk];
    }
    ParsedEnds(inflate, data, chunks);
    return Ok(chunks);
  }

  /** What is parsed so far and what is still ahead make up the whole. */
  predicate Parsed(inflate: Inflate, data: seq<Byte>, off: nat, chunks: seq<seq<Byte>>)
    requires off <= |data|
  {
    DecodeChunks(inflate, data) == After(chunks, DecodeChunks(inflate, data[off..]))
  }

  lemma Advance(inflate: Inflate, data: seq<Byte>, off: nat, chunks: seq<seq<Byte>>, f: Result<Step, DataError>)
    requires off < |data| && Parsed(inflate, data, off, chunks) && f == DecodeFirst(inflate, data[off..])
    ensures f.Err? ==> DecodeChunks(inflate, data) == Err(f.error)
    ensures f.Ok? ==>
              && 0 < f.value.used <= |data| - off
              && Parsed(inflate, data, off + f.value.used, chunks + [f.value.chunk])
  {
    if f.Ok? {
      assert data[off..][f.value.used..] == data[off + f.value.used..];
      AfterPrepend(chunks, f.value.chunk, DecodeChunks(inflate, data[off + f.value.used..]));
    }
  }

  lemma ParsedEnds(inflate: Inflate, data: seq<Byte>, chunks: seq<seq<Byte>>)
    ensures Parsed(inflate, data, 0, [])
    ensures Parsed(inflate, data, |data|, chunks) ==> DecodeChunks(inflate, data) == Ok(chunks)
  {
    assert data[0..] == data && data[|data|..] == [];
    AfterNothing(DecodeChunks(inflate, data));
    assert chunks + [] == chunks;
  }

  function After(chunks: seq<seq<Byte>>, r: Result<seq<seq<Byte>>, DataError>): Result<seq<seq<Byte>>, DataError> {
    if r.Ok? then Ok(chunks + r.value) else r
  }

  lemma AfterNothing(r: Result<seq<seq<Byte>>, DataError>)
    ensures After([], r) == r
  {
    if r.Ok? { assert [] + r.value == r.value; }
  }

  lemma AfterPrepend(chunks: seq<seq<Byte>>, c: seq<Byte>, r: Result<seq<seq<Byte>>, DataError>)
    ensures After(chunks, Prepend(c, r)) == After(chunks + [c], r)
  {
    if r.Ok? { assert chunks + ([c] + r.value) == chunks + [c] + r.value; }
  }
}
