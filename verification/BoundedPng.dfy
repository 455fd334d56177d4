// The chunk walk over a small PNG file (RFC 2083, section 3.2): a fixed signature, then chunks of
// length, type, body and checksum, of the three critical kinds only, with bounded dimensions.
module BoundedPng {
  type byte = n: int | 0 <= n < 256
  type uint32 = n: int | 0 <= n < 0x1_0000_0000

  // The checksum is any function of the chunk type and body.
  type Checksum = seq<byte> -> uint32

  const SIGNATURE: seq<byte> := [0x89, 0x50, 0x4E, 0x47, 0x0D, 0x0A, 0x1A, 0x0A]
  const IHDR: seq<byte> := [0x49, 0x48, 0x44, 0x52]
  const IDAT: seq<byte> := [0x49, 0x44, 0x41, 0x54]
  const IEND: seq<byte> := [0x49, 0x45, 0x4E, 0x44]
  const MAX_WIDTH := 900
  const MAX_HEIGHT := 180

  // A four-byte big-endian number.
  function U32(b: seq<byte>): uint32
    requires |b| == 4
  {
    var b0: int, b1: int, b2: int, b3: int := b[0], b[1], b[2], b[3];
    ((b0 * 256 + b1) * 256 + b2) * 256 + b3
  }

  function Bytes(n: uint32): (b: seq<byte>)
    ensures |b| == 4 && U32(b) == n
  {
    var high: int, low: int := n / 0x1_0000, n % 0x1_0000;
    [high / 256, high % 256, low / 256, low % 256]
  }

  lemma BytesOfU32(b: seq<byte>)
    requires |b| == 4
    ensures Bytes(U32(b)) == b
  {
    var b0: int, b1: int, b2: int, b3: int := b[0], b[1], b[2], b[3];
    var n: int := U32(b);
    var high, low := b0 * 256 + b1, b2 * 256 + b3;
    assert n == high * 0x1_0000 + low && 0 <= low < 0x1_0000;
    assert n / 0x1_0000 == high && n % 0x1_0000 == low;
  }

  datatype Chunk = Chunk(kind: seq<byte>, body: seq<byte>)

  // A chunk that the walk accepts on its own.
  predicate WellFormed(c: Chunk) {
    && (c.kind == IHDR || c.kind == IDAT || c.kind == IEND)
    && |c.body| < 0x1_0000_0000
    && (c.kind == IHDR ==>
          && |c.body| == 13
          && 0 < U32(c.body[..4]) <= MAX_WIDTH
          && 0 < U32(c.body[4..8]) <= MAX_HEIGHT)
  }

  function EncodeChunk(crc: Checksum, c: Chunk): (r: seq<byte>)
    requires WellFormed(c)
    ensures |r| == 12 + |c.body|
  {
    Bytes(|c.body|) + c.kind + c.body + Bytes(crc(c.kind + c.body))
  }

  function EncodeChunks(crc: Checksum, chunks: seq<Chunk>): seq<byte>
    requires WellFormedAll(chunks)
  {
    if chunks == [] then [] else EncodeChunk(crc, chunks[0]) + EncodeChunks(crc, chunks[1..])
  }

  predicate WellFormedAll(chunks: seq<Chunk>) {
    forall i :: 0 <= i < |chunks| ==> WellFormed(chunks[i])
  }

  // The accepted pictures: a header, one or more data chunks, an end mark.
  predicate Picture(chunks: seq<Chunk>) {
    && |chunks| >= 3
    && WellFormedAll(chunks)
    && chunks[0].kind == IHDR
    && chunks[|chunks| - 1].kind == IEND
    && forall i :: 0 < i < |chunks| - 1 ==> chunks[i].kind == IDAT
  }

  function Encode(crc: Checksum, chunks: seq<Chunk>): seq<byte>
    requires Picture(chunks)
  {
    SIGNATURE + EncodeChunks(crc, chunks)
  }

  datatype Option<+T> = None | Some(value: T)

  // The chunk at `offset`, read field by field, when there is an acceptable one.
  function ReadAt(crc: Checksum, data: seq<byte>, offset: nat): (r: Option<Chunk>)
    ensures r.Some? ==> WellFormed(r.value) && offset + 12 + |r.value.body| <= |data|
  {
    if offset + 12 > |data| then None
    else
      var length := U32(data[offset..offset + 4]);
      var kind := data[offset + 4..offset + 8];
      if !((kind == IHDR || kind == IDAT || kind == IEND) && offset + 12 + length <= |data|) then None
      else
        var body := data[offset + 8..offset + 8 + length];
        if crc(kind + body) != U32(data[offset + 8 + length..offset + 12 + length]) then None
        else if WellFormed(Chunk(kind, body)) then Some(Chunk(kind, body))
        else None
  }

  // All chunks from `offset` on, when they fill the data exactly.
  function Walk(crc: Checksum, data: seq<byte>, offset: nat): Option<seq<Chunk>>
    requires offset <= |data|
    decreases |data| - offset
  {
    if offset == |data| then Some([])
    else
      var c := ReadAt(crc, data, offset);
      if c.None? then None else Prepend([c.value], Walk(crc, data, offset + 12 + |c.value.body|))
  }

  function Prepend(before: seq<Chunk>, walk: Option<seq<Chunk>>): Option<seq<Chunk>> {
    if walk.None? then None else Some(before + walk.value)
  }

  lemma ReadIsEncoding(crc: Checksum, data: seq<byte>, offset: nat)
    requires ReadAt(crc, data, offset).Some?
    ensures var c := ReadAt(crc, data, offset).value;
            EncodeChunk(crc, c) == data[offset..offset + 12 + |c.body|]
  {
    var c := ReadAt(crc, data, offset).value;
    var length := |c.body|;
    var tag, sum := data[offset..offset + 4], data[offset + 8 + length..offset + 12 + length];
    BytesOfU32(tag);
    BytesOfU32(sum);
    assert c.kind == data[offset + 4..offset + 8] && c.body == data[offset + 8..offset + 8 + length];
    assert U32(tag) == length && U32(sum) == crc(c.kind + c.body);
    assert EncodeChunk(crc, c) == tag + c.kind + c.body + sum;
    assert tag + data[offset + 4..offset + 8] + data[offset + 8..offset + 8 + length] + sum
      == data[offset..offset + 12 + length];
  }

  lemma Parts(a: seq<byte>, b: seq<byte>, c: seq<byte>, d: seq<byte>)
    ensures var all := a + b + c + d;
            && all[0..|a|] == a
            && all[|a|..|a| + |b|] == b
            && all[|a| + |b|..|a| + |b| + |c|] == c
            && all[|a| + |b| + |c|..|a| + |b| + |c| + |d|] == d
  {
  }

  lemma Subslice(data: seq<byte>, low: nat, high: nat, i: nat, j: nat)
    requires low <= high <= |data| && i <= j <= high - low
    ensures data[low..high][i..j] == data[low + i..low + j]
  {
    var whole, part := data[low..high][i..j], data[low + i..low + j];
    assert |whole| == |part| && forall k :: 0 <= k < |part| ==> whole[k] == part[k];
  }

  // The four fields of a chunk, seen from the whole data.
  lemma Fields(data: seq<byte>, offset: nat, tag: seq<byte>, kind: seq<byte>, body: seq<byte>, sum: seq<byte>)
    requires |tag| == 4 && |kind| == 4 && |sum| == 4 && offset + 12 + |body| <= |data|
    requires data[offset..offset + 12 + |body|] == tag + kind + body + sum
    ensures data[offset..offset + 4] == tag && data[offset + 4..offset + 8] == kind
    ensures data[offset + 8..offset + 8 + |body|] == body
    ensures data[offset + 8 + |body|..offset + 12 + |body|] == sum
  {
    Parts(tag, kind, body, sum);
    Subslice(data, offset, offset + 12 + |body|, 0, 4);
    Subslice(data, offset, offset + 12 + |body|, 4, 8);
    Subslice(data, offset, offset + 12 + |body|, 8, 8 + |body|);
    Subslice(data, offset, offset + 12 + |body|, 8 + |body|, 12 + |body|);
  }

  lemma EncodingIsRead(crc: Checksum, data: seq<byte>, offset: nat, c: Chunk)
    requires WellFormed(c) && offset + 12 + |c.body| <= |data|
    requires data[offset..offset + 12 + |c.body|] == EncodeChunk(crc, c)
    ensures ReadAt(crc, data, offset) == Some(c)
  {
    hide U32, Bytes, WellFormed;
    var tag: seq<byte>, sum: seq<byte> := Bytes(|c.body|), Bytes(crc(c.kind + c.body));
    KindOf(c);
    Fields(data, offset, tag, c.kind, c.body, sum);
  }

  lemma KindOf(c: Chunk)
    requires WellFormed(c)
    ensures |c.kind| == 4 && c.kind in {IHDR, IDAT, IEND}
  {
  }

  // Walking is the inverse of encoding, in both directions: what the walk finds re-encodes to
  // the same bytes, and every encoding is walked back to the chunks it came from.
  lemma {:induction false} WalkReencodes(crc: Checksum, data: seq<byte>, offset: nat)
    requires offset <= |data| && Walk(crc, data, offset).Some?
    ensures var chunks := Walk(crc, data, offset).value;
            WellFormedAll(chunks) && EncodeChunks(crc, chunks) == data[offset..]
    decreases |data| - offset
  {
    hide EncodeChunk, WellFormed, ReadAt, U32, Bytes;
    if offset < |data| {
      var c := ReadAt(crc, data, offset).value;
      var next := offset + 12 + |c.body|;
      ReadIsEncoding(crc, data, offset);
      WalkReencodes(crc, data, next);
      assert Walk(crc, data, offset).value[1..] == Walk(crc, data, next).value;
      assert data[offset..] == data[offset..next] + data[next..];
    }
  }

  lemma Halves(data: seq<byte>, offset: nat, left: seq<byte>, right: seq<byte>)
    requires offset <= |data| && data[offset..] == left + right
    ensures offset + |left| <= |data|
    ensures data[offset..offset + |left|] == left && data[offset + |left|..] == right
  {
    assert data[offset..offset + |left|] == data[offset..][..|left|];
    assert data[offset + |left|..] == data[offset..][|left|..];
  }

  lemma {:induction false} EncodingIsWalked(crc: Checksum, chunks: seq<Chunk>, data: seq<byte>, offset: nat)
    requires WellFormedAll(chunks)
    requires offset <= |data| && data[offset..] == EncodeChunks(crc, chunks)
    ensures Walk(crc, data, offset) == Some(chunks)
    decreases |chunks|
  {
    hide EncodeChunk, WellFormed, ReadAt, U32, Bytes;
    if chunks == [] {
      assert offset == |data|;
    } else {
      var c, rest := chunks[0], EncodeChunks(crc, chunks[1..]);
      var frame := EncodeChunk(crc, c);
      var next := offset + 12 + |c.body|;
      assert |frame| == 12 + |c.body| && data[offset..] == frame + rest;
      assert |data| - offset == |frame| + |rest|;
      Halves(data, offset, frame, rest);
      EncodingIsRead(crc, data, offset, c);
      EncodingIsWalked(crc, chunks[1..], data, next);
      assert chunks == [c] + chunks[1..];
    }
  }

  // What a list of kinds must look like, in the counting form the walk ends with.
  function Count(kinds: seq<seq<byte>>, kind: seq<byte>): nat {
    if kinds == [] then 0
    else Count(kinds[..|kinds| - 1], kind) + (if kinds[|kinds| - 1] == kind then 1 else 0)
  }

  predicate KindsAccepted(kinds: seq<seq<byte>>) {
    && kinds != [] && kinds[0] == IHDR && kinds[|kinds| - 1] == IEND && Count(kinds, IHDR) == 1
    && IDAT in kinds && Count(kinds, IEND) == 1
  }

  function Kinds(chunks: seq<Chunk>): (kinds: seq<seq<byte>>)
    ensures |kinds| == |chunks|
    ensures forall i :: 0 <= i < |chunks| ==> kinds[i] == chunks[i].kind
  {
    seq(|chunks|, i requires 0 <= i < |chunks| => chunks[i].kind)
  }

  lemma {:induction false} CountBounds(kinds: seq<seq<byte>>, kind: seq<byte>, i: nat)
    requires i < |kinds| && kinds[i] == kind
    ensures Count(kinds, kind) >= 1
    ensures forall j :: 0 <= j < |kinds| && j != i && kinds[j] == kind ==> Count(kinds, kind) >= 2
    decreases |kinds|
  {
    var init := kinds[..|kinds| - 1];
    forall j | 0 <= j < |kinds| && j != i && kinds[j] == kind
      ensures Count(kinds, kind) >= 2
    {
      if i == |kinds| - 1 {
        CountBounds(init, kind, j);
      } else {
        CountBounds(init, kind, i);
        if j < |kinds| - 1 {
          assert init[j] == kind;
        }
      }
    }
    if i < |kinds| - 1 {
      CountBounds(init, kind, i);
    }
  }

  lemma {:induction false} CountNone(kinds: seq<seq<byte>>, kind: seq<byte>)
    requires kind !in kinds
    ensures Count(kinds, kind) == 0
  {
    if kinds != [] {
      CountNone(kinds[..|kinds| - 1], kind);
    }
  }

  lemma {:induction false} CountOne(kinds: seq<seq<byte>>, kind: seq<byte>, i: nat)
    requires i < |kinds| && kinds[i] == kind
    requires forall j :: 0 <= j < |kinds| && j != i ==> kinds[j] != kind
    ensures Count(kinds, kind) == 1
    decreases |kinds|
  {
    var init := kinds[..|kinds| - 1];
    if i == |kinds| - 1 {
      CountNone(init, kind);
    } else {
      CountOne(init, kind, i);
    }
  }

  // The counting test on kinds accepts exactly header, data chunks, end mark.
  lemma CountingIsShape(chunks: seq<Chunk>)
    requires WellFormedAll(chunks)
    ensures KindsAccepted(Kinds(chunks)) <==> Picture(chunks)
  {
    hide U32, Count;
    var kinds := Kinds(chunks);
    var n := |chunks|;
    if KindsAccepted(kinds) {
      CountBounds(kinds, IHDR, 0);
      CountBounds(kinds, IEND, n - 1);
      var d :| 0 <= d < n && kinds[d] == IDAT;
      forall i | 0 < i < n - 1
        ensures chunks[i].kind == IDAT
      {
        assert kinds[i] != IHDR && kinds[i] != IEND;
        assert WellFormed(chunks[i]);
      }
    }
    if Picture(chunks) {
      CountOne(kinds, IHDR, 0);
      CountOne(kinds, IEND, n - 1);
      assert kinds[1] == IDAT;
    }
  }

  ghost predicate IsEncodedPicture(crc: Checksum, data: seq<byte>) {
    exists picture :: Picture(picture) && Encode(crc, picture) == data
  }

  // The walk from the first chunk on has read `chunks` and stands at `offset`.
  ghost predicate Reached(crc: Checksum, data: seq<byte>, offset: nat, chunks: seq<Chunk>)
    requires 8 <= offset <= |data|
  {
    Walk(crc, data, 8) == Prepend(chunks, Walk(crc, data, offset))
  }

  lemma ReachStart(crc: Checksum, data: seq<byte>)
    requires |data| >= 8
    ensures Reached(crc, data, 8, [])
  {
    var walk := Walk(crc, data, 8);
    if walk.Some? {
      assert [] + walk.value == walk.value;
    }
  }

  lemma ReachNext(crc: Checksum, data: seq<byte>, offset: nat, chunks: seq<Chunk>, c: Chunk, next: nat)
    requires 8 <= offset < |data| && Reached(crc, data, offset, chunks)
    requires ReadAt(crc, data, offset) == Some(c) && next == offset + 12 + |c.body|
    ensures next <= |data| && Reached(crc, data, next, chunks + [c])
  {
    hide U32, ReadAt;
    var walk := Walk(crc, data, next);
    if walk.Some? {
      assert chunks + ([c] + walk.value) == (chunks + [c]) + walk.value;
    }
  }

  lemma ReachNothing(crc: Checksum, data: seq<byte>, offset: nat, chunks: seq<Chunk>)
    requires 8 <= offset < |data| && SIGNATURE <= data && Reached(crc, data, offset, chunks)
    requires ReadAt(crc, data, offset).None?
    ensures !IsEncodedPicture(crc, data)
  {
    forall picture | Picture(picture)
      ensures Encode(crc, picture) != data
    {
      if Encode(crc, picture) == data {
        EncodingIsWalked(crc, picture, data, 8);
      }
    }
  }

  lemma ReachEnd(crc: Checksum, data: seq<byte>, chunks: seq<Chunk>)
    requires SIGNATURE <= data && Reached(crc, data, |data|, chunks) && WellFormedAll(chunks)
    ensures KindsAccepted(Kinds(chunks)) <==> IsEncodedPicture(crc, data)
  {
    assert chunks + [] == chunks;
    CountingIsShape(chunks);
    WalkReencodes(crc, data, 8);
    assert data == SIGNATURE + data[8..];
    forall picture | Picture(picture) && Encode(crc, picture) == data
      ensures picture == chunks
    {
      EncodingIsWalked(crc, picture, data, 8);
    }
  }

  // The walk: `offset` moves from chunk to chunk and `kinds` collects their types. The bytes
  // accepted are exactly the encodings of pictures.
  method BoundedPng(crc: Checksum, data: seq<byte>) returns (accepted: bool)
    ensures accepted <==> IsEncodedPicture(crc, data)
  {
    hide U32, Walk, Count, Reached;
    if !(SIGNATURE <= data) {
      return false;
    }
    var offset := 8;
    var kinds: seq<seq<byte>> := [];
    ghost var chunks: seq<Chunk> := [];
    ReachStart(crc, data);
    while offset < |data|
      invariant 8 <= offset <= |data|
      invariant WellFormedAll(chunks) && kinds == Kinds(chunks)
      invariant Reached(crc, data, offset, chunks)
    {
      if ReadAt(crc, data, offset).None? {
        ReachNothing(crc, data, offset, chunks);
      }
      if offset + 12 > |data| {
        return false;
      }
      var length := U32(data[offset..offset + 4]);
      var kind := data[offset + 4..offset + 8];
      if !((kind == IHDR || kind == IDAT || kind == IEND) && offset + 12 + length <= |data|) {
        return false;
      }
      var body := data[offset + 8..offset + 8 + length];
      if crc(kind + body) != U32(data[offset + 8 + length..offset + 12 + length]) {
        return false;
      }
      if kind == IHDR && (length != 13 || !(0 < U32(body[..4]) <= MAX_WIDTH && 0 < U32(body[4..8]) <= MAX_HEIGHT)) {
        return false;
      }
      ghost var c := Chunk(kind, body);
      ReachNext(crc, data, offset, chunks, c, offset + 12 + length);
      kinds := kinds + [kind];
      chunks := chunks + [c];
      offset := offset + 12 + length;
    }
    ReachEnd(crc, data, chunks);
    accepted := KindsAccepted(kinds);
  }

  // At most one picture has a given encoding.
  lemma DecodingIsUnique(crc: Checksum, a: seq<Chunk>, b: seq<Chunk>)
    requires Picture(a) && Picture(b) && Encode(crc, a) == Encode(crc, b)
    ensures a == b
  {
    var data := Encode(crc, a);
    EncodingIsWalked(crc, a, data, 8);
    EncodingIsWalked(crc, b, data, 8);
  }
}
