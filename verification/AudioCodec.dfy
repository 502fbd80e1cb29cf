/** The datagrams a frame is cut into: what encode_frame writes and decode accepts. */
module AudioCodec {
  import opened Common
  import opened AudioFormat
  import opened ByteOrder

  const HEADER_BYTES: nat := 72
  const MAX_PACKET_BYTES: nat := 9216
  const MAX_FRAGMENTS: nat := 32
  const MEDIA_VERSION: nat := 1
  const MAGIC: seq<byte> := [0x52, 0x53, 0x41, 0x55]

  datatype Header = Header(
    stream: seq<byte>,
    generation: nat,
    sequence: nat,
    position: nat,
    format: Format,
    index: nat,
    count: nat,
    offset: nat,
    total: nat)

  // ----- Writing

  function EncodingCode(encoding: Encoding): byte {
    if encoding.Pcm24? then 1 else 2
  }

  /** The fields of a packet in wire order; the last one is the chunk of frame data. */
  function Fields(h: Header, chunk: seq<byte>): seq<seq<byte>> {
    [MAGIC, BigEndian(MEDIA_VERSION, 2), BigEndian(HEADER_BYTES, 2), h.stream,
     BigEndian(h.generation, 8), BigEndian(h.sequence, 8), BigEndian(h.position, 8),
     BigEndian(h.format.sampleRate, 4), [h.format.channels], [EncodingCode(h.format.encoding)],
     BigEndian(FramesPerPacket(h.format), 2), BigEndian(h.index, 2), BigEndian(h.count, 2),
     BigEndian(h.offset, 4), BigEndian(h.total, 4), BigEndian(|chunk|, 2), BigEndian(0, 2), chunk]
  }

  function Concat(parts: seq<seq<byte>>): seq<byte> {
    if parts == [] then [] else Concat(parts[..|parts| - 1]) + parts[|parts| - 1]
  }

  function Packet(h: Header, chunk: seq<byte>): seq<byte> {
    Concat(Fields(h, chunk))
  }

  function ChunkStart(index: nat, chunkBytes: nat): nat {
    index * chunkBytes
  }

  function ChunkEnd(index: nat, chunkBytes: nat, total: nat): nat {
    Min((index + 1) * chunkBytes, total)
  }

  function FragmentCount(total: nat, chunkBytes: nat): nat
    requires chunkBytes > 0
  {
    (total + chunkBytes - 1) / chunkBytes
  }

  datatype Source = Source(stream: seq<byte>, generation: nat, sequence: nat, position: nat, format: Format,
      data: seq<byte>, mtu: nat)

  /** What the types of encode_frame's arguments say of them. */
  predicate WellTyped(s: Source) {
    |s.stream| == 16 && s.generation < U64_LIMIT && s.sequence < U64_LIMIT && s.position < U64_LIMIT
  }

  function EncodeCheck(s: Source): Option<AudioError> {
    if !ValidFormat(s.format) then Some(UnsupportedFormat)
    else if s.generation == 0 || |s.data| != PacketBytes(s.format) || s.mtu <= HEADER_BYTES
        || s.mtu > 65535 then Some(InvalidPacket)
    else if FragmentCount(|s.data|, s.mtu - HEADER_BYTES) > MAX_FRAGMENTS then Some(InvalidPacket)
    else None
  }

  /** A frame can be cut exactly when its data has the size of its format and 32 datagrams of the MTU hold it. */
  lemma EncodesExactlyWhen(s: Source)
    ensures EncodeCheck(s).None?
        <==> ValidFormat(s.format) && s.generation > 0 && |s.data| == PacketBytes(s.format)
             && 72 < s.mtu <= 65535 && |s.data| <= 32 * (s.mtu - 72)
    ensures EncodeCheck(s) == Some(UnsupportedFormat) <==> !ValidFormat(s.format)
    ensures EncodeCheck(s).Some? && ValidFormat(s.format) ==> EncodeCheck(s) == Some(InvalidPacket)
  {
    if s.mtu > 72 {
      var chunk := s.mtu - 72;
      DivisionBounds(|s.data| + chunk - 1, chunk);
      var count := FragmentCount(|s.data|, chunk);
      if count <= 32 {
        TimesGrows(count, 32, chunk);
      } else {
        TimesGrows(33, count, chunk);
      }
    }
  }

  function HeaderOf(s: Source, index: nat): Header
    requires EncodeCheck(s).None?
  {
    var chunkBytes := s.mtu - HEADER_BYTES;
    Header(s.stream, s.generation, s.sequence, s.position, s.format, index,
           FragmentCount(|s.data|, chunkBytes), ChunkStart(index, chunkBytes), |s.data|)
  }

  lemma ChunkBounds(total: nat, chunkBytes: nat, index: nat)
    requires chunkBytes > 0 && index < FragmentCount(total, chunkBytes)
    ensures ChunkStart(index, chunkBytes) < ChunkEnd(index, chunkBytes, total) <= total
    ensures ChunkEnd(index, chunkBytes, total) - ChunkStart(index, chunkBytes) <= chunkBytes
    ensures index + 1 < FragmentCount(total, chunkBytes) ==>
            ChunkEnd(index, chunkBytes, total) == ChunkStart(index + 1, chunkBytes)
    ensures index + 1 == FragmentCount(total, chunkBytes) ==> ChunkEnd(index, chunkBytes, total) == total
  {
    var count := FragmentCount(total, chunkBytes);
    DivisionBounds(total + chunkBytes - 1, chunkBytes);
    TimesGrows(index + 1, count, chunkBytes);
    TimesStep(index, chunkBytes);
    if index + 1 < count {
      TimesGrows(index + 2, count, chunkBytes);
      TimesStep(index + 1, chunkBytes);
    }
  }

  lemma DivisionBounds(n: nat, d: nat)
    requires d > 0
    ensures (n / d) * d <= n < (n / d) * d + d
  {
    assert n == (n / d) * d + n % d;
  }

  lemma TimesGrows(a: nat, b: nat, d: nat)
    requires a <= b
    ensures a * d <= b * d
  {
  }

  lemma TimesStep(a: nat, d: nat)
    ensures (a + 1) * d == a * d + d
  {
  }

  function Chunk(s: Source, index: nat): seq<byte>
    requires EncodeCheck(s).None? && index < FragmentCount(|s.data|, s.mtu - HEADER_BYTES)
  {
    ChunkBounds(|s.data|, s.mtu - HEADER_BYTES, index);
    s.data[ChunkStart(index, s.mtu - HEADER_BYTES)..ChunkEnd(index, s.mtu - HEADER_BYTES, |s.data|)]
  }

  function Fragment(s: Source, index: nat): seq<byte>
    requires EncodeCheck(s).None? && index < FragmentCount(|s.data|, s.mtu - HEADER_BYTES)
  {
    Packet(HeaderOf(s, index), Chunk(s, index))
  }

  lemma NextChunk(s: Source, index: nat, rest: seq<byte>, length: nat)
    requires EncodeCheck(s).None? && index < FragmentCount(|s.data|, s.mtu - HEADER_BYTES)
    requires ChunkStart(index, s.mtu - HEADER_BYTES) <= |s.data|
             && rest == s.data[ChunkStart(index, s.mtu - HEADER_BYTES)..]
    requires length == Min(s.mtu - HEADER_BYTES, |rest|)
    ensures length <= |rest| && rest[..length] == Chunk(s, index)
    ensures index + 1 < FragmentCount(|s.data|, s.mtu - HEADER_BYTES) ==>
              && ChunkStart(index + 1, s.mtu - HEADER_BYTES) <= |s.data|
              && rest[length..] == s.data[ChunkStart(index + 1, s.mtu - HEADER_BYTES)..]
  {
    ChunkBounds(|s.data|, s.mtu - HEADER_BYTES, index);
    TimesStep(index, s.mtu - HEADER_BYTES);
  }

  /** encode_frame: cuts the frame into chunks and writes one packet for each. */
  method EncodeFrame(s: Source) returns (r: Result<seq<seq<byte>>, AudioError>)
    requires WellTyped(s)
    ensures EncodeCheck(s).Some? ==> r == Err(EncodeCheck(s).value)
    ensures EncodeCheck(s).None? ==>
              && r.Ok? && |r.value| == FragmentCount(|s.data|, s.mtu - HEADER_BYTES)
              && forall i :: 0 <= i < |r.value| ==> r.value[i] == Fragment(s, i)
  {
    if !ValidFormat(s.format) {
      return Err(UnsupportedFormat);
    }
    if s.generation == 0 || |s.data| != PacketBytes(s.format) || s.mtu <= HEADER_BYTES || s.mtu > 65535 {
      return Err(InvalidPacket);
    }
    var chunkBytes := s.mtu - HEADER_BYTES;
    var count := FragmentCount(|s.data|, chunkBytes);
    if count > MAX_FRAGMENTS {
      return Err(InvalidPacket);
    }
    var result := [];
    var rest := s.data;
    assert ChunkStart(0, chunkBytes) == 0;
    var index := 0;
    while index < count
      invariant index <= count && |result| == index
      invariant index < count ==>
                ChunkStart(index, chunkBytes) <= |s.data| && rest == s.data[ChunkStart(index, chunkBytes)..]
      invariant forall i :: 0 <= i < index ==> result[i] == Fragment(s, i)
    {
      var length := Min(chunkBytes, |rest|);
      NextChunk(s, index, rest, length);
      var chunk := rest[..length];
      var p := WritePacket(HeaderOf(s, index), chunk);
      result := result + [p];
      rest := rest[length..];
      index := index + 1;
    }
    return Ok(result);
  }

  /** The body of encode_frame's loop: appends the fields of one packet in turn. */
  method WritePacket(h: Header, chunk: seq<byte>) returns (p: seq<byte>)
    ensures p == Packet(h, chunk)
  {
    p := [];
    var fields := Fields(h, chunk);
    for i := 0 to |fields|
      invariant p == Concat(fields[..i])
    {
      assert fields[..i + 1][..i] == fields[..i];
      p := p + fields[i];
    }
    assert fields[..|fields|] == fields;
  }

  // ----- Reading

  function U16At(p: seq<byte>, i: nat): nat
    requires i + 2 <= |p|
  {
    Number(p[i..i + 2])
  }

  function U32At(p: seq<byte>, i: nat): nat
    requires i + 4 <= |p|
  {
    Number(p[i..i + 4])
  }

  function U64At(p: seq<byte>, i: nat): nat
    requires i + 8 <= |p|
  {
    Number(p[i..i + 8])
  }

  function FormatAt(p: seq<byte>): Format
    requires |p| >= HEADER_BYTES
  {
    NumberIsBounded(p[48..52]);
    Widths();
    Format(U32At(p, 48), p[52], if p[53] == 1 then Pcm24 else Float32)
  }

  function HeaderAt(p: seq<byte>): Header
    requires |p| >= HEADER_BYTES
  {
    Header(p[8..24], U64At(p, 24), U64At(p, 32), U64At(p, 40), FormatAt(p),
           U16At(p, 56), U16At(p, 58), U32At(p, 60), U32At(p, 64))
  }

  function Decode(p: seq<byte>): Result<Header, AudioError> {
    if |p| < HEADER_BYTES || |p| > MAX_PACKET_BYTES || p[..4] != MAGIC || U16At(p, 4) != MEDIA_VERSION
       || U16At(p, 6) != HEADER_BYTES || U16At(p, 70) != 0 then Err(InvalidPacket)
    else if p[53] != 1 && p[53] != 2 then Err(InvalidPacket)
    else if !ValidFormat(FormatAt(p)) then Err(UnsupportedFormat)
    else
      var h := HeaderAt(p);
      var length := |p| - HEADER_BYTES;
      if length == 0 || length != U16At(p, 68) || h.total != PacketBytes(h.format) || h.count == 0
          || h.count > MAX_FRAGMENTS
         || h.index >= h.count || h.offset + length > h.total || U16At(p, 54) != FramesPerPacket(h.format)
         || h.position + FramesPerPacket(h.format) >= U64_LIMIT then Err(InvalidPacket)
      else Ok(h)
  }

  // ----- Round trip

  function Offset(parts: seq<seq<byte>>, k: nat): nat
    requires k <= |parts|
  {
    if k == 0 then 0 else Offset(parts, k - 1) + |parts[k - 1]|
  }

  lemma {:induction false} ConcatSlices(parts: seq<seq<byte>>, k: nat)
    requires k < |parts|
    ensures Offset(parts, k) + |parts[k]| <= |Concat(parts)| == Offset(parts, |parts|)
    ensures Concat(parts)[Offset(parts, k)..Offset(parts, k) + |parts[k]|] == parts[k]
    decreases |parts|
  {
    var last := |parts| - 1;
    var init := parts[..last];
    OffsetOfPrefix(parts, last, last);
    OffsetOfPrefix(parts, last, Min(k, last));
    if last > 0 {
      ConcatSlices(init, Min(k, last - 1));
    }
    assert |Concat(init)| == Offset(init, last);
    if k < last {
      assert Concat(parts)[..|Concat(init)|] == Concat(init);
      assert init[k] == parts[k];
    }
  }

  lemma {:induction false} OffsetOfPrefix(parts: seq<seq<byte>>, n: nat, k: nat)
    requires k <= n <= |parts|
    ensures Offset(parts[..n], k) == Offset(parts, k)
  {
    if k > 0 {
      OffsetOfPrefix(parts, n, k - 1);
      assert parts[..n][k - 1] == parts[k - 1];
    }
  }

  predicate WellFormed(h: Header, chunk: seq<byte>) {
    && |h.stream| == 16 && h.generation < U64_LIMIT && h.sequence < U64_LIMIT && h.position < U64_LIMIT
    && ValidFormat(h.format) && h.index < U16_LIMIT && h.count < U16_LIMIT
    && h.offset < U32_LIMIT && h.total < U32_LIMIT && |chunk| < U16_LIMIT
  }

  lemma FieldOffsets(h: Header, chunk: seq<byte>)
    requires WellFormed(h, chunk)
    ensures var f := Fields(h, chunk);
            && Offset(f, 0) == 0 && Offset(f, 1) == 4 && Offset(f, 2) == 6 && Offset(f, 3) == 8 && Offset(f, 4) == 24
            && Offset(f, 5) == 32 && Offset(f, 6) == 40 && Offset(f, 7) == 48 && Offset(f, 8) == 52
                 && Offset(f, 9) == 53
            && Offset(f, 10) == 54 && Offset(f, 11) == 56 && Offset(f, 12) == 58 && Offset(f, 13) == 60
                 && Offset(f, 14) == 64
            && Offset(f, 15) == 68 && Offset(f, 16) == 70 && Offset(f, 17) == 72 && Offset(f, 18) == 72 + |chunk|
  {
    var f := Fields(h, chunk);
    assert Offset(f, 1) == 4;
    assert Offset(f, 2) == 6;
    assert Offset(f, 3) == 8;
    assert Offset(f, 4) == 24;
    assert Offset(f, 5) == 32;
    assert Offset(f, 6) == 40;
    assert Offset(f, 7) == 48;
    assert Offset(f, 8) == 52;
    assert Offset(f, 9) == 53;
    assert Offset(f, 10) == 54;
    assert Offset(f, 11) == 56;
    assert Offset(f, 12) == 58;
    assert Offset(f, 13) == 60;
    assert Offset(f, 14) == 64;
    assert Offset(f, 15) == 68;
    assert Offset(f, 16) == 70;
    assert Offset(f, 17) == 72;
  }

  /** A field of a packet, read back from where the decoder looks for it. */
  lemma FieldAt(h: Header, chunk: seq<byte>, k: nat, offset: nat)
    requires WellFormed(h, chunk) && k < 18 && offset == Offset(Fields(h, chunk), k)
    ensures var p := Packet(h, chunk);
            && |p| == HEADER_BYTES + |chunk| && offset + |Fields(h, chunk)[k]| <= |p|
            && p[offset..offset + |Fields(h, chunk)[k]|] == Fields(h, chunk)[k]
  {
    ConcatSlices(Fields(h, chunk), k);
    FieldOffsets(h, chunk);
  }

  lemma PacketBytesRead(h: Header, chunk: seq<byte>)
    requires WellFormed(h, chunk)
    ensures var p := Packet(h, chunk);
            && |p| == HEADER_BYTES + |chunk|
            && p[..4] == MAGIC && p[8..24] == h.stream && p[72..] == chunk
            && p[52] == h.format.channels && p[53] == EncodingCode(h.format.encoding)
  {
    var p := Packet(h, chunk);
    FieldOffsets(h, chunk);
    FieldAt(h, chunk, 0, 0);
    FieldAt(h, chunk, 3, 8);
    FieldAt(h, chunk, 8, 52);
    FieldAt(h, chunk, 9, 53);
    FieldAt(h, chunk, 17, 72);
    assert p[52..53][0] == p[52] && p[53..54][0] == p[53];
    assert p[72..72 + |chunk|] == p[72..];
  }

  lemma PacketShortsRead(h: Header, chunk: seq<byte>)
    requires WellFormed(h, chunk)
    ensures var p := Packet(h, chunk);
            && |p| == HEADER_BYTES + |chunk|
            && U16At(p, 4) == MEDIA_VERSION && U16At(p, 6) == HEADER_BYTES && U16At(p, 54) == FramesPerPacket(h.format)
            && U16At(p, 56) == h.index && U16At(p, 58) == h.count && U16At(p, 68) == |chunk| && U16At(p, 70) == 0
  {
    FieldOffsets(h, chunk);
    FieldAt(h, chunk, 17, 72);
    Widths();
    ShortRead(h, chunk, 1, 4, MEDIA_VERSION);
    ShortRead(h, chunk, 2, 6, HEADER_BYTES);
    PacketBytesBounds(h.format);
    ShortRead(h, chunk, 10, 54, FramesPerPacket(h.format));
    ShortRead(h, chunk, 11, 56, h.index);
    ShortRead(h, chunk, 12, 58, h.count);
    ShortRead(h, chunk, 15, 68, |chunk|);
    ShortRead(h, chunk, 16, 70, 0);
  }

  lemma ShortRead(h: Header, chunk: seq<byte>, k: nat, offset: nat, value: nat)
    requires WellFormed(h, chunk) && k < 18 && offset == Offset(Fields(h, chunk), k)
    requires value < U16_LIMIT && Fields(h, chunk)[k] == BigEndian(value, 2)
    ensures offset + 2 <= |Packet(h, chunk)| && U16At(Packet(h, chunk), offset) == value
  {
    FieldAt(h, chunk, k, offset);
    Widths();
    NumberOfBigEndian(value, 2);
  }

  lemma PacketWordsRead(h: Header, chunk: seq<byte>)
    requires WellFormed(h, chunk)
    ensures var p := Packet(h, chunk);
            && |p| == HEADER_BYTES + |chunk|
            && U32At(p, 48) == h.format.sampleRate && U32At(p, 60) == h.offset && U32At(p, 64) == h.total
            && U64At(p, 24) == h.generation && U64At(p, 32) == h.sequence && U64At(p, 40) == h.position
  {
    FieldOffsets(h, chunk);
    Widths();
    FieldAt(h, chunk, 7, 48);
    FieldAt(h, chunk, 13, 60);
    FieldAt(h, chunk, 14, 64);
    FieldAt(h, chunk, 4, 24);
    FieldAt(h, chunk, 5, 32);
    FieldAt(h, chunk, 6, 40);
    NumberOfBigEndian(h.format.sampleRate, 4);
    NumberOfBigEndian(h.offset, 4);
    NumberOfBigEndian(h.total, 4);
    NumberOfBigEndian(h.generation, 8);
    NumberOfBigEndian(h.sequence, 8);
    NumberOfBigEndian(h.position, 8);
  }

  /** Headers whose numbers agree with each other, as decode demands. */
  predicate Consistent(h: Header, chunk: seq<byte>) {
    && WellFormed(h, chunk)
    && chunk != [] && h.total == PacketBytes(h.format) && 0 < h.count <= MAX_FRAGMENTS && h.index < h.count
    && h.offset + |chunk| <= h.total && h.position + FramesPerPacket(h.format) < U64_LIMIT
  }

  /** Decoding is the inverse of writing a packet. */
  lemma DecodeOfPacket(h: Header, chunk: seq<byte>)
    requires Consistent(h, chunk)
    ensures Decode(Packet(h, chunk)) == Ok(h)
    ensures Packet(h, chunk)[HEADER_BYTES..] == chunk
  {
    PacketBytesRead(h, chunk);
    PacketShortsRead(h, chunk);
    PacketWordsRead(h, chunk);
    PacketBytesBounds(h.format);
  }

  predicate PartHere(p: seq<byte>, parts: seq<seq<byte>>, i: nat)
    requires i < |parts|
  {
    Offset(parts, i) + |parts[i]| <= |p| && p[Offset(parts, i)..Offset(parts, i) + |parts[i]|] == parts[i]
  }

  lemma OneMorePart(p: seq<byte>, head: seq<byte>, part: seq<byte>)
    requires |head| + |part| <= |p| && p[..|head|] == head && p[|head|..|head| + |part|] == part
    ensures p[..|head| + |part|] == head + part
  {
  }

  /** Parts found one after the other make up the whole. */
  lemma {:induction false} PartsMakeWhole(p: seq<byte>, parts: seq<seq<byte>>, k: nat)
    requires k <= |parts| && Offset(parts, k) <= |p|
    requires forall i :: 0 <= i < k ==> PartHere(p, parts, i)
    ensures Concat(parts[..k]) == p[..Offset(parts, k)]
  {
    if k > 0 {
      assert PartHere(p, parts, k - 1);
      PartsMakeWhole(p, parts, k - 1);
      OneMorePart(p, Concat(parts[..k - 1]), parts[k - 1]);
      assert parts[..k][..k - 1] == parts[..k - 1];
    } else {
      assert parts[..0] == [];
    }
  }

  lemma DecodedIsConsistent(p: seq<byte>)
    requires Decode(p).Ok?
    ensures Consistent(Decode(p).value, p[HEADER_BYTES..])
  {
    var h := Decode(p).value;
    Widths();
    NumberIsBounded(p[24..32]);
    NumberIsBounded(p[32..40]);
    NumberIsBounded(p[40..48]);
    NumberIsBounded(p[56..58]);
    NumberIsBounded(p[58..60]);
    NumberIsBounded(p[60..64]);
    NumberIsBounded(p[64..68]);
    PacketBytesBounds(h.format);
  }

  lemma DecodedLeadingFields(p: seq<byte>)
    requires Decode(p).Ok?
    ensures var f := Fields(Decode(p).value, p[HEADER_BYTES..]);
            && p[..4] == f[0] && p[4..6] == f[1] && p[6..8] == f[2] && p[8..24] == f[3] && p[24..32] == f[4]
            && p[32..40] == f[5] && p[40..48] == f[6] && p[48..52] == f[7] && p[52..53] == f[8] && p[53..54] == f[9]
  {
    BigEndianOfNumber(p[4..6]);
    BigEndianOfNumber(p[6..8]);
    BigEndianOfNumber(p[24..32]);
    BigEndianOfNumber(p[32..40]);
    BigEndianOfNumber(p[40..48]);
    BigEndianOfNumber(p[48..52]);
    hide BigEndian, Number, PacketBytes, FramesPerPacket, ValidFormat;
  }

  lemma DecodedTrailingFields(p: seq<byte>)
    requires Decode(p).Ok?
    ensures var f := Fields(Decode(p).value, p[HEADER_BYTES..]);
            && p[54..56] == f[10] && p[56..58] == f[11] && p[58..60] == f[12] && p[60..64] == f[13]
                 && p[64..68] == f[14]
            && p[68..70] == f[15] && p[70..72] == f[16]
  {
    hide BigEndian, Number, PacketBytes, FramesPerPacket, ValidFormat;
    BigEndianOfNumber(p[54..56]);
    BigEndianOfNumber(p[56..58]);
    BigEndianOfNumber(p[58..60]);
    BigEndianOfNumber(p[60..64]);
    BigEndianOfNumber(p[64..68]);
    BigEndianOfNumber(p[68..70]);
    BigEndianOfNumber(p[70..72]);
  }

  /** Decode accepts nothing but packets: what it accepts is, byte for byte, the packet of the header it returns. */
  lemma DecodeAcceptsOnlyPackets(p: seq<byte>)
    requires Decode(p).Ok?
    ensures Consistent(Decode(p).value, p[HEADER_BYTES..])
    ensures p == Packet(Decode(p).value, p[HEADER_BYTES..])
  {
    hide HeaderAt, Offset, Fields, Concat;
    var h := Decode(p).value;
    var chunk := p[HEADER_BYTES..];
    var f := Fields(h, chunk);
    DecodedIsConsistent(p);
    DecodedLeadingFields(p);
    DecodedTrailingFields(p);
    hide Decode;
    FieldOffsets(h, chunk);
    FieldLengths(h, chunk);
    PartsMakeWhole(p, f, 18);
    assert f[..18] == f && p[..|p|] == p;
  }

  lemma FieldLengths(h: Header, chunk: seq<byte>)
    requires WellFormed(h, chunk)
    ensures var f := Fields(h, chunk);
            && |f| == 18 && |f[0]| == 4 && |f[1]| == 2 && |f[2]| == 2 && |f[3]| == 16 && |f[4]| == 8 && |f[5]| == 8
                 && |f[6]| == 8
            && |f[7]| == 4 && |f[8]| == 1 && |f[9]| == 1 && |f[10]| == 2 && |f[11]| == 2 && |f[12]| == 2 && |f[13]| == 4
            && |f[14]| == 4 && |f[15]| == 2 && |f[16]| == 2 && f[17] == chunk
  {
  }

  /** Every packet of an encoded frame decodes to its own header and carries its own chunk. */
  lemma FragmentDecodes(s: Source, index: nat)
    requires WellTyped(s) && EncodeCheck(s).None?
    requires s.position + FramesPerPacket(s.format) < U64_LIMIT
    requires index < FragmentCount(|s.data|, s.mtu - HEADER_BYTES)
    ensures Decode(Fragment(s, index)) == Ok(HeaderOf(s, index))
    ensures Fragment(s, index)[HEADER_BYTES..] == Chunk(s, index)
    ensures Consistent(HeaderOf(s, index), Chunk(s, index))
  {
    PacketBytesBounds(s.format);
    ChunkBounds(|s.data|, s.mtu - HEADER_BYTES, index);
    DecodeOfPacket(HeaderOf(s, index), Chunk(s, index));
  }
}
