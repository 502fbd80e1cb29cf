/** Bounded frames on the local daemon stream, and the binary payloads sent after JSON metadata. */
module IpcFrames {
  import opened Common
  import opened ByteOrder

  const HEADER_LEN: nat := 5
  const MAX_JSON_BYTES: nat := 4 * 1024 * 1024
  const MAX_BINARY_BYTES: nat := 32 * 1024 * 1024

  datatype Kind = Json | Binary | UiState | Heartbeat

  datatype Limits = Limits(json: nat, binary: nat, uiState: nat, heartbeat: nat)

  const DEFAULT_LIMITS: Limits := Limits(MAX_JSON_BYTES, MAX_BINARY_BYTES, MAX_JSON_BYTES, MAX_JSON_BYTES)

  datatype Frame = Frame(kind: Kind, payload: seq<byte>)

  datatype IoError = UnexpectedEof | InvalidData | InvalidInput

  function KindByte(kind: Kind): byte {
    match kind
    case Json => 1
    case Binary => 2
    case UiState => 3
    case Heartbeat => 4
  }

  function KindOf(b: byte): Option<Kind> {
    if b == 1 then Some(Json)
    else if b == 2 then Some(Binary)
    else if b == 3 then Some(UiState)
    else if b == 4 then Some(Heartbeat)
    else None
  }

  function LimitFor(limits: Limits, kind: Kind): nat {
    match kind
    case Json => limits.json
    case Binary => limits.binary
    case UiState => limits.uiState
    case Heartbeat => limits.heartbeat
  }

  // ----- Writing

  function FrameBytes(f: Frame): seq<byte> {
    BigEndian(|f.payload|, 4) + [KindByte(f.kind)] + f.payload
  }

  predicate WithinLimits(limits: Limits, f: Frame) {
    |f.payload| <= LimitFor(limits, f.kind) && |f.payload| < U32_LIMIT
  }

  /** write_frame: the bytes written. */
  function WriteFrame(limits: Limits, f: Frame): Result<seq<byte>, IoError> {
    if WithinLimits(limits, f) then Ok(FrameBytes(f)) else Err(InvalidInput)
  }

  /** Each kind has a limit, by default 32 MiB for binary data and 4 MiB for the rest, and the header has five bytes. */
  lemma WritesExactlyWhen(limits: Limits, f: Frame)
    ensures WriteFrame(limits, f).Ok?
        <==> |f.payload| < 4294967296
             && (f.kind.Json? ==> |f.payload| <= limits.json) && (f.kind.Binary? ==> |f.payload| <= limits.binary)
             && (f.kind.UiState? ==> |f.payload| <= limits.uiState)
             && (f.kind.Heartbeat? ==> |f.payload| <= limits.heartbeat)
    ensures WriteFrame(limits, f).Err? ==> WriteFrame(limits, f) == Err(InvalidInput)
    ensures WriteFrame(DEFAULT_LIMITS, f).Ok?
        <==> |f.payload| <= if f.kind.Binary? then 33554432 else 4194304
    ensures WriteFrame(DEFAULT_LIMITS, f).Ok? ==>
              var s := WriteFrame(DEFAULT_LIMITS, f).value;
              && |s| == 5 + |f.payload| && s[5..] == f.payload
              && s[4] == match f.kind { case Json => 1 case Binary => 2 case UiState => 3 case Heartbeat => 4 }
              && FourByteNumber(s[0], s[1], s[2], s[3]) == |f.payload|
  {
    Widths();
    if |f.payload| < U32_LIMIT {
      NumberOfBigEndian(|f.payload|, 4);
      FourBytes(BigEndian(|f.payload|, 4));
    }
    hide BigEndian, Number, FourByteNumber;
  }

  function FourByteNumber(a: int, b: int, c: int, d: int): int {
    0x1_00_00_00 * a + 0x1_00_00 * b + 0x1_00 * c + d
  }

  lemma FourBytes(b: seq<byte>)
    requires |b| == 4
    ensures Number(b) == FourByteNumber(b[0], b[1], b[2], b[3])
  {
    assert b[..3][..2] == b[..2] && b[..2][..1] == b[..1] && b[..1][..0] == [];
    assert Number(b[..1]) == b[0];
    assert Number(b[..2]) == 256 * Number(b[..1]) + b[1];
    assert Number(b[..3]) == 256 * Number(b[..2]) + b[2];
  }

  // ----- Reading

  /** What reading one frame from the rest of a stream gives. */
  datatype Reading = Got(frame: Frame, rest: seq<byte>) | CleanEnd | Failed(error: IoError)

  predicate Expected(kind: Kind, expected: Option<Kind>, allowed: Option<seq<Kind>>) {
    (expected.Some? ==> expected.value == kind) && (allowed.Some? ==> kind in allowed.value)
  }

  /** read_frame_inner; an expected kind and a list of allowed kinds are optional. */
  function ReadFrame(limits: Limits, input: seq<byte>, expected: Option<Kind>, allowed: Option<seq<Kind>>): Reading {
    if |input| == 0 then CleanEnd
    else if |input| < HEADER_LEN then Failed(UnexpectedEof)
    else
      var length := Number(input[..4]);
      var kind := KindOf(input[4]);
      if kind.None? || !Expected(kind.value, expected, allowed) || length > LimitFor(limits, kind.value)
          then Failed(InvalidData)
      else if |input| < HEADER_LEN + length then Failed(UnexpectedEof)
      else Got(Frame(kind.value, input[HEADER_LEN..HEADER_LEN + length]), input[HEADER_LEN + length..])
  }

  lemma FrameBytesParts(f: Frame, rest: seq<byte>)
    requires |f.payload| < U32_LIMIT
    ensures var s := FrameBytes(f) + rest;
            && |FrameBytes(f)| == HEADER_LEN + |f.payload|
            && Number(s[..4]) == |f.payload| && KindOf(s[4]) == Some(f.kind)
            && s[HEADER_LEN..HEADER_LEN + |f.payload|] == f.payload && s[HEADER_LEN + |f.payload|..] == rest
  {
    Widths();
    NumberOfBigEndian(|f.payload|, 4);
    var length := BigEndian(|f.payload|, 4);
    assert (FrameBytes(f) + rest)[..4] == length;
    hide BigEndian, Number, Power256;
  }

  /** A written frame at the head of a stream is read back, whatever follows. */
  lemma ReadWritten(limits: Limits, f: Frame, rest: seq<byte>, expected: Option<Kind>, allowed: Option<seq<Kind>>)
    requires WithinLimits(limits, f)
    ensures ReadFrame(limits, FrameBytes(f) + rest, expected, allowed)
            == if Expected(f.kind, expected, allowed) then Got(f, rest) else Failed(InvalidData)
  {
    FrameBytesParts(f, rest);
    hide FrameBytes, Number, KindOf;
  }

  /** Only written frames are read: the consumed bytes are those write_frame produces for the frame. */
  lemma ReadIsWritten(limits: Limits, input: seq<byte>, expected: Option<Kind>, allowed: Option<seq<Kind>>)
    requires ReadFrame(limits, input, expected, allowed).Got?
    ensures var r := ReadFrame(limits, input, expected, allowed);
            && input == FrameBytes(r.frame) + r.rest && WithinLimits(limits, r.frame)
            && Expected(r.frame.kind, expected, allowed)
  {
    var r := ReadFrame(limits, input, expected, allowed);
    var length := Number(input[..4]);
    Widths();
    NumberIsBounded(input[..4]);
    BigEndianOfNumber(input[..4]);
    assert BigEndian(length, 4) == input[..4];
    hide BigEndian, Number, Power256;
    assert input == input[..4] + [input[4]] + input[HEADER_LEN..HEADER_LEN + length] + input[HEADER_LEN + length..];
  }

  // ----- Whole streams

  function StreamOf(frames: seq<Frame>): seq<byte> {
    if frames == [] then [] else FrameBytes(frames[0]) + StreamOf(frames[1..])
  }

  predicate AllWithin(limits: Limits, frames: seq<Frame>) {
    forall f :: f in frames ==> WithinLimits(limits, f)
  }

  /** Reads frames until the stream ends or fails; the error is None for a clean end. */
  function ReadAll(limits: Limits, input: seq<byte>): (seq<Frame>, Option<IoError>)
    decreases |input|
  {
    match ReadFrame(limits, input, None, None)
    case CleanEnd => ([], None)
    case Failed(error) => ([], Some(error))
    case Got(frame, rest) =>
      ReadIsWritten(limits, input, None, None);
      FrameLonger(frame);
      var (frames, error) := ReadAll(limits, rest);
      ([frame] + frames, error)
  }

  lemma FrameLonger(f: Frame)
    ensures |FrameBytes(f)| == HEADER_LEN + |f.payload|
  {
  }

  /** Frames written back to back are read back as the same list, and the stream ends cleanly. */
  lemma {:induction false} StreamRoundTrip(limits: Limits, frames: seq<Frame>)
    requires AllWithin(limits, frames)
    ensures ReadAll(limits, StreamOf(frames)) == (frames, None)
  {
    if frames != [] {
      StreamRoundTrip(limits, frames[1..]);
      ReadWritten(limits, frames[0], StreamOf(frames[1..]), None, None);
      hide ReadFrame, FrameBytes;
      assert frames == [frames[0]] + frames[1..];
    }
  }

  /** A stream cut inside its first frame fails to read. */
  lemma CutFrameFails(limits: Limits, f: Frame, rest: seq<byte>, n: nat)
    requires WithinLimits(limits, f) && 0 < n < |FrameBytes(f)|
    ensures ReadFrame(limits, (FrameBytes(f) + rest)[..n], None, None) == Failed(UnexpectedEof)
  {
    FrameBytesParts(f, rest);
    var cut := (FrameBytes(f) + rest)[..n];
    if n >= HEADER_LEN {
      assert cut[..4] == (FrameBytes(f) + rest)[..4] && cut[4] == (FrameBytes(f) + rest)[4];
    }
    hide FrameBytes, Number;
  }

  /**
   A prefix of a stream of frames reads as the whole frames in it; it ends cleanly if the cut is between two frames,
   and otherwise with the error for a missing end, never silently.
   */
  lemma CutInFirst(limits: Limits, frames: seq<Frame>, n: nat)
    requires AllWithin(limits, frames) && n <= |StreamOf(frames)|
    requires n == 0 || n < |FrameBytes(frames[0])|
    ensures ReadAll(limits, StreamOf(frames)[..n]) == ([], if n == 0 then None else Some(UnexpectedEof))
    ensures frames != [] ==> n < |StreamOf(frames[..1])|
  {
    if frames != [] {
      assert frames[..1][0] == frames[0];
      FrameLonger(frames[0]);
      if n > 0 {
        CutFrameFails(limits, frames[0], StreamOf(frames[1..]), n);
      }
    }
    hide FrameBytes;
  }

  lemma {:induction false} CutStream(limits: Limits, frames: seq<Frame>, n: nat) returns (k: nat)
    requires AllWithin(limits, frames) && n <= |StreamOf(frames)|
    ensures k <= |frames| && |StreamOf(frames[..k])| <= n
    ensures ReadAll(limits, StreamOf(frames)[..n])
            == (frames[..k], if |StreamOf(frames[..k])| == n then None else Some(UnexpectedEof))
    ensures k < |frames| ==> n < |StreamOf(frames[..k + 1])|
  {
    hide FrameBytes;
    if n == 0 || n < |FrameBytes(frames[0])| {
      k := 0;
      CutInFirst(limits, frames, n);
    } else {
      var size := |FrameBytes(frames[0])|;
      var rest := StreamOf(frames[1..]);
      FrameLonger(frames[0]);
      assert StreamOf(frames) == FrameBytes(frames[0]) + rest;
      hide StreamOf, WithinLimits;
      k := CutStream(limits, frames[1..], n - size);
      hide AllWithin;
      CutAfterFirst(limits, frames[0], rest, n);
      PrefixStream(frames, k);
      if k + 1 < |frames| {
        PrefixStream(frames, k + 1);
      }
      k := k + 1;
    }
  }

  lemma CutAfterFirst(limits: Limits, f: Frame, rest: seq<byte>, n: nat)
    requires WithinLimits(limits, f) && |FrameBytes(f)| <= n <= |FrameBytes(f) + rest|
    ensures var (frames, error) := ReadAll(limits, rest[..n - |FrameBytes(f)|]);
            ReadAll(limits, (FrameBytes(f) + rest)[..n]) == ([f] + frames, error)
  {
    var cut := rest[..n - |FrameBytes(f)|];
    assert (FrameBytes(f) + rest)[..n] == FrameBytes(f) + cut;
    ReadWritten(limits, f, cut, None, None);
    hide ReadFrame, FrameBytes;
  }

  lemma PrefixStream(frames: seq<Frame>, k: nat)
    requires k < |frames|
    ensures frames[..k + 1] == [frames[0]] + frames[1..][..k]
    ensures StreamOf(frames[..k + 1]) == FrameBytes(frames[0]) + StreamOf(frames[1..][..k])
  {
    assert frames[..k + 1][1..] == frames[1..][..k];
  }

  // ----- Display captures

  const CAPTURE_ID_BYTES: nat := 16

  datatype Descriptor = Descriptor(captureId: seq<byte>, byteLength: nat, rest: int)

  datatype Blob = Blob(descriptor: Descriptor, bytes: seq<byte>)

  /** metadata stands for the JSON text of the result. */
  datatype CaptureResult = CaptureResult(success: bool, payload: Option<Descriptor>, blob: Option<Blob>,
      metadata: seq<byte>)

  function EncodeCapture(d: Descriptor, image: seq<byte>): Result<seq<byte>, IoError> {
    if |image| >= U32_LIMIT || |image| != d.byteLength || CAPTURE_ID_BYTES + |image| > MAX_BINARY_BYTES
        then Err(InvalidInput)
    else Ok(d.captureId + image)
  }

  function DecodeCapture(d: Descriptor, body: seq<byte>): Result<seq<byte>, IoError>
    requires |d.captureId| == CAPTURE_ID_BYTES
  {
    if |body| != CAPTURE_ID_BYTES + d.byteLength then Err(InvalidData)
    else if body[..CAPTURE_ID_BYTES] != d.captureId then Err(InvalidData)
    else Ok(body[CAPTURE_ID_BYTES..])
  }

  /** Decoding accepts exactly what encoding the same descriptor with some image gives, up to the size limit. */
  lemma CaptureRoundTrip(d: Descriptor, image: seq<byte>, body: seq<byte>)
    requires |d.captureId| == CAPTURE_ID_BYTES
    ensures EncodeCapture(d, image) == Ok(body) ==> DecodeCapture(d, body) == Ok(image)
    ensures DecodeCapture(d, body) == Ok(image) && |body| <= MAX_BINARY_BYTES ==> EncodeCapture(d, image) == Ok(body)
  {
    assert (d.captureId + image)[..CAPTURE_ID_BYTES] == d.captureId;
    assert (d.captureId + image)[CAPTURE_ID_BYTES..] == image;
    assert |body| >= CAPTURE_ID_BYTES ==> body == body[..CAPTURE_ID_BYTES] + body[CAPTURE_ID_BYTES..];
  }

  function AppendFrame(output: seq<byte>, f: Frame): Result<seq<byte>, IoError> {
    if |f.payload| >= U32_LIMIT then Err(InvalidInput) else Ok(output + FrameBytes(f))
  }

  /** The binary part of a response, if it has one. */
  function CaptureBody(r: CaptureResult): Result<Option<seq<byte>>, IoError> {
    if r.success then
      if r.payload.Some? && r.blob.Some? && r.payload.value == r.blob.value.descriptor then
        match EncodeCapture(r.payload.value, r.blob.value.bytes)
        case Ok(body) => Ok(Some(body))
        case Err(error) => Err(error)
      else Err(InvalidData)
    else if r.payload.None? && r.blob.None? then Ok(None)
    else Err(InvalidData)
  }

  function EncodeResponse(r: CaptureResult): Result<seq<byte>, IoError> {
    if |r.metadata| > MAX_JSON_BYTES then Err(InvalidInput)
    else match CaptureBody(r)
      case Err(error) => Err(error)
      case Ok(body) =>
        match AppendFrame([], Frame(Json, r.metadata))
        case Err(error) => Err(error)
        case Ok(json) => if body.Some? then AppendFrame(json, Frame(Binary, body.value)) else Ok(json)
  }

  /** A response that can be encoded reads back, with the default limits, as its metadata and its image. */
  lemma ResponseRoundTrip(r: CaptureResult)
    requires EncodeResponse(r).Ok?
    requires r.payload.Some? ==> |r.payload.value.captureId| == CAPTURE_ID_BYTES
    ensures var (frames, error) := ReadAll(DEFAULT_LIMITS, EncodeResponse(r).value);
            && error.None? && frames != [] && frames[0] == Frame(Json, r.metadata)
            && (if r.success then
                  && |frames| == 2 && frames[1].kind == Binary && r.payload.Some? && r.blob.Some?
                  && DecodeCapture(r.payload.value, frames[1].payload) == Ok(r.blob.value.bytes)
                else |frames| == 1)
  {
    var json := Frame(Json, r.metadata);
    var body := CaptureBody(r).value;
    var frames := if body.Some? then [json, Frame(Binary, body.value)] else [json];
    if r.success {
      CaptureRoundTrip(r.payload.value, r.blob.value.bytes, body.value);
    }
    StreamOfOne(json);
    if body.Some? {
      StreamOfTwo(json, Frame(Binary, body.value));
    }
    assert EncodeResponse(r).value == StreamOf(frames);
    assert AllWithin(DEFAULT_LIMITS, frames);
    StreamRoundTrip(DEFAULT_LIMITS, frames);
    hide ReadAll, StreamOf, FrameBytes;
  }

  lemma StreamOfOne(f: Frame)
    ensures StreamOf([f]) == [] + FrameBytes(f)
  {
    assert [f][1..] == [];
  }

  lemma StreamOfTwo(f: Frame, g: Frame)
    ensures StreamOf([f, g]) == [] + FrameBytes(f) + FrameBytes(g)
  {
    StreamOfOne(g);
    assert [f, g][1..] == [g];
  }

  /** Encoding fails exactly when metadata and binary do not belong together or exceed their limits. */
  lemma ResponseEncodesExactlyWhen(r: CaptureResult)
    requires r.payload.Some? ==> |r.payload.value.captureId| == CAPTURE_ID_BYTES
    ensures EncodeResponse(r).Ok? <==>
              && |r.metadata| <= MAX_JSON_BYTES
              && (if r.success then
                    && r.payload.Some? && r.blob.Some? && r.payload.value == r.blob.value.descriptor
                    && |r.blob.value.bytes| == r.payload.value.byteLength
                    && CAPTURE_ID_BYTES + |r.blob.value.bytes| <= MAX_BINARY_BYTES
                  else r.payload.None? && r.blob.None?)
  {
    hide FrameBytes;
  }

  // ----- The codec over a stream

  /** The reading end of a byte stream. */
  class ByteReader {
    var rest: seq<byte>

    constructor (input: seq<byte>)
      ensures rest == input
    {
      rest := input;
    }

    /** read_exact: None at an early end of the stream, which uses up what was left. */
    method ReadExact(n: nat) returns (bytes: Option<seq<byte>>)
      modifies this
      ensures n <= |old(rest)| ==> bytes == Some(old(rest)[..n]) && rest == old(rest)[n..]
      ensures n > |old(rest)| ==> bytes.None? && rest == []
    {
      if n <= |rest| {
        bytes := Some(rest[..n]);
        rest := rest[n..];
      } else {
        bytes := None;
        rest := [];
      }
    }
  }

  method ReadFrameFrom(reader: ByteReader, limits: Limits, expected: Option<Kind>, allowed: Option<seq<Kind>>)
    returns (r: Result<Option<Frame>, IoError>)
    modifies reader
    ensures match ReadFrame(limits, old(reader.rest), expected, allowed)
            case CleanEnd => r == Ok(None) && reader.rest == []
            case Failed(error) => r == Err(error)
            case Got(frame, rest) => r == Ok(Some(frame)) && reader.rest == rest
  {
    ghost var input := reader.rest;
    var first := reader.ReadExact(1);
    if first.None? {
      return Ok(None);
    }
    var others := reader.ReadExact(HEADER_LEN - 1);
    if others.None? {
      return Err(UnexpectedEof);
    }
    var header := first.value + others.value;
    assert header == input[..HEADER_LEN] && header[..4] == input[..4] && reader.rest == input[HEADER_LEN..];
    var length := Number(header[..4]);
    var kind := KindOf(header[4]);
    if kind.None? {
      return Err(InvalidData);
    }
    if expected.Some? && expected.value != kind.value {
      return Err(InvalidData);
    }
    if allowed.Some? && kind.value !in allowed.value {
      return Err(InvalidData);
    }
    if length > LimitFor(limits, kind.value) {
      return Err(InvalidData);
    }
    var payload := reader.ReadExact(length);
    if payload.None? {
      return Err(UnexpectedEof);
    }
    assert input[HEADER_LEN..][..length] == input[HEADER_LEN..HEADER_LEN + length];
    assert input[HEADER_LEN..][length..] == input[HEADER_LEN + length..];
    return Ok(Some(Frame(kind.value, payload.value)));
  }

  /** write_frame onto the end of what was written before. */
  method WriteFrameTo(written: seq<byte>, limits: Limits, f: Frame) returns (r: Result<seq<byte>, IoError>)
    ensures match WriteFrame(limits, f)
            case Ok(bytes) => r == Ok(written + bytes)
            case Err(error) => r == Err(error)
  {
    if |f.payload| > LimitFor(limits, f.kind) {
      return Err(InvalidInput);
    }
    if |f.payload| >= U32_LIMIT {
      return Err(InvalidInput);
    }
    var header := BigEndian(|f.payload|, 4);
    header := header + [KindByte(f.kind)];
    var output := written + header;
    output := output + f.payload;
    assert output == written + (header + f.payload);
    return Ok(output);
  }
}
