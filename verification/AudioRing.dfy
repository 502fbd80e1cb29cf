/** The single-producer, single-consumer ring shared between processes, as interleaved steps. */
module AudioRing {
  import opened Common
  import opened AudioFormat

  const CAPACITY: nat := 4096
  const SAMPLES: nat := 32768

  /** The bits of a 32-bit sample; silence is all zeros. */
  type Sample = u32

  const SILENCE: Sample := 0

  // ----- Frames inside sample buffers

  predicate Holds(buffer: seq<Sample>, channels: nat, k: nat) {
    0 < channels && k * channels + channels <= |buffer|
  }

  function FrameAt(buffer: seq<Sample>, channels: nat, k: nat): seq<Sample>
    requires Holds(buffer, channels, k)
  {
    buffer[k * channels..k * channels + channels]
  }

  function PutFrame(buffer: seq<Sample>, channels: nat, k: nat, frame: seq<Sample>): seq<Sample>
    requires Holds(buffer, channels, k) && |frame| == channels
  {
    buffer[..k * channels] + frame + buffer[k * channels + channels..]
  }

  function FrameCount(buffer: seq<Sample>, channels: nat): nat
    requires 0 < channels
  {
    |buffer| / channels
  }

  /** The first n frames of a buffer. */
  function Frames(buffer: seq<Sample>, channels: nat, n: nat): seq<seq<Sample>>
    requires 0 < channels && n <= FrameCount(buffer, channels)
  {
    seq(n, (k: nat) requires k < n => CountedFits(buffer, channels, k); FrameAt(buffer, channels, k))
  }

  lemma CountedFits(buffer: seq<Sample>, channels: nat, k: nat)
    requires 0 < channels && k < FrameCount(buffer, channels)
    ensures Holds(buffer, channels, k)
  {
    var n := FrameCount(buffer, channels);
    assert n * channels <= |buffer|;
    TimesMonotone(k + 1, n, channels);
  }

  lemma TimesMonotone(a: nat, b: nat, c: nat)
    requires a <= b
    ensures a * c <= b * c
  {
  }

  lemma SlotFits(buffer: seq<Sample>, channels: nat, slot: nat)
    requires |buffer| == SAMPLES && 1 <= channels <= 8 && slot < CAPACITY
    ensures Holds(buffer, channels, slot)
  {
    TimesMonotone(slot + 1, CAPACITY, channels);
    TimesMonotone(channels, 8, CAPACITY);
  }

  lemma SlicePut(buffer: seq<Sample>, a: nat, b: nat, frame: seq<Sample>)
    requires a + |frame| <= |buffer| && b + |frame| <= |buffer|
    requires a == b || a + |frame| <= b || b + |frame| <= a
    ensures var put := buffer[..a] + frame + buffer[a + |frame|..];
            && |put| == |buffer|
            && put[b..b + |frame|] == if a == b then frame else buffer[b..b + |frame|]
  {
  }

  lemma Apart(k: nat, other: nat, channels: nat)
    requires 0 < channels
    ensures other < k ==> other * channels + channels <= k * channels
    ensures k < other ==> k * channels + channels <= other * channels
  {
    if other < k {
      TimesMonotone(other + 1, k, channels);
    } else if other > k {
      TimesMonotone(k + 1, other, channels);
    }
  }

  lemma FramePut(buffer: seq<Sample>, channels: nat, k: nat, frame: seq<Sample>, other: nat)
    requires Holds(buffer, channels, k) && |frame| == channels && Holds(buffer, channels, other)
    ensures |PutFrame(buffer, channels, k, frame)| == |buffer|
    ensures FrameAt(PutFrame(buffer, channels, k, frame), channels, other)
            == if other == k then frame else FrameAt(buffer, channels, other)
  {
    Apart(k, other, channels);
    SlicePut(buffer, k * channels, other * channels, frame);
  }

  // ----- The protocol state

  datatype Shared = Shared(
    channels: nat,
    writeFrame: u64,
    readFrame: u64,
    online: bool,
    underruns: u64,
    overruns: u64,
    samples: seq<Sample>)

  /** Where write is: before it, past the online test, or with the loaded cursor and frames copied so far. */
  datatype Producer = Resting | Opened(input: seq<Sample>) | Filling(input: seq<Sample>, w: u64, copied: nat)

  /** Where read is: before it, with loaded cursors, or copying. */
  datatype Consumer =
    | Waiting
    | Loaded(output: seq<Sample>, q: u64, frames: nat)
    | Draining(output: seq<Sample>, q: u64, frames: nat, online: bool, copied: nat)

  /** written and delivered are the whole history of both sides; None is a frame consumed while offline. */
  datatype System = System(
    shared: Shared,
    producer: Producer,
    consumer: Consumer,
    written: seq<seq<Sample>>,
    delivered: seq<Option<seq<Sample>>>)

  datatype Action =
    | BeginWrite(input: seq<Sample>) | LoadForWrite | CopyIn | PublishWrite
    | BeginRead(length: nat) | LoadOnline | CopyOut | PublishRead
    | SetOnline(on: bool)

  function Wrap(n: nat): u64 {
    n % U64_LIMIT
  }

  function WrappingSub(a: u64, b: u64): u64 {
    (a - b) % U64_LIMIT
  }

  function Slot(cursor: u64, k: nat): nat {
    Wrap(cursor + k) % CAPACITY
  }

  // ----- Invariant

  predicate Sized(s: System) {
    1 <= s.shared.channels <= 8 && |s.shared.samples| == SAMPLES
  }

  predicate Cursors(s: System) {
    && s.shared.writeFrame == Wrap(|s.written|) && s.shared.readFrame == Wrap(|s.delivered|)
    && |s.delivered| <= |s.written| <= |s.delivered| + CAPACITY
  }

  predicate SlotHolds(samples: seq<Sample>, channels: nat, i: nat, frame: seq<Sample>) {
    Holds(samples, channels, i % CAPACITY) && FrameAt(samples, channels, i % CAPACITY) == frame
  }

  /** Every written frame not yet consumed is in its slot. */
  predicate Unread(s: System) {
    forall i :: |s.delivered| <= i < |s.written| ==> SlotHolds(s.shared.samples, s.shared.channels, i, s.written[i])
  }

  predicate WholeFrames(channels: nat, buffer: seq<Sample>)
    requires 0 < channels
  {
    |buffer| % channels == 0
  }

  function InputFrame(channels: nat, buffer: seq<Sample>, k: nat): seq<Sample> {
    if Holds(buffer, channels, k) then FrameAt(buffer, channels, k) else []
  }

  predicate ProducerOk(s: System)
    requires Sized(s)
  {
    match s.producer
    case Resting => true
    case Opened(input) => WholeFrames(s.shared.channels, input)
    case Filling(input, w, copied) =>
      && WholeFrames(s.shared.channels, input) && w == s.shared.writeFrame
      && copied <= FrameCount(input, s.shared.channels)
      && |s.written| + FrameCount(input, s.shared.channels) <= |s.delivered| + CAPACITY
      && (forall k ::
           0 <= k < copied ==>
           SlotHolds(s.shared.samples, s.shared.channels, |s.written| + k, InputFrame(s.shared.channels, input, k)))
  }

  predicate Received(s: System, output: seq<Sample>, copied: nat)
    requires Sized(s) && |s.delivered| + copied <= |s.written|
  {
    forall k :: 0 <= k < copied ==> InputFrame(s.shared.channels, output, k) == s.written[|s.delivered| + k]
  }

  predicate ConsumerOk(s: System)
    requires Sized(s)
  {
    match s.consumer
    case Waiting => true
    case Loaded(output, q, frames) =>
      && q == s.shared.readFrame && |s.delivered| + frames <= |s.written|
      && frames <= FrameCount(output, s.shared.channels)
    case Draining(output, q, frames, online, copied) =>
      && q == s.shared.readFrame && |s.delivered| + frames <= |s.written|
      && frames <= FrameCount(output, s.shared.channels)
      && copied <= frames && Received(s, output, copied)
  }

  /** What was consumed is what was written, in order, silence standing for frames consumed offline. */
  predicate InOrder(s: System) {
    forall i ::
        0 <= i < |s.delivered| && i < |s.written| && s.delivered[i].Some? ==> s.delivered[i].value == s.written[i]
  }

  predicate Inv(s: System) {
    Sized(s) && Cursors(s) && Unread(s) && ProducerOk(s) && ConsumerOk(s) && InOrder(s)
  }

  // ----- Steps

  function BeginWriteStep(s: System, input: seq<Sample>): System
    requires Sized(s)
  {
    if s.producer.Resting? && WholeFrames(s.shared.channels, input)
        && s.shared.online then s.(producer := Opened(input)) else s
  }

  predicate Fits(s: System, frames: nat) {
    var depth := WrappingSub(s.shared.writeFrame, s.shared.readFrame);
    depth <= CAPACITY && frames <= CAPACITY - depth
  }

  function LoadForWriteStep(s: System): System
    requires Sized(s)
  {
    if !s.producer.Opened? then s
    else if Fits(s, FrameCount(s.producer.input, s.shared.channels)) then
      s.(producer := Filling(s.producer.input, s.shared.writeFrame, 0))
    else
      s.(producer := Resting, shared := s.shared.(overruns := Wrap(s.shared.overruns + 1)))
  }

  function CopyInStep(s: System): System
    requires Sized(s)
  {
    if s.producer.Filling? && s.producer.copied < FrameCount(s.producer.input, s.shared.channels) then
      var k := s.producer.copied;
      CountedFits(s.producer.input, s.shared.channels, k);
      SlotFits(s.shared.samples, s.shared.channels, Slot(s.producer.w, k));
      var frame := FrameAt(s.producer.input, s.shared.channels, k);
      s.(producer := s.producer.(copied := k + 1),
         shared := s.shared.(samples := PutFrame(s.shared.samples, s.shared.channels, Slot(s.producer.w, k), frame)))
    else s
  }

  function PublishWriteStep(s: System): System
    requires Sized(s)
  {
    if s.producer.Filling? && s.producer.copied == FrameCount(s.producer.input, s.shared.channels) then
      var n := s.producer.copied;
      s.(producer := Resting,
         shared := s.shared.(writeFrame := Wrap(s.producer.w + n)),
         written := s.written + Frames(s.producer.input, s.shared.channels, n))
    else s
  }

  function BeginReadStep(s: System, length: nat): System
    requires Sized(s)
  {
    var depth := WrappingSub(s.shared.writeFrame, s.shared.readFrame);
    var output := seq(length, _ => SILENCE);
    if s.consumer.Waiting? && WholeFrames(s.shared.channels, output) && depth <= CAPACITY then
      s.(consumer := Loaded(output, s.shared.readFrame, Min(FrameCount(output, s.shared.channels), depth)))
    else s
  }

  function LoadOnlineStep(s: System): System {
    if s.consumer.Loaded? then
      s.(consumer := Draining(s.consumer.output, s.consumer.q, s.consumer.frames, s.shared.online, 0))
    else s
  }

  function CopyOutStep(s: System): System
    requires Sized(s) && ConsumerOk(s)
  {
    if s.consumer.Draining? && s.consumer.online && s.consumer.copied < s.consumer.frames then
      var k := s.consumer.copied;
      CountedFits(s.consumer.output, s.shared.channels, k);
      SlotFits(s.shared.samples, s.shared.channels, Slot(s.consumer.q, k));
      var frame := FrameAt(s.shared.samples, s.shared.channels, Slot(s.consumer.q, k));
      s.(consumer := s.consumer.(copied := k + 1, output := PutFrame(s.consumer.output, s.shared.channels, k, frame)))
    else s
  }

  function Handed(s: System): seq<Option<seq<Sample>>>
    requires Sized(s) && s.consumer.Draining?
  {
    seq(s.consumer.frames, k requires 0 <= k < s.consumer.frames =>
      if s.consumer.online then Some(InputFrame(s.shared.channels, s.consumer.output, k)) else None)
  }

  function PublishReadStep(s: System): System
    requires Sized(s)
  {
    if s.consumer.Draining? && (!s.consumer.online || s.consumer.copied == s.consumer.frames) then
      var short := s.consumer.online && s.consumer.frames < FrameCount(s.consumer.output, s.shared.channels);
      s.(consumer := Waiting,
         shared := s.shared.(readFrame := Wrap(s.consumer.q + s.consumer.frames),
                             underruns := if short then Wrap(s.shared.underruns + 1) else s.shared.underruns),
         delivered := s.delivered + Handed(s))
    else s
  }

  function Step(s: System, a: Action): System
    requires Inv(s)
  {
    match a
    case BeginWrite(input) => BeginWriteStep(s, input)
    case LoadForWrite => LoadForWriteStep(s)
    case CopyIn => CopyInStep(s)
    case PublishWrite => PublishWriteStep(s)
    case BeginRead(length) => BeginReadStep(s, length)
    case LoadOnline => LoadOnlineStep(s)
    case CopyOut => CopyOutStep(s)
    case PublishRead => PublishReadStep(s)
    case SetOnline(on) => s.(shared := s.shared.(online := on))
  }

  // ----- Cursor arithmetic

  lemma MultipleDropped(m: nat, r: nat)
    ensures (CAPACITY * m + r) % CAPACITY == r % CAPACITY
  {
  }

  /** The slot of a wrapped cursor is the slot of the frame's index: 4096 divides 2^64. */
  lemma SlotOfIndex(index: nat, k: nat)
    ensures Slot(Wrap(index), k) == (index + k) % CAPACITY
  {
    var c := Wrap(index);
    var turns := index / U64_LIMIT + (c + k) / U64_LIMIT;
    var r := (c + k) % U64_LIMIT;
    assert index + k == U64_LIMIT * turns + r;
    MultipleDropped(0x10_0000_0000_0000 * turns, r);
  }

  lemma DepthIsExact(w: nat, q: nat)
    requires q <= w <= q + CAPACITY
    ensures WrappingSub(Wrap(w), Wrap(q)) == w - q
  {
  }

  lemma WrapAdds(index: nat, n: nat)
    ensures Wrap(Wrap(index) + n) == Wrap(index + n)
  {
  }

  /** Frames less than a ring apart have different slots. */
  lemma SlotsDiffer(i: nat, j: nat)
    requires i < j < i + CAPACITY
    ensures i % CAPACITY != j % CAPACITY
  {
  }

  // ----- Each step keeps the invariant

  lemma BeginWriteKeeps(s: System, input: seq<Sample>)
    requires Inv(s)
    ensures Inv(BeginWriteStep(s, input))
  {
    hide Wrap, FrameCount, SlotHolds, Holds, InputFrame, WholeFrames;
  }

  lemma LoadForWriteKeeps(s: System)
    requires Inv(s)
    ensures Inv(LoadForWriteStep(s))
  {
    hide Wrap, FrameCount, SlotHolds, Holds, InputFrame, WholeFrames, WrappingSub;
    DepthIsExact(|s.written|, |s.delivered|);
  }

  lemma SlotPut(sh: Shared, index: nat, frame: seq<Sample>, other: nat, kept: seq<Sample>)
    requires 1 <= sh.channels <= 8 && |sh.samples| == SAMPLES && |frame| == sh.channels
    requires Holds(sh.samples, sh.channels, index % CAPACITY)
    ensures var sh' := sh.(samples := PutFrame(sh.samples, sh.channels, index % CAPACITY, frame));
            && |sh'.samples| == SAMPLES
            && (other < index < other + CAPACITY && SlotHolds(sh.samples, sh.channels, other, kept) ==>
                 SlotHolds(sh'.samples, sh'.channels, other, kept))
            && SlotHolds(sh'.samples, sh'.channels, index, frame)
  {
    FramePut(sh.samples, sh.channels, index % CAPACITY, frame, index % CAPACITY);
    hide FrameAt, PutFrame;
    if other < index < other + CAPACITY && SlotHolds(sh.samples, sh.channels, other, kept) {
      SlotsDiffer(other, index);
      FramePut(sh.samples, sh.channels, index % CAPACITY, frame, other % CAPACITY);
    }
  }

  lemma InputFrameIs(buffer: seq<Sample>, channels: nat, k: nat)
    requires Holds(buffer, channels, k)
    ensures InputFrame(channels, buffer, k) == FrameAt(buffer, channels, k)
            && |FrameAt(buffer, channels, k)| == channels
  {
  }

  /** Memory after the producer copied a frame: nothing it may still need is overwritten. */
  lemma CopyInMemory(s: System)
    requires Inv(s) && s.producer.Filling? && s.producer.copied < FrameCount(s.producer.input, s.shared.channels)
    ensures var s' := CopyInStep(s);
            var k := s.producer.copied;
            && |s'.shared.samples| == SAMPLES
            && (forall i, kept ::
                 0 <= i < |s.written| + k < i + CAPACITY && SlotHolds(s.shared.samples, s.shared.channels, i, kept) ==>
                 SlotHolds(s'.shared.samples, s'.shared.channels, i, kept))
            && SlotHolds(s'.shared.samples, s'.shared.channels, |s.written| + k,
                 InputFrame(s.shared.channels, s.producer.input, k))
  {
    hide FrameAt, PutFrame, SlotHolds, Holds, FrameCount, Wrap, WholeFrames, InputFrame, Slot, Unread, ConsumerOk,
        InOrder;
    var input, k := s.producer.input, s.producer.copied;
    var index := |s.written| + k;
    CountedFits(input, s.shared.channels, k);
    SlotOfIndex(|s.written|, k);
    SlotFits(s.shared.samples, s.shared.channels, index % CAPACITY);
    var frame := FrameAt(input, s.shared.channels, k);
    InputFrameIs(input, s.shared.channels, k);
    var s' := CopyInStep(s);
    forall i, kept | 0 <= i < index < i + CAPACITY && SlotHolds(s.shared.samples, s.shared.channels, i, kept)
        ensures SlotHolds(s'.shared.samples, s'.shared.channels, i, kept) {
      SlotPut(s.shared, index, frame, i, kept);
    }
    SlotPut(s.shared, index, frame, index, frame);
  }

  lemma CopyInKeeps(s: System)
    requires Inv(s)
    ensures Inv(CopyInStep(s))
  {
    hide FrameAt, PutFrame, SlotHolds, Holds, FrameCount, Wrap, WholeFrames, Slot, InputFrame;
    if s.producer.Filling? && s.producer.copied < FrameCount(s.producer.input, s.shared.channels) {
      CopyInMemory(s);
    }
  }

  lemma FramesAre(s: System, buffer: seq<Sample>, n: nat)
    requires Sized(s) && n <= FrameCount(buffer, s.shared.channels)
    ensures forall k ::
            0 <= k < n ==> Frames(buffer, s.shared.channels, n)[k] == InputFrame(s.shared.channels, buffer, k)
  {
    forall k | 0 <= k < n ensures Frames(buffer, s.shared.channels, n)[k] == InputFrame(s.shared.channels, buffer, k) {
      CountedFits(buffer, s.shared.channels, k);
      hide FrameCount, Holds, FrameAt;
    }
  }

  lemma PublishWriteKeeps(s: System)
    requires Inv(s)
    ensures Inv(PublishWriteStep(s))
  {
    hide SlotHolds, Wrap, FrameCount, Holds, WholeFrames, FrameAt;
    if s.producer.Filling? && s.producer.copied == FrameCount(s.producer.input, s.shared.channels) {
      var input, n := s.producer.input, s.producer.copied;
      var s' := PublishWriteStep(s);
      WrapAdds(|s.written|, n);
      FramesAre(s, input, n);
      hide Frames, InputFrame;
      forall i | |s'.delivered| <= i < |s'.written|
          ensures SlotHolds(s'.shared.samples, s'.shared.channels, i, s'.written[i]) {
        if i >= |s.written| {
          assert SlotHolds(s.shared.samples, s.shared.channels, |s.written| + (i - |s.written|),
              InputFrame(s.shared.channels, input, i - |s.written|));
        }
      }
    }
  }

  lemma BeginReadKeeps(s: System, length: nat)
    requires Inv(s)
    ensures Inv(BeginReadStep(s, length))
  {
    hide Wrap, FrameCount, SlotHolds, Holds, InputFrame, WholeFrames, WrappingSub;
    DepthIsExact(|s.written|, |s.delivered|);
  }

  lemma LoadOnlineKeeps(s: System)
    requires Inv(s)
    ensures Inv(LoadOnlineStep(s))
  {
    hide Wrap, FrameCount, SlotHolds, Holds, InputFrame, WholeFrames;
  }

  lemma FrameTaken(s: System, index: nat, frame: seq<Sample>)
    requires Sized(s) && SlotHolds(s.shared.samples, s.shared.channels, index, frame)
    ensures FrameAt(s.shared.samples, s.shared.channels, index % CAPACITY) == frame && |frame| == s.shared.channels
  {
    hide PutFrame;
  }

  lemma OutputPut(s: System, output: seq<Sample>, k: nat, frame: seq<Sample>, j: nat)
    requires Sized(s) && |frame| == s.shared.channels
    requires k < FrameCount(output, s.shared.channels) && j <= k && Holds(output, s.shared.channels, k)
    ensures var put := PutFrame(output, s.shared.channels, k, frame);
            |put| == |output| && InputFrame(s.shared.channels, put, j) == if j == k then frame
                else InputFrame(s.shared.channels, output, j)
  {
    CountedFits(output, s.shared.channels, j);
    FramePut(output, s.shared.channels, k, frame, j);
    hide FrameAt, PutFrame, FrameCount;
  }

  lemma CountByLength(a: seq<Sample>, b: seq<Sample>, channels: nat)
    requires |a| == |b| && 0 < channels
    ensures FrameCount(a, channels) == FrameCount(b, channels)
  {
  }

  lemma CopyOutKeeps(s: System)
    requires Inv(s)
    ensures Inv(CopyOutStep(s))
  {
    hide Wrap, FrameCount, Holds, WholeFrames, FrameAt, PutFrame;
    if s.consumer.Draining? && s.consumer.online && s.consumer.copied < s.consumer.frames {
      var output, k := s.consumer.output, s.consumer.copied;
      var index := |s.delivered| + k;
      CountedFits(output, s.shared.channels, k);
      SlotOfIndex(|s.delivered|, k);
      assert SlotHolds(s.shared.samples, s.shared.channels, index, s.written[index]);
      FrameTaken(s, index, s.written[index]);
      hide SlotHolds, InputFrame, Slot;
      var s' := CopyOutStep(s);
      forall j | 0 <= j <= k ensures InputFrame(s'.shared.channels, s'.consumer.output, j)
          == s.written[|s.delivered| + j] {
        OutputPut(s, output, k, s.written[index], j);
      }
      OutputPut(s, output, k, s.written[index], k);
      CountByLength(output, s'.consumer.output, s.shared.channels);
      SameProducer(s, s');
    }
  }

  lemma SameProducer(s: System, s': System)
    requires Sized(s) && s'.shared == s.shared && s'.producer == s.producer && s'.written == s.written
    requires |s.delivered| <= |s'.delivered|
    ensures ProducerOk(s) ==> ProducerOk(s')
  {
    hide FrameCount, SlotHolds, FrameAt, Holds;
  }

  lemma PublishReadKeeps(s: System)
    requires Inv(s)
    ensures Inv(PublishReadStep(s))
  {
    hide SlotHolds, Wrap, FrameCount, WholeFrames, InputFrame;
    if s.consumer.Draining? && (!s.consumer.online || s.consumer.copied == s.consumer.frames) {
      var n := s.consumer.frames;
      var s' := PublishReadStep(s);
      WrapAdds(|s.delivered|, n);
      forall i | |s'.delivered| <= i < |s'.written|
          ensures SlotHolds(s'.shared.samples, s'.shared.channels, i, s'.written[i]) {
      }
    }
  }

  lemma SetOnlineKeeps(s: System, on: bool)
    requires Inv(s)
    ensures Inv(s.(shared := s.shared.(online := on)))
  {
    hide Wrap, FrameCount, SlotHolds, Holds, InputFrame, WholeFrames;
  }

  lemma StepKeepsInv(s: System, a: Action)
    requires Inv(s)
    ensures Inv(Step(s, a))
  {
    match a
    case BeginWrite(input) => BeginWriteKeeps(s, input);
    case LoadForWrite => LoadForWriteKeeps(s);
    case CopyIn => CopyInKeeps(s);
    case PublishWrite => PublishWriteKeeps(s);
    case BeginRead(length) => BeginReadKeeps(s, length);
    case LoadOnline => LoadOnlineKeeps(s);
    case CopyOut => CopyOutKeeps(s);
    case PublishRead => PublishReadKeeps(s);
    case SetOnline(on) => SetOnlineKeeps(s, on);
  }

  // ----- Runs

  function Created(channels: nat): Shared {
    Shared(channels, 0, 0, false, 0, 0, seq(SAMPLES, _ => SILENCE))
  }

  function Fresh(channels: nat): System {
    System(Created(channels), Resting, Waiting, [], [])
  }

  lemma FreshInv(channels: nat)
    requires 1 <= channels <= 8
    ensures Inv(Fresh(channels))
  {
  }

  /** A new ring after any interleaving of producer and consumer steps. */
  function Run(channels: nat, actions: seq<Action>): (s: System)
    requires 1 <= channels <= 8
    ensures Inv(s)
  {
    if actions == [] then FreshInv(channels); Fresh(channels)
    else
      var before := Run(channels, actions[..|actions| - 1]);
      StepKeepsInv(before, actions[|actions| - 1]);
      Step(before, actions[|actions| - 1])
  }

  function Depth(sh: Shared): nat {
    Min(WrappingSub(sh.writeFrame, sh.readFrame), CAPACITY)
  }

  /**
   Whatever the interleaving and however often the cursors wrapped: at most 4096 frames are unread, each of them
   is still in its slot, and what the consumer took so far is what the producer wrote, frame for frame.
   */
  lemma ConsumedIsWrittenInOrder(channels: nat, actions: seq<Action>)
    requires 1 <= channels <= 8
    ensures var s := Run(channels, actions);
            && |s.delivered| <= |s.written| <= |s.delivered| + CAPACITY
            && Depth(s.shared) == |s.written| - |s.delivered|
            && (forall i :: 0 <= i < |s.delivered| ==> s.delivered[i] == Some(s.written[i]) || s.delivered[i] == None)
            && (forall i :: |s.delivered| <= i < |s.written| ==>
                  SlotHolds(s.shared.samples, s.shared.channels, i, s.written[i]))
  {
    var s := Run(channels, actions);
    DepthIsExact(|s.written|, |s.delivered|);
    hide Run, SlotHolds, Wrap, WrappingSub, ProducerOk, ConsumerOk;
  }

  /** A write that does not fit changes neither frames nor cursors: it is only counted. */
  lemma RefusedWriteOnlyCounts(s: System)
    requires Inv(s) && s.producer.Opened?
    ensures var n := FrameCount(s.producer.input, s.shared.channels);
            var s' := Step(s, LoadForWrite);
            if |s.written| + n <= |s.delivered| + CAPACITY then s'.shared == s.shared && s'.producer.Filling?
            else s' == s.(producer := Resting, shared := s.shared.(overruns := Wrap(s.shared.overruns + 1)))
  {
    DepthIsExact(|s.written|, |s.delivered|);
    hide Wrap, WrappingSub, FrameCount, Unread, ConsumerOk, InOrder;
  }

  /** Neither side touches the online flag; only its switch does, and nothing else. */
  lemma OnlyTheSwitchSwitches(s: System, a: Action)
    requires Inv(s)
    ensures Step(s, a).shared.online == if a.SetOnline? then a.on else s.shared.online
    ensures a.SetOnline? ==> Step(s, a).(shared := s.shared) == s && Step(s, a).shared == s.shared.(online := a.on)
  {
    hide Inv, PutFrame, FrameAt, Wrap, WrappingSub, Frames, Handed, Fits;
    StepParts(s);
  }

  lemma StepParts(s: System)
    requires Inv(s)
    ensures Sized(s) && ConsumerOk(s)
  {
  }

  // ----- One side running without interference

  function CopyAllIn(s: System): (s': System)
    requires Inv(s) && s.producer.Filling?
    ensures Inv(s') && s'.producer.Filling?
    decreases if s.producer.Filling? then FrameCount(s.producer.input, s.shared.channels) - s.producer.copied else 0
  {
    if s.producer.copied == FrameCount(s.producer.input, s.shared.channels) then s
    else
      StepKeepsInv(s, CopyIn);
      CopyAllIn(CopyInStep(s))
  }

  /** The steps of one write, nothing in between. */
  function WriteAlone(s: System, input: seq<Sample>): (s': System)
    requires Inv(s) && s.producer.Resting?
    ensures Inv(s')
  {
    StepKeepsInv(s, BeginWrite(input));
    var ready := Step(s, BeginWrite(input));
    StepKeepsInv(ready, LoadForWrite);
    var loaded := Step(ready, LoadForWrite);
    if loaded.producer.Filling? then
      StepKeepsInv(CopyAllIn(loaded), PublishWrite);
      Step(CopyAllIn(loaded), PublishWrite)
    else loaded
  }

  function CopyAllOut(s: System): (s': System)
    requires Inv(s) && s.consumer.Draining?
    ensures Inv(s') && s'.consumer.Draining?
    decreases if s.consumer.Draining? then s.consumer.frames - s.consumer.copied else 0
  {
    if !s.consumer.online || s.consumer.copied == s.consumer.frames then s
    else
      StepKeepsInv(s, CopyOut);
      CopyAllOut(CopyOutStep(s))
  }

  /** The steps of one read, nothing in between: the state after it and the filled buffer. */
  function ReadAlone(s: System, length: nat): (r: (System, seq<Sample>))
    requires Inv(s) && s.consumer.Waiting?
    ensures Inv(r.0)
  {
    StepKeepsInv(s, BeginRead(length));
    var begun := Step(s, BeginRead(length));
    if begun.consumer.Loaded? then
      StepKeepsInv(begun, LoadOnline);
      var done := CopyAllOut(Step(begun, LoadOnline));
      StepKeepsInv(done, PublishRead);
      (Step(done, PublishRead), done.consumer.output)
    else (s, seq(length, _ => SILENCE))
  }

  lemma {:induction false} CopyAllInFills(s: System)
    requires Inv(s) && s.producer.Filling?
    ensures var s' := CopyAllIn(s);
            s' == s.(shared := s.shared.(samples := s'.shared.samples),
                     producer := s.producer.(copied := FrameCount(s.producer.input, s.shared.channels)))
    decreases FrameCount(s.producer.input, s.shared.channels) - s.producer.copied
  {
    if s.producer.copied < FrameCount(s.producer.input, s.shared.channels) {
      StepKeepsInv(s, CopyIn);
      CopyAllInFills(CopyInStep(s));
    }
    hide Inv, Slot, PutFrame, FrameCount;
  }

  /** A write that is not interrupted appends all its frames, or changes nothing but the count of overruns. */
  lemma WriteAloneAppends(s: System, input: seq<Sample>)
    requires Inv(s) && s.producer.Resting?
    ensures var s' := WriteAlone(s, input);
            var channels := s.shared.channels;
            var n := FrameCount(input, channels);
            if !WholeFrames(channels, input) || !s.shared.online then s' == s
            else if |s.written| + n > |s.delivered| + CAPACITY then
              s' == s.(shared := s.shared.(overruns := Wrap(s.shared.overruns + 1)))
            else
              && s'.written == s.written + Frames(input, channels, n)
              && s' == s.(written := s'.written,
                          shared := s.shared.(samples := s'.shared.samples,
                              writeFrame := Wrap(s.shared.writeFrame + n)))
  {
    StepKeepsInv(s, BeginWrite(input));
    var ready := Step(s, BeginWrite(input));
    if ready.producer.Opened? {
      RefusedWriteOnlyCounts(ready);
      StepKeepsInv(ready, LoadForWrite);
      var loaded := Step(ready, LoadForWrite);
      if loaded.producer.Filling? {
        CopyAllInFills(loaded);
      }
    }
    hide Inv, CopyAllIn, FrameCount, WholeFrames, Wrap, Fits, Frames;
  }

  ghost predicate SilentFrom(output: seq<Sample>, channels: nat, from: nat) {
    forall k :: from <= k && Holds(output, channels, k) ==> FrameAt(output, channels, k) == seq(channels, _ => SILENCE)
  }

  lemma CopyOutLeavesRest(s: System)
    requires Inv(s) && s.consumer.Draining? && SilentFrom(s.consumer.output, s.shared.channels, s.consumer.frames)
    ensures var s' := CopyOutStep(s);
            s'.consumer.Draining? && SilentFrom(s'.consumer.output, s.shared.channels, s.consumer.frames)
  {
    if s.consumer.online && s.consumer.copied < s.consumer.frames {
      var output, k := s.consumer.output, s.consumer.copied;
      CountedFits(output, s.shared.channels, k);
      SlotFits(s.shared.samples, s.shared.channels, Slot(s.consumer.q, k));
      var frame := FrameAt(s.shared.samples, s.shared.channels, Slot(s.consumer.q, k));
      assert |frame| == s.shared.channels;
      var put := PutFrame(output, s.shared.channels, k, frame);
      FramePut(output, s.shared.channels, k, frame, k);
      hide FrameAt, PutFrame, Slot, Inv;
      forall j | s.consumer.frames <= j && Holds(put, s.shared.channels, j)
        ensures FrameAt(put, s.shared.channels, j) == seq(s.shared.channels, _ => SILENCE)
      {
        FramePut(output, s.shared.channels, k, frame, j);
      }
    }
  }

  lemma {:induction false} CopyAllOutFills(s: System)
    requires Inv(s) && s.consumer.Draining? && SilentFrom(s.consumer.output, s.shared.channels, s.consumer.frames)
    ensures var s' := CopyAllOut(s);
            && s' == s.(consumer := s.consumer.(output := s'.consumer.output,
                                                copied := if s.consumer.online then s.consumer.frames
                                                    else s.consumer.copied))
            && |s'.consumer.output| == |s.consumer.output|
            && SilentFrom(s'.consumer.output, s.shared.channels, s.consumer.frames)
            && (!s.consumer.online ==> s' == s)
    decreases s.consumer.frames - s.consumer.copied
  {
    if s.consumer.online && s.consumer.copied < s.consumer.frames {
      StepKeepsInv(s, CopyOut);
      CopyOutLeavesRest(s);
      CopyOutKeepsLength(s);
      CopyAllOutFills(CopyOutStep(s));
    }
    hide Inv, Slot, PutFrame, FrameCount, SilentFrom;
  }

  lemma CopyOutKeepsLength(s: System)
    requires Inv(s) && s.consumer.Draining?
    ensures |CopyOutStep(s).consumer.output| == |s.consumer.output|
  {
    if s.consumer.online && s.consumer.copied < s.consumer.frames {
      CountedFits(s.consumer.output, s.shared.channels, s.consumer.copied);
      SlotFits(s.shared.samples, s.shared.channels, Slot(s.consumer.q, s.consumer.copied));
    }
    hide Inv, Slot;
  }

  lemma SilenceIsSilent(length: nat, channels: nat, from: nat)
    ensures SilentFrom(seq(length, _ => SILENCE), channels, from)
  {
  }

  /** What an uninterrupted read of whole frames leaves behind, in terms of the frames it copied. */
  lemma ReadResult(s: System, length: nat) returns (started: System, done: System)
    requires Inv(s) && s.consumer.Waiting? && WholeFrames(s.shared.channels, seq(length, _ => SILENCE))
    ensures Inv(started) && started.consumer.Draining? && done == CopyAllOut(started)
    ensures Inv(done) && Sized(done) && done.consumer.Draining? && |done.consumer.output| == length
    ensures var frames := Min(length / s.shared.channels, WrappingSub(s.shared.writeFrame, s.shared.readFrame));
            && started == s.(consumer := Draining(seq(length, _ => SILENCE), s.shared.readFrame, frames,
                                                  s.shared.online, 0))
            && (!s.shared.online ==> done == started)
            && done == started.(consumer := started.consumer.(output := done.consumer.output,
                                                              copied := done.consumer.copied))
            && (s.shared.online ==> done.consumer.copied == frames)
            && |Handed(done)| == frames
            && SilentFrom(done.consumer.output, s.shared.channels, if s.shared.online then frames else 0)
            && ReadAlone(s, length)
               == (s.(delivered := s.delivered + Handed(done),
                      shared := s.shared.(readFrame := Wrap(s.shared.readFrame + frames),
                                          underruns := if s.shared.online && frames < length / s.shared.channels
                                                       then Wrap(s.shared.underruns + 1) else s.shared.underruns)),
                   done.consumer.output)
  {
    hide SilentFrom, Wrap, CopyAllOut, ReadAlone;
    started := ReadStarts(s, length);
    DepthIsExact(|s.written|, |s.delivered|);
    hide Inv, WrappingSub;
    SilenceIsSilent(length, s.shared.channels, started.consumer.frames);
    SilenceIsSilent(length, s.shared.channels, 0);
    CopyAllOutFills(started);
    done := CopyAllOut(started);
  }

  /** A read that is not interrupted takes the oldest unread frames, as many as fit, and leaves silence after them. */
  lemma ReadAloneTakes(s: System, length: nat)
    requires Inv(s) && s.consumer.Waiting?
    ensures var (s', output) := ReadAlone(s, length);
            var channels := s.shared.channels;
            && |output| == length
            && if !WholeFrames(channels, output) then s' == s && output == seq(length, _ => SILENCE)
               else
                 var n := Min(FrameCount(output, channels), |s.written| - |s.delivered|);
                 && |s'.delivered| == |s.delivered| + n && s'.delivered[..|s.delivered|] == s.delivered
                 && (forall i :: |s.delivered| <= i < |s'.delivered| ==>
                       s'.delivered[i] == if s.shared.online then Some(s.written[i]) else None)
                 && (s.shared.online ==>
                      forall k :: 0 <= k < n ==> InputFrame(channels, output, k) == s.written[|s.delivered| + k])
                 && SilentFrom(output, channels, if s.shared.online then n else 0)
                 && s' == s.(delivered := s'.delivered,
                             shared := s.shared.(readFrame := Wrap(|s'.delivered|), underruns := s'.shared.underruns))
                 && s'.shared.underruns == if s.shared.online && n < FrameCount(output, channels)
                                           then Wrap(s.shared.underruns + 1) else s.shared.underruns
  {
    var blank := seq(length, _ => SILENCE);
    if WholeFrames(s.shared.channels, blank) {
      DepthIsExact(|s.written|, |s.delivered|);
      hide CopyAllOut, Wrap, InputFrame, SilentFrom, ReadAlone, WrappingSub;
      var started, done := ReadResult(s, length);
      if s.shared.online {
        DrainedMatches(done);
      }
      CurrentCursor(s, done.consumer.frames);
      hide Inv;
    } else {
      ReadRefused(s, length);
    }
  }

  lemma CurrentCursor(s: System, n: nat)
    requires Inv(s)
    ensures s.shared.readFrame == Wrap(|s.delivered|) && Wrap(s.shared.readFrame + n) == Wrap(|s.delivered| + n)
  {
    WrapAdds(|s.delivered|, n);
  }

  lemma ReadRefused(s: System, length: nat)
    requires Inv(s) && s.consumer.Waiting? && !WholeFrames(s.shared.channels, seq(length, _ => SILENCE))
    ensures ReadAlone(s, length) == (s, seq(length, _ => SILENCE))
  {
    hide Inv, WholeFrames, CopyAllOut, WrappingSub;
  }

  /** The state in which a read starts copying. */
  lemma ReadStarts(s: System, length: nat) returns (started: System)
    requires Inv(s) && s.consumer.Waiting? && WholeFrames(s.shared.channels, seq(length, _ => SILENCE))
    ensures Inv(started)
    ensures var blank := seq(length, _ => SILENCE);
            started == s.(consumer := Draining(blank, s.shared.readFrame,
                                               Min(FrameCount(blank, s.shared.channels), |s.written| - |s.delivered|),
                                               s.shared.online, 0))
    ensures var done := CopyAllOut(started);
            Inv(done) && ReadAlone(s, length) == (Step(done, PublishRead), done.consumer.output)
  {
    DepthIsExact(|s.written|, |s.delivered|);
    StepKeepsInv(s, BeginRead(length));
    var begun := Step(s, BeginRead(length));
    StepKeepsInv(begun, LoadOnline);
    started := Step(begun, LoadOnline);
    hide Inv, WholeFrames, CopyAllOut, WrappingSub, FrameCount, Wrap;
    StepKeepsInv(CopyAllOut(started), PublishRead);
  }

  lemma InvSized(s: System)
    requires Inv(s)
    ensures Sized(s)
  {
  }

  lemma DrainedMatches(s: System)
    requires Inv(s) && s.consumer.Draining? && s.consumer.copied == s.consumer.frames
    ensures forall k :: 0 <= k < s.consumer.frames ==>
              InputFrame(s.shared.channels, s.consumer.output, k) == s.written[|s.delivered| + k]
  {
  }

  // ----- The ring as an object

  /** Copies n samples; the inner loop of the native functions. */
  method CopySamples(target: array<Sample>, offset: nat, source: seq<Sample>, from: nat, n: nat)
    requires offset + n <= target.Length && from + n <= |source|
    modifies target
    ensures target[..] == old(target[..offset]) + source[from..from + n] + old(target[offset + n..])
  {
    ghost var before := target[..];
    for c := 0 to n
      invariant forall i :: 0 <= i < target.Length ==>
                  target[i] == if offset <= i < offset + c then source[from + i - offset] else before[i]
    {
      target[offset + c] := source[from + c];
    }
    assert target[..] == before[..offset] + source[from..from + n] + before[offset + n..];
  }

  lemma SlotIsSmall(cursor: u64, k: nat)
    ensures Slot(cursor, k) < CAPACITY
  {
  }

  /** One frame of the copy loop of write. */
  method PutFrameAt(target: array<Sample>, channels: nat, slot: nat, source: seq<Sample>, k: nat)
    requires Holds(target[..], channels, slot) && Holds(source, channels, k)
    modifies target
    ensures target[..] == PutFrame(old(target[..]), channels, slot, FrameAt(source, channels, k))
  {
    CopySamples(target, slot * channels, source, k * channels, channels);
  }

  class Ring {
    const channels: nat
    var writeFrame: u64
    var readFrame: u64
    var online: bool
    var underruns: u64
    var overruns: u64
    const samples: array<Sample>
    ghost var written: seq<seq<Sample>>
    ghost var delivered: seq<Option<seq<Sample>>>

    ghost function Memory(): Shared
      reads this, samples
    {
      Shared(channels, writeFrame, readFrame, online, underruns, overruns, samples[..])
    }

    /** The ring with neither side at work. */
    ghost function Model(): System
      reads this, samples
    {
      System(Memory(), Resting, Waiting, written, delivered)
    }

    ghost predicate Valid()
      reads this, samples
    {
      Inv(Model())
    }

    constructor (channels: nat)
      requires 1 <= channels <= 8
      ensures Valid() && fresh(samples) && Model() == Fresh(channels)
    {
      this.channels := channels;
      writeFrame, readFrame, online, underruns, overruns := 0, 0, false, 0, 0;
      samples := new Sample[SAMPLES](_ => SILENCE);
      written, delivered := [], [];
      new;
      FreshInv(channels);
      assert samples[..] == seq(SAMPLES, _ => SILENCE);
    }

    /** Ring::new */
    static method Create(format: Format) returns (r: Result<Ring, AudioError>)
      ensures !ValidFormat(format) ==> r == Err(UnsupportedFormat)
      ensures ValidFormat(format) ==> r.Ok? && fresh(r.value) && fresh(r.value.samples)
                                      && r.value.Valid() && r.value.Model() == Fresh(format.channels)
    {
      if !ValidFormat(format) {
        return Err(UnsupportedFormat);
      }
      var ring := new Ring(format.channels);
      return Ok(ring);
    }

    method SetOnline(on: bool)
      requires Valid()
      modifies this`online
      ensures Valid() && Model() == Step(old(Model()), Action.SetOnline(on)) && online == on
    {
      StepKeepsInv(Model(), Action.SetOnline(on));
      online := on;
    }

    /** Ring::write: the frames accepted. */
    method Write(input: seq<Sample>) returns (frames: nat)
      requires Valid()
      modifies this`writeFrame, this`overruns, this`written, samples
      ensures Valid() && Model() == WriteAlone(old(Model()), input)
      ensures frames == |written| - |old(written)|
    {
      ghost var s := Model();
      WriteAloneAppends(s, input);
      if |input| % channels != 0 || !online {
        return 0;
      }
      frames := |input| / channels;
      var w := writeFrame;
      var depth := WrappingSub(w, readFrame);
      DepthIsExact(|s.written|, |s.delivered|);
      if depth > CAPACITY || frames > CAPACITY - depth {
        overruns := Wrap(overruns + 1);
        return 0;
      }
      Fill(input, frames);
      writeFrame := Wrap(w + frames);
      written := written + Frames(input, channels, frames);
    }

    /** The copy loop of write. */
    method Fill(input: seq<Sample>, frames: nat)
      requires Sized(Model()) && frames == FrameCount(input, channels) && Inv(Filling0(input))
      modifies samples
      ensures Sized(Model()) && Inv(old(Filling0(input)))
      ensures Model() == CopyAllIn(old(Filling0(input))).(producer := Resting)
    {
      ghost var start := Filling0(input);
      hide Inv, PutFrame, FrameAt, Slot, Wrap, FrameCount, Holds;
      for f := 0 to frames
        invariant Sized(Model()) && writeFrame == start.producer.w
        invariant var mid := Model().(producer := Filling(input, writeFrame, f));
                  Inv(mid) && CopyAllIn(mid) == CopyAllIn(start)
      {
        ghost var mid := Model().(producer := Filling(input, writeFrame, f));
        ghost var before := samples[..];
        StepKeepsInv(mid, CopyIn);
        CountedFits(input, channels, f);
        assert Slot(writeFrame, f) < CAPACITY by { SlotIsSmall(writeFrame, f); }
        SlotFits(samples[..], channels, Slot(writeFrame, f));
        PutFrameAt(samples, channels, Slot(writeFrame, f), input, f);
        assert Model().(producer := Filling(input, writeFrame, f + 1)) == CopyInStep(mid);
      }
    }

    ghost function Filling0(input: seq<Sample>): System
      reads this, samples
    {
      Model().(producer := Filling(input, writeFrame, 0))
    }

    /** Ring::read into a caller's buffer: the frames taken. */
    method Read(output: array<Sample>) returns (frames: nat)
      requires Valid() && output != samples
      modifies this`readFrame, this`underruns, this`delivered, output
      ensures Valid() && (Model(), output[..]) == ReadAlone(old(Model()), output.Length)
      ensures frames == |delivered| - |old(delivered)|
    {
      hide Inv, CopyAllOut, Handed, Wrap, ReadAlone, WrappingSub;
      ghost var s := Model();
      InvSized(s);
      Silence(output);
      if output.Length % channels != 0 {
        ReadRefused(s, output.Length);
        return 0;
      }
      ghost var started, done := ReadResult(s, output.Length);
      var q := readFrame;
      var depth := WrappingSub(writeFrame, q);
      frames := Min(output.Length / channels, depth);
      if online {
        Drain(output, frames, started);
        if frames < output.Length / channels {
          underruns := Wrap(underruns + 1);
        }
      }
      readFrame := Wrap(q + frames);
      delivered := delivered + Handed(done);
    }

    /** The copy loop of read. */
    method Drain(output: array<Sample>, frames: nat, ghost start: System)
      requires Inv(start) && start.consumer == Draining(output[..], readFrame, frames, true, 0)
      requires start.shared == Memory() && output != samples
      modifies output
      ensures output[..] == CopyAllOut(start).consumer.output
    {
      hide Inv, PutFrame, FrameAt, Slot, Wrap, FrameCount, Holds;
      for f := 0 to frames
        invariant var mid := start.(consumer := Draining(output[..], readFrame, frames, true, f));
                  Inv(mid) && CopyAllOut(mid) == CopyAllOut(start)
      {
        ghost var mid := start.(consumer := Draining(output[..], readFrame, frames, true, f));
        StepKeepsInv(mid, CopyOut);
        FrameFits(mid);
        PutFrameAt(output, channels, f, samples[..], Slot(readFrame, f));
        assert start.(consumer := Draining(output[..], readFrame, frames, true, f + 1)) == CopyOutStep(mid);
      }
    }
  }

  lemma FrameFits(s: System)
    requires Inv(s) && s.consumer.Draining? && s.consumer.copied < s.consumer.frames
    ensures Sized(s) && ConsumerOk(s) && Holds(s.consumer.output, s.shared.channels, s.consumer.copied)
    ensures Holds(s.shared.samples, s.shared.channels, Slot(s.consumer.q, s.consumer.copied))
  {
    CountedFits(s.consumer.output, s.shared.channels, s.consumer.copied);
    SlotIsSmall(s.consumer.q, s.consumer.copied);
    SlotFits(s.shared.samples, s.shared.channels, Slot(s.consumer.q, s.consumer.copied));
  }

  /** output.fill(0.0) */
  method Silence(output: array<Sample>)
    modifies output
    ensures output[..] == seq(output.Length, _ => SILENCE)
  {
    for i := 0 to output.Length
      invariant forall j :: 0 <= j < i ==> output[j] == SILENCE
    {
      output[i] := SILENCE;
    }
  }
}
