/** The playout ring with clock recovery: tagged slots, a play position, and the drift controller. */
module AudioPlayout {
  import opened Common
  import opened AudioFormat
  import R = AudioRing

  type Sample = R.Sample

  /** The tag of a slot that holds no frame. */
  const EMPTY: nat := U64_LIMIT - 1

  // ----- The drift controller, over real numbers

  datatype Drift = Drift(target: real, integral: real, correction: real)

  function Clamp(x: real, low: real, high: real): real {
    if x < low then low else if x > high then high else x
  }

  function Update(d: Drift, depth: real): Drift {
    var error := Clamp(depth - d.target, -d.target, d.target);
    var integral := Clamp(d.integral + error * 0.00000002, -0.001, 0.001);
    Drift(d.target, integral, Clamp(error * 0.00001 + integral, -0.001, 0.001))
  }

  /** The correction goes against the deviation: more than the target is played faster, less is played more slowly. */
  lemma DriftCorrects(d: Drift, depth: real)
    requires d.target > 0.0
    ensures var d' := Update(d, depth);
            && d'.target == d.target
            && (depth > d.target && d.integral >= 0.0 ==> d'.correction > 0.0)
            && (depth < d.target && d.integral <= 0.0 ==> d'.correction < 0.0)
            && (depth == d.target && d.integral == 0.0 ==> d' == d.(correction := 0.0))
            && -0.001 <= d'.correction <= 0.001 && -0.001 <= d'.integral <= 0.001
  {
  }

  /** The integral moves towards the sign of the deviation, until it is at its bound. */
  lemma DriftIntegrates(d: Drift, depth: real)
    requires d.target > 0.0 && -0.001 <= d.integral <= 0.001
    ensures var d' := Update(d, depth);
            && (depth > d.target ==> d'.integral > d.integral || d'.integral == d.integral == 0.001)
            && (depth < d.target ==> d'.integral < d.integral || d'.integral == d.integral == -0.001)
            && (depth == d.target ==> d'.integral == d.integral)
  {
  }

  /** More in the buffer is never played more slowly, and the two directions are alike. */
  lemma DriftIsMonotone(d: Drift, less: real, more: real)
    requires d.target > 0.0 && less <= more
    ensures Update(d, less).correction <= Update(d, more).correction
    ensures Update(d, less).integral <= Update(d, more).integral
    ensures var mirrored := Drift(d.target, -d.integral, -d.correction);
            var there, back := Update(d, d.target + more), Update(mirrored, d.target - more);
            back == Drift(d.target, -there.integral, -there.correction)
  {
  }

  function Updates(d: Drift, depth: real, n: nat): Drift {
    if n == 0 then d else Update(Updates(d, depth, n - 1), depth)
  }

  /**
   n updates at one depth, at most a target's worth away: each adds 0.02 millionths of the deviation to the integral,
   up to a thousandth, and a frame too many is corrected by 10 millionths on top of it, up to a thousandth in all.
   */
  lemma DriftAtOneDepth(d: Drift, depth: real, n: nat)
    requires d.target > 0.0 && 0.0 <= depth - d.target <= d.target && 0.0 <= d.integral <= 0.001
    ensures var d' := Updates(d, depth, n);
            && d'.target == d.target
            && d'.integral == RealMin(0.001, d.integral + n as real * ((depth - d.target) * 0.00000002))
            && (n > 0 ==> d'.correction == RealMin(0.001, (depth - d.target) * 0.00001 + d'.integral))
  {
    DriftRamps(d, depth, n);
    RampIsProduct(n, (depth - d.target) * 0.00000002);
    hide Updates, Ramp;
  }

  /** A step taken n times. */
  function Ramp(n: nat, step: real): (r: real)
    ensures step >= 0.0 ==> r >= 0.0
  {
    if n == 0 then 0.0 else Ramp(n - 1, step) + step
  }

  lemma {:induction false} RampIsProduct(n: nat, step: real)
    ensures Ramp(n, step) == n as real * step
  {
    if n > 0 {
      RampIsProduct(n - 1, step);
      assert n as real == (n - 1) as real + 1.0;
    }
  }

  lemma {:induction false} DriftRamps(d: Drift, depth: real, n: nat)
    requires d.target > 0.0 && 0.0 <= depth - d.target <= d.target && 0.0 <= d.integral <= 0.001
    ensures var d' := Updates(d, depth, n);
            && d'.target == d.target
            && d'.integral == RealMin(0.001, d.integral + Ramp(n, (depth - d.target) * 0.00000002))
            && (n > 0 ==> d'.correction == RealMin(0.001, (depth - d.target) * 0.00001 + d'.integral))
  {
    if n > 0 {
      DriftRamps(d, depth, n - 1);
      DriftOnce(Updates(d, depth, n - 1), depth);
      hide Update;
    }
  }

  lemma DriftOnce(d: Drift, depth: real)
    requires d.target > 0.0 && 0.0 <= depth - d.target <= d.target && 0.0 <= d.integral <= 0.001
    ensures var d' := Update(d, depth);
            && d'.target == d.target
            && d'.integral == RealMin(0.001, d.integral + (depth - d.target) * 0.00000002)
            && d'.correction == RealMin(0.001, (depth - d.target) * 0.00001 + d'.integral)
  {
  }

  // ----- State

  datatype Playout = Playout(
    format: Format,
    target: nat,
    capacity: nat,
    samples: seq<Sample>,
    tags: seq<nat>,
    start: Option<nat>,
    end: nat,
    position: real,
    running: bool,
    gain: real,
    drift: Drift,
    ratio: real,
    untilUpdate: nat,
    received: nat,
    late: nat,
    overruns: nat,
    duplicates: nat,
    underruns: nat)

  function CapacityOf(format: Format): nat {
    format.sampleRate * 40 / 1000
  }

  function Empty(format: Format, bufferMs: nat): Playout {
    var target := format.sampleRate * bufferMs / 1000;
    var capacity := CapacityOf(format);
    Playout(format, target, capacity, seq(capacity * format.channels, _ => R.SILENCE), seq(capacity, _ => EMPTY),
            None, 0, 0.0, false, 0.0, Drift(target as real, 0.0, 0.0), 1.0, 0, 0, 0, 0, 0, 0)
  }

  predicate Shaped(s: Playout) {
    && ValidFormat(s.format) && s.capacity == CapacityOf(s.format)
    && |s.tags| == s.capacity && |s.samples| == s.capacity * s.format.channels
    && s.position >= 0.0
  }

  lemma Capacities(s: Playout)
    requires Shaped(s)
    ensures s.capacity == 1920 || s.capacity == 3840
    ensures FramesPerPacket(s.format) == 48 || FramesPerPacket(s.format) == 96
    ensures 0 < FramesPerPacket(s.format) <= s.capacity
  {
  }

  function Slot(s: Playout, p: nat): nat
    requires Shaped(s)
    ensures Slot(s, p) < s.capacity
  {
    p % s.capacity
  }

  // ----- Inserting a packet

  predicate IsFinite(x: Sample) {
    x / 0x80_0000 % 0x100 != 0xFF
  }

  /** Samples that are not finite numbers are stored as silence. */
  function Cleaned(input: seq<Sample>): seq<Sample> {
    seq(|input|, i requires 0 <= i < |input| => if IsFinite(input[i]) then input[i] else R.SILENCE)
  }

  function TagsAfter(tags: seq<nat>, position: nat, n: nat): seq<nat>
    requires |tags| > 0
    ensures |TagsAfter(tags, position, n)| == |tags|
  {
    if n == 0 then tags
    else TagsAfter(tags, position, n - 1)[(position + n - 1) % |tags| := position + n - 1]
  }

  /** The sample buffer after the first n frames of a packet were copied. */
  function SamplesAfter(samples: seq<Sample>, channels: nat, capacity: nat, position: nat, input: seq<Sample>,
      n: nat): (r: seq<Sample>)
    requires 0 < capacity && 0 < channels && |samples| == capacity * channels && n * channels <= |input|
    ensures |r| == |samples|
  {
    if n == 0 then samples
    else
      R.TimesMonotone(n - 1, n, channels);
      FrameFits(samples, channels, capacity, (position + n - 1) % capacity);
      InputFits(input, channels, n - 1, n);
      var before := SamplesAfter(samples, channels, capacity, position, input, n - 1);
      R.PutFrame(before, channels, (position + n - 1) % capacity, R.FrameAt(input, channels, n - 1))
  }

  lemma FrameFits(samples: seq<Sample>, channels: nat, capacity: nat, slot: nat)
    requires 0 < channels && |samples| == capacity * channels && slot < capacity
    ensures R.Holds(samples, channels, slot)
  {
    R.TimesMonotone(slot + 1, capacity, channels);
  }

  lemma InputFits(input: seq<Sample>, channels: nat, k: nat, n: nat)
    requires 0 < channels && k < n && n * channels <= |input|
    ensures R.Holds(input, channels, k)
  {
    R.TimesMonotone(k + 1, n, channels);
  }

  predicate Present(s: Playout, p: nat)
    requires Shaped(s)
  {
    s.tags[Slot(s, p)] == p
  }

  /** Some frame from a position up to another is buffered. */
  predicate AnyBuffered(s: Playout, from: nat, to: nat)
    requires Shaped(s)
  {
    exists p :: from <= p < to && Present(s, p)
  }

  datatype Verdict = Refused | Late | Overrun | Duplicate | Accepted

  /** What insert decides about a packet. */
  function Judge(s: Playout, position: nat, input: seq<Sample>): Verdict
    requires Shaped(s)
  {
    var frames := FramesPerPacket(s.format);
    var end := position + frames;
    if |input| != frames * s.format.channels || end >= U64_LIMIT then Refused
    else if s.running && position < s.position.Floor then Late
    else if s.running && end > s.position.Floor + s.capacity then Overrun
    else if !s.running && s.start.Some? && SaturatingSub(end, Min(s.start.value, position)) > s.capacity then Overrun
    else if AnyBuffered(s, position, end) then Duplicate
    else Accepted
  }

  function Insert(s: Playout, position: nat, input: seq<Sample>): Playout
    requires Shaped(s)
  {
    match Judge(s, position, input)
    case Refused => s
    case Late => s.(late := s.late + 1)
    case Overrun => s.(overruns := s.overruns + 1)
    case Duplicate => s.(duplicates := s.duplicates + 1)
    case Accepted =>
      Capacities(s);
      var frames := FramesPerPacket(s.format);
      CleanedSize(s, position, input);
      s.(tags := TagsAfter(s.tags, position, frames),
         samples := SamplesAfter(s.samples, s.format.channels, s.capacity, position, Cleaned(input), frames),
         start := Some(if s.start.Some? then Min(s.start.value, position) else position),
         end := Max(s.end, position + frames),
         received := s.received + 1)
  }

  lemma CleanedSize(s: Playout, position: nat, input: seq<Sample>)
    requires Shaped(s) && Judge(s, position, input).Accepted?
    ensures |Cleaned(input)| == FramesPerPacket(s.format) * s.format.channels
  {
  }

  /** What insert decides, test by test, and the one counter it raises. */
  lemma InsertExactly(s: Playout, position: nat, input: seq<Sample>)
    requires Shaped(s)
    ensures var n := FramesPerPacket(s.format);
            var verdict := Judge(s, position, input);
            var s' := Insert(s, position, input);
            var wellFormed := |input| == n * s.format.channels && position + n < U64_LIMIT;
            var late := s.running && position < s.position.Floor;
            var tooFar := if s.running then position + n > s.position.Floor + s.capacity
                          else s.start.Some? && position + n > s.start.value + s.capacity;
            var buffered := exists p: nat :: position <= p < position + n && s.tags[p % s.capacity] == p;
            && n * 1000 == s.format.sampleRate
            && (verdict.Refused? <==> !wellFormed)
            && (verdict.Late? <==> wellFormed && late)
            && (verdict.Overrun? <==> wellFormed && !late && tooFar)
            && (verdict.Duplicate? <==> wellFormed && !late && !tooFar && buffered)
            && (verdict.Accepted? <==> wellFormed && !late && !tooFar && !buffered)
            && s'.late == s.late + (if verdict.Late? then 1 else 0)
            && s'.overruns == s.overruns + (if verdict.Overrun? then 1 else 0)
            && s'.duplicates == s.duplicates + (if verdict.Duplicate? then 1 else 0)
            && s'.received == s.received + (if verdict.Accepted? then 1 else 0)
            && (!verdict.Accepted? ==>
                  s' == s.(late := s'.late, overruns := s'.overruns, duplicates := s'.duplicates))
            && (verdict.Accepted? ==>
                  && s'.end == Max(s.end, position + n)
                  && s'.start == Some(if s.start.Some? then Min(s.start.value, position) else position)
                  && s' == s.(tags := s'.tags, samples := s'.samples, start := s'.start, end := s'.end,
                              received := s'.received))
  {
    hide TagsAfter, SamplesAfter, Cleaned;
    Capacities(s);
    var n := FramesPerPacket(s.format);
    assert AnyBuffered(s, position, position + n)
        <==> exists p: nat :: position <= p < position + n && s.tags[p % s.capacity] == p by {
      if p: nat :| position <= p < position + n && s.tags[p % s.capacity] == p {
        assert Present(s, p);
      }
    }
  }

  /** A sample is kept unless all its exponent bits are set; then it is stored as silence. */
  lemma CleanedKeepsFinite(input: seq<Sample>, i: nat)
    requires i < |input|
    ensures |Cleaned(input)| == |input|
    ensures input[i] / 8388608 % 256 < 255 ==> Cleaned(input)[i] == input[i]
    ensures input[i] / 8388608 % 256 == 255 ==> Cleaned(input)[i] == 0
  {
  }

  function Reset(s: Playout): Playout
    requires Shaped(s)
  {
    s.(tags := seq(s.capacity, _ => EMPTY), start := None, end := 0, position := 0.0, running := false, gain := 0.0,
       ratio := 1.0, untilUpdate := 0, drift := Drift(s.target as real, 0.0, 0.0))
  }

  // ----- Rendering

  function RealMax(a: real, b: real): real {
    if a >= b then a else b
  }

  function RealMin(a: real, b: real): real {
    if a <= b then a else b
  }

  /** One output frame: the state after it, and the frame at the play position if it is there. */
  function RenderFrame(s: Playout): (Playout, Option<nat>)
    requires Shaped(s)
  {
    var due := s.untilUpdate == 0;
    var drift := if due then Update(s.drift, RealMax(s.end as real - s.position, 0.0)) else s.drift;
    var ratio := if due then 1.0 + drift.correction else s.ratio;
    Capacities(s);
    var until := (if due then FramesPerPacket(s.format) else s.untilUpdate) - 1;
    var center := s.position.Floor;
    var present := center < s.end && Present(s, center);
    (s.(drift := drift, ratio := ratio, untilUpdate := until,
        gain := if present then RealMin(s.gain + 1000.0 / s.format.sampleRate as real, 1.0) else 0.0,
        position := s.position + ratio),
     if present then Some(center) else None)
  }

  /** A due update speeds playing up exactly in the direction that brings the buffer back to its target. */
  lemma FrameCorrectsDrift(s: Playout)
    requires Shaped(s) && Paced(s) && s.target > 0
    ensures var s' := RenderFrame(s).0;
            var depth := RealMax(s.end as real - s.position, 0.0);
            && (s.untilUpdate == 0 && depth > s.target as real && s.drift.integral >= 0.0 ==>
                  s'.position - s.position > 1.0)
            && (s.untilUpdate == 0 && depth < s.target as real && s.drift.integral <= 0.0 ==>
                  s'.position - s.position < 1.0)
            && (s.untilUpdate > 0 ==>
                  s'.position - s.position == s.ratio && s'.drift == s.drift && s'.untilUpdate == s.untilUpdate - 1)
            && (s.untilUpdate == 0 ==> s'.untilUpdate == FramesPerPacket(s.format) - 1)
            && s'.ratio == s'.position - s.position
  {
    DriftCorrects(s.drift, RealMax(s.end as real - s.position, 0.0));
    hide Update, FramesPerPacket;
  }

  /** Playing starts once enough is buffered. */
  function Begin(s: Playout): Playout
    requires Shaped(s)
  {
    if !s.running && s.start.Some? && SaturatingSub(s.end, s.start.value) >= s.target then
      s.(position := s.start.value as real, running := true)
    else s
  }

  /** Playing starts, at the first buffered frame, exactly when the target lies between it and the end. */
  lemma BeginsExactlyWhen(s: Playout)
    requires Shaped(s)
    ensures var s' := Begin(s);
            && (s'.running <==>
                  s.running || (s.start.Some? && (s.end >= s.start.value + s.target || s.target == 0)))
            && (s.running || !s'.running ==> s' == s)
            && (!s.running && s'.running ==> s' == s.(position := s.start.value as real, running := true))
  {
  }

  /** A reset leaves a ring as new, but for the counters and for samples that no tag points to. */
  lemma ResetIsNew(s: Playout, bufferMs: nat)
    requires Shaped(s) && s.target == s.format.sampleRate * bufferMs / 1000
    ensures Reset(s)
            == Empty(s.format, bufferMs).(samples := s.samples, received := s.received, late := s.late,
                                          overruns := s.overruns, duplicates := s.duplicates, underruns := s.underruns)
    ensures forall slot :: 0 <= slot < s.capacity ==> Reset(s).tags[slot] == EMPTY
  {
  }

  /** A millisecond has as many frames as the gain takes steps of this size to get from 0 to 1. */
  function GainStep(format: Format): (step: real)
    requires ValidFormat(format)
    ensures step > 0.0
  {
    1000.0 / format.sampleRate as real
  }

  /** A missing frame mutes; each present one raises the gain, to 1 after a millisecond without a gap. */
  lemma FrameGain(s: Playout)
    requires Shaped(s)
    ensures var (s', played) := RenderFrame(s);
            && (played.None? ==> s'.gain == 0.0)
            && (played.Some? ==> s'.gain == RealMin(s.gain + GainStep(s.format), 1.0))
  {
    hide Update;
  }

  // ----- What a stored packet does to the slots

  lemma SlotsDiffer(capacity: nat, i: nat, j: nat)
    requires capacity == 1920 || capacity == 3840
    requires i < j < i + capacity
    ensures i % capacity != j % capacity
  {
  }

  lemma {:induction false} TagsAfterIn(tags: seq<nat>, position: nat, n: nat, k: nat)
    requires |tags| == 1920 || |tags| == 3840
    requires k < n <= |tags|
    ensures TagsAfter(tags, position, n)[(position + k) % |tags|] == position + k
  {
    if k < n - 1 {
      TagsAfterIn(tags, position, n - 1, k);
      SlotsDiffer(|tags|, position + k, position + n - 1);
    }
  }

  lemma {:induction false} TagsAfterOut(tags: seq<nat>, position: nat, n: nat, slot: nat)
    requires slot < |tags|
    requires forall p :: position <= p < position + n ==> p % |tags| != slot
    ensures TagsAfter(tags, position, n)[slot] == tags[slot]
  {
    if n > 0 {
      TagsAfterOut(tags, position, n - 1, slot);
    }
  }

  lemma {:induction false} SamplesAfterIn(samples: seq<Sample>, channels: nat, capacity: nat, position: nat,
      input: seq<Sample>, n: nat, k: nat)
    requires capacity == 1920 || capacity == 3840
    requires 0 < channels && |samples| == capacity * channels && n * channels <= |input|
    requires k < n <= capacity
    ensures R.Holds(samples, channels, (position + k) % capacity) && R.Holds(input, channels, k)
    ensures R.FrameAt(SamplesAfter(samples, channels, capacity, position, input, n), channels,
            (position + k) % capacity)
            == R.FrameAt(input, channels, k)
  {
    hide R.FrameAt, R.PutFrame, R.Holds;
    R.TimesMonotone(n - 1, n, channels);
    var last := (position + n - 1) % capacity;
    FrameFits(samples, channels, capacity, last);
    FrameFits(samples, channels, capacity, (position + k) % capacity);
    InputFits(input, channels, n - 1, n);
    InputFits(input, channels, k, n);
    var before := SamplesAfter(samples, channels, capacity, position, input, n - 1);
    FrameSize(input, channels, n - 1);
    SamplesAfterStep(samples, channels, capacity, position, input, n);
    hide SamplesAfter;
    FrameFits(before, channels, capacity, (position + k) % capacity);
    R.FramePut(before, channels, last, R.FrameAt(input, channels, n - 1), (position + k) % capacity);
    if k < n - 1 {
      SlotsDiffer(capacity, position + k, position + n - 1);
      SamplesAfterIn(samples, channels, capacity, position, input, n - 1, k);
    }
  }

  lemma FrameSize(buffer: seq<Sample>, channels: nat, k: nat)
    requires R.Holds(buffer, channels, k)
    ensures |R.FrameAt(buffer, channels, k)| == channels
  {
  }

  lemma NothingStored(samples: seq<Sample>, channels: nat, capacity: nat, position: nat, input: seq<Sample>)
    requires 0 < capacity && 0 < channels && |samples| == capacity * channels
    ensures SamplesAfter(samples, channels, capacity, position, input, 0) == samples
  {
  }

  lemma SamplesAfterStep(samples: seq<Sample>, channels: nat, capacity: nat, position: nat, input: seq<Sample>, n: nat)
    requires 0 < capacity && 0 < channels && |samples| == capacity * channels && 0 < n && n * channels <= |input|
    ensures (n - 1) * channels <= |input| && R.Holds(input, channels, n - 1)
    ensures var before := SamplesAfter(samples, channels, capacity, position, input, n - 1);
            && R.Holds(before, channels, (position + n - 1) % capacity)
            && SamplesAfter(samples, channels, capacity, position, input, n)
               == R.PutFrame(before, channels, (position + n - 1) % capacity, R.FrameAt(input, channels, n - 1))
  {
    R.TimesMonotone(n - 1, n, channels);
    InputFits(input, channels, n - 1, n);
    FrameFits(samples, channels, capacity, (position + n - 1) % capacity);
  }

  lemma {:induction false} SamplesAfterOut(samples: seq<Sample>, channels: nat, capacity: nat, position: nat,
      input: seq<Sample>, n: nat, slot: nat)
    requires 0 < capacity && 0 < channels && |samples| == capacity * channels && n * channels <= |input|
    requires slot < capacity && forall p :: position <= p < position + n ==> p % capacity != slot
    ensures R.Holds(samples, channels, slot)
    ensures R.FrameAt(SamplesAfter(samples, channels, capacity, position, input, n), channels, slot)
            == R.FrameAt(samples, channels, slot)
  {
    FrameFits(samples, channels, capacity, slot);
    if n > 0 {
      SamplesAfterStep(samples, channels, capacity, position, input, n);
      var before := SamplesAfter(samples, channels, capacity, position, input, n - 1);
      FrameSize(input, channels, n - 1);
      hide R.FrameAt, R.PutFrame, R.Holds;
      R.FramePut(before, channels, (position + n - 1) % capacity, R.FrameAt(input, channels, n - 1), slot);
      SamplesAfterOut(samples, channels, capacity, position, input, n - 1, slot);
    }
  }

  // ----- Runs

  /** The ring with the samples last accepted for each frame number. */
  datatype Trace = Trace(s: Playout, accepted: map<nat, seq<Sample>>)

  datatype Action = Packet(position: nat, input: seq<Sample>) | Frame | Start | Forget

  /** The samples a packet carries for frame p. */
  function PacketFrame(s: Playout, position: nat, input: seq<Sample>, p: nat): seq<Sample> {
    if position <= p then R.InputFrame(s.format.channels, Cleaned(input), p - position) else []
  }

  function FramesOf(s: Playout, position: nat, input: seq<Sample>): map<nat, seq<Sample>> {
    map p: nat | position <= p < position + FramesPerPacket(s.format) :: PacketFrame(s, position, input, p)
  }

  /** A render call is Start followed by one Frame for each output frame. */
  function Step(t: Trace, a: Action): Trace
    requires Shaped(t.s)
  {
    match a
    case Packet(position, input) =>
      Trace(Insert(t.s, position, input),
            if Judge(t.s, position, input).Accepted? then t.accepted + FramesOf(t.s, position, input) else t.accepted)
    case Frame => if t.s.running then t.(s := RenderFrame(t.s).0) else t
    case Start => t.(s := Begin(t.s))
    case Forget => t.(s := Reset(t.s))
  }

  /** A tagged slot is the tag's own, and holds the samples last accepted for that frame. */
  ghost predicate SlotHolds(s: Playout, accepted: map<nat, seq<Sample>>, slot: nat)
    requires Shaped(s) && slot < s.capacity
  {
    var tag := s.tags[slot];
    tag != EMPTY ==>
      && tag % s.capacity == slot && tag in accepted
      && R.Holds(s.samples, s.format.channels, slot) && R.FrameAt(s.samples, s.format.channels, slot) == accepted[tag]
  }

  ghost predicate Holding(t: Trace)
    requires Shaped(t.s)
  {
    forall slot :: 0 <= slot < t.s.capacity ==> SlotHolds(t.s, t.accepted, slot)
  }

  /** The play position moves by 0.999 to 1.001 for each output frame. */
  predicate Paced(s: Playout) {
    && 0.999 <= s.ratio <= 1.001 && 0.0 <= s.gain <= 1.0
    && -0.001 <= s.drift.correction <= 0.001 && -0.001 <= s.drift.integral <= 0.001
    && s.drift.target == s.target as real
  }

  ghost predicate Inv(t: Trace) {
    Shaped(t.s) && Holding(t) && Paced(t.s)
  }

  lemma HitSlot(s: Playout, position: nat, input: seq<Sample>, p: nat)
    requires Shaped(s) && Judge(s, position, input).Accepted? && position <= p < position + FramesPerPacket(s.format)
    ensures var s' := Insert(s, position, input);
            var slot := p % s.capacity;
            && slot < s.capacity && s'.tags[slot] == p && R.Holds(s'.samples, s.format.channels, slot)
            && R.FrameAt(s'.samples, s.format.channels, slot) == PacketFrame(s, position, input, p)
  {
    hide Cleaned, TagsAfter, SamplesAfter, R.FrameAt, R.Holds, FramesPerPacket, CapacityOf, Judge;
    Capacities(s);
    CleanedSize(s, position, input);
    var frames := FramesPerPacket(s.format);
    TagsAfterIn(s.tags, position, frames, p - position);
    SamplesAfterIn(s.samples, s.format.channels, s.capacity, position, Cleaned(input), frames, p - position);
    SamplesHold(Insert(s, position, input).samples, s.format.channels, s.capacity, p % s.capacity);
  }

  lemma MissedSlot(s: Playout, position: nat, input: seq<Sample>, slot: nat)
    requires Shaped(s) && Judge(s, position, input).Accepted? && slot < s.capacity
    requires forall p :: position <= p < position + FramesPerPacket(s.format) ==> p % s.capacity != slot
    ensures var s' := Insert(s, position, input);
            && s'.tags[slot] == s.tags[slot]
            && R.Holds(s'.samples, s.format.channels, slot) && R.Holds(s.samples, s.format.channels, slot)
            && R.FrameAt(s'.samples, s.format.channels, slot) == R.FrameAt(s.samples, s.format.channels, slot)
  {
    hide Cleaned, TagsAfter, SamplesAfter, R.FrameAt, R.Holds, FramesPerPacket, CapacityOf, Judge;
    Capacities(s);
    CleanedSize(s, position, input);
    var frames := FramesPerPacket(s.format);
    TagsAfterOut(s.tags, position, frames, slot);
    SamplesAfterOut(s.samples, s.format.channels, s.capacity, position, Cleaned(input), frames, slot);
    SamplesHold(Insert(s, position, input).samples, s.format.channels, s.capacity, slot);
  }

  lemma StoredSlot(t: Trace, position: nat, input: seq<Sample>, slot: nat)
    requires Inv(t) && Judge(t.s, position, input).Accepted? && slot < t.s.capacity
    ensures Shaped(Insert(t.s, position, input))
    ensures SlotHolds(Insert(t.s, position, input), t.accepted + FramesOf(t.s, position, input), slot)
  {
    var s := t.s;
    InsertShapes(s, position, input);
    assert SlotHolds(s, t.accepted, slot);
    hide Insert, PacketFrame, R.FrameAt, R.Holds, CapacityOf, FramesPerPacket, Judge, Holding;
    if p: nat :| position <= p < position + FramesPerPacket(s.format) && p % s.capacity == slot {
      HitSlot(s, position, input, p);
    } else {
      MissedSlot(s, position, input, slot);
      var tag := s.tags[slot];
      assert tag != EMPTY ==> tag % s.capacity == slot;
    }
  }

  lemma SamplesHold(samples: seq<Sample>, channels: nat, capacity: nat, slot: nat)
    requires 0 < channels && |samples| == capacity * channels && slot < capacity
    ensures R.Holds(samples, channels, slot)
  {
    FrameFits(samples, channels, capacity, slot);
  }

  lemma FrameKeeps(t: Trace)
    requires Inv(t) && t.s.running
    ensures Inv(Step(t, Frame))
    ensures var s' := Step(t, Frame).s;
            0.999 <= s'.position - t.s.position <= 1.001 && s'.tags == t.s.tags && s'.samples == t.s.samples
  {
    var s' := RenderFrame(t.s).0;
    assert Paced(s');
    assert s'.position == t.s.position + s'.ratio;
    hide Update, FramesPerPacket, CapacityOf, R.FrameAt, R.Holds;
    forall slot | 0 <= slot < s'.capacity ensures SlotHolds(s', t.accepted, slot) {
      assert SlotHolds(t.s, t.accepted, slot);
    }
  }

  lemma StepKeepsInv(t: Trace, a: Action)
    requires Inv(t)
    ensures Inv(Step(t, a))
  {
    match a
    case Packet(position, input) => PacketKeeps(t, position, input);
    case Frame => if t.s.running { FrameKeeps(t); }
    case Start => StartKeeps(t);
    case Forget => ForgetKeeps(t);
  }

  lemma StartKeeps(t: Trace)
    requires Inv(t)
    ensures Inv(t.(s := Begin(t.s)))
  {
    hide CapacityOf, R.FrameAt, R.Holds;
    var s' := Begin(t.s);
    forall slot | 0 <= slot < s'.capacity ensures SlotHolds(s', t.accepted, slot) {
      assert SlotHolds(t.s, t.accepted, slot);
    }
  }

  lemma ForgetKeeps(t: Trace)
    requires Inv(t)
    ensures Inv(t.(s := Reset(t.s)))
  {
    hide CapacityOf, R.FrameAt, R.Holds;
  }

  lemma PacketKeeps(t: Trace, position: nat, input: seq<Sample>)
    requires Inv(t)
    ensures Inv(Step(t, Packet(position, input)))
  {
    var t' := Step(t, Packet(position, input));
    if Judge(t.s, position, input).Accepted? {
      InsertShapes(t.s, position, input);
      hide Insert, Judge, CapacityOf, FramesOf;
      forall slot | 0 <= slot < t'.s.capacity ensures SlotHolds(t'.s, t'.accepted, slot) {
        StoredSlot(t, position, input, slot);
      }
    } else {
      InsertShapes(t.s, position, input);
      hide Judge, CapacityOf, FramesOf, R.FrameAt, R.Holds;
      forall slot | 0 <= slot < t'.s.capacity ensures SlotHolds(t'.s, t'.accepted, slot) {
        assert SlotHolds(t.s, t.accepted, slot);
      }
    }
  }

  lemma InsertShapes(s: Playout, position: nat, input: seq<Sample>)
    requires Shaped(s)
    ensures var s' := Insert(s, position, input);
            && Shaped(s') && s'.capacity == s.capacity && s'.format == s.format && s'.running == s.running
            && s'.position == s.position && s'.ratio == s.ratio && s'.gain == s.gain && s'.drift == s.drift
  {
    hide CapacityOf, FramesPerPacket;
    if Judge(s, position, input).Accepted? {
      Capacities(s);
      CleanedSize(s, position, input);
    }
    hide Judge;
  }

  function Run(format: Format, bufferMs: nat, actions: seq<Action>): (t: Trace)
    requires ValidFormat(format)
    ensures Inv(t)
  {
    if actions == [] then EmptyInv(format, bufferMs); Trace(Empty(format, bufferMs), map[])
    else
      var before := Run(format, bufferMs, actions[..|actions| - 1]);
      StepKeepsInv(before, actions[|actions| - 1]);
      Step(before, actions[|actions| - 1])
  }

  lemma EmptyInv(format: Format, bufferMs: nat)
    requires ValidFormat(format)
    ensures Inv(Trace(Empty(format, bufferMs), map[]))
  {
  }

  // ----- Upcoming frames

  /** What is buffered ends within one ring of the play position, or of the first frame before playing. */
  predicate Fits(s: Playout)
    requires Shaped(s)
  {
    && (forall slot :: 0 <= slot < s.capacity ==> s.tags[slot] == EMPTY || s.tags[slot] < s.end)
    && (if s.running then s.end <= s.position.Floor + s.capacity
        else if s.start.None? then s.end == 0 && forall slot :: 0 <= slot < s.capacity ==> s.tags[slot] == EMPTY
        else
          && s.end <= s.start.value + s.capacity
          && forall slot :: 0 <= slot < s.capacity ==> s.tags[slot] == EMPTY || s.start.value <= s.tags[slot])
  }

  /** The packet does not go back before the first frame by more than the ring can hold. */
  predicate NotTooEarly(s: Playout, position: nat) {
    s.running || s.end <= position + s.capacity
  }

  /** A slot whose frame is still to be played. */
  predicate Upcoming(s: Playout, slot: nat)
    requires Shaped(s) && slot < s.capacity
  {
    s.tags[slot] != EMPTY && (s.running ==> s.position.Floor <= s.tags[slot])
  }

  lemma {:induction false} CloseFramesShareNoSlot(capacity: nat, i: nat, j: nat)
    requires capacity == 1920 || capacity == 3840
    requires i != j && i < j + capacity && j < i + capacity
    ensures i % capacity != j % capacity
  {
    if i < j {
      SlotsDiffer(capacity, i, j);
    } else {
      SlotsDiffer(capacity, j, i);
    }
  }

  lemma UpcomingSlotKept(t: Trace, position: nat, input: seq<Sample>, slot: nat)
    requires Inv(t) && Fits(t.s) && Judge(t.s, position, input).Accepted? && NotTooEarly(t.s, position)
    requires slot < t.s.capacity && Upcoming(t.s, slot)
    ensures forall p :: position <= p < position + FramesPerPacket(t.s.format) ==> p % t.s.capacity != slot
  {
    var s := t.s;
    Capacities(s);
    var tag := s.tags[slot];
    assert SlotHolds(s, t.accepted, slot);
    assert s.tags[slot] < s.end;
    var end := position + FramesPerPacket(s.format);
    assert !s.running && s.start.Some? ==> end <= Min(s.start.value, position) + s.capacity;
    hide CapacityOf, FramesPerPacket, Holding, SlotHolds, R.FrameAt, R.Holds;
    forall p | position <= p < end ensures p % s.capacity != slot {
      assert !Present(s, p);
      if p != tag {
        CloseFramesShareNoSlot(s.capacity, p, tag);
      }
    }
  }

  /** An accepted packet overwrites no frame that is still to be played, and what is buffered still fits. */
  lemma AcceptedPacketSparesUpcomingFrames(t: Trace, position: nat, input: seq<Sample>)
    requires Inv(t) && Fits(t.s) && Judge(t.s, position, input).Accepted? && NotTooEarly(t.s, position)
    ensures var s, s' := t.s, Insert(t.s, position, input);
            && Shaped(s') && s'.capacity == s.capacity && Fits(s')
            && (forall slot :: 0 <= slot < s.capacity && Upcoming(s, slot) ==>
                  s'.tags[slot] == s.tags[slot]
                  && R.InputFrame(s.format.channels, s'.samples, slot)
                       == R.InputFrame(s.format.channels, s.samples, slot))
  {
    var s, s' := t.s, Insert(t.s, position, input);
    InsertShapes(s, position, input);
    FitsAfter(t, position, input);
    hide Fits, Insert, Judge, R.FrameAt, R.Holds, CapacityOf, FramesPerPacket, R.InputFrame;
    forall slot | 0 <= slot < s.capacity && Upcoming(s, slot)
      ensures s'.tags[slot] == s.tags[slot]
              && R.InputFrame(s.format.channels, s'.samples, slot) == R.InputFrame(s.format.channels, s.samples, slot)
    {
      UpcomingSlotKept(t, position, input, slot);
      MissedSlot(s, position, input, slot);
      R.InputFrameIs(s.samples, s.format.channels, slot);
      R.InputFrameIs(s'.samples, s.format.channels, slot);
    }
  }

  lemma FitsAfter(t: Trace, position: nat, input: seq<Sample>)
    requires Inv(t) && Fits(t.s) && Judge(t.s, position, input).Accepted? && NotTooEarly(t.s, position)
    ensures Shaped(Insert(t.s, position, input)) && Fits(Insert(t.s, position, input))
  {
    var s, s' := t.s, Insert(t.s, position, input);
    InsertShapes(s, position, input);
    Capacities(s);
    var frames := FramesPerPacket(s.format);
    hide CapacityOf, FramesPerPacket, R.FrameAt, R.Holds, TagsAfter, SamplesAfter, Holding;
    forall slot | 0 <= slot < s.capacity
      ensures s'.tags[slot] == s.tags[slot] || position <= s'.tags[slot] < position + frames
    {
      if p: nat :| position <= p < position + frames && p % s.capacity == slot {
        HitSlot(s, position, input, p);
      } else {
        MissedSlot(s, position, input, slot);
      }
    }
  }

  /** It stops fitting exactly when a packet before the start is accepted too far back. */
  lemma FitsExactlyWhenNotTooEarly(t: Trace, position: nat, input: seq<Sample>)
    requires Inv(t) && Fits(t.s) && Judge(t.s, position, input).Accepted?
    ensures Shaped(Insert(t.s, position, input))
    ensures Fits(Insert(t.s, position, input)) <==> NotTooEarly(t.s, position)
  {
    InsertShapes(t.s, position, input);
    if NotTooEarly(t.s, position) {
      FitsAfter(t, position, input);
    }
    hide CapacityOf, FramesPerPacket, TagsAfter, SamplesAfter, Holding;
  }

  lemma OtherStepsKeepFit(t: Trace, a: Action)
    requires Inv(t) && Fits(t.s) && !a.Packet?
    ensures Inv(Step(t, a)) && Fits(Step(t, a).s)
  {
    StepKeepsInv(t, a);
    hide CapacityOf, FramesPerPacket, Holding, SlotHolds;
    if a.Frame? && t.s.running {
      FrameKeeps(t);
      FloorGrows(t.s.position, RenderFrame(t.s).0.position);
    }
  }

  lemma FloorGrows(a: real, b: real)
    requires a <= b
    ensures a.Floor <= b.Floor
  {
  }

  /** Before playing, no accepted packet precedes what is buffered by more than the ring can hold. */
  ghost predicate NeverTooEarly(format: Format, bufferMs: nat, actions: seq<Action>)
    requires ValidFormat(format)
    decreases |actions|
  {
    actions != [] ==>
      var n := |actions| - 1;
      && NeverTooEarly(format, bufferMs, actions[..n])
      && var s := Run(format, bufferMs, actions[..n]).s;
         !TooEarly(s, actions[n])
  }

  predicate TooEarly(s: Playout, a: Action)
    requires Shaped(s)
  {
    a.Packet? && Judge(s, a.position, a.input).Accepted? && !NotTooEarly(s, a.position)
  }

  lemma StepKeepsFitExactlyWhen(t: Trace, a: Action)
    requires Inv(t) && Fits(t.s)
    ensures Inv(Step(t, a)) && (Fits(Step(t, a).s) <==> !TooEarly(t.s, a))
  {
    hide Judge, Fits, NotTooEarly;
    StepKeepsInv(t, a);
    if !a.Packet? {
      OtherStepsKeepFit(t, a);
    } else if Judge(t.s, a.position, a.input).Accepted? {
      FitsExactlyWhenNotTooEarly(t, a.position, a.input);
    } else {
      RefusedKeepsFit(t.s, a.position, a.input);
    }
  }

  lemma RefusedKeepsFit(s: Playout, position: nat, input: seq<Sample>)
    requires Shaped(s) && Fits(s) && !Judge(s, position, input).Accepted?
    ensures Shaped(Insert(s, position, input)) && Fits(Insert(s, position, input))
  {
    hide Judge, CapacityOf;
  }

  /** In every run without a packet that is too early what is buffered fits into one ring, and in no other run. */
  lemma {:induction false} AlwaysFitsExactlyWhen(format: Format, bufferMs: nat, actions: seq<Action>)
    requires ValidFormat(format)
    ensures NeverTooEarly(format, bufferMs, actions)
        <==> forall k :: 0 <= k <= |actions| ==> Fits(Run(format, bufferMs, actions[..k]).s)
    decreases |actions|
  {
    hide Step, TooEarly, Inv, Run;
    if actions == [] {
      EmptyFits(format, bufferMs);
    } else {
      hide Fits;
      var n := |actions| - 1;
      var init := actions[..n];
      AlwaysFitsExactlyWhen(format, bufferMs, init);
      assert forall k :: 0 <= k <= n ==> init[..k] == actions[..k];
      var t := Run(format, bufferMs, init);
      RunNext(format, bufferMs, init, actions[n]);
      assert init + [actions[n]] == actions && actions[..n + 1] == actions && init[..n] == init;
      RunShaped(format, bufferMs, init);
      if Fits(t.s) {
        StepKeepsFitExactlyWhen(t, actions[n]);
      }
    }
  }

  lemma EmptyFits(format: Format, bufferMs: nat)
    requires ValidFormat(format)
    ensures Inv(Run(format, bufferMs, [])) && Fits(Run(format, bufferMs, []).s)
  {
  }

  lemma RunNext(format: Format, bufferMs: nat, actions: seq<Action>, a: Action)
    requires ValidFormat(format)
    ensures Run(format, bufferMs, actions + [a]) == Step(Run(format, bufferMs, actions), a)
  {
    hide Step, Inv;
    assert (actions + [a])[..|actions|] == actions;
  }

  lemma RunShaped(format: Format, bufferMs: nat, actions: seq<Action>)
    requires ValidFormat(format)
    ensures Inv(Run(format, bufferMs, actions)) && Shaped(Run(format, bufferMs, actions).s)
  {
    hide Run;
  }

  lemma BeforeNext(format: Format, bufferMs: nat, actions: seq<Action>, a: Action)
    requires ValidFormat(format) && NeverTooEarly(format, bufferMs, actions + [a])
    ensures NeverTooEarly(format, bufferMs, actions)
    ensures var t := Run(format, bufferMs, actions);
            Inv(t) && Shaped(t.s) && Fits(t.s) && !TooEarly(t.s, a)
  {
    hide Run, TooEarly, Fits, Step;
    assert (actions + [a])[..|actions|] == actions;
    AlwaysFitsExactlyWhen(format, bufferMs, actions);
    assert actions[..|actions|] == actions;
  }

  predicate PlayedBy(s: Playout, p: nat) {
    s.running && p < s.position.Floor
  }

  /** The slot still holds the frame that it held before, sample for sample. */
  predicate SameFrame(before: Playout, after: Playout, slot: nat)
    requires slot < |before.tags| && slot < |after.tags|
  {
    && after.tags[slot] == before.tags[slot] && after.format == before.format
    && R.InputFrame(after.format.channels, after.samples, slot) == R.InputFrame(before.format.channels, before.samples,
         slot)
  }

  lemma StepSparesUpcoming(t: Trace, a: Action, slot: nat)
    requires Inv(t) && Fits(t.s) && !a.Forget? && slot < t.s.capacity && Upcoming(t.s, slot)
    requires !TooEarly(t.s, a)
    ensures var s' := Step(t, a).s;
            |s'.tags| == |t.s.tags| && SameFrame(t.s, s', slot)
  {
    hide R.InputFrame, R.FrameAt, R.Holds, CapacityOf, FramesPerPacket, Holding, SlotHolds;
    match a
    case Packet(position, input) =>
      InsertShapes(t.s, position, input);
      if Judge(t.s, position, input).Accepted? {
        AcceptedPacketSparesUpcomingFrames(t, position, input);
      }
      hide Judge, Fits, NotTooEarly, TagsAfter, SamplesAfter;
    case Frame => if t.s.running { FrameKeeps(t); }
    case Start =>
  }

  lemma PlayedStays(t: Trace, a: Action, p: nat)
    requires Inv(t) && !a.Forget? && PlayedBy(t.s, p)
    ensures PlayedBy(Step(t, a).s, p)
  {
    hide R.InputFrame, R.FrameAt, R.Holds, CapacityOf, FramesPerPacket, Holding, SlotHolds;
    match a
    case Packet(position, input) => InsertShapes(t.s, position, input);
    case Frame =>
      FrameKeeps(t);
      FloorGrows(t.s.position, RenderFrame(t.s).0.position);
    case Start =>
  }

  /**
   In every run without a packet that is too early, whatever packets arrive and frames are rendered, a buffered frame
   stays in its slot, sample for sample, until the play position has passed it; only a reset takes it before that.
   */
  lemma {:induction false} OnlyPlayedFramesAreReplaced(
      format: Format, bufferMs: nat, actions: seq<Action>, more: seq<Action>, slot: nat)
    requires ValidFormat(format) && NeverTooEarly(format, bufferMs, actions + more)
    requires forall a :: a in more ==> !a.Forget?
    requires slot < Run(format, bufferMs, actions).s.capacity && Upcoming(Run(format, bufferMs, actions).s, slot)
    ensures var before, after := Run(format, bufferMs, actions).s, Run(format, bufferMs, actions + more).s;
            |after.tags| == |before.tags| && (SameFrame(before, after, slot) || PlayedBy(after, before.tags[slot]))
    decreases |more|
  {
    hide Run, Inv, NeverTooEarly, Fits, TooEarly, Step, R.InputFrame;
    RunShaped(format, bufferMs, actions);
    var s := Run(format, bufferMs, actions).s;
    if more == [] {
      assert actions + more == actions;
    } else {
      var n := |more| - 1;
      var before, a := actions + more[..n], more[n];
      assert before + [a] == actions + more;
      BeforeNext(format, bufferMs, before, a);
      OnlyPlayedFramesAreReplaced(format, bufferMs, actions, more[..n], slot);
      var t := Run(format, bufferMs, before);
      RunNext(format, bufferMs, before, a);
      StepTags(t, a);
      if PlayedBy(t.s, s.tags[slot]) {
        PlayedStays(t, a, s.tags[slot]);
      } else {
        StepSparesUpcoming(t, a, slot);
      }
    }
  }

  /** In particular an arriving packet changes no slot whose frame is still to be played. */
  lemma PacketsSpareUpcomingFramesInEveryRun(
      format: Format, bufferMs: nat, actions: seq<Action>, position: nat, input: seq<Sample>, slot: nat)
    requires ValidFormat(format) && NeverTooEarly(format, bufferMs, actions + [Packet(position, input)])
    requires slot < Run(format, bufferMs, actions).s.capacity && Upcoming(Run(format, bufferMs, actions).s, slot)
    ensures var before, after := Run(format, bufferMs, actions).s,
            Run(format, bufferMs, actions + [Packet(position, input)]).s;
            |after.tags| == |before.tags| && SameFrame(before, after, slot)
  {
    var t := Run(format, bufferMs, actions);
    RunNext(format, bufferMs, actions, Packet(position, input));
    RunShaped(format, bufferMs, actions);
    InsertShapes(t.s, position, input);
    hide Run, NeverTooEarly, Insert, Judge, SameFrame;
    OnlyPlayedFramesAreReplaced(format, bufferMs, actions, [Packet(position, input)], slot);
  }

  lemma StepTags(t: Trace, a: Action)
    requires Inv(t)
    ensures |Step(t, a).s.tags| == |t.s.tags|
  {
    if a.Packet? {
      InsertShapes(t.s, a.position, a.input);
    }
    hide Insert, Judge;
  }

  /** One packet of 48 silent mono frames. */
  function SilentPacket(): seq<Sample> {
    seq(48, _ => R.SILENCE)
  }

  const MONO: Format := Format(48000, 1, Float32)

  lemma FirstPacketSlot(s: Playout, slot: nat)
    requires Shaped(s) && s.format == MONO && slot < 1920 && s.tags[slot] == EMPTY
    requires Judge(s, 3840, SilentPacket()).Accepted?
    ensures |Insert(s, 3840, SilentPacket()).tags| == 1920
    ensures Insert(s, 3840, SilentPacket()).tags[slot] == if slot < 48 then 3840 + slot else EMPTY
  {
    InsertShapes(s, 3840, SilentPacket());
    hide TagsAfter, SamplesAfter, Judge, SilentPacket, Insert;
    if slot < 48 {
      HitSlot(s, 3840, SilentPacket(), 3840 + slot);
    } else {
      MissedSlot(s, 3840, SilentPacket(), slot);
    }
  }

  lemma FirstPacket(s: Playout)
    requires Shaped(s) && s.format == MONO && s.start.None? && s.end == 0 && !s.running
    requires forall slot :: 0 <= slot < 1920 ==> s.tags[slot] == EMPTY
    ensures Judge(s, 3840, SilentPacket()).Accepted?
    ensures var s1 := Insert(s, 3840, SilentPacket());
            && Shaped(s1) && s1.start == Some(3840) && s1.end == 3888 && !s1.running && s1.format == MONO
                 && s1.target == s.target
            && (forall slot :: 0 <= slot < 1920 ==> s1.tags[slot] == if slot < 48 then 3840 + slot else EMPTY)
  {
    assert Judge(s, 3840, SilentPacket()).Accepted?;
    InsertShapes(s, 3840, SilentPacket());
    hide TagsAfter, SamplesAfter, Judge, SilentPacket;
    forall slot | 0 <= slot < 1920 ensures Insert(s, 3840, SilentPacket()).tags[slot] == if slot < 48 then 3840 + slot
        else EMPTY {
      FirstPacketSlot(s, slot);
    }
  }

  lemma EarlierPacketSlot(s: Playout, slot: nat)
    requires Shaped(s) && s.format == MONO && slot < 48
    requires Judge(s, 48, SilentPacket()).Accepted?
    ensures |Insert(s, 48, SilentPacket()).tags| == 1920
    ensures Insert(s, 48, SilentPacket()).tags[slot] == s.tags[slot]
  {
    InsertShapes(s, 48, SilentPacket());
    hide TagsAfter, SamplesAfter, Judge, SilentPacket, Insert;
    MissedSlot(s, 48, SilentPacket(), slot);
  }

  lemma EarlierPacket(s: Playout)
    requires Shaped(s) && s.format == MONO && s.target == 96
    requires s.start == Some(3840) && s.end == 3888 && !s.running
    requires forall slot :: 0 <= slot < 1920 ==> s.tags[slot] == if slot < 48 then 3840 + slot else EMPTY
    ensures Judge(s, 48, SilentPacket()).Accepted?
    ensures var s1 := Insert(s, 48, SilentPacket());
            && Shaped(s1) && Begin(s1).running && Begin(s1).position == 48.0 && Begin(s1).end == 3888
                 && Begin(s1).format == MONO
            && (forall slot :: 0 <= slot < 48 ==> Begin(s1).tags[slot] == 3840 + slot)
  {
    assert Judge(s, 48, SilentPacket()).Accepted?;
    InsertShapes(s, 48, SilentPacket());
    hide TagsAfter, SamplesAfter, Judge, SilentPacket;
    forall slot | 0 <= slot < 48 ensures Insert(s, 48, SilentPacket()).tags[slot] == 3840 + slot {
      EarlierPacketSlot(s, slot);
    }
  }

  lemma LaterPacket(s: Playout)
    requires Shaped(s) && s.format == MONO && s.running && s.position == 48.0
    requires forall slot :: 0 <= slot < 48 ==> s.tags[slot] == 3840 + slot
    ensures Judge(s, 1920, SilentPacket()).Accepted?
    ensures Shaped(Insert(s, 1920, SilentPacket())) && Insert(s, 1920, SilentPacket()).tags[0] == 1920
  {
    assert Judge(s, 1920, SilentPacket()).Accepted?;
    InsertShapes(s, 1920, SilentPacket());
    hide TagsAfter, SamplesAfter, Judge;
    HitSlot(s, 1920, SilentPacket(), 1920);
  }

  /**
   The test before playing looks at the new packet's end only: a second packet far before the first is accepted,
   and once playing has started from it a third one takes the slots of the first, which was never played.
   */
  lemma AnEarlyPacketCostsALaterOne()
    ensures var s := Run(MONO, 2, [Packet(3840, SilentPacket()), Packet(48, SilentPacket()), Start]).s;
            && s.capacity == 1920 && s.running && Upcoming(s, 0) && s.tags[0] == 3840
            && Judge(s, 1920, SilentPacket()).Accepted? && |Insert(s, 1920, SilentPacket()).tags| == 1920
            && Insert(s, 1920, SilentPacket()).tags[0] == 1920
  {
    var a, b := Packet(3840, SilentPacket()), Packet(48, SilentPacket());
    var s0, s1, s2 := Run(MONO, 2, []).s, Run(MONO, 2, [a]).s, Run(MONO, 2, [a, b]).s;
    var s := Run(MONO, 2, [a, b, Start]).s;
    EmptyStart();
    assert s1 == Insert(s0, 3840, SilentPacket()) by { assert [a][..0] == []; }
    assert s2 == Insert(s1, 48, SilentPacket()) by { assert [a, b][..1] == [a]; }
    assert s == Begin(s2) by { assert [a, b, Start][..2] == [a, b]; }
    hide Run, Insert, Judge, Begin, SilentPacket;
    FirstPacket(s0);
    EarlierPacket(s1);
    LaterPacket(s);
  }

  lemma EmptyStart()
    ensures var s := Run(MONO, 2, []).s;
            && s.format == MONO && s.capacity == 1920 && s.target == 96 && s.start.None? && s.end == 0 && !s.running
            && (forall slot :: 0 <= slot < 1920 ==> s.tags[slot] == EMPTY)
  {
  }

  // ----- What a render call plays

  lemma RenderFrameKeeps(s: Playout)
    requires Shaped(s) && Paced(s)
    ensures var (s', played) := RenderFrame(s);
            && Shaped(s') && Paced(s') && s'.format == s.format && 0.999 <= s'.position - s.position <= 1.001
            && s'.tags == s.tags && s'.samples == s.samples && s'.end == s.end && s'.running == s.running
  {
  }

  function RenderFrames(s: Playout, n: nat): (r: (Playout, seq<Option<nat>>))
    requires Shaped(s) && Paced(s)
    ensures Shaped(r.0) && Paced(r.0) && |r.1| == n
    decreases n
  {
    if n == 0 then (s, [])
    else
      RenderFrameKeeps(s);
      var (before, played) := RenderFrames(s, n - 1);
      RenderFrameKeeps(before);
      var (after, last) := RenderFrame(before);
      (after, played + [last])
  }

  /** A render call: the state after it and, for each output frame, the frame number played or None for silence. */
  function Render(s: Playout, length: nat): (Playout, seq<Option<nat>>)
    requires Shaped(s) && Paced(s)
  {
    if length % s.format.channels != 0 || !Begin(s).running then (s, [])
    else
      BeginKeeps(s);
      var (after, played) := RenderFrames(Begin(s), length / s.format.channels);
      (if None in played then after.(underruns := after.underruns + 1) else after, played)
  }

  lemma BeginKeeps(s: Playout)
    requires Shaped(s) && Paced(s)
    ensures Shaped(Begin(s)) && Paced(Begin(s))
  {
  }

  lemma {:induction false} RenderedPositions(s: Playout, n: nat, k: nat)
    requires Shaped(s) && Paced(s) && k < n
    ensures var played := RenderFrames(s, n).1;
            var at := RenderFrames(s, k).0.position;
            && (played[k].Some? ==>
                 played[k].value == at.Floor && played[k].value < s.end && Present(s, played[k].value))
            && (played[k].None? ==> !(at.Floor < s.end && Present(s, at.Floor)))
            && 0.999 * k as real <= at - s.position <= 1.001 * k as real
    decreases n
  {
    hide RenderFrame, Paced, Shaped;
    RenderedKeeps(s, n - 1);
    if k < n - 1 {
      RenderedPositions(s, n - 1, k);
    } else {
      FramePlays(RenderFrames(s, k).0);
      RenderedDistance(s, k);
    }
  }

  lemma {:induction false} FadesIn(s: Playout, n: nat)
    requires Shaped(s) && Paced(s)
    requires None !in RenderFrames(s, n).1
    ensures RenderFrames(s, n).0.gain >= RealMin(1.0, Ramp(n, GainStep(s.format)))
    decreases n
  {
    assert ValidFormat(s.format);
    hide GainStep, ValidFormat, RenderFrame, Shaped, Paced;
    var step := GainStep(s.format);
    if n > 0 {
      RenderedKeeps(s, n - 1);
      LastOfFrames(s, n);
      FadesIn(s, n - 1);
      FrameGain(RenderFrames(s, n - 1).0);
      assert Ramp(n, step) == Ramp(n - 1, step) + step;
      hide RenderFrames, Ramp;
      MinGrows(RenderFrames(s, n - 1).0.gain, Ramp(n - 1, step), step);
    } else {
      GainIsPositive(s);
    }
  }

  lemma MinGrows(gain: real, reached: real, step: real)
    requires gain >= RealMin(1.0, reached) && reached >= 0.0 && step >= 0.0
    ensures RealMin(gain + step, 1.0) >= RealMin(1.0, reached + step)
  {
  }

  lemma GainIsPositive(s: Playout)
    requires Paced(s)
    ensures s.gain >= 0.0
  {
  }

  lemma LastOfFrames(s: Playout, n: nat)
    requires Shaped(s) && Paced(s) && n > 0
    ensures var before := RenderFrames(s, n - 1);
            && RenderFrames(s, n).0 == RenderFrame(before.0).0
            && RenderFrames(s, n).1 == before.1 + [RenderFrame(before.0).1]
  {
    hide RenderFrame;
  }

  /** After a millisecond of frames without a gap the gain is 1. */
  lemma FullGainAfterAMillisecond(s: Playout, n: nat)
    requires Shaped(s) && Paced(s) && n * 1000 >= s.format.sampleRate
    requires None !in RenderFrames(s, n).1
    ensures RenderFrames(s, n).0.gain == 1.0
  {
    var rate := s.format.sampleRate as real;
    FadesIn(s, n);
    RampIsProduct(n, 1000.0 / rate);
    assert GainStep(s.format) == 1000.0 / rate;
    hide Ramp, GainStep;
    assert n as real * 1000.0 >= rate;
    OverItself(n as real, rate);
    hide RenderFrames;
    assert Paced(RenderFrames(s, n).0);
  }

  lemma OverItself(n: real, rate: real)
    requires rate > 0.0 && n * 1000.0 >= rate
    ensures n * (1000.0 / rate) >= 1.0
  {
    var q := 1000.0 / rate;
    assert q * rate == 1000.0;
    assert n * q * rate == n * 1000.0;
    if n * q < 1.0 {
      assert n * q * rate < 1.0 * rate;
    }
  }

  /** An underrun is counted exactly when a frame of the call was missing; a call for part of a frame does nothing. */
  lemma RenderExactly(s: Playout, length: nat)
    requires Shaped(s) && Paced(s)
    ensures var (s', played) := Render(s, length);
            if length % s.format.channels != 0 || !Begin(s).running then s' == s && played == []
            else
              && |played| == length / s.format.channels
              && s'.underruns == s.underruns + (if None in played then 1 else 0)
              && s'.received == s.received && s'.late == s.late && s'.overruns == s.overruns
                 && s'.duplicates == s.duplicates
  {
    if length % s.format.channels == 0 && Begin(s).running {
      BeginKeeps(s);
      CountersKept(Begin(s), length / s.format.channels);
    }
    hide RenderFrames, Paced;
  }

  lemma {:induction false} CountersKept(s: Playout, n: nat)
    requires Shaped(s) && Paced(s)
    ensures var s' := RenderFrames(s, n).0;
            && s'.received == s.received && s'.late == s.late && s'.overruns == s.overruns
            && s'.duplicates == s.duplicates && s'.underruns == s.underruns
  {
    hide Shaped, Paced;
    if n > 0 {
      CountersKept(s, n - 1);
      LastOfFrames(s, n);
      FrameCounts(RenderFrames(s, n - 1).0);
    }
  }

  lemma FrameCounts(s: Playout)
    requires Shaped(s)
    ensures var s' := RenderFrame(s).0;
            && s'.received == s.received && s'.late == s.late && s'.overruns == s.overruns
            && s'.duplicates == s.duplicates && s'.underruns == s.underruns
  {
    hide Update;
  }

  lemma FramePlays(s: Playout)
    requires Shaped(s)
    ensures var center := s.position.Floor;
            RenderFrame(s).1 == if center < s.end && Present(s, center) then Some(center) else None
  {
  }

  lemma {:induction false} RenderedKeeps(s: Playout, n: nat)
    requires Shaped(s) && Paced(s)
    ensures var s' := RenderFrames(s, n).0;
            && s'.format == s.format && s'.tags == s.tags && s'.samples == s.samples && s'.end == s.end
                 && s'.running == s.running
            && s'.capacity == s.capacity
    decreases n
  {
    if n > 0 {
      RenderedKeeps(s, n - 1);
      RenderFrameKeeps(RenderFrames(s, n - 1).0);
    }
  }

  lemma {:induction false} RenderedDistance(s: Playout, n: nat)
    requires Shaped(s) && Paced(s)
    ensures 0.999 * n as real <= RenderFrames(s, n).0.position - s.position <= 1.001 * n as real
    decreases n
  {
    if n > 0 {
      RenderedDistance(s, n - 1);
      RenderFrameKeeps(RenderFrames(s, n - 1).0);
    }
    hide RenderFrame, Paced, Shaped;
  }

  lemma InsertPaced(s: Playout, position: nat, input: seq<Sample>)
    requires Shaped(s) && Paced(s)
    ensures Paced(Insert(s, position, input))
  {
    hide Judge, TagsAfter, SamplesAfter, Cleaned;
  }

  // ----- The ring as an object

  /** Copies the samples of one frame, silencing those that are not finite. */
  method CopyFrame(target: array<Sample>, channels: nat, slot: nat, input: seq<Sample>, k: nat)
    requires R.Holds(target[..], channels, slot) && R.Holds(input, channels, k)
    requires R.Holds(Cleaned(input), channels, k)
    modifies target
    ensures target[..] == R.PutFrame(old(target[..]), channels, slot, R.FrameAt(Cleaned(input), channels, k))
  {
    R.CopySamples(target, slot * channels, Cleaned(input), k * channels, channels);
  }

  class PlayoutRing {
    const format: Format
    const target: nat
    const capacity: nat
    const samples: array<Sample>
    const tags: array<nat>
    var start: Option<nat>
    var end: nat
    var position: real
    var running: bool
    var gain: real
    var drift: Drift
    var ratio: real
    var untilUpdate: nat
    var received: nat
    var late: nat
    var overruns: nat
    var duplicates: nat
    var underruns: nat

    ghost function Model(): Playout
      reads this, samples, tags
    {
      Playout(format, target, capacity, samples[..], tags[..], start, end, position, running, gain, drift, ratio,
          untilUpdate,
              received, late, overruns, duplicates, underruns)
    }

    ghost predicate Valid()
      reads this, samples, tags
    {
      Shaped(Model()) && Paced(Model())
    }

    constructor (format: Format, bufferMs: nat)
      requires ValidFormat(format)
      ensures Valid() && Model() == Empty(format, bufferMs) && fresh(samples) && fresh(tags)
    {
      this.format := format;
      target := format.sampleRate * bufferMs / 1000;
      capacity := CapacityOf(format);
      samples := new Sample[CapacityOf(format) * format.channels](_ => R.SILENCE);
      tags := new nat[CapacityOf(format)](_ => EMPTY);
      start, end, position, running, gain := None, 0, 0.0, false, 0.0;
      drift, ratio, untilUpdate := Drift((format.sampleRate * bufferMs / 1000) as real, 0.0, 0.0), 1.0, 0;
      received, late, overruns, duplicates, underruns := 0, 0, 0, 0, 0;
      new;
      EmptyInv(format, bufferMs);
      assert samples[..] == Empty(format, bufferMs).samples;
      assert tags[..] == Empty(format, bufferMs).tags;
    }

    /** Playout::new */
    static method Create(format: Format, bufferMs: nat) returns (r: Result<PlayoutRing, AudioError>)
      ensures !ValidFormat(format) ==> r == Err(UnsupportedFormat)
      ensures ValidFormat(format) && !(2 <= bufferMs <= 20) ==> r == Err(InvalidConfiguration)
      ensures ValidFormat(format) && 2 <= bufferMs <= 20 ==>
                && r.Ok? && fresh(r.value) && r.value.Valid() && r.value.Model() == Empty(format, bufferMs)
                && r.value.target * 1000 == format.sampleRate * bufferMs && r.value.target > 0
                && r.value.capacity * 1000 == format.sampleRate * 40
    {
      if !ValidFormat(format) {
        return Err(UnsupportedFormat);
      }
      if !(2 <= bufferMs <= 20) {
        return Err(InvalidConfiguration);
      }
      var ring := new PlayoutRing(format, bufferMs);
      return Ok(ring);
    }

    /** Whether any frame of the packet is buffered already. */
    method AnyPresent(position: nat, frames: nat) returns (found: bool)
      requires Valid()
      ensures found == AnyBuffered(Model(), position, position + frames)
    {
      found := false;
      for k := 0 to frames
        invariant found <==> exists p :: position <= p < position + k && Present(Model(), p)
      {
        assert Present(Model(), position + k) <==> tags[(position + k) % capacity] == position + k;
        if tags[(position + k) % capacity] == position + k {
          found := true;
        }
      }
    }

    method InsertPacket(position: nat, input: seq<Sample>) returns (accepted: bool)
      requires Valid()
      modifies this, samples, tags
      ensures Valid() && Model() == Insert(old(Model()), position, input)
      ensures accepted <==> Judge(old(Model()), position, input).Accepted?
    {
      ghost var s := Model();
      hide Shaped, Paced, AnyBuffered, TagsAfter, SamplesAfter, Cleaned;
      InsertShapes(s, position, input);
      InsertPaced(s, position, input);
      var frames := FramesPerPacket(format);
      if |input| != frames * format.channels || position + frames >= U64_LIMIT {
        return false;
      }
      var packetEnd := position + frames;
      if running && position < this.position.Floor {
        late := late + 1;
        return false;
      }
      if running && packetEnd > this.position.Floor + capacity {
        overruns := overruns + 1;
        return false;
      }
      if !running && start.Some? && SaturatingSub(packetEnd, Min(start.value, position)) > capacity {
        overruns := overruns + 1;
        return false;
      }
      var duplicate := AnyPresent(position, frames);
      if duplicate {
        duplicates := duplicates + 1;
        return false;
      }
      StoreFrames(position, input, frames);
      start := Some(if start.Some? then Min(start.value, position) else position);
      end := Max(end, packetEnd);
      received := received + 1;
      return true;
    }

    /** The copy loop of insert. */
    method StoreFrames(position: nat, input: seq<Sample>, frames: nat)
      requires Shaped(Model()) && |input| == frames * format.channels
      modifies samples, tags
      ensures tags[..] == TagsAfter(old(tags[..]), position, frames)
      ensures |Cleaned(input)| == |input|
      ensures samples[..] == SamplesAfter(old(samples[..]), format.channels, capacity, position, Cleaned(input), frames)
    {
      hide R.FrameAt, R.PutFrame, R.Holds, Cleaned, SamplesAfter;
      ghost var tags0, samples0 := tags[..], samples[..];
      CleanedLength(input);
      NothingStored(samples0, format.channels, capacity, position, Cleaned(input));
      for f := 0 to frames
        invariant f * format.channels <= |input| && |tags0| == tags.Length == capacity
                  && |samples0| == capacity * format.channels
        invariant |samples[..]| == |samples0|
        invariant tags[..] == TagsAfter(tags0, position, f)
        invariant samples[..] == SamplesAfter(samples0, format.channels, capacity, position, Cleaned(input), f)
      {
        R.TimesMonotone(f + 1, frames, format.channels);
        var slot := (position + f) % capacity;
        tags[slot] := position + f;
        SamplesAfterStep(samples0, format.channels, capacity, position, Cleaned(input), f + 1);
        InputFits(input, format.channels, f, frames);
        SamplesHold(samples[..], format.channels, capacity, slot);
        CopyFrame(samples, format.channels, slot, input, f);
      }
    }

    method ResetAll()
      requires Valid()
      modifies this, tags
      ensures Valid() && Model() == Reset(old(Model()))
    {
      ghost var s := Model();
      ForgetTags();
      start, end, position, running, gain := None, 0, 0.0, false, 0.0;
      ratio, untilUpdate, drift := 1.0, 0, Drift(target as real, 0.0, 0.0);
      hide R.FrameAt, R.Holds;
    }

    method ForgetTags()
      requires tags.Length == capacity
      modifies tags
      ensures tags[..] == seq(capacity, _ => EMPTY)
    {
      for i := 0 to tags.Length
        invariant forall j :: 0 <= j < i ==> tags[j] == EMPTY
      {
        tags[i] := EMPTY;
      }
    }

    /** The frame numbers a render call plays into an output of this length, None standing for silence. */
    method RenderInto(length: nat) returns (played: seq<Option<nat>>)
      requires Valid()
      modifies this
      ensures Valid() && (Model(), played) == Render(old(Model()), length)
    {
      ghost var s := Model();
      BeginKeeps(s);
      if length % format.channels != 0 {
        return [];
      }
      if !running {
        if start.None? || SaturatingSub(end, start.value) < target {
          return [];
        }
        position := start.value as real;
        running := true;
      }
      ghost var begun := Model();
      assert begun == Begin(s);
      played := [];
      hide RenderFrame, Begin;
      for k := 0 to length / format.channels
        invariant Valid() && (Model(), played) == RenderFrames(begun, k)
      {
        RenderFrameKeeps(Model());
        var frame := PlayOne();
        played := played + [frame];
      }
      if None in played {
        underruns := underruns + 1;
      }
    }

    method PlayOne() returns (played: Option<nat>)
      requires Valid()
      modifies this
      ensures (Model(), played) == RenderFrame(old(Model()))
      ensures old(untilUpdate) == 0 && target > 0 ==>
                var ahead := end as real - old(position);
                && (ahead > target as real && old(drift).integral >= 0.0 ==> position > old(position) + 1.0)
                && (ahead < target as real && old(drift).integral <= 0.0 ==> position < old(position) + 1.0)
    {
      if target > 0 {
        FrameCorrectsDrift(Model());
      }
      hide Paced, Update, CapacityOf, FramesPerPacket, RealMin;
      Capacities(Model());
      if untilUpdate == 0 {
        drift := Update(drift, RealMax(end as real - position, 0.0));
        ratio := 1.0 + drift.correction;
        untilUpdate := FramesPerPacket(format);
      }
      untilUpdate := untilUpdate - 1;
      var center := position.Floor;
      if center < end && tags[center % capacity] == center {
        gain := RealMin(gain + 1000.0 / format.sampleRate as real, 1.0);
        played := Some(center);
      } else {
        gain := 0.0;
        played := None;
      }
      position := position + ratio;
    }
  }

  lemma CleanedLength(input: seq<Sample>)
    ensures |Cleaned(input)| == |input|
  {
  }
}
