/** Putting the datagrams of frames together again: bounded tables, any arrival order. */
module AudioReassembly {
  import opened Common
  import opened AudioFormat
  import opened AudioCodec

  const REASSEMBLY_MS: nat := 20
  const MAX_PARTIALS: nat := 20
  const DUPLICATE_WINDOW: nat := 128

  datatype Frame = Frame(sequence: nat, position: nat, data: seq<byte>)

  datatype Partial = Partial(header: Header, since: nat, data: seq<byte>, covered: seq<bool>, fragments: set<nat>)

  datatype State = State(
    stream: seq<byte>,
    generation: nat,
    format: Format,
    partials: map<nat, Partial>,
    completed: set<nat>,
    newest: Option<nat>,
    rejected: nat,
    duplicates: nat,
    expired: nat)

  type Outcome = Result<Option<Frame>, AudioError>

  predicate ShapedPartial(format: Format, part: Partial) {
    |part.data| == |part.covered| == PacketBytes(format)
  }

  predicate Shaped(s: State) {
    forall k :: k in s.partials ==> ShapedPartial(s.format, s.partials[k])
  }

  // ----- Steps of push

  predicate Live(part: Partial, now: nat) {
    SaturatingSub(now, part.since) < REASSEMBLY_MS
  }

  function Expire(s: State, now: nat): State {
    var kept := map k | k in s.partials && Live(s.partials[k], now) :: s.partials[k];
    s.(partials := kept, expired := s.expired + |s.partials.Keys - kept.Keys|)
  }

  function MakeRoom(s: State, sequence: nat): State {
    if sequence !in s.partials && |s.partials| >= MAX_PARTIALS then
      s.(partials := s.partials - {Smallest(s.partials.Keys)}, expired := s.expired + 1)
    else s
  }

  function FreshPartial(h: Header, now: nat): Partial {
    Partial(h, now, seq(h.total, _ => 0), seq(h.total, _ => false), {})
  }

  function Write(part: Partial, index: nat, offset: nat, chunk: seq<byte>): Partial
    requires offset + |chunk| <= |part.data| == |part.covered|
  {
    var end := offset + |chunk|;
    part.(data := part.data[..offset] + chunk + part.data[end..],
          covered := part.covered[..offset] + seq(|chunk|, _ => true) + part.covered[end..],
          fragments := part.fragments + {index})
  }

  /** Keeps the newest DUPLICATE_WINDOW of the completed sequence numbers. */
  function Trim(completed: set<nat>): set<nat>
    decreases |completed|
  {
    if |completed| > DUPLICATE_WINDOW then Trim(completed - {Smallest(completed)}) else completed
  }

  lemma {:induction false} TrimOnce(completed: set<nat>)
    requires |completed| <= DUPLICATE_WINDOW + 1
    ensures Trim(completed) == if |completed| > DUPLICATE_WINDOW then completed - {Smallest(completed)} else completed
  {
  }

  function PartialFor(s: State, h: Header, now: nat): Partial {
    if h.sequence in s.partials then s.partials[h.sequence] else FreshPartial(h, now)
  }

  function Emit(s: State, h: Header, part: Partial): (State, Outcome) {
    var s' := s.(partials := s.partials - {h.sequence});
    if false in part.covered then (s', Err(InvalidPacket))
    else
      (s'.(completed := Trim(s.completed + {h.sequence}),
           newest := Some(Max(if s.newest.Some? then s.newest.value else 0, h.sequence))),
       Ok(Some(Frame(h.sequence, h.position, part.data))))
  }

  /** Keeps the partial frame with its new fragment, or emits it if that was the last one. */
  function Settle(s: State, h: Header, written: Partial): (State, Outcome) {
    if |written.fragments| == h.count then Emit(s, h, written)
    else (s.(partials := s.partials[h.sequence := written]), Ok(None))
  }

  predicate Overlaps(part: Partial, offset: nat, length: nat)
    requires offset + length <= |part.covered|
  {
    true in part.covered[offset..offset + length]
  }

  function Store(s: State, h: Header, chunk: seq<byte>, now: nat): (State, Outcome)
    requires Shaped(s) && h.format == s.format && Consistent(h, chunk)
  {
    var part := PartialFor(s, h, now);
    var entered := s.(partials := s.partials[h.sequence := part]);
    if part.header.position != h.position || part.header.count != h.count then (entered, Err(InvalidPacket))
    else if h.index in part.fragments then (entered.(duplicates := s.duplicates + 1), Ok(None))
    else if Overlaps(part, h.offset, |chunk|) then (entered, Err(InvalidPacket))
    else
      Settle(entered, h, Write(part, h.index, h.offset, chunk))
  }

  predicate TooOld(s: State, sequence: nat) {
    s.newest.Some? && sequence < SaturatingSub(s.newest.value, DUPLICATE_WINDOW)
  }

  function Admit(s: State, h: Header, chunk: seq<byte>, now: nat): (State, Outcome)
    requires Shaped(s) && h.format == s.format && Consistent(h, chunk)
  {
    if h.sequence in s.completed then (s.(duplicates := s.duplicates + 1), Ok(None))
    else if TooOld(s, h.sequence) then (s.(rejected := s.rejected + 1), Ok(None))
    else Store(MakeRoom(s, h.sequence), h, chunk, now)
  }

  function Push(s: State, p: seq<byte>, now: nat): (r: (State, Outcome))
    requires Shaped(s)
  {
    var s := Expire(s, now);
    match Decode(p)
    case Err(e) => (s, Err(e))
    case Ok(h) =>
      DecodedIsConsistent(p);
      if h.stream != s.stream || h.generation != s.generation
          then (s.(rejected := s.rejected + 1), Err(StaleGeneration))
      else if h.format != s.format then (s, Err(UnsupportedFormat))
      else Admit(s, h, p[HEADER_BYTES..], now)
  }

  lemma FragmentFits(s: State, h: Header, chunk: seq<byte>, now: nat)
    requires Shaped(s) && h.format == s.format && Consistent(h, chunk)
    ensures ShapedPartial(s.format, PartialFor(s, h, now))
    ensures var part := PartialFor(s, h, now); h.offset + |chunk| <= |part.data| == |part.covered|
  {
  }

  lemma WriteKeepsLength(part: Partial, index: nat, offset: nat, chunk: seq<byte>)
    requires offset + |chunk| <= |part.data| == |part.covered|
    ensures |Write(part, index, offset, chunk).data| == |Write(part, index, offset, chunk).covered| == |part.data|
  {
  }

  predicate Accepts(part: Partial, h: Header, length: nat)
    requires h.offset + length <= |part.covered|
  {
    part.header.position == h.position && part.header.count == h.count && h.index !in part.fragments
        && !Overlaps(part, h.offset, length)
  }

  lemma StoreCases(r: State, h: Header, chunk: seq<byte>, now: nat)
    requires Shaped(r) && h.format == r.format && Consistent(h, chunk)
    ensures var part := PartialFor(r, h, now);
            var entered := r.(partials := r.partials[h.sequence := part]);
            && ShapedPartial(r.format, part) && h.offset + |chunk| <= |part.data| == |part.covered|
            && var stored := Store(r, h, chunk, now);
            if Accepts(part, h, |chunk|) then stored == Settle(entered, h, Write(part, h.index, h.offset, chunk))
            else
              || stored == (entered, Err(InvalidPacket))
              || stored == (entered.(duplicates := r.duplicates + 1), Ok(None))
  {
    FragmentFits(r, h, chunk, now);
    hide Settle, Write, PacketBytes, Overlaps, Shaped, PartialFor, Consistent;
  }

  lemma StoreKeepsShape(s: State, h: Header, chunk: seq<byte>, now: nat)
    requires Shaped(s) && h.format == s.format && Consistent(h, chunk)
    ensures Shaped(Store(s, h, chunk, now).0)
  {
    StoreCases(s, h, chunk, now);
    hide Store, Consistent, PacketBytes, Trim, PartialFor, Accepts;
    var part := PartialFor(s, h, now);
    if Accepts(part, h, |chunk|) {
      WriteKeepsLength(part, h.index, h.offset, chunk);
      hide Write;
    }
  }

  /** The datagram is one that push stores. */
  predicate Admitted(r: State, p: seq<byte>) {
    && Decode(p).Ok?
    && var h := Decode(p).value;
    && h.stream == r.stream && h.generation == r.generation && h.format == r.format
    && h.sequence !in r.completed && !TooOld(r, h.sequence)
  }

  lemma PushCases(r: State, p: seq<byte>, now: nat)
    requires Shaped(r)
    ensures Decode(p).Ok? ==> HEADER_BYTES < |p| && Consistent(Decode(p).value, p[HEADER_BYTES..])
    ensures var (r', outcome) := Push(r, p, now);
            var e := Expire(r, now);
            if Admitted(r, p) then
              && Shaped(MakeRoom(e, Decode(p).value.sequence))
              && (r', outcome) == Store(MakeRoom(e, Decode(p).value.sequence), Decode(p).value, p[HEADER_BYTES..], now)
            else
              && (outcome.Ok? ==> outcome.value.None?)
              && (r' == e || r' == e.(duplicates := e.duplicates + 1) || r' == e.(rejected := e.rejected + 1))
  {
    if Decode(p).Ok? {
      DecodedIsConsistent(p);
      assert HEADER_BYTES < |p|;
    }
    assert Shaped(Expire(r, now));
    hide Decode, Consistent, Store, ShapedPartial, Smallest;
  }

  lemma PushKeepsShape(s: State, p: seq<byte>, now: nat)
    requires Shaped(s)
    ensures Shaped(Push(s, p, now).0)
  {
    PushCases(s, p, now);
    assert Shaped(Expire(s, now));
    hide Decode, Push, Store, Consistent, MakeRoom, Expire, ShapedPartial;
    if Admitted(s, p) {
      RoomKeepsFormat(Expire(s, now), Decode(p).value.sequence);
      ExpireKeepsFormat(s, now);
      StoreKeepsShape(MakeRoom(Expire(s, now), Decode(p).value.sequence), Decode(p).value, p[HEADER_BYTES..], now);
    }
  }

  // ----- Expiry

  /** The partial frames that have been waiting for 20 ms. */
  function Stale(s: State, now: nat): set<nat> {
    set q | q in s.partials && SaturatingSub(now, s.partials[q].since) >= 20
  }

  /** The datagram opens a partial frame although twenty younger than 20 ms are there already. */
  predicate Crowded(s: State, p: seq<byte>, now: nat) {
    Admitted(s, p) && Decode(p).value.sequence !in s.partials.Keys - Stale(s, now)
    && |s.partials.Keys - Stale(s, now)| >= 20
  }

  lemma ExpireDropsStale(s: State, now: nat)
    ensures var e := Expire(s, now);
            && e.partials.Keys == s.partials.Keys - Stale(s, now) && e.expired == s.expired + |Stale(s, now)|
            && (forall q :: q in e.partials ==> e.partials[q] == s.partials[q])
            && e == s.(partials := e.partials, expired := e.expired)
  {
    assert s.partials.Keys - Expire(s, now).partials.Keys == Stale(s, now);
  }

  lemma PartSize(part: set<nat>, whole: set<nat>)
    requires part <= whole
    ensures |whole - part| == |whole| - |part|
  {
    assert whole == part + (whole - part);
  }

  lemma StaleIsOld(s: State, now: nat)
    ensures forall q :: q in s.partials ==> (q in Stale(s, now) <==> now >= s.partials[q].since + 20)
  {
  }

  lemma ExpiredExactly(s: State, now: nat)
    ensures var e := Expire(s, now);
            && (forall q :: q in e.partials <==> q in s.partials && now < s.partials[q].since + 20)
            && (forall q :: q in e.partials ==> e.partials[q] == s.partials[q])
            && e.expired == s.expired + |s.partials| - |e.partials|
  {
    ExpireDropsStale(s, now);
    PartSize(Stale(s, now), s.partials.Keys);
    StaleIsOld(s, now);
    hide Expire, Stale;
  }

  lemma RoomDropsLeast(s: State, sequence: nat)
    ensures var room := MakeRoom(s, sequence);
            if sequence !in s.partials && |s.partials| >= 20 then
              && room.expired == s.expired + 1
              && (forall q ::
                    q in room.partials <==> q in s.partials && exists other :: other in s.partials && other < q)
              && (forall q :: q in room.partials ==> room.partials[q] == s.partials[q])
            else room == s
  {
    if sequence !in s.partials && |s.partials| >= 20 {
      var least := Smallest(s.partials.Keys);
      assert least in s.partials;
    }
  }

  lemma StoreTouchesOne(r: State, h: Header, chunk: seq<byte>, now: nat)
    requires Shaped(r) && h.format == r.format && Consistent(h, chunk)
    ensures var (r', outcome) := Store(r, h, chunk, now);
            var part := PartialFor(r, h, now);
            && r'.expired == r.expired
            && (forall q :: q != h.sequence ==> (q in r'.partials <==> q in r.partials))
            && (forall q :: q != h.sequence && q in r.partials ==> r'.partials[q] == r.partials[q])
            && (if h.sequence in r'.partials then
                  var kept := r'.partials[h.sequence];
                  kept.since == part.since && kept.header == part.header && part.fragments <= kept.fragments
                else |part.fragments| + 1 == h.count)
  {
    StoreCases(r, h, chunk, now);
    hide Store, Consistent, PacketBytes, Trim, Shaped, Overlaps;
  }

  /**
   A partial frame is in the table for less than 20 ms: push drops and counts those that have waited longer, and, when
   twenty are left and another one is to be opened, the one with the smallest number. The others stay as they were.
   */
  lemma PushExpiresExactly(s: State, p: seq<byte>, now: nat)
    requires Shaped(s)
    ensures var (s', outcome) := Push(s, p, now);
            var young := s.partials.Keys - Stale(s, now);
            && s'.expired == s.expired + |Stale(s, now)| + (if Crowded(s, p, now) then 1 else 0)
            && (forall q :: q in s'.partials ==> now < s'.partials[q].since + 20)
            && (forall q ::
                  q in young && !(Admitted(s, p) && q == Decode(p).value.sequence) ==>
                  if Crowded(s, p, now) && (forall other :: other in young ==> q <= other) then q !in s'.partials
                  else q in s'.partials && s'.partials[q] == s.partials[q])
            && (forall q ::
                  q in s'.partials ==>
                  || (q in young && s'.partials[q].since == s.partials[q].since)
                  || (Admitted(s, p) && q == Decode(p).value.sequence && s'.partials[q].since == now))
            && (Admitted(s, p) && Decode(p).value.sequence in young - s'.partials.Keys ==>
                  |s.partials[Decode(p).value.sequence].fragments| + 1 == Decode(p).value.count)
  {
    hide Push, Store, Decode, Consistent, Shaped, Expire, MakeRoom, TooOld, Smallest;
    PushCases(s, p, now);
    ExpireDropsStale(s, now);
    StaleIsOld(s, now);
    hide Stale;
    var e := Expire(s, now);
    if Admitted(s, p) {
      var h := Decode(p).value;
      RoomDropsLeast(e, h.sequence);
      ExpireKeepsFormat(s, now);
      RoomKeepsFormat(e, h.sequence);
      StoreTouchesOne(MakeRoom(e, h.sequence), h, p[HEADER_BYTES..], now);
    }
  }

  /** A fragment that the live partial frame of its number has already. */
  predicate HasFragment(s: State, h: Header, now: nat) {
    h.sequence in s.partials && now < s.partials[h.sequence].since + 20
    && s.partials[h.sequence].header.position == h.position && s.partials[h.sequence].header.count == h.count
    && h.index in s.partials[h.sequence].fragments
  }

  lemma StoreCounts(r: State, h: Header, chunk: seq<byte>, now: nat)
    requires Shaped(r) && h.format == r.format && Consistent(h, chunk)
    ensures var (r', outcome) := Store(r, h, chunk, now);
            var part := PartialFor(r, h, now);
            && r'.rejected == r.rejected
            && r'.duplicates == r.duplicates
               + (if part.header.position == h.position && part.header.count == h.count && h.index in part.fragments
                  then 1 else 0)
  {
    FragmentFits(r, h, chunk, now);
    hide Consistent, PacketBytes, Trim, Shaped, Overlaps, Write, PartialFor;
  }

  /**
   Counted as rejected: a datagram of another stream or generation, and one more than 128 behind the newest emitted.
   Counted as a duplicate: one whose frame is remembered as emitted, and one whose fragment is there already.
   */
  lemma PushCountsExactly(s: State, p: seq<byte>, now: nat)
    requires Shaped(s)
    ensures var (s', outcome) := Push(s, p, now);
            if Decode(p).Err? then
              outcome == Err(Decode(p).error) && s'.rejected == s.rejected && s'.duplicates == s.duplicates
            else
              var h := Decode(p).value;
              var mine := h.stream == s.stream && h.generation == s.generation;
              var emitted := h.sequence in s.completed;
              var late := s.newest.Some? && h.sequence + 128 < s.newest.value;
              && (!mine ==> outcome == Err(StaleGeneration))
              && (mine && h.format != s.format ==> outcome == Err(UnsupportedFormat))
              && (mine && h.format == s.format && (emitted || late) ==> outcome == Ok(None))
              && s'.rejected == s.rejected + (if !mine || (h.format == s.format && !emitted && late) then 1 else 0)
              && s'.duplicates == s.duplicates
                 + (if mine && h.format == s.format && (emitted || (!late && HasFragment(s, h, now))) then 1 else 0)
  {
    assert Decode(p).Ok? ==> HEADER_BYTES < |p|;
    hide Decode, Consistent, Store, Expire, MakeRoom, HasFragment, FramesPerPacket, PacketBytes, Smallest;
    if Decode(p).Ok? {
      DecodedIsConsistent(p);
      var h := Decode(p).value;
      ExpireCounts(s, h.sequence, now);
      if Admitted(s, p) {
        var room := MakeRoom(Expire(s, now), h.sequence);
        LiveForOne(s, h, now);
        StoreCounts(room, h, p[HEADER_BYTES..], now);
      }
    }
  }

  lemma ExpireCounts(s: State, sequence: nat, now: nat)
    requires Shaped(s)
    ensures var room := MakeRoom(Expire(s, now), sequence);
            var e := Expire(s, now);
            && Shaped(e) && Shaped(room) && room == s.(partials := room.partials, expired := room.expired)
            && e == s.(partials := e.partials, expired := e.expired)
  {
    hide PacketBytes, Smallest;
  }

  lemma LiveForOne(s: State, h: Header, now: nat)
    ensures var part := PartialFor(MakeRoom(Expire(s, now), h.sequence), h, now);
            part.header.position == h.position && part.header.count == h.count && h.index in part.fragments
            <==> HasFragment(s, h, now)
  {
    hide Smallest;
  }

  lemma RoomKeepsFormat(s: State, sequence: nat)
    ensures MakeRoom(s, sequence).format == s.format
  {
  }

  lemma ExpireKeepsFormat(s: State, now: nat)
    ensures Expire(s, now).format == s.format
  {
  }

  // ----- The object

  class Reassembler {
    const stream: seq<byte>
    const generation: nat
    const format: Format
    var partials: map<nat, Partial>
    var completed: set<nat>
    var newest: Option<nat>
    var rejected: nat
    var duplicates: nat
    var expired: nat

    ghost function Abstract(): State
      reads this
    {
      State(stream, generation, format, partials, completed, newest, rejected, duplicates, expired)
    }

    constructor (stream: seq<byte>, generation: nat, format: Format)
      ensures Abstract() == State(stream, generation, format, map[], {}, None, 0, 0, 0)
    {
      this.stream, this.generation, this.format := stream, generation, format;
      partials, completed, newest := map[], {}, None;
      rejected, duplicates, expired := 0, 0, 0;
    }

    /** An empty reassembler, unless the format or the generation is refused. */
    static method Create(stream: seq<byte>, generation: nat, format: Format)
        returns (r: Result<Reassembler, AudioError>)
      ensures !ValidFormat(format) ==> r == Err(UnsupportedFormat)
      ensures ValidFormat(format) && generation == 0 ==> r == Err(StaleGeneration)
      ensures ValidFormat(format) && generation != 0 ==>
                r.Ok? && fresh(r.value)
                && r.value.Abstract() == State(stream, generation, format, map[], {}, None, 0, 0, 0)
    {
      if !ValidFormat(format) {
        return Err(UnsupportedFormat);
      }
      if generation == 0 {
        return Err(StaleGeneration);
      }
      var created := new Reassembler(stream, generation, format);
      return Ok(created);
    }

    method ExpireOld(now: nat)
      modifies this`partials, this`expired
      ensures Abstract() == Expire(old(Abstract()), now)
      ensures forall q :: q in partials <==> q in old(partials) && now < old(partials)[q].since + 20
      ensures forall q :: q in partials ==> partials[q] == old(partials)[q]
      ensures expired == old(expired) + |old(partials)| - |partials|
    {
      ExpiredExactly(Abstract(), now);
      var before := partials;
      partials := map k | k in before && Live(before[k], now) :: before[k];
      var removed := before.Keys - partials.Keys;
      expired := expired + |removed|;
    }

    /** The loop after an emission: forgets the oldest completed numbers beyond the window. */
    method TrimCompleted()
      modifies this`completed
      ensures completed == Trim(old(completed))
    {
      while |completed| > DUPLICATE_WINDOW
        invariant Trim(completed) == Trim(old(completed))
        decreases |completed|
      {
        completed := completed - {Smallest(completed)};
      }
    }

    method PushPacket(p: seq<byte>, now: nat) returns (outcome: Outcome)
      requires Shaped(Abstract())
      modifies this
      ensures Shaped(Abstract())
      ensures (Abstract(), outcome) == Push(old(Abstract()), p, now)
    {
      PushKeepsShape(Abstract(), p, now);
      ghost var s0 := Abstract();
      ExpireOld(now);
      var decoded := Decode(p);
      if decoded.Err? {
        return Err(decoded.error);
      }
      DecodedIsConsistent(p);
      hide Decode, Consistent, Admit, ShapedPartial, Smallest;
      var h := decoded.value;
      if h.stream != stream || h.generation != generation {
        rejected := rejected + 1;
        return Err(StaleGeneration);
      }
      if h.format != format {
        return Err(UnsupportedFormat);
      }
      outcome := AdmitFragment(h, p[HEADER_BYTES..], now);
    }

    method AdmitFragment(h: Header, chunk: seq<byte>, now: nat) returns (outcome: Outcome)
      requires Shaped(Abstract()) && h.format == format && Consistent(h, chunk)
      modifies this
      ensures (Abstract(), outcome) == Admit(old(Abstract()), h, chunk, now)
    {
      hide Consistent, Store, ShapedPartial, Smallest;
      if h.sequence in completed {
        duplicates := duplicates + 1;
        return Ok(None);
      }
      if newest.Some? && h.sequence < SaturatingSub(newest.value, DUPLICATE_WINDOW) {
        rejected := rejected + 1;
        return Ok(None);
      }
      if h.sequence !in partials && |partials| >= MAX_PARTIALS {
        partials := partials - {Smallest(partials.Keys)};
        expired := expired + 1;
      }
      outcome := StoreFragment(h, chunk, now);
    }

    method StoreFragment(h: Header, chunk: seq<byte>, now: nat) returns (outcome: Outcome)
      requires Shaped(Abstract()) && h.format == format && Consistent(h, chunk)
      modifies this
      ensures (Abstract(), outcome) == Store(old(Abstract()), h, chunk, now)
    {
      FragmentFits(Abstract(), h, chunk, now);
      hide Consistent, Shaped, ShapedPartial, PacketBytes, Settle;
      if h.sequence !in partials {
        partials := partials[h.sequence := FreshPartial(h, now)];
      }
      var part := partials[h.sequence];
      assert partials == old(partials)[h.sequence := part];
      if part.header.position != h.position || part.header.count != h.count {
        return Err(InvalidPacket);
      }
      if h.index in part.fragments {
        duplicates := duplicates + 1;
        return Ok(None);
      }
      var end := h.offset + |chunk|;
      if true in part.covered[h.offset..end] {
        return Err(InvalidPacket);
      }
      part := part.(data := part.data[..h.offset] + chunk + part.data[end..]);
      part := part.(covered := part.covered[..h.offset] + seq(|chunk|, _ => true) + part.covered[end..]);
      part := part.(fragments := part.fragments + {h.index});
      outcome := SettleFragment(h, part);
    }

    method SettleFragment(h: Header, part: Partial) returns (outcome: Outcome)
      requires h.sequence in partials
      modifies this
      ensures (Abstract(), outcome) == Settle(old(Abstract()), h, part)
    {
      hide Trim, Smallest;
      if |part.fragments| == h.count {
        partials := partials - {h.sequence};
        if false in part.covered {
          return Err(InvalidPacket);
        }
        completed := completed + {h.sequence};
        newest := Some(Max(if newest.Some? then newest.value else 0, h.sequence));
        TrimCompleted();
        return Ok(Some(Frame(h.sequence, h.position, part.data)));
      }
      partials := partials[h.sequence := part];
      return Ok(None);
    }
  }
}
