/** A frame cut into datagrams comes back whole, whatever order and however often they arrive. */
module AudioAnyOrder {
  import opened Common
  import opened AudioFormat
  import opened AudioCodec
  import opened AudioReassembly

  datatype Arrival = Arrival(index: nat, now: nat)

  /** A frame that encode_frame cuts and decode does not refuse for its position. */
  predicate Sendable(s: Source) {
    WellTyped(s) && EncodeCheck(s).None? && s.position + FramesPerPacket(s.format) < U64_LIMIT
  }

  function Count(s: Source): nat
    requires EncodeCheck(s).None?
  {
    FragmentCount(|s.data|, s.mtu - HEADER_BYTES)
  }

  /** The indices of the packets of a frame cut into n. */
  function Indices(n: nat): set<nat> {
    if n == 0 then {} else Indices(n - 1) + {n - 1}
  }

  function AllIndices(s: Source): set<nat>
    requires EncodeCheck(s).None?
  {
    Indices(Count(s))
  }

  lemma {:induction false} IndicesAreBelow(n: nat)
    ensures |Indices(n)| == n
    ensures forall i: nat :: i in Indices(n) <==> i < n
  {
    if n > 0 {
      IndicesAreBelow(n - 1);
    }
  }

  lemma FullSubset(part: set<nat>, n: nat)
    requires forall i :: i in part ==> i < n
    ensures |part| <= n
    ensures |part| == n <==> part == Indices(n)
  {
    var all := Indices(n);
    IndicesAreBelow(n);
    assert part <= all;
    assert all == part + (all - part);
    assert |all| == |part| + |all - part|;
  }

  /** The index of the packet that carries byte b. */
  function Row(s: Source, b: nat): nat {
    if s.mtu > HEADER_BYTES then b / (s.mtu - HEADER_BYTES) else 0
  }

  lemma ByteInChunk(s: Source, index: nat, b: nat)
    requires EncodeCheck(s).None? && index < Count(s) && b < |s.data|
    ensures ChunkStart(index, s.mtu - HEADER_BYTES) <= b < ChunkEnd(index, s.mtu - HEADER_BYTES, |s.data|) <==>
            Row(s, b) == index
  {
    QuotientIsRow(b, s.mtu - HEADER_BYTES, index);
    hide EncodeCheck;
  }

  lemma QuotientIsRow(b: nat, c: nat, row: nat)
    requires c > 0
    ensures row * c <= b < (row + 1) * c <==> b / c == row
  {
    var q := b / c;
    DivisionBounds(b, c);
    TimesStep(q, c);
    if q < row {
      TimesGrows(q + 1, row, c);
    } else if q > row {
      TimesGrows(row + 1, q, c);
    }
  }

  // ----- What the reassembler holds of the frame

  ghost predicate Gathered(part: Partial, s: Source, seen: set<nat>, since: nat)
    requires EncodeCheck(s).None?
  {
    && part.header.position == s.position && part.header.count == Count(s)
    && part.since == since && part.fragments == seen
    && |part.data| == |part.covered| == |s.data|
    && (forall b :: 0 <= b < |s.data| ==> (part.covered[b] <==> Row(s, b) in seen))
    && (forall b :: 0 <= b < |s.data| && part.covered[b] ==> part.data[b] == s.data[b])
  }

  /** The duplicate window has room for the number, or would drop an older one for it. */
  ghost predicate Retained(completed: set<nat>, sequence: nat) {
    && |completed| <= DUPLICATE_WINDOW
    && (|completed| == DUPLICATE_WINDOW ==> exists older :: older in completed && older < sequence)
  }

  /** The reassembler is ready for the stream and has neither finished with the frame nor given it up. */
  ghost predicate Open(r: State, s: Source) {
    && Shaped(r) && r.stream == s.stream && r.generation == s.generation && r.format == s.format
    && s.sequence !in r.completed && !TooOld(r, s.sequence) && Retained(r.completed, s.sequence)
  }

  ghost predicate Progress(r: State, s: Source, seen: set<nat>, since: nat)
    requires EncodeCheck(s).None?
  {
    && Open(r, s)
    && (forall i :: i in seen ==> i < Count(s))
    && seen != AllIndices(s)
    && (if seen == {} then s.sequence !in r.partials
        else s.sequence in r.partials && Gathered(r.partials[s.sequence], s, seen, since))
  }

  ghost predicate Finished(r: State, s: Source) {
    && Shaped(r) && r.stream == s.stream && r.generation == s.generation && r.format == s.format
    && s.sequence in r.completed
  }

  function FrameOf(s: Source): Frame {
    Frame(s.sequence, s.position, s.data)
  }

  lemma FreshGathered(s: Source, index: nat, now: nat)
    requires EncodeCheck(s).None? && index < Count(s)
    ensures Gathered(FreshPartial(HeaderOf(s, index), now), s, {}, now)
  {
  }

  /** Writing a missing chunk fills exactly its bytes. */
  lemma WriteGathers(part: Partial, s: Source, seen: set<nat>, since: nat, index: nat)
    requires EncodeCheck(s).None? && index < Count(s) && index !in seen
    requires Gathered(part, s, seen, since)
    ensures var h := HeaderOf(s, index);
            && h.offset + |Chunk(s, index)| <= |part.data|
            && !Overlaps(part, h.offset, |Chunk(s, index)|)
            && Gathered(Write(part, index, h.offset, Chunk(s, index)), s, seen + {index}, since)
  {
    var c := s.mtu - HEADER_BYTES;
    ChunkBounds(|s.data|, c, index);
    var offset := ChunkStart(index, c);
    var chunk := Chunk(s, index);
    var end := offset + |chunk|;
    assert end == ChunkEnd(index, c, |s.data|);
    var written := Write(part, index, offset, chunk);
    forall b | 0 <= b < |s.data|
      ensures written.covered[b] <==> Row(s, b) in seen + {index}
      ensures written.covered[b] ==> written.data[b] == s.data[b]
      ensures offset <= b < end ==> !part.covered[b]
    {
      ByteInChunk(s, index, b);
    }
    forall k | 0 <= k < |part.covered[offset..end]| ensures !part.covered[offset..end][k] {
      assert !part.covered[offset + k];
    }
  }

  lemma ByteHasChunk(s: Source, b: nat)
    requires EncodeCheck(s).None? && b < |s.data|
    ensures Row(s, b) < Count(s)
  {
    var c := s.mtu - HEADER_BYTES;
    DivisionBounds(b, c);
    DivisionBounds(|s.data| + c - 1, c);
    if b / c >= Count(s) {
      TimesGrows(Count(s), b / c, c);
    }
  }

  lemma CompleteIsWhole(part: Partial, s: Source, since: nat)
    requires EncodeCheck(s).None? && Gathered(part, s, AllIndices(s), since)
    ensures part.data == s.data && false !in part.covered
  {
    IndicesAreBelow(Count(s));
    hide AllIndices, Count, EncodeCheck, Row;
    forall b | 0 <= b < |s.data| ensures part.covered[b] && part.data[b] == s.data[b] {
      ByteHasChunk(s, b);
    }
  }

  // ----- One arrival

  lemma TrimRetains(completed: set<nat>, sequence: nat)
    requires Retained(completed, sequence) && sequence !in completed
    ensures sequence in Trim(completed + {sequence})
  {
    TrimOnce(completed + {sequence});
  }

  lemma ExpireSpares(r: State, s: Source, seen: set<nat>, since: nat, now: nat)
    requires EncodeCheck(s).None? && Progress(r, s, seen, since)
    requires seen != {} ==> SaturatingSub(now, since) < REASSEMBLY_MS
    ensures var e := Expire(r, now);
            seen != {} ==> s.sequence in e.partials && e.partials[s.sequence] == r.partials[s.sequence]
  {
  }

  lemma ExpireKeeps(r: State, s: Source, seen: set<nat>, since: nat, now: nat)
    requires EncodeCheck(s).None? && Progress(r, s, seen, since)
    requires seen != {} ==> SaturatingSub(now, since) < REASSEMBLY_MS
    ensures Progress(Expire(r, now), s, seen, since)
  {
    hide Smallest, Gathered, EncodeCheck, ShapedPartial, AllIndices, Count, Live;
    ExpireSpares(r, s, seen, since, now);
  }

  lemma RoomKeeps(r: State, s: Source, seen: set<nat>, since: nat)
    requires EncodeCheck(s).None? && Progress(r, s, seen, since)
    ensures Progress(MakeRoom(r, s.sequence), s, seen, since)
  {
    hide Smallest, Gathered, EncodeCheck, ShapedPartial, AllIndices, Count;
  }

  /** The effect of an accepted datagram of the frame, once room was made for it. */
  lemma StoreFragmentOf(r: State, s: Source, seen: set<nat>, since: nat, index: nat, now: nat)
    requires Sendable(s) && index < Count(s)
    requires Consistent(HeaderOf(s, index), Chunk(s, index))
    requires Progress(r, s, seen, since)
    ensures var (r', outcome) := Store(r, HeaderOf(s, index), Chunk(s, index), now);
            var since' := if seen == {} then now else since;
            && (seen + {index} != AllIndices(s) ==> outcome == Ok(None) && Progress(r', s, seen + {index}, since'))
            && (seen + {index} == AllIndices(s) ==> outcome == Ok(Some(FrameOf(s))) && Finished(r', s))
  {
    var h := HeaderOf(s, index);
    var chunk := Chunk(s, index);
    var since' := if seen == {} then now else since;
    var part := PartialFor(r, h, now);
    FreshGathered(s, index, now);
    assert Gathered(part, s, seen, since');
    StoreKeepsShape(r, h, chunk, now);
    if index in seen {
      assert seen + {index} == seen;
    } else {
      WriteGathers(part, s, seen, since', index);
      FullSubset(seen + {index}, Count(s));
      if seen + {index} == AllIndices(s) {
        CompleteIsWhole(Write(part, index, h.offset, chunk), s, since');
        TrimRetains(r.completed, s.sequence);
      }
    }
  }

  lemma Arrives(r: State, s: Source, seen: set<nat>, since: nat, index: nat, now: nat)
    requires Sendable(s) && index < Count(s)
    requires Progress(r, s, seen, since)
    requires seen != {} ==> SaturatingSub(now, since) < REASSEMBLY_MS
    ensures var (r', outcome) := Push(r, Fragment(s, index), now);
            var since' := if seen == {} then now else since;
            && (seen + {index} != AllIndices(s) ==> outcome == Ok(None) && Progress(r', s, seen + {index}, since'))
            && (seen + {index} == AllIndices(s) ==> outcome == Ok(Some(FrameOf(s))) && Finished(r', s))
  {
    FragmentDecodes(s, index);
    ExpireKeeps(r, s, seen, since, now);
    RoomKeeps(Expire(r, now), s, seen, since);
    var room := MakeRoom(Expire(r, now), s.sequence);
    StoreFragmentOf(room, s, seen, since, index, now);
    assert Open(r, s);
    hide Decode, Packet, Consistent, Store, Smallest, AllIndices, Progress;
  }

  lemma ArrivesAgain(r: State, s: Source, index: nat, now: nat)
    requires Sendable(s) && index < Count(s) && Finished(r, s)
    ensures var (r', outcome) := Push(r, Fragment(s, index), now);
            outcome == Ok(None) && Finished(r', s)
  {
    FragmentDecodes(s, index);
    PushKeepsShape(r, Fragment(s, index), now);
    hide Decode, Packet, Consistent, Store, Smallest;
  }

  // ----- Any number of arrivals

  function Seen(arrivals: seq<Arrival>): set<nat> {
    if arrivals == [] then {} else Seen(arrivals[..|arrivals| - 1]) + {arrivals[|arrivals| - 1].index}
  }

  predicate OfFrame(count: nat, arrivals: seq<Arrival>) {
    forall i :: 0 <= i < |arrivals| ==> arrivals[i].index < count
  }

  function Arrive(r: State, s: Source, index: nat, now: nat): (result: (State, Outcome))
    requires EncodeCheck(s).None? && index < Count(s) && Shaped(r)
    ensures Shaped(result.0)
  {
    PushKeepsShape(r, Fragment(s, index), now);
    Push(r, Fragment(s, index), now)
  }

  /** The reassembler after a list of arrivals of packets of one frame. */
  function Feed(r: State, s: Source, arrivals: seq<Arrival>): (r': State)
    requires EncodeCheck(s).None? && OfFrame(Count(s), arrivals) && Shaped(r)
    ensures Shaped(r')
  {
    if arrivals == [] then r
    else
      var n := |arrivals| - 1;
      Arrive(Feed(r, s, arrivals[..n]), s, arrivals[n].index, arrivals[n].now).0
  }

  function OutcomeAt(r: State, s: Source, arrivals: seq<Arrival>, k: nat): Outcome
    requires EncodeCheck(s).None? && OfFrame(Count(s), arrivals) && Shaped(r) && k < |arrivals|
  {
    Arrive(Feed(r, s, arrivals[..k]), s, arrivals[k].index, arrivals[k].now).1
  }

  /** Every arrival comes before the frame would expire. */
  predicate InTime(arrivals: seq<Arrival>) {
    forall i :: 0 <= i < |arrivals| ==> SaturatingSub(arrivals[i].now, arrivals[0].now) < REASSEMBLY_MS
  }

  /** Where the reassembler is with the frame once these packets of it have arrived. */
  ghost predicate At(r: State, s: Source, seen: set<nat>, since: nat)
    requires EncodeCheck(s).None?
  {
    if seen == AllIndices(s) then Finished(r, s) else Progress(r, s, seen, since)
  }

  lemma ArrivesAt(r: State, s: Source, seen: set<nat>, since: nat, index: nat, now: nat)
    requires Sendable(s) && index < Count(s) && Shaped(r) && At(r, s, seen, since)
    requires seen != {} ==> SaturatingSub(now, since) < REASSEMBLY_MS
    ensures var (r', outcome) := Arrive(r, s, index, now);
            && At(r', s, seen + {index}, if seen == {} then now else since)
            && outcome == Ok(if seen != AllIndices(s) && seen + {index} == AllIndices(s) then Some(FrameOf(s))
                 else None)
  {
    IndicesAreBelow(Count(s));
    assert index in AllIndices(s);
    ArriveIsPush(r, s, index, now);
    hide Progress, Finished, Arrive, AllIndices, Push, Fragment, Open, Shaped, EncodeCheck, Count, FrameOf;
    if seen == AllIndices(s) {
      ArrivesAgain(r, s, index, now);
      assert seen + {index} == seen;
    } else {
      Arrives(r, s, seen, since, index, now);
    }
  }

  function Since(arrivals: seq<Arrival>): nat {
    if arrivals == [] then 0 else arrivals[0].now
  }

  lemma PrefixInTime(arrivals: seq<Arrival>, k: nat, count: nat)
    requires OfFrame(count, arrivals) && InTime(arrivals) && k < |arrivals|
    ensures OfFrame(count, arrivals[..k]) && InTime(arrivals[..k])
    ensures arrivals[k].index < count
    ensures k > 0 ==> SaturatingSub(arrivals[k].now, Since(arrivals[..k])) < REASSEMBLY_MS
    ensures Since(arrivals) == if k == 0 then arrivals[k].now else Since(arrivals[..k])
  {
  }

  lemma SeenGrows(arrivals: seq<Arrival>)
    ensures Seen(arrivals) == {} <==> arrivals == []
  {
    if arrivals != [] {
      assert arrivals[|arrivals| - 1].index in Seen(arrivals);
    }
  }

  lemma SeenNext(arrivals: seq<Arrival>, k: nat)
    requires k < |arrivals|
    ensures Seen(arrivals[..k + 1]) == Seen(arrivals[..k]) + {arrivals[k].index}
  {
    assert arrivals[..k + 1][..k] == arrivals[..k];
  }

  lemma {:induction false} FeedGathers(r: State, s: Source, arrivals: seq<Arrival>)
    requires Sendable(s) && Open(r, s) && s.sequence !in r.partials
    requires OfFrame(Count(s), arrivals) && InTime(arrivals)
    ensures At(Feed(r, s, arrivals), s, Seen(arrivals), Since(arrivals))
    decreases |arrivals|
  {
    assert Shaped(r) && EncodeCheck(s).None? by { hide At; }
    hide At, Arrive, Sendable, EncodeCheck, Count, Shaped, Open, AllIndices, Since, InTime, OfFrame;
    if arrivals == [] {
      NothingArrived(r, s);
    } else {
      PrefixInTime(arrivals, |arrivals| - 1, Count(s));
      FeedGathers(r, s, arrivals[..|arrivals| - 1]);
      FeedNext(r, s, arrivals);
    }
  }

  lemma FeedNext(r: State, s: Source, arrivals: seq<Arrival>)
    requires Sendable(s) && Shaped(r) && arrivals != [] && OfFrame(Count(s), arrivals) && InTime(arrivals)
    requires var init := arrivals[..|arrivals| - 1];
             At(Feed(r, s, init), s, Seen(init), Since(init))
    ensures At(Feed(r, s, arrivals), s, Seen(arrivals), Since(arrivals))
  {
    assert EncodeCheck(s).None?;
    hide At, Arrive, Sendable, EncodeCheck, Count, Shaped, AllIndices, InTime, OfFrame;
    var n := |arrivals| - 1;
    var init, last := arrivals[..n], arrivals[n];
    PrefixInTime(arrivals, n, Count(s));
    SeenGrows(init);
    var before := Feed(r, s, init);
    assert Feed(r, s, arrivals) == Arrive(before, s, last.index, last.now).0;
    assert Seen(arrivals) == Seen(init) + {last.index};
    hide Feed, Seen, Since;
    ArrivesAt(before, s, Seen(init), Since(init), last.index, last.now);
  }

  lemma ArriveIsPush(r: State, s: Source, index: nat, now: nat)
    requires EncodeCheck(s).None? && index < Count(s) && Shaped(r)
    ensures Arrive(r, s, index, now) == Push(r, Fragment(s, index), now)
  {
  }

  lemma NothingArrived(r: State, s: Source)
    requires Sendable(s) && Open(r, s) && s.sequence !in r.partials
    ensures At(r, s, {}, Since([]))
  {
    PacketBytesBounds(s.format);
    IndicesAreBelow(Count(s));
    ByteHasChunk(s, 0);
  }

  /**
   Packets of one frame, each any number of times and in any order, within 20 ms of the first: the
   frame comes out unchanged, once, when the last missing packet arrives, and nothing comes out otherwise.
   */
  lemma AnyOrderReturnsTheFrameOnce(r: State, s: Source, arrivals: seq<Arrival>, k: nat)
    requires Sendable(s) && Open(r, s) && s.sequence !in r.partials
    requires OfFrame(Count(s), arrivals) && InTime(arrivals)
    requires k < |arrivals|
    ensures var completes := Seen(arrivals[..k]) != AllIndices(s) && Seen(arrivals[..k + 1]) == AllIndices(s);
            OutcomeAt(r, s, arrivals, k) == Ok(if completes then Some(Frame(s.sequence, s.position, s.data)) else None)
  {
    var init := arrivals[..k];
    assert Shaped(r);
    hide At, Arrive, EncodeCheck, Count, Shaped, Open, AllIndices, WellTyped, FramesPerPacket, Since, InTime, OfFrame,
        Feed, Seen, Sendable;
    PrefixInTime(arrivals, k, Count(s));
    FeedGathers(r, s, init);
    SeenGrows(init);
    SeenNext(arrivals, k);
    ArrivesAt(Feed(r, s, init), s, Seen(init), Since(init), arrivals[k].index, arrivals[k].now);
  }

  /** A new reassembler for the stream is open for every frame of it. */
  lemma FreshIsOpen(s: Source)
    requires Sendable(s)
    ensures var r := State(s.stream, s.generation, s.format, map[], {}, None, 0, 0, 0);
            Open(r, s) && s.sequence !in r.partials
  {
  }
}
