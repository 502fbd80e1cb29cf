/** What the reassembler guarantees whatever datagrams arrive. */
module AudioWindow {
  import opened Common
  import opened AudioFormat
  import opened AudioCodec
  import opened AudioReassembly
  import A = AudioAnyOrder

  datatype Datagram = Datagram(bytes: seq<byte>, now: nat)

  /** A datagram with the time and the place among all datagrams at which it arrived. */
  datatype Arrival = Arrival(bytes: seq<byte>, now: nat, place: nat)

  /** A reassembler with the history of what it was given, count datagrams in all, and what it returned. */
  datatype Trace = Trace(r: State, pushed: set<Arrival>, count: nat, emitted: set<nat>)
  // ----- Frames are made of accepted datagrams

  predicate Covers(p: seq<byte>, b: nat) {
    Decode(p).Ok? && HEADER_BYTES <= |p| && Decode(p).value.offset <= b < Decode(p).value.offset + |p| - HEADER_BYTES
  }

  function ByteFrom(p: seq<byte>, b: nat): byte
    requires Covers(p, b)
  {
    p[HEADER_BYTES + b - Decode(p).value.offset]
  }

  /** p is a datagram that arrived and carries fragment i of the frame. */
  predicate PieceOf(r: State, p: Arrival, i: nat, sequence: nat, position: nat, count: nat, pushed: set<Arrival>) {
    && p in pushed && Decode(p.bytes).Ok?
    && var h := Decode(p.bytes).value;
    h.stream == r.stream && h.generation == r.generation && h.format == r.format
    && h.sequence == sequence && h.position == position && h.count == count && h.index == i && i < count
  }

  ghost predicate Pieces(r: State, pieces: map<nat, Arrival>, sequence: nat, position: nat, count: nat,
      pushed: set<Arrival>) {
    forall i :: i in pieces ==> PieceOf(r, pieces[i], i, sequence, position, count, pushed)
  }

  /** No byte belongs to two pieces. */
  ghost predicate Disjoint(pieces: map<nat, Arrival>) {
    forall i, j, b: nat ::
      i in pieces && j in pieces && Covers(pieces[i].bytes, b) && Covers(pieces[j].bytes, b) ==> i == j
  }

  ghost predicate Covered(pieces: map<nat, Arrival>, b: nat) {
    exists i :: i in pieces && Covers(pieces[i].bytes, b)
  }

  /** Every piece's bytes are in place. */
  ghost predicate Filled(pieces: map<nat, Arrival>, data: seq<byte>) {
    forall i, b ::
      0 <= b < |data| && i in pieces && Covers(pieces[i].bytes, b) ==> data[b] == ByteFrom(pieces[i].bytes, b)
  }

  ghost predicate Marked(pieces: map<nat, Arrival>, covered: seq<bool>) {
    forall b :: 0 <= b < |covered| ==> (covered[b] <==> Covered(pieces, b))
  }

  /** The first of the pieces to arrive opened the partial frame, and the others arrived less than 20 ms after it. */
  ghost predicate Timely(part: Partial, pieces: map<nat, Arrival>) {
    pieces != map[] ==>
      exists f :: f in pieces && pieces[f].now == part.since && Within20(pieces, f)
  }

  ghost predicate Within20(pieces: map<nat, Arrival>, f: nat)
    requires f in pieces
  {
    forall i :: i in pieces ==> pieces[f].place <= pieces[i].place && pieces[i].now < pieces[f].now + 20
  }

  ghost predicate Assembled(r: State, part: Partial, sequence: nat, pieces: map<nat, Arrival>,
      pushed: set<Arrival>) {
    && pieces.Keys == part.fragments
    && Pieces(r, pieces, sequence, part.header.position, part.header.count, pushed)
    && Disjoint(pieces) && Filled(pieces, part.data) && Marked(pieces, part.covered) && Timely(part, pieces)
  }

  ghost predicate Assembling(r: State, sequence: nat, pushed: set<Arrival>)
    requires sequence in r.partials
  {
    exists pieces :: pieces != map[] && Assembled(r, r.partials[sequence], sequence, pieces, pushed)
  }

  /**
   The frame is the bytes of count datagrams that arrived, one for each fragment index, each byte from exactly one. All
   of them arrived less than 20 ms after the one that arrived first.
   */
  ghost predicate MadeOf(r: State, frame: Frame, pieces: map<nat, Arrival>, pushed: set<Arrival>) {
    && Pieces(r, pieces, frame.sequence, frame.position, |pieces|, pushed)
    && Disjoint(pieces) && Filled(pieces, frame.data)
    && (forall b :: 0 <= b < |frame.data| ==> Covered(pieces, b))
    && exists f :: f in pieces && Within20(pieces, f)
  }

  ghost predicate Assembly(r: State, frame: Frame, pushed: set<Arrival>) {
    |frame.data| == PacketBytes(r.format) && exists pieces :: MadeOf(r, frame, pieces, pushed)
  }

  // ----- The duplicate window

  /**
   completed holds the largest of the emitted sequence numbers, up to DUPLICATE_WINDOW of them; newest is the
   largest.
   */
  ghost predicate Window(r: State, emitted: set<nat>) {
    && r.completed <= emitted && |r.completed| <= DUPLICATE_WINDOW
    && (r.completed != emitted ==> |r.completed| == DUPLICATE_WINDOW)
    && (forall kept, gone :: kept in r.completed && gone in emitted - r.completed ==> gone < kept)
    && (r.newest.None? <==> emitted == {})
    && (r.newest.Some? ==> r.newest.value in emitted)
    && (forall q :: q in emitted ==> r.newest.Some? && q <= r.newest.value)
  }

  ghost predicate AllAssembling(r: State, pushed: set<Arrival>) {
    forall q :: q in r.partials ==> Assembling(r, q, pushed)
  }

  predicate Before(pushed: set<Arrival>, place: nat) {
    forall a :: a in pushed ==> a.place < place
  }

  ghost predicate Inv(t: Trace) {
    && Shaped(t.r) && |t.r.partials| <= MAX_PARTIALS
    && AllAssembling(t.r, t.pushed) && Window(t.r, t.emitted) && Before(t.pushed, t.count)
  }

  function Emission(outcome: Outcome): set<nat> {
    if outcome.Ok? && outcome.value.Some? then {outcome.value.value.sequence} else {}
  }

  function Arriving(t: Trace, d: Datagram): Arrival {
    Arrival(d.bytes, d.now, t.count)
  }

  function Received(t: Trace, d: Datagram): Trace
    requires Shaped(t.r)
  {
    var (r, outcome) := Push(t.r, d.bytes, d.now);
    Trace(r, t.pushed + {Arriving(t, d)}, t.count + 1, t.emitted + Emission(outcome))
  }

  // ----- Pieces under the steps of push

  lemma EmissionKeepsWindow(r: State, emitted: set<nat>, q: nat, r': State)
    requires Window(r, emitted) && q !in r.completed
    requires r'.completed == Trim(r.completed + {q})
    requires r'.newest == Some(Max(if r.newest.Some? then r.newest.value else 0, q))
    ensures Window(r', emitted + {q})
  {
    TrimOnce(r.completed + {q});
    hide Trim;
    var grown := r.completed + {q};
    if |grown| > DUPLICATE_WINDOW {
      var least := Smallest(grown);
      assert r'.completed == grown - {least};
      forall kept, gone | kept in r'.completed && gone in emitted + {q} - r'.completed ensures gone < kept {
        assert least <= kept && least != kept;
        if gone != least {
          assert gone != q && gone in emitted - r.completed;
          if kept == q {
            assert least in r.completed && gone < least;
          }
        }
      }
    }
  }

  lemma MorePushed(r: State, pushed: set<Arrival>, p: Arrival)
    requires AllAssembling(r, pushed)
    ensures AllAssembling(r, pushed + {p})
  {
    forall q | q in r.partials ensures Assembling(r, q, pushed + {p}) {
      var pieces :| pieces != map[] && Assembled(r, r.partials[q], q, pieces, pushed);
      PiecesStay(r, r.partials[q], q, pieces, pushed, p);
    }
  }

  lemma PiecesStay(r: State, part: Partial, q: nat, pieces: map<nat, Arrival>, pushed: set<Arrival>, p: Arrival)
    requires Assembled(r, part, q, pieces, pushed)
    ensures Assembled(r, part, q, pieces, pushed + {p})
  {
    hide Disjoint, Filled, Marked, Timely, Decode;
  }

  /** Forgetting partial frames, or changing only counters, leaves the others assembled. */
  lemma FewerPartials(r: State, r': State, pushed: set<Arrival>)
    requires AllAssembling(r, pushed)
    requires r'.stream == r.stream && r'.generation == r.generation && r'.format == r.format
    requires forall q :: q in r'.partials ==> q in r.partials && r'.partials[q] == r.partials[q]
    ensures AllAssembling(r', pushed)
  {
    forall q | q in r'.partials ensures Assembling(r', q, pushed) {
      var pieces :| pieces != map[] && Assembled(r, r.partials[q], q, pieces, pushed);
      SameStream(r, r', r.partials[q], q, pieces, pushed);
    }
  }

  lemma SameStream(r: State, r': State, part: Partial, q: nat, pieces: map<nat, Arrival>, pushed: set<Arrival>)
    requires Assembled(r, part, q, pieces, pushed)
    requires r'.stream == r.stream && r'.generation == r.generation && r'.format == r.format
    ensures Assembled(r', part, q, pieces, pushed)
  {
    hide Disjoint, Filled, Marked, Timely, Decode;
  }

  lemma NothingYet(r: State, h: Header, now: nat, pushed: set<Arrival>)
    ensures Assembled(r, FreshPartial(h, now), h.sequence, map[], pushed)
  {
  }

  /** A datagram that is accepted becomes one more piece. */
  lemma OneMorePiece(r: State, part: Partial, p: Arrival, pieces: map<nat, Arrival>, pushed: set<Arrival>)
    requires Decode(p.bytes).Ok? && HEADER_BYTES < |p.bytes|
    requires var h := Decode(p.bytes).value;
             && Assembled(r, part, h.sequence, pieces, pushed) && h.index !in part.fragments
             && PieceOf(r, p, h.index, h.sequence, part.header.position, part.header.count, pushed)
             && h.offset + |p.bytes| - HEADER_BYTES <= |part.data| == |part.covered|
             && !Overlaps(part, h.offset, |p.bytes| - HEADER_BYTES)
    requires ComesNext(part, pieces, p, pushed)
    ensures var h := Decode(p.bytes).value;
            Assembled(r, Write(part, h.index, h.offset, p.bytes[HEADER_BYTES..]), h.sequence, pieces[h.index := p],
                      pushed)
  {
    hide Decode, PieceOf;
    var h := Decode(p.bytes).value;
    var chunk := p.bytes[HEADER_BYTES..];
    var written := Write(part, h.index, h.offset, chunk);
    var more := pieces[h.index := p];
    WriteKeepsLength(part, h.index, h.offset, chunk);
    forall b: nat | Covers(p.bytes, b) ensures !Covered(pieces, b) && written.data[b] == ByteFrom(p.bytes, b) {
      assert part.covered[h.offset..h.offset + |chunk|][b - h.offset] == part.covered[b];
    }
    NewPieceIsDisjoint(pieces, h.index, p);
    NewPieceIsFilled(part, pieces, h.index, p);
    NewPieceIsMarked(part, pieces, h.index, p);
    hide Disjoint, Filled, Marked, Covers, Write, Timely, ComesNext;
    NewPieceIsTimely(r, part, pieces, h.sequence, h.index, p, pushed);
    WriteFields(part, h.index, h.offset, chunk);
  }

  lemma WriteFields(part: Partial, index: nat, offset: nat, chunk: seq<byte>)
    requires offset + |chunk| <= |part.data| == |part.covered|
    ensures var written := Write(part, index, offset, chunk);
            && written.fragments == part.fragments + {index} && written.header == part.header
            && written.since == part.since
  {
  }

  /** The datagram arrived after all others, in time for the partial frame, or opens it. */
  ghost predicate ComesNext(part: Partial, pieces: map<nat, Arrival>, p: Arrival, pushed: set<Arrival>) {
    && p.now < part.since + 20 && (pieces == map[] ==> p.now == part.since)
    && (forall a :: a in pushed ==> a.place <= p.place)
  }

  lemma NewPieceIsTimely(r: State, part: Partial, pieces: map<nat, Arrival>, q: nat, i: nat, p: Arrival,
      pushed: set<Arrival>)
    requires Pieces(r, pieces, q, part.header.position, part.header.count, pushed) && i !in pieces
    requires Timely(part, pieces) && ComesNext(part, pieces, p, pushed)
    ensures Timely(part, pieces[i := p])
  {
    hide Decode;
    var more := pieces[i := p];
    if pieces == map[] {
      assert more[i].now == part.since && Within20(more, i);
    } else {
      var f :| f in pieces && pieces[f].now == part.since && Within20(pieces, f);
      assert PieceOf(r, pieces[f], f, q, part.header.position, part.header.count, pushed);
      assert more[f].now == part.since && Within20(more, f);
    }
  }

  lemma NewPieceIsDisjoint(pieces: map<nat, Arrival>, i: nat, p: Arrival)
    requires Disjoint(pieces) && i !in pieces
    requires forall b: nat :: Covers(p.bytes, b) ==> !Covered(pieces, b)
    ensures Disjoint(pieces[i := p])
  {
    hide Covers;
    var more := pieces[i := p];
    forall j, k, b: nat | j in more && k in more && Covers(more[j].bytes, b) && Covers(more[k].bytes, b)
      ensures j == k
    {
      assert j != i || k != i ==> Covered(pieces, b);
    }
  }

  lemma NewPieceIsFilled(part: Partial, pieces: map<nat, Arrival>, i: nat, p: Arrival)
    requires Decode(p.bytes).Ok? && HEADER_BYTES < |p.bytes| && Filled(pieces, part.data) && i !in pieces
    requires Decode(p.bytes).value.offset + |p.bytes| - HEADER_BYTES <= |part.data| == |part.covered|
    requires forall b: nat :: Covers(p.bytes, b) ==> !Covered(pieces, b)
    ensures Filled(pieces[i := p], Write(part, i, Decode(p.bytes).value.offset, p.bytes[HEADER_BYTES..]).data)
  {
    hide Decode;
    var more := pieces[i := p];
    var written := Write(part, i, Decode(p.bytes).value.offset, p.bytes[HEADER_BYTES..]);
    forall j, b | 0 <= b < |written.data| && j in more && Covers(more[j].bytes, b)
        ensures written.data[b] == ByteFrom(more[j].bytes, b) {
      if j != i {
        assert Covered(pieces, b);
        assert !Covers(p.bytes, b);
      }
    }
  }

  lemma NewPieceIsMarked(part: Partial, pieces: map<nat, Arrival>, i: nat, p: Arrival)
    requires Decode(p.bytes).Ok? && HEADER_BYTES < |p.bytes| && Marked(pieces, part.covered) && i !in pieces
    requires Decode(p.bytes).value.offset + |p.bytes| - HEADER_BYTES <= |part.data| == |part.covered|
    ensures Marked(pieces[i := p], Write(part, i, Decode(p.bytes).value.offset, p.bytes[HEADER_BYTES..]).covered)
  {
    hide Decode;
    var more := pieces[i := p];
    var written := Write(part, i, Decode(p.bytes).value.offset, p.bytes[HEADER_BYTES..]);
    forall b | 0 <= b < |written.covered| ensures written.covered[b] <==> Covered(more, b) {
      CoveredByMore(pieces, i, p, b);
      hide Covered;
    }
  }

  lemma CoveredByMore(pieces: map<nat, Arrival>, i: nat, p: Arrival, b: nat)
    requires i !in pieces
    ensures Covered(pieces[i := p], b) <==> Covered(pieces, b) || Covers(p.bytes, b)
  {
    hide Covers;
    var more := pieces[i := p];
    if Covers(p.bytes, b) {
      assert Covers(more[i].bytes, b);
    }
    if Covered(pieces, b) {
      var j :| j in pieces && Covers(pieces[j].bytes, b);
      assert Covers(more[j].bytes, b);
    }
  }

  // ----- Every push keeps the invariant

  lemma ExpireKeeps(r: State, now: nat, pushed: set<Arrival>)
    requires AllAssembling(r, pushed)
    ensures AllAssembling(Expire(r, now), pushed)
    ensures |Expire(r, now).partials| <= |r.partials|
  {
    FewerPartials(r, Expire(r, now), pushed);
    SubsetSize(Expire(r, now).partials.Keys, r.partials.Keys);
  }

  lemma SubsetSize(part: set<nat>, whole: set<nat>)
    requires part <= whole
    ensures |part| <= |whole|
  {
    assert whole == part + (whole - part);
  }

  lemma RoomKeeps(r: State, q: nat, pushed: set<Arrival>)
    requires AllAssembling(r, pushed) && |r.partials| <= MAX_PARTIALS
    ensures var room := MakeRoom(r, q);
            AllAssembling(room, pushed) && |room.partials| <= MAX_PARTIALS
            && (q !in room.partials ==> |room.partials| < MAX_PARTIALS)
  {
    hide AllAssembling, Smallest;
    var room := MakeRoom(r, q);
    FewerPartials(r, room, pushed);
    if room.partials != r.partials {
      assert room.partials.Keys == r.partials.Keys - {Smallest(r.partials.Keys)};
    }
  }

  /** One partial frame replaced by another that is assembled. */
  lemma OnePartialSet(r: State, q: nat, part: Partial, pieces: map<nat, Arrival>, pushed: set<Arrival>, r': State)
    requires AllAssembling(r, pushed) && Assembled(r, part, q, pieces, pushed) && pieces != map[]
    requires r' == r.(partials := r.partials[q := part], duplicates := r'.duplicates)
    ensures AllAssembling(r', pushed)
    ensures |r'.partials| == if q in r.partials then |r.partials| else |r.partials| + 1
  {
    hide Disjoint, Filled, Marked, Decode, Pieces, Assembled;
    SameStream(r, r', part, q, pieces, pushed);
    forall other | other in r'.partials ensures Assembling(r', other, pushed) {
      if other != q {
        assert Assembling(r, other, pushed);
        var ps :| ps != map[] && Assembled(r, r.partials[other], other, ps, pushed);
        SameStream(r, r', r.partials[other], other, ps, pushed);
      }
    }
    assert r'.partials.Keys == r.partials.Keys + {q};
  }

  lemma WholeIsMade(r: State, part: Partial, q: nat, pieces: map<nat, Arrival>, pushed: set<Arrival>)
    requires Assembled(r, part, q, pieces, pushed) && ShapedPartial(r.format, part) && pieces != map[]
    requires false !in part.covered && |part.fragments| == part.header.count
    ensures Assembly(r, Frame(q, part.header.position, part.data), pushed)
  {
    var frame := Frame(q, part.header.position, part.data);
    hide Disjoint, Filled, Covered, Pieces;
    forall b | 0 <= b < |frame.data| ensures Covered(pieces, b) {
      assert part.covered[b];
    }
    assert |pieces| == |pieces.Keys|;
    var f :| f in pieces && pieces[f].now == part.since && Within20(pieces, f);
    assert MadeOf(r, frame, pieces, pushed);
  }

  ghost predicate Effect(r: State, q: nat, now: nat, r': State, outcome: Outcome, pushed: set<Arrival>) {
    && AllAssembling(r', pushed) && |r'.partials| <= MAX_PARTIALS
    && (if outcome.Ok? && outcome.value.Some? then
          && outcome.value.value.sequence == q
          && Assembly(r, outcome.value.value, pushed)
          && r'.completed == Trim(r.completed + {q})
          && r'.newest == Some(Max(if r.newest.Some? then r.newest.value else 0, q))
        else r'.completed == r.completed && r'.newest == r.newest)
  }

  function Without(r: State, q: nat): State {
    r.(partials := r.partials - {q})
  }

  lemma SettleKeeps(r: State, h: Header, written: Partial, pieces: map<nat, Arrival>, now: nat,
      pushed: set<Arrival>)
    requires AllAssembling(Without(r, h.sequence), pushed) && |r.partials| <= MAX_PARTIALS
    requires h.sequence in r.partials
    requires ShapedPartial(r.format, written) && written.header.position == h.position
             && written.header.count == h.count
    requires Assembled(r, written, h.sequence, pieces, pushed) && pieces != map[]
    ensures var (r', outcome) := Settle(r, h, written);
            Effect(r, h.sequence, now, r', outcome, pushed)
  {
    hide AllAssembling, Assembled, Assembly, ShapedPartial, Trim;
    var (r', outcome) := Settle(r, h, written);
    if |written.fragments| == h.count {
      FewerPartials(Without(r, h.sequence), r', pushed);
      SubsetSize(r'.partials.Keys, r.partials.Keys);
      if false !in written.covered {
        WholeIsMade(r, written, h.sequence, pieces, pushed);
      }
    } else {
      SameStream(r, Without(r, h.sequence), written, h.sequence, pieces, pushed);
      OnePartialSet(Without(r, h.sequence), h.sequence, written, pieces, pushed, r');
      assert r'.partials.Keys == r.partials.Keys;
    }
  }

  /** The last branch of Store: the datagram's bytes are written. */
  lemma AcceptKeeps(e: State, part: Partial, p: Arrival, pieces: map<nat, Arrival>, now: nat,
      pushed: set<Arrival>)
    requires |e.partials| <= MAX_PARTIALS && p in pushed
    requires ComesNext(part, pieces, p, pushed)
    requires Decode(p.bytes).Ok? && HEADER_BYTES < |p.bytes|
             && Decode(p.bytes).value.index < Decode(p.bytes).value.count
    requires var h := Decode(p.bytes).value;
             && h.stream == e.stream && h.generation == e.generation && h.format == e.format
             && h.sequence in e.partials && AllAssembling(Without(e, h.sequence), pushed)
             && Assembled(e, part, h.sequence, pieces, pushed) && h.index !in part.fragments
             && part.header.position == h.position && part.header.count == h.count && ShapedPartial(e.format, part)
             && h.offset + |p.bytes| - HEADER_BYTES <= |part.data| == |part.covered|
             && !Overlaps(part, h.offset, |p.bytes| - HEADER_BYTES)
    ensures var h := Decode(p.bytes).value;
            var (r', outcome) := Settle(e, h, Write(part, h.index, h.offset, p.bytes[HEADER_BYTES..]));
            Effect(e, h.sequence, now, r', outcome, pushed)
  {
    hide Decode, Settle, Assembled, AllAssembling, Write, Effect, Overlaps, PacketBytes;
    var h := Decode(p.bytes).value;
    var chunk := p.bytes[HEADER_BYTES..];
    OneMorePiece(e, part, p, pieces, pushed);
    WriteFields(part, h.index, h.offset, chunk);
    WriteKeepsLength(part, h.index, h.offset, chunk);
    assert h.index in pieces[h.index := p];
    SettleKeeps(e, h, Write(part, h.index, h.offset, chunk), pieces[h.index := p], now, pushed);
  }

  lemma IndexBelowCount(h: Header, chunk: seq<byte>)
    requires Consistent(h, chunk)
    ensures h.index < h.count
  {
  }

  ghost predicate Young(r: State, now: nat) {
    forall q :: q in r.partials ==> now < r.partials[q].since + 20
  }

  /** p is the latest of the arrivals. */
  ghost predicate Latest(p: Arrival, now: nat, pushed: set<Arrival>) {
    p in pushed && p.now == now && forall a :: a in pushed ==> a.place <= p.place
  }

  lemma FreshAccepts(h: Header, chunk: seq<byte>, now: nat)
    requires Consistent(h, chunk)
    ensures h.offset + |chunk| <= |FreshPartial(h, now).covered| && Accepts(FreshPartial(h, now), h, |chunk|)
  {
    hide PacketBytes, FramesPerPacket;
  }

  lemma StoreKeeps(r: State, p: Arrival, now: nat, pushed: set<Arrival>)
    requires Young(r, now) && Latest(p, now, pushed)
    requires AllAssembling(r, pushed) && Shaped(r) && |r.partials| <= MAX_PARTIALS && p in pushed
    requires Decode(p.bytes).Ok? && HEADER_BYTES < |p.bytes|
             && Consistent(Decode(p.bytes).value, p.bytes[HEADER_BYTES..])
    requires var h := Decode(p.bytes).value;
             h.stream == r.stream && h.generation == r.generation && h.format == r.format
             && (h.sequence !in r.partials ==> |r.partials| < MAX_PARTIALS)
    ensures var h := Decode(p.bytes).value;
            var (r', outcome) := Store(r, h, p.bytes[HEADER_BYTES..], now);
            Effect(r, h.sequence, now, r', outcome, pushed)
  {
    hide Decode, Consistent, Settle, Assembled, AllAssembling, Write, Effect, PacketBytes, Overlaps, Shaped,
        PartialFor, ShapedPartial, Store, Accepts;
    var h := Decode(p.bytes).value;
    var chunk := p.bytes[HEADER_BYTES..];
    IndexBelowCount(h, chunk);
    StoreCases(r, h, chunk, now);
    var part := PartialFor(r, h, now);
    var pieces := PiecesFor(r, h, now, pushed);
    PartialIsYoung(r, h, now);
    FreshAccepts(h, chunk, now);
    if Accepts(part, h, |chunk|) {
      AcceptedKeeps(r, part, p, pieces, now, pushed);
    } else {
      RefusedKeeps(r, h.sequence, part, pieces, now, pushed);
    }
  }

  lemma PartialIsYoung(r: State, h: Header, now: nat)
    requires Young(r, now)
    ensures var part := PartialFor(r, h, now);
            now < part.since + 20 && (h.sequence !in r.partials ==> part == FreshPartial(h, now) && part.since == now)
  {
  }

  lemma RefusedKeeps(r: State, q: nat, part: Partial, pieces: map<nat, Arrival>, now: nat, pushed: set<Arrival>)
    requires AllAssembling(r, pushed) && |r.partials| <= MAX_PARTIALS
    requires q !in r.partials ==> |r.partials| < MAX_PARTIALS
    requires Assembled(r, part, q, pieces, pushed) && pieces != map[]
    ensures var entered := r.(partials := r.partials[q := part]);
            && Effect(r, q, now, entered, Err(InvalidPacket), pushed)
            && Effect(r, q, now, entered.(duplicates := r.duplicates + 1), Ok(None), pushed)
  {
    hide Assembled, AllAssembling;
    var entered := r.(partials := r.partials[q := part]);
    OnePartialSet(r, q, part, pieces, pushed, entered);
    OnePartialSet(r, q, part, pieces, pushed, entered.(duplicates := r.duplicates + 1));
  }

  lemma AcceptedKeeps(r: State, part: Partial, p: Arrival, pieces: map<nat, Arrival>, now: nat,
      pushed: set<Arrival>)
    requires AllAssembling(r, pushed) && |r.partials| <= MAX_PARTIALS && p in pushed
    requires ComesNext(part, pieces, p, pushed)
    requires Decode(p.bytes).Ok? && HEADER_BYTES < |p.bytes|
             && Decode(p.bytes).value.index < Decode(p.bytes).value.count
    requires var h := Decode(p.bytes).value;
             && h.stream == r.stream && h.generation == r.generation && h.format == r.format
             && (h.sequence !in r.partials ==> |r.partials| < MAX_PARTIALS)
             && Assembled(r, part, h.sequence, pieces, pushed) && ShapedPartial(r.format, part)
             && h.offset + |p.bytes| - HEADER_BYTES <= |part.data| == |part.covered|
             && Accepts(part, h, |p.bytes| - HEADER_BYTES)
    ensures var h := Decode(p.bytes).value;
            var entered := r.(partials := r.partials[h.sequence := part]);
            var (r', outcome) := Settle(entered, h, Write(part, h.index, h.offset, p.bytes[HEADER_BYTES..]));
            Effect(r, h.sequence, now, r', outcome, pushed)
  {
    hide Decode, Settle, Assembled, AllAssembling, Write, Effect, PacketBytes, Overlaps, ShapedPartial;
    var h := Decode(p.bytes).value;
    var entered := r.(partials := r.partials[h.sequence := part]);
    assert entered.partials.Keys == r.partials.Keys + {h.sequence};
    FewerPartials(r, Without(entered, h.sequence), pushed);
    SameStream(r, entered, part, h.sequence, pieces, pushed);
    AcceptKeeps(entered, part, p, pieces, now, pushed);
    var (r', outcome) := Settle(entered, h, Write(part, h.index, h.offset, p.bytes[HEADER_BYTES..]));
    SameEffect(r, entered, h.sequence, now, r', outcome, pushed);
  }

  lemma SameEffect(r: State, e: State, q: nat, now: nat, r': State, outcome: Outcome, pushed: set<Arrival>)
    requires Effect(e, q, now, r', outcome, pushed)
    requires e.stream == r.stream && e.generation == r.generation && e.format == r.format
    requires e.completed == r.completed && e.newest == r.newest
    ensures Effect(r, q, now, r', outcome, pushed)
  {
    hide AllAssembling, Trim, Disjoint, Filled, Covered, Decode, PacketBytes;
    if outcome.Ok? && outcome.value.Some? {
      var f := outcome.value.value;
      var pieces :| MadeOf(e, f, pieces, pushed);
      assert MadeOf(r, f, pieces, pushed);
    }
  }

  lemma PiecesFor(r: State, h: Header, now: nat, pushed: set<Arrival>) returns (pieces: map<nat, Arrival>)
    requires AllAssembling(r, pushed)
    ensures Assembled(r, PartialFor(r, h, now), h.sequence, pieces, pushed)
    ensures pieces != map[] <==> h.sequence in r.partials
  {
    NothingYet(r, h, now, pushed);
    if h.sequence in r.partials {
      assert Assembling(r, h.sequence, pushed);
      pieces :| pieces != map[] && Assembled(r, r.partials[h.sequence], h.sequence, pieces, pushed);
    } else {
      pieces := map[];
    }
  }

  ghost predicate PushEffect(r: State, now: nat, r': State, outcome: Outcome, pushed: set<Arrival>) {
    if outcome.Ok? && outcome.value.Some? then
      && outcome.value.value.sequence !in r.completed && !TooOld(r, outcome.value.value.sequence)
      && Effect(r, outcome.value.value.sequence, now, r', outcome, pushed)
    else
      AllAssembling(r', pushed) && |r'.partials| <= MAX_PARTIALS && r'.completed == r.completed && r'.newest == r.newest
  }

  lemma PushKeeps(r: State, p: Arrival, now: nat, pushed: set<Arrival>)
    requires AllAssembling(r, pushed) && Shaped(r) && |r.partials| <= MAX_PARTIALS && Latest(p, now, pushed)
    ensures var (r', outcome) := Push(r, p.bytes, now);
            PushEffect(r, now, r', outcome, pushed)
  {
    hide Decode, Consistent, Store, AllAssembling, Shaped, Smallest, Effect, MakeRoom, Push;
    ExpireKeeps(r, now, pushed);
    PushCases(r, p.bytes, now);
    var e := Expire(r, now);
    FewerPartials(e, e.(duplicates := e.duplicates + 1), pushed);
    FewerPartials(e, e.(rejected := e.rejected + 1), pushed);
    if Admitted(r, p.bytes) {
      StoreWithRoom(r, p, now, pushed);
    }
  }

  lemma StoreWithRoom(r: State, p: Arrival, now: nat, pushed: set<Arrival>)
    requires AllAssembling(r, pushed) && Shaped(r) && |r.partials| <= MAX_PARTIALS && Latest(p, now, pushed)
    requires Decode(p.bytes).Ok? && HEADER_BYTES < |p.bytes|
             && Consistent(Decode(p.bytes).value, p.bytes[HEADER_BYTES..])
    requires var h := Decode(p.bytes).value;
             && h.stream == r.stream && h.generation == r.generation && h.format == r.format
             && h.sequence !in r.completed && !TooOld(r, h.sequence)
    ensures var h := Decode(p.bytes).value;
            var room := MakeRoom(Expire(r, now), h.sequence);
            && Shaped(room)
            && var (r', outcome) := Store(room, h, p.bytes[HEADER_BYTES..], now);
            PushEffect(r, now, r', outcome, pushed)
  {
    hide Decode, Consistent, Store, AllAssembling, Smallest, Effect;
    var h := Decode(p.bytes).value;
    ExpireKeeps(r, now, pushed);
    RoomKeeps(Expire(r, now), h.sequence, pushed);
    var room := MakeRoom(Expire(r, now), h.sequence);
    assert Young(room, now) by { hide Shaped; }
    hide Shaped, Young, Latest, Expire, MakeRoom, TooOld;
    StoreKeeps(room, p, now, pushed);
    var (r', outcome) := Store(room, h, p.bytes[HEADER_BYTES..], now);
    SameEffect(r, room, h.sequence, now, r', outcome, pushed);
    EffectSays(r, h.sequence, now, r', outcome, pushed);
  }

  lemma EffectSays(r: State, q: nat, now: nat, r': State, outcome: Outcome, pushed: set<Arrival>)
    requires Effect(r, q, now, r', outcome, pushed)
    ensures AllAssembling(r', pushed) && |r'.partials| <= MAX_PARTIALS
    ensures if outcome.Ok? && outcome.value.Some? then outcome.value.value.sequence == q
            else r'.completed == r.completed && r'.newest == r.newest
  {
  }

  // ----- Main results

  lemma WindowAfter(r: State, emitted: set<nat>, now: nat, r': State, outcome: Outcome, pushed: set<Arrival>)
    requires Window(r, emitted) && PushEffect(r, now, r', outcome, pushed)
    ensures AllAssembling(r', pushed) && |r'.partials| <= MAX_PARTIALS
    ensures Window(r', emitted + Emission(outcome))
  {
    hide AllAssembling, Assembly, TooOld;
    if Emission(outcome) != {} {
      hide Window, Trim;
      EmissionKeepsWindow(r, emitted, outcome.value.value.sequence, r');
    }
  }

  lemma LatestArrives(t: Trace, d: Datagram)
    requires Before(t.pushed, t.count)
    ensures Latest(Arriving(t, d), d.now, t.pushed + {Arriving(t, d)})
    ensures Before(t.pushed + {Arriving(t, d)}, t.count + 1)
  {
  }

  lemma ReceivedKeepsInv(t: Trace, d: Datagram)
    requires Inv(t)
    ensures Inv(Received(t, d))
  {
    hide Push, AllAssembling, Shaped, PushEffect, Window, Latest;
    LatestArrives(t, d);
    MorePushed(t.r, t.pushed, Arriving(t, d));
    PushKeeps(t.r, Arriving(t, d), d.now, t.pushed + {Arriving(t, d)});
    PushKeepsShape(t.r, d.bytes, d.now);
    var (r, outcome) := Push(t.r, d.bytes, d.now);
    WindowAfter(t.r, t.emitted, d.now, r, outcome, t.pushed + {Arriving(t, d)});
  }

  /** A new reassembler after any list of datagrams. */
  function Run(start: State, datagrams: seq<Datagram>): (t: Trace)
    requires start == State(start.stream, start.generation, start.format, map[], {}, None, 0, 0, 0)
    ensures Inv(t)
  {
    if datagrams == [] then Trace(start, {}, 0, {})
    else
      var before := Run(start, datagrams[..|datagrams| - 1]);
      ReceivedKeepsInv(before, datagrams[|datagrams| - 1]);
      Received(before, datagrams[|datagrams| - 1])
  }

  predicate Emits(r: State, d: Datagram, frame: Frame)
    requires Shaped(r)
  {
    Push(r, d.bytes, d.now).1 == Ok(Some(frame))
  }

  lemma EmissionSays(t: Trace, d: Datagram, frame: Frame)
    requires Inv(t) && Emits(t.r, d, frame)
    ensures frame.sequence !in t.r.completed && !TooOld(t.r, frame.sequence)
    ensures Assembly(t.r, frame, t.pushed + {Arriving(t, d)})
  {
    hide Push, AllAssembling, Shaped, Assembly, Window, Trim, Latest;
    LatestArrives(t, d);
    MorePushed(t.r, t.pushed, Arriving(t, d));
    PushKeeps(t.r, Arriving(t, d), d.now, t.pushed + {Arriving(t, d)});
  }

  function Arrivals(datagrams: seq<Datagram>): set<Arrival> {
    set k | 0 <= k < |datagrams| :: Arrival(datagrams[k].bytes, datagrams[k].now, k)
  }

  lemma {:induction false} PushedAreArrivals(start: State, datagrams: seq<Datagram>)
    requires start == State(start.stream, start.generation, start.format, map[], {}, None, 0, 0, 0)
    ensures Run(start, datagrams).pushed == Arrivals(datagrams) && Run(start, datagrams).count == |datagrams|
    decreases |datagrams|
  {
    hide Inv, Push;
    if datagrams != [] {
      var n := |datagrams| - 1;
      PushedAreArrivals(start, datagrams[..n]);
      ArrivalsGrow(datagrams[..n], datagrams[n]);
      assert datagrams[..n] + [datagrams[n]] == datagrams;
    }
  }

  lemma ArrivalsGrow(datagrams: seq<Datagram>, d: Datagram)
    ensures Arrivals(datagrams + [d]) == Arrivals(datagrams) + {Arrival(d.bytes, d.now, |datagrams|)}
  {
    var all := datagrams + [d];
    forall a | a in Arrivals(datagrams) + {Arrival(d.bytes, d.now, |datagrams|)} ensures a in Arrivals(all) {
      assert a == Arrival(all[a.place].bytes, all[a.place].now, a.place);
    }
  }

  /**
   Each emitted frame consists of datagrams that arrived for it, each byte coming from exactly one of them, and all of
   them arrived less than 20 ms after the first of them.
   */
  lemma EmittedFramesAreAssembled(start: State, datagrams: seq<Datagram>, d: Datagram, frame: Frame)
    requires start == State(start.stream, start.generation, start.format, map[], {}, None, 0, 0, 0)
    requires Emits(Run(start, datagrams).r, d, frame)
    ensures Assembly(Run(start, datagrams).r, frame, Arrivals(datagrams + [d]))
  {
    hide Run, Inv, Emits, Assembly, Arrivals;
    EmissionSays(Run(start, datagrams), d, frame);
    PushedAreArrivals(start, datagrams);
    ArrivalsGrow(datagrams, d);
  }

  /** The numbers above low, up to high. */
  function Interval(low: nat, high: nat): (numbers: set<nat>)
    ensures forall x :: x in numbers <==> low < x <= high
  {
    if high <= low then {} else Interval(low, high - 1) + {high}
  }

  lemma {:induction false} IntervalSize(low: nat, high: nat)
    requires low <= high
    ensures |Interval(low, high)| == high - low
    decreases high - low
  {
    if low < high {
      IntervalSize(low, high - 1);
    }
  }

  lemma KeptAbove(r: State, emitted: set<nat>, kept: nat, x: nat)
    requires Window(r, emitted) && kept in r.completed && kept <= x && x in emitted
    ensures x in r.completed
  {
    assert x !in emitted - r.completed;
  }

  lemma KeptAfterGone(r: State, emitted: set<nat>, gone: nat)
    requires Window(r, emitted) && gone in emitted && gone !in r.completed
    ensures r.completed <= Interval(gone, r.newest.value) && |r.completed| == DUPLICATE_WINDOW
  {
    assert gone in emitted - r.completed;
  }

  /** Which emitted sequence numbers have left the window although they are not too old. */
  lemma ForgottenExactlyWhen(r: State, emitted: set<nat>, q: nat)
    requires Window(r, emitted) && q in emitted
    ensures q !in r.completed && !TooOld(r, q)
            <==> r.newest.value == q + DUPLICATE_WINDOW && Interval(q, r.newest.value) <= emitted
  {
    var newest := r.newest.value;
    var above := Interval(q, newest);
    hide Window;
    IntervalSize(q, newest);
    if q !in r.completed {
      KeptAfterGone(r, emitted, q);
      SubsetSize(r.completed, above);
      if newest == q + DUPLICATE_WINDOW {
        SameSize(r.completed, above);
      }
    } else if newest == q + DUPLICATE_WINDOW {
      var tight := if above <= emitted then above + {q} else {};
      forall x | x in tight ensures x in r.completed {
        KeptAbove(r, emitted, q, x);
      }
      SubsetSize(tight, r.completed);
    }
  }

  lemma SameSize(part: set<nat>, whole: set<nat>)
    requires part <= whole && |part| == |whole|
    ensures part == whole
  {
    assert whole == part + (whole - part);
  }

  lemma TraceWindow(t: Trace)
    requires Inv(t)
    ensures Window(t.r, t.emitted) && (t.emitted != {} ==> t.r.newest.Some?)
  {
    hide AllAssembling, Shaped;
  }

  /** A frame fewer than 128 behind the newest comes out once; further behind nothing comes out, old or new. */
  lemma NothingTwiceWithinTheWindow(start: State, datagrams: seq<Datagram>, d: Datagram, frame: Frame)
    requires start == State(start.stream, start.generation, start.format, map[], {}, None, 0, 0, 0)
    requires Emits(Run(start, datagrams).r, d, frame)
    ensures var t := Run(start, datagrams);
            && (t.r.newest.Some? ==> t.r.newest.value <= frame.sequence + DUPLICATE_WINDOW)
            && (frame.sequence in t.emitted ==>
                  t.r.newest == Some(frame.sequence + DUPLICATE_WINDOW)
                  && Interval(frame.sequence, t.r.newest.value) <= t.emitted)
  {
    hide Run, Inv, Emits, Assembly, Interval, Window, AllAssembling, Shaped;
    var t := Run(start, datagrams);
    TraceWindow(t);
    EmissionSays(t, d, frame);
    if frame.sequence in t.emitted {
      ForgottenExactlyWhen(t.r, t.emitted, frame.sequence);
    }
  }

  /** A frame sent in one datagram comes out at once when push admits it and holds nothing of it. */
  lemma OneDatagramFrame(r: State, s: Source, now: nat)
    requires A.Sendable(s) && A.Count(s) == 1 && Shaped(r)
    requires s.stream == r.stream && s.generation == r.generation && s.format == r.format
    requires s.sequence !in r.completed && !TooOld(r, s.sequence) && s.sequence !in Expire(r, now).partials
    ensures Emits(r, Datagram(Fragment(s, 0), now), A.FrameOf(s))
  {
    var p := Fragment(s, 0);
    var h := HeaderOf(s, 0);
    FragmentDecodes(s, 0);
    PushCases(r, p, now);
    var room := MakeRoom(Expire(r, now), s.sequence);
    hide Push, Expire, MakeRoom;
    OneFragmentStored(room, s, now);
  }

  lemma OneFragmentStored(room: State, s: Source, now: nat)
    requires A.Sendable(s) && A.Count(s) == 1 && Shaped(room)
    requires s.format == room.format && s.sequence !in room.partials
    requires Consistent(HeaderOf(s, 0), Chunk(s, 0))
    ensures Store(room, HeaderOf(s, 0), Chunk(s, 0), now).1 == Ok(Some(A.FrameOf(s)))
  {
    var h := HeaderOf(s, 0);
    StoreCases(room, h, Chunk(s, 0), now);
    var part := FreshPartial(h, now);
    A.FreshGathered(s, 0, now);
    A.WriteGathers(part, s, {}, now, 0);
    A.IndicesAreBelow(1);
    assert {} + {0} == A.AllIndices(s);
    A.CompleteIsWhole(Write(part, 0, h.offset, Chunk(s, 0)), s, now);
    hide Store, Trim, Write, Overlaps, A.Gathered, A.AllIndices, A.Count, EncodeCheck, Consistent;
  }

  function Whole(start: State, sequence: nat): Source {
    var total := PacketBytes(start.format);
    Source(start.stream, start.generation, sequence, 0, start.format, seq(total, _ => 0), HEADER_BYTES + total)
  }

  lemma WholeIsOneDatagram(start: State, sequence: nat)
    requires ValidFormat(start.format) && |start.stream| == 16 && 0 < start.generation < U64_LIMIT
             && sequence < U64_LIMIT
    ensures A.Sendable(Whole(start, sequence)) && A.Count(Whole(start, sequence)) == 1
  {
    PacketBytesBounds(start.format);
    A.QuotientIsRow(2 * PacketBytes(start.format) - 1, PacketBytes(start.format), 1);
  }

  lemma LateEnough(r: State, sequence: nat) returns (now: nat)
    ensures sequence !in Expire(r, now).partials
  {
    now := if sequence in r.partials then r.partials[sequence].since + REASSEMBLY_MS else 0;
  }

  lemma ComesOutAgain(start: State, datagrams: seq<Datagram>, sequence: nat) returns (d: Datagram, frame: Frame)
    requires start == State(start.stream, start.generation, start.format, map[], {}, None, 0, 0, 0)
    requires ValidFormat(start.format) && |start.stream| == 16 && 0 < start.generation < U64_LIMIT
             && sequence < U64_LIMIT
    requires sequence !in Run(start, datagrams).r.completed && !TooOld(Run(start, datagrams).r, sequence)
    ensures Emits(Run(start, datagrams).r, d, frame) && frame.sequence == sequence
  {
    hide Run, Window, Emits, Shaped, AllAssembling, A.Count, A.Sendable, Expire, TooOld, Push, PacketBytes;
    var t := Run(start, datagrams);
    var s := Whole(start, sequence);
    var now := LateEnough(t.r, sequence);
    WholeIsOneDatagram(start, sequence);
    RunKeepsStream(start, datagrams);
    OneDatagramFrame(t.r, s, now);
    d, frame := Datagram(Fragment(s, 0), now), A.FrameOf(s);
  }

  /** An emitted frame can come out again exactly when it is 128 behind the newest and all between them came out. */
  lemma TwiceExactlyAtTheEdge(start: State, datagrams: seq<Datagram>, sequence: nat)
    requires start == State(start.stream, start.generation, start.format, map[], {}, None, 0, 0, 0)
    requires ValidFormat(start.format) && |start.stream| == 16 && 0 < start.generation < U64_LIMIT
             && sequence < U64_LIMIT
    requires sequence in Run(start, datagrams).emitted
    ensures var t := Run(start, datagrams);
            (exists d, frame :: Emits(t.r, d, frame) && frame.sequence == sequence)
            <==> t.r.newest == Some(sequence + DUPLICATE_WINDOW) && Interval(sequence, t.r.newest.value) <= t.emitted
  {
    var t := Run(start, datagrams);
    hide Run, Window, Interval, Emits, Shaped, AllAssembling, TooOld;
    ForgottenExactlyWhen(t.r, t.emitted, sequence);
    if t.r.newest == Some(sequence + DUPLICATE_WINDOW) && Interval(sequence, t.r.newest.value) <= t.emitted {
      var d, frame := ComesOutAgain(start, datagrams, sequence);
    }
    forall d, frame | Emits(t.r, d, frame) && frame.sequence == sequence
      ensures t.r.newest == Some(sequence + DUPLICATE_WINDOW) && Interval(sequence, t.r.newest.value) <= t.emitted
    {
      NothingTwiceWithinTheWindow(start, datagrams, d, frame);
    }
  }

  lemma RunNext(start: State, datagrams: seq<Datagram>, d: Datagram)
    requires start == State(start.stream, start.generation, start.format, map[], {}, None, 0, 0, 0)
    ensures Run(start, datagrams + [d]) == Received(Run(start, datagrams), d)
  {
    hide Inv, Received;
    assert (datagrams + [d])[..|datagrams|] == datagrams;
  }

  lemma ReceivedEmits(t: Trace, d: Datagram, frame: Frame)
    requires Shaped(t.r) && Emits(t.r, d, frame)
    ensures Received(t, d).emitted == t.emitted + {frame.sequence}
  {
    hide Push;
  }

  lemma OneMoreArrival(start: State, datagrams: seq<Datagram>, d: Datagram, frame: Frame)
    requires start == State(start.stream, start.generation, start.format, map[], {}, None, 0, 0, 0)
    requires Emits(Run(start, datagrams).r, d, frame)
    ensures Run(start, datagrams + [d]).emitted == Run(start, datagrams).emitted + {frame.sequence}
  {
    hide Run, Shaped, AllAssembling, Window, Received, Emits;
    RunNext(start, datagrams, d);
    ReceivedEmits(Run(start, datagrams), d, frame);
  }

  lemma NothingOutAtStart(start: State)
    requires start == State(start.stream, start.generation, start.format, map[], {}, None, 0, 0, 0)
    ensures Run(start, []).emitted == {}
  {
  }

  /** A number just above all the emitted ones is admitted, and once emitted it is the newest. */
  lemma NextInARow(r: State, emitted: set<nat>, low: nat, next: nat)
    requires Window(r, emitted) && low <= next && forall q :: q in emitted <==> low <= q < next
    ensures next !in r.completed && !TooOld(r, next)
    ensures low < next ==> r.newest == Some(next - 1)
  {
    assert low < next ==> next - 1 in emitted;
  }

  /** Single datagrams bring out n frames in a row. */
  lemma {:induction false} ComeOutInARow(start: State, low: nat, n: nat) returns (datagrams: seq<Datagram>)
    requires start == State(start.stream, start.generation, start.format, map[], {}, None, 0, 0, 0)
    requires ValidFormat(start.format) && |start.stream| == 16 && 0 < start.generation < U64_LIMIT
             && low + n <= U64_LIMIT
    ensures forall q :: q in Run(start, datagrams).emitted <==> low <= q < low + n
    ensures n > 0 ==> Run(start, datagrams).r.newest == Some(low + n - 1)
  {
    hide Run, Emits, AllAssembling, Shaped, Window;
    if n == 0 {
      datagrams := [];
      NothingOutAtStart(start);
    } else {
      var before := ComeOutInARow(start, low, n - 1);
      NextInARow(Run(start, before).r, Run(start, before).emitted, low, low + n - 1);
      var d, frame := ComesOutAgain(start, before, low + n - 1);
      OneMoreArrival(start, before, d, frame);
      datagrams := before + [d];
      NextInARow(Run(start, datagrams).r, Run(start, datagrams).emitted, low, low + n);
    }
  }

  /** It does happen: after a frame and the 128 that follow it, the frame is emitted once more. */
  lemma AFrameComesOutTwice(start: State, sequence: nat) returns (datagrams: seq<Datagram>, d: Datagram, frame: Frame)
    requires start == State(start.stream, start.generation, start.format, map[], {}, None, 0, 0, 0)
    requires ValidFormat(start.format) && |start.stream| == 16 && 0 < start.generation < U64_LIMIT
    requires sequence + DUPLICATE_WINDOW < U64_LIMIT
    ensures sequence in Run(start, datagrams).emitted
    ensures Emits(Run(start, datagrams).r, d, frame) && frame.sequence == sequence
  {
    datagrams := ComeOutInARow(start, sequence, DUPLICATE_WINDOW + 1);
    hide Run, Emits;
    TwiceExactlyAtTheEdge(start, datagrams, sequence);
    d, frame :| Emits(Run(start, datagrams).r, d, frame) && frame.sequence == sequence;
  }

  lemma StoreKeepsStream(r: State, h: Header, chunk: seq<byte>, now: nat)
    requires Shaped(r) && h.format == r.format && Consistent(h, chunk)
    ensures var r' := Store(r, h, chunk, now).0;
            r'.stream == r.stream && r'.generation == r.generation && r'.format == r.format
  {
    StoreCases(r, h, chunk, now);
    hide Store, Write, Trim, PacketBytes, Consistent, PartialFor, Accepts;
  }

  lemma PushKeepsStream(r: State, p: seq<byte>, now: nat)
    requires Shaped(r)
    ensures var r' := Push(r, p, now).0;
            r'.stream == r.stream && r'.generation == r.generation && r'.format == r.format
  {
    PushCases(r, p, now);
    hide Decode, Push, Store, Smallest, Consistent, Shaped;
    if Admitted(r, p) {
      var room := MakeRoom(Expire(r, now), Decode(p).value.sequence);
      StoreKeepsStream(room, Decode(p).value, p[HEADER_BYTES..], now);
    }
  }

  lemma {:induction false} RunKeepsStream(start: State, datagrams: seq<Datagram>)
    requires start == State(start.stream, start.generation, start.format, map[], {}, None, 0, 0, 0)
    ensures var r := Run(start, datagrams).r;
            r.stream == start.stream && r.generation == start.generation && r.format == start.format
    decreases |datagrams|
  {
    if datagrams != [] {
      var n := |datagrams| - 1;
      RunKeepsStream(start, datagrams[..n]);
      PushKeepsStream(Run(start, datagrams[..n]).r, datagrams[n].bytes, datagrams[n].now);
      hide Push, Inv;
    }
  }
}
