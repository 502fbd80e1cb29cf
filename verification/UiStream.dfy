/** The revisioned stream from the aggregator to its subscribers: emission, replay, rebuild, lag recovery. */
module UiStream {
  import opened Common
  import opened UiState

  const REPLAY_CAPACITY: nat := 1024

  /** What readers of the latest state see: a full snapshot, and newer values of the realtime parts. */
  datatype Published = Published(base: Snapshot, cursor: Cursor, pointer: Option<Pointer>, gamepads: seq<Gamepad>)

  function PublishedFrom(s: Snapshot): Published {
    Published(s, CursorOf(s), s.dynamic.pointer, s.dynamic.gamepads)
  }

  function Materialize(p: Published): Snapshot {
    p.base.(boot := p.cursor.boot, revision := p.cursor.revision,
            dynamic := p.base.dynamic.(pointer := p.pointer, gamepads := p.gamepads))
  }

  /**
   The actor's stream state. log is everything ever broadcast, states[i] the snapshot after log[..i],
   start the index of the current boot's first snapshot, reliable the current boot's reliable deltas.
   */
  datatype Server = Server(
    view: View,
    sequencer: Cursor,
    replay: seq<Delta>,
    published: Published,
    alive: bool,
    log: seq<Envelope>,
    states: seq<Snapshot>,
    start: nat,
    reliable: seq<Delta>)

  // ----- The actor's steps

  function PublishView(p: Published, snapshot: Snapshot, change: Change, full: bool): Published {
    Published(
      if full then snapshot else p.base,
      CursorOf(snapshot),
      if change.PointerChange? then Some(change.pointer) else p.pointer,
      if change.GamepadsChange? then change.gamepads else p.gamepads)
  }

  function Remember(replay: seq<Delta>, d: Delta): seq<Delta> {
    (if |replay| == REPLAY_CAPACITY then replay[1..] else replay) + [d]
  }

  /** apply_delta with emit_reliable or emit_realtime around it: the server, and whether it succeeded. */
  function Emit(s: Server, change: Change, reliable: bool): (Server, bool) {
    if s.sequencer.revision + 1 >= U64_LIMIT then (s, false)
    else
      var d := Delta(s.sequencer.boot, s.sequencer.revision + 1, change);
      var applied := Apply(s.view, Changed(d));
      if applied.error.Some? then (s.(view := applied.view), false)
      else
        (s.(view := applied.view,
            sequencer := s.sequencer.(revision := d.revision),
            published := PublishView(s.published, applied.view.snapshot, change, reliable),
            log := s.log + [Changed(d)],
            states := s.states + [applied.view.snapshot],
            replay := if reliable then Remember(s.replay, d) else s.replay,
            reliable := if reliable then s.reliable + [d] else s.reliable), true)
  }

  /** The server started over from an authoritative snapshot under a new boot, or stopped without one. */
  function Rebuild(s: Server, projection: Option<Snapshot>): Server {
    if projection.None? || Prepare(projection.value).Err? then s.(alive := false)
    else
      var renewed := Prepare(projection.value).value.(boot := s.sequencer.boot + 1, revision := 0);
      s.(view := View(renewed, false),
         sequencer := CursorOf(renewed),
         replay := [],
         published := PublishedFrom(renewed),
         log := s.log + [ResyncRequired(renewed.boot, renewed.revision, ProjectionRebuilt), Full(renewed)],
         states := s.states + [s.view.snapshot, renewed],
         start := |s.log| + 2,
         reliable := [])
  }

  function EmitReliable(s: Server, change: Change, projection: Option<Snapshot>): Server {
    var (s', ok) := Emit(s, change, true);
    if ok then s' else Rebuild(s', projection)
  }

  function EmitRealtime(s: Server, change: Change): Server {
    var (s', ok) := Emit(s, change, false);
    if ok then s' else s'.(alive := false)
  }

  // ----- Subscribing

  /** The retained deltas from a revision on. */
  function NewerThan(replay: seq<Delta>, expected: nat): seq<Delta> {
    if replay == [] then []
    else (if replay[0].revision >= expected then [replay[0]] else []) + NewerThan(replay[1..], expected)
  }

  predicate Contiguous(replay: seq<Delta>, expected: nat, current: nat) {
    && (forall k :: 0 <= k < |replay| ==> replay[k].revision == expected + k)
    && replay != [] && replay[|replay| - 1].revision == current
  }

  function Resync(s: Snapshot, reason: ResyncReason): seq<Envelope> {
    [ResyncRequired(s.boot, s.revision, reason), Full(s)]
  }

  function Envelopes(deltas: seq<Delta>): seq<Envelope> {
    seq(|deltas|, i requires 0 <= i < |deltas| => Changed(deltas[i]))
  }

  /** What a new subscriber is given before the live stream. */
  function Backlog(s: Server, cursor: Option<Cursor>): seq<Envelope> {
    var snapshot := s.view.snapshot;
    if cursor.None? then [Full(snapshot)]
    else if cursor.value.boot != snapshot.boot then Resync(snapshot, BootChanged)
    else if cursor.value.revision > snapshot.revision then Resync(snapshot, RevisionGapped)
    else if cursor.value.revision == snapshot.revision then []
    else
      var expected := Min(cursor.value.revision + 1, U64_LIMIT - 1);
      var replay := NewerThan(s.replay, expected);
      if Contiguous(replay, expected, snapshot.revision) then Envelopes(replay) else Resync(snapshot, HistoryExpired)
  }

  // ----- Subscribers

  /**
   A subscriber and the view it folds. recovering: it lagged and waits for the actor's answer. stray: its recovery was
   dropped, or a heartbeat overtook what it has not read, and it has not read a full snapshot since.
   */
  datatype Client = Client(view: View, pending: seq<Envelope>, position: nat, recovering: bool, stray: bool := false)

  datatype System = System(server: Server, clients: map<nat, Client>)

  datatype Action =
    | Reliable(change: Change, projection: Option<Snapshot>)
    | RealtimePointer(pointer: Pointer)
    | RealtimeGamepads(gamepads: seq<Gamepad>)
    | Rebuilding(projection: Option<Snapshot>)
    | Subscribe(client: nat, view: View, withCursor: bool)
    | Receive(client: nat)
    | Lag(client: nat)
    | Recovered(client: nat)
    | DropRecovery(client: nat, oldest: nat)
    | Beat(client: nat)

  /** The view's state is what the server published at its cursor, if the cursor is one that can be resumed. */
  predicate Trustworthy(s: Server, snapshot: Snapshot) {
    (snapshot.boot == s.view.snapshot.boot && snapshot.revision <= s.view.snapshot.revision
     && s.start + snapshot.revision < |s.states|)
    ==> snapshot == s.states[s.start + snapshot.revision]
  }

  /** A client resumes only from a view that is in step; otherwise it asks for a full snapshot. */
  predicate MaySubscribe(s: Server, view: View, withCursor: bool) {
    s.alive && (withCursor ==> !view.needsResync && Trustworthy(s, view.snapshot))
  }

  function Next(sys: System, c: Client): Option<Envelope> {
    if c.pending != [] then Some(c.pending[0])
    else if !c.recovering && c.position < |sys.server.log| then Some(sys.server.log[c.position])
    else None
  }

  function ReceiveStep(sys: System, c: Client): Client {
    var e := Next(sys, c);
    if e.None? then c
    else
      var view := Apply(c.view, e.value).view;
      var stray := c.stray && !e.value.Full?;
      if c.pending != [] then c.(view := view, pending := c.pending[1..], stray := stray)
      else c.(view := view, position := c.position + 1, stray := stray)
  }

  /** The heartbeat that the websocket server sends on a tick, whatever the subscriber has not read yet. */
  function HeartbeatOf(s: Server): Envelope {
    Heartbeat(s.published.cursor.boot, s.published.cursor.revision)
  }

  function BeatStep(s: Server, c: Client): Client {
    var view := Apply(c.view, HeartbeatOf(s)).view;
    c.(view := view, stray := c.stray || view != c.view)
  }

  /** A receive dropped while it waits for the actor's answer goes on with the oldest retained entry. */
  function Dropped(c: Client, oldest: nat): Client {
    c.(position := oldest, recovering := false, stray := true)
  }

  function Step(sys: System, a: Action): System {
    var s := sys.server;
    match a
    case Reliable(change, projection) => if s.alive then sys.(server := EmitReliable(s, change, projection)) else sys
    case RealtimePointer(pointer) => if s.alive then sys.(server := EmitRealtime(s, PointerChange(pointer))) else sys
    case RealtimeGamepads(gamepads) => if s.alive then sys.(server := EmitRealtime(s, GamepadsChange(gamepads)))
        else sys
    case Rebuilding(projection) => if s.alive then sys.(server := Rebuild(s, projection)) else sys
    case Subscribe(id, view, withCursor) =>
      if MaySubscribe(s, view, withCursor) then
        var cursor := if withCursor then Some(CursorOf(view.snapshot)) else None;
        sys.(clients := sys.clients[id := Client(view, Backlog(s, cursor), |s.log|, false)])
      else sys
    case Receive(id) =>
      if id in sys.clients then sys.(clients := sys.clients[id := ReceiveStep(sys, sys.clients[id])]) else sys
    case Lag(id) =>
      if id in sys.clients && sys.clients[id].pending == [] && sys.clients[id].position < |s.log| then
        sys.(clients := sys.clients[id := sys.clients[id].(recovering := true)])
      else sys
    case Recovered(id) =>
      if s.alive && id in sys.clients && sys.clients[id].recovering then
        sys.(clients := sys.clients[id := Client(sys.clients[id].view, Resync(s.view.snapshot, RevisionGapped),
            |s.log|, false)])
      else sys
    case DropRecovery(id, oldest) =>
      if id in sys.clients && sys.clients[id].recovering && sys.clients[id].position < oldest < |s.log| then
        sys.(clients := sys.clients[id := Dropped(sys.clients[id], oldest)])
      else sys
    case Beat(id) =>
      if id in sys.clients && !sys.clients[id].recovering then
        sys.(clients := sys.clients[id := BeatStep(s, sys.clients[id])])
      else sys
  }

  // ----- Invariant

  predicate AfterResync(s: Server, i: nat) {
    0 < i <= |s.log| && s.log[i - 1].ResyncRequired?
  }

  /** Where a view stands that has folded log[..i]. */
  function ViewAt(s: Server, i: nat): View
    requires i < |s.states|
  {
    View(s.states[i], AfterResync(s, i))
  }

  /** Entry i of the log leads from one state to the next. */
  ghost predicate LogStep(s: Server, i: nat)
    requires i < |s.log| && |s.states| == |s.log| + 1
  {
    match s.log[i]
    case Changed(d) =>
      && d.boot == s.states[i].boot && d.revision == s.states[i].revision + 1 < U64_LIMIT
      && Acceptable(d.change) && !AfterResync(s, i)
      && s.states[i + 1] == ApplyChange(s.states[i], d.change).(revision := d.revision)
    case ResyncRequired(_, _, _) =>
      s.states[i + 1] == s.states[i] && i + 1 < |s.log| && s.log[i + 1].Full? && !AfterResync(s, i)
    case Full(snapshot) =>
      AfterResync(s, i) && s.states[i + 1] == snapshot && snapshot.boot > s.states[i].boot && snapshot.revision == 0
    case Heartbeat(_, _) => false
  }

  ghost predicate LogOk(s: Server) {
    && |s.states| == |s.log| + 1
    && (forall i :: 0 <= i < |s.log| ==> LogStep(s, i))
    && (forall i :: 0 <= i < |s.states| ==> Prepared(s.states[i]) && s.states[i].revision < U64_LIMIT)
  }

  /** The current boot's part of the log: its revisions count the entries. */
  ghost predicate BootOk(s: Server) {
    && |s.states| == |s.log| + 1 && s.start <= |s.log|
    && !AfterResync(s, |s.log|) && !AfterResync(s, s.start)
    && (forall i ::
         s.start <= i < |s.states| ==> s.states[i].boot == s.sequencer.boot && s.states[i].revision == i - s.start)
    && (forall i :: s.start <= i < |s.log| ==> s.log[i].Changed?)
    && (forall i :: 0 <= i < s.start ==> s.states[i].boot < s.sequencer.boot)
    && s.states[|s.log|] == s.view.snapshot
  }

  ghost predicate InLog(s: Server, d: Delta) {
    1 <= d.revision && s.start + d.revision <= |s.log| && s.log[s.start + d.revision - 1] == Changed(d)
  }

  ghost predicate Increasing(deltas: seq<Delta>) {
    forall i, j :: 0 <= i < j < |deltas| ==> deltas[i].revision < deltas[j].revision
  }

  /** The replay window is the newest reliable deltas of the current boot. */
  ghost predicate ReplayOk(s: Server) {
    && (forall k :: 0 <= k < |s.reliable| ==> InLog(s, s.reliable[k]))
    && Increasing(s.reliable)
    && s.replay == s.reliable[SaturatingSub(|s.reliable|, REPLAY_CAPACITY)..]
  }

  /** What a rebuild starts from: a failed change may have frozen the view, but spoiled nothing else. */
  ghost predicate Restartable(s: Server) {
    && LogOk(s) && BootOk(s) && ReplayOk(s)
    && s.sequencer == CursorOf(s.view.snapshot)
    && Materialize(s.published) == s.view.snapshot
  }

  ghost predicate ServerInv(s: Server) {
    && LogOk(s) && BootOk(s) && ReplayOk(s)
    && s.sequencer == CursorOf(s.view.snapshot)
    && Materialize(s.published) == s.view.snapshot
    && (s.alive ==> !s.view.needsResync)
  }

  /** pending is a stretch of the log up to the client's position, starting where its view stands. */
  predicate Reading(s: Server, c: Client) {
    && |c.pending| <= c.position <= |s.log| && c.position < |s.states|
    && c.pending == s.log[c.position - |c.pending|..c.position]
    && c.view == ViewAt(s, c.position - |c.pending|)
  }

  /** pending is a resync notice, unless it was read already, and the snapshot of the client's position. */
  ghost predicate Starting(s: Server, c: Client) {
    && c.position <= |s.log| && c.position < |s.states| && !c.recovering
    && c.pending != [] && c.pending[|c.pending| - 1] == Full(s.states[c.position])
    && Prepared(s.states[c.position]) && !AfterResync(s, c.position)
    && (|c.pending| == 1 || (|c.pending| == 2 && c.pending[0].ResyncRequired?))
  }

  /** The snapshot is one that the actor had. */
  ghost predicate WasTrue(s: Server, snapshot: Snapshot) {
    exists j :: 0 <= j < |s.states| && snapshot == s.states[j]
  }

  /** Out of step: pending is a stretch of the log, but the view need not be where that starts. */
  ghost predicate Straying(s: Server, c: Client) {
    && |c.pending| <= c.position <= |s.log|
    && c.pending == s.log[c.position - |c.pending|..c.position]
    && WasTrue(s, c.view.snapshot)
  }

  ghost predicate ClientInv(s: Server, c: Client) {
    && (Starting(s, c) || if c.stray then Straying(s, c) else Reading(s, c))
    && (c.recovering ==> c.pending == [] && c.position < |s.log|)
  }

  ghost predicate Inv(sys: System) {
    ServerInv(sys.server) && forall id :: id in sys.clients ==> ClientInv(sys.server, sys.clients[id])
  }

  // ----- The server's steps keep the invariant

  lemma StepsStay(s: Server, s': Server, i: nat)
    requires |s.states| == |s.log| + 1 && |s'.states| == |s'.log| + 1
    requires s.log <= s'.log && s.states <= s'.states && i < |s.log|
    ensures LogStep(s, i) ==> LogStep(s', i)
  {
    hide ApplyChange, Acceptable;
  }

  /**
   An emission fails when revisions are exhausted or the change is refused; otherwise everything moves on together.
   */
  lemma EmitCases(s: Server, change: Change, reliable: bool)
    requires !s.view.needsResync && s.sequencer == CursorOf(s.view.snapshot)
    ensures var (s', ok) := Emit(s, change, reliable);
            var d := Delta(s.sequencer.boot, s.sequencer.revision + 1, change);
            ok == (d.revision < U64_LIMIT && Acceptable(change))
            && if ok then
                 var next := ApplyChange(s.view.snapshot, change).(revision := d.revision);
                 s' == Server(View(next, false), Cursor(d.boot, d.revision),
                              if reliable then Remember(s.replay, d) else s.replay,
                              PublishView(s.published, next, change, reliable),
                              s.alive, s.log + [Changed(d)], s.states + [next], s.start,
                              if reliable then s.reliable + [d] else s.reliable)
               else s' == s.(view := s'.view) && s'.view.snapshot == s.view.snapshot
  {
    hide ApplyChange, Acceptable;
  }

  lemma OneMoreEntry(s: Server, s': Server)
    requires LogOk(s) && |s'.log| == |s.log| + 1 && |s'.states| == |s.states| + 1
    requires s.log <= s'.log && s.states <= s'.states
    requires LogStep(s', |s.log|) && Prepared(s'.states[|s.log| + 1]) && s'.states[|s.log| + 1].revision < U64_LIMIT
    ensures LogOk(s')
  {
    hide LogStep, Prepared;
    forall i | 0 <= i < |s.log| ensures LogStep(s', i) {
      StepsStay(s, s', i);
    }
  }

  lemma ServerIsCurrent(s: Server)
    requires ServerInv(s)
    ensures LogOk(s) && |s.states| == |s.log| + 1 && s.sequencer == CursorOf(s.view.snapshot)
    ensures s.alive ==> !s.view.needsResync
  {
    hide LogStep, Prepared, BootOk, ReplayOk, Materialize;
  }

  lemma EmitKeepsLog(s: Server, change: Change, reliable: bool)
    requires ServerInv(s) && s.alive
    ensures var s' := Emit(s, change, reliable).0;
            LogOk(s') && s.log <= s'.log && s.states <= s'.states
  {
    hide ServerInv, Emit, PublishView, Remember, ApplyChange, Prepared, Acceptable, LogOk, BootOk, ReplayOk, Increasing,
         Materialize;
    ServerIsCurrent(s);
    CurrentState(s);
    EmitCases(s, change, reliable);
    var (s', ok) := Emit(s, change, reliable);
    var n := |s.log|;
    if ok {
      ChangeKeepsPrepared(s.view.snapshot, change, s.sequencer.revision + 1);
      assert LogStep(s', n);
      OneMoreEntry(s, s');
    } else {
      SameLog(s, s');
    }
  }

  lemma SameLog(s: Server, s': Server)
    requires LogOk(s) && s'.log == s.log && s'.states == s.states
    ensures LogOk(s')
  {
    hide Prepared;
    forall i | 0 <= i < |s.log| ensures LogStep(s', i) {
      StepsStay(s, s', i);
    }
  }

  lemma ChangeKeepsBoot(s: Snapshot, change: Change)
    ensures ApplyChange(s, change).boot == s.boot
  {
  }

  lemma EmitKeepsBoot(s: Server, change: Change, reliable: bool)
    requires ServerInv(s) && s.alive
    ensures BootOk(Emit(s, change, reliable).0)
  {
    EmitCases(s, change, reliable);
    ChangeKeepsBoot(s.view.snapshot, change);
    hide Emit, ReplayOk, Materialize, LogOk, ApplyChange, PublishView, Remember;
  }

  lemma InLogStays(s: Server, s': Server, d: Delta)
    requires InLog(s, d) && s.log <= s'.log && s'.start == s.start
    ensures InLog(s', d) && d.revision <= |s.log| - s.start
  {
  }

  lemma ReplayStays(s: Server, s': Server)
    requires ReplayOk(s) && s.log <= s'.log && s'.start == s.start && s'.reliable == s.reliable && s'.replay == s.replay
    ensures ReplayOk(s')
  {
    hide Increasing, InLog;
    forall k | 0 <= k < |s.reliable| ensures InLog(s', s.reliable[k]) {
      InLogStays(s, s', s.reliable[k]);
    }
  }

  lemma IncreasingAppend(deltas: seq<Delta>, d: Delta)
    requires Increasing(deltas) && forall k :: 0 <= k < |deltas| ==> deltas[k].revision < d.revision
    ensures Increasing(deltas + [d])
  {
  }

  lemma ReplayGrows(s: Server, s': Server, d: Delta)
    requires ReplayOk(s) && s.start <= |s.log| && s'.log == s.log + [Changed(d)] && s'.start == s.start
    requires d.revision == |s.log| - s.start + 1
    requires s'.reliable == s.reliable + [d] && s'.replay == Remember(s.replay, d)
    ensures ReplayOk(s')
  {
    RememberKeepsNewest(s.reliable, s.replay, d);
    NewDeltaInLog(s', d);
    hide Remember, Increasing, InLog;
    forall k | 0 <= k < |s.reliable| ensures InLog(s', s.reliable[k]) && s.reliable[k].revision < d.revision {
      InLogStays(s, s', s.reliable[k]);
    }
    IncreasingAppend(s.reliable, d);
  }

  lemma EmitKeepsReplay(s: Server, change: Change, reliable: bool)
    requires ServerInv(s) && s.alive
    ensures ReplayOk(Emit(s, change, reliable).0)
  {
    EmitCases(s, change, reliable);
    assert |s.log| - s.start == s.sequencer.revision;
    var (s', ok) := Emit(s, change, reliable);
    hide Emit, LogOk, BootOk, ReplayOk, Materialize, ApplyChange, PublishView, Remember;
    if ok && reliable {
      ReplayGrows(s, s', Delta(s.sequencer.boot, s.sequencer.revision + 1, change));
    } else {
      ReplayStays(s, s');
    }
  }

  lemma NewDeltaInLog(s: Server, d: Delta)
    requires 1 <= d.revision && s.start + d.revision == |s.log| && s.log[|s.log| - 1] == Changed(d)
    ensures InLog(s, d)
  {
  }

  lemma RememberKeepsNewest(reliable: seq<Delta>, replay: seq<Delta>, d: Delta)
    requires replay == reliable[SaturatingSub(|reliable|, REPLAY_CAPACITY)..]
    ensures var all := reliable + [d];
            Remember(replay, d) == all[SaturatingSub(|all|, REPLAY_CAPACITY)..]
  {
  }

  /** The latest state can be put together from the last full publication and the realtime parts. */
  lemma EmitKeepsPublished(s: Server, change: Change, reliable: bool)
    requires ServerInv(s) && s.alive && (reliable || change.PointerChange? || change.GamepadsChange?)
    ensures var s' := Emit(s, change, reliable).0;
            Materialize(s'.published) == s'.view.snapshot && s'.sequencer == CursorOf(s'.view.snapshot)
  {
    hide LogOk, BootOk, ReplayOk, Emit, Acceptable;
    EmitCases(s, change, reliable);
    var (s', ok) := Emit(s, change, reliable);
    if ok {
      var p, p' := s.published, s'.published;
      assert p.pointer == s.view.snapshot.dynamic.pointer && p.gamepads == s.view.snapshot.dynamic.gamepads;
      assert p'.pointer == s'.view.snapshot.dynamic.pointer && p'.gamepads == s'.view.snapshot.dynamic.gamepads;
    }
  }

  lemma EmitKeepsInv(s: Server, change: Change, reliable: bool)
    requires ServerInv(s) && s.alive && (reliable || change.PointerChange? || change.GamepadsChange?)
    ensures var (s', ok) := Emit(s, change, reliable);
            ServerInv(s'.(alive := ok)) && s.log <= s'.log && s.states <= s'.states
            && s'.sequencer.boot == s.sequencer.boot
  {
    EmitKeepsLog(s, change, reliable);
    EmitKeepsBoot(s, change, reliable);
    EmitKeepsReplay(s, change, reliable);
    EmitKeepsPublished(s, change, reliable);
    EmitCases(s, change, reliable);
    var (s', ok) := Emit(s, change, reliable);
    AliveIsFree(s', ok);
    hide LogOk, BootOk, ReplayOk, Materialize, ApplyChange, Emit;
  }

  lemma AliveIsFree(s: Server, alive: bool)
    ensures LogOk(s) ==> LogOk(s.(alive := alive))
    ensures BootOk(s) ==> BootOk(s.(alive := alive))
    ensures ReplayOk(s) ==> ReplayOk(s.(alive := alive))
  {
    if LogOk(s) {
      forall i | 0 <= i < |s.log| ensures LogStep(s.(alive := alive), i) {
        StepsStay(s, s.(alive := alive), i);
      }
    }
  }

  lemma PreparedSurvivesRenumbering(s: Snapshot, boot: Id, revision: nat)
    requires Prepared(s)
    ensures Prepared(s.(boot := boot, revision := revision))
  {
  }

  lemma TwoMoreEntries(s: Server, s': Server, notice: Envelope, renewed: Snapshot)
    requires LogOk(s) && !AfterResync(s, |s.log|)
    requires notice.ResyncRequired? && s'.log == s.log + [notice, Full(renewed)]
    requires s'.states == s.states + [s.states[|s.log|], renewed]
    requires Prepared(renewed) && renewed.boot > s.states[|s.log|].boot && renewed.revision == 0
    ensures LogOk(s')
  {
    var n := |s.log|;
    assert Prepared(s.states[n]);
    hide Prepared;
    assert LogStep(s', n) && LogStep(s', n + 1);
    hide LogStep;
    forall i | 0 <= i < n ensures LogStep(s', i) {
      StepsStay(s, s', i);
    }
  }

  lemma RebuildCases(s: Server, projection: Option<Snapshot>)
    ensures var s' := Rebuild(s, projection);
            if projection.None? || Prepare(projection.value).Err? then s' == s.(alive := false)
            else
              var renewed := Prepare(projection.value).value.(boot := s.sequencer.boot + 1, revision := 0);
              && Prepared(renewed)
              && s' == Server(View(renewed, false), CursorOf(renewed), [], PublishedFrom(renewed), s.alive,
                              s.log + [ResyncRequired(renewed.boot, 0, ProjectionRebuilt), Full(renewed)],
                              s.states + [s.view.snapshot, renewed], |s.log| + 2, [])
  {
    if projection.Some? && Prepare(projection.value).Ok? {
      PreparedIsFixed(projection.value);
      PreparedSurvivesRenumbering(Prepare(projection.value).value, s.sequencer.boot + 1, 0);
    }
    hide Prepare, Prepared;
  }

  lemma RebuildKeepsInv(s: Server, projection: Option<Snapshot>)
    requires Restartable(s)
    ensures var s' := Rebuild(s, projection);
            ServerInv(s') && s.log <= s'.log && s.states <= s'.states
  {
    RebuildCases(s, projection);
    var s' := Rebuild(s, projection);
    hide Rebuild, Prepare;
    if projection.None? || Prepare(projection.value).Err? {
      AliveIsFree(s, false);
    } else {
      assert !AfterResync(s, |s.log|);
      TwoMoreEntries(s, s', s'.log[|s.log|], s'.view.snapshot);
      hide LogOk, Prepared;
    }
  }

  // ----- Cursors along the log

  predicate Before(a: Cursor, b: Cursor) {
    a.boot < b.boot || (a.boot == b.boot && a.revision < b.revision)
  }

  lemma {:induction false} CursorsGrow(s: Server, i: nat, j: nat)
    requires LogOk(s) && i <= j <= |s.log|
    ensures var a, b := CursorOf(s.states[i]), CursorOf(s.states[j]);
            a == b || Before(a, b)
    ensures i < j && !(j == i + 1 && s.log[i].ResyncRequired?) ==> Before(CursorOf(s.states[i]), CursorOf(s.states[j]))
    decreases j - i
  {
    if i < j {
      assert LogStep(s, i);
      CursorsGrow(s, i + 1, j);
      if s.log[i].ResyncRequired? && i + 1 < j {
        assert LogStep(s, i + 1);
      }
      if s.log[i].Changed? {
        ChangeKeepsBoot(s.states[i], s.log[i].delta.change);
      }
    }
  }

  /** The actor never has two states under one cursor. */
  lemma OneStatePerCursor(s: Server, i: nat, j: nat)
    requires LogOk(s) && i <= |s.log| && j <= |s.log| && CursorOf(s.states[i]) == CursorOf(s.states[j])
    ensures s.states[i] == s.states[j]
  {
    var low, high := Min(i, j), Max(i, j);
    CursorsGrow(s, low, high);
    if low < high {
      assert LogStep(s, low);
    }
    hide LogStep, Prepared;
  }

  // ----- What a subscriber makes of the stream

  /** Folding entry i of the log brings a view from the state before it to the state after it. */
  lemma ApplyLogEntry(s: Server, i: nat)
    requires LogOk(s) && i < |s.log|
    ensures Apply(ViewAt(s, i), s.log[i])
            == Applied(ViewAt(s, i + 1), if s.log[i].ResyncRequired? then Some(ResyncRequested) else None)
  {
    assert LogStep(s, i) && Prepared(s.states[i + 1]);
    PreparedIsFixed(s.states[i + 1]);
    hide Prepared, Prepare, ApplyChange, Acceptable;
    if s.log[i].ResyncRequired? {
      assert s.states[i + 1] == s.states[i];
    }
  }

  lemma LogGrows(s: Server, s': Server, c: Client)
    requires ClientInv(s, c) && s.log <= s'.log && s.states <= s'.states
    ensures ClientInv(s', c)
  {
    hide Prepared;
    if Starting(s, c) {
      assert Starting(s', c);
    } else if c.stray {
      WasTrueStays(s, s', c.view.snapshot);
      assert Straying(s', c);
    } else {
      assert Reading(s', c);
    }
  }

  lemma WasTrueStays(s: Server, s': Server, snapshot: Snapshot)
    requires WasTrue(s, snapshot) && s.states <= s'.states
    ensures WasTrue(s', snapshot)
  {
    var j :| 0 <= j < |s.states| && snapshot == s.states[j];
    assert s'.states[j] == snapshot;
  }

  lemma StateWasTrue(s: Server, j: nat)
    requires j < |s.states|
    ensures WasTrue(s, s.states[j])
  {
  }

  predicate InStep(before: View, e: Envelope, error: Option<ApplyError>) {
    if before.needsResync then (e.Full? && error.None?) || e.ResyncRequired?
    else error.None? || e.ResyncRequired?
  }

  lemma ReceiveKeeps(sys: System, c: Client)
    requires ServerInv(sys.server) && ClientInv(sys.server, c)
    ensures ClientInv(sys.server, ReceiveStep(sys, c))
    ensures Next(sys, c).Some? && !c.stray ==>
            InStep(c.view, Next(sys, c).value, Apply(c.view, Next(sys, c).value).error)
  {
    hide ServerInv, Prepared, Apply, Reading, Straying;
    if Next(sys, c).Some? {
      if Starting(sys.server, c) {
        StartingReceives(sys, c);
      } else if c.stray {
        StrayReceives(sys, c);
      } else {
        ReaderReceives(sys, c);
      }
    }
  }

  lemma StartingReceives(sys: System, c: Client)
    requires Starting(sys.server, c) && Next(sys, c).Some?
    ensures ClientInv(sys.server, ReceiveStep(sys, c))
    ensures InStep(c.view, Next(sys, c).value, Apply(c.view, Next(sys, c).value).error)
  {
    hide Prepared, ApplyDelta, Prepare;
    var s := sys.server;
    PreparedIsFixed(s.states[c.position]);
    var c' := ReceiveStep(sys, c);
    if |c.pending| == 1 {
      assert c'.pending == [] && s.log[c.position..c.position] == [];
      assert Reading(s, c');
    } else {
      assert c'.pending == [Full(s.states[c.position])];
      assert Starting(s, c');
    }
    hide Reading, Starting;
  }

  lemma ReaderReceives(sys: System, c: Client)
    requires ServerInv(sys.server) && Reading(sys.server, c) && !c.stray && Next(sys, c).Some?
    requires c.recovering ==> c.pending == []
    ensures ClientInv(sys.server, ReceiveStep(sys, c))
    ensures InStep(c.view, Next(sys, c).value, Apply(c.view, Next(sys, c).value).error)
  {
    var s, i := sys.server, c.position - |c.pending|;
    assert !c.recovering && |s.states| == |s.log| + 1;
    LogIsOk(s);
    hide ServerInv, ReceiveStep, Next, Apply, LogStep, Prepared;
    EntryRead(sys, c);
    ApplyLogEntry(s, i);
    assert LogStep(s, i);
    hide LogOk;
    assert Reading(s, ReceiveStep(sys, c));
  }

  /** Whatever entry of the log a view folds, it goes on showing a state that the actor had. */
  lemma StrayApplies(s: Server, v: View, i: nat)
    requires LogOk(s) && i < |s.log| && WasTrue(s, v.snapshot)
    ensures WasTrue(s, Apply(v, s.log[i]).view.snapshot)
    ensures s.log[i].Full? ==> Apply(v, s.log[i]).view == ViewAt(s, i + 1)
  {
    var j :| 0 <= j < |s.states| && v.snapshot == s.states[j];
    assert LogStep(s, i) && Prepared(s.states[i + 1]);
    PreparedIsFixed(s.states[i + 1]);
    StateWasTrue(s, i + 1);
    if CursorOf(s.states[i]) == CursorOf(s.states[j]) {
      OneStatePerCursor(s, i, j);
    }
    hide LogOk, Prepared, Prepare, ApplyChange, Acceptable, WasTrue;
  }

  /** Reading takes the entry after the stretch of the log that the view has seen. */
  lemma EntryRead(sys: System, c: Client)
    requires |c.pending| <= c.position <= |sys.server.log|
    requires c.pending == sys.server.log[c.position - |c.pending|..c.position] && Next(sys, c).Some?
    ensures var s, c', i := sys.server, ReceiveStep(sys, c), c.position - |c.pending|;
            && i < |s.log| && Next(sys, c).value == s.log[i]
            && c' == c.(view := Apply(c.view, s.log[i]).view, pending := c'.pending, position := c'.position,
                        stray := c.stray && !s.log[i].Full?)
            && |c'.pending| <= c'.position <= |s.log| && c'.position - |c'.pending| == i + 1
            && c'.pending == s.log[i + 1..c'.position]
  {
    hide Apply;
  }

  lemma StrayReceives(sys: System, c: Client)
    requires ServerInv(sys.server) && c.stray && Straying(sys.server, c) && Next(sys, c).Some?
    requires c.recovering ==> c.pending == [] && c.position < |sys.server.log|
    ensures ClientInv(sys.server, ReceiveStep(sys, c))
  {
    var s, c' := sys.server, ReceiveStep(sys, c);
    var i := c.position - |c.pending|;
    assert !c.recovering && |s.states| == |s.log| + 1;
    LogIsOk(s);
    hide ServerInv, LogOk, ReceiveStep, Next, WasTrue, Apply;
    EntryRead(sys, c);
    StrayApplies(s, c.view, i);
    assert if s.log[i].Full? then Reading(s, c') else Straying(s, c');
  }

  lemma DropKeeps(s: Server, c: Client, oldest: nat)
    requires ClientInv(s, c) && c.recovering && c.position < oldest < |s.log| && LogOk(s)
    ensures ClientInv(s, Dropped(c, oldest))
  {
    if !c.stray {
      StateWasTrue(s, c.position);
    }
    hide LogOk, WasTrue;
    assert Straying(s, Dropped(c, oldest));
  }

  lemma BeatKeeps(s: Server, c: Client)
    requires ClientInv(s, c) && !c.recovering && LogOk(s)
    ensures ClientInv(s, BeatStep(s, c))
  {
    var c' := BeatStep(s, c);
    if Starting(s, c) {
      assert Starting(s, c');
    } else {
      if !c.stray {
        StateWasTrue(s, c.position - |c.pending|);
      }
      hide LogOk, WasTrue;
      assert c'.view.snapshot == c.view.snapshot;
      assert if c'.stray then Straying(s, c') else Reading(s, c');
    }
  }

  // ----- Resuming from a cursor

  lemma {:induction false} NewerThanIsRetained(replay: seq<Delta>, expected: nat)
    ensures forall d :: d in NewerThan(replay, expected) <==> d in replay && d.revision >= expected
    ensures Increasing(replay) ==> Increasing(NewerThan(replay, expected))
  {
    if replay != [] {
      NewerThanIsRetained(replay[1..], expected);
      assert replay == [replay[0]] + replay[1..];
      if Increasing(replay) {
        IncreasingCons(replay[0], replay[1..], NewerThan(replay[1..], expected));
      }
    }
  }

  lemma IncreasingCons(first: Delta, rest: seq<Delta>, some: seq<Delta>)
    requires Increasing([first] + rest)
    requires Increasing(rest) ==> Increasing(some)
    requires forall d :: d in some ==> d in rest
    ensures Increasing(rest) && Increasing(some) && Increasing([first] + some)
  {
    forall i, j | 0 <= i < j < |rest| ensures rest[i].revision < rest[j].revision {
      assert ([first] + rest)[i + 1].revision < ([first] + rest)[j + 1].revision;
    }
    forall j | 0 <= j < |some| ensures first.revision < some[j].revision {
      assert some[j] in rest;
      var k :| 0 <= k < |rest| && rest[k] == some[j];
      assert ([first] + rest)[0].revision < ([first] + rest)[k + 1].revision;
    }
  }

  lemma ReplayIsInLog(s: Server)
    requires ServerInv(s)
    ensures forall d :: d in s.replay ==> InLog(s, d)
  {
    hide LogOk, BootOk, Materialize, InLog;
    forall d | d in s.replay ensures InLog(s, d) {
      assert d in s.reliable;
    }
  }

  /** A gap-free stretch of retained deltas is the stretch of the log after the cursor. */
  lemma ContiguousIsLog(s: Server, revision: nat, replay: seq<Delta>)
    requires ServerInv(s) && revision < s.view.snapshot.revision
    requires replay == NewerThan(s.replay, revision + 1) && Contiguous(replay, revision + 1, s.view.snapshot.revision)
    ensures Envelopes(replay) == s.log[s.start + revision..]
  {
    CurrentState(s);
    ReplayIsInLog(s);
    hide ServerInv, NewerThan, InLog;
    NewerThanIsRetained(s.replay, revision + 1);
    assert |replay| == s.view.snapshot.revision - revision;
    forall k | 0 <= k < |replay| ensures Changed(replay[k]) == s.log[s.start + revision + k] {
      assert replay[k] in s.replay;
      InLogAt(s, replay[k]);
    }
  }

  lemma InLogAt(s: Server, d: Delta)
    requires InLog(s, d)
    ensures 1 <= d.revision && s.start + d.revision <= |s.log| && s.log[s.start + d.revision - 1] == Changed(d)
  {
  }

  lemma TrustedIsInLog(s: Server, view: View)
    requires ServerInv(s) && MaySubscribe(s, view, true)
    requires view.snapshot.boot == s.view.snapshot.boot && view.snapshot.revision <= s.view.snapshot.revision
    ensures s.start + view.snapshot.revision <= |s.log| && view == ViewAt(s, s.start + view.snapshot.revision)
  {
    hide LogOk, ReplayOk, Prepared, Materialize;
    var i := s.start + view.snapshot.revision;
    assert s.start < i ==> s.log[i - 1].Changed?;
  }

  lemma CurrentState(s: Server)
    requires ServerInv(s)
    ensures s.states[|s.log|] == s.view.snapshot && Prepared(s.view.snapshot) && !AfterResync(s, |s.log|)
    ensures s.start + s.view.snapshot.revision == |s.log| && s.view.snapshot.revision < U64_LIMIT
  {
  }

  predicate Retains(replay: seq<Delta>, revision: nat) {
    exists k :: 0 <= k < |replay| && replay[k].revision == revision
  }

  lemma {:induction false} IncreasingFrom(deltas: seq<Delta>, expected: nat, k: nat)
    requires Increasing(deltas) && k < |deltas| && forall d :: d in deltas ==> d.revision >= expected
    ensures deltas[k].revision >= expected + k
  {
    if k == 0 {
      assert deltas[0] in deltas;
    } else {
      IncreasingFrom(deltas, expected, k - 1);
    }
  }

  lemma {:induction false} RetainedInPlace(deltas: seq<Delta>, expected: nat, upTo: nat)
    requires Increasing(deltas) && expected <= upTo
    requires forall d :: d in deltas ==> d.revision >= expected
    requires forall r :: expected <= r < upTo ==> Retains(deltas, r)
    ensures upTo - expected <= |deltas|
    ensures forall k :: 0 <= k < upTo - expected ==> deltas[k].revision == expected + k
  {
    if upTo > expected {
      RetainedInPlace(deltas, expected, upTo - 1);
      assert Retains(deltas, upTo - 1);
      var m :| 0 <= m < |deltas| && deltas[m].revision == upTo - 1;
      IncreasingFrom(deltas, expected, m);
    }
  }

  lemma HeldBy(deltas: seq<Delta>, d: Delta)
    requires d in deltas
    ensures Retains(deltas, d.revision)
  {
    var k :| 0 <= k < |deltas| && deltas[k] == d;
  }

  lemma NewerRetains(replay: seq<Delta>, expected: nat, r: nat)
    requires expected <= r
    ensures Retains(replay, r) <==> Retains(NewerThan(replay, expected), r)
  {
    NewerThanIsRetained(replay, expected);
    var newer := NewerThan(replay, expected);
    if Retains(replay, r) {
      var k :| 0 <= k < |replay| && replay[k].revision == r;
      HeldBy(newer, replay[k]);
    }
    if Retains(newer, r) {
      var k :| 0 <= k < |newer| && newer[k].revision == r;
      assert newer[k] in newer;
      HeldBy(replay, newer[k]);
    }
  }

  /** The test for a gap-free replay: it passes exactly when every revision after the cursor is retained. */
  lemma ContiguousExactlyWhen(replay: seq<Delta>, expected: nat, current: nat)
    requires Increasing(replay) && expected <= current
    requires forall d :: d in replay ==> d.revision <= current
    ensures Contiguous(NewerThan(replay, expected), expected, current)
            <==> forall r :: expected <= r <= current ==> Retains(replay, r)
  {
    NewerThanIsRetained(replay, expected);
    var newer := NewerThan(replay, expected);
    forall r | expected <= r ensures Retains(replay, r) <==> Retains(newer, r) {
      NewerRetains(replay, expected, r);
    }
    hide NewerThan;
    if Contiguous(newer, expected, current) {
      forall r | expected <= r <= current ensures Retains(newer, r) {
        assert newer[r - expected].revision == r;
      }
    } else if forall r :: expected <= r <= current ==> Retains(replay, r) {
      hide Retains;
      RetainedInPlace(newer, expected, current + 1);
      LastIsCurrent(newer, expected, current);
    }
  }

  lemma LastIsCurrent(deltas: seq<Delta>, expected: nat, current: nat)
    requires Increasing(deltas) && expected <= current && current - expected < |deltas|
    requires forall d :: d in deltas ==> expected <= d.revision <= current
    ensures |deltas| == current - expected + 1
  {
    IncreasingFrom(deltas, expected, |deltas| - 1);
    assert deltas[|deltas| - 1] in deltas;
  }

  /**
   Resuming from a cursor of the current boot sends deltas exactly when all the revisions after it are still
   retained.
   */
  lemma ResumesExactlyWhen(s: Server, cursor: Cursor)
    requires ServerInv(s) && cursor.boot == s.view.snapshot.boot && cursor.revision < s.view.snapshot.revision
    ensures var backlog := Backlog(s, Some(cursor));
            if forall r :: cursor.revision < r <= s.view.snapshot.revision ==> Retains(s.replay, r) then
              backlog == s.log[s.start + cursor.revision..]
            else backlog == Resync(s.view.snapshot, HistoryExpired)
  {
    hide LogOk, BootOk, Materialize, InLog, NewerThan, Contiguous, Retains, Envelopes, Resync, Increasing;
    var current := s.view.snapshot.revision;
    CurrentState(s);
    ReplayIncreases(s.reliable, s.replay);
    ReplayIsPast(s);
    hide ServerInv;
    ContiguousExactlyWhen(s.replay, cursor.revision + 1, current);
    var replay := NewerThan(s.replay, cursor.revision + 1);
    if Contiguous(replay, cursor.revision + 1, current) {
      ContiguousIsLog(s, cursor.revision, replay);
    }
  }

  lemma ReplayIsPast(s: Server)
    requires ServerInv(s)
    ensures forall d :: d in s.replay ==> d.revision <= s.view.snapshot.revision
  {
    CurrentState(s);
    forall d | d in s.replay ensures d.revision <= s.view.snapshot.revision {
      assert d in s.reliable;
      assert InLog(s, d);
    }
  }

  lemma ReplayIncreases(reliable: seq<Delta>, replay: seq<Delta>)
    requires Increasing(reliable) && replay == reliable[SaturatingSub(|reliable|, REPLAY_CAPACITY)..]
    ensures Increasing(replay)
  {
  }

  lemma ReadingFrom(s: Server, view: View, i: nat)
    requires |s.states| == |s.log| + 1 && i <= |s.log| && view == ViewAt(s, i)
    ensures ClientInv(s, Client(view, s.log[i..], |s.log|, false))
  {
  }

  lemma StartingWith(s: Server, view: View, reason: ResyncReason)
    requires ServerInv(s)
    ensures ClientInv(s, Client(view, Resync(s.view.snapshot, reason), |s.log|, false))
    ensures ClientInv(s, Client(view, [Full(s.view.snapshot)], |s.log|, false))
  {
    CurrentState(s);
    assert |s.states| == |s.log| + 1;
    hide ServerInv, Prepared;
    assert Starting(s, Client(view, Resync(s.view.snapshot, reason), |s.log|, false));
    assert Starting(s, Client(view, [Full(s.view.snapshot)], |s.log|, false));
  }

  lemma SubscribeStarts(s: Server, view: View, withCursor: bool)
    requires ServerInv(s) && MaySubscribe(s, view, withCursor)
    ensures var cursor := if withCursor then Some(CursorOf(view.snapshot)) else None;
            ClientInv(s, Client(view, Backlog(s, cursor), |s.log|, false))
  {
    var current, revision := s.view.snapshot, view.snapshot.revision;
    StartingWith(s, view, BootChanged);
    StartingWith(s, view, RevisionGapped);
    StartingWith(s, view, HistoryExpired);
    CurrentState(s);
    if withCursor && view.snapshot.boot == current.boot && revision <= current.revision {
      TrustedIsInLog(s, view);
      ReadingFrom(s, view, s.start + revision);
      if revision < current.revision {
        ResumesExactlyWhen(s, CursorOf(view.snapshot));
      } else {
        assert s.log[s.start + revision..] == [];
      }
    }
    hide ServerInv, ClientInv, Prepared, Contiguous, NewerThan, Envelopes, Resync, ViewAt, MaySubscribe, Retains;
  }

  /** What a new subscriber gets first, and the reason it is told when that is not a continuation. */
  lemma BacklogExactly(s: Server, cursor: Option<Cursor>)
    requires ServerInv(s)
    ensures var snapshot := s.view.snapshot;
            var backlog := Backlog(s, cursor);
            && (cursor.None? ==> backlog == [Full(snapshot)])
            && (cursor.Some? && cursor.value == CursorOf(snapshot) ==> backlog == [])
            && (cursor.Some? && cursor.value.boot != snapshot.boot ==>
                  backlog == [ResyncRequired(snapshot.boot, snapshot.revision, BootChanged), Full(snapshot)])
            && (cursor.Some? && cursor.value.boot == snapshot.boot && cursor.value.revision > snapshot.revision ==>
                  backlog == [ResyncRequired(snapshot.boot, snapshot.revision, RevisionGapped), Full(snapshot)])
            && (cursor.Some? && cursor.value.boot == snapshot.boot && cursor.value.revision < snapshot.revision
                && backlog != Envelopes(NewerThan(s.replay, cursor.value.revision + 1)) ==>
                  backlog == [ResyncRequired(snapshot.boot, snapshot.revision, HistoryExpired), Full(snapshot)])
  {
    hide ServerInv, Contiguous, NewerThan, Envelopes;
    CurrentState(s);
  }

  /**
   What becomes of a change that the actor emits: the next revision if there is one and the change is acceptable, with
   the whole snapshot published for a reliable one only. If not, a reliable change makes it start over from the
   projection, under a new boot at revision 0, and tell everybody; without a projection that can be prepared, and for a
   realtime change at once, the actor stops.
   */
  lemma EmissionExactly(s: Server, change: Change, projection: Option<Snapshot>)
    requires ServerInv(s) && s.alive
    ensures var next := s.view.snapshot.revision + 1;
            var ok := next < U64_LIMIT && Acceptable(change);
            var after := ApplyChange(s.view.snapshot, change).(revision := next);
            var told := Changed(Delta(s.view.snapshot.boot, next, change));
            var reliable, realtime := EmitReliable(s, change, projection), EmitRealtime(s, change);
            && (ok ==>
                  && reliable.view == View(after, false) && reliable.alive && reliable.log == s.log + [told]
                  && realtime.view == View(after, false) && realtime.alive && realtime.log == s.log + [told]
                  && reliable.published.base == after && realtime.published.base == s.published.base)
            && (!ok && projection.Some? && Prepare(projection.value).Ok? ==>
                  var renewed := reliable.view.snapshot;
                  && reliable.alive && !reliable.view.needsResync
                  && renewed == Prepare(projection.value).value.(boot := renewed.boot, revision := 0)
                  && renewed.boot > s.view.snapshot.boot && reliable.replay == []
                  && reliable.log == s.log + [ResyncRequired(renewed.boot, 0, ProjectionRebuilt), Full(renewed)])
            && (!ok && (projection.None? || Prepare(projection.value).Err?) ==>
                  !reliable.alive && reliable.log == s.log)
            && (!ok ==> !realtime.alive && realtime.log == s.log)
  {
    hide ServerInv, ApplyChange, Acceptable, Prepare, Emit, Rebuild;
    ServerIsCurrent(s);
    EmittedSays(s, change, true);
    EmittedSays(s, change, false);
    RebuildCases(Emit(s, change, true).0, projection);
  }

  lemma EmittedSays(s: Server, change: Change, reliable: bool)
    requires !s.view.needsResync && s.sequencer == CursorOf(s.view.snapshot)
    ensures var next := s.view.snapshot.revision + 1;
            var (s', ok) := Emit(s, change, reliable);
            && ok == (next < U64_LIMIT && Acceptable(change)) && s'.alive == s.alive
            && (ok ==>
                  && s'.view == View(ApplyChange(s.view.snapshot, change).(revision := next), false)
                  && s'.log == s.log + [Changed(Delta(s.view.snapshot.boot, next, change))]
                  && s'.published.base == if reliable then s'.view.snapshot else s.published.base)
            && (!ok ==> s'.log == s.log && s'.sequencer == s.sequencer)
  {
    hide ApplyChange, Acceptable, Remember;
    EmitCases(s, change, reliable);
    hide Emit;
  }

  // ----- Every step keeps the invariant

  lemma ServerMoves(s: Server, change: Change, projection: Option<Snapshot>)
    requires ServerInv(s) && s.alive
    ensures var s' := EmitReliable(s, change, projection);
            ServerInv(s') && s.log <= s'.log && s.states <= s'.states
  {
    EmitKeepsInv(s, change, true);
    var (e, ok) := Emit(s, change, true);
    hide Emit, LogOk, BootOk, ReplayOk, Materialize;
    if ok {
      assert e.(alive := true) == e.(alive := ok);
      AliveStays(s, change);
    } else {
      AliveIsFree(e.(alive := false), e.alive);
      assert e.(alive := false).(alive := e.alive) == e;
      RebuildKeepsInv(e, projection);
    }
  }

  lemma AliveStays(s: Server, change: Change)
    ensures Emit(s, change, true).0.alive == s.alive
    ensures Emit(s, change, false).0.alive == s.alive
  {
    hide Apply;
  }

  lemma ServerMovesRealtime(s: Server, change: Change)
    requires ServerInv(s) && s.alive && (change.PointerChange? || change.GamepadsChange?)
    ensures var s' := EmitRealtime(s, change);
            ServerInv(s') && s.log <= s'.log && s.states <= s'.states
  {
    EmitKeepsInv(s, change, false);
    AliveStays(s, change);
    var (e, ok) := Emit(s, change, false);
    hide Emit, LogOk, BootOk, ReplayOk, Materialize;
    if ok {
      assert e == e.(alive := ok);
    }
  }

  lemma ClientsKeep(sys: System, s': Server)
    requires Inv(sys) && ServerInv(s') && sys.server.log <= s'.log && sys.server.states <= s'.states
    ensures Inv(sys.(server := s'))
  {
    hide ServerInv, ClientInv;
    forall id | id in sys.clients ensures ClientInv(s', sys.clients[id]) {
      LogGrows(sys.server, s', sys.clients[id]);
    }
  }

  lemma OneClient(sys: System, id: nat, c: Client)
    requires Inv(sys) && ClientInv(sys.server, c)
    ensures Inv(sys.(clients := sys.clients[id := c]))
  {
    hide ServerInv, ClientInv;
  }

  lemma StepKeepsInv(sys: System, a: Action)
    requires Inv(sys)
    ensures Inv(Step(sys, a))
  {
    var s := sys.server;
    hide ServerInv, ClientInv, EmitReliable, EmitRealtime, Rebuild, ReceiveStep, Backlog, Resync, LogOk, BeatStep,
        Dropped;
    match a
    case Reliable(change, projection) =>
      if s.alive {
        ServerMoves(s, change, projection);
        ClientsKeep(sys, EmitReliable(s, change, projection));
      }
    case RealtimePointer(pointer) =>
      if s.alive {
        ServerMovesRealtime(s, PointerChange(pointer));
        ClientsKeep(sys, EmitRealtime(s, PointerChange(pointer)));
      }
    case RealtimeGamepads(gamepads) =>
      if s.alive {
        ServerMovesRealtime(s, GamepadsChange(gamepads));
        ClientsKeep(sys, EmitRealtime(s, GamepadsChange(gamepads)));
      }
    case Rebuilding(projection) =>
      if s.alive {
        ServerParts(s);
        RebuildKeepsInv(s, projection);
        ClientsKeep(sys, Rebuild(s, projection));
      }
    case Subscribe(id, view, withCursor) =>
      if MaySubscribe(s, view, withCursor) {
        SubscribeStarts(s, view, withCursor);
        var cursor := if withCursor then Some(CursorOf(view.snapshot)) else None;
        OneClient(sys, id, Client(view, Backlog(s, cursor), |s.log|, false));
      }
    case Receive(id) =>
      if id in sys.clients {
        ReceiveKeeps(sys, sys.clients[id]);
        OneClient(sys, id, ReceiveStep(sys, sys.clients[id]));
      }
    case Lag(id) => LagKeeps(sys, id);
    case Recovered(id) =>
      if s.alive && id in sys.clients && sys.clients[id].recovering {
        StartingWith(s, sys.clients[id].view, RevisionGapped);
        OneClient(sys, id, Client(sys.clients[id].view, Resync(s.view.snapshot, RevisionGapped), |s.log|, false));
      }
    case DropRecovery(id, oldest) =>
      if id in sys.clients && sys.clients[id].recovering && sys.clients[id].position < oldest < |s.log| {
        LogIsOk(s);
        DropKeeps(s, sys.clients[id], oldest);
        OneClient(sys, id, Dropped(sys.clients[id], oldest));
      }
    case Beat(id) =>
      if id in sys.clients && !sys.clients[id].recovering {
        LogIsOk(s);
        BeatKeeps(s, sys.clients[id]);
        OneClient(sys, id, BeatStep(s, sys.clients[id]));
      }
  }

  lemma LogIsOk(s: Server)
    requires ServerInv(s)
    ensures LogOk(s)
  {
  }

  lemma ServerParts(s: Server)
    requires ServerInv(s)
    ensures Restartable(s)
  {
  }

  lemma LagKeeps(sys: System, id: nat)
    requires Inv(sys)
    ensures Inv(Step(sys, Lag(id)))
  {
    hide ServerInv, Prepared;
    if id in sys.clients && sys.clients[id].pending == [] && sys.clients[id].position < |sys.server.log| {
      var c := sys.clients[id].(recovering := true);
      hide WasTrue;
      assert if c.stray then Straying(sys.server, c) else Reading(sys.server, c);
      OneClient(sys, id, c);
    }
  }

  // ----- Main results

  function Started(initial: Snapshot): System {
    System(Server(View(initial, false), CursorOf(initial), [], PublishedFrom(initial), true, [], [initial], 0, []),
        map[])
  }

  /** A new aggregator after any steps; its first snapshot is prepared and has revision 0. */
  function Run(initial: Snapshot, actions: seq<Action>): (sys: System)
    requires Prepared(initial) && initial.revision == 0
    ensures Inv(sys)
  {
    if actions == [] then StartedInv(initial); Started(initial)
    else
      var before := Run(initial, actions[..|actions| - 1]);
      StepKeepsInv(before, actions[|actions| - 1]);
      Step(before, actions[|actions| - 1])
  }

  lemma StartedInv(initial: Snapshot)
    requires Prepared(initial) && initial.revision == 0
    ensures Inv(Started(initial))
  {
  }

  /**
   Whatever a subscriber reads next fits its view: the next revision, or a resync notice, or the snapshot after one.
   Only a dropped recovery or a heartbeat ahead of unread entries makes an exception; see StraysShowTrueStates.
   */
  lemma EveryEnvelopeFits(initial: Snapshot, actions: seq<Action>, id: nat)
    requires Prepared(initial) && initial.revision == 0
    requires id in Run(initial, actions).clients && !Run(initial, actions).clients[id].stray
    ensures var sys := Run(initial, actions);
            var c := sys.clients[id];
            && (Next(sys, c).Some? ==> InStep(c.view, Next(sys, c).value, Apply(c.view, Next(sys, c).value).error))
            && (c.pending == [] && c.position == |sys.server.log| ==> c.view == View(sys.server.view.snapshot, false))
  {
    hide Run, ServerInv, Prepared, Apply, Next, WasTrue;
    var sys := Run(initial, actions);
    ReceiveKeeps(sys, sys.clients[id]);
    CurrentState(sys.server);
  }

  lemma {:induction false} OnlyDropsAndBeatsLeadAstray(initial: Snapshot, actions: seq<Action>, id: nat)
    requires Prepared(initial) && initial.revision == 0
    requires forall a :: a in actions ==> !a.DropRecovery? && !a.Beat?
    ensures id in Run(initial, actions).clients ==> !Run(initial, actions).clients[id].stray
    decreases |actions|
  {
    hide *;
    if actions == [] {
      RunNothing(initial);
    } else {
      var n := |actions| - 1;
      OnlyDropsAndBeatsLeadAstray(initial, actions[..n], id);
      RunNext(initial, actions[..n], actions[n]);
      assert actions[..n] + [actions[n]] == actions;
      StepLeadsNobodyAstray(Run(initial, actions[..n]), actions[n], id);
    }
  }

  lemma StepLeadsNobodyAstray(sys: System, a: Action, id: nat)
    requires !a.DropRecovery? && !a.Beat? && (id in sys.clients ==> !sys.clients[id].stray)
    ensures id in Step(sys, a).clients ==> !Step(sys, a).clients[id].stray
  {
    hide Apply, EmitReliable, EmitRealtime, Rebuild, Backlog, Resync, Next, MaySubscribe;
  }

  lemma RunNothing(initial: Snapshot)
    requires Prepared(initial) && initial.revision == 0
    ensures Run(initial, []) == Started(initial)
    ensures Run(initial, []).clients == map[]
  {
    hide Prepared, Inv;
  }

  lemma RunNext(initial: Snapshot, actions: seq<Action>, a: Action)
    requires Prepared(initial) && initial.revision == 0
    ensures Run(initial, actions + [a]) == Step(Run(initial, actions), a)
  {
    hide Step, Prepared, Inv;
    assert (actions + [a])[..|actions|] == actions;
  }

  lemma GrownStaysTrue(s: Server, s': Server, snapshot: Snapshot)
    requires WasTrue(s, snapshot) && s.states <= s'.states
    ensures WasTrue(s', snapshot)
  {
    var j :| 0 <= j < |s.states| && snapshot == s.states[j];
    assert s'.states[j] == snapshot;
  }

  lemma ReceiveStaysTrue(sys: System, c: Client)
    requires ServerInv(sys.server) && ClientInv(sys.server, c) && WasTrue(sys.server, c.view.snapshot)
    ensures WasTrue(sys.server, ReceiveStep(sys, c).view.snapshot)
  {
    var s := sys.server;
    hide BootOk, ReplayOk, LogStep, Materialize, ApplyDelta, LogOk, Prepared, Prepare, WasTrue;
    if Next(sys, c).None? {
    } else if Starting(s, c) {
      PreparedIsFixed(s.states[c.position]);
      StateWasTrue(s, c.position);
    } else {
      EntryRead(sys, c);
      LogIsOk(s);
      StrayApplies(s, c.view, c.position - |c.pending|);
      hide Apply, ReceiveStep, Next;
    }
  }

  lemma StatesGrow(sys: System, a: Action)
    requires Inv(sys)
    ensures sys.server.states <= Step(sys, a).server.states
  {
    var s := sys.server;
    hide ServerInv, ClientInv, EmitReliable, EmitRealtime, Rebuild, ReceiveStep, Backlog, Resync, MaySubscribe,
        BeatStep, Dropped;
    if s.alive {
      match a
      case Reliable(change, projection) => ServerMoves(s, change, projection);
      case RealtimePointer(pointer) => ServerMovesRealtime(s, PointerChange(pointer));
      case RealtimeGamepads(gamepads) => ServerMovesRealtime(s, GamepadsChange(gamepads));
      case Rebuilding(projection) =>
        ServerParts(s);
        RebuildKeepsInv(s, projection);
      case _ =>
    }
  }

  /** Only reading changes what a subscriber shows. */
  lemma OnlyReadingShows(sys: System, a: Action, id: nat)
    requires id in sys.clients && (a.Subscribe? ==> a.client != id)
    ensures id in Step(sys, a).clients
    ensures var c, c' := sys.clients[id], Step(sys, a).clients[id];
            c'.view.snapshot == c.view.snapshot || c' == ReceiveStep(sys, c)
  {
    hide EmitReliable, EmitRealtime, Rebuild, ReceiveStep, Backlog, Resync, MaySubscribe, ApplyDelta, Prepare;
  }

  lemma StepStaysTrue(sys: System, a: Action, id: nat)
    requires Inv(sys) && id in sys.clients && WasTrue(sys.server, sys.clients[id].view.snapshot)
    requires a.Subscribe? ==> a.client != id
    ensures id in Step(sys, a).clients && WasTrue(Step(sys, a).server, Step(sys, a).clients[id].view.snapshot)
  {
    hide ServerInv, ClientInv, Step, ReceiveStep, WasTrue;
    StatesGrow(sys, a);
    OnlyReadingShows(sys, a, id);
    ReceiveStaysTrue(sys, sys.clients[id]);
    GrownStaysTrue(sys.server, Step(sys, a).server, Step(sys, a).clients[id].view.snapshot);
  }

  /** What a subscriber shows, once true, stays a state that the actor had until it subscribes anew. */
  lemma {:induction false} TrueViewsStayTrue(initial: Snapshot, actions: seq<Action>, more: seq<Action>, id: nat)
    requires Prepared(initial) && initial.revision == 0
    requires forall a :: a in more && a.Subscribe? ==> a.client != id
    requires var sys := Run(initial, actions);
             id in sys.clients && WasTrue(sys.server, sys.clients[id].view.snapshot)
    ensures var sys := Run(initial, actions + more);
            id in sys.clients && WasTrue(sys.server, sys.clients[id].view.snapshot)
    decreases |more|
  {
    hide Step, WasTrue, Prepared, ServerInv, ClientInv;
    if more == [] {
      assert actions + more == actions;
    } else {
      var n := |more| - 1;
      TrueViewsStayTrue(initial, actions, more[..n], id);
      RunNext(initial, actions + more[..n], more[n]);
      assert actions + more[..n] + [more[n]] == actions + more;
      hide Run;
      StepStaysTrue(Run(initial, actions + more[..n]), more[n], id);
    }
  }

  /**
   Even a subscriber that is out of step shows a state that the actor had, unless it still waits for a snapshot; the
   next full snapshot it reads brings it back in step, and with TrueViewsStayTrue its view is true from then on.
   */
  lemma StraysShowTrueStates(initial: Snapshot, actions: seq<Action>, id: nat)
    requires Prepared(initial) && initial.revision == 0
    requires id in Run(initial, actions).clients && Run(initial, actions).clients[id].stray
    ensures var sys := Run(initial, actions);
            var c := sys.clients[id];
            && (Starting(sys.server, c) || WasTrue(sys.server, c.view.snapshot))
            && (Next(sys, c).Some? && Next(sys, c).value.Full? ==>
                  var c' := ReceiveStep(sys, c);
                  !c'.stray && Reading(sys.server, c') && !c'.view.needsResync)
  {
    var sys := Run(initial, actions);
    var c := sys.clients[id];
    hide Run, ServerInv, Prepared, WasTrue;
    LogIsOk(sys.server);
    ReceiveKeeps(sys, c);
    if Next(sys, c).Some? && Next(sys, c).value.Full? {
      SnapshotReturns(sys, c);
    }
  }

  lemma SnapshotStarts(sys: System, c: Client)
    requires Starting(sys.server, c) && Next(sys, c).Some? && Next(sys, c).value.Full?
    ensures var c' := ReceiveStep(sys, c);
            !c'.stray && Reading(sys.server, c') && !c'.view.needsResync
  {
    PreparedIsFixed(sys.server.states[c.position]);
    hide Prepared, Prepare, ApplyDelta;
  }

  lemma SnapshotReturns(sys: System, c: Client)
    requires LogOk(sys.server) && ClientInv(sys.server, c) && c.stray
    requires Next(sys, c).Some? && Next(sys, c).value.Full?
    ensures var c' := ReceiveStep(sys, c);
            !c'.stray && Reading(sys.server, c') && !c'.view.needsResync
  {
    var s := sys.server;
    assert |s.states| == |s.log| + 1 by { hide LogStep, Prepared, ClientInv; }
    hide Increasing, BootOk, ReplayOk, LogStep, Apply, WasTrue, LogOk, Prepared, Prepare, Next, ReceiveStep;
    if Starting(s, c) {
      SnapshotStarts(sys, c);
    } else {
      EntryRead(sys, c);
      StrayApplies(s, c.view, c.position - |c.pending|);
    }
  }

  /** Readers of the latest state see the actor's view, and the replay window holds its newest reliable deltas. */
  lemma LatestStateIsTheView(initial: Snapshot, actions: seq<Action>)
    requires Prepared(initial) && initial.revision == 0
    ensures var s := Run(initial, actions).server;
            && Materialize(s.published) == s.view.snapshot
            && s.replay == s.reliable[SaturatingSub(|s.reliable|, REPLAY_CAPACITY)..]
            && (forall k :: 0 <= k < |s.reliable| ==> InLog(s, s.reliable[k]))
  {
    hide Run, LogOk, BootOk, Materialize;
  }

  /**
   A receive that is dropped between the lag and the actor's answer goes on with the oldest retained entry.
   The next envelope then fits exactly when it is not a delta, so the recovery has to be awaited.
   */
  lemma DroppedRecoveryFitsExactlyWhen(s: Server, c: Client, oldest: nat)
    requires ServerInv(s) && ClientInv(s, c) && c.recovering && !c.stray && c.position < oldest < |s.log|
    ensures InStep(c.view, s.log[oldest], Apply(c.view, s.log[oldest]).error) <==> !s.log[oldest].Changed?
  {
    assert Reading(s, c) && c.view == ViewAt(s, c.position);
    assert LogStep(s, oldest) && Prepared(s.states[oldest + 1]);
    PreparedIsFixed(s.states[oldest + 1]);
    assert oldest == c.position + 1 ==> LogStep(s, c.position);
    CursorsGrow(s, c.position, oldest);
    hide LogOk, BootOk, ReplayOk, Prepared, Prepare, ApplyChange, Acceptable, Materialize;
  }

  /** A heartbeat with the published cursor fits a subscriber exactly when it has read everything. */
  lemma HeartbeatFitsExactlyWhenCaughtUp(s: Server, c: Client)
    requires ServerInv(s) && Reading(s, c) && !c.view.needsResync
    ensures Apply(c.view, HeartbeatOf(s)).error.None? <==> c.pending == [] && c.position == |s.log|
  {
    var i := c.position - |c.pending|;
    assert s.published.cursor == CursorOf(s.view.snapshot) by {
      assert Materialize(s.published) == s.view.snapshot;
    }
    if i < |s.log| {
      assert LogStep(s, i);
      assert s.log[i].ResyncRequired? ==> i + 1 < |s.log|;
    }
    CursorsGrow(s, i, |s.log|);
    hide LogOk, ReplayOk, Materialize, LogStep;
  }

  // ----- Runs that lead a subscriber astray

  /** A first subscriber reads its snapshot, and the actor emits two pointer deltas. */
  function Unread(pointer: Pointer, initial: Snapshot): seq<Action> {
    ReadSnapshot(initial) + [RealtimePointer(pointer)] + [RealtimePointer(pointer)]
  }

  function ReadSnapshot(initial: Snapshot): seq<Action> {
    [Subscribe(0, View(initial, false), false), Receive(0)]
  }

  lemma FirstRead(initial: Snapshot)
    requires Prepared(initial) && initial.revision == 0
    ensures var sys := Run(initial, [Subscribe(0, View(initial, false), false), Receive(0)]);
            && sys.server == Started(initial).server
            && sys.clients == map[0 := Client(View(initial, false), [], 0, false)]
  {
    hide *;
    var a := Subscribe(0, View(initial, false), false);
    RunNothing(initial);
    RunNext(initial, [], a);
    RunNext(initial, [a], Receive(0));
    assert [] + [a] == [a] && [a] + [Receive(0)] == [a, Receive(0)];
    SnapshotIsRead(initial);
  }

  lemma SnapshotIsRead(initial: Snapshot)
    requires Prepared(initial)
    ensures var sys := Step(Step(Started(initial), Subscribe(0, View(initial, false), false)), Receive(0));
            && sys.server == Started(initial).server
            && sys.clients == map[0 := Client(View(initial, false), [], 0, false)]
  {
    PreparedIsFixed(initial);
    hide Prepared, Prepare;
    var first := Step(Started(initial), Subscribe(0, View(initial, false), false));
    assert first.clients == map[0 := Client(View(initial, false), [Full(initial)], 0, false)];
    assert Next(first, first.clients[0]) == Some(Full(initial));
    assert ReceiveStep(first, first.clients[0]) == Client(View(initial, false), [], 0, false);
    assert Step(first, Receive(0)).clients == first.clients[0 := Client(View(initial, false), [], 0, false)];
  }

  lemma PointerStep(sys: System, pointer: Pointer)
    requires sys.server.alive && ServerInv(sys.server) && sys.server.sequencer.revision + 1 < U64_LIMIT
    ensures var s, s' := sys.server, Step(sys, RealtimePointer(pointer)).server;
            && s'.alive && s'.sequencer == s.sequencer.(revision := s.sequencer.revision + 1)
            && s'.log == s.log + [Changed(Delta(s.sequencer.boot, s.sequencer.revision + 1, PointerChange(pointer)))]
            && Step(sys, RealtimePointer(pointer)).clients == sys.clients
  {
    EmitCases(sys.server, PointerChange(pointer), false);
    hide ServerInv, Emit, ApplyChange;
  }

  lemma StartedServer(initial: Snapshot)
    requires initial.revision == 0
    ensures var s := Started(initial).server;
            s.alive && s.log == [] && s.sequencer.revision == 0
  {
  }

  lemma RunServer(initial: Snapshot, actions: seq<Action>)
    requires Prepared(initial) && initial.revision == 0
    ensures ServerInv(Run(initial, actions).server)
    ensures forall id :: id in Run(initial, actions).clients ==>
              ClientInv(Run(initial, actions).server, Run(initial, actions).clients[id])
  {
    hide Run, Prepared, ServerInv, ClientInv;
  }

  lemma UnreadActions(initial: Snapshot, pointer: Pointer)
    ensures Unread(pointer, initial)
            == ReadSnapshot(initial) + [RealtimePointer(pointer)] + [RealtimePointer(pointer)]
  {
    hide ReadSnapshot;
  }

  /** One subscriber has read its snapshot, and k deltas are unread. */
  predicate Waits(sys: System, initial: Snapshot, k: nat) {
    && sys.clients == map[0 := Client(View(initial, false), [], 0, false)]
    && sys.server.alive && sys.server.sequencer.revision == k && |sys.server.log| == k
    && forall i :: 0 <= i < k ==> sys.server.log[i].Changed?
  }

  lemma PointerWaits(sys: System, initial: Snapshot, k: nat, pointer: Pointer)
    requires ServerInv(sys.server) && Waits(sys, initial, k) && k + 1 < U64_LIMIT
    ensures Waits(Step(sys, RealtimePointer(pointer)), initial, k + 1)
  {
    hide Step, ServerInv;
    PointerStep(sys, pointer);
  }

  lemma PointerRun(initial: Snapshot, actions: seq<Action>, pointer: Pointer, k: nat)
    requires Prepared(initial) && initial.revision == 0 && Waits(Run(initial, actions), initial, k) && k + 1 < U64_LIMIT
    ensures Waits(Run(initial, actions + [RealtimePointer(pointer)]), initial, k + 1)
  {
    hide *;
    RunNext(initial, actions, RealtimePointer(pointer));
    RunServer(initial, actions);
    PointerWaits(Run(initial, actions), initial, k, pointer);
  }

  lemma FirstWaits(initial: Snapshot)
    requires Prepared(initial) && initial.revision == 0
    ensures Waits(Run(initial, ReadSnapshot(initial)), initial, 0)
  {
    hide Run, Inv, Prepared, Started;
    FirstRead(initial);
    StartedServer(initial);
  }

  lemma TwoUnread(initial: Snapshot, pointer: Pointer)
    requires Prepared(initial) && initial.revision == 0
    ensures Waits(Run(initial, Unread(pointer, initial)), initial, 2)
  {
    hide Run, Inv, Waits, Prepared, Unread, ReadSnapshot;
    FirstWaits(initial);
    UnreadActions(initial, pointer);
    TwoPointers(initial, ReadSnapshot(initial), pointer, 0);
  }

  lemma TwoPointers(initial: Snapshot, actions: seq<Action>, pointer: Pointer, k: nat)
    requires Prepared(initial) && initial.revision == 0 && Waits(Run(initial, actions), initial, k) && k + 2 < U64_LIMIT
    ensures Waits(Run(initial, actions + [RealtimePointer(pointer)] + [RealtimePointer(pointer)]), initial, k + 2)
  {
    hide Run, Inv, Waits, Prepared;
    PointerRun(initial, actions, pointer, k);
    PointerRun(initial, actions + [RealtimePointer(pointer)], pointer, k + 1);
  }

  lemma WaitsHas(sys: System, initial: Snapshot)
    requires Waits(sys, initial, 2)
    ensures sys.clients == map[0 := Client(View(initial, false), [], 0, false)]
    ensures |sys.server.log| == 2 && sys.server.log[0].Changed? && sys.server.log[1].Changed? && sys.server.alive
  {
  }

  lemma DropStep(sys: System)
    requires sys.clients.Keys == {0} && sys.clients[0].pending == [] && sys.clients[0].position == 0
             && |sys.server.log| == 2
    requires !sys.clients[0].recovering && !sys.clients[0].stray
    ensures var lagging := Step(sys, Lag(0));
            var dropped := Step(lagging, DropRecovery(0, 1));
            && lagging == sys.(clients := map[0 := sys.clients[0].(recovering := true)])
            && dropped == sys.(clients := map[0 := Dropped(lagging.clients[0], 1)])
            && dropped.clients[0].stray && dropped.clients[0].view == sys.clients[0].view
            && Next(dropped, dropped.clients[0]) == Some(sys.server.log[1])
  {
  }

  /** It does happen: the recovery is dropped, and the next delta does not fit. */
  lemma ADroppedRecoveryMissesADelta(initial: Snapshot, pointer: Pointer)
    requires Prepared(initial) && initial.revision == 0
    ensures var sys := Run(initial, Unread(pointer, initial) + [Lag(0)] + [DropRecovery(0, 1)]);
            && 0 in sys.clients && sys.clients[0].stray
            && var c := sys.clients[0];
               Next(sys, c).Some? && !InStep(c.view, Next(sys, c).value, Apply(c.view, Next(sys, c).value).error)
  {
    hide *;
    var actions := Unread(pointer, initial);
    TwoUnread(initial, pointer);
    WaitsHas(Run(initial, actions), initial);
    RunNext(initial, actions, Lag(0));
    RunNext(initial, actions + [Lag(0)], DropRecovery(0, 1));
    DropStep(Run(initial, actions));
    RunServer(initial, actions + [Lag(0)]);
    var before := Run(initial, actions + [Lag(0)]);
    DroppedRecoveryFitsExactlyWhen(before.server, before.clients[0], 1);
  }

  lemma BeatOf(sys: System, c: Client)
    requires sys.clients == map[0 := c] && !c.recovering && !c.view.needsResync && c.pending == []
    requires Apply(c.view, HeartbeatOf(sys.server)).error.Some? && c.position < |sys.server.log|
    ensures var c' := c.(view := c.view.(needsResync := true), stray := true);
            && Step(sys, Beat(0)).clients == map[0 := c']
                 && Next(Step(sys, Beat(0)), c') == Some(sys.server.log[c.position])
  {
    HeartbeatFreezes(c.view, HeartbeatOf(sys.server));
    hide Apply;
  }

  lemma WithoutBacklogReads(s: Server, c: Client)
    requires ClientInv(s, c) && !c.stray && c.pending == []
    ensures Reading(s, c)
  {
  }

  lemma FrozenRefusesDeltas(v: View, e: Envelope)
    requires v.needsResync && e.Changed?
    ensures !InStep(v, e, Apply(v, e).error)
  {
  }

  /** It does happen: a heartbeat overtakes two unread deltas, and the view refuses them. */
  lemma AHeartbeatFreezesAView(initial: Snapshot, pointer: Pointer)
    requires Prepared(initial) && initial.revision == 0
    ensures var sys := Run(initial, Unread(pointer, initial) + [Beat(0)]);
            && 0 in sys.clients && sys.clients[0].stray && sys.clients[0].view.needsResync
            && var c := sys.clients[0];
               Next(sys, c).Some? && !InStep(c.view, Next(sys, c).value, Apply(c.view, Next(sys, c).value).error)
  {
    hide *;
    var actions := Unread(pointer, initial);
    TwoUnread(initial, pointer);
    WaitsHas(Run(initial, actions), initial);
    RunNext(initial, actions, Beat(0));
    RunServer(initial, actions);
    var before := Run(initial, actions);
    WithoutBacklogReads(before.server, before.clients[0]);
    HeartbeatFitsExactlyWhenCaughtUp(before.server, before.clients[0]);
    BeatOf(before, before.clients[0]);
    FrozenRefusesDeltas(before.clients[0].view.(needsResync := true), before.server.log[0]);
  }

  lemma HeartbeatFreezes(v: View, e: Envelope)
    requires e.Heartbeat? && Apply(v, e).error.Some?
    ensures Apply(v, e).view == v.(needsResync := true)
  {
  }

  lemma TrueStatesMayResume(s: Server, snapshot: Snapshot)
    requires ServerInv(s) && WasTrue(s, snapshot)
    ensures Trustworthy(s, snapshot)
  {
    var j :| 0 <= j < |s.states| && snapshot == s.states[j];
    hide LogOk, ReplayOk, Materialize, Prepared;
    if snapshot.boot == s.view.snapshot.boot {
      assert j >= s.start;
    }
  }

  /**
   A subscriber that has read its backlog, or is out of step, may subscribe again, at any later time, with what it
   has.
   */
  lemma ReadersMayResume(s: Server, c: Client)
    requires ServerInv(s) && ClientInv(s, c) && (Reading(s, c) || Straying(s, c))
    ensures Trustworthy(s, c.view.snapshot)
  {
    if Reading(s, c) {
      StateWasTrue(s, c.position - |c.pending|);
    }
    hide ServerInv, ClientInv, WasTrue;
    TrueStatesMayResume(s, c.view.snapshot);
  }
}
