/** The UI state contract: snapshots, revisioned changes, and the view that folds them. */
module UiState {
  import opened Common
  import opened InputEvents

  const PROTOCOL_VERSION: nat := 1

  /** Device, session and boot identities are unique values; boots are numbered in the order they are created. */
  type Id = nat

  datatype Cursor = Cursor(boot: Id, revision: nat)

  /** The session states; detail stands for the edge, source or reason a state carries. */
  datatype ControlSession =
    | LocalReady
    | TransitioningToRemote(target: Id, detail: int)
    | RemoteActive(target: Id, detail: int)
    | ReturningLocal(detail: int)
    | Suspended(detail: int)

  datatype Feedback = Feedback(generatedAt: nat, content: int)

  /** content stands for the fields of the status that no step here looks into. */
  datatype Status = Status(session: Option<ControlSession>, activeTarget: Option<Id>, feedback: Feedback, content: int)

  /** description stands for the name, host name, addresses and connection flag. */
  datatype Device = Device(id: Id, description: int, lastSeen: Option<nat>)

  datatype Capabilities = Capabilities(generatedAt: nat, content: int)

  datatype Pointer = Pointer(x: int, y: int, display: Option<int>, observedAt: nat)

  /** The button of a gamepad, by its rank: 17 named ones, then the numbered others. */
  const PAD_KINDS: nat := 17 + U16_LIMIT

  type PadKind = x: int | 0 <= x < 17 + 0x1_0000

  datatype PadButton = PadButton(gamepad: byte, button: PadKind)

  datatype Gamepad = Gamepad(id: byte, connected: bool, pressed: set<PadKind>, lastSeen: nat, content: int)

  datatype MediaSession = MediaSession(id: Id, content: int)

  datatype Sessions = Sessions(control: Option<ControlSession>, media: seq<MediaSession>)

  /** The pressed lists are kept sorted and free of duplicates, so they are sets here. */
  datatype Dynamic = Dynamic(
    pointer: Option<Pointer>,
    gamepads: seq<Gamepad>,
    keys: set<nat>,
    buttons: set<MouseButton>,
    padButtons: set<PadButton>,
    diagnostics: Feedback)

  datatype Snapshot = Snapshot(
    protocol: nat,
    boot: Id,
    revision: nat,
    status: Status,
    devices: seq<Device>,
    layout: int,
    capabilities: Capabilities,
    displays: int,
    dynamic: Dynamic,
    sessions: Sessions)

  datatype Transition =
    | KeyChange(key: nat, pressed: bool, observedAt: nat)
    | ButtonChange(button: MouseButton, pressed: bool, observedAt: nat)
    | Wheel(deltaX: int, deltaY: int, observedAt: nat)
    | PadChange(padButton: PadButton, pressed: bool, observedAt: nat)

  datatype Change =
    | StatusChange(status: Status)
    | CapabilitiesChange(capabilities: Capabilities)
    | DeviceUpsert(device: Device)
    | DeviceRemove(id: Id)
    | Topology(layout: int)
    | DisplayInventory(displays: int)
    | PointerChange(pointer: Pointer)
    | GamepadsChange(gamepads: seq<Gamepad>)
    | Discrete(transition: Transition)
    | SessionChange(sessions: Sessions)
    | Diagnostics(feedback: Feedback)
    | MediaUpsert(session: MediaSession)
    | MediaRemove(id: Id)

  datatype Delta = Delta(boot: Id, revision: nat, change: Change)

  datatype ResyncReason = BootChanged | RevisionGapped | HistoryExpired | ProjectionRebuilt

  datatype Envelope =
    | Full(snapshot: Snapshot)
    | Changed(delta: Delta)
    | ResyncRequired(boot: Id, revision: nat, reason: ResyncReason)
    | Heartbeat(boot: Id, revision: nat)

  datatype ApplyError =
    | WrongProtocol
    | BootMismatch
    | RevisionGap(expected: nat, actual: nat)
    | RevisionExhausted
    | DuplicateDevice
    | DuplicateMedia
    | SnapshotRequired
    | ResyncRequested

  datatype View = View(snapshot: Snapshot, needsResync: bool)

  function CursorOf(s: Snapshot): Cursor {
    Cursor(s.boot, s.revision)
  }

  // ----- Preparing a snapshot

  predicate DistinctDevices(devices: seq<Device>) {
    forall i, j :: 0 <= i < j < |devices| ==> devices[i].id != devices[j].id
  }

  predicate DistinctMedia(media: seq<MediaSession>) {
    forall i, j :: 0 <= i < j < |media| ==> media[i].id != media[j].id
  }

  function TargetOf(session: ControlSession): Option<Id> {
    match session
    case TransitioningToRemote(target, _) => Some(target)
    case RemoteActive(target, _) => Some(target)
    case _ => None
  }

  /** The status repeats the control session. */
  function SynchronizeStatus(s: Snapshot, clearWhenNone: bool): Snapshot {
    match s.sessions.control
    case Some(session) => s.(status := s.status.(session := Some(session), activeTarget := TargetOf(session)))
    case None => if clearWhenNone then s.(status := s.status.(session := None, activeTarget := None)) else s
  }

  function Prepare(s: Snapshot): Result<Snapshot, ApplyError> {
    if s.protocol != PROTOCOL_VERSION then Err(WrongProtocol)
    else if !DistinctDevices(s.devices) then Err(DuplicateDevice)
    else if !DistinctMedia(s.sessions.media) then Err(DuplicateMedia)
    else
      var synchronized := SynchronizeStatus(s, false);
      Ok(synchronized.(dynamic := synchronized.dynamic.(diagnostics := synchronized.status.feedback)))
  }

  /** What every snapshot of a view satisfies. */
  predicate Prepared(s: Snapshot) {
    && s.protocol == PROTOCOL_VERSION && DistinctDevices(s.devices) && DistinctMedia(s.sessions.media)
    && s == SynchronizeStatus(s, false) && s.dynamic.diagnostics == s.status.feedback
  }

  /** Preparing is done once: prepared snapshots are exactly its results, and it leaves them alone. */
  lemma PreparedIsFixed(s: Snapshot)
    ensures Prepared(s) <==> Prepare(s) == Ok(s)
    ensures Prepare(s).Ok? ==> Prepared(Prepare(s).value)
  {
  }

  // ----- Applying a change

  /** Replaces the element with the same identity where it stands, or appends. */
  function UpsertDevice(devices: seq<Device>, device: Device): seq<Device> {
    if devices == [] then [device]
    else if devices[0].id == device.id then [device] + devices[1..]
    else [devices[0]] + UpsertDevice(devices[1..], device)
  }

  function RemoveDevice(devices: seq<Device>, id: Id): seq<Device> {
    if devices == [] then []
    else if devices[0].id == id then RemoveDevice(devices[1..], id)
    else [devices[0]] + RemoveDevice(devices[1..], id)
  }

  function UpsertMedia(media: seq<MediaSession>, session: MediaSession): seq<MediaSession> {
    if media == [] then [session]
    else if media[0].id == session.id then [session] + media[1..]
    else [media[0]] + UpsertMedia(media[1..], session)
  }

  function RemoveMedia(media: seq<MediaSession>, id: Id): seq<MediaSession> {
    if media == [] then []
    else if media[0].id == id then RemoveMedia(media[1..], id)
    else [media[0]] + RemoveMedia(media[1..], id)
  }

  function Member<T(==)>(values: set<T>, value: T, present: bool): set<T> {
    if present then values + {value} else values - {value}
  }

  function ApplyTransition(d: Dynamic, t: Transition): Dynamic {
    match t
    case KeyChange(key, pressed, _) => d.(keys := Member(d.keys, key, pressed))
    case ButtonChange(button, pressed, _) => d.(buttons := Member(d.buttons, button, pressed))
    case PadChange(padButton, pressed, _) => d.(padButtons := Member(d.padButtons, padButton, pressed))
    case Wheel(_, _, _) => d
  }

  predicate Acceptable(change: Change) {
    change.SessionChange? ==> DistinctMedia(change.sessions.media)
  }

  function ApplyChange(s: Snapshot, change: Change): Snapshot {
    match change
    case StatusChange(status) =>
      SynchronizeStatus(s.(status := status, dynamic := s.dynamic.(diagnostics := status.feedback)), false)
    case CapabilitiesChange(capabilities) => s.(capabilities := capabilities)
    case DeviceUpsert(device) => s.(devices := UpsertDevice(s.devices, device))
    case DeviceRemove(id) => s.(devices := RemoveDevice(s.devices, id))
    case Topology(layout) => s.(layout := layout)
    case DisplayInventory(displays) => s.(displays := displays)
    case PointerChange(pointer) => s.(dynamic := s.dynamic.(pointer := Some(pointer)))
    case GamepadsChange(gamepads) => s.(dynamic := s.dynamic.(gamepads := gamepads))
    case Discrete(transition) => s.(dynamic := ApplyTransition(s.dynamic, transition))
    case SessionChange(sessions) => SynchronizeStatus(s.(sessions := sessions), true)
    case Diagnostics(feedback) =>
      s.(dynamic := s.dynamic.(diagnostics := feedback), status := s.status.(feedback := feedback))
    case MediaUpsert(session) => s.(sessions := s.sessions.(media := UpsertMedia(s.sessions.media, session)))
    case MediaRemove(id) => s.(sessions := s.sessions.(media := RemoveMedia(s.sessions.media, id)))
  }

  datatype Applied = Applied(view: View, error: Option<ApplyError>)

  function ApplyDelta(v: View, d: Delta): Applied {
    if d.boot != v.snapshot.boot then Applied(v.(needsResync := true), Some(BootMismatch))
    else if v.snapshot.revision + 1 >= U64_LIMIT then Applied(v.(needsResync := true), Some(RevisionExhausted))
    else if d.revision != v.snapshot.revision + 1 then
      Applied(v.(needsResync := true), Some(RevisionGap(v.snapshot.revision + 1, d.revision)))
    else if !Acceptable(d.change) then Applied(v.(needsResync := true), Some(DuplicateMedia))
    else Applied(v.(snapshot := ApplyChange(v.snapshot, d.change).(revision := d.revision)), None)
  }

  /** UiView::apply: the view after an envelope, and the error if it was refused. */
  function Apply(v: View, e: Envelope): Applied {
    if v.needsResync && !e.Full? then Applied(v, Some(SnapshotRequired))
    else match e
      case Full(snapshot) =>
        (match Prepare(snapshot)
         case Ok(prepared) => Applied(View(prepared, false), None)
         case Err(error) => Applied(v, Some(error)))
      case Changed(delta) => ApplyDelta(v, delta)
      case Heartbeat(boot, revision) =>
        if boot != v.snapshot.boot then Applied(v.(needsResync := true), Some(BootMismatch))
        else if revision != v.snapshot.revision then
          Applied(v.(needsResync := true), Some(RevisionGap(v.snapshot.revision, revision)))
        else Applied(v, None)
      case ResyncRequired(_, _, _) => Applied(v.(needsResync := true), Some(ResyncRequested))
  }

  // ----- Changes keep snapshots prepared

  lemma {:induction false} UpsertKeepsDevices(devices: seq<Device>, device: Device)
    requires DistinctDevices(devices)
    ensures DistinctDevices(UpsertDevice(devices, device))
    ensures forall d :: d in UpsertDevice(devices, device) <==> d == device || (d in devices && d.id != device.id)
  {
    if devices != [] {
      var rest := devices[1..];
      UpsertKeepsDevices(rest, device);
      assert devices == [devices[0]] + rest;
      assert forall d :: d in rest ==> d.id != devices[0].id;
    }
  }

  lemma {:induction false} RemoveKeepsDevices(devices: seq<Device>, id: Id)
    requires DistinctDevices(devices)
    ensures DistinctDevices(RemoveDevice(devices, id))
    ensures forall d :: d in RemoveDevice(devices, id) <==> d in devices && d.id != id
  {
    if devices != [] {
      var rest := devices[1..];
      RemoveKeepsDevices(rest, id);
      assert devices == [devices[0]] + rest;
      assert forall d :: d in rest ==> d.id != devices[0].id;
    }
  }

  lemma {:induction false} UpsertKeepsMedia(media: seq<MediaSession>, session: MediaSession)
    requires DistinctMedia(media)
    ensures DistinctMedia(UpsertMedia(media, session))
    ensures forall m :: m in UpsertMedia(media, session) <==> m == session || (m in media && m.id != session.id)
  {
    if media != [] {
      var rest := media[1..];
      UpsertKeepsMedia(rest, session);
      assert media == [media[0]] + rest;
      assert forall m :: m in rest ==> m.id != media[0].id;
    }
  }

  lemma {:induction false} RemoveKeepsMedia(media: seq<MediaSession>, id: Id)
    requires DistinctMedia(media)
    ensures DistinctMedia(RemoveMedia(media, id))
    ensures forall m :: m in RemoveMedia(media, id) <==> m in media && m.id != id
  {
    if media != [] {
      var rest := media[1..];
      RemoveKeepsMedia(rest, id);
      assert media == [media[0]] + rest;
      assert forall m :: m in rest ==> m.id != media[0].id;
    }
  }

  /** A snapshot that a view reached by changes needs no further preparation. */
  lemma ChangeKeepsPrepared(s: Snapshot, change: Change, revision: nat)
    requires Prepared(s) && Acceptable(change)
    ensures Prepared(ApplyChange(s, change).(revision := revision))
  {
    match change
    case DeviceUpsert(device) => UpsertKeepsDevices(s.devices, device);
    case DeviceRemove(id) => RemoveKeepsDevices(s.devices, id);
    case MediaUpsert(session) => UpsertKeepsMedia(s.sessions.media, session);
    case MediaRemove(id) => RemoveKeepsMedia(s.sessions.media, id);
    case _ =>
  }

  // ----- What each envelope does to a view

  /** The device a session reaches for, if it is on its way to one or there. */
  function Reached(control: Option<ControlSession>): Option<Id> {
    if control.Some? && (control.value.TransitioningToRemote? || control.value.RemoteActive?)
    then Some(control.value.target) else None
  }

  /** The status names the session and its target after a change of the session; a status of its own yields to it. */
  lemma StatusFollowsSession(s: Snapshot, sessions: Sessions, status: Status)
    ensures var s' := ApplyChange(s, SessionChange(sessions));
            && s'.status == s.status.(session := sessions.control, activeTarget := Reached(sessions.control))
            && s'.sessions == sessions && s' == s.(status := s'.status, sessions := sessions)
    ensures var s' := ApplyChange(s, StatusChange(status));
            && s'.status == (if s.sessions.control.None? then status
                             else status.(session := s.sessions.control, activeTarget := Reached(s.sessions.control)))
            && s' == s.(status := s'.status, dynamic := s.dynamic.(diagnostics := status.feedback))
    ensures Prepare(s).Ok? ==>
              var p := Prepare(s).value;
              && p.status == (if s.sessions.control.None? then s.status
                              else s.status.(session := s.sessions.control,
                                             activeTarget := Reached(s.sessions.control)))
              && p == s.(status := p.status, dynamic := s.dynamic.(diagnostics := s.status.feedback))
    ensures Prepare(s).Ok? <==> s.protocol == 1 && DistinctDevices(s.devices) && DistinctMedia(s.sessions.media)
  {
  }

  /** A delta is applied exactly when it is the next revision of the view's boot; else the view waits for a snapshot. */
  lemma DeltaAppliesExactlyWhen(v: View, d: Delta)
    ensures var applied := Apply(v, Changed(d));
            var next := v.snapshot.revision + 1;
            && (applied.error.None? <==>
                  !v.needsResync && d.boot == v.snapshot.boot && d.revision == next < U64_LIMIT && Acceptable(d.change))
            && (applied.error.None? ==>
                  applied.view == View(ApplyChange(v.snapshot, d.change).(revision := next), false))
            && (applied.error.Some? ==> applied.view == View(v.snapshot, true))
            && (v.needsResync ==> applied.error == Some(SnapshotRequired))
            && (!v.needsResync && d.boot != v.snapshot.boot ==> applied.error == Some(BootMismatch))
            && (!v.needsResync && d.boot == v.snapshot.boot && next < U64_LIMIT && d.revision != next ==>
                  applied.error == Some(RevisionGap(next, d.revision)))
    ensures Acceptable(d.change) <==> !d.change.SessionChange? || DistinctMedia(d.change.sessions.media)
  {
    hide ApplyChange, DistinctMedia;
  }

  /** The other envelopes: a snapshot replaces what is shown, a heartbeat only checks, a notice only makes it wait. */
  lemma OtherEnvelopesApply(v: View, snapshot: Snapshot, boot: Id, revision: nat, reason: ResyncReason)
    ensures var full := Apply(v, Full(snapshot));
            if Prepare(snapshot).Ok? then full == Applied(View(Prepare(snapshot).value, false), None)
            else full.view == v && full.error.Some?
    ensures var beat := Apply(v, Heartbeat(boot, revision));
            && beat.view.snapshot == v.snapshot
            && (beat.error.None? <==> !v.needsResync && CursorOf(v.snapshot) == Cursor(boot, revision))
            && (beat.view.needsResync <==> v.needsResync || CursorOf(v.snapshot) != Cursor(boot, revision))
    ensures var notice := Apply(v, ResyncRequired(boot, revision, reason));
            notice.view == View(v.snapshot, true) && notice.error.Some?
  {
    hide Prepare;
  }

  /** A transition adds its control to the pressed ones or takes it away; turning the wheel presses nothing. */
  lemma TransitionsExactly(d: Dynamic, t: Transition)
    ensures var d' := ApplyTransition(d, t);
            && d' == d.(keys := d'.keys, buttons := d'.buttons, padButtons := d'.padButtons)
            && (forall k :: k in d'.keys <==> if t.KeyChange? && t.key == k then t.pressed else k in d.keys)
            && (forall b :: b in d'.buttons <==> if t.ButtonChange? && t.button == b then t.pressed else b in d.buttons)
            && (forall b ::
                  b in d'.padButtons <==> if t.PadChange? && t.padButton == b then t.pressed else b in d.padButtons)
  {
  }

  // ----- Where list entries go

  lemma {:induction false} DeviceInPlace(devices: seq<Device>, device: Device, i: nat)
    requires DistinctDevices(devices) && i < |devices| && devices[i].id == device.id
    ensures UpsertDevice(devices, device) == devices[i := device]
  {
    if i > 0 {
      DeviceInPlace(devices[1..], device, i - 1);
    }
  }

  lemma {:induction false} DeviceRemoved(devices: seq<Device>, i: nat)
    requires DistinctDevices(devices) && i < |devices|
    ensures RemoveDevice(devices, devices[i].id) == devices[..i] + devices[i + 1..]
  {
    if i > 0 {
      DeviceRemoved(devices[1..], i - 1);
    } else {
      DeviceAbsent(devices[1..], devices[0].id);
    }
  }

  lemma {:induction false} DeviceAbsent(devices: seq<Device>, id: Id)
    requires forall x :: x in devices ==> x.id != id
    ensures RemoveDevice(devices, id) == devices
  {
    if devices != [] {
      DeviceAbsent(devices[1..], id);
    }
  }

  lemma {:induction false} DeviceAppended(devices: seq<Device>, device: Device)
    requires forall x :: x in devices ==> x.id != device.id
    ensures UpsertDevice(devices, device) == devices + [device]
  {
    if devices != [] {
      DeviceAppended(devices[1..], device);
    }
  }

  lemma {:induction false} MediaInPlace(media: seq<MediaSession>, session: MediaSession, i: nat)
    requires DistinctMedia(media) && i < |media| && media[i].id == session.id
    ensures UpsertMedia(media, session) == media[i := session]
  {
    if i > 0 {
      MediaInPlace(media[1..], session, i - 1);
    }
  }

  lemma {:induction false} MediaRemoved(media: seq<MediaSession>, i: nat)
    requires DistinctMedia(media) && i < |media|
    ensures RemoveMedia(media, media[i].id) == media[..i] + media[i + 1..]
  {
    if i > 0 {
      MediaRemoved(media[1..], i - 1);
    } else {
      MediaAbsent(media[1..], media[0].id);
    }
  }

  lemma {:induction false} MediaAbsent(media: seq<MediaSession>, id: Id)
    requires forall x :: x in media ==> x.id != id
    ensures RemoveMedia(media, id) == media
  {
    if media != [] {
      MediaAbsent(media[1..], id);
    }
  }

  lemma {:induction false} MediaAppended(media: seq<MediaSession>, session: MediaSession)
    requires forall x :: x in media ==> x.id != session.id
    ensures UpsertMedia(media, session) == media + [session]
  {
    if media != [] {
      MediaAppended(media[1..], session);
    }
  }

  lemma {:induction false} RemovedIsGone(devices: seq<Device>, media: seq<MediaSession>, id: Id)
    ensures forall d :: d in RemoveDevice(devices, id) <==> d in devices && d.id != id
    ensures forall m :: m in RemoveMedia(media, id) <==> m in media && m.id != id
    decreases |devices| + |media|
  {
    if devices != [] {
      RemovedIsGone(devices[1..], [], id);
      assert devices == [devices[0]] + devices[1..];
    }
    if media != [] {
      RemovedIsGone([], media[1..], id);
      assert media == [media[0]] + media[1..];
    }
  }

  /** An entry keeps its place when it is replaced and comes last when it is new; removing one only closes the gap. */
  lemma EntriesKeepOrder(devices: seq<Device>, device: Device, media: seq<MediaSession>, session: MediaSession, i: nat)
    requires DistinctDevices(devices) && DistinctMedia(media)
    ensures i < |devices| && devices[i].id == device.id ==>
              UpsertDevice(devices, device) == devices[i := device]
              && RemoveDevice(devices, device.id) == devices[..i] + devices[i + 1..]
    ensures (forall d :: d in devices ==> d.id != device.id) ==>
              UpsertDevice(devices, device) == devices + [device] && RemoveDevice(devices, device.id) == devices
    ensures (forall d :: d in RemoveDevice(devices, device.id) <==> d in devices && d.id != device.id)
    ensures i < |media| && media[i].id == session.id ==>
              UpsertMedia(media, session) == media[i := session]
              && RemoveMedia(media, session.id) == media[..i] + media[i + 1..]
    ensures (forall m :: m in media ==> m.id != session.id) ==>
              UpsertMedia(media, session) == media + [session] && RemoveMedia(media, session.id) == media
  {
    hide UpsertDevice, RemoveDevice, UpsertMedia, RemoveMedia, DistinctDevices, DistinctMedia;
    RemovedIsGone(devices, media, device.id);
    if i < |devices| && devices[i].id == device.id {
      DeviceInPlace(devices, device, i);
      DeviceRemoved(devices, i);
    }
    if forall d :: d in devices ==> d.id != device.id {
      DeviceAppended(devices, device);
      DeviceAbsent(devices, device.id);
    }
    if i < |media| && media[i].id == session.id {
      MediaInPlace(media, session, i);
      MediaRemoved(media, i);
    }
    if forall m :: m in media ==> m.id != session.id {
      MediaAppended(media, session);
      MediaAbsent(media, session.id);
    }
  }
}
