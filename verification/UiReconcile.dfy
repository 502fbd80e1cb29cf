/** Reconciling the view with an authoritative projection by keyed changes. */
module UiReconcile {
  import opened Common
  import opened UiState
  import opened UiDiff

  // ----- The projection, with volatile fields that carry no news taken from the view

  function FindDevice(devices: seq<Device>, id: Id): Option<Device> {
    if devices == [] then None
    else if devices[0].id == id then Some(devices[0])
    else FindDevice(devices[1..], id)
  }

  function FindMedia(media: seq<MediaSession>, id: Id): Option<MediaSession> {
    if media == [] then None
    else if media[0].id == id then Some(media[0])
    else FindMedia(media[1..], id)
  }

  predicate SamePlace(a: Option<Pointer>, b: Option<Pointer>) {
    match (a, b)
    case (None, None) => true
    case (Some(p), Some(q)) => p.x == q.x && p.y == q.y && p.display == q.display
    case _ => false
  }

  function SettledDevice(projected: Device, current: seq<Device>): Device {
    match FindDevice(current, projected.id)
    case Some(known) => if known.description == projected.description then projected.(lastSeen := known.lastSeen)
        else projected
    case None => projected
  }

  function SettledDevices(projected: seq<Device>, current: seq<Device>): seq<Device> {
    seq(|projected|, i requires 0 <= i < |projected| => SettledDevice(projected[i], current))
  }

  /** The projection before it is prepared. */
  function Settled(view: Snapshot, p: Snapshot): Snapshot {
    var sameFeedback := p.status.feedback.content == view.status.feedback.content;
    p.(capabilities :=
         if p.capabilities.content == view.capabilities.content
         then p.capabilities.(generatedAt := view.capabilities.generatedAt) else p.capabilities,
       status :=
         if sameFeedback
         then p.status.(feedback := p.status.feedback.(generatedAt := view.status.feedback.generatedAt)) else p.status,
       devices := SettledDevices(p.devices, view.devices),
       dynamic :=
         p.dynamic.(
           pointer := if SamePlace(p.dynamic.pointer, view.dynamic.pointer) then view.dynamic.pointer
               else p.dynamic.pointer,
           diagnostics :=
             if sameFeedback
             then p.dynamic.diagnostics.(generatedAt := view.dynamic.diagnostics.generatedAt)
                 else p.dynamic.diagnostics))
  }

  /** Only times of observation are taken from the view, and only where nothing else differs. */
  lemma SettlesExactly(view: Snapshot, p: Snapshot)
    ensures var s := Settled(view, p);
            && s == p.(capabilities := s.capabilities, status := s.status, devices := s.devices, dynamic := s.dynamic)
            && s.capabilities.content == p.capabilities.content
            && s.capabilities.generatedAt == (if p.capabilities.content == view.capabilities.content
                                              then view.capabilities.generatedAt else p.capabilities.generatedAt)
            && s.status == p.status.(feedback := s.status.feedback)
            && s.status.feedback.content == p.status.feedback.content
            && s.status.feedback.generatedAt == (if p.status.feedback.content == view.status.feedback.content
                                                 then view.status.feedback.generatedAt
                                                 else p.status.feedback.generatedAt)
            && s.dynamic == p.dynamic.(pointer := s.dynamic.pointer, diagnostics := s.dynamic.diagnostics)
            && (p.dynamic.pointer.None? <==> s.dynamic.pointer.None?)
            && (p.dynamic.pointer.Some? ==>
                  var to, at := p.dynamic.pointer.value, s.dynamic.pointer.value;
                  && at.x == to.x && at.y == to.y && at.display == to.display
                  && (at.observedAt == if view.dynamic.pointer.Some? && view.dynamic.pointer.value.x == to.x
                                          && view.dynamic.pointer.value.y == to.y
                                          && view.dynamic.pointer.value.display == to.display
                                       then view.dynamic.pointer.value.observedAt else to.observedAt))
            && |s.devices| == |p.devices|
            && forall i :: 0 <= i < |p.devices| ==>
                 s.devices[i] == p.devices[i].(lastSeen := s.devices[i].lastSeen)
                 && s.devices[i].lastSeen
                    == (match FindDevice(view.devices, p.devices[i].id)
                        case Some(known) => if known.description == p.devices[i].description then known.lastSeen
                                            else p.devices[i].lastSeen
                        case None => p.devices[i].lastSeen)
  {
  }

  // ----- The emitted changes

  function DeviceIds(devices: seq<Device>): set<Id> {
    set d | d in devices :: d.id
  }

  function MediaIds(media: seq<MediaSession>): set<Id> {
    set m | m in media :: m.id
  }

  function Removes(ids: seq<Id>): seq<Change> {
    seq(|ids|, i requires 0 <= i < |ids| => DeviceRemove(ids[i]))
  }

  function NewOrChanged(current: seq<Device>, target: seq<Device>): set<Id> {
    set d | d in target && FindDevice(current, d.id) != Some(d) :: d.id
  }

  function Upserts(ids: seq<Id>, target: seq<Device>): seq<Change> {
    if ids == [] then []
    else
      var rest := Upserts(ids[..|ids| - 1], target);
      match FindDevice(target, ids[|ids| - 1])
      case Some(device) => rest + [DeviceUpsert(device)]
      case None => rest
  }

  function MediaRemoves(ids: seq<Id>): seq<Change> {
    seq(|ids|, i requires 0 <= i < |ids| => MediaRemove(ids[i]))
  }

  function NewOrChangedMedia(current: seq<MediaSession>, target: seq<MediaSession>): set<Id> {
    set m | m in target && FindMedia(current, m.id) != Some(m) :: m.id
  }

  function MediaUpserts(ids: seq<Id>, target: seq<MediaSession>): seq<Change> {
    if ids == [] then []
    else
      var rest := MediaUpserts(ids[..|ids| - 1], target);
      match FindMedia(target, ids[|ids| - 1])
      case Some(session) => rest + [MediaUpsert(session)]
      case None => rest
  }

  function Discretes(ts: seq<Transition>): seq<Change> {
    seq(|ts|, i requires 0 <= i < |ts| => Discrete(ts[i]))
  }

  function FoldChanges(s: Snapshot, cs: seq<Change>): Snapshot {
    if cs == [] then s else ApplyChange(FoldChanges(s, cs[..|cs| - 1]), cs[|cs| - 1])
  }

  function DeviceChanges(v: Snapshot, p: Snapshot): seq<Change> {
    Removes(Listing(DeviceIds(v.devices) - DeviceIds(p.devices)))
    + Upserts(Listing(NewOrChanged(v.devices, p.devices)), p.devices)
  }

  /** Status, capabilities, devices, layout and displays. */
  function InventoryChanges(v: Snapshot, p: Snapshot): seq<Change> {
    (if v.status != p.status then [StatusChange(p.status)] else [])
    + (if v.capabilities != p.capabilities then [CapabilitiesChange(p.capabilities)] else [])
    + DeviceChanges(v, p)
    + (if v.layout != p.layout then [Topology(p.layout)] else [])
    + (if v.displays != p.displays then [DisplayInventory(p.displays)] else [])
  }

  /** Pressed controls, compared with the view as it is by now. */
  function ControlChanges(now: Snapshot, p: Snapshot, at: nat): seq<Change> {
    var discrete := DiscreteChanges(now.dynamic, p.dynamic.keys, p.dynamic.buttons, at);
    var after := Fold(now.dynamic, discrete);
    Discretes(discrete) + Discretes(PadPressedChanges(after.padButtons, p.dynamic.padButtons, at))
  }

  function RealtimeChanges(v: Snapshot, p: Snapshot): seq<Change> {
    (if v.dynamic.pointer != p.dynamic.pointer && p.dynamic.pointer.Some? then [PointerChange(p.dynamic.pointer.value)]
        else [])
    + (if v.dynamic.gamepads != p.dynamic.gamepads then [GamepadsChange(p.dynamic.gamepads)] else [])
  }

  function DiagnosticsChanges(now: Snapshot, p: Snapshot): seq<Change> {
    if now.dynamic.diagnostics != p.dynamic.diagnostics then [Diagnostics(p.dynamic.diagnostics)] else []
  }

  function SessionChanges(v: Snapshot, p: Snapshot): seq<Change> {
    if v.sessions.control != p.sessions.control then [SessionChange(p.sessions)]
    else
      MediaRemoves(Listing(MediaIds(v.sessions.media) - MediaIds(p.sessions.media)))
      + MediaUpserts(Listing(NewOrChangedMedia(v.sessions.media, p.sessions.media)), p.sessions.media)
  }

  function UpToRealtime(v: Snapshot, p: Snapshot, at: nat): seq<Change> {
    var inventory := InventoryChanges(v, p);
    inventory + ControlChanges(FoldChanges(v, inventory), p, at) + RealtimeChanges(v, p)
  }

  /** Everything reconcile emits for a view and a prepared projection, in order. */
  function Changes(v: Snapshot, p: Snapshot, at: nat): seq<Change> {
    var first := UpToRealtime(v, p, at);
    first + DiagnosticsChanges(FoldChanges(v, first), p) + SessionChanges(v, p)
  }

  // ----- Folding the groups

  lemma {:induction false} FoldChangesAppend(s: Snapshot, a: seq<Change>, b: seq<Change>)
    ensures FoldChanges(s, a + b) == FoldChanges(FoldChanges(s, a), b)
    decreases |b|
  {
    if b == [] {
      assert a + b == a;
    } else {
      FoldChangesAppend(s, a, b[..|b| - 1]);
      assert (a + b)[..|a + b| - 1] == a + b[..|b| - 1];
    }
  }

  lemma FoldOne(s: Snapshot, c: Change)
    ensures FoldChanges(s, [c]) == ApplyChange(s, c) && FoldChanges(s, []) == s
  {
    assert [c][..0] == [];
  }

  lemma {:induction false} FoldRemoves(s: Snapshot, ids: seq<Id>)
    requires DistinctDevices(s.devices)
    ensures var s' := FoldChanges(s, Removes(ids));
            && s' == s.(devices := s'.devices) && DistinctDevices(s'.devices)
            && (forall d :: d in s'.devices <==> d in s.devices && d.id !in ids)
  {
    if ids != [] {
      var n := |ids| - 1;
      FoldRemoves(s, ids[..n]);
      assert Removes(ids)[..n] == Removes(ids[..n]);
      var before := FoldChanges(s, Removes(ids[..n]));
      RemoveKeepsDevices(before.devices, ids[n]);
      assert forall id :: id in ids <==> id in ids[..n] || id == ids[n];
    }
  }

  lemma {:induction false} FoundDevice(devices: seq<Device>, id: Id)
    requires DistinctDevices(devices)
    ensures forall d :: FindDevice(devices, id) == Some(d) <==> d in devices && d.id == id
    ensures FindDevice(devices, id).Some? <==> id in DeviceIds(devices)
  {
    if devices != [] {
      FoundDevice(devices[1..], id);
      assert devices == [devices[0]] + devices[1..];
      assert forall d :: d in devices[1..] ==> d.id != devices[0].id;
      assert DeviceIds(devices) == {devices[0].id} + DeviceIds(devices[1..]);
    }
  }

  lemma {:induction false} FoldUpserts(s: Snapshot, ids: seq<Id>, target: seq<Device>)
    requires DistinctDevices(s.devices) && DistinctDevices(target)
    requires forall id :: id in ids ==> id in DeviceIds(target)
    ensures var s' := FoldChanges(s, Upserts(ids, target));
            && s' == s.(devices := s'.devices) && DistinctDevices(s'.devices)
            && (forall d :: d in s'.devices <==> if d.id in ids then d in target else d in s.devices)
  {
    if ids != [] {
      var n := |ids| - 1;
      FoldUpserts(s, ids[..n], target);
      FoundDevice(target, ids[n]);
      assert ids[n] in ids;
      var device := FindDevice(target, ids[n]).value;
      var before := FoldChanges(s, Upserts(ids[..n], target));
      FoldChangesAppend(s, Upserts(ids[..n], target), [DeviceUpsert(device)]);
      FoldOne(before, DeviceUpsert(device));
      UpsertKeepsDevices(before.devices, device);
      assert forall id :: id in ids <==> id in ids[..n] || id == ids[n];
    }
  }

  lemma {:induction false} FoldMediaRemoves(s: Snapshot, ids: seq<Id>)
    requires DistinctMedia(s.sessions.media)
    ensures var s' := FoldChanges(s, MediaRemoves(ids));
            && s' == s.(sessions := s.sessions.(media := s'.sessions.media)) && DistinctMedia(s'.sessions.media)
            && (forall m :: m in s'.sessions.media <==> m in s.sessions.media && m.id !in ids)
  {
    if ids != [] {
      var n := |ids| - 1;
      FoldMediaRemoves(s, ids[..n]);
      assert MediaRemoves(ids)[..n] == MediaRemoves(ids[..n]);
      var before := FoldChanges(s, MediaRemoves(ids[..n]));
      RemoveKeepsMedia(before.sessions.media, ids[n]);
      assert forall id :: id in ids <==> id in ids[..n] || id == ids[n];
    }
  }

  lemma {:induction false} FoundMedia(media: seq<MediaSession>, id: Id)
    requires DistinctMedia(media)
    ensures forall m :: FindMedia(media, id) == Some(m) <==> m in media && m.id == id
    ensures FindMedia(media, id).Some? <==> id in MediaIds(media)
  {
    if media != [] {
      FoundMedia(media[1..], id);
      assert media == [media[0]] + media[1..];
      assert forall m :: m in media[1..] ==> m.id != media[0].id;
      assert MediaIds(media) == {media[0].id} + MediaIds(media[1..]);
    }
  }

  lemma {:induction false} FoldMediaUpserts(s: Snapshot, ids: seq<Id>, target: seq<MediaSession>)
    requires DistinctMedia(s.sessions.media) && DistinctMedia(target)
    requires forall id :: id in ids ==> id in MediaIds(target)
    ensures var s' := FoldChanges(s, MediaUpserts(ids, target));
            && s' == s.(sessions := s.sessions.(media := s'.sessions.media)) && DistinctMedia(s'.sessions.media)
            && (forall m :: m in s'.sessions.media <==> if m.id in ids then m in target else m in s.sessions.media)
  {
    if ids != [] {
      var n := |ids| - 1;
      FoldMediaUpserts(s, ids[..n], target);
      FoundMedia(target, ids[n]);
      assert ids[n] in ids;
      var session := FindMedia(target, ids[n]).value;
      var before := FoldChanges(s, MediaUpserts(ids[..n], target));
      assert MediaUpserts(ids, target) == MediaUpserts(ids[..n], target) + [MediaUpsert(session)];
      hide FoldChanges, DistinctMedia, MediaUpserts, FindMedia, UpsertMedia;
      FoldChangesAppend(s, MediaUpserts(ids[..n], target), [MediaUpsert(session)]);
      FoldOne(before, MediaUpsert(session));
      UpsertKeepsMedia(before.sessions.media, session);
      assert forall id :: id in ids <==> id in ids[..n] || id == ids[n];
    }
  }

  lemma {:induction false} FoldDiscretes(s: Snapshot, ts: seq<Transition>)
    ensures FoldChanges(s, Discretes(ts)) == s.(dynamic := Fold(s.dynamic, ts))
  {
    if ts != [] {
      var n := |ts| - 1;
      FoldDiscretes(s, ts[..n]);
      assert Discretes(ts)[..n] == Discretes(ts[..n]);
    }
  }

  lemma DevicesReach(s: Snapshot, v: Snapshot, p: Snapshot)
    requires s.devices == v.devices && DistinctDevices(v.devices) && DistinctDevices(p.devices)
    ensures var s' := FoldChanges(s, DeviceChanges(v, p));
            && s' == s.(devices := s'.devices) && DistinctDevices(s'.devices)
            && (forall d :: d in s'.devices <==> d in p.devices)
  {
    var gone := DeviceIds(v.devices) - DeviceIds(p.devices);
    var added := NewOrChanged(v.devices, p.devices);
    ListingHas(gone);
    ListingHas(added);
    FoldChangesAppend(s, Removes(Listing(gone)), Upserts(Listing(added), p.devices));
    FoldRemoves(s, Listing(gone));
    var kept := FoldChanges(s, Removes(Listing(gone)));
    FoldUpserts(kept, Listing(added), p.devices);
    var s' := FoldChanges(s, DeviceChanges(v, p));
    hide FoldChanges, Removes, Upserts, Listing, ApplyChange, DistinctDevices;
    forall d ensures d in s'.devices <==> d in p.devices {
      DeviceSettles(v.devices, p.devices, d);
    }
  }

  lemma DeviceSettles(current: seq<Device>, target: seq<Device>, d: Device)
    requires DistinctDevices(current) && DistinctDevices(target)
    ensures (if d.id in NewOrChanged(current, target) then d in target
             else d in current && d.id !in DeviceIds(current) - DeviceIds(target)) <==> d in target
  {
    FoundDevice(current, d.id);
    FoundDevice(target, d.id);
    if d.id !in NewOrChanged(current, target) && d.id in DeviceIds(target) {
      var e :| e in target && e.id == d.id;
      assert FindDevice(current, e.id) == Some(e);
    }
  }

  lemma MediaReaches(s: Snapshot, v: Snapshot, p: Snapshot)
    requires s.sessions == v.sessions && DistinctMedia(v.sessions.media) && DistinctMedia(p.sessions.media)
    requires v.sessions.control == p.sessions.control
    ensures var s' := FoldChanges(s, SessionChanges(v, p));
            && s' == s.(sessions := s.sessions.(media := s'.sessions.media)) && DistinctMedia(s'.sessions.media)
            && (forall m :: m in s'.sessions.media <==> m in p.sessions.media)
  {
    var current, target := v.sessions.media, p.sessions.media;
    var gone := MediaIds(current) - MediaIds(target);
    var renewed := NewOrChangedMedia(current, target);
    ListingHas(gone);
    ListingHas(renewed);
    FoldChangesAppend(s, MediaRemoves(Listing(gone)), MediaUpserts(Listing(renewed), target));
    FoldMediaRemoves(s, Listing(gone));
    var kept := FoldChanges(s, MediaRemoves(Listing(gone)));
    FoldMediaUpserts(kept, Listing(renewed), target);
    var s' := FoldChanges(s, SessionChanges(v, p));
    hide FoldChanges, MediaRemoves, MediaUpserts, Listing, ApplyChange, DistinctMedia;
    forall m ensures m in s'.sessions.media <==> m in target {
      MediaSettles(current, target, m);
    }
  }

  lemma MediaSettles(current: seq<MediaSession>, target: seq<MediaSession>, m: MediaSession)
    requires DistinctMedia(current) && DistinctMedia(target)
    ensures (if m.id in NewOrChangedMedia(current, target) then m in target
             else m in current && m.id !in MediaIds(current) - MediaIds(target)) <==> m in target
  {
    FoundMedia(current, m.id);
    FoundMedia(target, m.id);
    if m.id !in NewOrChangedMedia(current, target) && m.id in MediaIds(target) {
      var e :| e in target && e.id == m.id;
      assert FindMedia(current, e.id) == Some(e);
    }
  }

  /** The status once inventory changes were applied: a new one still repeats the old control session. */
  function StatusMeanwhile(v: Snapshot, p: Snapshot): Status {
    if v.status == p.status || v.sessions.control.None? then p.status
    else p.status.(session := v.sessions.control, activeTarget := TargetOf(v.sessions.control.value))
  }

  lemma StatusReaches(v: Snapshot, p: Snapshot)
    requires Prepared(v) && Prepared(p)
    ensures FoldChanges(v, if v.status != p.status then [StatusChange(p.status)] else [])
            == v.(status := StatusMeanwhile(v, p), dynamic := v.dynamic.(diagnostics := p.dynamic.diagnostics))
  {
    FoldOne(v, StatusChange(p.status));
    hide FoldChanges, DistinctDevices, DistinctMedia;
  }

  lemma CapabilitiesReach(s: Snapshot, p: Snapshot)
    ensures FoldChanges(s, if s.capabilities != p.capabilities then [CapabilitiesChange(p.capabilities)] else [])
            == s.(capabilities := p.capabilities)
  {
    FoldOne(s, CapabilitiesChange(p.capabilities));
  }

  lemma LayoutReaches(s: Snapshot, p: Snapshot)
    ensures FoldChanges(s, if s.layout != p.layout then [Topology(p.layout)] else []) == s.(layout := p.layout)
  {
    FoldOne(s, Topology(p.layout));
  }

  lemma DisplaysReach(s: Snapshot, p: Snapshot)
    ensures FoldChanges(s, if s.displays != p.displays then [DisplayInventory(p.displays)] else [])
            == s.(displays := p.displays)
  {
    FoldOne(s, DisplayInventory(p.displays));
  }

  lemma InventoryReaches(v: Snapshot, p: Snapshot)
    requires Prepared(v) && Prepared(p)
    ensures var s := FoldChanges(v, InventoryChanges(v, p));
            && s == v.(status := StatusMeanwhile(v, p), capabilities := p.capabilities, devices := s.devices,
                 layout := p.layout,
                       displays := p.displays, dynamic := v.dynamic.(diagnostics := p.dynamic.diagnostics))
            && DistinctDevices(s.devices) && (forall d :: d in s.devices <==> d in p.devices)
  {
    StatusReaches(v, p);
    assert DistinctDevices(v.devices) && DistinctDevices(p.devices);
    hide FoldChanges, DeviceChanges, StatusMeanwhile, Prepared, DistinctDevices;
    var a := if v.status != p.status then [StatusChange(p.status)] else [];
    var b := if v.capabilities != p.capabilities then [CapabilitiesChange(p.capabilities)] else [];
    var c := DeviceChanges(v, p);
    var e := if v.layout != p.layout then [Topology(p.layout)] else [];
    var f := if v.displays != p.displays then [DisplayInventory(p.displays)] else [];
    assert InventoryChanges(v, p) == a + b + c + e + f;
    FoldChangesAppend(v, a + b + c + e, f);
    FoldChangesAppend(v, a + b + c, e);
    FoldChangesAppend(v, a + b, c);
    FoldChangesAppend(v, a, b);
    CapabilitiesReach(FoldChanges(v, a), p);
    DevicesReach(FoldChanges(v, a + b), v, p);
    LayoutReaches(FoldChanges(v, a + b + c), p);
    DisplaysReach(FoldChanges(v, a + b + c + e), p);
  }

  lemma ControlsReach(s: Snapshot, p: Snapshot, at: nat)
    ensures FoldChanges(s, ControlChanges(s, p, at))
            == s.(dynamic := s.dynamic.(keys := p.dynamic.keys, buttons := p.dynamic.buttons,
                padButtons := p.dynamic.padButtons))
  {
    var discrete := DiscreteChanges(s.dynamic, p.dynamic.keys, p.dynamic.buttons, at);
    var after := Fold(s.dynamic, discrete);
    var pads := PadPressedChanges(after.padButtons, p.dynamic.padButtons, at);
    FoldChangesAppend(s, Discretes(discrete), Discretes(pads));
    FoldDiscretes(s, discrete);
    FoldDiscretes(FoldChanges(s, Discretes(discrete)), pads);
    DiscreteChangesReach(s.dynamic, p.dynamic.keys, p.dynamic.buttons, at);
    PadTransitionsReach(after, p.dynamic.padButtons, at);
    hide Fold, FoldChanges, DiscreteChanges, PadPressedChanges, Discretes;
  }

  lemma RealtimeReaches(s: Snapshot, v: Snapshot, p: Snapshot)
    requires s.dynamic.pointer == v.dynamic.pointer && s.dynamic.gamepads == v.dynamic.gamepads
    ensures FoldChanges(s, RealtimeChanges(v, p))
            == s.(dynamic := s.dynamic.(pointer := if p.dynamic.pointer.Some? then p.dynamic.pointer
                else v.dynamic.pointer,
                                        gamepads := p.dynamic.gamepads))
  {
    var a := if v.dynamic.pointer != p.dynamic.pointer && p.dynamic.pointer.Some?
        then [PointerChange(p.dynamic.pointer.value)] else [];
    var b := if v.dynamic.gamepads != p.dynamic.gamepads then [GamepadsChange(p.dynamic.gamepads)] else [];
    FoldChangesAppend(s, a, b);
    if a != [] {
      FoldOne(s, a[0]);
    }
    if b != [] {
      FoldOne(FoldChanges(s, a), b[0]);
    }
    assert RealtimeChanges(v, p) == a + b;
  }

  /** The status at the end: a session that ends without a successor is cleared from it. */
  function StatusReached(v: Snapshot, p: Snapshot): Status {
    if v.sessions.control != p.sessions.control && p.sessions.control.None?
    then p.status.(session := None, activeTarget := None) else p.status
  }

  lemma SessionsReach(s: Snapshot, v: Snapshot, p: Snapshot)
    requires Prepared(v) && Prepared(p)
    requires s.sessions == v.sessions && s.status == StatusMeanwhile(v, p)
    ensures var s' := FoldChanges(s, SessionChanges(v, p));
            && s' == s.(status := StatusReached(v, p), sessions := s'.sessions)
            && s'.sessions.control == p.sessions.control && DistinctMedia(s'.sessions.media)
            && (forall m :: m in s'.sessions.media <==> m in p.sessions.media)
  {
    if v.sessions.control == p.sessions.control {
      MediaReaches(s, v, p);
      hide FoldChanges, SessionChanges;
    } else {
      FoldOne(s, SessionChange(p.sessions));
      hide FoldChanges;
    }
  }

  /** The changes of the realtime step and before it, folded. */
  lemma BeforeDiagnostics(v: Snapshot, p: Snapshot, at: nat)
    requires Prepared(v) && Prepared(p)
    ensures var s := FoldChanges(v, UpToRealtime(v, p, at));
            && s == v.(status := StatusMeanwhile(v, p), capabilities := p.capabilities, devices := s.devices,
                 layout := p.layout,
                       displays := p.displays,
                       dynamic := p.dynamic.(pointer := if p.dynamic.pointer.Some? then p.dynamic.pointer
                           else v.dynamic.pointer))
            && DistinctDevices(s.devices) && (forall d :: d in s.devices <==> d in p.devices)
  {
    var inventory := InventoryChanges(v, p);
    var controls := ControlChanges(FoldChanges(v, inventory), p, at);
    FoldChangesAppend(v, inventory + controls, RealtimeChanges(v, p));
    FoldChangesAppend(v, inventory, controls);
    InventoryReaches(v, p);
    var s1 := FoldChanges(v, inventory);
    ControlsReach(s1, p, at);
    var s2 := FoldChanges(v, inventory + controls);
    hide FoldChanges, InventoryChanges, ControlChanges, RealtimeChanges, StatusMeanwhile, DistinctDevices, Prepared;
    RealtimeReaches(s2, v, p);
  }

  /** What reconciling leaves in the view. */
  ghost predicate Reconciled(v: Snapshot, p: Snapshot, s: Snapshot) {
    && s.capabilities == p.capabilities && s.layout == p.layout && s.displays == p.displays
    && DistinctDevices(s.devices) && (forall d :: d in s.devices <==> d in p.devices)
    && s.dynamic == p.dynamic.(pointer := if p.dynamic.pointer.Some? then p.dynamic.pointer else v.dynamic.pointer)
    && s.sessions.control == p.sessions.control && DistinctMedia(s.sessions.media)
    && (forall m :: m in s.sessions.media <==> m in p.sessions.media)
    && s.status == StatusReached(v, p)
    && s.protocol == v.protocol && s.boot == v.boot && s.revision == v.revision
  }

  /** The diagnostics came with the status, so they are never emitted on their own. */
  lemma DiagnosticsAreReached(v: Snapshot, p: Snapshot, at: nat)
    requires Prepared(v) && Prepared(p)
    ensures Changes(v, p, at) == UpToRealtime(v, p, at) + SessionChanges(v, p)
  {
    BeforeDiagnostics(v, p, at);
    hide FoldChanges, UpToRealtime, SessionChanges, StatusMeanwhile, DistinctDevices, Prepared;
    assert UpToRealtime(v, p, at) + [] == UpToRealtime(v, p, at);
  }

  /** The emitted changes, applied in order, turn the view into the projection. */
  lemma ChangesReachTheProjection(v: Snapshot, p: Snapshot, at: nat)
    requires Prepared(v) && Prepared(p)
    ensures Reconciled(v, p, FoldChanges(v, Changes(v, p, at)))
  {
    DiagnosticsAreReached(v, p, at);
    BeforeDiagnostics(v, p, at);
    hide FoldChanges, UpToRealtime, SessionChanges, StatusMeanwhile, StatusReached, DistinctDevices, DistinctMedia,
        Prepared, Changes, Reconciled;
    FoldChangesAppend(v, UpToRealtime(v, p, at), SessionChanges(v, p));
    var s := FoldChanges(v, UpToRealtime(v, p, at));
    SessionsReach(s, v, p);
    BothReach(v, p, s, FoldChanges(s, SessionChanges(v, p)));
  }

  lemma BothReach(v: Snapshot, p: Snapshot, s: Snapshot, s': Snapshot)
    requires s == v.(status := StatusMeanwhile(v, p), capabilities := p.capabilities, devices := s.devices,
             layout := p.layout,
                     displays := p.displays,
                     dynamic := p.dynamic.(pointer := if p.dynamic.pointer.Some? then p.dynamic.pointer
                         else v.dynamic.pointer))
    requires DistinctDevices(s.devices) && forall d :: d in s.devices <==> d in p.devices
    requires s' == s.(status := StatusReached(v, p), sessions := s'.sessions)
    requires s'.sessions.control == p.sessions.control && DistinctMedia(s'.sessions.media)
    requires forall m :: m in s'.sessions.media <==> m in p.sessions.media
    ensures Reconciled(v, p, s')
  {
    hide StatusMeanwhile, StatusReached, DistinctDevices, DistinctMedia;
  }

  /**
   Two things of a projection do not get through: a pointer that it no longer has stays in the view, and a status
   that still names a session, in a projection without one, loses it when the view's session ends.
   */
  lemma ProjectionShowsExactlyWhen(v: Snapshot, p: Snapshot, at: nat)
    requires Prepared(v) && Prepared(p)
    ensures var s := FoldChanges(v, Changes(v, p, at));
            && (s.dynamic == p.dynamic <==> (p.dynamic.pointer.None? ==> v.dynamic.pointer.None?))
            && (s.status == p.status <==>
                  (v.sessions.control != p.sessions.control && p.sessions.control.None? ==>
                     p.status.session.None? && p.status.activeTarget.None?))
  {
    ChangesReachTheProjection(v, p, at);
    hide Changes, FoldChanges, Prepared, DistinctDevices, DistinctMedia;
  }

  /** Both do happen: the projection only has to drop the pointer, or the session but not its name in the status. */
  lemma AProjectionIsNotReached(v: Snapshot, at: nat)
    requires Prepared(v) && v.dynamic.pointer.Some? && v.sessions.control.Some? && v.status.session.Some?
    ensures var p := v.(dynamic := v.dynamic.(pointer := None));
            Prepared(p) && FoldChanges(v, Changes(v, p, at)).dynamic.pointer == v.dynamic.pointer
    ensures var p := v.(sessions := v.sessions.(control := None));
            Prepared(p) && FoldChanges(v, Changes(v, p, at)).status != p.status
  {
    assert v.dynamic.(pointer := None).pointer.None?;
    hide Changes, FoldChanges, DistinctDevices, DistinctMedia;
    ChangesReachTheProjection(v, v.(dynamic := v.dynamic.(pointer := None)), at);
    ProjectionShowsExactlyWhen(v, v.(sessions := v.sessions.(control := None)), at);
  }

  // ----- Nothing is emitted without news

  /** The view and the projection agree but for times of observation. */
  ghost predicate SameButVolatile(v: Snapshot, p: Snapshot) {
    && v.status.(feedback := p.status.feedback) == p.status && v.status.feedback.content == p.status.feedback.content
    && v.capabilities.content == p.capabilities.content && v.layout == p.layout && v.displays == p.displays
    && SameDevices(v.devices, p.devices)
    && v.dynamic.keys == p.dynamic.keys && v.dynamic.buttons == p.dynamic.buttons
         && v.dynamic.padButtons == p.dynamic.padButtons
    && v.dynamic.gamepads == p.dynamic.gamepads
    && (p.dynamic.pointer.None? || SamePlace(p.dynamic.pointer, v.dynamic.pointer))
    && v.sessions.control == p.sessions.control
    && (forall m :: m in v.sessions.media <==> m in p.sessions.media)
  }

  ghost predicate SameDevices(current: seq<Device>, target: seq<Device>) {
    && DeviceIds(current) == DeviceIds(target)
    && (forall d ::
         d in target ==>
         FindDevice(current, d.id).Some? && FindDevice(current, d.id).value.description == d.description)
  }

  lemma {:induction false} UpsertsSize(ids: seq<Id>, target: seq<Device>)
    requires DistinctDevices(target) && forall id :: id in ids ==> id in DeviceIds(target)
    ensures |Upserts(ids, target)| == |ids|
  {
    if ids != [] {
      UpsertsSize(ids[..|ids| - 1], target);
      FoundDevice(target, ids[|ids| - 1]);
      assert ids[|ids| - 1] in ids;
    }
  }

  lemma {:induction false} MediaUpsertsSize(ids: seq<Id>, target: seq<MediaSession>)
    requires DistinctMedia(target) && forall id :: id in ids ==> id in MediaIds(target)
    ensures |MediaUpserts(ids, target)| == |ids|
  {
    if ids != [] {
      MediaUpsertsSize(ids[..|ids| - 1], target);
      FoundMedia(target, ids[|ids| - 1]);
      assert ids[|ids| - 1] in ids;
    }
  }

  lemma DevicesQuiet(v: Snapshot, p: Snapshot)
    requires DistinctDevices(v.devices) && DistinctDevices(p.devices)
    ensures DeviceChanges(v, p) == [] <==> forall d :: d in v.devices <==> d in p.devices
  {
    var gone := DeviceIds(v.devices) - DeviceIds(p.devices);
    var added := NewOrChanged(v.devices, p.devices);
    ListingHas(gone);
    ListingHas(added);
    UpsertsSize(Listing(added), p.devices);
    assert DeviceChanges(v, p) == [] <==> gone == {} && added == {};
    hide Listing, Upserts, Removes, DeviceChanges;
    if gone == {} && added == {} {
      forall d ensures d in v.devices <==> d in p.devices {
        DeviceSettles(v.devices, p.devices, d);
      }
    }
    if forall d :: d in v.devices <==> d in p.devices {
      forall d | d in p.devices ensures FindDevice(v.devices, d.id) == Some(d) {
        FoundDevice(v.devices, d.id);
      }
      assert gone == {} && added == {};
    }
  }

  lemma MediaQuiet(v: Snapshot, p: Snapshot)
    requires DistinctMedia(v.sessions.media) && DistinctMedia(p.sessions.media)
    ensures SessionChanges(v, p) == [] <==>
              v.sessions.control == p.sessions.control && forall m :: m in v.sessions.media <==> m in p.sessions.media
  {
    var current, target := v.sessions.media, p.sessions.media;
    var gone := MediaIds(current) - MediaIds(target);
    var added := NewOrChangedMedia(current, target);
    ListingHas(gone);
    ListingHas(added);
    MediaUpsertsSize(Listing(added), target);
    assert SessionChanges(v, p) == [] <==> v.sessions.control == p.sessions.control && gone == {} && added == {};
    hide Listing, MediaUpserts, MediaRemoves, SessionChanges;
    if gone == {} && added == {} {
      forall m ensures m in current <==> m in target {
        MediaSettles(current, target, m);
      }
    }
    if forall m :: m in current <==> m in target {
      forall m | m in target ensures FindMedia(current, m.id) == Some(m) {
        FoundMedia(current, m.id);
      }
      assert gone == {} && added == {};
    }
  }

  lemma ControlsQuiet(s: Snapshot, p: Snapshot, at: nat)
    ensures ControlChanges(s, p, at) == [] <==>
              s.dynamic.keys == p.dynamic.keys && s.dynamic.buttons == p.dynamic.buttons
                  && s.dynamic.padButtons == p.dynamic.padButtons
  {
    var discrete := DiscreteChanges(s.dynamic, p.dynamic.keys, p.dynamic.buttons, at);
    var after := Fold(s.dynamic, discrete);
    QuietWhenEqual(s.dynamic, p.dynamic.keys, p.dynamic.buttons, {}, at);
    QuietWhenEqual(after, {}, {}, p.dynamic.padButtons, at);
    DiscreteChangesReach(s.dynamic, p.dynamic.keys, p.dynamic.buttons, at);
    hide Fold, DiscreteChanges, PadPressedChanges, PadTransitions;
  }

  lemma InventoryQuiet(v: Snapshot, p: Snapshot)
    requires DistinctDevices(v.devices) && DistinctDevices(p.devices)
    ensures InventoryChanges(v, p) == [] <==>
              && v.status == p.status && v.capabilities == p.capabilities && v.layout == p.layout
                   && v.displays == p.displays
              && (forall d :: d in v.devices <==> d in p.devices)
  {
    DevicesQuiet(v, p);
    hide DeviceChanges, DistinctDevices;
  }

  /** Nothing is emitted for a prepared projection exactly when the view shows all of it, a missing pointer aside. */
  lemma QuietForPrepared(v: Snapshot, p: Snapshot, at: nat)
    requires Prepared(v) && Prepared(p)
    ensures Changes(v, p, at) == [] <==>
              && v.status == p.status && v.capabilities == p.capabilities && v.layout == p.layout
                   && v.displays == p.displays
              && (forall d :: d in v.devices <==> d in p.devices)
              && v.dynamic.keys == p.dynamic.keys && v.dynamic.buttons == p.dynamic.buttons
              && v.dynamic.padButtons == p.dynamic.padButtons && v.dynamic.gamepads == p.dynamic.gamepads
              && (p.dynamic.pointer.None? || v.dynamic.pointer == p.dynamic.pointer)
              && v.sessions.control == p.sessions.control && forall m ::
                   m in v.sessions.media <==> m in p.sessions.media
  {
    DiagnosticsAreReached(v, p, at);
    InventoryQuiet(v, p);
    MediaQuiet(v, p);
    var inventory := InventoryChanges(v, p);
    ControlsQuiet(v, p, at);
    FoldOne(v, Topology(0));
    hide InventoryChanges, ControlChanges, SessionChanges, Changes, Prepared, DistinctDevices, DistinctMedia;
    if inventory == [] {
      assert FoldChanges(v, inventory) == v;
    }
  }

  lemma SettlingKeepsIds(projected: seq<Device>, current: seq<Device>)
    requires DistinctDevices(current)
    ensures var settled := SettledDevices(projected, current);
            && DistinctDevices(projected) == DistinctDevices(settled)
            && DeviceIds(settled) == DeviceIds(projected)
  {
    var settled := SettledDevices(projected, current);
    assert forall i :: 0 <= i < |projected| ==> settled[i].id == projected[i].id;
    forall id ensures id in DeviceIds(settled) <==> id in DeviceIds(projected) {
      if id in DeviceIds(projected) {
        var i :| 0 <= i < |projected| && projected[i].id == id;
        assert settled[i] in settled;
      }
      if id in DeviceIds(settled) {
        var i :| 0 <= i < |settled| && settled[i].id == id;
        assert projected[i] in projected;
      }
    }
  }

  lemma SettledShowsKnown(current: seq<Device>, d: Device)
    requires DistinctDevices(current)
    ensures SettledDevice(d, current) in current <==>
              FindDevice(current, d.id).Some? && FindDevice(current, d.id).value.description == d.description
  {
    FoundDevice(current, d.id);
  }

  /** After settling, the devices are the known ones exactly when nothing but times of sight differed. */
  lemma DevicesSettle(current: seq<Device>, projected: seq<Device>)
    requires DistinctDevices(current) && DistinctDevices(projected)
    ensures (forall d :: d in current <==> d in SettledDevices(projected, current)) <==> SameDevices(current, projected)
  {
    var settled := SettledDevices(projected, current);
    SettlingKeepsIds(projected, current);
    hide DistinctDevices, SettledDevice;
    if forall d :: d in current <==> d in settled {
      assert DeviceIds(current) == DeviceIds(settled);
      forall i | 0 <= i < |projected|
        ensures FindDevice(current, projected[i].id).Some?
                && FindDevice(current, projected[i].id).value.description == projected[i].description
      {
        assert settled[i] in current;
        SettledShowsKnown(current, projected[i]);
      }
    }
    if SameDevices(current, projected) {
      forall d ensures d in current <==> d in settled {
        if d in settled {
          var i :| 0 <= i < |settled| && settled[i] == d;
          assert projected[i] in projected;
          SettledShowsKnown(current, projected[i]);
        }
        if d in current {
          assert d.id in DeviceIds(settled);
          var e :| e in settled && e.id == d.id;
          var i :| 0 <= i < |settled| && settled[i] == e;
          assert projected[i] in projected;
          SettledShowsKnown(current, projected[i]);
          FoundDevice(current, d.id);
        }
      }
    }
  }

  lemma SettledPrepares(v: Snapshot, p: Snapshot)
    requires Prepared(v) && Prepare(p).Ok?
    ensures Prepare(Settled(v, p)).Ok?
    ensures var q := Prepare(Settled(v, p)).value;
            var r := Prepare(p).value;
            && Prepared(q) && Prepared(r)
            && q.status == (if r.status.feedback.content == v.status.feedback.content
                            then r.status.(feedback := r.status.feedback.(generatedAt := v.status.feedback.generatedAt))
                            else r.status)
            && q.capabilities == (if r.capabilities.content == v.capabilities.content
                                  then r.capabilities.(generatedAt := v.capabilities.generatedAt) else r.capabilities)
            && q.layout == r.layout && q.displays == r.displays && q.sessions == r.sessions
            && q.devices == SettledDevices(r.devices, v.devices)
            && q.dynamic == r.dynamic.(
                 pointer := if SamePlace(r.dynamic.pointer, v.dynamic.pointer) then v.dynamic.pointer
                     else r.dynamic.pointer,
                 diagnostics := q.status.feedback)
  {
    SettlingKeepsIds(p.devices, v.devices);
    PreparedIsFixed(Settled(v, p));
    PreparedIsFixed(p);
    hide SettledDevices, DistinctDevices, DistinctMedia;
  }

  /**
   Reconciling emits nothing exactly when the view and the prepared projection agree but for the times at which
   capabilities, feedback, devices and the pointer were observed.
   */
  lemma QuietExactlyWhenOnlyTimesDiffer(v: Snapshot, p: Snapshot, at: nat)
    requires Prepared(v) && Prepare(p).Ok?
    ensures Prepare(Settled(v, p)).Ok?
    ensures Changes(v, Prepare(Settled(v, p)).value, at) == [] <==> SameButVolatile(v, Prepare(p).value)
  {
    SettledPrepares(v, p);
    var q, r := Prepare(Settled(v, p)).value, Prepare(p).value;
    QuietForPrepared(v, q, at);
    DevicesSettle(v.devices, r.devices);
    hide Changes, Settled, Prepare, Prepared, SettledDevices, SameDevices, DistinctDevices, DistinctMedia;
  }

  // ----- No change is refused

  lemma {:induction false} UpsertsOnly(ids: seq<Id>, target: seq<Device>)
    ensures forall c :: c in Upserts(ids, target) ==> c.DeviceUpsert?
  {
    if ids != [] {
      UpsertsOnly(ids[..|ids| - 1], target);
    }
  }

  lemma {:induction false} MediaUpsertsOnly(ids: seq<Id>, target: seq<MediaSession>)
    ensures forall c :: c in MediaUpserts(ids, target) ==> c.MediaUpsert?
  {
    if ids != [] {
      MediaUpsertsOnly(ids[..|ids| - 1], target);
    }
  }

  lemma ChangesAcceptable(v: Snapshot, p: Snapshot, at: nat)
    requires Prepared(p)
    ensures forall c :: c in Changes(v, p, at) ==> Acceptable(c)
  {
    UpsertsOnly(Listing(NewOrChanged(v.devices, p.devices)), p.devices);
    MediaUpsertsOnly(Listing(NewOrChangedMedia(v.sessions.media, p.sessions.media)), p.sessions.media);
    hide Upserts, MediaUpserts, Listing, DiscreteChanges, PadPressedChanges, Fold, FoldChanges, DistinctMedia;
    var inventory := InventoryChanges(v, p);
    assert forall c :: c in inventory ==> Acceptable(c);
    assert forall c :: c in ControlChanges(FoldChanges(v, inventory), p, at) ==> Acceptable(c);
    assert forall c :: c in RealtimeChanges(v, p) ==> Acceptable(c);
    assert forall c :: c in SessionChanges(v, p) ==> Acceptable(c);
    hide InventoryChanges, ControlChanges, RealtimeChanges, SessionChanges;
  }
}
