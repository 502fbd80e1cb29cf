/** The audio policy registry: which remote endpoints exist, and which sessions use them. */
module AudioRegistry {
  import opened Common
  import opened AudioFormat

  type Id = nat

  const MAX_ENDPOINTS: nat := 256

  datatype Direction = Input | Output

  datatype Endpoint = Endpoint(
    id: string,
    name: string,
    direction: Direction,
    channels: byte,
    sampleRates: seq<u32>,
    virtualDevice: bool,
    available: bool)

  /** A device identity: the digest of these three, which no two devices share. */
  datatype Key = Key(peer: Id, endpoint: string, direction: Direction)

  datatype DeviceStatus = Pending | Registered | Offline | Unavailable

  datatype Device = Device(
    key: Key,
    peer: Id,
    name: string,
    endpoint: Endpoint,
    generation: nat,
    status: DeviceStatus,
    error: Option<string>)

  datatype Session = Session(
    id: Id,
    device: Key,
    peer: Id,
    direction: Direction,
    generation: nat,
    format: Format,
    channelMap: seq<byte>)

  datatype State = State(devices: seq<Device>, sessions: map<Id, Session>, generations: map<Id, nat>)

  // ----- Checks

  predicate ValidEndpoint(e: Endpoint) {
    && 0 < |e.id| <= 1024 && |e.name| <= 1024 && '\0' !in e.id && '\0' !in e.name
    && e.channels != 0 && 0 < |e.sampleRates| <= 32 && 0 !in e.sampleRates
  }

  predicate DistinctEndpoints(endpoints: seq<Endpoint>) {
    forall i, j :: 0 <= i < j < |endpoints| ==>
      endpoints[i].id != endpoints[j].id || endpoints[i].direction != endpoints[j].direction
  }

  function CatalogError(endpoints: seq<Endpoint>): Option<AudioError> {
    if |endpoints| > MAX_ENDPOINTS then Some(ResourceLimit)
    else if (forall e :: e in endpoints ==> ValidEndpoint(e)) && DistinctEndpoints(endpoints) then None
    else Some(InvalidEndpoint)
  }

  predicate Distinct(channels: seq<byte>) {
    forall i, j :: 0 <= i < j < |channels| ==> channels[i] != channels[j]
  }

  predicate InRange(channels: seq<byte>, limit: nat) {
    forall i :: 0 <= i < |channels| ==> channels[i] < limit
  }

  function FindDevice(devices: seq<Device>, key: Key): Option<Device> {
    if devices == [] then None
    else if devices[0].key == key then Some(devices[0])
    else FindDevice(devices[1..], key)
  }

  // ----- Steps

  function NewDevice(devices: seq<Device>, peer: Id, name: string, generation: nat, e: Endpoint): Device {
    var key := Key(peer, e.id, e.direction);
    var existing := FindDevice(devices, key);
    Device(key, peer, "RShare \U{B7} " + name + " \U{B7} " + e.name, e, generation,
           if !e.available then DeviceStatus.Unavailable
           else if existing.Some? && existing.value.status == Registered then Registered else Pending,
           None)
  }

  /** The device still offers what the session uses. */
  predicate Continues(d: Device, s: Session) {
    && d.key == s.device && d.generation == s.generation && d.endpoint.available
    && d.endpoint.channels >= s.format.channels && s.format.sampleRate in d.endpoint.sampleRates
    && InRange(s.channelMap, d.endpoint.channels)
  }

  predicate KeptBy(devices: seq<Device>, s: Session) {
    exists d :: d in devices && Continues(d, s)
  }

  function WithoutPeer(devices: seq<Device>, peer: Id): seq<Device> {
    if devices == [] then []
    else (if devices[0].peer == peer then [] else [devices[0]]) + WithoutPeer(devices[1..], peer)
  }

  function Announced(s: State, peer: Id, name: string, generation: nat, endpoints: seq<Endpoint>): seq<Device> {
    seq(|endpoints|, i requires 0 <= i < |endpoints| => NewDevice(s.devices, peer, name, generation, endpoints[i]))
  }

  function ReconcileError(s: State, peer: Id, name: string, generation: nat,
      endpoints: seq<Endpoint>): Option<AudioError> {
    if CatalogError(endpoints).Some? then CatalogError(endpoints)
    else if generation == 0 || (peer in s.generations && generation < s.generations[peer]) then Some(StaleGeneration)
    else if |name| > 1024 then Some(InvalidEndpoint)
    else if exists e :: e in endpoints && e.virtualDevice then Some(VirtualLoop)
    else None
  }

  function Reconcile(s: State, peer: Id, name: string, generation: nat, endpoints: seq<Endpoint>): State {
    if ReconcileError(s, peer, name, generation, endpoints).Some? then s
    else
      var next := Announced(s, peer, name, generation, endpoints);
      State(WithoutPeer(s.devices, peer) + next,
            map id | id in s.sessions && (s.sessions[id].peer != peer || KeptBy(next, s.sessions[id])) ::
                s.sessions[id],
            s.generations[peer := generation])
  }

  function Marked(d: Device, error: Option<string>): Device {
    d.(status := if error.None? then Registered else DeviceStatus.Unavailable, error := error)
  }

  function MarkFirst(devices: seq<Device>, key: Key, error: Option<string>): seq<Device> {
    if devices == [] then []
    else if devices[0].key == key then [Marked(devices[0], error)] + devices[1..]
    else [devices[0]] + MarkFirst(devices[1..], key, error)
  }

  lemma {:induction false} MarksAt(devices: seq<Device>, key: Key, error: Option<string>, k: nat)
    requires k <= |devices| && forall i :: 0 <= i < k ==> devices[i].key != key
    requires k < |devices| ==> devices[k].key == key
    ensures MarkFirst(devices, key, error)
            == if k < |devices| then devices[k := Marked(devices[k], error)] else devices
  {
    if k > 0 {
      MarksAt(devices[1..], key, error, k - 1);
    }
  }

  function SetRegistration(s: State, key: Key, error: Option<string>): State {
    s.(devices := MarkFirst(s.devices, key, error))
  }

  function Disconnected(s: State, peer: Id): State {
    s.(devices := seq(|s.devices|, i requires 0 <= i < |s.devices| =>
                        if s.devices[i].peer == peer then s.devices[i].(status := Offline) else s.devices[i]),
       sessions := map id | id in s.sessions && s.sessions[id].peer != peer :: s.sessions[id])
  }

  /** The channels a set of sessions uses. */
  function ChannelSum(sessions: map<Id, Session>): nat
    decreases |sessions|
  {
    if sessions == map[] then 0
    else
      var id := Smallest(sessions.Keys);
      RemovalShrinks(sessions, id);
      sessions[id].format.channels + ChannelSum(sessions - {id})
  }

  function SessionsOf(sessions: map<Id, Session>, peer: Id, direction: Direction): map<Id, Session> {
    map id | id in sessions && sessions[id].peer == peer && sessions[id].direction == direction :: sessions[id]
  }

  function OpenError(s: State, key: Key, format: Format, channelMap: seq<byte>): Option<AudioError> {
    if !ValidFormat(format) then Some(UnsupportedFormat)
    else match FindDevice(s.devices, key)
      case None => Some(InvalidEndpoint)
      case Some(d) =>
        if d.status != Registered then Some(BackendUnavailable)
        else if format.sampleRate !in d.endpoint.sampleRates || format.channels > d.endpoint.channels
            then Some(UnsupportedFormat)
        else if |channelMap| != format.channels || !InRange(channelMap, d.endpoint.channels)
            || !Distinct(channelMap) then
          Some(InvalidChannelMap)
        else if exists id ::
            id in s.sessions && s.sessions[id].peer == d.peer
            && s.sessions[id].format.sampleRate != format.sampleRate then
          Some(FormatConflict)
        else if ChannelSum(SessionsOf(s.sessions, d.peer, d.endpoint.direction)) + format.channels > MAX_CHANNELS then
          Some(ResourceLimit)
        else None
  }

  /** open with the fresh session id newId. */
  function Open(s: State, key: Key, format: Format, channelMap: seq<byte>, newId: Id): State {
    if OpenError(s, key, format, channelMap).Some? then s
    else
      var d := FindDevice(s.devices, key).value;
      s.(sessions := s.sessions[newId := Session(newId, key, d.peer, d.endpoint.direction, d.generation, format,
          channelMap)])
  }

  function Close(s: State, id: Id): State {
    s.(sessions := s.sessions - {id})
  }

  // ----- Invariant

  predicate DistinctKeys(devices: seq<Device>) {
    forall i, j :: 0 <= i < j < |devices| ==> devices[i].key != devices[j].key
  }

  predicate DeviceOk(s: State, d: Device) {
    && d.key == Key(d.peer, d.endpoint.id, d.endpoint.direction)
    && d.peer in s.generations && d.generation == s.generations[d.peer]
  }

  /** The device is the session's and offers its rate and channels. */
  predicate Serves(d: Device, x: Session) {
    && d.key == x.device && d.peer == x.peer && d.generation == x.generation && d.endpoint.direction == x.direction
    && x.format.sampleRate in d.endpoint.sampleRates && x.format.channels <= d.endpoint.channels
    && InRange(x.channelMap, d.endpoint.channels)
  }

  predicate SessionOk(s: State, x: Session) {
    && ValidFormat(x.format) && |x.channelMap| == x.format.channels && Distinct(x.channelMap)
    && exists d :: d in s.devices && Serves(d, x)
  }

  predicate OneRate(sessions: map<Id, Session>) {
    forall a, b :: a in sessions && b in sessions && sessions[a].peer == sessions[b].peer ==>
      sessions[a].format.sampleRate == sessions[b].format.sampleRate
  }

  ghost predicate WithinBudget(sessions: map<Id, Session>) {
    forall peer, direction :: ChannelSum(SessionsOf(sessions, peer, direction)) <= MAX_CHANNELS
  }

  ghost predicate Inv(s: State) {
    && DistinctKeys(s.devices) && (forall d :: d in s.devices ==> DeviceOk(s, d))
    && (forall id :: id in s.sessions ==> SessionOk(s, s.sessions[id]))
    && OneRate(s.sessions) && WithinBudget(s.sessions)
  }

  // ----- Channel sums

  lemma {:induction false} SumWithout(sessions: map<Id, Session>, id: Id)
    requires id in sessions
    ensures ChannelSum(sessions) == sessions[id].format.channels + ChannelSum(sessions - {id})
    decreases |sessions|
  {
    var least := Smallest(sessions.Keys);
    if id != least {
      RemovalShrinks(sessions, least);
      RemovalShrinks(sessions, id);
      SumWithout(sessions - {least}, id);
      SumWithout(sessions - {id}, least);
      assert sessions - {least} - {id} == sessions - {id} - {least};
    }
  }

  lemma {:induction false} SumOfPart(part: map<Id, Session>, whole: map<Id, Session>)
    requires forall id :: id in part ==> id in whole && part[id] == whole[id]
    ensures ChannelSum(part) <= ChannelSum(whole)
    decreases |part|
  {
    if part != map[] {
      var id := Smallest(part.Keys);
      RemovalShrinks(part, id);
      SumOfPart(part - {id}, whole - {id});
      SumWithout(whole, id);
    }
  }

  lemma SumWithOne(sessions: map<Id, Session>, id: Id, x: Session)
    requires id !in sessions
    ensures ChannelSum(sessions[id := x]) == ChannelSum(sessions) + x.format.channels
  {
    SumWithout(sessions[id := x], id);
    assert sessions[id := x] - {id} == sessions;
  }

  lemma FewerSessions(before: map<Id, Session>, after: map<Id, Session>)
    requires forall id :: id in after ==> id in before && after[id] == before[id]
    ensures OneRate(before) ==> OneRate(after)
    ensures WithinBudget(before) ==> WithinBudget(after)
  {
    if WithinBudget(before) {
      forall peer, direction ensures ChannelSum(SessionsOf(after, peer, direction)) <= MAX_CHANNELS {
        SumOfPart(SessionsOf(after, peer, direction), SessionsOf(before, peer, direction));
      }
    }
  }

  // ----- Devices

  lemma {:induction false} WithoutPeerKeepsOthers(devices: seq<Device>, peer: Id)
    ensures forall d :: d in WithoutPeer(devices, peer) <==> d in devices && d.peer != peer
    ensures DistinctKeys(devices) ==> DistinctKeys(WithoutPeer(devices, peer))
  {
    if devices != [] {
      WithoutPeerKeepsOthers(devices[1..], peer);
      var rest := WithoutPeer(devices[1..], peer);
      assert devices == [devices[0]] + devices[1..];
      if DistinctKeys(devices) {
        assert DistinctKeys(devices[1..]);
        assert forall d :: d in devices[1..] ==> d.key != devices[0].key;
        assert forall i :: 0 <= i < |rest| ==> rest[i] in rest;
      }
    }
  }

  lemma {:induction false} FoundDevice(devices: seq<Device>, key: Key)
    ensures var found := FindDevice(devices, key);
            && (found.Some? ==> found.value in devices && found.value.key == key)
            && (found.None? ==> forall d :: d in devices ==> d.key != key)
  {
    if devices != [] {
      FoundDevice(devices[1..], key);
      assert devices == [devices[0]] + devices[1..];
    }
  }

  lemma {:induction false} MarkedDevices(devices: seq<Device>, key: Key, error: Option<string>)
    ensures |MarkFirst(devices, key, error)| == |devices|
    ensures forall i :: 0 <= i < |devices| ==>
              MarkFirst(devices, key, error)[i] == devices[i]
                  || MarkFirst(devices, key, error)[i] == Marked(devices[i], error)
  {
    if devices != [] {
      MarkedDevices(devices[1..], key, error);
    }
  }

  /** Devices that differ only in status and error serve the same sessions. */
  lemma SameOffers(s: State, devices: seq<Device>, x: Session)
    requires |devices| == |s.devices| && SessionOk(s, x)
    requires forall i :: 0 <= i < |devices| ==>
               devices[i] == s.devices[i].(status := devices[i].status, error := devices[i].error)
    ensures SessionOk(s.(devices := devices), x)
  {
    var d :| d in s.devices && Serves(d, x);
    var i :| 0 <= i < |s.devices| && s.devices[i] == d;
    assert devices[i] in devices && Serves(devices[i], x);
  }

  lemma SameOffersKeepInv(s: State, devices: seq<Device>, sessions: map<Id, Session>)
    requires Inv(s) && |devices| == |s.devices|
    requires forall i :: 0 <= i < |devices| ==>
               devices[i] == s.devices[i].(status := devices[i].status, error := devices[i].error)
    requires forall id :: id in sessions ==> id in s.sessions && sessions[id] == s.sessions[id]
    ensures Inv(State(devices, sessions, s.generations))
  {
    var s' := State(devices, sessions, s.generations);
    FewerSessions(s.sessions, sessions);
    hide OneRate, WithinBudget;
    forall id | id in sessions ensures SessionOk(s', sessions[id]) {
      SameOffers(s, devices, sessions[id]);
    }
    forall d | d in devices ensures DeviceOk(s', d) {
      var i :| 0 <= i < |devices| && devices[i] == d;
      assert DeviceOk(s, s.devices[i]);
    }
  }

  // ----- Each operation keeps the invariant

  lemma AnnouncedAreDistinct(s: State, peer: Id, name: string, generation: nat, endpoints: seq<Endpoint>)
    requires DistinctEndpoints(endpoints)
    ensures DistinctKeys(Announced(s, peer, name, generation, endpoints))
  {
  }

  lemma AnnouncedArePeers(s: State, peer: Id, name: string, generation: nat, endpoints: seq<Endpoint>)
    requires ReconcileError(s, peer, name, generation, endpoints).None?
    ensures var next := Announced(s, peer, name, generation, endpoints);
            && DistinctKeys(next)
            && forall d :: d in next ==>
                 && d.peer == peer && d.generation == generation
                 && d.key == Key(d.peer, d.endpoint.id, d.endpoint.direction)
  {
    AnnouncedAreDistinct(s, peer, name, generation, endpoints);
  }

  lemma ReconcileKeepsDevices(s: State, peer: Id, name: string, generation: nat, endpoints: seq<Endpoint>)
    requires Inv(s)
    requires ReconcileError(s, peer, name, generation, endpoints).None?
    ensures var s' := Reconcile(s, peer, name, generation, endpoints);
            DistinctKeys(s'.devices) && forall d :: d in s'.devices ==> DeviceOk(s', d)
  {
    hide OneRate, WithinBudget, ReconcileError, SessionOk, Announced, WithoutPeer, KeptBy;
    var s' := Reconcile(s, peer, name, generation, endpoints);
    var next := Announced(s, peer, name, generation, endpoints);
    AnnouncedArePeers(s, peer, name, generation, endpoints);
    WithoutPeerKeepsOthers(s.devices, peer);
    JoinedKeys(WithoutPeer(s.devices, peer), next, peer);
    forall d | d in s'.devices ensures DeviceOk(s', d) {
      if d in WithoutPeer(s.devices, peer) {
        assert DeviceOk(s, d);
      } else {
        assert d in next;
      }
    }
  }

  lemma ReconcileKeepsSessions(s: State, peer: Id, name: string, generation: nat, endpoints: seq<Endpoint>)
    requires Inv(s)
    requires ReconcileError(s, peer, name, generation, endpoints).None?
    ensures var s' := Reconcile(s, peer, name, generation, endpoints);
            && (forall id :: id in s'.sessions ==> SessionOk(s', s'.sessions[id]))
            && OneRate(s'.sessions) && WithinBudget(s'.sessions)
  {
    hide OneRate, WithinBudget, ReconcileError, DistinctKeys, DeviceOk, SessionOk, Announced, WithoutPeer, KeptBy;
    var s' := Reconcile(s, peer, name, generation, endpoints);
    var next := Announced(s, peer, name, generation, endpoints);
    AnnouncedArePeers(s, peer, name, generation, endpoints);
    FewerSessions(s.sessions, s'.sessions);
    forall id | id in s'.sessions ensures SessionOk(s', s'.sessions[id]) {
      SessionSurvives(s, peer, next, s'.devices, s.sessions[id]);
      SameDevicesServe(State(s'.devices, s.sessions, s.generations), s', s'.sessions[id]);
    }
  }

  lemma SameDevicesServe(s: State, s': State, x: Session)
    requires SessionOk(s, x) && s'.devices == s.devices
    ensures SessionOk(s', x)
  {
  }

  lemma ReconcileKeepsInv(s: State, peer: Id, name: string, generation: nat, endpoints: seq<Endpoint>)
    requires Inv(s)
    ensures Inv(Reconcile(s, peer, name, generation, endpoints))
  {
    if ReconcileError(s, peer, name, generation, endpoints).None? {
      hide Reconcile, ReconcileError, DistinctKeys, DeviceOk, SessionOk, OneRate, WithinBudget;
      ReconcileKeepsDevices(s, peer, name, generation, endpoints);
      ReconcileKeepsSessions(s, peer, name, generation, endpoints);
    }
  }

  lemma JoinedKeys(others: seq<Device>, next: seq<Device>, peer: Id)
    requires DistinctKeys(others) && DistinctKeys(next)
    requires forall d :: d in others ==> d.key.peer != peer
    requires forall d :: d in next ==> d.key.peer == peer
    ensures DistinctKeys(others + next)
  {
    var all := others + next;
    forall i, j | 0 <= i < j < |all| ensures all[i].key != all[j].key {
      if i < |others| <= j {
        assert all[i] in others && all[j] in next;
      }
    }
  }

  lemma SessionSurvives(s: State, peer: Id, next: seq<Device>, devices: seq<Device>, x: Session)
    requires Inv(s) && SessionOk(s, x) && (x.peer != peer || KeptBy(next, x))
    requires devices == WithoutPeer(s.devices, peer) + next
    requires forall d :: d in next ==> d.peer == peer && d.key == Key(d.peer, d.endpoint.id, d.endpoint.direction)
    ensures SessionOk(State(devices, s.sessions, s.generations), x)
  {
    WithoutPeerKeepsOthers(s.devices, peer);
    var d :| d in s.devices && Serves(d, x);
    assert DeviceOk(s, d);
    if x.peer != peer {
      assert d in devices;
    } else {
      var e :| e in next && Continues(e, x);
      assert e in devices && Serves(e, x);
    }
  }

  lemma SetRegistrationKeepsInv(s: State, key: Key, error: Option<string>)
    requires Inv(s)
    ensures Inv(SetRegistration(s, key, error))
  {
    MarkedDevices(s.devices, key, error);
    SameOffersKeepInv(s, MarkFirst(s.devices, key, error), s.sessions);
  }

  lemma DisconnectedKeepsInv(s: State, peer: Id)
    requires Inv(s)
    ensures Inv(Disconnected(s, peer))
  {
    var s' := Disconnected(s, peer);
    SameOffersKeepInv(s, s'.devices, s'.sessions);
  }

  lemma CloseKeepsInv(s: State, id: Id)
    requires Inv(s)
    ensures Inv(Close(s, id))
  {
    SameOffersKeepInv(s, s.devices, s.sessions - {id});
  }

  lemma OpenKeepsInv(s: State, key: Key, format: Format, channelMap: seq<byte>, newId: Id)
    requires Inv(s) && newId !in s.sessions
    ensures Inv(Open(s, key, format, channelMap, newId))
  {
    if OpenError(s, key, format, channelMap).None? {
      var s' := Open(s, key, format, channelMap, newId);
      FoundDevice(s.devices, key);
      var d := FindDevice(s.devices, key).value;
      var x := s'.sessions[newId];
      assert DeviceOk(s, d);
      assert Serves(d, x);
      assert OneRate(s'.sessions);
      hide OneRate;
      forall id | id in s'.sessions ensures SessionOk(s', s'.sessions[id]) {
        if id != newId {
          assert SessionOk(s, s.sessions[id]);
        }
      }
      hide SessionOk, Serves;
      forall peer, direction ensures ChannelSum(SessionsOf(s'.sessions, peer, direction)) <= MAX_CHANNELS {
        OpenedSum(s, s', x, peer, direction);
      }
    }
  }

  lemma OpenedSum(s: State, s': State, x: Session, peer: Id, direction: Direction)
    requires WithinBudget(s.sessions) && x.id !in s.sessions && s'.sessions == s.sessions[x.id := x]
    requires ChannelSum(SessionsOf(s.sessions, x.peer, x.direction)) + x.format.channels <= MAX_CHANNELS
    ensures ChannelSum(SessionsOf(s'.sessions, peer, direction)) <= MAX_CHANNELS
  {
    var before := SessionsOf(s.sessions, peer, direction);
    if peer == x.peer && direction == x.direction {
      SumWithOne(before, x.id, x);
      assert SessionsOf(s'.sessions, peer, direction) == before[x.id := x];
    } else {
      assert SessionsOf(s'.sessions, peer, direction) == before;
    }
  }

  // ----- Runs

  datatype Action =
    | ReconcileAction(peer: Id, name: string, generation: nat, endpoints: seq<Endpoint>)
    | RegistrationAction(key: Key, error: Option<string>)
    | DisconnectedAction(peer: Id)
    | OpenAction(key: Key, format: Format, channelMap: seq<byte>, newId: Id)
    | CloseAction(id: Id)

  function Step(s: State, a: Action): State {
    match a
    case ReconcileAction(peer, name, generation, endpoints) => Reconcile(s, peer, name, generation, endpoints)
    case RegistrationAction(key, error) => SetRegistration(s, key, error)
    case DisconnectedAction(peer) => Disconnected(s, peer)
    case OpenAction(key, format, channelMap, newId) =>
      if newId in s.sessions then s else Open(s, key, format, channelMap, newId)
    case CloseAction(id) => Close(s, id)
  }

  lemma StepKeepsInv(s: State, a: Action)
    requires Inv(s)
    ensures Inv(Step(s, a))
    ensures forall peer :: peer in s.generations ==>
              peer in Step(s, a).generations && s.generations[peer] <= Step(s, a).generations[peer]
  {
    hide Inv;
    match a
    case ReconcileAction(peer, name, generation, endpoints) => ReconcileKeepsInv(s, peer, name, generation, endpoints);
    case RegistrationAction(key, error) => SetRegistrationKeepsInv(s, key, error);
    case DisconnectedAction(peer) => DisconnectedKeepsInv(s, peer);
    case OpenAction(key, format, channelMap, newId) =>
      if newId !in s.sessions {
        OpenKeepsInv(s, key, format, channelMap, newId);
      }
    case CloseAction(id) => CloseKeepsInv(s, id);
  }

  /** An empty registry after any operations. */
  function Run(actions: seq<Action>): (s: State)
    ensures Inv(s)
  {
    if actions == [] then State([], map[], map[])
    else
      var before := Run(actions[..|actions| - 1]);
      StepKeepsInv(before, actions[|actions| - 1]);
      Step(before, actions[|actions| - 1])
  }

  /**
   After any operations every session has exactly one device of its peer and generation, which offers its rate and
   its distinct channels, a peer's sessions share one rate, and per direction they use at most MAX_CHANNELS channels.
   */
  lemma SessionsAreServed(actions: seq<Action>, id: Id)
    requires id in Run(actions).sessions
    ensures var s := Run(actions);
            var x := s.sessions[id];
            && SessionOk(s, x)
            && (exists d :: d in s.devices && Serves(d, x) && s.generations[d.peer] == x.generation
                            && forall e :: e in s.devices && e.key == x.device ==> e == d)
            && (forall other :: other in s.sessions && s.sessions[other].peer == x.peer ==>
                  s.sessions[other].format.sampleRate == x.format.sampleRate)
            && ChannelSum(SessionsOf(s.sessions, x.peer, x.direction)) <= MAX_CHANNELS
  {
    var s := Run(actions);
    hide Run, ChannelSum;
    var x := s.sessions[id];
    assert SessionOk(s, x);
    var d :| d in s.devices && Serves(d, x);
    assert DeviceOk(s, d);
    forall e | e in s.devices && e.key == x.device ensures e == d {
      var i :| 0 <= i < |s.devices| && s.devices[i] == d;
      var j :| 0 <= j < |s.devices| && s.devices[j] == e;
      assert s.devices[i].key == s.devices[j].key;
    }
  }

  lemma {:induction false} GenerationsNeverGoBack(actions: seq<Action>, k: nat, peer: Id)
    requires k <= |actions| && peer in Run(actions[..k]).generations
    ensures peer in Run(actions).generations && Run(actions[..k]).generations[peer] <= Run(actions).generations[peer]
    decreases |actions|
  {
    hide Inv, Step;
    if k < |actions| {
      var n := |actions| - 1;
      assert actions[..n][..k] == actions[..k];
      GenerationsNeverGoBack(actions[..n], k, peer);
      StepKeepsInv(Run(actions[..n]), actions[n]);
    } else {
      assert actions[..k] == actions;
    }
  }

  // ----- What reconciling does

  predicate EndpointOk(e: Endpoint) {
    && 1 <= |e.id| <= 1024 && |e.name| <= 1024
    && (forall i :: 0 <= i < |e.id| ==> e.id[i] != '\0') && (forall i :: 0 <= i < |e.name| ==> e.name[i] != '\0')
    && e.channels >= 1 && 1 <= |e.sampleRates| <= 32
    && (forall i :: 0 <= i < |e.sampleRates| ==> e.sampleRates[i] > 0) && !e.virtualDevice
  }

  /**
   A catalog is taken over exactly when it has at most 256 endpoints, all well-formed, not virtual and distinct, under a
   short enough name and a generation that is not 0 and does not go back.
   */
  lemma ReconcilesExactlyWhen(s: State, peer: Id, name: string, generation: nat, endpoints: seq<Endpoint>)
    ensures ReconcileError(s, peer, name, generation, endpoints).None?
        <==> |endpoints| <= 256 && (forall e :: e in endpoints ==> EndpointOk(e))
             && (forall i, j :: 0 <= i < j < |endpoints| ==>
                   endpoints[i].id != endpoints[j].id || endpoints[i].direction != endpoints[j].direction)
             && |name| <= 1024 && generation >= 1 && (peer in s.generations ==> generation >= s.generations[peer])
    ensures |endpoints| > 256 ==>
              ReconcileError(s, peer, name, generation, endpoints) == Some(ResourceLimit)
    ensures ReconcileError(s, peer, name, generation, endpoints) == Some(VirtualLoop) ==>
              exists e :: e in endpoints && e.virtualDevice
    ensures ReconcileError(s, peer, name, generation, endpoints).Some? ==>
              Reconcile(s, peer, name, generation, endpoints) == s
  {
    assert forall e :: e in endpoints ==> (EndpointOk(e) <==> ValidEndpoint(e) && !e.virtualDevice) by {
      forall e | e in endpoints ensures EndpointOk(e) <==> ValidEndpoint(e) && !e.virtualDevice {
        SameEndpointTest(e);
      }
    }
    hide EndpointOk, ValidEndpoint, Reconcile;
    assert DistinctEndpoints(endpoints)
        <==> forall i, j :: 0 <= i < j < |endpoints| ==>
               endpoints[i].id != endpoints[j].id || endpoints[i].direction != endpoints[j].direction;
    hide DistinctEndpoints;
    assert (exists e :: e in endpoints && e.virtualDevice) || forall e :: e in endpoints ==> !e.virtualDevice;
    if ReconcileError(s, peer, name, generation, endpoints).Some? {
      RefusedReconcile(s, peer, name, generation, endpoints);
    }
  }

  lemma SameEndpointTest(e: Endpoint)
    ensures EndpointOk(e) <==> ValidEndpoint(e) && !e.virtualDevice
  {
    assert '\0' in e.id <==> exists i :: 0 <= i < |e.id| && e.id[i] == '\0';
    assert '\0' in e.name <==> exists i :: 0 <= i < |e.name| && e.name[i] == '\0';
    assert 0 in e.sampleRates <==> exists i :: 0 <= i < |e.sampleRates| && e.sampleRates[i] == 0;
  }

  lemma RefusedReconcile(s: State, peer: Id, name: string, generation: nat, endpoints: seq<Endpoint>)
    requires ReconcileError(s, peer, name, generation, endpoints).Some?
    ensures Reconcile(s, peer, name, generation, endpoints) == s
  {
    hide ReconcileError;
  }

  /**
   Afterwards the peer has one device for each endpoint, in order, registered if it was and still is there; its sessions
   are those that a device goes on offering; other peers are left alone.
   */
  lemma ReconcileReplaces(s: State, peer: Id, name: string, generation: nat, endpoints: seq<Endpoint>)
    requires Inv(s) && ReconcileError(s, peer, name, generation, endpoints).None?
    ensures var s' := Reconcile(s, peer, name, generation, endpoints);
            var kept := |s'.devices| - |endpoints|;
            && kept >= 0
            && (forall d :: d in s'.devices[..kept] <==> d in s.devices && d.peer != peer)
            && (forall i ::
                  0 <= i < |endpoints| ==> IsNew(s, s'.devices[kept + i], peer, name, generation, endpoints[i]))
            && s'.generations == s.generations[peer := generation]
            && (forall id :: id in s'.sessions ==> id in s.sessions && s'.sessions[id] == s.sessions[id])
            && (forall id :: id in s.sessions ==>
                  (id in s'.sessions <==>
                     s.sessions[id].peer != peer
                     || exists i :: kept <= i < |s'.devices| && StillOffers(s'.devices[i], s.sessions[id])))
  {
    var next := Announced(s, peer, name, generation, endpoints);
    var others := WithoutPeer(s.devices, peer);
    WithoutPeerKeepsOthers(s.devices, peer);
    var s' := Reconcile(s, peer, name, generation, endpoints);
    assert s'.devices == others + next && s'.devices[..|others|] == others;
    assert forall i :: 0 <= i < |endpoints| ==> s'.devices[|others| + i] == next[i];
    hide ReconcileError, WithoutPeer;
    forall i | 0 <= i < |endpoints| ensures IsNew(s, next[i], peer, name, generation, endpoints[i]) {
      NewDeviceIs(s, peer, name, generation, endpoints[i]);
    }
    hide Inv, IsNew, NewDevice;
    forall id | id in s.sessions
      ensures KeptBy(next, s.sessions[id])
          <==> exists i :: |others| <= i < |s'.devices| && StillOffers(s'.devices[i], s.sessions[id])
    {
      KeptIsOffered(others, next, s.sessions[id]);
    }
    hide KeptBy, StillOffers, Announced;
  }

  /** The device offers the session's channels at its rate, as before. */
  predicate StillOffers(d: Device, x: Session) {
    && d.key == x.device && d.generation == x.generation && d.endpoint.available
    && x.format.channels <= d.endpoint.channels && x.format.sampleRate in d.endpoint.sampleRates
    && forall c :: c in x.channelMap ==> c < d.endpoint.channels
  }

  lemma KeptIsOffered(others: seq<Device>, next: seq<Device>, x: Session)
    ensures var all := others + next;
            KeptBy(next, x) <==> exists i :: |others| <= i < |all| && StillOffers(all[i], x)
  {
    var all := others + next;
    forall d ensures StillOffers(d, x) <==> Continues(d, x) {
      var channels := d.endpoint.channels;
      assert InRange(x.channelMap, channels) <==> forall c :: c in x.channelMap ==> c < channels by {
        if forall c :: c in x.channelMap ==> c < d.endpoint.channels {
          assert forall i :: 0 <= i < |x.channelMap| ==> x.channelMap[i] in x.channelMap;
        }
      }
    }
    hide StillOffers, Continues;
    if KeptBy(next, x) {
      var d :| d in next && Continues(d, x);
      var i :| 0 <= i < |next| && next[i] == d;
      assert all[|others| + i] == d;
    }
    if i :| |others| <= i < |all| && StillOffers(all[i], x) {
      assert all[i] in next;
    }
  }

  predicate IsNew(s: State, d: Device, peer: Id, name: string, generation: nat, e: Endpoint) {
    && d.key == Key(peer, e.id, e.direction) && d.peer == peer && d.generation == generation && d.endpoint == e
    && d.name == "RShare \U{B7} " + name + " \U{B7} " + e.name && d.error.None?
    && (d.status == DeviceStatus.Unavailable <==> !e.available)
    && (d.status == Registered <==>
          e.available && exists was :: was in s.devices && was.key == d.key && was.status == Registered)
    && d.status != Offline
  }

  lemma NewDeviceIs(s: State, peer: Id, name: string, generation: nat, e: Endpoint)
    requires Inv(s)
    ensures IsNew(s, NewDevice(s.devices, peer, name, generation, e), peer, name, generation, e)
  {
    var key := Key(peer, e.id, e.direction);
    FoundIn(s.devices, key);
    if was :| was in s.devices && was.key == key && was.status == Registered {
      FoundIs(s.devices, was);
    }
    hide FindDevice, OneRate, WithinBudget, DeviceOk, SessionOk;
  }

  /** A registration's answer is put down at its device, and at no other; closing ends one session. */
  lemma MarksAndCloses(s: State, key: Key, error: Option<string>, id: Id)
    requires Inv(s)
    ensures var s' := SetRegistration(s, key, error);
            && |s'.devices| == |s.devices| && s' == s.(devices := s'.devices)
            && (forall i :: 0 <= i < |s.devices| ==>
                  s'.devices[i] == if s.devices[i].key != key then s.devices[i]
                                   else if error.None? then s.devices[i].(status := Registered, error := None)
                                   else s.devices[i].(status := DeviceStatus.Unavailable, error := error))
    ensures var s' := Close(s, id);
            && s'.devices == s.devices && s'.generations == s.generations && id !in s'.sessions
            && (forall other :: other in s.sessions && other != id ==>
                  other in s'.sessions && s'.sessions[other] == s.sessions[other])
            && (forall other :: other in s'.sessions ==> other in s.sessions)
  {
    MarkFirstSize(s.devices, key, error);
    forall i | 0 <= i < |s.devices|
      ensures MarkFirst(s.devices, key, error)[i]
              == if s.devices[i].key == key then Marked(s.devices[i], error) else s.devices[i]
    {
      var e := MarkedFrom(s.devices, key, error, i);
    }
    hide MarkFirst, OneRate, WithinBudget, SessionOk, DeviceOk;
  }

  // ----- When a session opens

  lemma {:induction false} FoundIn(devices: seq<Device>, key: Key)
    ensures FindDevice(devices, key).None? <==> forall d :: d in devices ==> d.key != key
    ensures FindDevice(devices, key).Some? ==>
              FindDevice(devices, key).value in devices && FindDevice(devices, key).value.key == key
  {
    if devices != [] && devices[0].key != key {
      FoundIn(devices[1..], key);
      assert devices == [devices[0]] + devices[1..];
    }
  }

  lemma FoundIs(devices: seq<Device>, d: Device)
    requires DistinctKeys(devices) && d in devices
    ensures FindDevice(devices, d.key) == Some(d)
  {
    FoundIn(devices, d.key);
    var e := FindDevice(devices, d.key).value;
    var i :| 0 <= i < |devices| && devices[i] == d;
    var j :| 0 <= j < |devices| && devices[j] == e;
    assert i < j || j < i || i == j;
  }

  /** The device is registered and offers the rate, and the channel map names channels of it, each once. */
  predicate Offers(d: Device, format: Format, channelMap: seq<byte>) {
    && d.status == Registered && format.sampleRate in d.endpoint.sampleRates && format.channels <= d.endpoint.channels
    && |channelMap| == format.channels && (forall c :: c in channelMap ==> c < d.endpoint.channels)
    && (forall i, j :: 0 <= i < j < |channelMap| ==> channelMap[i] != channelMap[j])
  }

  /**
   A session opens on a device exactly when that one is registered and offers what is asked for, the peer's sessions
   have the same rate, and those of its direction leave enough of the eight channels.
   */
  lemma OpensExactlyWhen(s: State, d: Device, format: Format, channelMap: seq<byte>, newId: Id)
    requires Inv(s) && d in s.devices && newId !in s.sessions
    ensures var s' := Open(s, d.key, format, channelMap, newId);
            && (newId in s'.sessions <==>
                  && ValidFormat(format) && Offers(d, format, channelMap)
                  && SameRate(s, d.peer, format)
                  && ChannelSum(SessionsOf(s.sessions, d.peer, d.endpoint.direction)) + format.channels <= 8)
            && (newId !in s'.sessions ==> s' == s)
            && (newId in s'.sessions ==>
                  && s'.sessions[newId] == Session(newId, d.key, d.peer, d.endpoint.direction, d.generation, format,
                                                   channelMap)
                  && s' == s.(sessions := s.sessions[newId := s'.sessions[newId]]))
  {
    FoundIs(s.devices, d);
    hide Inv, ChannelSum, FindDevice;
    var channels := d.endpoint.channels;
    assert InRange(channelMap, channels) <==> forall c :: c in channelMap ==> c < channels by {
      if forall c :: c in channelMap ==> c < channels {
        assert forall i :: 0 <= i < |channelMap| ==> channelMap[i] in channelMap;
      }
    }
    assert SameRate(s, d.peer, format) <==> !exists id ::
        id in s.sessions && s.sessions[id].peer == d.peer && s.sessions[id].format.sampleRate != format.sampleRate;
  }

  predicate SameRate(s: State, peer: Id, format: Format) {
    forall id ::
      id in s.sessions && s.sessions[id].peer == peer ==> s.sessions[id].format.sampleRate == format.sampleRate
  }

  /** Why a session on a device does not open: the first of the tests that fails. */
  lemma OpenRefusals(s: State, key: Key, format: Format, channelMap: seq<byte>)
    ensures var error := OpenError(s, key, format, channelMap);
            && (!ValidFormat(format) ==> error == Some(UnsupportedFormat))
            && (ValidFormat(format) && (forall d :: d in s.devices ==> d.key != key) ==> error == Some(InvalidEndpoint))
            && (error == Some(InvalidEndpoint) ==> forall d :: d in s.devices ==> d.key != key)
            && (error == Some(BackendUnavailable) <==>
                  ValidFormat(format) && FindDevice(s.devices, key).Some?
                      && FindDevice(s.devices, key).value.status != Registered)
            && (error == Some(FormatConflict) ==>
                  exists id :: id in s.sessions && s.sessions[id].format.sampleRate != format.sampleRate)
            && (error == Some(ResourceLimit) ==>
                  exists peer, direction :: ChannelSum(SessionsOf(s.sessions, peer, direction)) + format.channels > 8)
  {
    FoundIn(s.devices, key);
    hide ChannelSum, FindDevice;
  }

  /** After a peer disconnects its devices are offline, its sessions gone, and nothing of it opens. */
  lemma DisconnectedIsClosed(s: State, peer: Id)
    requires Inv(s)
    ensures var s' := Disconnected(s, peer);
            && |s'.devices| == |s.devices| && s'.generations == s.generations
            && (forall i ::
                  0 <= i < |s.devices| ==>
                  s'.devices[i] == if s.devices[i].peer == peer then s.devices[i].(status := Offline) else s.devices[i])
            && (forall id :: id in s'.sessions <==> id in s.sessions && s.sessions[id].peer != peer)
            && (forall id :: id in s'.sessions ==> s'.sessions[id] == s.sessions[id])
    ensures forall d, format, channelMap ::
              d in s.devices && d.peer == peer && ValidFormat(format) ==>
              OpenError(Disconnected(s, peer), d.key, format, channelMap) == Some(BackendUnavailable)
  {
    var s' := Disconnected(s, peer);
    DisconnectedKeepsInv(s, peer);
    forall d, format, channelMap | d in s.devices && d.peer == peer && ValidFormat(format)
      ensures OpenError(s', d.key, format, channelMap) == Some(BackendUnavailable)
    {
      var i :| 0 <= i < |s.devices| && s.devices[i] == d;
      FoundIs(s'.devices, s'.devices[i]);
      hide Inv, ChannelSum, FindDevice;
    }
  }

  /** The registration at i is the device's, and neither a failed one nor a disconnection came after it. */
  predicate RegisteredAt(actions: seq<Action>, i: nat, d: Device) {
    && i < |actions| && actions[i] == RegistrationAction(d.key, None)
    && forall j :: i < j < |actions| ==>
         actions[j] != DisconnectedAction(d.peer)
         && !(actions[j].RegistrationAction? && actions[j].key == d.key && actions[j].error.Some?)
  }

  /** A device is registered only by a registration of its own that nothing has undone since. */
  lemma {:induction false} RegisteredOnlyByRegistration(actions: seq<Action>, d: Device) returns (i: nat)
    requires d in Run(actions).devices && d.status == Registered
    ensures RegisteredAt(actions, i, d)
    decreases |actions|
  {
    hide Inv;
    var n := |actions| - 1;
    var before := Run(actions[..n]);
    if actions[n] == RegistrationAction(d.key, None) {
      i := n;
    } else {
      var e := WasRegistered(before, actions[n], d);
      i := RegisteredOnlyByRegistration(actions[..n], e);
      hide Run;
      forall j | i < j < n ensures actions[j] != DisconnectedAction(d.peer)
          && !(actions[j].RegistrationAction? && actions[j].key == d.key && actions[j].error.Some?) {
        assert actions[..n][j] == actions[j];
      }
    }
  }

  lemma WasRegistered(s: State, a: Action, d: Device) returns (e: Device)
    requires Inv(s) && d in Step(s, a).devices && d.status == Registered && a != RegistrationAction(d.key, None)
    ensures e in s.devices && e.status == Registered && e.key == d.key && e.peer == d.peer
    ensures a != DisconnectedAction(d.peer) && !(a.RegistrationAction? && a.key == d.key && a.error.Some?)
  {
    StepKeepsInv(s, a);
    assert DeviceOk(Step(s, a), d);
    hide OneRate, WithinBudget, SessionOk;
    match a
    case ReconcileAction(peer, name, generation, endpoints) =>
      if ReconcileError(s, peer, name, generation, endpoints).None? && d !in s.devices {
        WithoutPeerKeepsOthers(s.devices, peer);
        var next := Announced(s, peer, name, generation, endpoints);
        var i :| 0 <= i < |next| && next[i] == d;
        FoundIn(s.devices, d.key);
        e := FindDevice(s.devices, d.key).value;
        assert DeviceOk(s, e);
      } else {
        e := d;
      }
    case RegistrationAction(key, error) =>
      var i :| 0 <= i < |Step(s, a).devices| && Step(s, a).devices[i] == d;
      e := MarkedFrom(s.devices, key, error, i);
    case DisconnectedAction(peer) =>
      var i :| 0 <= i < |s.devices| && Step(s, a).devices[i] == d;
      e := s.devices[i];
    case _ => e := d;
  }

  lemma {:induction false} MarkedFrom(devices: seq<Device>, key: Key, error: Option<string>, i: nat)
    returns (e: Device)
    requires DistinctKeys(devices) && i < |MarkFirst(devices, key, error)|
    ensures |MarkFirst(devices, key, error)| == |devices| && e == devices[i]
    ensures var d := MarkFirst(devices, key, error)[i];
            if e.key == key then d == Marked(e, error) else d == e
  {
    if devices != [] && devices[0].key != key && i > 0 {
      e := MarkedFrom(devices[1..], key, error, i - 1);
    } else if devices != [] && devices[0].key != key {
      MarkFirstSize(devices[1..], key, error);
    }
    MarkFirstSize(devices, key, error);
    e := devices[i];
  }

  lemma {:induction false} MarkFirstSize(devices: seq<Device>, key: Key, error: Option<string>)
    ensures |MarkFirst(devices, key, error)| == |devices|
  {
    if devices != [] {
      MarkFirstSize(devices[1..], key, error);
    }
  }

  // ----- The registry as an object

  /** validate_catalog */
  method ValidateCatalog(endpoints: seq<Endpoint>) returns (error: Option<AudioError>)
    ensures error == CatalogError(endpoints)
  {
    if |endpoints| > MAX_ENDPOINTS {
      return Some(ResourceLimit);
    }
    var ids: set<(string, Direction)> := {};
    for k := 0 to |endpoints|
      invariant forall i :: 0 <= i < k ==> ValidEndpoint(endpoints[i])
      invariant DistinctEndpoints(endpoints[..k])
      invariant forall id, direction :: (id, direction) in ids <==>
                  exists i :: 0 <= i < k && endpoints[i].id == id && endpoints[i].direction == direction
    {
      var e := endpoints[k];
      if !ValidEndpoint(e) {
        assert e in endpoints;
        return Some(InvalidEndpoint);
      }
      if (e.id, e.direction) in ids {
        return Some(InvalidEndpoint);
      }
      ids := ids + {(e.id, e.direction)};
    }
    assert endpoints[..|endpoints|] == endpoints;
    return None;
  }

  lemma WithoutPeerSplits(devices: seq<Device>, peer: Id)
    requires devices != []
    ensures WithoutPeer(devices, peer)
            == (if devices[0].peer == peer then [] else [devices[0]]) + WithoutPeer(devices[1..], peer)
  {
  }

  /** The sessions with one of these ids. */
  function Restrict(sessions: map<Id, Session>, ids: set<Id>): map<Id, Session> {
    map id | id in sessions && id in ids :: sessions[id]
  }

  lemma SumStep(sessions: map<Id, Session>, ids: set<Id>, id: Id, peer: Id, direction: Direction)
    requires ids <= sessions.Keys && id in ids
    ensures ChannelSum(SessionsOf(Restrict(sessions, ids), peer, direction))
            == ChannelSum(SessionsOf(Restrict(sessions, ids - {id}), peer, direction))
               + if sessions[id].peer == peer && sessions[id].direction == direction then sessions[id].format.channels
                   else 0
  {
    var all := SessionsOf(Restrict(sessions, ids), peer, direction);
    var rest := SessionsOf(Restrict(sessions, ids - {id}), peer, direction);
    if id in all {
      SumWithout(all, id);
      assert rest == all - {id};
    } else {
      assert rest == all;
    }
  }

  class Registry {
    var devices: seq<Device>
    var sessions: map<Id, Session>
    var generations: map<Id, nat>

    ghost function Model(): State
      reads this
    {
      State(devices, sessions, generations)
    }

    constructor ()
      ensures Model() == State([], map[], map[])
    {
      devices, sessions, generations := [], map[], map[];
    }

    method ReconcilePeer(peer: Id, name: string, generation: nat, endpoints: seq<Endpoint>)
        returns (error: Option<AudioError>)
      modifies this
      ensures error == ReconcileError(old(Model()), peer, name, generation, endpoints)
      ensures Model() == Reconcile(old(Model()), peer, name, generation, endpoints)
    {
      error := ValidateCatalog(endpoints);
      if error.Some? {
        return;
      }
      if generation == 0 || (peer in generations && generation < generations[peer]) {
        return Some(StaleGeneration);
      }
      if |name| > 1024 {
        return Some(InvalidEndpoint);
      }
      if exists e :: e in endpoints && e.virtualDevice {
        return Some(VirtualLoop);
      }
      var next: seq<Device> := [];
      for k := 0 to |endpoints|
        invariant next == Announced(Model(), peer, name, generation, endpoints)[..k]
        invariant Model() == old(Model())
      {
        next := next + [NewDevice(devices, peer, name, generation, endpoints[k])];
      }
      assert next == Announced(Model(), peer, name, generation, endpoints);
      sessions := map id | id in sessions && (sessions[id].peer != peer || KeptBy(next, sessions[id])) :: sessions[id];
      var others := OtherPeers(peer);
      devices := others + next;
      generations := generations[peer := generation];
    }

    /** The devices that stay when a peer's are replaced. */
    method OtherPeers(peer: Id) returns (others: seq<Device>)
      ensures others == WithoutPeer(devices, peer)
    {
      others := [];
      for k := 0 to |devices|
        invariant others + WithoutPeer(devices[k..], peer) == WithoutPeer(devices, peer)
      {
        WithoutPeerSplits(devices[k..], peer);
        assert devices[k..][1..] == devices[k + 1..];
        if devices[k].peer != peer {
          others := others + [devices[k]];
        }
      }
    }

    method MarkRegistration(key: Key, error: Option<string>)
      modifies this`devices
      ensures Model() == SetRegistration(old(Model()), key, error)
    {
      var k := 0;
      while k < |devices| && devices[k].key != key
        invariant k <= |devices| && devices == old(devices)
        invariant forall i :: 0 <= i < k ==> devices[i].key != key
      {
        k := k + 1;
      }
      MarksAt(devices, key, error, k);
      if k < |devices| {
        devices := devices[k := Marked(devices[k], error)];
      }
    }

    method Disconnect(peer: Id)
      modifies this`devices, this`sessions
      ensures Model() == Disconnected(old(Model()), peer)
    {
      for k := 0 to |devices|
        invariant |devices| == |old(devices)| && sessions == old(sessions)
        invariant forall i :: 0 <= i < |devices| ==>
                    devices[i] == if i < k && old(devices)[i].peer == peer then old(devices)[i].(status := Offline)
                        else old(devices)[i]
      {
        if devices[k].peer == peer {
          devices := devices[k := devices[k].(status := Offline)];
        }
      }
      assert devices == Disconnected(old(Model()), peer).devices;
      sessions := map id | id in sessions && sessions[id].peer != peer :: sessions[id];
    }

    /** The channels a peer's sessions use in a direction, or None if one of them has another rate. */
    method UsedChannels(peer: Id, direction: Direction, rate: u32) returns (used: Option<nat>)
      ensures used.None? <==>
              exists id :: id in sessions && sessions[id].peer == peer && sessions[id].format.sampleRate != rate
      ensures used.Some? ==> used.value == ChannelSum(SessionsOf(sessions, peer, direction))
    {
      var channels := 0;
      var remaining := sessions.Keys;
      assert Restrict(sessions, remaining) == sessions;
      while remaining != {}
        invariant remaining <= sessions.Keys
        invariant forall id ::
                  id in sessions && id !in remaining && sessions[id].peer == peer ==>
                  sessions[id].format.sampleRate == rate
        invariant channels + ChannelSum(SessionsOf(Restrict(sessions, remaining), peer, direction))
                  == ChannelSum(SessionsOf(sessions, peer, direction))
        decreases |remaining|
      {
        var id := Smallest(remaining);
        SumStep(sessions, remaining, id, peer, direction);
        var session := sessions[id];
        if session.peer == peer {
          if session.format.sampleRate != rate {
            return None;
          }
          if session.direction == direction {
            channels := channels + session.format.channels;
          }
        }
        remaining := remaining - {id};
      }
      assert SessionsOf(Restrict(sessions, {}), peer, direction) == map[];
      return Some(channels);
    }

    method OpenSession(key: Key, format: Format, channelMap: seq<byte>, newId: Id)
        returns (r: Result<Session, AudioError>)
      requires newId !in sessions
      modifies this`sessions
      ensures Model() == Open(old(Model()), key, format, channelMap, newId)
      ensures match OpenError(old(Model()), key, format, channelMap)
              case Some(error) => r == Err(error)
              case None => newId in sessions && r == Ok(sessions[newId])
    {
      if !ValidFormat(format) {
        return Err(UnsupportedFormat);
      }
      var found := FindDevice(devices, key);
      if found.None? {
        return Err(InvalidEndpoint);
      }
      var d := found.value;
      if d.status != Registered {
        return Err(BackendUnavailable);
      }
      if format.sampleRate !in d.endpoint.sampleRates || format.channels > d.endpoint.channels {
        return Err(UnsupportedFormat);
      }
      if |channelMap| != format.channels || !InRange(channelMap, d.endpoint.channels) || !Distinct(channelMap) {
        return Err(InvalidChannelMap);
      }
      var used := UsedChannels(d.peer, d.endpoint.direction, format.sampleRate);
      if used.None? {
        return Err(FormatConflict);
      }
      if used.value + format.channels > MAX_CHANNELS {
        return Err(ResourceLimit);
      }
      var session := Session(newId, key, d.peer, d.endpoint.direction, d.generation, format, channelMap);
      sessions := sessions[newId := session];
      return Ok(session);
    }

    method CloseSession(id: Id)
      modifies this`sessions
      ensures Model() == Close(old(Model()), id)
    {
      sessions := sessions - {id};
    }
  }
}
