/**
 The state a mobile gateway keeps about held keys and mouse buttons, and the effect of each
 region of code that runs while the ownership table and one session are locked.
 */
module MobileOwnership {
  import opened Common
  import opened InputEvents

  type ClientId = string
  /** Identity of an operation: handed out by a counter, never handed out twice. */
  type Token = nat

  const MAX_HELD_KEYS: nat := 64
  const MAX_HELD_BUTTONS: nat := 16

  /** Named keys are identified by their number in the canonical key namespace. */
  datatype KeyCode = Named(name: u32) | Char(ascii: byte) | Raw(raw: u32)

  function CanonicalKey(code: KeyCode): KeyCode {
    match code
    case Char(value) => if 97 <= value <= 122 then Char(value - 32) else code
    case _ => code
  }

  function KeyIdentity(code: KeyCode): nat {
    match code
    case Named(raw) => raw
    case Char(value) => U32_LIMIT + value
    case Raw(value) => 2 * U32_LIMIT + value
  }

  function CanonicalButton(button: MouseButton): MouseButton {
    ButtonOf(ButtonCode(button))
  }

  /** The identity under which a control is held determines the control: nothing is lost by keying on it. */
  lemma IdentityDeterminesControl(k1: KeyCode, k2: KeyCode, b1: MouseButton, b2: MouseButton)
    ensures KeyIdentity(CanonicalKey(k1)) == KeyIdentity(CanonicalKey(k2)) ==> CanonicalKey(k1) == CanonicalKey(k2)
    ensures ButtonCode(CanonicalButton(b1)) == ButtonCode(CanonicalButton(b2)) ==>
            CanonicalButton(b1) == CanonicalButton(b2)
  {
  }

  // ----- State

  datatype Session = Session(
    lastSequence: nat,
    lastSeen: nat,
    inFlight: Option<Token>,
    heldKeys: map<nat, KeyCode>,
    heldButtons: map<nat, MouseButton>,
    lastPosition: (int, int))

  function NewSession(now: nat): Session {
    Session(0, now, None, map[], map[], (0, 0))
  }

  predicate HasHeldInput(session: Session) {
    session.heldKeys != map[] || session.heldButtons != map[]
  }

  datatype Ownership = Ownership(
    keyOwners: map<nat, set<ClientId>>,
    buttonOwners: map<nat, set<ClientId>>,
    reservations: map<Token, ClientId>)

  const NO_OWNERS := Ownership(map[], map[], map[])

  /** A key or a button, named by its identity: the two tables seen as one. */
  datatype Control = KeyControl(id: nat) | ButtonControl(id: nat)

  function OwnersIn(table: map<nat, set<ClientId>>, id: nat): set<ClientId> {
    if id in table then table[id] else {}
  }

  function Owners(own: Ownership, control: Control): set<ClientId> {
    match control
    case KeyControl(id) => OwnersIn(own.keyOwners, id)
    case ButtonControl(id) => OwnersIn(own.buttonOwners, id)
  }

  predicate Holds(session: Session, control: Control) {
    match control
    case KeyControl(id) => id in session.heldKeys
    case ButtonControl(id) => id in session.heldButtons
  }

  // ----- Requests

  /** What a request asks for once its payload has been turned into an input event. */
  datatype Payload =
    | Keyboard(code: KeyCode, pressed: bool)
    | MouseButtonEvent(button: MouseButton, pressed: bool, x: int, y: int)
    | Pointer(x: int, y: int)
    | OtherPayload
    | Malformed

  datatype Transition =
    | NoTransition
    | KeyTransition(identity: nat, code: KeyCode, pressed: bool)
    | ButtonTransition(identity: nat, button: MouseButton, pressed: bool, x: int, y: int)
    | PositionTransition(x: int, y: int)

  function HeldTransition(payload: Payload): Transition
    requires !payload.Malformed?
  {
    match payload
    case Keyboard(code, pressed) =>
      var canonical := CanonicalKey(code);
      KeyTransition(KeyIdentity(canonical), canonical, pressed)
    case MouseButtonEvent(button, pressed, x, y) =>
      var canonical := CanonicalButton(button);
      ButtonTransition(ButtonCode(canonical), canonical, pressed, x, y)
    case Pointer(x, y) => PositionTransition(x, y)
    case OtherPayload => NoTransition
  }

  /** The control a transition presses or releases. */
  function ControlOf(transition: Transition): Option<Control> {
    match transition
    case KeyTransition(identity, _, _) => Some(KeyControl(identity))
    case ButtonTransition(identity, _, _, _, _) => Some(ButtonControl(identity))
    case _ => None
  }

  predicate IsPress(transition: Transition) {
    match transition
    case KeyTransition(_, _, pressed) => pressed
    case ButtonTransition(_, _, pressed, _, _) => pressed
    case _ => false
  }

  predicate IsRelease(transition: Transition) {
    ControlOf(transition).Some? && !IsPress(transition)
  }

  // ----- Owner tables

  function AddOwner(table: map<nat, set<ClientId>>, id: nat, client: ClientId): map<nat, set<ClientId>> {
    table[id := OwnersIn(table, id) + {client}]
  }

  function RemoveOwner(table: map<nat, set<ClientId>>, id: nat, client: ClientId): map<nat, set<ClientId>> {
    if id !in table then table
    else if table[id] - {client} == {} then table - {id}
    else table[id := table[id] - {client}]
  }

  function AddControlOwner(own: Ownership, control: Control, client: ClientId): Ownership {
    match control
    case KeyControl(id) => own.(keyOwners := AddOwner(own.keyOwners, id, client))
    case ButtonControl(id) => own.(buttonOwners := AddOwner(own.buttonOwners, id, client))
  }

  function RemoveControlOwner(own: Ownership, control: Control, client: ClientId): Ownership {
    match control
    case KeyControl(id) => own.(keyOwners := RemoveOwner(own.keyOwners, id, client))
    case ButtonControl(id) => own.(buttonOwners := RemoveOwner(own.buttonOwners, id, client))
  }

  predicate ReleaseIsNoopIn(table: map<nat, set<ClientId>>, id: nat, client: ClientId) {
    if id in table then client !in table[id] || |table[id]| > 1 else true
  }

  predicate ReleaseIsNoop(own: Ownership, client: ClientId, transition: Transition) {
    match transition
    case KeyTransition(identity, _, pressed) => !pressed && ReleaseIsNoopIn(own.keyOwners, identity, client)
    case ButtonTransition(identity, _, pressed, _, _) => !pressed && ReleaseIsNoopIn(own.buttonOwners, identity, client)
    case _ => false
  }

  // ----- Provisional presses

  datatype ProvisionalPress =
    | NoPress
    | ProvisionalKey(keyIdentity: nat, introduced: bool)
    | ProvisionalButton(buttonIdentity: nat, introduced: bool, previousPosition: (int, int))

  datatype ProvisionalOwner = ProvisionalOwner(control: Control, introduced: bool)

  /** What an operation remembers between reserving a request and finishing it. */
  datatype Pending = Pending(
    transition: Transition,
    press: ProvisionalPress,
    owner: Option<ProvisionalOwner>)

  predicate WithinCapacity(session: Session, transition: Transition) {
    match transition
    case KeyTransition(identity, _, pressed) =>
      pressed && identity !in session.heldKeys ==> |session.heldKeys| < MAX_HELD_KEYS
    case ButtonTransition(identity, _, pressed, _, _) =>
      pressed && identity !in session.heldButtons ==> |session.heldButtons| < MAX_HELD_BUTTONS
    case _ => true
  }

  function ProvisionSession(session: Session, transition: Transition): (Session, ProvisionalPress) {
    match transition
    case KeyTransition(identity, code, true) =>
      (session.(heldKeys := session.heldKeys[identity := code]),
       ProvisionalKey(identity, identity !in session.heldKeys))
    case ButtonTransition(identity, button, true, x, y) =>
      (session.(lastPosition := (x, y), heldButtons := session.heldButtons[identity := button]),
       ProvisionalButton(identity, identity !in session.heldButtons, session.lastPosition))
    case _ => (session, NoPress)
  }

  function ProvisionOwner(own: Ownership, client: ClientId, transition: Transition): (Ownership,
      Option<ProvisionalOwner>) {
    if IsPress(transition) then
      var control := ControlOf(transition).value;
      (AddControlOwner(own, control, client), Some(ProvisionalOwner(control, client !in Owners(own, control))))
    else
      (own, None)
  }

  function RollbackSession(session: Session, press: ProvisionalPress): Session {
    match press
    case ProvisionalKey(identity, true) => session.(heldKeys := session.heldKeys - {identity})
    case ProvisionalButton(identity, introduced, previous) =>
      session.(lastPosition := previous,
               heldButtons := if introduced then session.heldButtons - {identity} else session.heldButtons)
    case _ => session
  }

  function RollbackOwner(own: Ownership, client: ClientId, owner: Option<ProvisionalOwner>): Ownership {
    if owner.Some? && owner.value.introduced then RemoveControlOwner(own, owner.value.control, client) else own
  }

  function ApplySession(session: Session, transition: Transition): Session {
    match transition
    case KeyTransition(identity, code, pressed) =>
      session.(heldKeys := if pressed then session.heldKeys[identity := code] else session.heldKeys - {identity})
    case ButtonTransition(identity, button, pressed, x, y) =>
      session.(lastPosition := (x, y),
               heldButtons := if pressed then session.heldButtons[identity := button]
                   else session.heldButtons - {identity})
    case PositionTransition(x, y) => session.(lastPosition := (x, y))
    case NoTransition => session
  }

  function ApplyOwner(own: Ownership, client: ClientId, transition: Transition): Ownership {
    if IsPress(transition) then AddControlOwner(own, ControlOf(transition).value, client)
    else if IsRelease(transition) then RemoveControlOwner(own, ControlOf(transition).value, client)
    else own
  }

  // ----- Locked regions

  datatype Reservation =
    | Refused
    | Noop(own: Ownership, session: Session)
    | Inject(own: Ownership, session: Session, pending: Pending)

  function Reserve(own: Ownership, session: Session, client: ClientId, token: Token, payload: Payload): Reservation {
    if payload.Malformed? then Refused
    else
      var transition := HeldTransition(payload);
      if session.inFlight != Some(token) || !WithinCapacity(session, transition) then Refused
      else if ReleaseIsNoop(own, client, transition) then
        Noop(ApplyOwner(own, client, transition), ApplySession(session, transition))
      else
        var (session', press) := ProvisionSession(session, transition);
        var (own', owner) := ProvisionOwner(own, client, transition);
        Inject(own'.(reservations := own'.reservations[token := client]), session', Pending(transition, press, owner))
  }

  /** The token is still the client's, and its reservation is still in the table. */
  predicate IsCurrent(own: Ownership, session: Session, client: ClientId, token: Token) {
    session.inFlight == Some(token) && token in own.reservations && own.reservations[token] == client
  }

  function Finish(own: Ownership, session: Session, client: ClientId, token: Token, pending: Pending,
      accepted: bool): (Ownership, Session) {
    if !IsCurrent(own, session, client, token) then (own, session)
    else
      var own := own.(reservations := own.reservations - {token});
      if accepted then (ApplyOwner(own, client, pending.transition), ApplySession(session, pending.transition))
      else (RollbackOwner(own, client, pending.owner), RollbackSession(session, pending.press))
  }

  /** Drops a reservation if it belongs to the client. */
  function DropReservation(own: Ownership, client: ClientId, token: Token): Ownership {
    if token in own.reservations && own.reservations[token] == client
    then own.(reservations := own.reservations - {token})
    else own
  }

  // ----- What the regions do to one client and one control

  lemma OwnerTableEffects(own: Ownership, control: Control, client: ClientId)
    ensures var added := AddControlOwner(own, control, client);
            && Owners(added, control) == Owners(own, control) + {client}
            && forall other :: other != control ==> Owners(added, other) == Owners(own, other)
    ensures var removed := RemoveControlOwner(own, control, client);
            && Owners(removed, control) == Owners(own, control) - {client}
            && forall other :: other != control ==> Owners(removed, other) == Owners(own, other)
  {
  }

  /** A release reaches the backend exactly when the releasing client is the only owner. */
  lemma ReleaseForwardedIffSoleOwner(own: Ownership, session: Session, client: ClientId, token: Token, payload: Payload)
    requires !payload.Malformed? && IsRelease(HeldTransition(payload))
    requires session.inFlight == Some(token)
    ensures var control := ControlOf(HeldTransition(payload)).value;
            var r := Reserve(own, session, client, token, payload);
            && (r.Inject? <==> Owners(own, control) == {client})
            && (r.Noop? <==> Owners(own, control) != {client})
  {
    var control := ControlOf(HeldTransition(payload)).value;
    SoleMember(Owners(own, control), client);
  }

  lemma SoleMember<T>(s: set<T>, x: T)
    ensures x in s && |s| <= 1 <==> s == {x}
  {
    if x in s && |s| <= 1 {
      assert s == (s - {x}) + {x};
      assert |s - {x}| == 0;
    }
  }
}
