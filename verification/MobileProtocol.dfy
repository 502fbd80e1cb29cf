/**
 Every interleaving of mobile operations: requests, release batches, lease cleanup, pruning and
 tasks aborted between two locked regions. One step is one locked region.
 */
module MobileProtocol {
  import opened Common
  import opened InputEvents
  import opened MobileOwnership

  /** Where an operation stands between two locked regions. */
  datatype Phase =
    | Clearing(previous: Option<Token>)
    | Ready
    | Reserved(pending: Pending)
    | Submitted(pending: Pending, accepted: bool)
    | Ending

  /** A running operation. Cleanup ignores the error of one request; a request or batch stops at it. */
  datatype Operation = Operation(client: ClientId, phase: Phase, rest: seq<Payload>, ignoresErrors: bool)

  /** The controls the injection backend holds down, and every submission it was given. */
  datatype Backend = Backend(down: set<Control>, submissions: seq<(Token, ClientId)>)

  datatype System = System(
    sessions: map<ClientId, Session>,
    own: Ownership,
    nextToken: Token,
    operations: map<Token, Operation>,
    backend: Backend)

  const INITIAL := System(map[], NO_OWNERS, 1, map[], Backend({}, []))

  datatype Action =
    | OpenSession(client: ClientId, now: nat, limit: nat)
    | Refresh(client: ClientId, now: nat)
    | Prune(client: ClientId, now: nat, pruneAfter: nat)
    | Begin(client: ClientId, sequence: nat, now: nat, requests: seq<Payload>)
    | StartCleanup(client: ClientId, keys: seq<nat>, buttons: seq<nat>)
    | ClearPrevious(token: Token)
    | ReserveNext(token: Token)
    | Submit(token: Token, accepts: bool)
    | FinishRequest(token: Token)
    | EndReservation(token: Token)
    | EndInFlight(token: Token)
    | Abort(token: Token)

  // ----- Steps

  predicate Lists<V>(ids: seq<nat>, held: map<nat, V>) {
    && (forall i, j :: 0 <= i < j < |ids| ==> ids[i] != ids[j])
    && (forall id :: id in ids ==> id in held)
    && (forall id :: id in held ==> id in ids)
  }

  /** The releases a cleanup sends: one per held control, at the client's last pointer position. */
  function KeyReleases(session: Session, ids: seq<nat>): seq<Payload>
    requires forall id :: id in ids ==> id in session.heldKeys
  {
    seq(|ids|, i requires 0 <= i < |ids| => Keyboard(session.heldKeys[ids[i]], false))
  }

  function ButtonReleases(session: Session, ids: seq<nat>): seq<Payload>
    requires forall id :: id in ids ==> id in session.heldButtons
  {
    seq(|ids|, i requires 0 <= i < |ids| =>
      MouseButtonEvent(session.heldButtons[ids[i]], false, session.lastPosition.0, session.lastPosition.1))
  }

  predicate Enabled(s: System, a: Action) {
    match a
    case OpenSession(client, _, limit) => client !in s.sessions && |s.sessions| < limit
    case Refresh(client, _) => client in s.sessions
    case Prune(client, now, pruneAfter) =>
      && client in s.sessions
      && (forall t :: t in s.operations ==> s.operations[t].client != client)
      && !HasHeldInput(s.sessions[client])
      && SaturatingSub(now, s.sessions[client].lastSeen) >= pruneAfter
    case Begin(client, sequence, _, _) =>
      && client in s.sessions
      && s.sessions[client].inFlight.None?
      && sequence > s.sessions[client].lastSequence
    case StartCleanup(client, keys, buttons) =>
      && client in s.sessions
      && Lists(keys, s.sessions[client].heldKeys)
      && Lists(buttons, s.sessions[client].heldButtons)
    case ClearPrevious(token) => token in s.operations && s.operations[token].phase.Clearing?
    case ReserveNext(token) => token in s.operations && s.operations[token].phase.Ready?
        && s.operations[token].rest != []
    case Submit(token, _) => token in s.operations && s.operations[token].phase.Reserved?
    case FinishRequest(token) => token in s.operations && s.operations[token].phase.Submitted?
    case EndReservation(token) => token in s.operations && s.operations[token].phase.Ready?
        && s.operations[token].rest == []
    case EndInFlight(token) => token in s.operations && s.operations[token].phase.Ending?
    case Abort(token) => token in s.operations
  }

  function WithOperation(s: System, token: Token, op: Operation): System {
    s.(operations := s.operations[token := op])
  }

  function AfterError(op: Operation): Operation {
    op.(phase := Ready, rest := if op.ignoresErrors then op.rest else [])
  }

  function BackendAfter(backend: Backend, transition: Transition, accepts: bool, token: Token,
      client: ClientId): Backend {
    Backend(
      if !accepts || ControlOf(transition).None? then backend.down
      else if IsPress(transition) then backend.down + {ControlOf(transition).value}
      else backend.down - {ControlOf(transition).value},
      backend.submissions + [(token, client)])
  }

  function WithSession(s: System, client: ClientId, session: Session): System {
    s.(sessions := s.sessions[client := session])
  }

  function BeginStep(s: System, client: ClientId, sequence: nat, now: nat, requests: seq<Payload>): System
    requires client in s.sessions
  {
    System(s.sessions[client := s.sessions[client].(lastSequence := sequence, lastSeen := now,
        inFlight := Some(s.nextToken))],
           s.own, s.nextToken + 1,
           s.operations[s.nextToken := Operation(client, Ready, requests, false)], s.backend)
  }

  function StartCleanupStep(s: System, client: ClientId, keys: seq<nat>, buttons: seq<nat>): System
    requires Enabled(s, StartCleanup(client, keys, buttons))
  {
    var session := s.sessions[client];
    var op := Operation(client, Clearing(session.inFlight), KeyReleases(session, keys)
        + ButtonReleases(session, buttons), true);
    System(s.sessions[client := session.(inFlight := Some(s.nextToken))], s.own, s.nextToken + 1,
           s.operations[s.nextToken := op], s.backend)
  }

  function ReserveStep(s: System, token: Token): System
    requires Enabled(s, ReserveNext(token)) && s.operations[token].client in s.sessions
  {
    var op := s.operations[token];
    var next := op.(rest := op.rest[1..]);
    match Reserve(s.own, s.sessions[op.client], op.client, token, op.rest[0])
    case Refused => WithOperation(s, token, AfterError(next))
    case Noop(own, session) =>
      WithOperation(s, token, next).(own := own, sessions := s.sessions[op.client := session])
    case Inject(own, session, pending) =>
      WithOperation(s, token, next.(phase := Reserved(pending))).(own := own,
          sessions := s.sessions[op.client := session])
  }

  function SubmitStep(s: System, token: Token, accepts: bool): System
    requires Enabled(s, Submit(token, accepts)) && s.operations[token].client in s.sessions
  {
    var op := s.operations[token];
    if IsCurrent(s.own, s.sessions[op.client], op.client, token) then
      WithOperation(s, token, op.(phase := Submitted(op.phase.pending, accepts)))
        .(backend := BackendAfter(s.backend, op.phase.pending.transition, accepts, token, op.client))
    else
      WithOperation(s, token, AfterError(op))
  }

  function FinishStep(s: System, token: Token): System
    requires Enabled(s, FinishRequest(token)) && s.operations[token].client in s.sessions
  {
    var op := s.operations[token];
    var (own, session) := Finish(s.own, s.sessions[op.client], op.client, token, op.phase.pending, op.phase.accepted);
    WithOperation(s, token, op.(phase := Ready)).(own := own, sessions := s.sessions[op.client := session])
  }

  function ClearPreviousStep(s: System, token: Token): System
    requires Enabled(s, ClearPrevious(token))
  {
    var op := s.operations[token];
    WithOperation(s, token, op.(phase := Ready))
      .(own := if op.phase.previous.Some? then DropReservation(s.own, op.client, op.phase.previous.value) else s.own)
  }

  function EndReservationStep(s: System, token: Token): System
    requires Enabled(s, EndReservation(token))
  {
    var op := s.operations[token];
    WithOperation(s, token, op.(phase := Ending)).(own := DropReservation(s.own, op.client, token))
  }

  function EndInFlightStep(s: System, token: Token): System
    requires Enabled(s, EndInFlight(token)) && s.operations[token].client in s.sessions
  {
    var client := s.operations[token].client;
    var session := s.sessions[client];
    s.(operations := s.operations - {token},
       sessions := if session.inFlight == Some(token) then s.sessions[client := session.(inFlight := None)]
           else s.sessions)
  }

  /** An operation holds its session alive, so its client always has one. */
  predicate ClientsHaveSessions(s: System) {
    forall t :: t in s.operations ==> s.operations[t].client in s.sessions
  }

  function Step(s: System, a: Action): System
    requires ClientsHaveSessions(s)
  {
    if !Enabled(s, a) then s
    else
      match a
      case OpenSession(client, now, _) => WithSession(s, client, NewSession(now))
      case Refresh(client, now) => WithSession(s, client, s.sessions[client].(lastSeen := now))
      case Prune(client, _, _) => s.(sessions := s.sessions - {client})
      case Begin(client, sequence, now, requests) => BeginStep(s, client, sequence, now, requests)
      case StartCleanup(client, keys, buttons) => StartCleanupStep(s, client, keys, buttons)
      case ClearPrevious(token) => ClearPreviousStep(s, token)
      case ReserveNext(token) => ReserveStep(s, token)
      case Submit(token, accepts) => SubmitStep(s, token, accepts)
      case FinishRequest(token) => FinishStep(s, token)
      case EndReservation(token) => EndReservationStep(s, token)
      case EndInFlight(token) => EndInFlightStep(s, token)
      case Abort(token) => s.(operations := s.operations - {token})
  }

  // ----- Invariant

  predicate HeldBy(s: System, client: ClientId, control: Control) {
    client in s.sessions && Holds(s.sessions[client], control)
  }

  /** The owner tables are the sessions' held maps read the other way round. */
  ghost predicate OwnersAreHolders(s: System) {
    forall control, client :: client in Owners(s.own, control) <==> HeldBy(s, client, control)
  }

  ghost predicate NoEmptyOwnerSet(own: Ownership) {
    && (forall id :: id in own.keyOwners ==> own.keyOwners[id] != {})
    && (forall id :: id in own.buttonOwners ==> own.buttonOwners[id] != {})
  }

  /** Held keys are within their bound and each is stored under its own identity. */
  ghost predicate GoodKeys(held: map<nat, KeyCode>) {
    && |held| <= MAX_HELD_KEYS
    && forall id :: id in held ==> KeyIdentity(held[id]) == id && CanonicalKey(held[id]) == held[id]
  }

  ghost predicate GoodButtons(held: map<nat, MouseButton>) {
    && |held| <= MAX_HELD_BUTTONS
    && forall id :: id in held ==> ButtonCode(held[id]) == id && CanonicalButton(held[id]) == held[id]
  }

  ghost predicate GoodSession(session: Session) {
    GoodKeys(session.heldKeys) && GoodButtons(session.heldButtons)
  }

  predicate InFlight(s: System, token: Token) {
    token in s.operations && s.operations[token].client in s.sessions
    && s.sessions[s.operations[token].client].inFlight == Some(token)
  }

  function PendingOf(op: Operation): Option<Pending> {
    match op.phase
    case Reserved(pending) => Some(pending)
    case Submitted(pending, _) => Some(pending)
    case _ => None
  }

  /** What a pending request remembers is true of its session for as long as its token is in flight. */
  ghost predicate PendingMatches(session: Session, pending: Pending) {
    && (!pending.press.NoPress? <==> IsPress(pending.transition))
    && (pending.owner.Some? <==> IsPress(pending.transition))
    && (IsPress(pending.transition) ==>
          var control := ControlOf(pending.transition).value;
          && Holds(session, control)
          && pending.owner.value.control == control
          && (control.KeyControl? ==>
                pending.press == ProvisionalKey(control.id, pending.owner.value.introduced))
          && (control.ButtonControl? ==>
                && pending.press.ProvisionalButton?
                && pending.press.buttonIdentity == control.id
                && pending.press.introduced == pending.owner.value.introduced))
    && GoodTransition(pending.transition)
  }

  /** Tokens are older than the counter and a session's token names an operation of its own client. */
  ghost predicate TokensAreOwned(s: System) {
    && (forall t :: t in s.operations ==> t < s.nextToken)
    && (forall c :: c in s.sessions && s.sessions[c].inFlight.Some? ==> s.sessions[c].inFlight.value < s.nextToken)
    && (forall c :: c in s.sessions && s.sessions[c].inFlight.Some? && s.sessions[c].inFlight.value in s.operations ==>
          s.operations[s.sessions[c].inFlight.value].client == c)
  }

  ghost predicate SessionsAreGood(s: System) {
    forall c :: c in s.sessions ==> GoodSession(s.sessions[c])
  }

  ghost predicate PendingAreGood(s: System) {
    forall t :: t in s.operations && PendingOf(s.operations[t]).Some? && InFlight(s, t) ==>
      PendingMatches(s.sessions[s.operations[t].client], PendingOf(s.operations[t]).value)
  }

  ghost predicate Inv(s: System) {
    && ClientsHaveSessions(s)
    && OwnersAreHolders(s)
    && NoEmptyOwnerSet(s.own)
    && SessionsAreGood(s)
    && TokensAreOwned(s)
    && PendingAreGood(s)
  }

  // ----- Local effects of the locked regions

  /** `own'` and `session'` differ from `own` and `session` only in whether the client holds one control. */
  ghost predicate ChangesOne(own: Ownership, session: Session, own': Ownership, session': Session, client: ClientId,
      control: Control) {
    && (forall other ::
         other != control ==>
         Owners(own', other) == Owners(own, other) && (Holds(session', other) <==> Holds(session, other)))
    && (forall c :: c != client ==> (c in Owners(own', control) <==> c in Owners(own, control)))
    && (client in Owners(own', control) <==> Holds(session', control))
  }

  ghost predicate Unchanged(own: Ownership, session: Session, own': Ownership, session': Session) {
    forall control ::
        Owners(own', control) == Owners(own, control) && (Holds(session', control) <==> Holds(session, control))
  }

  /** A transition carries the canonical control of its identity. */
  ghost predicate GoodTransition(transition: Transition) {
    match transition
    case KeyTransition(id, code, _) => KeyIdentity(code) == id && CanonicalKey(code) == code
    case ButtonTransition(id, button, _, _, _) => ButtonCode(button) == id && CanonicalButton(button) == button
    case _ => true
  }

  /** `session'` differs from `session` only in whether it holds the control, in its position, and nowhere else. */
  ghost predicate HoldsOnly(session: Session, session': Session, control: Control, held: bool) {
    && (Holds(session', control) <==> held)
    && (forall other :: other != control ==> (Holds(session', other) <==> Holds(session, other)))
    && session'.inFlight == session.inFlight
  }

  lemma HeldTransitionIsGood(payload: Payload)
    requires !payload.Malformed?
    ensures GoodTransition(HeldTransition(payload))
  {
  }

  lemma OneMore<V>(table: map<nat, V>, id: nat, value: V)
    ensures |table[id := value]| == |table| + if id in table then 0 else 1
  {
    assert table[id := value].Keys == table.Keys + {id};
  }

  lemma KeysWithout(keys: map<nat, KeyCode>, id: nat)
    requires GoodKeys(keys)
    ensures GoodKeys(keys - {id})
  {
    hide KeyIdentity, CanonicalKey;
    RemovalShrinks(keys, id);
  }

  lemma KeysWith(keys: map<nat, KeyCode>, id: nat, code: KeyCode)
    requires GoodKeys(keys) && KeyIdentity(code) == id && CanonicalKey(code) == code
    requires id in keys || |keys| < MAX_HELD_KEYS
    ensures GoodKeys(keys[id := code])
  {
    hide KeyIdentity, CanonicalKey;
    OneMore(keys, id, code);
  }

  lemma KeysStayGood(keys: map<nat, KeyCode>, code: KeyCode)
    requires GoodKeys(keys) && CanonicalKey(code) == code
    ensures GoodKeys(keys - {KeyIdentity(code)})
    ensures KeyIdentity(code) in keys || |keys| < MAX_HELD_KEYS ==> GoodKeys(keys[KeyIdentity(code) := code])
  {
    hide *;
    KeysWithout(keys, KeyIdentity(code));
    if KeyIdentity(code) in keys || |keys| < MAX_HELD_KEYS {
      KeysWith(keys, KeyIdentity(code), code);
    }
  }

  lemma ButtonsWithout(buttons: map<nat, MouseButton>, id: nat)
    requires GoodButtons(buttons)
    ensures GoodButtons(buttons - {id})
  {
    hide ButtonCode, CanonicalButton;
    RemovalShrinks(buttons, id);
  }

  lemma ButtonsWith(buttons: map<nat, MouseButton>, id: nat, button: MouseButton)
    requires GoodButtons(buttons) && ButtonCode(button) == id && CanonicalButton(button) == button
    requires id in buttons || |buttons| < MAX_HELD_BUTTONS
    ensures GoodButtons(buttons[id := button])
  {
    hide ButtonCode, CanonicalButton;
    OneMore(buttons, id, button);
  }

  lemma ButtonsStayGood(buttons: map<nat, MouseButton>, button: MouseButton)
    requires GoodButtons(buttons) && CanonicalButton(button) == button
    ensures GoodButtons(buttons - {ButtonCode(button)})
    ensures ButtonCode(button) in buttons || |buttons| < MAX_HELD_BUTTONS ==>
            GoodButtons(buttons[ButtonCode(button) := button])
  {
    hide *;
    ButtonsWithout(buttons, ButtonCode(button));
    if ButtonCode(button) in buttons || |buttons| < MAX_HELD_BUTTONS {
      ButtonsWith(buttons, ButtonCode(button), button);
    }
  }

  lemma TransitionKeepsGood(session: Session, transition: Transition)
    requires GoodSession(session) && GoodTransition(transition) && ControlOf(transition).Some?
    ensures var control := ControlOf(transition).value;
            && (control.KeyControl? ==> GoodKeys(session.heldKeys - {control.id}))
            && (control.ButtonControl? ==> GoodButtons(session.heldButtons - {control.id}))
    ensures IsPress(transition) ==>
            WithinCapacity(session, transition) ==> GoodSession(ApplySession(session, transition))
    ensures !IsPress(transition) ==> GoodSession(ApplySession(session, transition))
  {
    hide GoodKeys, GoodButtons;
    match transition
    case KeyTransition(_, code, _) => KeysStayGood(session.heldKeys, code);
    case ButtonTransition(_, button, _, _, _) => ButtonsStayGood(session.heldButtons, button);
    case _ =>
  }

  lemma ApplySessionEffects(session: Session, transition: Transition)
    requires ControlOf(transition).Some?
    ensures HoldsOnly(session, ApplySession(session, transition), ControlOf(transition).value, IsPress(transition))
  {
  }

  lemma RollbackSessionEffects(session: Session, pending: Pending)
    requires GoodSession(session) && PendingMatches(session, pending) && IsPress(pending.transition)
    ensures GoodSession(RollbackSession(session, pending.press))
    ensures HoldsOnly(session, RollbackSession(session, pending.press), ControlOf(pending.transition).value,
            !pending.owner.value.introduced)
  {
    hide GoodKeys, GoodButtons;
    TransitionKeepsGood(session, pending.transition);
  }

  lemma OwnerTablesStayFull(own: Ownership, control: Control, client: ClientId)
    requires NoEmptyOwnerSet(own)
    ensures NoEmptyOwnerSet(AddControlOwner(own, control, client))
    ensures NoEmptyOwnerSet(RemoveControlOwner(own, control, client))
  {
  }

  /** Applying a transition to both tables changes one control of one client, in step. */
  lemma ApplyIsLocal(own: Ownership, session: Session, client: ClientId, transition: Transition)
    requires NoEmptyOwnerSet(own) && GoodSession(session) && GoodTransition(transition)
    requires ControlOf(transition).Some?
    requires IsPress(transition) ==> WithinCapacity(session, transition)
    ensures var (own', session') := (ApplyOwner(own, client, transition), ApplySession(session, transition));
            && NoEmptyOwnerSet(own') && GoodSession(session') && session'.inFlight == session.inFlight
            && LocalChange(own, session, own', session', client, transition)
  {
    hide GoodSession, WithinCapacity, GoodTransition, NoEmptyOwnerSet, AddControlOwner, RemoveControlOwner,
         ApplySession, Owners, Holds;
    var control := ControlOf(transition).value;
    OwnerTableEffects(own, control, client);
    OwnerTablesStayFull(own, control, client);
    ApplySessionEffects(session, transition);
    TransitionKeepsGood(session, transition);
  }

  /** Reserving applies a no-op release or a press to both tables, and otherwise only books the token. */
  lemma ReserveShape(own: Ownership, session: Session, client: ClientId, token: Token, payload: Payload)
    requires !Reserve(own, session, client, token, payload).Refused?
    ensures var r := Reserve(own, session, client, token, payload);
            var transition := HeldTransition(payload);
            var applied := (ApplyOwner(own, client, transition), ApplySession(session, transition));
            && (r.Noop? ==> IsRelease(transition) && (r.own, r.session) == applied)
            && (r.Inject? ==>
                 r.pending == Pending(transition, ProvisionSession(session, transition).1,
                 ProvisionOwner(own, client, transition).1))
            && (r.Inject? && IsPress(transition) ==>
                  r.session == applied.1 && r.own == applied.0.(reservations := own.reservations[token := client]))
            && (r.Inject? && !IsPress(transition) ==>
                  r.session == session && r.own == own.(reservations := own.reservations[token := client]))
            && (IsPress(transition) ==> WithinCapacity(session, transition))
  {
  }

  lemma ReservationsCarryNoOwners(own: Ownership, reservations: map<Token, ClientId>)
    ensures var own' := own.(reservations := reservations);
            && (forall control :: Owners(own', control) == Owners(own, control))
            && (NoEmptyOwnerSet(own) ==> NoEmptyOwnerSet(own'))
  {
  }

  lemma InjectNeedsToken(own: Ownership, session: Session, client: ClientId, token: Token, payload: Payload)
    requires !Reserve(own, session, client, token, payload).Refused?
    ensures session.inFlight == Some(token) && !payload.Malformed?
  {
  }

  /** What a reservation that reaches the tables or only books a token has in common. */
  ghost predicate ReservedLocally(own: Ownership, session: Session, client: ClientId, r: Reservation,
      transition: Transition)
    requires !r.Refused?
  {
    && NoEmptyOwnerSet(r.own) && GoodSession(r.session) && r.session.inFlight == session.inFlight
    && LocalChange(own, session, r.own, r.session, client, transition)
    && (r.Inject? ==> PendingMatches(r.session, r.pending))
  }

  lemma SameOwnersAreLocal(own: Ownership, session: Session, own': Ownership, own2: Ownership, session': Session,
      client: ClientId, transition: Transition)
    requires LocalChange(own, session, own', session', client, transition)
    requires forall control :: Owners(own2, control) == Owners(own', control)
    ensures LocalChange(own, session, own2, session', client, transition)
  {
    hide Holds;
  }

  lemma AppliedLocally(own: Ownership, session: Session, client: ClientId, token: Token, payload: Payload)
    requires forall control :: client in Owners(own, control) <==> Holds(session, control)
    requires NoEmptyOwnerSet(own) && GoodSession(session)
    requires var r := Reserve(own, session, client, token, payload);
             !r.Refused? && (r.Noop? || IsPress(HeldTransition(payload)))
    ensures ReservedLocally(own, session, client, Reserve(own, session, client, token, payload),
            HeldTransition(payload))
  {
    hide GoodSession, NoEmptyOwnerSet, HeldTransition, Reserve, ApplySession, WithinCapacity, ApplyOwner,
        GoodTransition, LocalChange,
         PendingMatches, ProvisionSession, ProvisionOwner;
    InjectNeedsToken(own, session, client, token, payload);
    var r, transition := Reserve(own, session, client, token, payload), HeldTransition(payload);
    HeldTransitionIsGood(payload);
    ReserveShape(own, session, client, token, payload);
    ApplyIsLocal(own, session, client, transition);
    var applied := ApplyOwner(own, client, transition);
    ReservationsCarryNoOwners(applied, r.own.reservations);
    SameOwnersAreLocal(own, session, applied, r.own, r.session, client, transition);
    if r.Inject? {
      ProvisionMatches(own, session, client, transition);
    }
  }

  lemma BookedLocally(own: Ownership, session: Session, client: ClientId, token: Token, payload: Payload)
    requires forall control :: client in Owners(own, control) <==> Holds(session, control)
    requires NoEmptyOwnerSet(own) && GoodSession(session)
    requires Reserve(own, session, client, token, payload).Inject? && !IsPress(HeldTransition(payload))
    ensures ReservedLocally(own, session, client, Reserve(own, session, client, token, payload),
            HeldTransition(payload))
  {
    hide GoodSession, NoEmptyOwnerSet, HeldTransition, Reserve, ApplySession, WithinCapacity, ApplyOwner,
        GoodTransition, Owners, Holds;
    InjectNeedsToken(own, session, client, token, payload);
    HeldTransitionIsGood(payload);
    ReserveShape(own, session, client, token, payload);
    ReservationsCarryNoOwners(own, Reserve(own, session, client, token, payload).own.reservations);
  }

  lemma ReserveIsLocal(own: Ownership, session: Session, client: ClientId, token: Token, payload: Payload)
    requires forall control :: client in Owners(own, control) <==> Holds(session, control)
    requires NoEmptyOwnerSet(own) && GoodSession(session)
    requires !Reserve(own, session, client, token, payload).Refused?
    ensures ReservedLocally(own, session, client, Reserve(own, session, client, token, payload),
            HeldTransition(payload))
  {
    hide *;
    InjectNeedsToken(own, session, client, token, payload);
    if Reserve(own, session, client, token, payload).Noop? || IsPress(HeldTransition(payload)) {
      AppliedLocally(own, session, client, token, payload);
    } else {
      BookedLocally(own, session, client, token, payload);
    }
  }

  lemma ProvisionMatches(own: Ownership, session: Session, client: ClientId, transition: Transition)
    requires IsPress(transition) && GoodTransition(transition)
    requires forall control :: client in Owners(own, control) <==> Holds(session, control)
    ensures PendingMatches(ApplySession(session, transition),
                           Pending(transition, ProvisionSession(session, transition).1,
                               ProvisionOwner(own, client, transition).1))
  {
    assert client in Owners(own, ControlOf(transition).value) <==> Holds(session, ControlOf(transition).value);
  }

  lemma RollbackIsLocal(own: Ownership, session: Session, client: ClientId, pending: Pending)
    requires forall control :: client in Owners(own, control) <==> Holds(session, control)
    requires NoEmptyOwnerSet(own) && GoodSession(session) && PendingMatches(session, pending)
    ensures var (own', session') := (RollbackOwner(own, client, pending.owner),
            RollbackSession(session, pending.press));
            && NoEmptyOwnerSet(own') && GoodSession(session') && session'.inFlight == session.inFlight
            && LocalChange(own, session, own', session', client, pending.transition)
  {
    if IsPress(pending.transition) {
      var control := ControlOf(pending.transition).value;
      OwnerTableEffects(own, control, client);
      OwnerTablesStayFull(own, control, client);
      RollbackSessionEffects(session, pending);
      assert client in Owners(own, control);
    }
  }

  lemma FinishIsLocal(own: Ownership, session: Session, client: ClientId, token: Token, pending: Pending,
      accepted: bool)
    requires forall control :: client in Owners(own, control) <==> Holds(session, control)
    requires NoEmptyOwnerSet(own) && GoodSession(session)
    requires IsCurrent(own, session, client, token) && PendingMatches(session, pending)
    ensures var (own', session') := Finish(own, session, client, token, pending, accepted);
            && NoEmptyOwnerSet(own') && GoodSession(session') && session'.inFlight == session.inFlight
            && LocalChange(own, session, own', session', client, pending.transition)
  {
    var dropped := own.(reservations := own.reservations - {token});
    ReservationsCarryNoOwners(own, dropped.reservations);
    if !accepted {
      RollbackIsLocal(dropped, session, client, pending);
    } else if ControlOf(pending.transition).Some? {
      assert IsPress(pending.transition) ==> Holds(session, ControlOf(pending.transition).value);
      ApplyIsLocal(dropped, session, client, pending.transition);
    }
  }

  ghost predicate LocalChange(own: Ownership, session: Session, own': Ownership, session': Session, client: ClientId,
      transition: Transition) {
    if ControlOf(transition).Some?
    then ChangesOne(own, session, own', session', client, ControlOf(transition).value)
    else Unchanged(own, session, own', session')
  }

  lemma LocalChangeKeepsOwners(s: System, s': System, client: ClientId)
    requires OwnersAreHolders(s) && client in s.sessions && client in s'.sessions
    requires forall c :: c != client ==> (c in s.sessions <==> c in s'.sessions)
    requires forall c :: c != client && c in s.sessions ==> s'.sessions[c] == s.sessions[c]
    requires Unchanged(s.own, s.sessions[client], s'.own, s'.sessions[client])
             || exists control :: ChangesOne(s.own, s.sessions[client], s'.own, s'.sessions[client], client, control)
    ensures OwnersAreHolders(s')
  {
    forall control, c ensures c in Owners(s'.own, control) <==> HeldBy(s', c, control) {
      assert c in Owners(s.own, control) <==> HeldBy(s, c, control);
      assert client in Owners(s.own, control) <==> HeldBy(s, client, control);
    }
  }

  // ----- Each step keeps the invariant

  /** A locked region of one operation keeps the invariant when it changes one control of its client in step. */
  lemma RegionKeepsInv(s: System, token: Token, own': Ownership, session': Session, op': Operation, backend': Backend)
    requires Inv(s) && token in s.operations && op'.client == s.operations[token].client
    requires NoEmptyOwnerSet(own') && GoodSession(session')
    requires session'.inFlight == s.sessions[op'.client].inFlight
    requires session'.inFlight != Some(token) ==> session' == s.sessions[op'.client]
    requires exists transition :: LocalChange(s.own, s.sessions[op'.client], own', session', op'.client, transition)
    requires PendingOf(op').Some? && session'.inFlight == Some(token) ==> PendingMatches(session', PendingOf(op').value)
    ensures Inv(System(s.sessions[op'.client := session'], own', s.nextToken, s.operations[token := op'], backend'))
  {
    var s' := System(s.sessions[op'.client := session'], own', s.nextToken, s.operations[token := op'], backend');
    hide NoEmptyOwnerSet, GoodSession, PendingMatches;
    assert OwnersAreHolders(s') by {
      hide TokensAreOwned, PendingAreGood;
      LocalChangeKeepsOwners(s, s', op'.client);
    }
    hide OwnersAreHolders, LocalChange;
    assert PendingAreGood(s') by {
      forall t | t in s'.operations && PendingOf(s'.operations[t]).Some? && InFlight(s', t)
        ensures PendingMatches(s'.sessions[s'.operations[t].client], PendingOf(s'.operations[t]).value)
      {
        if t != token {
          assert InFlight(s, t);
        }
      }
    }
  }

  lemma HoldersLocally(s: System, client: ClientId)
    requires Inv(s) && client in s.sessions
    ensures forall control :: client in Owners(s.own, control) <==> Holds(s.sessions[client], control)
  {
    forall control ensures client in Owners(s.own, control) <==> Holds(s.sessions[client], control) {
      assert client in Owners(s.own, control) <==> HeldBy(s, client, control);
    }
  }

  /** Dropping reservations and moving an operation on, with its session untouched. */
  lemma PhaseKeepsInv(s: System, token: Token, own': Ownership, op': Operation, backend': Backend)
    requires Inv(s) && token in s.operations && op'.client == s.operations[token].client
    requires own' == s.own.(reservations := own'.reservations)
    requires PendingOf(op').Some? ==> PendingOf(op') == PendingOf(s.operations[token])
    ensures Inv(System(s.sessions, own', s.nextToken, s.operations[token := op'], backend'))
  {
    var session := s.sessions[op'.client];
    ReservationsCarryNoOwners(s.own, own'.reservations);
    assert LocalChange(s.own, session, own', session, op'.client, NoTransition);
    assert session.inFlight == Some(token) ==> InFlight(s, token);
    RegionKeepsInv(s, token, own', session, op', backend');
    assert s.sessions[op'.client := session] == s.sessions;
  }

  lemma ReserveKeepsInv(s: System, token: Token)
    requires Inv(s) && Enabled(s, ReserveNext(token))
    ensures Inv(ReserveStep(s, token))
  {
    var op := s.operations[token];
    var session := s.sessions[op.client];
    var next := op.(rest := op.rest[1..]);
    var r := Reserve(s.own, session, op.client, token, op.rest[0]);
    if r.Refused? {
      PhaseKeepsInv(s, token, s.own, AfterError(next), s.backend);
    } else {
      HoldersLocally(s, op.client);
      ReserveIsLocal(s.own, session, op.client, token, op.rest[0]);
      RegionKeepsInv(s, token, r.own, r.session, if r.Noop? then next else next.(phase := Reserved(r.pending)),
          s.backend);
    }
  }

  lemma FinishKeepsInv(s: System, token: Token)
    requires Inv(s) && Enabled(s, FinishRequest(token))
    ensures Inv(FinishStep(s, token))
  {
    var op := s.operations[token];
    var session := s.sessions[op.client];
    var (own', session') := Finish(s.own, session, op.client, token, op.phase.pending, op.phase.accepted);
    hide OwnersAreHolders, NoEmptyOwnerSet, SessionsAreGood, PendingAreGood, TokensAreOwned;
    if IsCurrent(s.own, session, op.client, token) {
      CurrentFinishKeepsInv(s, token, op, own', session');
    } else {
      assert s.sessions[op.client := session] == s.sessions;
      PhaseKeepsInv(s, token, s.own, op.(phase := Ready), s.backend);
    }
  }

  lemma CurrentFinishKeepsInv(s: System, token: Token, op: Operation, own': Ownership, session': Session)
    requires token in s.operations && op == s.operations[token] && op.phase.Submitted? && op.client in s.sessions
    requires IsCurrent(s.own, s.sessions[op.client], op.client, token)
    requires (own', session') == Finish(s.own, s.sessions[op.client], op.client, token, op.phase.pending,
             op.phase.accepted)
    requires Inv(s)
    ensures Inv(System(s.sessions[op.client := session'], own', s.nextToken,
            s.operations[token := op.(phase := Ready)], s.backend))
  {
    hide GoodSession, NoEmptyOwnerSet, PendingMatches, LocalChange;
    assert InFlight(s, token);
    HoldersLocally(s, op.client);
    FinishIsLocal(s.own, s.sessions[op.client], op.client, token, op.phase.pending, op.phase.accepted);
    RegionKeepsInv(s, token, own', session', op.(phase := Ready), s.backend);
  }

  lemma SubmitKeepsInv(s: System, token: Token, accepts: bool)
    requires Inv(s) && Enabled(s, Submit(token, accepts))
    ensures Inv(SubmitStep(s, token, accepts))
  {
    hide OwnersAreHolders, NoEmptyOwnerSet, SessionsAreGood, PendingAreGood, TokensAreOwned;
    var s' := SubmitStep(s, token, accepts);
    PhaseKeepsInv(s, token, s.own, s'.operations[token], s'.backend);
  }

  lemma DropKeepsInv(s: System, token: Token, reserved: Token, op': Operation)
    requires Inv(s) && token in s.operations && op'.client == s.operations[token].client && PendingOf(op').None?
    ensures Inv(WithOperation(s, token, op').(own := DropReservation(s.own, op'.client, reserved)))
    ensures Inv(WithOperation(s, token, op'))
  {
    PhaseKeepsInv(s, token, s.own, op', s.backend);
    PhaseKeepsInv(s, token, DropReservation(s.own, op'.client, reserved), op', s.backend);
  }

  function KeysOf(s: System, client: ClientId): map<nat, KeyCode> {
    if client in s.sessions then s.sessions[client].heldKeys else map[]
  }

  function ButtonsOf(s: System, client: ClientId): map<nat, MouseButton> {
    if client in s.sessions then s.sessions[client].heldButtons else map[]
  }

  /** Opening, stamping and pruning sessions and adding or removing operations leave what is held alone. */
  lemma SessionsKeepInv(s: System, s': System)
    requires Inv(s) && s'.own == s.own
    requires forall c :: KeysOf(s', c) == KeysOf(s, c) && ButtonsOf(s', c) == ButtonsOf(s, c)
    requires ClientsHaveSessions(s') && TokensAreOwned(s')
    requires forall t :: t in s'.operations && PendingOf(s'.operations[t]).Some? && InFlight(s', t) ==>
               t in s.operations && s.operations[t] == s'.operations[t] && InFlight(s, t)
    ensures Inv(s')
  {
    forall control, c ensures c in Owners(s'.own, control) <==> HeldBy(s', c, control) {
      assert c in Owners(s.own, control) <==> HeldBy(s, c, control);
      assert KeysOf(s', c) == KeysOf(s, c);
    }
    forall c | c in s'.sessions ensures GoodSession(s'.sessions[c]) {
      assert KeysOf(s', c) == KeysOf(s, c);
    }
    forall t | t in s'.operations && PendingOf(s'.operations[t]).Some? && InFlight(s', t)
      ensures PendingMatches(s'.sessions[s'.operations[t].client], PendingOf(s'.operations[t]).value)
    {
      assert KeysOf(s', s'.operations[t].client) == KeysOf(s, s.operations[t].client);
    }
  }

  lemma WithSessionKeepsInv(s: System, client: ClientId, session: Session)
    requires Inv(s) && session.heldKeys == KeysOf(s, client) && session.heldButtons == ButtonsOf(s, client)
    requires session.inFlight == if client in s.sessions then s.sessions[client].inFlight else None
    ensures Inv(WithSession(s, client, session))
  {
    hide OwnersAreHolders, NoEmptyOwnerSet, SessionsAreGood, PendingAreGood;
    SessionsKeepInv(s, WithSession(s, client, session));
  }

  /** A new operation takes a fresh token and its client's session. */
  lemma NewOperationKeepsInv(s: System, client: ClientId, session: Session, op: Operation)
    requires Inv(s) && client in s.sessions && op.client == client && PendingOf(op).None?
    requires session.heldKeys == KeysOf(s, client) && session.heldButtons == ButtonsOf(s, client)
    requires session.inFlight == Some(s.nextToken)
    ensures Inv(System(s.sessions[client := session], s.own, s.nextToken + 1, s.operations[s.nextToken := op],
            s.backend))
  {
    hide OwnersAreHolders, NoEmptyOwnerSet, SessionsAreGood, PendingAreGood;
    SessionsKeepInv(s, System(s.sessions[client := session], s.own, s.nextToken + 1, s.operations[s.nextToken := op],
        s.backend));
  }

  lemma PruneKeepsInv(s: System, client: ClientId)
    requires Inv(s) && client in s.sessions && !HasHeldInput(s.sessions[client])
    requires forall t :: t in s.operations ==> s.operations[t].client != client
    ensures Inv(s.(sessions := s.sessions - {client}))
  {
    hide OwnersAreHolders, NoEmptyOwnerSet, SessionsAreGood, PendingAreGood;
    SessionsKeepInv(s, s.(sessions := s.sessions - {client}));
  }

  lemma AbortKeepsInv(s: System, token: Token)
    requires Inv(s) && token in s.operations
    ensures Inv(s.(operations := s.operations - {token}))
  {
    hide OwnersAreHolders, NoEmptyOwnerSet, SessionsAreGood, PendingAreGood;
    SessionsKeepInv(s, s.(operations := s.operations - {token}));
  }

  lemma EndKeepsInv(s: System, token: Token)
    requires Enabled(s, EndInFlight(token)) && s.operations[token].client in s.sessions
    requires Inv(s)
    ensures Inv(EndInFlightStep(s, token))
  {
    hide OwnersAreHolders, NoEmptyOwnerSet, SessionsAreGood, PendingAreGood;
    SessionsKeepInv(s, EndInFlightStep(s, token));
  }

  lemma StepKeepsInv(s: System, a: Action)
    requires Inv(s)
    ensures Inv(Step(s, a))
  {
    hide OwnersAreHolders, NoEmptyOwnerSet, SessionsAreGood, PendingAreGood, TokensAreOwned;
    if Enabled(s, a) {
      match a
      case OpenSession(client, now, _) => WithSessionKeepsInv(s, client, NewSession(now));
      case Refresh(client, now) => WithSessionKeepsInv(s, client, s.sessions[client].(lastSeen := now));
      case Prune(client, _, _) => PruneKeepsInv(s, client);
      case Begin(client, sequence, now, requests) =>
        var s' := BeginStep(s, client, sequence, now, requests);
        NewOperationKeepsInv(s, client, s'.sessions[client], s'.operations[s.nextToken]);
      case StartCleanup(client, keys, buttons) =>
        var s' := StartCleanupStep(s, client, keys, buttons);
        NewOperationKeepsInv(s, client, s'.sessions[client], s'.operations[s.nextToken]);
      case ClearPrevious(token) =>
        var op := s.operations[token];
        DropKeepsInv(s, token, if op.phase.previous.Some? then op.phase.previous.value else token, op.(phase := Ready));
      case ReserveNext(token) => ReserveKeepsInv(s, token);
      case Submit(token, accepts) => SubmitKeepsInv(s, token, accepts);
      case FinishRequest(token) => FinishKeepsInv(s, token);
      case EndReservation(token) => DropKeepsInv(s, token, token, s.operations[token].(phase := Ending));
      case EndInFlight(token) => EndKeepsInv(s, token);
      case Abort(token) => AbortKeepsInv(s, token);
    }
  }

  // ----- Runs

  function Run(s: System, actions: seq<Action>): (r: System)
    requires Inv(s)
    ensures Inv(r)
    decreases |actions|
  {
    if actions == [] then s
    else
      StepKeepsInv(s, actions[0]);
      Run(Step(s, actions[0]), actions[1..])
  }

  lemma {:induction false} RunAppend(s: System, first: seq<Action>, rest: seq<Action>)
    requires Inv(s)
    ensures Run(s, first + rest) == Run(Run(s, first), rest)
    decreases |first|
  {
    hide Step, OwnersAreHolders, NoEmptyOwnerSet, SessionsAreGood, PendingAreGood, TokensAreOwned;
    if first == [] {
      assert first + rest == rest;
    } else {
      StepKeepsInv(s, first[0]);
      assert (first + rest)[1..] == first[1..] + rest;
      RunAppend(Step(s, first[0]), first[1..], rest);
    }
  }

  /** The state before action i of a run steps to the state after it. */
  lemma RunStep(s: System, actions: seq<Action>, i: nat)
    requires Inv(s) && i < |actions|
    ensures Run(s, actions[..i + 1]) == Step(Run(s, actions[..i]), actions[i])
  {
    hide Step, OwnersAreHolders, NoEmptyOwnerSet, SessionsAreGood, PendingAreGood, TokensAreOwned;
    assert actions[..i + 1] == actions[..i] + [actions[i]];
    RunAppend(s, actions[..i], [actions[i]]);
    var before := Run(s, actions[..i]);
    StepKeepsInv(before, actions[i]);
    assert [actions[i]][1..] == [];
  }

  /** In every run from the empty gateway the two tables are each other's inverse and within their bounds. */
  lemma {:induction false} OwnersAreHoldersInEveryRun(actions: seq<Action>)
    ensures Inv(INITIAL)
    ensures var s := Run(INITIAL, actions);
            && (forall client, control :: client in Owners(s.own, control) <==> HeldBy(s, client, control))
            && (forall id :: id in s.own.keyOwners ==> s.own.keyOwners[id] != {})
            && (forall id :: id in s.own.buttonOwners ==> s.own.buttonOwners[id] != {})
            && (forall client :: client in s.sessions ==>
                  |s.sessions[client].heldKeys| <= 64 && |s.sessions[client].heldButtons| <= 16)
  {
  }
}
