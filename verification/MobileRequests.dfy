/** What a request does to its client, read off its payload: the outcome of all its locked regions together. */
module MobileRequests {
  import opened Common
  import opened InputEvents
  import opened MobileOwnership
  import opened MobileProtocol

  // ----- What a payload asks for

  /** Letters in either case are one key; every other key is itself. */
  predicate SameKey(a: KeyCode, b: KeyCode) {
    a == b || (a.Char? && b.Char? && (IsUpperOf(a.ascii, b.ascii) || IsUpperOf(b.ascii, a.ascii)))
  }

  predicate IsUpperOf(upper: byte, lower: byte) {
    65 <= upper <= 90 && lower == upper + 32
  }

  /** Keys are held under one identity exactly when they are the same key, buttons exactly when they have one code. */
  lemma HeldTogetherExactlyWhen(a: KeyCode, b: KeyCode, x: MouseButton, y: MouseButton)
    ensures KeyIdentity(CanonicalKey(a)) == KeyIdentity(CanonicalKey(b)) <==> SameKey(a, b)
    ensures SameKey(a, CanonicalKey(a))
    ensures ButtonCode(CanonicalButton(x)) == ButtonCode(CanonicalButton(y)) <==> ButtonCode(x) == ButtonCode(y)
    ensures ButtonCode(CanonicalButton(x)) == ButtonCode(x)
  {
  }

  /** The key or button that a request presses or releases. */
  function Asked(payload: Payload): Option<Control> {
    match payload
    case Keyboard(code, _) => Some(KeyControl(KeyIdentity(CanonicalKey(code))))
    case MouseButtonEvent(button, _, _, _) => Some(ButtonControl(ButtonCode(button)))
    case _ => None
  }

  predicate Presses(payload: Payload) {
    (payload.Keyboard? || payload.MouseButtonEvent?) && payload.pressed
  }

  lemma PressesAsk(payload: Payload)
    ensures Presses(payload) ==> Asked(payload).Some?
  {
  }

  /** A press of a control that is not held, by a client that holds 64 keys, or 16 buttons, already. */
  predicate NoRoom(session: Session, payload: Payload) {
    Presses(payload) &&
    match payload
    case Keyboard(code, _) =>
      |session.heldKeys| >= 64 && forall id :: id in session.heldKeys ==> id != KeyIdentity(CanonicalKey(code))
    case MouseButtonEvent(button, _, _, _) =>
      |session.heldButtons| >= 16 && forall id :: id in session.heldButtons ==> id != ButtonCode(button)
    case _ => false
  }

  predicate MustRefuse(session: Session, token: Token, payload: Payload) {
    payload.Malformed? || session.inFlight != Some(token) || NoRoom(session, payload)
  }

  /** The backend is asked for anything but the release of a control that others hold, or that the client does not. */
  predicate MustAsk(own: Ownership, client: ClientId, payload: Payload) {
    Asked(payload).Some? && !Presses(payload) ==> Owners(own, Asked(payload).value) == {client}
  }

  /** The session once the request was carried out. */
  function SessionServed(session: Session, payload: Payload): Session {
    match payload
    case Keyboard(code, pressed) =>
      var key := CanonicalKey(code);
      session.(heldKeys := if pressed then session.heldKeys[KeyIdentity(key) := key]
                           else session.heldKeys - {KeyIdentity(key)})
    case MouseButtonEvent(button, pressed, x, y) =>
      var code := ButtonCode(button);
      session.(lastPosition := (x, y),
               heldButtons := if pressed then session.heldButtons[code := ButtonOf(code)]
                              else session.heldButtons - {code})
    case Pointer(x, y) => session.(lastPosition := (x, y))
    case _ => session
  }

  /** The owners of each control once the request was carried out. */
  ghost predicate OwnersServed(own: Ownership, own': Ownership, client: ClientId, payload: Payload) {
    forall control ::
      Owners(own', control)
      == if Asked(payload) != Some(control) then Owners(own, control)
         else if Presses(payload) then Owners(own, control) + {client}
         else Owners(own, control) - {client}
  }

  ghost predicate SameOwners(own: Ownership, own': Ownership) {
    forall control :: Owners(own', control) == Owners(own, control)
  }

  lemma AskedIsControl(payload: Payload)
    requires !payload.Malformed?
    ensures ControlOf(HeldTransition(payload)) == Asked(payload)
    ensures IsPress(HeldTransition(payload)) <==> Presses(payload)
    ensures IsRelease(HeldTransition(payload)) <==> Asked(payload).Some? && !Presses(payload)
    ensures GoodTransition(HeldTransition(payload))
  {
  }

  lemma AppliedIsServed(own: Ownership, session: Session, client: ClientId, payload: Payload)
    requires !payload.Malformed?
    ensures ApplySession(session, HeldTransition(payload)) == SessionServed(session, payload)
    ensures OwnersServed(own, ApplyOwner(own, client, HeldTransition(payload)), client, payload)
    ensures ApplyOwner(own, client, HeldTransition(payload)).reservations == own.reservations
  {
    AskedIsControl(payload);
    if Asked(payload).Some? {
      OwnerTableEffects(own, Asked(payload).value, client);
    }
    hide HeldTransition, Owners, AddControlOwner, RemoveControlOwner, ApplySession, SessionServed;
    ServedSession(session, payload);
    ReservationsStay(own, HeldTransition(payload), client);
  }

  lemma ServedSession(session: Session, payload: Payload)
    requires !payload.Malformed?
    ensures ApplySession(session, HeldTransition(payload)) == SessionServed(session, payload)
  {
  }

  lemma ReservationsStay(own: Ownership, transition: Transition, client: ClientId)
    ensures ApplyOwner(own, client, transition).reservations == own.reservations
  {
  }

  // ----- Reserving

  /**
   Reserving refuses exactly a malformed payload, an operation that is not its client's, and a press for which there is
   no room. Otherwise a press is put down for the client at once, and a release that must not reach the backend is done.
   */
  lemma ReservesExactly(own: Ownership, session: Session, client: ClientId, token: Token, payload: Payload)
    ensures var r := Reserve(own, session, client, token, payload);
            && (r.Refused? <==> MustRefuse(session, token, payload))
            && (r.Inject? <==> !MustRefuse(session, token, payload) && MustAsk(own, client, payload))
            && (r.Noop? || (r.Inject? && Presses(payload)) ==>
                  r.session == SessionServed(session, payload) && OwnersServed(own, r.own, client, payload))
            && (r.Inject? && !Presses(payload) ==> r.session == session && SameOwners(own, r.own))
            && (r.Inject? ==>
                  && r.own.reservations == own.reservations[token := client]
                  && r.pending.transition == HeldTransition(payload))
            && (r.Noop? ==> r.own.reservations == own.reservations)
            && (r.Inject? && Presses(payload) ==>
                  Holds(r.session, Asked(payload).value) && client in Owners(r.own, Asked(payload).value))
  {
    hide Reserve, HeldTransition, MustRefuse, MustAsk, ApplyOwner, ApplySession, OwnersServed, SameOwners,
         SessionServed;
    RefusesExactly(own, session, client, token, payload);
    if !Reserve(own, session, client, token, payload).Refused? {
      InjectNeedsToken(own, session, client, token, payload);
      AskedIsControl(payload);
      AppliedIsServed(own, session, client, payload);
      ReserveShape(own, session, client, token, payload);
      AsksExactly(own, session, client, token, payload);
      var applied := ApplyOwner(own, client, HeldTransition(payload));
      OwnersCarryOver(own, applied, applied.(reservations := own.reservations[token := client]), client, payload);
      OwnersCarryOver(own, own, own.(reservations := own.reservations[token := client]), client, payload);
      if Presses(payload) {
        PressedIsHeld(own, applied, session, client, payload);
        PressedIsHeld(own, applied.(reservations := own.reservations[token := client]), session, client, payload);
      }
    }
  }

  lemma OwnersCarryOver(own: Ownership, own': Ownership, own2: Ownership, client: ClientId, payload: Payload)
    requires own2 == own'.(reservations := own2.reservations)
    ensures OwnersServed(own, own', client, payload) ==> OwnersServed(own, own2, client, payload)
    ensures SameOwners(own, own') ==> SameOwners(own, own2)
    ensures SameOwners(own', own2)
  {
  }

  lemma PressedIsHeld(own: Ownership, own': Ownership, session: Session, client: ClientId, payload: Payload)
    requires Presses(payload)
    ensures Asked(payload).Some? && Holds(SessionServed(session, payload), Asked(payload).value)
    ensures OwnersServed(own, own', client, payload) ==> client in Owners(own', Asked(payload).value)
  {
  }

  lemma RefusesExactly(own: Ownership, session: Session, client: ClientId, token: Token, payload: Payload)
    ensures Reserve(own, session, client, token, payload).Refused? <==> MustRefuse(session, token, payload)
  {
    hide ReleaseIsNoop, ProvisionSession, ProvisionOwner, ApplySession, ApplyOwner;
  }

  lemma AsksExactly(own: Ownership, session: Session, client: ClientId, token: Token, payload: Payload)
    requires !Reserve(own, session, client, token, payload).Refused?
    ensures Reserve(own, session, client, token, payload).Inject? <==> MustAsk(own, client, payload)
  {
    AskedIsControl(payload);
    if IsRelease(HeldTransition(payload)) {
      ReleaseForwardedIffSoleOwner(own, session, client, token, payload);
    } else {
      OnlyReleasesAreNoops(own, client, HeldTransition(payload));
    }
    hide ProvisionSession, ProvisionOwner, ApplySession, ApplyOwner, WithinCapacity, HeldTransition;
  }

  lemma OnlyReleasesAreNoops(own: Ownership, client: ClientId, transition: Transition)
    requires !IsRelease(transition)
    ensures !ReleaseIsNoop(own, client, transition)
  {
  }

  // ----- Finishing

  lemma PressIsUndone(session: Session, transition: Transition)
    requires GoodSession(session) && GoodTransition(transition) && IsPress(transition)
    ensures RollbackSession(ApplySession(session, transition), ProvisionSession(session, transition).1) == session
  {
    match transition
    case KeyTransition(_, code, _) => HeldOnceMore(session.heldKeys, code);
    case ButtonTransition(_, button, _, _, _) => HeldButtonOnceMore(session.heldButtons, button);
    case _ =>
  }

  /** Pressing a held key again does not change how it is held; pressing a new one can be taken back. */
  lemma HeldOnceMore(held: map<nat, KeyCode>, code: KeyCode)
    requires GoodKeys(held) && CanonicalKey(code) == code
    ensures var id := KeyIdentity(code);
            if id in held then held[id := code] == held else held[id := code] - {id} == held
  {
    if KeyIdentity(code) in held {
      IdentityDeterminesControl(held[KeyIdentity(code)], code, Left, Left);
    }
  }

  lemma HeldButtonOnceMore(held: map<nat, MouseButton>, button: MouseButton)
    requires GoodButtons(held) && CanonicalButton(button) == button
    ensures var id := ButtonCode(button);
            if id in held then held[id := button] == held else held[id := button] - {id} == held
  {
    if ButtonCode(button) in held {
      IdentityDeterminesControl(Raw(0), Raw(0), held[ButtonCode(button)], button);
    }
  }

  lemma OwnerIsUndone(own: Ownership, own': Ownership, client: ClientId, transition: Transition,
      reservations: map<Token, ClientId>)
    requires IsPress(transition)
    requires own' == ApplyOwner(own, client, transition).(reservations := reservations)
    ensures SameOwners(own, RollbackOwner(own', client, ProvisionOwner(own, client, transition).1))
    ensures RollbackOwner(own', client, ProvisionOwner(own, client, transition).1).reservations == reservations
  {
    var control := ControlOf(transition).value;
    OwnerTableEffects(own, control, client);
    OwnerTableEffects(own', control, client);
    assert forall other :: Owners(own', other) == Owners(AddControlOwner(own, control, client), other);
    hide AddOwner, RemoveOwner;
  }

  lemma ServedTwice(session: Session, payload: Payload)
    ensures SessionServed(SessionServed(session, payload), payload) == SessionServed(session, payload)
  {
  }

  lemma OwnersTwice(own: Ownership, own1: Ownership, own2: Ownership, client: ClientId, payload: Payload)
    requires OwnersServed(own, own1, client, payload) || SameOwners(own, own1)
    requires OwnersServed(own1, own2, client, payload)
    ensures OwnersServed(own, own2, client, payload)
  {
  }

  lemma AcceptedIsServed(own: Ownership, session: Session, client: ClientId, token: Token, payload: Payload)
    requires Reserve(own, session, client, token, payload).Inject?
    ensures var r := Reserve(own, session, client, token, payload);
            var released := r.own.(reservations := r.own.reservations - {token});
            && ApplySession(r.session, r.pending.transition) == SessionServed(session, payload)
            && OwnersServed(own, ApplyOwner(released, client, r.pending.transition), client, payload)
            && ApplyOwner(released, client, r.pending.transition).reservations == own.reservations - {token}
  {
    hide Reserve, HeldTransition, MustRefuse, MustAsk, ApplyOwner, ApplySession, SessionServed, OwnersServed,
         SameOwners;
    var r := Reserve(own, session, client, token, payload);
    var released := r.own.(reservations := r.own.reservations - {token});
    InjectNeedsToken(own, session, client, token, payload);
    ReservesExactly(own, session, client, token, payload);
    assert own.reservations[token := client] - {token} == own.reservations - {token};
    ServedTwice(session, payload);
    AppliedIsServed(released, r.session, client, payload);
    OwnersCarryOver(own, r.own, released, client, payload);
    OwnersTwice(own, released, ApplyOwner(released, client, r.pending.transition), client, payload);
  }

  lemma RejectedIsBefore(own: Ownership, session: Session, client: ClientId, token: Token, payload: Payload)
    requires GoodSession(session) && forall control :: client in Owners(own, control) <==> Holds(session, control)
    requires Reserve(own, session, client, token, payload).Inject?
    ensures var r := Reserve(own, session, client, token, payload);
            var released := r.own.(reservations := r.own.reservations - {token});
            && RollbackSession(r.session, r.pending.press) == session
            && SameOwners(own, RollbackOwner(released, client, r.pending.owner))
            && RollbackOwner(released, client, r.pending.owner).reservations == own.reservations - {token}
  {
    hide GoodSession, Reserve, HeldTransition, MustRefuse, MustAsk, ApplyOwner, ApplySession, Owners, Holds,
         ProvisionSession, ProvisionOwner, RollbackSession, RollbackOwner, OwnersServed, SameOwners, SessionServed;
    InjectNeedsToken(own, session, client, token, payload);
    var r := Reserve(own, session, client, token, payload);
    var transition := HeldTransition(payload);
    var released := r.own.(reservations := r.own.reservations - {token});
    ReservesExactly(own, session, client, token, payload);
    ReserveShape(own, session, client, token, payload);
    AskedIsControl(payload);
    assert own.reservations[token := client] - {token} == own.reservations - {token};
    if IsPress(transition) {
      PressIsUndone(session, transition);
      OwnerIsUndone(own, released, client, transition, released.reservations);
    } else {
      NothingToUndo(own, released, session, client, transition);
    }
  }

  lemma NothingToUndo(own: Ownership, own': Ownership, session: Session, client: ClientId, transition: Transition)
    requires !IsPress(transition) && own' == own.(reservations := own'.reservations)
    ensures RollbackSession(session, ProvisionSession(session, transition).1) == session
    ensures RollbackOwner(own', client, ProvisionOwner(own, client, transition).1) == own' && SameOwners(own, own')
  {
  }

  /** Finishing a request right after it was reserved: carried out if the backend accepted it, and undone if not. */
  lemma FinishesExactly(own: Ownership, session: Session, client: ClientId, token: Token, payload: Payload,
      accepted: bool)
    requires GoodSession(session) && forall control :: client in Owners(own, control) <==> Holds(session, control)
    requires Reserve(own, session, client, token, payload).Inject?
    ensures var r := Reserve(own, session, client, token, payload);
            var (own', session') := Finish(r.own, r.session, client, token, r.pending, accepted);
            && IsCurrent(r.own, r.session, client, token)
            && own'.reservations == own.reservations - {token}
            && (accepted ==> session' == SessionServed(session, payload) && OwnersServed(own, own', client, payload))
            && (!accepted ==> session' == session && SameOwners(own, own'))
  {
    hide Reserve, ApplyOwner, ApplySession, RollbackOwner, RollbackSession, SessionServed, OwnersServed, SameOwners,
         MustRefuse, MustAsk, HeldTransition, Owners, Holds, GoodSession;
    InjectNeedsToken(own, session, client, token, payload);
    ReservesExactly(own, session, client, token, payload);
    ServedKeepsToken(session, payload);
    AcceptedIsServed(own, session, client, token, payload);
    RejectedIsBefore(own, session, client, token, payload);
  }

  lemma ServedKeepsToken(session: Session, payload: Payload)
    ensures SessionServed(session, payload).inFlight == session.inFlight
  {
  }

  // ----- A whole request

  /** A request of an operation taken through its locked regions without interruption. */
  ghost function RequestDone(s: System, token: Token, accepts: bool): (r: System)
    requires Inv(s)
    ensures Inv(r)
  {
    StepKeepsInv(s, ReserveNext(token));
    var reserved := Step(s, ReserveNext(token));
    StepKeepsInv(reserved, Submit(token, accepts));
    var submitted := Step(reserved, Submit(token, accepts));
    StepKeepsInv(submitted, FinishRequest(token));
    Step(submitted, FinishRequest(token))
  }

  /** The controls that are down once the backend accepted a request. */
  function DownAfter(down: set<Control>, payload: Payload): set<Control> {
    match Asked(payload)
    case None => down
    case Some(control) => if Presses(payload) then down + {control} else down - {control}
  }

  /**
   What a request does: nothing if it must be refused, which ends all but a cleanup; otherwise it is carried out in the
   session and the owner tables, unless the backend must be asked and does not accept, and then they are as before.
   */
  ghost predicate RequestServed(s: System, s': System, token: Token, accepts: bool)
    requires ClientsHaveSessions(s) && Enabled(s, ReserveNext(token))
  {
    var op := s.operations[token];
    var client, payload := op.client, op.rest[0];
    var before := s.sessions[client];
    var refused := MustRefuse(before, token, payload);
    var asked := !refused && MustAsk(s.own, client, payload);
    var served := !refused && (accepts || !asked);
    && s'.sessions == s.sessions[client := if served then SessionServed(before, payload) else before]
    && (if served then OwnersServed(s.own, s'.own, client, payload) else SameOwners(s.own, s'.own))
    && s'.own.reservations == (if asked then s.own.reservations - {token} else s.own.reservations)
    && s'.backend == Backend(if asked && accepts then DownAfter(s.backend.down, payload) else s.backend.down,
                             s.backend.submissions + if asked then [(token, client)] else [])
    && s'.operations == s.operations[token := op.(rest := if refused && !op.ignoresErrors then [] else op.rest[1..])]
    && s'.nextToken == s.nextToken
  }

  lemma RegionsAreSteps(s: System, token: Token, accepts: bool)
    requires ClientsHaveSessions(s) && token in s.operations
    ensures Enabled(s, ReserveNext(token)) ==> Step(s, ReserveNext(token)) == ReserveStep(s, token)
    ensures if s.operations[token].phase.Reserved?
            then Enabled(s, Submit(token, accepts)) && Step(s, Submit(token, accepts)) == SubmitStep(s, token, accepts)
            else Step(s, Submit(token, accepts)) == s
    ensures if s.operations[token].phase.Submitted?
            then Enabled(s, FinishRequest(token)) && Step(s, FinishRequest(token)) == FinishStep(s, token)
            else Step(s, FinishRequest(token)) == s
  {
  }

  lemma LocalPremises(s: System, client: ClientId)
    requires Inv(s) && client in s.sessions
    ensures ClientsHaveSessions(s) && GoodSession(s.sessions[client])
    ensures forall control :: client in Owners(s.own, control) <==> Holds(s.sessions[client], control)
  {
    assert forall control :: HeldBy(s, client, control) <==> Holds(s.sessions[client], control);
    hide GoodSession, Owners, Holds, PendingAreGood, TokensAreOwned, NoEmptyOwnerSet;
  }

  lemma InvHasSessions(s: System)
    requires Inv(s)
    ensures ClientsHaveSessions(s)
  {
  }

  /** The backend's answer is recorded under the token. */
  lemma SubmittedAs(s: System, token: Token, accepts: bool, payload: Payload)
    requires Enabled(s, Submit(token, accepts)) && s.operations[token].client in s.sessions && !payload.Malformed?
    requires IsCurrent(s.own, s.sessions[s.operations[token].client], s.operations[token].client, token)
    requires s.operations[token].phase.pending.transition == HeldTransition(payload)
    ensures var op := s.operations[token];
            SubmitStep(s, token, accepts)
            == s.(operations := s.operations[token := op.(phase := Submitted(op.phase.pending, accepts))],
                  backend := Backend(if accepts then DownAfter(s.backend.down, payload) else s.backend.down,
                                     s.backend.submissions + [(token, op.client)]))
  {
    AskedIsControl(payload);
    hide HeldTransition, Asked, Presses, IsPress, ControlOf;
  }

  lemma RequestOutcome(s: System, token: Token, accepts: bool)
    requires Inv(s) && Enabled(s, ReserveNext(token))
    ensures ClientsHaveSessions(s) && RequestServed(s, RequestDone(s, token, accepts), token, accepts)
  {
    hide Inv, Step, Reserve, Finish, MustRefuse, MustAsk, SessionServed, OwnersServed, SameOwners, DownAfter,
         BackendAfter, HeldTransition, IsCurrent, GoodSession, Owners, Holds;
    InvHasSessions(s);
    var op := s.operations[token];
    var client, payload := op.client, op.rest[0];
    var before := s.sessions[client];
    LocalPremises(s, client);
    assert s.sessions[client := before] == s.sessions;
    NothingChanged(s.own);
    var r := Reserve(s.own, before, client, token, payload);
    ReservesExactly(s.own, before, client, token, payload);
    RegionsAreSteps(s, token, accepts);
    var reserved := Step(s, ReserveNext(token));
    StepKeepsInv(s, ReserveNext(token));
    InvHasSessions(reserved);
    RegionsAreSteps(reserved, token, accepts);
    if r.Inject? {
      InjectNeedsToken(s.own, before, client, token, payload);
      FinishesExactly(s.own, before, client, token, payload, accepts);
      InjectedOutcome(s, token, accepts, r, Finish(r.own, r.session, client, token, r.pending, accepts));
    }
  }

  /** The reservation hands the request to the backend. */
  ghost predicate Injected(s: System, token: Token, r: Reservation)
    requires ClientsHaveSessions(s) && Enabled(s, ReserveNext(token))
  {
    var op := s.operations[token];
    && r == Reserve(s.own, s.sessions[op.client], op.client, token, op.rest[0]) && r.Inject?
    && IsCurrent(r.own, r.session, op.client, token)
    && !op.rest[0].Malformed? && r.pending.transition == HeldTransition(op.rest[0])
  }

  /** The states between the regions of a request that is handed to the backend. */
  lemma InjectedOutcome(s: System, token: Token, accepts: bool, r: Reservation, done: (Ownership, Session))
    requires Inv(s) && ClientsHaveSessions(s) && Enabled(s, ReserveNext(token)) && Injected(s, token, r)
    requires done == Finish(r.own, r.session, s.operations[token].client, token, r.pending, accepts)
    ensures var op := s.operations[token];
            RequestDone(s, token, accepts)
            == System(s.sessions[op.client := done.1], done.0, s.nextToken,
                      s.operations[token := op.(rest := op.rest[1..])],
                      Backend(if accepts then DownAfter(s.backend.down, op.rest[0]) else s.backend.down,
                              s.backend.submissions + [(token, op.client)]))
  {
    hide Inv, Step, Reserve, Finish, DownAfter, BackendAfter, HeldTransition, IsCurrent;
    RegionsAreSteps(s, token, accepts);
    var reserved := Step(s, ReserveNext(token));
    StepKeepsInv(s, ReserveNext(token));
    InvHasSessions(reserved);
    RegionsAreSteps(reserved, token, accepts);
    SubmittedAs(reserved, token, accepts, s.operations[token].rest[0]);
    var submitted := Step(reserved, Submit(token, accepts));
    StepKeepsInv(reserved, Submit(token, accepts));
    InvHasSessions(submitted);
    RegionsAreSteps(submitted, token, accepts);
  }

  lemma NothingChanged(own: Ownership)
    ensures SameOwners(own, own)
  {
  }
}
