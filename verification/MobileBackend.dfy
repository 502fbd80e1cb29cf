/**
 How the owner tables follow the injection backend. A submission takes effect in queue order, so
 the controls the backend holds down are those of the accepted submissions so far.
 */
module MobileBackend {
  import opened Common
  import opened MobileOwnership
  import opened MobileProtocol
  import opened MobileTokens

  /** The control whose press or release the operation has reserved and not finished. */
  function PendingOn(s: System, token: Token): Option<Control> {
    if token in s.operations && PendingOf(s.operations[token]).Some?
    then ControlOf(PendingOf(s.operations[token]).value.transition)
    else None
  }

  function RequestedControl(s: System, token: Token): Option<Control>
    requires Enabled(s, ReserveNext(token))
  {
    var payload := s.operations[token].rest[0];
    if payload.Malformed? then None else ControlOf(HeldTransition(payload))
  }

  /** No request is reserved on a control while another current request on it is unfinished. */
  ghost predicate NoOverlap(s: System, a: Action) {
    a.ReserveNext? && Enabled(s, a) ==>
      forall t ::
          t != a.token && InFlight(s, t) && PendingOn(s, t).Some? ==> PendingOn(s, t) != RequestedControl(s, a.token)
  }

  ghost predicate NeverOverlaps(s: System, actions: seq<Action>)
    requires Inv(s)
    decreases |actions|
  {
    actions != [] ==>
      && NoOverlap(s, actions[0])
      && (StepKeepsInv(s, actions[0]); NeverOverlaps(Step(s, actions[0]), actions[1..]))
  }

  // ----- Every control that is down has an owner

  /** A pending request whose outcome could leave the control without owners finds it up at the backend. */
  ghost predicate PendingSafe(s: System, token: Token)
    requires PendingOn(s, token).Some?
  {
    var op := s.operations[token];
    var pending := PendingOf(op).value;
    var control := PendingOn(s, token).value;
    var accepted := op.phase.Submitted? && op.phase.accepted;
    if IsPress(pending.transition) then
      pending.owner.Some? && (pending.owner.value.introduced && Owners(s.own, control) == {op.client} && !accepted ==>
          control !in s.backend.down)
    else
      Owners(s.own, control) == {op.client} && (accepted ==> control !in s.backend.down)
  }

  ghost predicate DownIsOwned(s: System) {
    forall control :: control in s.backend.down ==> Owners(s.own, control) != {}
  }

  ghost predicate PendingDiffer(s: System) {
    forall t, u ::
        t != u && InFlight(s, t) && InFlight(s, u) && PendingOn(s, t).Some? && PendingOn(s, u).Some? ==>
        PendingOn(s, t) != PendingOn(s, u)
  }

  ghost predicate BackendInv(s: System) {
    && DownIsOwned(s)
    && PendingDiffer(s)
    && (forall t :: InFlight(s, t) && PendingOn(s, t).Some? ==> PendingSafe(s, t))
  }

  /** The step may change the owners and the backend at one control only, the one its own operation works on. */
  ghost predicate TouchesOnly(s: System, s': System, token: Token, control: Option<Control>) {
    && (forall other :: Some(other) != control ==>
          Owners(s'.own, other) == Owners(s.own, other) && (other in s'.backend.down <==> other in s.backend.down))
    && (forall t :: t != token && InFlight(s', t) && PendingOn(s', t).Some? ==>
          InFlight(s, t) && s'.operations[t] == s.operations[t] && PendingOn(s, t) != control)
    && (InFlight(s', token) && PendingOn(s', token).Some? ==> PendingOn(s', token) == control)
  }

  lemma TouchKeepsBackendInv(s: System, s': System, token: Token, control: Option<Control>)
    requires BackendInv(s) && TouchesOnly(s, s', token, control)
    requires control.Some? && control.value in s'.backend.down ==> Owners(s'.own, control.value) != {}
    requires InFlight(s', token) && PendingOn(s', token).Some? ==> PendingSafe(s', token)
    ensures BackendInv(s')
  {
    forall t | InFlight(s', t) && PendingOn(s', t).Some? ensures PendingSafe(s', t) {
      if t != token {
        assert PendingSafe(s, t) && PendingOn(s', t) == PendingOn(s, t);
      }
    }
    forall c | c in s'.backend.down ensures Owners(s'.own, c) != {} {
      if Some(c) != control {
        assert c in s.backend.down;
      }
    }
  }

  /** Operations that are not the acting one keep their request and can only lose their token. */
  lemma OthersKeepPending(s: System, a: Action, token: Token)
    requires Inv(s) && !ActsFor(a, token)
    requires InFlight(Step(s, a), token) && PendingOf(Step(s, a).operations[token]).Some?
    ensures InFlight(s, token) && Step(s, a).operations[token] == s.operations[token]
  {
    hide OwnersAreHolders, NoEmptyOwnerSet, SessionsAreGood, PendingAreGood, Reserve, Finish,
        BackendAfter, KeyReleases, ButtonReleases, Lists;
    if token < s.nextToken {
      PendingCameFromBefore(s, a, token);
    }
  }

  lemma QuietKeepsBackendInv(s: System, a: Action)
    requires Inv(s) && BackendInv(s)
    requires !a.ReserveNext? && !a.Submit? && !a.FinishRequest?
    ensures BackendInv(Step(s, a))
  {
    hide Step, OwnersAreHolders, NoEmptyOwnerSet, SessionsAreGood, PendingAreGood, TokensAreOwned;
    var s' := Step(s, a);
    QuietKeepsOwnersAndBackend(s, a);
    forall t | InFlight(s', t) && PendingOn(s', t).Some?
      ensures InFlight(s, t) && s'.operations[t] == s.operations[t]
    {
      QuietKeepsPending(s, a, t);
    }
    SamePendingKeepsBackendInv(s, s');
  }

  lemma SamePendingKeepsBackendInv(s: System, s': System)
    requires BackendInv(s) && s'.backend.down == s.backend.down
    requires forall control :: Owners(s'.own, control) == Owners(s.own, control)
    requires forall t ::
             InFlight(s', t) && PendingOn(s', t).Some? ==> InFlight(s, t) && s'.operations[t] == s.operations[t]
    ensures BackendInv(s')
  {
    forall t | InFlight(s', t) && PendingOn(s', t).Some? ensures PendingSafe(s', t) {
      assert PendingSafe(s, t);
    }
  }

  lemma QuietKeepsOwnersAndBackend(s: System, a: Action)
    requires Inv(s) && !a.ReserveNext? && !a.Submit? && !a.FinishRequest?
    ensures var s' := Step(s, a);
            s'.backend == s.backend && forall control :: Owners(s'.own, control) == Owners(s.own, control)
  {
    hide OwnersAreHolders, NoEmptyOwnerSet, SessionsAreGood, PendingAreGood, TokensAreOwned;
  }

  lemma QuietKeepsPending(s: System, a: Action, token: Token)
    requires Inv(s) && !a.ReserveNext? && !a.Submit? && !a.FinishRequest?
    requires InFlight(Step(s, a), token) && PendingOf(Step(s, a).operations[token]).Some?
    ensures InFlight(s, token) && Step(s, a).operations[token] == s.operations[token]
  {
    hide OwnersAreHolders, NoEmptyOwnerSet, SessionsAreGood, PendingAreGood, Reserve, Finish,
        BackendAfter, KeyReleases, ButtonReleases, Lists;
    if !ActsFor(a, token) {
      OthersKeepPending(s, a, token);
    }
  }

  /** What reserving a transition does to the owners of its control. */
  ghost predicate ReserveEffect(own: Ownership, r: Reservation, client: ClientId, transition: Transition)
    requires !r.Refused?
  {
    && (forall other :: Some(other) != ControlOf(transition) ==> Owners(r.own, other) == Owners(own, other))
    && (r.Noop? ==> IsRelease(transition) && var control := ControlOf(transition).value;
          Owners(r.own, control) == Owners(own, control) - {client} && Owners(own, control) != {client})
    && (r.Inject? ==> r.pending.transition == transition)
    && (r.Inject? && IsPress(transition) ==> var control := ControlOf(transition).value;
          && Owners(r.own, control) == Owners(own, control) + {client}
          && r.pending.owner == Some(ProvisionalOwner(control, client !in Owners(own, control))))
    && (r.Inject? && IsRelease(transition) ==> var control := ControlOf(transition).value;
          Owners(r.own, control) == {client} == Owners(own, control))
  }

  lemma ReserveOwners(own: Ownership, session: Session, client: ClientId, token: Token, payload: Payload)
    requires !payload.Malformed? && !Reserve(own, session, client, token, payload).Refused?
    ensures ReserveEffect(own, Reserve(own, session, client, token, payload), client, HeldTransition(payload))
  {
    hide Reserve, HeldTransition, ApplySession, ProvisionSession, AddControlOwner, RemoveControlOwner, WithinCapacity,
        ReleaseIsNoop;
    var transition := HeldTransition(payload);
    var r := Reserve(own, session, client, token, payload);
    InjectNeedsToken(own, session, client, token, payload);
    ReserveShape(own, session, client, token, payload);
    ReservationsCarryNoOwners(own, r.own.reservations);
    ReservationsCarryNoOwners(ApplyOwner(own, client, transition), r.own.reservations);
    if ControlOf(transition).Some? {
      OwnerTableEffects(own, ControlOf(transition).value, client);
    }
    if IsRelease(transition) {
      ReleaseForwardedIffSoleOwner(own, session, client, token, payload);
    }
  }

  lemma ReserveKeepsBackendInv(s: System, token: Token)
    requires Enabled(s, ReserveNext(token)) && s.operations[token].client in s.sessions
    requires Inv(s) && BackendInv(s) && NoOverlap(s, ReserveNext(token))
    ensures BackendInv(ReserveStep(s, token))
  {
    hide OwnersAreHolders, NoEmptyOwnerSet, SessionsAreGood, PendingAreGood, TokensAreOwned, Reserve;
    var op := s.operations[token];
    var payload := op.rest[0];
    var session := s.sessions[op.client];
    var r := Reserve(s.own, session, op.client, token, payload);
    var s' := ReserveStep(s, token);
    ReserveIsStep(s, token);
    OthersKeepPendingIn(s, ReserveNext(token), token, s');
    hide Step;
    if r.Refused? {
      SamePendingKeepsBackendInv(s, s');
    } else {
      InjectNeedsToken(s.own, session, op.client, token, payload);
      ReserveOwners(s.own, session, op.client, token, payload);
      ReserveTouches(s, token, s', r);
    }
  }

  lemma ReserveTouches(s: System, token: Token, s': System, r: Reservation)
    requires Enabled(s, ReserveNext(token)) && s.operations[token].client in s.sessions
    requires BackendInv(s) && NoOverlap(s, ReserveNext(token))
    requires !r.Refused? && s'.own == r.own && s'.backend == s.backend && token in s'.operations
    requires var op := s.operations[token];
             && !op.rest[0].Malformed?
             && ReserveEffect(s.own, r, op.client, HeldTransition(op.rest[0]))
             && s'.operations[token].client == op.client
             && s'.operations[token].phase == (if r.Inject? then Reserved(r.pending) else Ready)
    requires forall t ::
             t != token && InFlight(s', t) && PendingOn(s', t).Some? ==>
             InFlight(s, t) && s'.operations[t] == s.operations[t]
    ensures BackendInv(s')
  {
    var control := RequestedControl(s, token);
    hide HeldTransition;
    assert TouchesOnly(s, s', token, control);
    if control.Some? && control.value in s'.backend.down {
      assert Owners(s.own, control.value) != {};
      assert Owners(s'.own, control.value) != {};
    }
    TouchKeepsBackendInv(s, s', token, control);
  }

  lemma ReserveIsStep(s: System, token: Token)
    requires ClientsHaveSessions(s) && Enabled(s, ReserveNext(token))
    ensures Step(s, ReserveNext(token)) == ReserveStep(s, token)
  {
  }

  lemma FinishAndSubmitAreSteps(s: System, token: Token, accepts: bool)
    requires ClientsHaveSessions(s)
    ensures Enabled(s, FinishRequest(token)) ==> Step(s, FinishRequest(token)) == FinishStep(s, token)
    ensures Enabled(s, Submit(token, accepts)) ==> Step(s, Submit(token, accepts)) == SubmitStep(s, token, accepts)
  {
  }

  lemma OthersKeepPendingIn(s: System, a: Action, token: Token, s': System)
    requires Inv(s) && s' == Step(s, a) && (a.ReserveNext? || a.Submit? || a.FinishRequest?) && token == a.token
    ensures forall t ::
            t != token && InFlight(s', t) && PendingOn(s', t).Some? ==>
            InFlight(s, t) && s'.operations[t] == s.operations[t]
  {
    hide Step, OwnersAreHolders, NoEmptyOwnerSet, SessionsAreGood, PendingAreGood, TokensAreOwned;
    forall t | t != token && InFlight(s', t) && PendingOn(s', t).Some?
      ensures InFlight(s, t) && s'.operations[t] == s.operations[t]
    {
      OthersKeepPending(s, a, t);
    }
  }

  /** The client of a current pending press owns its control. */
  lemma PendingPressIsOwned(s: System, token: Token)
    requires Inv(s) && InFlight(s, token) && PendingOn(s, token).Some?
    ensures var op := s.operations[token];
            IsPress(PendingOf(op).value.transition) ==> op.client in Owners(s.own, PendingOn(s, token).value)
  {
    hide NoEmptyOwnerSet, SessionsAreGood, TokensAreOwned;
    var op := s.operations[token];
    assert PendingMatches(s.sessions[op.client], PendingOf(op).value);
    assert op.client in Owners(s.own, PendingOn(s, token).value) <==> HeldBy(s, op.client, PendingOn(s, token).value);
  }

  lemma SubmitTouchesOnly(s: System, token: Token, accepts: bool)
    requires Enabled(s, Submit(token, accepts)) && s.operations[token].client in s.sessions
    requires Inv(s) && PendingDiffer(s) && InFlight(s, token) && PendingOn(s, token).Some?
    ensures TouchesOnly(s, SubmitStep(s, token, accepts), token, PendingOn(s, token))
  {
    hide OwnersAreHolders, NoEmptyOwnerSet, SessionsAreGood, PendingAreGood, TokensAreOwned, Step;
    FinishAndSubmitAreSteps(s, token, accepts);
    OthersKeepPendingIn(s, Submit(token, accepts), token, SubmitStep(s, token, accepts));
  }

  lemma SubmitKeepsBackendInv(s: System, token: Token, accepts: bool)
    requires Enabled(s, Submit(token, accepts)) && s.operations[token].client in s.sessions
    requires Inv(s) && BackendInv(s)
    ensures BackendInv(SubmitStep(s, token, accepts))
  {
    hide OwnersAreHolders, NoEmptyOwnerSet, SessionsAreGood, PendingAreGood, TokensAreOwned, Step, DownIsOwned,
         PendingDiffer, TouchesOnly;
    var op := s.operations[token];
    var s' := SubmitStep(s, token, accepts);
    if IsCurrent(s.own, s.sessions[op.client], op.client, token) && PendingOn(s, token).Some? {
      assert InFlight(s, token) && PendingSafe(s, token);
      PendingPressIsOwned(s, token);
      SubmitTouchesOnly(s, token, accepts);
      hide BackendInv;
      TouchKeepsBackendInv(s, s', token, PendingOn(s, token));
    } else {
      FinishAndSubmitAreSteps(s, token, accepts);
      OthersKeepPendingIn(s, Submit(token, accepts), token, s');
      hide BackendInv;
      SamePendingKeepsBackendInv(s, s');
    }
  }

  /** What finishing a current request does to the owners of its control. */
  ghost predicate FinishEffect(own: Ownership, own': Ownership, client: ClientId, pending: Pending, accepted: bool) {
    && (forall other :: Some(other) != ControlOf(pending.transition) ==> Owners(own', other) == Owners(own, other))
    && (ControlOf(pending.transition).Some? ==>
          var control := ControlOf(pending.transition).value;
          Owners(own', control) ==
            if accepted then (if IsPress(pending.transition) then Owners(own, control) + {client}
                else Owners(own, control) - {client})
            else if IsPress(pending.transition) && pending.owner.Some? && pending.owner.value.introduced
                then Owners(own, control) - {client}
            else Owners(own, control))
  }

  lemma FinishOwners(own: Ownership, session: Session, client: ClientId, token: Token, pending: Pending, accepted: bool)
    requires IsCurrent(own, session, client, token) && PendingMatches(session, pending)
    ensures FinishEffect(own, Finish(own, session, client, token, pending, accepted).0, client, pending, accepted)
  {
    hide ApplySession, RollbackSession, AddControlOwner, RemoveControlOwner, GoodTransition;
    var dropped := own.(reservations := own.reservations - {token});
    ReservationsCarryNoOwners(own, dropped.reservations);
    if ControlOf(pending.transition).Some? {
      OwnerTableEffects(dropped, ControlOf(pending.transition).value, client);
    }
  }

  lemma FinishKeepsBackendInv(s: System, token: Token)
    requires Enabled(s, FinishRequest(token)) && s.operations[token].client in s.sessions
    requires Inv(s) && BackendInv(s)
    ensures BackendInv(FinishStep(s, token))
  {
    hide OwnersAreHolders, NoEmptyOwnerSet, SessionsAreGood, PendingAreGood, TokensAreOwned, Finish;
    var op := s.operations[token];
    var session := s.sessions[op.client];
    var s' := FinishStep(s, token);
    FinishAndSubmitAreSteps(s, token, false);
    OthersKeepPendingIn(s, FinishRequest(token), token, s');
    hide Step;
    if IsCurrent(s.own, session, op.client, token) {
      CurrentPendingMatches(s, token);
      FinishOwners(s.own, session, op.client, token, op.phase.pending, op.phase.accepted);
      FinishTouches(s, token, s');
    } else {
      FinishNotCurrent(s.own, session, op.client, token, op.phase.pending, op.phase.accepted);
      SamePendingKeepsBackendInv(s, s');
    }
  }

  lemma FinishNotCurrent(own: Ownership, session: Session, client: ClientId, token: Token, pending: Pending,
      accepted: bool)
    requires !IsCurrent(own, session, client, token)
    ensures Finish(own, session, client, token, pending, accepted) == (own, session)
  {
  }

  lemma CurrentPendingMatches(s: System, token: Token)
    requires Inv(s) && InFlight(s, token) && PendingOf(s.operations[token]).Some?
    ensures PendingMatches(s.sessions[s.operations[token].client], PendingOf(s.operations[token]).value)
  {
  }

  lemma FinishTouches(s: System, token: Token, s': System)
    requires Enabled(s, FinishRequest(token)) && InFlight(s, token) && BackendInv(s)
    requires s'.backend == s.backend && token in s'.operations && s'.operations[token].phase.Ready?
    requires var op := s.operations[token];
             FinishEffect(s.own, s'.own, op.client, op.phase.pending, op.phase.accepted)
    requires forall t ::
             t != token && InFlight(s', t) && PendingOn(s', t).Some? ==>
             InFlight(s, t) && s'.operations[t] == s.operations[t]
    ensures BackendInv(s')
  {
    var control := PendingOn(s, token);
    assert TouchesOnly(s, s', token, control);
    if control.Some? && control.value in s'.backend.down {
      assert PendingSafe(s, token);
      assert Owners(s.own, control.value) != {};
      assert Owners(s'.own, control.value) != {};
    }
    TouchKeepsBackendInv(s, s', token, control);
  }

  lemma StepKeepsBackendInv(s: System, a: Action)
    requires Inv(s) && BackendInv(s) && NoOverlap(s, a)
    ensures BackendInv(Step(s, a))
  {
    hide BackendInv, NoOverlap, OwnersAreHolders, NoEmptyOwnerSet, SessionsAreGood, PendingAreGood, TokensAreOwned;
    if Enabled(s, a) {
      match a
      case ReserveNext(token) => ReserveKeepsBackendInv(s, token);
      case Submit(token, accepts) => SubmitKeepsBackendInv(s, token, accepts);
      case FinishRequest(token) => FinishKeepsBackendInv(s, token);
      case _ => QuietKeepsBackendInv(s, a);
    }
  }

  lemma {:induction false} RunKeepsBackendInv(s: System, actions: seq<Action>)
    requires Inv(s) && BackendInv(s) && NeverOverlaps(s, actions)
    ensures BackendInv(Run(s, actions))
    decreases |actions|
  {
    hide Step, BackendInv, NoOverlap, OwnersAreHolders, NoEmptyOwnerSet, SessionsAreGood, PendingAreGood,
        TokensAreOwned;
    if actions != [] {
      StepKeepsBackendInv(s, actions[0]);
      StepKeepsInv(s, actions[0]);
      RunKeepsBackendInv(Step(s, actions[0]), actions[1..]);
    }
  }

  /** No key or button is ever down at the backend without a client that owns it, whatever is superseded or aborted. */
  lemma DownControlsAreOwned(actions: seq<Action>)
    requires Inv(INITIAL) && NeverOverlaps(INITIAL, actions)
    ensures var s := Run(INITIAL, actions);
            forall control :: control in s.backend.down ==> exists client :: HeldBy(s, client, control)
  {
    RunKeepsBackendInv(INITIAL, actions);
    var s := Run(INITIAL, actions);
    forall control | control in s.backend.down ensures exists client :: HeldBy(s, client, control) {
      assert Owners(s.own, control) != {};
      var client :| client in Owners(s.own, control);
      assert HeldBy(s, client, control);
    }
  }

  // ----- Every owned control is down when no request was superseded or aborted halfway

  /** No request is aborted between its reservation and its end, nor superseded by a cleanup there. */
  ghost predicate Calm(s: System, a: Action) {
    && (a.Abort? && a.token in s.operations ==> PendingOf(s.operations[a.token]).None?)
    && (a.StartCleanup? && a.client in s.sessions && s.sessions[a.client].inFlight.Some?
        && s.sessions[a.client].inFlight.value in s.operations
        ==> PendingOf(s.operations[s.sessions[a.client].inFlight.value]).None?)
  }

  ghost predicate AlwaysCalm(s: System, actions: seq<Action>)
    requires Inv(s)
    decreases |actions|
  {
    actions != [] ==>
      && Calm(s, actions[0])
      && (StepKeepsInv(s, actions[0]); AlwaysCalm(Step(s, actions[0]), actions[1..]))
  }

  /** A pending request is current, and a cleanup clears only tokens that are already superseded. */
  ghost predicate PendingAreCurrent(s: System) {
    && (forall t :: t in s.operations && PendingOf(s.operations[t]).Some? ==>
          InFlight(s, t) && t in s.own.reservations && s.own.reservations[t] == s.operations[t].client)
    && (forall t :: t in s.operations && s.operations[t].phase.Clearing? && s.operations[t].phase.previous.Some? ==>
          Superseded(s, s.operations[t].phase.previous.value))
  }

  /** What is known at the backend about the control of a pending request. */
  ghost predicate PendingTracks(s: System, token: Token)
    requires PendingOn(s, token).Some?
  {
    var op := s.operations[token];
    var pending := PendingOf(op).value;
    var control := PendingOn(s, token).value;
    var accepted := op.phase.Submitted? && op.phase.accepted;
    if IsPress(pending.transition) then
      control in s.backend.down || (!accepted && pending.owner.Some? && pending.owner.value.introduced
          && Owners(s.own, control) == {op.client})
    else
      Owners(s.own, control) == {op.client} && (control in s.backend.down || accepted)
  }

  ghost predicate OwnedIsDown(s: System) {
    && (forall control :: Owners(s.own, control) != {} ==>
          control in s.backend.down || exists t :: PendingOn(s, t) == Some(control))
    && (forall t :: PendingOn(s, t).Some? ==> PendingTracks(s, t))
  }

  predicate CurrentAndReserved(s: System, token: Token) {
    InFlight(s, token) && token in s.own.reservations && s.own.reservations[token] == s.operations[token].client
  }

  lemma SessionStepKeepsReserved(s: System, a: Action, token: Token)
    requires a.OpenSession? || a.Refresh? || a.Prune? || a.Begin? || a.StartCleanup?
    requires Inv(s) && PendingAreCurrent(s) && Calm(s, a)
    requires token in Step(s, a).operations && PendingOf(Step(s, a).operations[token]).Some?
    ensures CurrentAndReserved(Step(s, a), token)
  {
    hide OwnersAreHolders, NoEmptyOwnerSet, SessionsAreGood, PendingAreGood;
  }

  /** Reserving leaves the token in flight and books it exactly when the request goes to the backend. */
  lemma ReserveBooks(own: Ownership, session: Session, client: ClientId, token: Token, payload: Payload)
    requires !Reserve(own, session, client, token, payload).Refused?
    ensures var r := Reserve(own, session, client, token, payload);
            && r.session.inFlight == session.inFlight == Some(token)
            && r.own.reservations == if r.Inject? then own.reservations[token := client] else own.reservations
  {
    hide HeldTransition, WithinCapacity, ReleaseIsNoop;
  }

  lemma ReserveKeepsReserved(s: System, a: Action, token: Token)
    requires a.ReserveNext?
    requires Inv(s) && PendingAreCurrent(s) && Calm(s, a)
    requires token in Step(s, a).operations && PendingOf(Step(s, a).operations[token]).Some?
    ensures CurrentAndReserved(Step(s, a), token)
  {
    hide OwnersAreHolders, NoEmptyOwnerSet, SessionsAreGood, PendingAreGood, Reserve;
    if Enabled(s, a) {
      var op := s.operations[a.token];
      if !Reserve(s.own, s.sessions[op.client], op.client, a.token, op.rest[0]).Refused? {
        ReserveBooks(s.own, s.sessions[op.client], op.client, a.token, op.rest[0]);
      }
    }
  }

  /** Finishing leaves the token in flight, and drops at most its own reservation. */
  lemma FinishBooks(own: Ownership, session: Session, client: ClientId, token: Token, pending: Pending, accepted: bool)
    ensures var (own', session') := Finish(own, session, client, token, pending, accepted);
            session'.inFlight == session.inFlight
            && forall t :: t != token ==> (t in own'.reservations <==> t in own.reservations)
                                          && (t in own.reservations ==> own'.reservations[t] == own.reservations[t])
  {
    hide KeyIdentity, CanonicalKey;
  }

  lemma SubmissionKeepsReserved(s: System, a: Action, token: Token)
    requires a.Submit? || a.FinishRequest?
    requires Inv(s) && PendingAreCurrent(s) && Calm(s, a)
    requires token in Step(s, a).operations && PendingOf(Step(s, a).operations[token]).Some?
    ensures CurrentAndReserved(Step(s, a), token)
  {
    hide OwnersAreHolders, NoEmptyOwnerSet, SessionsAreGood, PendingAreGood, Finish, BackendAfter;
    if a.FinishRequest? && Enabled(s, a) {
      var op := s.operations[a.token];
      FinishBooks(s.own, s.sessions[op.client], op.client, a.token, op.phase.pending, op.phase.accepted);
    }
  }

  lemma EndingKeepsReserved(s: System, a: Action, token: Token)
    requires a.ClearPrevious? || a.EndReservation? || a.EndInFlight? || a.Abort?
    requires Inv(s) && PendingAreCurrent(s) && Calm(s, a)
    requires token in Step(s, a).operations && PendingOf(Step(s, a).operations[token]).Some?
    ensures CurrentAndReserved(Step(s, a), token)
  {
    hide OwnersAreHolders, NoEmptyOwnerSet, SessionsAreGood, PendingAreGood, Reserve, Finish,
        BackendAfter, KeyReleases, ButtonReleases, Lists;
  }

  lemma StepKeepsReserved(s: System, a: Action, token: Token)
    requires Inv(s) && PendingAreCurrent(s) && Calm(s, a)
    requires token in Step(s, a).operations && PendingOf(Step(s, a).operations[token]).Some?
    ensures CurrentAndReserved(Step(s, a), token)
  {
    hide *;
    match a
    case ReserveNext(_) => ReserveKeepsReserved(s, a, token);
    case Submit(_, _) => SubmissionKeepsReserved(s, a, token);
    case FinishRequest(_) => SubmissionKeepsReserved(s, a, token);
    case ClearPrevious(_) => EndingKeepsReserved(s, a, token);
    case EndReservation(_) => EndingKeepsReserved(s, a, token);
    case EndInFlight(_) => EndingKeepsReserved(s, a, token);
    case Abort(_) => EndingKeepsReserved(s, a, token);
    case _ => SessionStepKeepsReserved(s, a, token);
  }

  lemma StepKeepsCleared(s: System, a: Action, token: Token)
    requires Inv(s) && PendingAreCurrent(s)
    requires token in Step(s, a).operations && Step(s, a).operations[token].phase.Clearing?
             && Step(s, a).operations[token].phase.previous.Some?
    ensures Superseded(Step(s, a), Step(s, a).operations[token].phase.previous.value)
  {
    hide OwnersAreHolders, NoEmptyOwnerSet, SessionsAreGood, PendingAreGood, Reserve, Finish,
        BackendAfter, KeyReleases, ButtonReleases, Lists;
    if token in s.operations {
      assert Step(s, a).operations[token] == s.operations[token];
      SupersededStaysSuperseded(s, a, s.operations[token].phase.previous.value);
    } else {
      assert a.StartCleanup?;
    }
  }

  lemma CalmKeepsPendingCurrent(s: System, a: Action)
    requires Inv(s) && PendingAreCurrent(s) && Calm(s, a)
    ensures PendingAreCurrent(Step(s, a))
  {
    hide Step, OwnersAreHolders, NoEmptyOwnerSet, SessionsAreGood, PendingAreGood, TokensAreOwned, Superseded;
    var s' := Step(s, a);
    forall t | t in s'.operations && PendingOf(s'.operations[t]).Some? ensures CurrentAndReserved(s', t) {
      StepKeepsReserved(s, a, t);
    }
    forall t | t in s'.operations && s'.operations[t].phase.Clearing? && s'.operations[t].phase.previous.Some?
      ensures Superseded(s', s'.operations[t].phase.previous.value)
    {
      StepKeepsCleared(s, a, t);
    }
  }

  /** Pending requests other than the acting operation's stay as they are, on other controls. */
  ghost predicate OthersPendingStay(s: System, s': System, token: Token, control: Option<Control>) {
    && (forall t :: t != token && PendingOn(s, t).Some? ==> t in s'.operations && s'.operations[t] == s.operations[t])
    && (forall t :: t != token && PendingOn(s', t).Some? ==>
          t in s.operations && s'.operations[t] == s.operations[t] && PendingOn(s', t) != control)
    && (forall other :: Some(other) != control ==>
          Owners(s'.own, other) == Owners(s.own, other) && (other in s'.backend.down <==> other in s.backend.down))
    && (PendingOn(s, token).Some? ==> PendingOn(s, token) == control)
    && (PendingOn(s', token).Some? ==> PendingOn(s', token) == control)
  }

  lemma TouchKeepsOwnedDown(s: System, s': System, token: Token, control: Option<Control>)
    requires OwnedIsDown(s) && OthersPendingStay(s, s', token, control)
    requires control.Some? && Owners(s'.own, control.value) != {} ==>
             control.value in s'.backend.down || PendingOn(s', token) == control
    requires PendingOn(s', token).Some? ==> PendingTracks(s', token)
    ensures OwnedIsDown(s')
  {
    forall c | Owners(s'.own, c) != {} ensures c in s'.backend.down || exists t :: PendingOn(s', t) == Some(c) {
      if Some(c) != control && c !in s'.backend.down {
        var t :| PendingOn(s, t) == Some(c);
        assert PendingOn(s', t) == Some(c);
      }
    }
    forall t | PendingOn(s', t).Some? ensures PendingTracks(s', t) {
      if t != token {
        assert PendingOn(s, t).Some? && PendingTracks(s, t);
      }
    }
  }

  /** In a calm step only the acting operation's request changes. */
  lemma CalmPendingStay(s: System, a: Action, token: Token)
    requires Inv(s) && PendingAreCurrent(s) && Calm(s, a) && !ActsFor(a, token)
    ensures PendingOn(s, token).Some? ==>
            token in Step(s, a).operations && Step(s, a).operations[token] == s.operations[token]
    ensures PendingOn(Step(s, a), token).Some? ==>
            token in s.operations && Step(s, a).operations[token] == s.operations[token]
  {
    hide OwnersAreHolders, NoEmptyOwnerSet, SessionsAreGood, PendingAreGood, Reserve, Finish,
        BackendAfter, KeyReleases, ButtonReleases, Lists;
  }

  lemma QuietPendingStay(s: System, a: Action, token: Token)
    requires Inv(s) && PendingAreCurrent(s) && Calm(s, a)
    requires !a.ReserveNext? && !a.Submit? && !a.FinishRequest?
    ensures PendingOn(s, token).Some? ==>
            token in Step(s, a).operations && Step(s, a).operations[token] == s.operations[token]
    ensures PendingOn(Step(s, a), token).Some? ==>
            token in s.operations && Step(s, a).operations[token] == s.operations[token]
  {
    hide OwnersAreHolders, NoEmptyOwnerSet, SessionsAreGood, PendingAreGood;
  }

  lemma QuietKeepsOwnedDown(s: System, a: Action)
    requires Inv(s) && PendingAreCurrent(s) && Calm(s, a) && OwnedIsDown(s)
    requires !a.ReserveNext? && !a.Submit? && !a.FinishRequest?
    ensures OwnedIsDown(Step(s, a))
  {
    hide Step, OwnersAreHolders, NoEmptyOwnerSet, SessionsAreGood, PendingAreGood, TokensAreOwned, PendingAreCurrent,
        Calm;
    var s' := Step(s, a);
    QuietKeepsOwnersAndBackend(s, a);
    forall t ensures PendingOn(s', t) == PendingOn(s, t)
        && (PendingOn(s', t).Some? ==> t in s.operations && s'.operations[t] == s.operations[t]) {
      QuietPendingStay(s, a, t);
    }
    forall t | PendingOn(s', t).Some? ensures PendingTracks(s', t) {
      assert PendingTracks(s, t);
    }
    forall c | Owners(s'.own, c) != {} && c !in s'.backend.down ensures exists t :: PendingOn(s', t) == Some(c) {
      var t :| PendingOn(s, t) == Some(c);
      assert PendingOn(s', t) == Some(c);
    }
  }

  /** In a calm state requests pending at the same time are on different controls, the acting one included. */
  lemma RegionPendingStay(s: System, a: Action, control: Option<Control>, s': System)
    requires Inv(s) && PendingAreCurrent(s) && Calm(s, a)
    requires (a.ReserveNext? || a.Submit? || a.FinishRequest?) && s' == Step(s, a)
    requires forall t :: t != a.token && InFlight(s, t) && PendingOn(s, t).Some? ==> PendingOn(s, t) != control
    requires forall other :: Some(other) != control ==>
               Owners(s'.own, other) == Owners(s.own, other) && (other in s'.backend.down <==> other in s.backend.down)
    requires PendingOn(s, a.token).Some? ==> PendingOn(s, a.token) == control
    requires PendingOn(s', a.token).Some? ==> PendingOn(s', a.token) == control
    ensures OthersPendingStay(s, s', a.token, control)
  {
    hide Step, OwnersAreHolders, NoEmptyOwnerSet, SessionsAreGood, PendingAreGood, TokensAreOwned, Calm;
    forall t | t != a.token
      ensures PendingOn(s, t).Some? ==> t in s'.operations && s'.operations[t] == s.operations[t]
      ensures PendingOn(s', t).Some? ==>
              t in s.operations && s'.operations[t] == s.operations[t] && PendingOn(s', t) != control
    {
      CalmPendingStay(s, a, t);
    }
  }

  lemma ReserveKeepsOwnedDown(s: System, token: Token)
    requires Enabled(s, ReserveNext(token)) && s.operations[token].client in s.sessions
    requires Inv(s) && PendingAreCurrent(s) && NoOverlap(s, ReserveNext(token)) && OwnedIsDown(s)
    ensures OwnedIsDown(ReserveStep(s, token))
  {
    hide OwnersAreHolders, NoEmptyOwnerSet, SessionsAreGood, PendingAreGood, TokensAreOwned, Reserve;
    var op := s.operations[token];
    var session := s.sessions[op.client];
    var r := Reserve(s.own, session, op.client, token, op.rest[0]);
    var s' := ReserveStep(s, token);
    ReserveIsStep(s, token);
    hide Step;
    if r.Refused? {
      RegionPendingStay(s, ReserveNext(token), None, s');
      TouchKeepsOwnedDown(s, s', token, None);
    } else {
      InjectNeedsToken(s.own, session, op.client, token, op.rest[0]);
      ReserveOwners(s.own, session, op.client, token, op.rest[0]);
      var control := RequestedControl(s, token);
      RegionPendingStay(s, ReserveNext(token), control, s');
      if control.Some? {
        OwnedBeforeReserve(s, token, control.value);
      }
      TouchKeepsOwnedDown(s, s', token, control);
    }
  }

  /** With no request pending on it, an owned control is down. */
  lemma OwnedBeforeReserve(s: System, token: Token, control: Control)
    requires Enabled(s, ReserveNext(token)) && RequestedControl(s, token) == Some(control)
    requires PendingAreCurrent(s) && NoOverlap(s, ReserveNext(token)) && OwnedIsDown(s)
    ensures Owners(s.own, control) != {} ==> control in s.backend.down
  {
    forall t ensures PendingOn(s, t) != Some(control) {
      if PendingOn(s, t).Some? {
        assert InFlight(s, t);
      }
    }
  }

  lemma SubmitKeepsOwnedDown(s: System, token: Token, accepts: bool)
    requires Enabled(s, Submit(token, accepts)) && s.operations[token].client in s.sessions
    requires Inv(s) && PendingAreCurrent(s) && PendingDiffer(s) && OwnedIsDown(s)
    ensures OwnedIsDown(SubmitStep(s, token, accepts))
  {
    hide OwnersAreHolders, NoEmptyOwnerSet, SessionsAreGood, PendingAreGood, TokensAreOwned;
    var s' := SubmitStep(s, token, accepts);
    var control := PendingOn(s, token);
    FinishAndSubmitAreSteps(s, token, accepts);
    hide Step;
    assert CurrentAndReserved(s, token);
    if control.Some? {
      assert PendingTracks(s, token);
    }
    RegionPendingStay(s, Submit(token, accepts), control, s');
    TouchKeepsOwnedDown(s, s', token, control);
  }

  lemma FinishKeepsOwnedDown(s: System, token: Token)
    requires Enabled(s, FinishRequest(token)) && s.operations[token].client in s.sessions
    requires Inv(s) && PendingAreCurrent(s) && PendingDiffer(s) && OwnedIsDown(s)
    ensures OwnedIsDown(FinishStep(s, token))
  {
    hide OwnersAreHolders, NoEmptyOwnerSet, SessionsAreGood, PendingAreGood, TokensAreOwned, Finish;
    var op := s.operations[token];
    var s' := FinishStep(s, token);
    var control := PendingOn(s, token);
    FinishAndSubmitAreSteps(s, token, false);
    hide Step;
    assert CurrentAndReserved(s, token);
    CurrentPendingMatches(s, token);
    FinishOwners(s.own, s.sessions[op.client], op.client, token, op.phase.pending, op.phase.accepted);
    if control.Some? {
      assert PendingTracks(s, token);
    }
    RegionPendingStay(s, FinishRequest(token), control, s');
    TouchKeepsOwnedDown(s, s', token, control);
  }

  lemma CalmStepKeepsOwnedDown(s: System, a: Action)
    requires Inv(s) && BackendInv(s) && PendingAreCurrent(s) && OwnedIsDown(s) && NoOverlap(s, a) && Calm(s, a)
    ensures OwnedIsDown(Step(s, a))
  {
    hide OwnedIsDown, PendingAreCurrent, Calm, NoOverlap, OwnersAreHolders, NoEmptyOwnerSet, SessionsAreGood,
        PendingAreGood, TokensAreOwned;
    if Enabled(s, a) {
      match a
      case ReserveNext(token) => ReserveKeepsOwnedDown(s, token);
      case Submit(token, accepts) => SubmitKeepsOwnedDown(s, token, accepts);
      case FinishRequest(token) => FinishKeepsOwnedDown(s, token);
      case _ => QuietKeepsOwnedDown(s, a);
    }
  }

  lemma {:induction false} CalmRunKeepsOwnedDown(s: System, actions: seq<Action>)
    requires Inv(s) && BackendInv(s) && PendingAreCurrent(s) && OwnedIsDown(s)
    requires NeverOverlaps(s, actions) && AlwaysCalm(s, actions)
    ensures var end := Run(s, actions); BackendInv(end) && PendingAreCurrent(end) && OwnedIsDown(end)
    decreases |actions|
  {
    hide Step, BackendInv, PendingAreCurrent, OwnedIsDown, NoOverlap, Calm,
         OwnersAreHolders, NoEmptyOwnerSet, SessionsAreGood, PendingAreGood, TokensAreOwned;
    if actions != [] {
      StepKeepsInv(s, actions[0]);
      StepKeepsBackendInv(s, actions[0]);
      CalmKeepsPendingCurrent(s, actions[0]);
      CalmStepKeepsOwnedDown(s, actions[0]);
      CalmRunKeepsOwnedDown(Step(s, actions[0]), actions[1..]);
    }
  }

  /** In a calm run, a control without a pending request is down exactly when some client holds it. */
  lemma DownIffHeldWhenCalm(actions: seq<Action>)
    requires Inv(INITIAL) && NeverOverlaps(INITIAL, actions) && AlwaysCalm(INITIAL, actions)
    ensures var s := Run(INITIAL, actions);
            forall control :: (forall t :: PendingOn(s, t) != Some(control)) ==>
              (control in s.backend.down <==> exists client :: HeldBy(s, client, control))
  {
    CalmRunKeepsOwnedDown(INITIAL, actions);
    var s := Run(INITIAL, actions);
    forall control | (forall t :: PendingOn(s, t) != Some(control))
      ensures control in s.backend.down <==> exists client :: HeldBy(s, client, control)
    {
      if control in s.backend.down {
        DownControlsAreOwned(actions);
      } else {
        assert Owners(s.own, control) == {};
        forall client ensures !HeldBy(s, client, control) {
          assert client in Owners(s.own, control) <==> HeldBy(s, client, control);
        }
      }
    }
  }
}
