/** What replacing a session's token does to the operation that held it, over whole runs. */
module MobileTokens {
  import opened Common
  import opened MobileOwnership
  import opened MobileProtocol
  import opened MobileRequests

  /** The token was handed out and is no longer, or never was, its client's token. */
  predicate Superseded(s: System, token: Token) {
    token < s.nextToken && !InFlight(s, token)
  }

  predicate ActsFor(a: Action, token: Token) {
    match a
    case ClearPrevious(t) => t == token
    case ReserveNext(t) => t == token
    case Submit(t, _) => t == token
    case FinishRequest(t) => t == token
    case EndReservation(t) => t == token
    case EndInFlight(t) => t == token
    case Abort(t) => t == token
    case _ => false
  }

  /** The step touched no session, no owner and no backend. */
  predicate Inert(s: System, s': System) {
    && s'.sessions == s.sessions
    && s'.own.keyOwners == s.own.keyOwners
    && s'.own.buttonOwners == s.own.buttonOwners
    && s'.backend == s.backend
  }

  lemma SupersededStepIsInert(s: System, a: Action, token: Token)
    requires Inv(s) && Superseded(s, token) && ActsFor(a, token)
    ensures Inert(s, Step(s, a))
  {
    hide OwnersAreHolders, NoEmptyOwnerSet, SessionsAreGood, PendingAreGood, TokensAreOwned;
    if Enabled(s, a) {
      var op := s.operations[token];
      assert s.sessions[op.client].inFlight != Some(token);
      assert s.sessions[op.client := s.sessions[op.client]] == s.sessions;
    }
  }

  lemma DisabledStep(s: System, a: Action)
    requires ClientsHaveSessions(s) && !Enabled(s, a)
    ensures Step(s, a) == s
  {
  }

  lemma SupersededStaysSuperseded(s: System, a: Action, token: Token)
    requires Inv(s) && Superseded(s, token)
    ensures Superseded(Step(s, a), token)
  {
    hide Step, OwnersAreHolders, NoEmptyOwnerSet, SessionsAreGood, PendingAreGood;
    if Enabled(s, a) {
      StepKeepsTokens(s, a, if token in s.operations then s.operations[token].client else "");
    } else {
      DisabledStep(s, a);
    }
  }

  /** No operation but a new one appears, and the session's token stays, is cleared, or is replaced with a new one. */
  predicate TokensKept(s: System, s': System, client: ClientId) {
    && s.nextToken <= s'.nextToken
    && (forall t :: t in s'.operations ==>
          t == s.nextToken || (t in s.operations && s'.operations[t].client == s.operations[t].client))
    && (client in s.sessions && client in s'.sessions ==>
          || s'.sessions[client].inFlight == s.sessions[client].inFlight
          || s'.sessions[client].inFlight == None
          || (s'.sessions[client].inFlight == Some(s.nextToken) && s.nextToken < s'.nextToken))
  }

  lemma SessionStepKeepsTokens(s: System, a: Action, client: ClientId)
    requires a.OpenSession? || a.Refresh? || a.Prune? || a.Begin? || a.StartCleanup?
    requires ClientsHaveSessions(s) && Enabled(s, a)
    ensures TokensKept(s, Step(s, a), client)
  {
    hide KeyReleases, ButtonReleases;
  }

  lemma RequestStepKeepsTokens(s: System, a: Action, client: ClientId)
    requires a.ReserveNext? || a.Submit? || a.FinishRequest?
    requires ClientsHaveSessions(s) && Enabled(s, a)
    ensures TokensKept(s, Step(s, a), client)
  {
    hide Reserve, Finish, BackendAfter;
    RegionsKeepToken(s);
  }

  lemma EndingStepKeepsTokens(s: System, a: Action, client: ClientId)
    requires a.ClearPrevious? || a.EndReservation? || a.EndInFlight? || a.Abort?
    requires ClientsHaveSessions(s) && Enabled(s, a)
    ensures TokensKept(s, Step(s, a), client)
  {
    hide DropReservation;
  }

  lemma StepKeepsTokens(s: System, a: Action, client: ClientId)
    requires ClientsHaveSessions(s) && Enabled(s, a)
    ensures TokensKept(s, Step(s, a), client)
  {
    hide *;
    match a
    case ReserveNext(_) => RequestStepKeepsTokens(s, a, client);
    case Submit(_, _) => RequestStepKeepsTokens(s, a, client);
    case FinishRequest(_) => RequestStepKeepsTokens(s, a, client);
    case ClearPrevious(_) => EndingStepKeepsTokens(s, a, client);
    case EndReservation(_) => EndingStepKeepsTokens(s, a, client);
    case EndInFlight(_) => EndingStepKeepsTokens(s, a, client);
    case Abort(_) => EndingStepKeepsTokens(s, a, client);
    case _ => SessionStepKeepsTokens(s, a, client);
  }

  /** Reserving and finishing leave the session's token as it is. */
  lemma RegionsKeepToken(s: System)
    ensures forall own, session, client, token, payload :: var r := Reserve(own, session, client, token, payload);
              !r.Refused? ==> r.session.inFlight == session.inFlight
    ensures forall own, session, client, token, pending, accepted ::
              Finish(own, session, client, token, pending, accepted).1.inFlight == session.inFlight
  {
  }

  /** An operation whose token is not the session's is refused, and finishing it changes nothing. */
  lemma OtherTokensAreRefused(own: Ownership, session: Session, client: ClientId, token: Token)
    requires session.inFlight != Some(token)
    ensures forall payload :: Reserve(own, session, client, token, payload).Refused?
    ensures forall pending, accepted :: Finish(own, session, client, token, pending, accepted) == (own, session)
  {
  }

  // ----- Over runs

  /** Once superseded, an operation takes only inert steps, whatever else happens in between. */
  lemma {:induction false} SupersededIsInertInEveryRun(s: System, actions: seq<Action>, token: Token)
    requires Inv(s) && Superseded(s, token)
    ensures Superseded(Run(s, actions), token)
    ensures forall i :: 0 <= i < |actions| && ActsFor(actions[i], token) ==>
              Inert(Run(s, actions[..i]), Run(s, actions[..i + 1]))
    decreases |actions|
  {
    hide Step, OwnersAreHolders, NoEmptyOwnerSet, SessionsAreGood, PendingAreGood, TokensAreOwned, Superseded, Inert;
    if actions == [] {
      assert Run(s, actions) == s;
    } else {
      var last := |actions| - 1;
      var before := Run(s, actions[..last]);
      SupersededIsInertInEveryRun(s, actions[..last], token);
      RunStep(s, actions, last);
      assert actions[..last + 1] == actions;
      SupersededStaysSuperseded(before, actions[last], token);
      forall i | 0 <= i < |actions| && ActsFor(actions[i], token)
        ensures Inert(Run(s, actions[..i]), Run(s, actions[..i + 1]))
      {
        if i < last {
          assert actions[..last][..i] == actions[..i] && actions[..last][..i + 1] == actions[..i + 1];
        } else {
          SupersededStepIsInert(before, actions[last], token);
        }
      }
    }
  }

  /** Lease and shutdown cleanup supersede every older operation of the client. */
  lemma CleanupSupersedes(s: System, client: ClientId, keys: seq<nat>, buttons: seq<nat>, token: Token)
    requires token in s.operations && s.operations[token].client == client
    requires Enabled(s, StartCleanup(client, keys, buttons))
    requires Inv(s)
    ensures Superseded(Step(s, StartCleanup(client, keys, buttons)), token)
  {
  }

  /** The backend is touched only by a submission whose token is its client's at that moment. */
  lemma BackendStep(s: System, a: Action)
    requires Inv(s)
    ensures var s' := Step(s, a);
            s'.backend != s.backend ==>
              && a.Submit? && InFlight(s, a.token)
              && s'.backend.submissions == s.backend.submissions + [(a.token, s.operations[a.token].client)]
  {
    hide OwnersAreHolders, NoEmptyOwnerSet, SessionsAreGood, PendingAreGood, TokensAreOwned;
  }

  lemma EverySubmissionIsCurrent(actions: seq<Action>, i: nat)
    requires i < |actions|
    ensures Inv(INITIAL)
    ensures var s := Run(INITIAL, actions[..i]);
            var s' := Run(INITIAL, actions[..i + 1]);
            s'.backend != s.backend ==>
              && actions[i].Submit? && InFlight(s, actions[i].token)
              && s'.backend.submissions == s.backend.submissions
                   + [(actions[i].token, s.operations[actions[i].token].client)]
  {
    assert Inv(INITIAL);
    hide Step, OwnersAreHolders, NoEmptyOwnerSet, SessionsAreGood, PendingAreGood, TokensAreOwned;
    RunStep(INITIAL, actions, i);
    BackendStep(Run(INITIAL, actions[..i]), actions[i]);
  }

  // ----- A rejected press leaves no trace

  /** The part of a client's session that presses and releases touch, and its pending request. */
  predicate SameClient(s: System, s': System, token: Token, client: ClientId) {
    && token in s.operations && token in s'.operations && client in s.sessions && client in s'.sessions
    && s.operations[token].client == client && s'.operations[token].client == client
    && PendingOf(s'.operations[token]) == PendingOf(s.operations[token])
    && s'.sessions[client].heldKeys == s.sessions[client].heldKeys
    && s'.sessions[client].heldButtons == s.sessions[client].heldButtons
    && s'.sessions[client].lastPosition == s.sessions[client].lastPosition
  }

  predicate KeepsPending(a: Action, token: Token) {
    a != ReserveNext(token) && a != FinishRequest(token)
  }

  /** While a request is pending under a current token, no other step touches its client. */
  lemma OthersLeaveClientAlone(s: System, a: Action, token: Token, client: ClientId)
    requires token in s.operations && s.operations[token].client == client && PendingOf(s.operations[token]).Some?
    requires Inv(s) && KeepsPending(a, token)
    requires InFlight(Step(s, a), token) && PendingOf(Step(s, a).operations[token]).Some?
    ensures InFlight(s, token) && SameClient(s, Step(s, a), token, client)
  {
    hide OwnersAreHolders, NoEmptyOwnerSet, SessionsAreGood, PendingAreGood, Reserve, Finish,
        BackendAfter, KeyReleases, ButtonReleases, Lists;
    if !InFlight(s, token) {
      SupersededStaysSuperseded(s, a, token);
    }
    if (a.ReserveNext? || a.FinishRequest?) && Enabled(s, a) {
      var op := s.operations[a.token];
      if op.client == client {
        OtherTokensAreRefused(s.own, s.sessions[client], client, a.token);
      }
    }
  }

  lemma {:induction false} OthersLeaveClientAloneInRuns(s: System, actions: seq<Action>, token: Token, client: ClientId)
    requires token in s.operations && s.operations[token].client == client && PendingOf(s.operations[token]).Some?
    requires Inv(s) && (forall a :: a in actions ==> KeepsPending(a, token))
    requires InFlight(Run(s, actions), token) && PendingOf(Run(s, actions).operations[token]).Some?
    ensures SameClient(s, Run(s, actions), token, client)
    decreases |actions|
  {
    if actions == [] {
      assert Inv(s);
      assert InFlight(s, token);
    } else {
      hide Step, OwnersAreHolders, NoEmptyOwnerSet, SessionsAreGood, PendingAreGood, TokensAreOwned;
      var last := |actions| - 1;
      var before := Run(s, actions[..last]);
      RunStep(s, actions, last);
      assert actions[..last + 1] == actions;
      TokenGrows(s, actions[..last]);
      PendingCameFromBefore(before, actions[last], token);
      OthersLeaveClientAloneInRuns(s, actions[..last], token, client);
      OthersLeaveClientAlone(before, actions[last], token, client);
    }
  }

  /** A request that is pending after a step other than its reservation was pending before it. */
  lemma PendingCameFromBefore(s: System, a: Action, token: Token)
    requires Inv(s) && token < s.nextToken && KeepsPending(a, token)
    requires InFlight(Step(s, a), token) && PendingOf(Step(s, a).operations[token]).Some?
    ensures InFlight(s, token) && PendingOf(s.operations[token]).Some?
  {
    hide OwnersAreHolders, NoEmptyOwnerSet, SessionsAreGood, PendingAreGood;
    if !InFlight(s, token) {
      SupersededStaysSuperseded(s, a, token);
    }
  }

  lemma StepTokens(s: System, a: Action)
    requires Inv(s)
    ensures s.nextToken <= Step(s, a).nextToken
    ensures forall t :: t in s.operations ==> t < s.nextToken
  {
    hide OwnersAreHolders, NoEmptyOwnerSet, SessionsAreGood, PendingAreGood, Reserve, Finish,
        BackendAfter, KeyReleases, ButtonReleases, Lists;
  }

  lemma {:induction false} TokenGrows(s: System, actions: seq<Action>)
    requires Inv(s)
    ensures s.nextToken <= Run(s, actions).nextToken
    ensures forall t :: t in s.operations ==> t < s.nextToken
    decreases |actions|
  {
    hide Step, OwnersAreHolders, NoEmptyOwnerSet, SessionsAreGood, PendingAreGood, TokensAreOwned;
    StepTokens(s, EndInFlight(0));
    if actions != [] {
      StepTokens(s, actions[0]);
      StepKeepsInv(s, actions[0]);
      TokenGrows(Step(s, actions[0]), actions[1..]);
    }
  }

  lemma ReservedPress(s: System, token: Token, client: ClientId, pending: Pending)
    requires Enabled(s, ReserveNext(token)) && s.operations[token].client == client && client in s.sessions
    requires PendingOf(ReserveStep(s, token).operations[token]) == Some(pending)
    ensures var reserved := ReserveStep(s, token);
            && reserved.operations[token].client == client && client in reserved.sessions
            && GoodTransition(pending.transition)
            && pending.press == ProvisionSession(s.sessions[client], pending.transition).1
            && reserved.sessions[client] == ProvisionSession(s.sessions[client], pending.transition).0
  {
    var payload := s.operations[token].rest[0];
    if !payload.Malformed? {
      HeldTransitionIsGood(payload);
    }
  }

  lemma RejectedFinish(s: System, token: Token, client: ClientId)
    requires Enabled(s, FinishRequest(token)) && s.operations[token].client == client && client in s.sessions
    requires !s.operations[token].phase.accepted && IsCurrent(s.own, s.sessions[client], client, token)
    ensures client in FinishStep(s, token).sessions
    ensures FinishStep(s, token).sessions[client]
            == RollbackSession(s.sessions[client], s.operations[token].phase.pending.press)
  {
  }

  lemma RunOne(s: System, a: Action)
    requires Inv(s)
    ensures Run(s, [a]) == Step(s, a)
  {
    hide Step, OwnersAreHolders, NoEmptyOwnerSet, SessionsAreGood, PendingAreGood, TokensAreOwned;
    assert [a][1..] == [];
    StepKeepsInv(s, a);
  }

  /** A press that was reserved and is now submitted, rejected and about to be finished under a current token. */
  predicate AboutToReject(s: System, token: Token, client: ClientId) {
    && token in s.operations && s.operations[token].client == client && client in s.sessions
    && s.operations[token].phase.Submitted? && !s.operations[token].phase.accepted
    && IsPress(s.operations[token].phase.pending.transition)
    && IsCurrent(s.own, s.sessions[client], client, token)
  }

  /** Reserving a press and having it rejected puts back what the client held and owned, and where its pointer was. */
  lemma RejectedPressIsUndone(s: System, token: Token, client: ClientId, actions: seq<Action>, reserved: System,
      end: System, done: System)
    requires Inv(s) && Enabled(s, ReserveNext(token)) && s.operations[token].client == client
    requires reserved == Run(s, [ReserveNext(token)])
    requires forall a :: a in actions ==> KeepsPending(a, token)
    requires end == Run(reserved, actions) && AboutToReject(end, token, client)
    requires done == Run(end, [FinishRequest(token)])
    ensures client in s.sessions && client in done.sessions
    ensures done.sessions[client].heldKeys == s.sessions[client].heldKeys
    ensures done.sessions[client].heldButtons == s.sessions[client].heldButtons
    ensures done.sessions[client].lastPosition == s.sessions[client].lastPosition
    ensures forall control :: client in Owners(done.own, control) <==> client in Owners(s.own, control)
  {
    hide Step, OwnersAreHolders, NoEmptyOwnerSet, PendingAreGood, TokensAreOwned, ReserveStep, FinishStep, Reserve,
         Finish, Owners, RollbackSession, ProvisionSession;
    RunOne(s, ReserveNext(token));
    RunOne(end, FinishRequest(token));
    ReserveAndFinishAreSteps(s, end, token);
    var pending := end.operations[token].phase.pending;
    assert PendingOf(end.operations[token]) == Some(pending);
    PendingHereOnly(s, token, client, actions, reserved, end);
    OthersLeaveClientAloneInRuns(reserved, actions, token, client);
    ReservedPress(s, token, client, pending);
    RejectedFinish(end, token, client);
    RollbackUndoesProvision(s.sessions[client], end.sessions[client], pending.transition);
    SameHoldersSameOwners(s, done, client);
  }

  lemma ReserveAndFinishAreSteps(s: System, end: System, token: Token)
    requires ClientsHaveSessions(s) && ClientsHaveSessions(end)
    requires Enabled(s, ReserveNext(token)) && Enabled(end, FinishRequest(token))
    ensures Step(s, ReserveNext(token)) == ReserveStep(s, token)
    ensures Step(end, FinishRequest(token)) == FinishStep(end, token)
  {
  }

  /** Only a reservation makes a request pending, so one pending at the end was pending at the start. */
  lemma {:induction false} PendingHereOnly(s: System, token: Token, client: ClientId, actions: seq<Action>,
      reserved: System, end: System)
    requires Inv(s) && Enabled(s, ReserveNext(token)) && s.operations[token].client == client
    requires reserved == Run(s, [ReserveNext(token)])
    requires forall a :: a in actions ==> KeepsPending(a, token)
    requires end == Run(reserved, actions) && InFlight(end, token) && PendingOf(end.operations[token]).Some?
    ensures token in reserved.operations && reserved.operations[token].client == client
    ensures PendingOf(reserved.operations[token]).Some?
    decreases |actions|
  {
    hide Step, OwnersAreHolders, NoEmptyOwnerSet, SessionsAreGood, PendingAreGood, TokensAreOwned;
    RunOne(s, ReserveNext(token));
    if actions == [] {
      ReserveKeepsClient(s, token);
    } else {
      var last := |actions| - 1;
      var before := Run(reserved, actions[..last]);
      RunStep(reserved, actions, last);
      assert actions[..last + 1] == actions;
      TokenGrows(s, [ReserveNext(token)]);
      TokenGrows(reserved, actions[..last]);
      PendingCameFromBefore(before, actions[last], token);
      PendingHereOnly(s, token, client, actions[..last], reserved, before);
    }
  }

  lemma ReserveKeepsClient(s: System, token: Token)
    requires ClientsHaveSessions(s) && Enabled(s, ReserveNext(token))
    ensures var s' := Step(s, ReserveNext(token));
            token in s'.operations && s'.operations[token].client == s.operations[token].client
  {
  }

  lemma SameHoldersSameOwners(s: System, s': System, client: ClientId)
    requires client in s.sessions && client in s'.sessions
    requires s'.sessions[client].heldKeys == s.sessions[client].heldKeys
             && s'.sessions[client].heldButtons == s.sessions[client].heldButtons
    requires OwnersAreHolders(s) && OwnersAreHolders(s')
    ensures forall control :: client in Owners(s'.own, control) <==> client in Owners(s.own, control)
  {
    forall control ensures client in Owners(s'.own, control) <==> client in Owners(s.own, control) {
      assert client in Owners(s'.own, control) <==> HeldBy(s', client, control);
      assert client in Owners(s.own, control) <==> HeldBy(s, client, control);
    }
  }

  lemma RollbackUndoesProvision(before: Session, after: Session, transition: Transition)
    requires GoodSession(before) && GoodTransition(transition) && IsPress(transition)
    requires var provisioned := ProvisionSession(before, transition).0;
             && after.heldKeys == provisioned.heldKeys
             && after.heldButtons == provisioned.heldButtons
             && after.lastPosition == provisioned.lastPosition
    ensures var undone := RollbackSession(after, ProvisionSession(before, transition).1);
            && undone.heldKeys == before.heldKeys
            && undone.heldButtons == before.heldButtons
            && undone.lastPosition == before.lastPosition
  {
    match transition
    case KeyTransition(_, code, _) => HeldOnceMore(before.heldKeys, code);
    case ButtonTransition(_, button, _, _, _) => HeldButtonOnceMore(before.heldButtons, button);
    case _ =>
  }
}
