/** What happens to sessions and reservations over whole runs: sequence numbers, pruning, limits and leftovers. */
module MobileSessions {
  import opened Common
  import opened MobileOwnership
  import opened MobileProtocol

  // ----- Sequence numbers and times

  /** A session's sequence number changes only when an operation begins, and then to a larger one. */
  lemma SequenceGrows(s: System, a: Action, client: ClientId)
    requires ClientsHaveSessions(s) && client in s.sessions && client in Step(s, a).sessions
    ensures var before, after := s.sessions[client], Step(s, a).sessions[client];
            if a.Begin? && a.client == client && Enabled(s, a) then
              && after.lastSequence == a.sequence > before.lastSequence && after.lastSeen == a.now
              && before.inFlight.None? && after.inFlight == Some(s.nextToken)
              && Step(s, a).operations == s.operations[s.nextToken := Operation(client, Ready, a.requests, false)]
              && after.heldKeys == before.heldKeys && after.heldButtons == before.heldButtons
            else
              && after.lastSequence == before.lastSequence
              && (after.lastSeen == if a.Refresh? && a.client == client then a.now else before.lastSeen)
  {
    hide KeyReleases, ButtonReleases, Lists, Reserve, Finish, BackendAfter, DropReservation;
    RegionsKeepTimes(s);
  }

  lemma RegionsKeepTimes(s: System)
    ensures forall own, session, client, token, payload ::
              var r := Reserve(own, session, client, token, payload);
              !r.Refused? ==> SameTimes(session, r.session)
    ensures forall own, session, client, token, pending, accepted ::
              SameTimes(session, Finish(own, session, client, token, pending, accepted).1)
  {
    hide ReleaseIsNoop, WithinCapacity, HeldTransition, AddControlOwner, RemoveControlOwner, ProvisionOwner, ApplyOwner;
  }

  predicate SameTimes(before: Session, after: Session) {
    after.lastSequence == before.lastSequence && after.lastSeen == before.lastSeen
  }

  /** The client keeps its session from after i actions until after j. */
  predicate KeepsSession(s: System, actions: seq<Action>, client: ClientId, i: nat, j: nat)
    requires Inv(s) && j <= |actions|
  {
    forall k :: i <= k <= j ==> client in Run(s, actions[..k]).sessions
  }

  lemma {:induction false} SequenceGrowsInRuns(s: System, actions: seq<Action>, client: ClientId, i: nat, j: nat)
    requires Inv(s) && i <= j <= |actions| && KeepsSession(s, actions, client, i, j)
    ensures client in Run(s, actions[..i]).sessions && client in Run(s, actions[..j]).sessions
    ensures Run(s, actions[..i]).sessions[client].lastSequence <= Run(s, actions[..j]).sessions[client].lastSequence
    decreases j - i
  {
    hide Step, Inv;
    if i < j {
      SequenceGrowsInRuns(s, actions, client, i, j - 1);
      RunStep(s, actions, j - 1);
      var before := Run(s, actions[..j - 1]);
      SessionsThere(before);
      SequenceGrows(before, actions[j - 1], client);
    }
  }

  lemma SessionsThere(s: System)
    requires Inv(s)
    ensures ClientsHaveSessions(s)
  {
  }

  /** No replays: of two operations that a client begins with the same session the later has the larger number. */
  lemma BegunInOrder(s: System, actions: seq<Action>, client: ClientId, i: nat, j: nat)
    requires Inv(s) && i < j < |actions| && KeepsSession(s, actions, client, i, j)
    requires actions[i].Begin? && actions[i].client == client && Enabled(Run(s, actions[..i]), actions[i])
    requires actions[j].Begin? && actions[j].client == client && Enabled(Run(s, actions[..j]), actions[j])
    ensures actions[i].sequence < actions[j].sequence
  {
    hide Step, Inv, Enabled;
    RunStep(s, actions, i);
    var before := Run(s, actions[..i]);
    SessionsThere(before);
    SequenceGrows(before, actions[i], client);
    SequenceGrowsInRuns(s, actions, client, i + 1, j);
    BeginNeedsLater(Run(s, actions[..j]), actions[j]);
  }

  lemma BeginNeedsLater(s: System, a: Action)
    requires a.Begin? && Enabled(s, a)
    ensures a.client in s.sessions && s.sessions[a.client].lastSequence < a.sequence
  {
  }

  // ----- Sessions come and go

  /**
   A session goes only when it is pruned, and it is pruned exactly when it was not seen for the given time, holds
   nothing and no operation of its client runs. One comes only when it is opened, empty, while there is room for it.
   */
  lemma SessionsComeAndGo(s: System, a: Action, client: ClientId)
    requires ClientsHaveSessions(s)
    ensures client in s.sessions && client !in Step(s, a).sessions
            <==> a.Prune? && a.client == client && client in s.sessions
                 && s.sessions[client].heldKeys == map[] && s.sessions[client].heldButtons == map[]
                 && (forall t :: t in s.operations ==> s.operations[t].client != client)
                 && (a.now >= s.sessions[client].lastSeen + a.pruneAfter || a.pruneAfter == 0)
    ensures client !in s.sessions && client in Step(s, a).sessions
            <==> a.OpenSession? && a.client == client && client !in s.sessions && |s.sessions| < a.limit
    ensures client !in s.sessions && client in Step(s, a).sessions ==>
              Step(s, a).sessions[client] == Session(0, a.now, None, map[], map[], (0, 0))
  {
    hide KeyReleases, ButtonReleases, Lists, Reserve, Finish, BackendAfter, DropReservation;
  }

  /** However many clients ask, there are never more sessions than the largest limit given. */
  lemma {:induction false} SessionsWithinLimit(s: System, actions: seq<Action>, limit: nat)
    requires Inv(s) && |s.sessions| <= limit
    requires forall a :: a in actions && a.OpenSession? ==> a.limit <= limit
    ensures |Run(s, actions).sessions| <= limit
    decreases |actions|
  {
    hide Step, Inv;
    if actions != [] {
      StepKeepsInv(s, actions[0]);
      SessionsThere(s);
      OneSessionMore(s, actions[0], limit);
      SessionsWithinLimit(Step(s, actions[0]), actions[1..], limit);
    }
  }

  lemma OneSessionMore(s: System, a: Action, limit: nat)
    requires ClientsHaveSessions(s) && |s.sessions| <= limit && (a.OpenSession? ==> a.limit <= limit)
    ensures |Step(s, a).sessions| <= limit
  {
    var s' := Step(s, a);
    hide Step;
    forall client ensures client in s'.sessions.Keys ==>
        client in s.sessions.Keys || (a.OpenSession? && client == a.client && |s.sessions| < a.limit) {
      SessionsComeAndGo(s, a, client);
    }
    if a.OpenSession? && |s.sessions| < a.limit {
      KeysBound(s'.sessions.Keys, s.sessions.Keys + {a.client});
    } else {
      KeysBound(s'.sessions.Keys, s.sessions.Keys);
    }
  }

  lemma KeysBound(part: set<ClientId>, whole: set<ClientId>)
    requires part <= whole
    ensures |part| <= |whole|
  {
    assert whole == part + (whole - part);
  }

  // ----- Reservations

  /** Every reservation is one of a running operation of its client that has not given it back. */
  ghost predicate ReservationsRun(s: System) {
    forall t :: t in s.own.reservations ==>
      && t in s.operations && s.operations[t].client == s.own.reservations[t]
      && !s.operations[t].phase.Ending? && !s.operations[t].phase.Clearing?
  }

  lemma RequestsKeepReservations(s: System, a: Action)
    requires ClientsHaveSessions(s) && ReservationsRun(s) && (a.ReserveNext? || a.Submit? || a.FinishRequest?)
    ensures ReservationsRun(Step(s, a))
  {
    hide Reserve, Finish, BackendAfter, IsCurrent;
    if Enabled(s, a) {
      var op := s.operations[a.token];
      BooksOnly(s.own, s.sessions[op.client], op.client, a.token);
      RequestBooks(s, a);
    }
    hide Step;
  }

  /** A region of a request books or returns its own token only, and its operation goes on running. */
  lemma RequestBooks(s: System, a: Action)
    requires ClientsHaveSessions(s) && (a.ReserveNext? || a.Submit? || a.FinishRequest?) && Enabled(s, a)
    ensures var op := s.operations[a.token];
            var s' := Step(s, a);
            && (forall t :: t in s'.own.reservations && t != a.token ==>
                  t in s.own.reservations && s'.own.reservations[t] == s.own.reservations[t])
            && (a.token in s'.own.reservations ==>
                  s'.own.reservations[a.token] == op.client
                  || (a.token in s.own.reservations && s'.own.reservations[a.token] == s.own.reservations[a.token]))
            && a.token in s'.operations && s'.operations[a.token].client == op.client
            && !s'.operations[a.token].phase.Ending? && !s'.operations[a.token].phase.Clearing?
            && s'.operations == s.operations[a.token := s'.operations[a.token]]
  {
    var op := s.operations[a.token];
    BooksOnly(s.own, s.sessions[op.client], op.client, a.token);
    hide Reserve, Finish, BackendAfter, IsCurrent;
  }

  lemma EndingsKeepReservations(s: System, a: Action)
    requires ClientsHaveSessions(s) && ReservationsRun(s) && !a.Abort?
    requires a.ClearPrevious? || a.EndReservation? || a.EndInFlight?
    ensures ReservationsRun(Step(s, a))
  {
  }

  lemma OthersKeepReservations(s: System, a: Action)
    requires ClientsHaveSessions(s) && ReservationsRun(s) && s.nextToken !in s.operations
    requires a.OpenSession? || a.Refresh? || a.Prune? || a.Begin? || a.StartCleanup?
    ensures ReservationsRun(Step(s, a))
  {
    hide KeyReleases, ButtonReleases, Lists;
  }

  lemma TokensAreFresh(s: System)
    requires Inv(s)
    ensures ClientsHaveSessions(s) && s.nextToken !in s.operations
  {
  }

  lemma StepKeepsReservations(s: System, a: Action)
    requires Inv(s) && ReservationsRun(s) && !a.Abort?
    ensures ReservationsRun(Step(s, a))
  {
    hide Inv, Step, ReservationsRun;
    TokensAreFresh(s);
    match a
    case ReserveNext(_) => RequestsKeepReservations(s, a);
    case Submit(_, _) => RequestsKeepReservations(s, a);
    case FinishRequest(_) => RequestsKeepReservations(s, a);
    case ClearPrevious(_) => EndingsKeepReservations(s, a);
    case EndReservation(_) => EndingsKeepReservations(s, a);
    case EndInFlight(_) => EndingsKeepReservations(s, a);
    case _ => OthersKeepReservations(s, a);
  }

  lemma BooksOnly(own: Ownership, session: Session, client: ClientId, token: Token)
    ensures forall payload ::
              var r := Reserve(own, session, client, token, payload);
              && (r.Noop? ==> r.own.reservations == own.reservations)
              && (r.Inject? ==> r.own.reservations == own.reservations[token := client])
    ensures forall pending, accepted ::
              var own' := Finish(own, session, client, token, pending, accepted).0;
              own'.reservations == own.reservations || own'.reservations == own.reservations - {token}
  {
    hide ReleaseIsNoop, WithinCapacity, HeldTransition, AddOwner, RemoveOwner, ProvisionSession, ApplySession,
         RollbackSession;
  }

  /** While no task is aborted a reservation does not outlive its operation; with none running there is none. */
  lemma {:induction false} ReservationsEndWithOperations(actions: seq<Action>)
    requires forall a :: a in actions ==> !a.Abort?
    ensures Inv(INITIAL) && ReservationsRun(Run(INITIAL, actions))
    ensures Run(INITIAL, actions).operations == map[] ==> Run(INITIAL, actions).own.reservations == map[]
    decreases |actions|
  {
    assert Inv(INITIAL);
    hide Step, Inv;
    if actions != [] {
      var n := |actions| - 1;
      ReservationsEndWithOperations(actions[..n]);
      RunStep(INITIAL, actions, n);
      assert actions[..n + 1] == actions;
      StepKeepsReservations(Run(INITIAL, actions[..n]), actions[n]);
    }
  }

  /** What an aborted operation left booked is gone once the cleanup that replaced it has cleared it. */
  lemma ClearedIsGone(s: System, token: Token)
    requires ClientsHaveSessions(s) && Enabled(s, ClearPrevious(token))
    ensures var op := s.operations[token];
            var s' := Step(s, ClearPrevious(token));
            && (forall t :: t in s'.own.reservations <==>
                  t in s.own.reservations && !(op.phase.previous == Some(t) && s.own.reservations[t] == op.client))
            && (forall t :: t in s'.own.reservations ==> s'.own.reservations[t] == s.own.reservations[t])
            && s'.operations[token] == op.(phase := Ready) && s'.sessions == s.sessions
  {
  }

  /** An ending operation gives back its own reservation, if it is still its client's, and then its token. */
  lemma EndGivesBack(s: System, token: Token)
    requires ClientsHaveSessions(s) && token in s.operations
    ensures Enabled(s, EndReservation(token)) ==>
              var s' := Step(s, EndReservation(token));
              && (forall t :: t in s'.own.reservations <==>
                    t in s.own.reservations && !(t == token && s.own.reservations[t] == s.operations[token].client))
              && (forall t :: t in s'.own.reservations ==> s'.own.reservations[t] == s.own.reservations[t])
              && s'.sessions == s.sessions
              && s'.operations == s.operations[token := s.operations[token].(phase := Ending)]
    ensures Enabled(s, EndInFlight(token)) ==>
              var client := s.operations[token].client;
              var s' := Step(s, EndInFlight(token));
              && s'.own == s.own && token !in s'.operations && s'.operations == s.operations - {token}
              && s'.sessions == s.sessions[client := if s.sessions[client].inFlight == Some(token)
                                                     then s.sessions[client].(inFlight := None)
                                                     else s.sessions[client]]
  {
    if Enabled(s, EndInFlight(token)) {
      var client := s.operations[token].client;
      assert s.sessions[client := s.sessions[client]] == s.sessions;
    }
  }

  /** A request reaches the backend exactly when its token is still its client's and its reservation is still there. */
  lemma SubmitsExactlyWhen(s: System, token: Token, accepts: bool)
    requires ClientsHaveSessions(s) && Enabled(s, Submit(token, accepts))
    ensures var client := s.operations[token].client;
            var current := s.sessions[client].inFlight == Some(token) && token in s.own.reservations
                           && s.own.reservations[token] == client;
            var s' := Step(s, Submit(token, accepts));
            && s'.sessions == s.sessions && s'.own == s.own
            && s'.backend.submissions == s.backend.submissions + (if current then [(token, client)] else [])
            && (s'.operations[token].phase.Submitted? <==> current)
  {
  }

  /** A superseded request is not submitted; it ends the operation unless that is a cleanup, which goes on. */
  lemma SupersededIsNotSubmitted(s: System, token: Token, accepts: bool)
    requires Inv(s) && Enabled(s, Submit(token, accepts)) && !InFlight(s, token)
    ensures ClientsHaveSessions(s)
    ensures var op := s.operations[token];
            Step(s, Submit(token, accepts))
            == s.(operations := s.operations[token :=
                    op.(phase := Ready, rest := if op.ignoresErrors then op.rest else [])])
  {
    hide OwnersAreHolders, NoEmptyOwnerSet, SessionsAreGood, PendingAreGood, TokensAreOwned, BackendAfter;
  }
}
