/**
 The gateway's methods, each updating the session and owner tables in place, proved to take
 exactly the steps of the protocol.
 */
module MobileGateway {
  import opened Common
  import opened MobileOwnership
  import opened MobileProtocol
  import opened MobileRequests
  import opened MobileBackend

  datatype Answer = RefusedAnswer | NoopAnswer | InjectAnswer(pending: Pending)

  class Gateway {
    var sessions: map<ClientId, Session>
    var keyOwners: map<nat, set<ClientId>>
    var buttonOwners: map<nat, set<ClientId>>
    var reservations: map<Token, ClientId>
    var nextToken: Token
    /** Where every running task stands, and what the backend was given: not state of the gateway itself. */
    ghost var operations: map<Token, Operation>
    ghost var backend: Backend

    ghost function Table(): Ownership
      reads this
    {
      Ownership(keyOwners, buttonOwners, reservations)
    }

    ghost function Model(): System
      reads this
    {
      System(sessions, Table(), nextToken, operations, backend)
    }

    constructor ()
      ensures Model() == INITIAL
    {
      sessions, keyOwners, buttonOwners, reservations, nextToken := map[], map[], map[], map[], 1;
      operations, backend := map[], Backend({}, []);
    }

    method RemoveKeyOwner(id: nat, client: ClientId)
      modifies this`keyOwners
      ensures keyOwners == RemoveOwner(old(keyOwners), id, client)
    {
      if id in keyOwners {
        keyOwners := keyOwners[id := keyOwners[id] - {client}];
        if keyOwners[id] == {} {
          keyOwners := keyOwners - {id};
          assert keyOwners == old(keyOwners) - {id};
        }
      }
    }

    method RemoveButtonOwner(id: nat, client: ClientId)
      modifies this`buttonOwners
      ensures buttonOwners == RemoveOwner(old(buttonOwners), id, client)
    {
      if id in buttonOwners {
        buttonOwners := buttonOwners[id := buttonOwners[id] - {client}];
        if buttonOwners[id] == {} {
          buttonOwners := buttonOwners - {id};
          assert buttonOwners == old(buttonOwners) - {id};
        }
      }
    }

    /** Applies an accepted transition to the owner tables. */
    method ApplyOwnership(client: ClientId, transition: Transition)
      modifies this`keyOwners, this`buttonOwners
      ensures Table() == ApplyOwner(old(Table()), client, transition)
    {
      match transition
      case KeyTransition(id, _, pressed) =>
        if pressed {
          keyOwners := keyOwners[id := (if id in keyOwners then keyOwners[id] else {}) + {client}];
        } else {
          RemoveKeyOwner(id, client);
        }
      case ButtonTransition(id, _, pressed, _, _) =>
        if pressed {
          buttonOwners := buttonOwners[id := (if id in buttonOwners then buttonOwners[id] else {}) + {client}];
        } else {
          RemoveButtonOwner(id, client);
        }
      case _ =>
    }

    /** Applies an accepted transition to the client's session. */
    method ApplyHeld(client: ClientId, transition: Transition)
      requires client in sessions
      modifies this`sessions
      ensures sessions == old(sessions)[client := ApplySession(old(sessions[client]), transition)]
    {
      var session := sessions[client];
      match transition
      case KeyTransition(id, code, pressed) =>
        if pressed {
          session := session.(heldKeys := session.heldKeys[id := code]);
        } else {
          session := session.(heldKeys := session.heldKeys - {id});
        }
        sessions := sessions[client := session];
      case ButtonTransition(id, button, pressed, x, y) =>
        session := session.(lastPosition := (x, y));
        if pressed {
          session := session.(heldButtons := session.heldButtons[id := button]);
        } else {
          session := session.(heldButtons := session.heldButtons - {id});
        }
        sessions := sessions[client := session];
      case PositionTransition(x, y) =>
        sessions := sessions[client := session.(lastPosition := (x, y))];
      case NoTransition =>
        assert sessions == sessions[client := session];
    }

    /** begin_mobile_operation: refuses a client that is busy or repeats a sequence number. */
    method BeginOperation(client: ClientId, sequence: nat, now: nat, ghost requests: seq<Payload>)
        returns (token: Option<Token>)
      requires client in sessions && Inv(Model())
      modifies this`sessions, this`nextToken, this`operations
      ensures token.Some? <==> old(sessions[client]).inFlight.None? && sequence > old(sessions[client]).lastSequence
      ensures token.Some? ==> Model() == Step(old(Model()), Begin(client, sequence, now, requests))
                              && token == Some(old(nextToken)) && token.value in operations
                              && operations[token.value] == Operation(client, Ready, requests, false)
      ensures token.None? ==> Model() == old(Model()).(nextToken := old(nextToken) + 1)
    {
      hide OwnersAreHolders, NoEmptyOwnerSet, SessionsAreGood, PendingAreGood, TokensAreOwned;
      var fresh_token := nextToken;
      nextToken := nextToken + 1;
      if sessions[client].inFlight.Some? {
        return None;
      }
      if sequence <= sessions[client].lastSequence {
        return None;
      }
      var session := sessions[client].(lastSequence := sequence, lastSeen := now);
      session := session.(inFlight := Some(fresh_token));
      sessions := sessions[client := session];
      operations := operations[fresh_token := Operation(client, Ready, requests, false)];
      return Some(fresh_token);
    }

    /** reserve_mobile_request: one region under both locks. */
    method ReserveRequest(client: ClientId, token: Token, payload: Payload) returns (answer: Answer)
      requires Enabled(Model(), ReserveNext(token)) && operations[token].client == client && client in sessions
      requires operations[token].rest[0] == payload
      requires ClientsHaveSessions(Model())
      modifies this
      ensures Model() == Step(old(Model()), ReserveNext(token))
      ensures var r := Reserve(old(Table()), old(sessions[client]), client, token, payload);
              && (answer.RefusedAnswer? <==> r.Refused?)
              && (answer.NoopAnswer? <==> r.Noop?)
              && (r.Inject? ==> answer == InjectAnswer(r.pending))
      ensures answer.RefusedAnswer? <==> MustRefuse(old(sessions[client]), token, payload)
      ensures answer.NoopAnswer? <==>
                !MustRefuse(old(sessions[client]), token, payload) && !MustAsk(old(Table()), client, payload)
      ensures answer.InjectAnswer? && Presses(payload) ==>
                client in sessions && Holds(sessions[client], Asked(payload).value)
                && client in Owners(Table(), Asked(payload).value)
    {
      hide Step, ApplySession, ApplyOwner, ProvisionSession, ProvisionOwner, ReleaseIsNoop, WithinCapacity,
           HeldTransition, MustRefuse, MustAsk, Owners, Holds, OwnersServed, SameOwners, SessionServed, Presses, Asked;
      ReserveIsStep(Model(), token);
      ReservesExactly(Table(), sessions[client], client, token, payload);
      PressesAsk(payload);
      var session := sessions[client];
      ghost var op := operations[token];
      ghost var next := op.(rest := op.rest[1..]);
      if payload.Malformed? {
        operations := operations[token := AfterError(next)];
        return RefusedAnswer;
      }
      var transition := HeldTransition(payload);
      if session.inFlight != Some(token) || !WithinCapacity(session, transition) {
        operations := operations[token := AfterError(next)];
        return RefusedAnswer;
      }
      if ReleaseIsNoop(Ownership(keyOwners, buttonOwners, reservations), client, transition) {
        ApplyHeld(client, transition);
        ApplyOwnership(client, transition);
        operations := operations[token := next];
        return NoopAnswer;
      }
      var pending := Provision(client, transition);
      reservations := reservations[token := client];
      operations := operations[token := next.(phase := Reserved(pending))];
      return InjectAnswer(pending);
    }

    /** Enters a press in both tables ahead of the backend's answer and remembers how to take it back. */
    method Provision(client: ClientId, transition: Transition) returns (pending: Pending)
      requires client in sessions
      modifies this`sessions, this`keyOwners, this`buttonOwners
      ensures var (session, press) := ProvisionSession(old(sessions[client]), transition);
              var (own, owner) := ProvisionOwner(old(Table()), client, transition);
              pending == Pending(transition, press, owner) && sessions == old(sessions)[client := session]
                  && Table() == own
    {
      var session := sessions[client];
      var press := NoPress;
      var owner: Option<ProvisionalOwner> := None;
      match transition {
        case KeyTransition(id, code, true) =>
          press := ProvisionalKey(id, id !in session.heldKeys);
          session := session.(heldKeys := session.heldKeys[id := code]);
          var owners := if id in keyOwners then keyOwners[id] else {};
          owner := Some(ProvisionalOwner(KeyControl(id), client !in owners));
          keyOwners := keyOwners[id := owners + {client}];
        case ButtonTransition(id, button, true, x, y) =>
          press := ProvisionalButton(id, id !in session.heldButtons, session.lastPosition);
          session := session.(lastPosition := (x, y));
          session := session.(heldButtons := session.heldButtons[id := button]);
          var owners := if id in buttonOwners then buttonOwners[id] else {};
          owner := Some(ProvisionalOwner(ButtonControl(id), client !in owners));
          buttonOwners := buttonOwners[id := owners + {client}];
        case _ =>
      }
      sessions := sessions[client := session];
      return Pending(transition, press, owner);
    }

    /** The check that guards a submission; `accepts` is the backend's answer, used only if it is asked. */
    method SubmitReserved(client: ClientId, token: Token, ghost accepts: bool) returns (submitted: bool)
      requires Enabled(Model(), Submit(token, accepts)) && operations[token].client == client && client in sessions
      requires ClientsHaveSessions(Model())
      modifies this`operations, this`backend
      ensures Model() == Step(old(Model()), Submit(token, accepts))
      ensures submitted <==>
                && old(sessions)[client].inFlight == Some(token)
                && token in old(reservations) && old(reservations)[token] == client
      ensures backend.submissions == old(backend).submissions + if submitted then [(token, client)] else []
    {
      ghost var op := operations[token];
      var matches := token in reservations && reservations[token] == client;
      if sessions[client].inFlight != Some(token) || !matches {
        operations := operations[token := AfterError(op)];
        return false;
      }
      operations := operations[token := op.(phase := Submitted(op.phase.pending, accepts))];
      backend := BackendAfter(backend, op.phase.pending.transition, accepts, token, client);
      return true;
    }

    /** finish_mobile_request: applies an accepted request, takes a rejected press back, ignores a superseded one. */
    method FinishReserved(client: ClientId, token: Token, pending: Pending, accepted: bool)
      requires Enabled(Model(), FinishRequest(token)) && operations[token].client == client && client in sessions
      requires operations[token].phase == Submitted(pending, accepted)
      requires ClientsHaveSessions(Model())
      modifies this
      ensures Model() == Step(old(Model()), FinishRequest(token))
      ensures old(sessions)[client].inFlight != Some(token)
              || token !in old(reservations) || old(reservations)[token] != client ==>
                Table() == old(Table()) && sessions == old(sessions)
    {
      ghost var op := operations[token];
      operations := operations[token := op.(phase := Ready)];
      var matches := token in reservations && reservations[token] == client;
      if sessions[client].inFlight != Some(token) || !matches {
        assert sessions == sessions[client := sessions[client]];
        return;
      }
      reservations := reservations - {token};
      if accepted {
        ApplyHeld(client, pending.transition);
        ApplyOwnership(client, pending.transition);
      } else {
        RollbackPress(client, pending);
      }
    }

    method RollbackPress(client: ClientId, pending: Pending)
      requires client in sessions
      modifies this`sessions, this`keyOwners, this`buttonOwners
      ensures sessions == old(sessions)[client := RollbackSession(old(sessions[client]), pending.press)]
      ensures Table() == RollbackOwner(old(Table()), client, pending.owner)
    {
      var session := sessions[client];
      match pending.press {
        case ProvisionalKey(id, introduced) =>
          if introduced {
            session := session.(heldKeys := session.heldKeys - {id});
          }
        case ProvisionalButton(id, introduced, previous) =>
          session := session.(lastPosition := previous);
          if introduced {
            session := session.(heldButtons := session.heldButtons - {id});
          }
        case NoPress =>
      }
      sessions := sessions[client := session];
      if pending.owner.Some? && pending.owner.value.introduced {
        match pending.owner.value.control {
          case KeyControl(id) => RemoveKeyOwner(id, client);
          case ButtonControl(id) => RemoveButtonOwner(id, client);
        }
      }
    }

    /** end_mobile_operation: its two locked regions, one after the other. */
    method EndOperation(client: ClientId, token: Token)
      requires Enabled(Model(), EndReservation(token)) && operations[token].client == client && client in sessions
      requires ClientsHaveSessions(Model())
      modifies this
      ensures Enabled(EndReservationStep(old(Model()), token), EndInFlight(token))
      ensures Model() == EndInFlightStep(EndReservationStep(old(Model()), token), token)
    {
      if token in reservations && reservations[token] == client {
        reservations := reservations - {token};
      }
      if sessions[client].inFlight == Some(token) {
        sessions := sessions[client := sessions[client].(inFlight := None)];
      }
      operations := operations - {token};
      assert operations == old(operations)[token := old(operations)[token].(phase := Ending)] - {token};
    }

    /** process_reserved_mobile_request, with no other task in between; `accepts` is the backend's answer. */
    method ProcessRequest(client: ClientId, token: Token, payload: Payload, accepts: bool)
      requires Enabled(Model(), ReserveNext(token))
      requires operations[token].client == client && client in sessions && operations[token].rest[0] == payload
      requires Inv(Model())
      modifies this
      ensures Model() == RequestDone(old(Model()), token, accepts)
      ensures Inv(Model()) && ClientsHaveSessions(old(Model()))
      ensures RequestServed(old(Model()), Model(), token, accepts)
    {
      hide Inv, Step, RequestServed;
      ghost var s0 := Model();
      RequestOutcome(s0, token, accepts);
      InvParts(s0);
      StepKeepsInv(s0, ReserveNext(token));
      var answer := ReserveRequest(client, token, payload);
      ghost var s1 := Model();
      InvParts(s1);
      ReserveOutcome(s0, token);
      StepKeepsInv(s1, Submit(token, accepts));
      if !answer.InjectAnswer? {
        NotReserved(s1, token, accepts);
        return;
      }
      var submitted := SubmitReserved(client, token, accepts);
      ghost var s2 := Model();
      InvParts(s2);
      SubmitOutcome(s1, token, accepts);
      StepKeepsInv(s2, FinishRequest(token));
      if !submitted {
        NotSubmitted(s2, token);
        return;
      }
      FinishReserved(client, token, answer.pending, accepts);
    }

    /** The first locked region of release_held_inputs: takes the client's token and lists what it holds. */
    method StartRelease(client: ClientId)
      returns (token: Token, previous: Option<Token>, requests: seq<Payload>, ghost keys: seq<nat>,
          ghost buttons: seq<nat>)
      requires client in sessions && Inv(Model())
      modifies this`sessions, this`nextToken, this`operations
      ensures token == old(nextToken) && previous == old(sessions[client]).inFlight && token !in old(operations)
      ensures Inv(Model()) && Enabled(old(Model()), StartCleanup(client, keys, buttons))
      ensures Model() == Step(old(Model()), StartCleanup(client, keys, buttons))
      ensures sessions == old(sessions)[client := old(sessions[client]).(inFlight := Some(token))]
      ensures operations == old(operations)[token := Operation(client, Clearing(previous), requests, true)]
      ensures ReleasesAll(old(sessions[client]), requests)
    {
      hide ReleasesAll, Inv, Step, GoodSession, KeyReleases, ButtonReleases;
      ghost var s0 := Model();
      SessionIsGood(s0, client);
      token := nextToken;
      nextToken := nextToken + 1;
      var session := sessions[client];
      previous := session.inFlight;
      sessions := sessions[client := session.(inFlight := Some(token))];
      var heldKeys := ListKeys(session.heldKeys.Keys);
      var heldButtons := ListKeys(session.heldButtons.Keys);
      keys, buttons := heldKeys, heldButtons;
      requests := KeyReleases(session, heldKeys) + ButtonReleases(session, heldButtons);
      operations := operations[token := Operation(client, Clearing(previous), requests, true)];
      ListedReleasesCover(session, keys, buttons);
      NextTokenIsFresh(s0);
      assert Model() == StartCleanupStep(s0, client, keys, buttons);
      CleanupKeepsInv(s0, client, keys, buttons);
      CleanupIsStep(s0, client, keys, buttons);
    }

    /** The second locked region of release_held_inputs: drops the superseded operation's reservation. */
    method ClearSuperseded(client: ClientId, token: Token, previous: Option<Token>)
      requires Enabled(Model(), ClearPrevious(token)) && operations[token].client == client
      requires operations[token].phase.previous == previous
      requires ClientsHaveSessions(Model())
      modifies this`reservations, this`operations
      ensures Model() == Step(old(Model()), ClearPrevious(token))
    {
      if previous.Some? {
        if previous.value in reservations && reservations[previous.value] == client {
          reservations := reservations - {previous.value};
        }
      }
      operations := operations[token := operations[token].(phase := Ready)];
    }

    /**
     release_held_inputs run to its end, with no other task in between: afterwards the client holds at most what the
     backend refused to release, and nothing if it accepts. answers gives the backend's answer to each release.
     */
    method ReleaseHeldInputs(client: ClientId, answers: nat -> bool)
      requires client in sessions && Inv(Model())
      modifies this
      ensures Inv(Model()) && operations == old(operations) && sessions.Keys == old(sessions).Keys
      ensures forall other :: other in sessions && other != client ==> sessions[other] == old(sessions)[other]
      ensures sessions[client].inFlight.None?
      ensures forall control :: Holds(sessions[client], control) ==> Holds(old(sessions[client]), control)
      ensures (forall i :: answers(i)) ==> !HasHeldInput(sessions[client])
      ensures BackendInv(old(Model())) && NothingPending(old(Model())) ==> BackendInv(Model())
    {
      hide Inv, BackendInv, HasHeldInput, Holds, ReleasesAll, Answered, NothingPending, OthersQuiet;
      var token, requests := PrepareRelease(client);
      ghost var s2 := Model();
      SendReleases(client, token, requests, answers);
      InvParts(Model());
      EndRelease(client, token);
      SameHeld(s2.sessions[client], old(sessions[client]), requests);
      assert operations == old(operations);
    }

    /** release_held_inputs before its loops: the client's releases are those of the new operation. */
    method PrepareRelease(client: ClientId) returns (token: Token, requests: seq<Payload>)
      requires client in sessions && Inv(Model())
      modifies this
      ensures Inv(Model()) && token !in old(operations)
      ensures operations == old(operations)[token := Operation(client, Ready, requests, true)]
      ensures sessions == old(sessions)[client := old(sessions[client]).(inFlight := Some(token))]
      ensures ReleasesAll(sessions[client], requests)
      ensures BackendInv(old(Model())) && NothingPending(old(Model())) ==>
              BackendInv(Model()) && OthersQuiet(Model(), token)
    {
      hide Inv, Step, BackendInv, ReleasesAll, HasHeldInput, Released, NothingPending, OthersQuiet;
      ghost var s0 := Model();
      InvParts(s0);
      var previous: Option<Token>;
      ghost var keys: seq<nat>, buttons: seq<nat>;
      token, previous, requests, keys, buttons := StartRelease(client);
      ghost var s1 := Model();
      InvParts(s1);
      SameHeld(sessions[client], s0.sessions[client], requests);
      StepKeepsInv(s1, ClearPrevious(token));
      ClearOutcome(s1, token);
      if BackendInv(s0) && NothingPending(s0) {
        CleanupStarts(s0, client, keys, buttons);
      }
      ClearSuperseded(client, token, previous);
    }

    /** end_mobile_operation of a release: the client is idle again and holds what it held. */
    method EndRelease(client: ClientId, token: Token)
      requires Enabled(Model(), EndReservation(token)) && operations[token].client == client && client in sessions
      requires Inv(Model())
      modifies this
      ensures Inv(Model()) && operations == old(operations) - {token} && sessions.Keys == old(sessions).Keys
      ensures forall other :: other in sessions && other != client ==> sessions[other] == old(sessions)[other]
      ensures old(sessions[client]).inFlight == Some(token) ==> sessions[client].inFlight.None?
      ensures HasHeldInput(sessions[client]) == HasHeldInput(old(sessions[client]))
      ensures forall control :: Holds(sessions[client], control) <==> Holds(old(sessions[client]), control)
      ensures BackendInv(old(Model())) ==> BackendInv(Model())
    {
      hide Inv, BackendInv, HasHeldInput, Holds, EndInFlightStep, EndReservationStep;
      ghost var s := Model();
      InvParts(s);
      EndOutcome(s, token);
      EndStepsKeepInv(s, token);
      if BackendInv(s) {
        EndKeepsBackendInv(s, token);
      }
      EndOperation(client, token);
      SameHeld(sessions[client], s.sessions[client], []);
    }

    /** The loops of release_held_inputs: each held control's release, reserved, submitted and finished in turn. */
    method SendReleases(client: ClientId, token: Token, requests: seq<Payload>, answers: nat -> bool)
      requires client in sessions && sessions[client].inFlight == Some(token)
      requires token in operations && operations[token] == Operation(client, Ready, requests, true)
      requires ReleasesAll(sessions[client], requests)
      requires Inv(Model())
      modifies this
      ensures Inv(Model())
      ensures operations == old(operations)[token := Operation(client, Ready, [], true)]
      ensures sessions.Keys == old(sessions).Keys && sessions[client].inFlight == Some(token)
      ensures forall other :: other in sessions && other != client ==> sessions[other] == old(sessions)[other]
      ensures forall control :: Holds(sessions[client], control) ==>
                Holds(old(sessions[client]), control) && control !in Answered(requests, answers)
      ensures (forall i :: answers(i)) ==> !HasHeldInput(sessions[client])
      ensures BackendInv(old(Model())) && OthersQuiet(old(Model()), token) ==> BackendInv(Model())
    {
      hide Inv, Step, BackendInv, ReleasesAll, HasHeldInput, Answered, Holds, ApplySession, RequestDone,
           RequestServed, MustRefuse, MustAsk, SessionServed, OwnersServed;
      ghost var start := sessions[client];
      ghost var s0 := Model();
      assert requests == requests[0..];
      NothingReleasedYet(start, requests, answers);
      for i := 0 to |requests|
        invariant Inv(Model())
        invariant operations == old(operations)[token := Operation(client, Ready, requests[i..], true)]
        invariant client in sessions && sessions[client].inFlight == Some(token)
        invariant sessions.Keys == old(sessions).Keys
        invariant forall other :: other in sessions && other != client ==> sessions[other] == old(sessions)[other]
        invariant StillHeld(start, sessions[client], requests[..i], answers)
        invariant BackendInv(s0) && OthersQuiet(s0, token) ==> BackendInv(Model())
      {
        ghost var before := Model();
        InvParts(before);
        assert requests[i..][0] == requests[i] && requests[i..][1..] == requests[i + 1..];
        ReleaseOne(start, sessions[client], requests, i, answers);
        ReleaseOutcome(before, token, answers(i));
        if BackendInv(before) && OthersQuiet(before, token) {
          RequestKeepsBackendInv(before, token, answers(i));
        }
        ProcessRequest(client, token, requests[i], answers(i));
      }
      AllReleased(start, sessions[client], requests, answers);
      assert requests[|requests|..] == [];
    }

    /**
     release_all_held_inputs at shutdown, once every task was aborted, against a backend that accepts:
     whatever the aborted tasks left behind, nothing stays down and nothing stays owned.
     */
    method ReleaseAllHeldInputs()
      requires operations == map[] && Inv(Model()) && BackendInv(Model())
      modifies this
      ensures Inv(Model()) && operations == map[] && sessions.Keys == old(sessions).Keys
      ensures backend.down == {} && keyOwners == map[] && buttonOwners == map[]
    {
      hide OwnersAreHolders, NoEmptyOwnerSet, SessionsAreGood, PendingAreGood, TokensAreOwned, BackendInv, HasHeldInput;
      var clients := sessions.Keys;
      while clients != {}
        invariant operations == map[] && Inv(Model()) && BackendInv(Model())
        invariant sessions.Keys == old(sessions).Keys && clients <= sessions.Keys
        invariant forall client :: client in sessions && client !in clients ==> !HasHeldInput(sessions[client])
        decreases clients
      {
        var client :| client in clients;
        ReleaseHeldInputs(client, _ => true);
        clients := clients - {client};
      }
      NothingHeldNothingDown(Model());
    }
  }

  method ListKeys(ids: set<nat>) returns (list: seq<nat>)
    ensures forall i, j :: 0 <= i < j < |list| ==> list[i] != list[j]
    ensures forall id :: id in list <==> id in ids
  {
    list := [];
    var left := ids;
    while left != {}
      invariant left <= ids
      invariant forall i, j :: 0 <= i < j < |list| ==> list[i] != list[j]
      invariant forall id :: id in list <==> id in ids && id !in left
      decreases left
    {
      var id :| id in left;
      list := list + [id];
      left := left - {id};
    }
  }

  ghost predicate OthersQuiet(s: System, token: Token) {
    forall t :: t in s.operations && t != token ==> PendingOf(s.operations[t]).None?
  }

  ghost predicate NothingPending(s: System) {
    forall t :: t in s.operations ==> PendingOf(s.operations[t]).None?
  }

  /** The controls a list of requests releases. */
  ghost function Released(requests: seq<Payload>): set<Control> {
    set i | 0 <= i < |requests| && !requests[i].Malformed? && ControlOf(HeldTransition(requests[i])).Some? ::
      ControlOf(HeldTransition(requests[i])).value
  }

  /** The controls whose release the backend accepts, if it is asked. */
  ghost function Answered(requests: seq<Payload>, answers: nat -> bool): set<Control> {
    set i | 0 <= i < |requests| && !requests[i].Malformed? && ControlOf(HeldTransition(requests[i])).Some?
        && answers(i) ::
      ControlOf(HeldTransition(requests[i])).value
  }

  /** Every request is a release, and every held control is released by one of them. */
  ghost predicate ReleasesAll(session: Session, requests: seq<Payload>) {
    && (forall i :: 0 <= i < |requests| ==> !requests[i].Malformed? && IsRelease(HeldTransition(requests[i])))
    && (forall control :: Holds(session, control) ==> control in Released(requests))
  }

  /** What is left of the held controls after some of the releases. */
  ghost predicate StillHeld(start: Session, now: Session, requests: seq<Payload>, answers: nat -> bool) {
    forall control :: Holds(now, control) ==> Holds(start, control) && control !in Answered(requests, answers)
  }

  lemma NothingReleasedYet(start: Session, requests: seq<Payload>, answers: nat -> bool)
    ensures StillHeld(start, start, requests[..0], answers)
  {
  }

  lemma SameHeld(now: Session, before: Session, requests: seq<Payload>)
    requires now.heldKeys == before.heldKeys && now.heldButtons == before.heldButtons
    ensures HasHeldInput(now) == HasHeldInput(before)
    ensures ReleasesAll(before, requests) ==> ReleasesAll(now, requests)
    ensures forall control :: Holds(now, control) <==> Holds(before, control)
  {
    hide Released, HeldTransition;
  }

  lemma ReleaseOne(start: Session, before: Session, requests: seq<Payload>, i: nat, answers: nat -> bool)
    requires i < |requests| && ReleasesAll(start, requests) && StillHeld(start, before, requests[..i], answers)
    ensures !requests[i].Malformed? && IsRelease(HeldTransition(requests[i]))
    ensures var after := ApplySession(before, HeldTransition(requests[i]));
            StillHeld(start, after, requests[..i + 1], answers) && after.inFlight == before.inFlight
    ensures !answers(i) ==> StillHeld(start, before, requests[..i + 1], answers)
  {
    var after := ApplySession(before, HeldTransition(requests[i]));
    ApplySessionEffects(before, HeldTransition(requests[i]));
    hide ApplySession, HeldTransition, Holds;
    assert forall j :: 0 <= j < i ==> requests[..i + 1][j] == requests[..i][j];
    assert requests[..i + 1][i] == requests[i];
    forall control | Holds(after, control) ensures Holds(start, control)
        && control !in Answered(requests[..i + 1], answers) {
      assert Holds(before, control);
    }
  }

  lemma AllReleased(start: Session, end: Session, requests: seq<Payload>, answers: nat -> bool)
    requires ReleasesAll(start, requests) && StillHeld(start, end, requests[..|requests|], answers)
    ensures forall control :: Holds(end, control) ==> Holds(start, control) && control !in Answered(requests, answers)
    ensures (forall i :: answers(i)) ==> !HasHeldInput(end)
  {
    assert requests[..|requests|] == requests;
    if forall i :: answers(i) {
      assert Answered(requests, answers) == Released(requests);
      forall id ensures id !in end.heldKeys && id !in end.heldButtons {
        assert !Holds(end, KeyControl(id)) && !Holds(end, ButtonControl(id));
      }
    }
  }

  lemma InvParts(s: System)
    requires Inv(s)
    ensures ClientsHaveSessions(s)
  {
  }

  lemma NextTokenIsFresh(s: System)
    requires Inv(s)
    ensures s.nextToken !in s.operations
  {
  }

  lemma SessionIsGood(s: System, client: ClientId)
    requires Inv(s) && client in s.sessions
    ensures GoodSession(s.sessions[client]) && ClientsHaveSessions(s)
  {
  }

  lemma CleanupIsStep(s: System, client: ClientId, keys: seq<nat>, buttons: seq<nat>)
    requires ClientsHaveSessions(s) && Enabled(s, StartCleanup(client, keys, buttons))
    ensures Step(s, StartCleanup(client, keys, buttons)) == StartCleanupStep(s, client, keys, buttons)
  {
  }

  lemma CleanupKeepsInv(s: System, client: ClientId, keys: seq<nat>, buttons: seq<nat>)
    requires Inv(s) && Enabled(s, StartCleanup(client, keys, buttons))
    ensures Inv(StartCleanupStep(s, client, keys, buttons))
  {
    hide OwnersAreHolders, NoEmptyOwnerSet, SessionsAreGood, PendingAreGood, TokensAreOwned, KeyReleases,
        ButtonReleases;
    var session := s.sessions[client];
    NewOperationKeepsInv(s, client, session.(inFlight := Some(s.nextToken)),
                         Operation(client, Clearing(session.inFlight), KeyReleases(session, keys)
                             + ButtonReleases(session, buttons), true));
  }

  /** Cleanup names each control by its canonical code, which leads back to the identity it is held under. */
  lemma ReleaseOfHeld(session: Session, id: nat, x: int, y: int)
    requires GoodSession(session)
    ensures id in session.heldKeys ==>
              var t := HeldTransition(Keyboard(session.heldKeys[id], false));
              IsRelease(t) && ControlOf(t) == Some(KeyControl(id))
    ensures id in session.heldButtons ==>
              var t := HeldTransition(MouseButtonEvent(session.heldButtons[id], false, x, y));
              IsRelease(t) && ControlOf(t) == Some(ButtonControl(id))
  {
  }

  lemma ListedReleasesCover(session: Session, keys: seq<nat>, buttons: seq<nat>)
    requires GoodSession(session)
    requires Lists(keys, session.heldKeys) && Lists(buttons, session.heldButtons)
    ensures ReleasesAll(session, KeyReleases(session, keys) + ButtonReleases(session, buttons))
  {
    hide HeldTransition, GoodSession;
    var (x, y) := session.lastPosition;
    var requests := KeyReleases(session, keys) + ButtonReleases(session, buttons);
    forall i | 0 <= i < |requests| ensures !requests[i].Malformed? && IsRelease(HeldTransition(requests[i])) {
      ReleaseOfHeld(session, if i < |keys| then keys[i] else buttons[i - |keys|], x, y);
    }
    forall control | Holds(session, control) ensures control in Released(requests) {
      match control
      case KeyControl(id) =>
        ReleaseOfHeld(session, id, x, y);
        var i :| 0 <= i < |keys| && keys[i] == id;
        assert requests[i] == Keyboard(session.heldKeys[id], false);
      case ButtonControl(id) =>
        ReleaseOfHeld(session, id, x, y);
        var i :| 0 <= i < |buttons| && buttons[i] == id;
        assert requests[|keys| + i] == MouseButtonEvent(session.heldButtons[id], false, x, y);
    }
  }

  lemma ClearOutcome(s: System, token: Token)
    requires Enabled(s, ClearPrevious(token)) && ClientsHaveSessions(s)
    ensures var s' := Step(s, ClearPrevious(token));
            s'.operations == s.operations[token := s.operations[token].(phase := Ready)] && s'.sessions == s.sessions
  {
  }

  lemma EndOutcome(s: System, token: Token)
    requires Enabled(s, EndReservation(token)) && ClientsHaveSessions(s)
    ensures Enabled(EndReservationStep(s, token), EndInFlight(token))
            && ClientsHaveSessions(EndReservationStep(s, token))
    ensures var client := s.operations[token].client;
            var s' := EndInFlightStep(EndReservationStep(s, token), token);
            && s'.operations == s.operations - {token} && s'.sessions.Keys == s.sessions.Keys
            && s'.sessions[client].heldKeys == s.sessions[client].heldKeys
            && s'.sessions[client].heldButtons == s.sessions[client].heldButtons
            && (s.sessions[client].inFlight == Some(token) ==> s'.sessions[client].inFlight.None?)
            && (forall c :: c in s.sessions && c != client ==> s'.sessions[c] == s.sessions[c])
  {
    hide DropReservation;
  }

  lemma EndStepsKeepInv(s: System, token: Token)
    requires Enabled(s, EndReservation(token)) && Inv(s)
    ensures Enabled(EndReservationStep(s, token), EndInFlight(token))
            && ClientsHaveSessions(EndReservationStep(s, token))
    ensures Inv(EndInFlightStep(EndReservationStep(s, token), token))
  {
    hide OwnersAreHolders, NoEmptyOwnerSet, SessionsAreGood, PendingAreGood, TokensAreOwned;
    StepKeepsInv(s, EndReservation(token));
    var s1 := EndReservationStep(s, token);
    assert Step(s, EndReservation(token)) == s1;
    StepKeepsInv(s1, EndInFlight(token));
    assert Step(s1, EndInFlight(token)) == EndInFlightStep(s1, token);
  }

  /** The cleanup's first two regions touch neither owners nor backend, and leave no request of others pending. */
  lemma CleanupStarts(s: System, client: ClientId, keys: seq<nat>, buttons: seq<nat>)
    requires ClientsHaveSessions(s) && Enabled(s, StartCleanup(client, keys, buttons))
    requires Inv(s) && BackendInv(s) && NothingPending(s)
    ensures var s1 := Step(s, StartCleanup(client, keys, buttons));
            ClientsHaveSessions(s1)
            && var s2 := Step(s1, ClearPrevious(s.nextToken));
               BackendInv(s2) && OthersQuiet(s2, s.nextToken)
  {
    hide OwnersAreHolders, NoEmptyOwnerSet, SessionsAreGood, PendingAreGood, TokensAreOwned, BackendInv, KeyReleases,
        ButtonReleases;
    var s1 := Step(s, StartCleanup(client, keys, buttons));
    StepKeepsInv(s, StartCleanup(client, keys, buttons));
    QuietKeepsBackendInv(s, StartCleanup(client, keys, buttons));
    QuietKeepsBackendInv(s1, ClearPrevious(s.nextToken));
  }

  lemma EndKeepsBackendInv(s: System, token: Token)
    requires Enabled(s, EndReservation(token)) && Inv(s) && BackendInv(s)
    ensures Enabled(EndReservationStep(s, token), EndInFlight(token))
            && ClientsHaveSessions(EndReservationStep(s, token))
    ensures BackendInv(EndInFlightStep(EndReservationStep(s, token), token))
  {
    hide OwnersAreHolders, NoEmptyOwnerSet, SessionsAreGood, PendingAreGood, TokensAreOwned, BackendInv;
    StepKeepsInv(s, EndReservation(token));
    QuietKeepsBackendInv(s, EndReservation(token));
    var s1 := EndReservationStep(s, token);
    assert Step(s, EndReservation(token)) == s1;
    QuietKeepsBackendInv(s1, EndInFlight(token));
    assert Step(s1, EndInFlight(token)) == EndInFlightStep(s1, token);
  }

  lemma NothingHeldNothingDown(s: System)
    requires Inv(s) && BackendInv(s)
    requires forall client :: client in s.sessions ==> !HasHeldInput(s.sessions[client])
    ensures s.backend.down == {} && s.own.keyOwners == map[] && s.own.buttonOwners == map[]
  {
    forall control ensures Owners(s.own, control) == {} {
      forall client ensures client !in Owners(s.own, control) {
        assert client in Owners(s.own, control) <==> HeldBy(s, client, control);
      }
    }
    forall id ensures id !in s.own.keyOwners && id !in s.own.buttonOwners {
      assert Owners(s.own, KeyControl(id)) == {} && Owners(s.own, ButtonControl(id)) == {};
    }
  }

  /** Without another pending request nothing can overlap. */
  lemma RequestKeepsBackendInv(s: System, token: Token, accepts: bool)
    requires Inv(s) && BackendInv(s) && OthersQuiet(s, token)
    ensures BackendInv(RequestDone(s, token, accepts))
  {
    QuietNeverOverlaps(s, token);
    hide Inv, BackendInv, Step, OthersQuiet, NoOverlap;
    var reserved := Step(s, ReserveNext(token));
    StepKeepsInv(s, ReserveNext(token));
    StepKeepsBackendInv(s, ReserveNext(token));
    var submitted := Step(reserved, Submit(token, accepts));
    StepKeepsInv(reserved, Submit(token, accepts));
    NoOverlapAtSubmission(reserved, token, accepts);
    StepKeepsBackendInv(reserved, Submit(token, accepts));
    NoOverlapAtSubmission(submitted, token, accepts);
    StepKeepsBackendInv(submitted, FinishRequest(token));
  }

  lemma QuietNeverOverlaps(s: System, token: Token)
    requires OthersQuiet(s, token)
    ensures NoOverlap(s, ReserveNext(token))
  {
  }

  lemma NoOverlapAtSubmission(s: System, token: Token, accepts: bool)
    ensures NoOverlap(s, Submit(token, accepts)) && NoOverlap(s, FinishRequest(token))
  {
  }

  lemma NotReserved(s: System, token: Token, accepts: bool)
    requires ClientsHaveSessions(s) && token in s.operations && !s.operations[token].phase.Reserved?
    ensures Step(s, Submit(token, accepts)) == s
    ensures !s.operations[token].phase.Submitted? ==> Step(s, FinishRequest(token)) == s
  {
  }

  lemma NotSubmitted(s: System, token: Token)
    requires ClientsHaveSessions(s) && token in s.operations && !s.operations[token].phase.Submitted?
    ensures Step(s, FinishRequest(token)) == s
  {
  }

  lemma ReserveOutcome(s: System, token: Token)
    requires Enabled(s, ReserveNext(token)) && ClientsHaveSessions(s)
    ensures var op := s.operations[token];
            var s' := Step(s, ReserveNext(token));
            var r := Reserve(s.own, s.sessions[op.client], op.client, token, op.rest[0]);
            && s'.operations == s.operations[token := s'.operations[token]] && s'.operations[token].client == op.client
            && op.client in s'.sessions && s'.nextToken == s.nextToken
            && (if r.Inject? then s'.operations[token] == op.(phase := Reserved(r.pending), rest := op.rest[1..])
                else s'.operations[token].phase.Ready?)
            && (!op.rest[0].Malformed? && IsRelease(HeldTransition(op.rest[0]))
                 && s.sessions[op.client].inFlight == Some(token) ==>
                  if r.Inject? then
                    && s'.sessions == s.sessions && r.pending.transition == HeldTransition(op.rest[0])
                         && r.pending.press.NoPress?
                    && IsCurrent(s'.own, s'.sessions[op.client], op.client, token)
                  else
                    && r.Noop? && s'.operations[token] == op.(rest := op.rest[1..])
                    && s'.sessions == s.sessions[op.client := ApplySession(s.sessions[op.client],
                         HeldTransition(op.rest[0]))])
  {
    var op := s.operations[token];
    var session := s.sessions[op.client];
    assert s.sessions[op.client := session] == s.sessions;
    if !op.rest[0].Malformed? && !Reserve(s.own, session, op.client, token, op.rest[0]).Refused? {
      ReserveShape(s.own, session, op.client, token, op.rest[0]);
    }
  }

  lemma SubmitOutcome(s: System, token: Token, accepts: bool)
    requires Enabled(s, Submit(token, accepts)) && ClientsHaveSessions(s)
    ensures var op := s.operations[token];
            var s' := Step(s, Submit(token, accepts));
            && s'.operations == s.operations[token := s'.operations[token]] && s'.operations[token].client == op.client
            && s'.sessions == s.sessions && s'.own == s.own && s'.nextToken == s.nextToken
            && if IsCurrent(s.own, s.sessions[op.client], op.client, token) then
                 s'.operations[token] == op.(phase := Submitted(op.phase.pending, accepts))
               else s'.operations[token].phase.Ready?
  {
  }

  lemma FinishOutcome(s: System, token: Token)
    requires Enabled(s, FinishRequest(token)) && ClientsHaveSessions(s)
    ensures var op := s.operations[token];
            var session := s.sessions[op.client];
            var s' := Step(s, FinishRequest(token));
            && s'.operations == s.operations[token := op.(phase := Ready)] && s'.nextToken == s.nextToken
            && (IsCurrent(s.own, session, op.client, token) && op.phase.accepted ==>
                  s'.sessions == s.sessions[op.client := ApplySession(session, op.phase.pending.transition)])
            && (IsCurrent(s.own, session, op.client, token) && !op.phase.accepted && op.phase.pending.press.NoPress? ==>
                  s'.sessions == s.sessions[op.client := session])
  {
  }

  /** The next request of the operation is a release, and the operation is its client's current one. */
  predicate CurrentRelease(s: System, token: Token)
    requires ClientsHaveSessions(s)
  {
    && Enabled(s, ReserveNext(token)) && !s.operations[token].rest[0].Malformed?
    && IsRelease(HeldTransition(s.operations[token].rest[0]))
    && s.sessions[s.operations[token].client].inFlight == Some(token)
  }

  ghost predicate ReleasedOne(s: System, s': System, token: Token, accepts: bool)
    requires ClientsHaveSessions(s) && CurrentRelease(s, token)
  {
    var op := s.operations[token];
    var before := s.sessions[op.client];
    && s'.operations == s.operations[token := op.(rest := op.rest[1..])] && s'.nextToken == s.nextToken
    && op.client in s'.sessions && s'.sessions == s.sessions[op.client := s'.sessions[op.client]]
    && (s'.sessions[op.client] == ApplySession(before, HeldTransition(op.rest[0]))
        || (!accepts && s'.sessions[op.client] == before))
  }

  /** A current release is applied, unless the backend is asked and refuses; then the client goes on holding. */
  lemma ReleaseOutcome(s: System, token: Token, accepts: bool)
    requires Inv(s) && ClientsHaveSessions(s) && CurrentRelease(s, token)
    ensures ReleasedOne(s, RequestDone(s, token, accepts), token, accepts)
  {
    hide Inv, Step, HeldTransition, ApplySession;
    var reserved := Step(s, ReserveNext(token));
    StepKeepsInv(s, ReserveNext(token));
    InvParts(reserved);
    ReserveOutcome(s, token);
    var submitted := Step(reserved, Submit(token, accepts));
    StepKeepsInv(reserved, Submit(token, accepts));
    InvParts(submitted);
    if reserved.operations[token].phase.Reserved? {
      SubmitOutcome(reserved, token, accepts);
      FinishOutcome(submitted, token);
    } else {
      NotReserved(reserved, token, accepts);
    }
  }
}
