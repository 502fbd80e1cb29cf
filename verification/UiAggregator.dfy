/** The aggregator actor as an object: its methods against the stream, input and reconcile specifications. */
module UiAggregator {
  import opened Common
  import opened UiState
  import opened UiDiff
  import UiStream
  import InputCut
  import opened UiReconcile

  type Server = UiStream.Server

  function ShownOf(s: Snapshot): InputCut.Shown {
    InputCut.Shown(s.dynamic, s.sessions.control)
  }

  predicate IsRealtime(change: Change) {
    change.PointerChange? || change.GamepadsChange?
  }

  lemma ApplyKeepsRevision(s: Snapshot, c: Change, revision: nat)
    ensures ApplyChange(s.(revision := revision), c) == ApplyChange(s, c).(revision := revision)
  {
  }

  lemma {:induction false} FoldKeepsRevision(s: Snapshot, cs: seq<Change>, revision: nat)
    ensures FoldChanges(s.(revision := revision), cs) == FoldChanges(s, cs).(revision := revision)
  {
    if cs != [] {
      FoldKeepsRevision(s, cs[..|cs| - 1], revision);
      ApplyKeepsRevision(FoldChanges(s, cs[..|cs| - 1]), cs[|cs| - 1], revision);
    }
  }

  lemma FoldNext(s: Snapshot, cs: seq<Change>, k: nat)
    requires k < |cs|
    ensures FoldChanges(s, cs[..k + 1]) == ApplyChange(FoldChanges(s, cs[..k]), cs[k])
  {
    assert cs[..k + 1][..k] == cs[..k];
  }

  /** A new content at a later revision of the same boot. */
  function Moved(before: Snapshot, content: Snapshot, steps: nat): Snapshot {
    content.(revision := before.revision + steps)
  }

  /** How many of the changes can be emitted before revisions are exhausted. */
  function Emittable(before: Snapshot, changes: seq<Change>): (n: nat)
    ensures n <= |changes|
  {
    Min(|changes|, SaturatingSub(U64_LIMIT - 1, before.revision))
  }

  predicate AllEmittable(before: Snapshot, changes: seq<Change>) {
    before.revision + |changes| < U64_LIMIT
  }

  /** The view after emitting a list of changes as far as revisions last. */
  function Emitted(before: Snapshot, changes: seq<Change>): Snapshot {
    var n := Emittable(before, changes);
    Moved(before, FoldChanges(before, changes[..n]), n)
  }

  lemma AllEmitted(before: Snapshot, changes: seq<Change>)
    requires AllEmittable(before, changes)
    ensures Emitted(before, changes) == Moved(before, FoldChanges(before, changes), |changes|)
  {
    assert changes[..|changes|] == changes;
  }

  /** Emitting two lists in turn, the second only if the first was emitted whole, is emitting both as one. */
  lemma EmittedTwice(s: Snapshot, a: seq<Change>, b: seq<Change>)
    ensures AllEmittable(s, a) ==>
              && Emitted(Emitted(s, a), b) == Emitted(s, a + b)
              && (AllEmittable(Emitted(s, a), b) <==> AllEmittable(s, a + b))
    ensures !AllEmittable(s, a) ==> Emitted(s, a) == Emitted(s, a + b) && !AllEmittable(s, a + b)
  {
    hide FoldChanges;
    if AllEmittable(s, a) {
      EmittedMore(s, a, b);
    } else {
      assert (a + b)[..Emittable(s, a)] == a[..Emittable(s, a)];
    }
  }

  lemma EmittedMore(s: Snapshot, a: seq<Change>, b: seq<Change>)
    requires AllEmittable(s, a)
    ensures Emitted(Emitted(s, a), b) == Emitted(s, a + b)
    ensures AllEmittable(Emitted(s, a), b) <==> AllEmittable(s, a + b)
  {
    hide FoldChanges;
    AllEmitted(s, a);
    var n := Emittable(Emitted(s, a), b);
    MovedTwice(s, a, b[..n]);
    hide Emitted;
    assert Emitted(s, a).revision == s.revision + |a|;
    EmittedUpTo(s, a + b, |a| + n);
    EmittedUpTo(Emitted(s, a), b, n);
    assert (a + b)[..|a| + n] == a + b[..n];
  }

  lemma EmittedUpTo(s: Snapshot, changes: seq<Change>, n: nat)
    requires n == Emittable(s, changes)
    ensures Emitted(s, changes) == Moved(s, FoldChanges(s, changes[..n]), n)
  {
  }

  /** The transitions that change something when they are applied in turn. */
  function Changing(d: Dynamic, ts: seq<Transition>): seq<Transition> {
    if ts == [] then []
    else
      var t := ts[|ts| - 1];
      var before := InputCut.FoldChanging(d, ts[..|ts| - 1]);
      Changing(d, ts[..|ts| - 1])
      + if t.PadChange? && (t.padButton in before.padButtons) == t.pressed then [] else [t]
  }

  lemma {:induction false} ChangingFolds(d: Dynamic, ts: seq<Transition>)
    ensures Fold(d, Changing(d, ts)) == InputCut.FoldChanging(d, ts)
  {
    if ts != [] {
      var n := |ts| - 1;
      ChangingFolds(d, ts[..n]);
      var some := Changing(d, ts[..n]);
      assert (some + [ts[n]])[..|some|] == some;
      assert some + [] == some;
    }
  }

  lemma {:induction false} ChangingGrows(d: Dynamic, ts: seq<Transition>, k: nat)
    requires k <= |ts|
    ensures Changing(d, ts[..k]) <= Changing(d, ts)
    decreases |ts|
  {
    hide InputCut.FoldChanging;
    if k == |ts| {
      assert ts[..k] == ts;
    } else {
      var n := |ts| - 1;
      assert ts[..n][..k] == ts[..k];
      ChangingGrows(d, ts[..n], k);
    }
  }

  /** What is emitted for an input mutation above the cut. */
  function MutationChanges(v: Snapshot, m: InputCut.Mutation, at: nat): seq<Change> {
    match m
    case KeyButton(_, keys, buttons) => Discretes(DiscreteChanges(v.dynamic, keys, buttons, at))
    case GamepadButtons(_, transitions) => Discretes(Changing(v.dynamic, transitions))
    case SessionIs(_, session) =>
      if v.sessions.control == Some(session) then [] else [SessionChange(v.sessions.(control := Some(session)))]
  }

  /** Nothing is emitted that would change nothing: each transition of a gamepad changes the view it meets. */
  lemma MutationEmitsNews(v: Snapshot, m: InputCut.Mutation, at: nat)
    ensures m.KeyButton? ==>
              (MutationChanges(v, m, at) == [] <==> v.dynamic.keys == m.keys && v.dynamic.buttons == m.buttons)
    ensures m.SessionIs? ==>
              (MutationChanges(v, m, at) == [] <==> v.sessions.control == Some(m.session))
              && (MutationChanges(v, m, at) != [] ==>
                    MutationChanges(v, m, at) == [SessionChange(Sessions(Some(m.session), v.sessions.media))])
  {
    if m.KeyButton? {
      QuietWhenEqual(v.dynamic, m.keys, m.buttons, {}, at);
      hide DiscreteChanges;
    }
  }

  lemma ChangingTakesNews(d: Dynamic, ts: seq<Transition>, t: Transition)
    requires t.PadChange?
    ensures var before := InputCut.FoldChanging(d, ts);
            Changing(d, ts + [t]) == Changing(d, ts) + if ApplyTransition(before, t) == before then [] else [t]
  {
    assert (ts + [t])[..|ts|] == ts;
    var before := InputCut.FoldChanging(d, ts);
    hide InputCut.FoldChanging;
    if (t.padButton in before.padButtons) == t.pressed {
      assert Member(before.padButtons, t.padButton, t.pressed) == before.padButtons;
    } else {
      assert (t.padButton in Member(before.padButtons, t.padButton, t.pressed)) == t.pressed;
    }
  }

  lemma MutationShows(v: Snapshot, m: InputCut.Mutation, at: nat)
    ensures ShownOf(FoldChanges(v, MutationChanges(v, m, at))) == InputCut.Mutate(ShownOf(v), m, at)
  {
    match m
    case KeyButton(_, keys, buttons) =>
      FoldDiscretes(v, DiscreteChanges(v.dynamic, keys, buttons, at));
      hide DiscreteChanges, Fold, FoldChanges;
    case GamepadButtons(_, transitions) =>
      FoldDiscretes(v, Changing(v.dynamic, transitions));
      ChangingFolds(v.dynamic, transitions);
      hide Changing, Fold, FoldChanges, InputCut.FoldChanging;
    case SessionIs(_, session) =>
      FoldOne(v, SessionChange(v.sessions.(control := Some(session))));
  }

  class Aggregator {
    var view: View
    var sequencer: Cursor
    var replay: seq<Delta>
    var published: UiStream.Published
    var envelopes: seq<Envelope>
    var inputCut: nat
    ghost var states: seq<Snapshot>
    ghost var start: nat
    ghost var reliable: seq<Delta>

    ghost function Model(): Server
      reads this
    {
      UiStream.Server(view, sequencer, replay, published, true, envelopes, states, start, reliable)
    }

    ghost predicate Valid()
      reads this
    {
      UiStream.ServerInv(Model())
    }

    constructor (initial: Snapshot, inputCut: nat)
      requires Prepared(initial) && initial.revision == 0
      ensures Valid() && Model() == UiStream.Started(initial).server && this.inputCut == inputCut
    {
      hide UiStream.ServerInv, Prepared;
      view, sequencer, replay := View(initial, false), CursorOf(initial), [];
      published, envelopes, this.inputCut := UiStream.PublishedFrom(initial), [], inputCut;
      states, start, reliable := [initial], 0, [];
      new;
      UiStream.StartedInv(initial);
    }

    /** Readers that saw the view before the change see it after the change, whether published in full or not. */
    method PublishView(change: Change, publishFull: bool, ghost before: Snapshot)
      modifies this`published
      ensures published == UiStream.PublishView(old(published), view.snapshot, change, publishFull)
      ensures UiStream.Materialize(old(published)) == before && (publishFull || IsRealtime(change))
              && view.snapshot == ApplyChange(before, change).(revision := view.snapshot.revision) ==>
                UiStream.Materialize(published) == view.snapshot
    {
      var previous := published;
      var pointer := if change.PointerChange? then Some(change.pointer) else previous.pointer;
      var gamepads := if change.GamepadsChange? then change.gamepads else previous.gamepads;
      var base := if publishFull then view.snapshot else previous.base;
      published := UiStream.Published(base, CursorOf(view.snapshot), pointer, gamepads);
    }

    /** apply_delta: the delta, unless revisions are exhausted or the change is refused. */
    method ApplyDelta(change: Change, publishFull: bool) returns (emitted: Option<Delta>)
      requires Valid()
      modifies this`view, this`sequencer, this`published, this`envelopes, this`states
      ensures var (s, ok) := UiStream.Emit(old(Model()), change, publishFull);
              && ok == emitted.Some?
              && Model() == s.(replay := replay, reliable := reliable)
              && (ok ==> emitted.value == Delta(old(sequencer).boot, old(sequencer).revision + 1, change))
    {
      hide UiStream.ServerInv, UiStream.Materialize, UiStream.PublishView, Apply, ApplyChange;
      if sequencer.revision + 1 >= U64_LIMIT {
        return None;
      }
      var d := Delta(sequencer.boot, sequencer.revision + 1, change);
      var applied := Apply(view, Changed(d));
      view := applied.view;
      if applied.error.Some? {
        return None;
      }
      sequencer := Cursor(d.boot, d.revision);
      PublishView(change, publishFull, old(view.snapshot));
      envelopes := envelopes + [Changed(d)];
      states := states + [view.snapshot];
      return Some(d);
    }

    method EmitReliable(change: Change) returns (ok: bool)
      requires Valid()
      modifies this`view, this`sequencer, this`published, this`envelopes, this`states, this`replay, this`reliable
      ensures (Model(), ok) == UiStream.Emit(old(Model()), change, true)
      ensures ok || Acceptable(change) ==> Valid()
      ensures ok == (old(view.snapshot.revision) + 1 < U64_LIMIT && Acceptable(change))
      ensures view.snapshot == if ok then Moved(old(view.snapshot), ApplyChange(old(view.snapshot), change), 1)
              else old(view.snapshot)
    {
      hide UiStream.ServerInv, UiStream.Emit, UiStream.PublishView, UiStream.Materialize, Apply, ApplyChange,
          Acceptable;
      AfterEmission(Model(), change, true);
      var emitted := ApplyDelta(change, true);
      if emitted.None? {
        return false;
      }
      if |replay| == UiStream.REPLAY_CAPACITY {
        replay := replay[1..];
      }
      replay := replay + [emitted.value];
      reliable := reliable + [emitted.value];
      return true;
    }

    method EmitRealtime(change: Change) returns (ok: bool)
      requires Valid() && IsRealtime(change)
      modifies this`view, this`sequencer, this`published, this`envelopes, this`states
      ensures (Model(), ok) == UiStream.Emit(old(Model()), change, false)
      ensures ok || Acceptable(change) ==> Valid()
      ensures ok == (old(view.snapshot.revision) + 1 < U64_LIMIT && Acceptable(change))
      ensures view.snapshot == if ok then Moved(old(view.snapshot), ApplyChange(old(view.snapshot), change), 1)
              else old(view.snapshot)
    {
      hide UiStream.ServerInv, UiStream.Emit, UiStream.PublishView, UiStream.Materialize, Apply, ApplyChange,
          Acceptable;
      AfterEmission(Model(), change, false);
      var emitted := ApplyDelta(change, false);
      return emitted.Some?;
    }

    /** Starts over under a new boot; false if there is no valid projection. */
    method Rebuild(projection: Option<Snapshot>, generation: nat) returns (ok: bool)
      requires UiStream.Restartable(Model())
      modifies this
      ensures ok == (projection.Some? && Prepare(projection.value).Ok?)
      ensures ok ==> Valid() && Model() == UiStream.Rebuild(old(Model()), projection) && inputCut == generation
      ensures !ok ==> Model() == old(Model()) && inputCut == old(inputCut)
    {
      UiStream.RebuildKeepsInv(Model(), projection);
      UiStream.RebuildCases(Model(), projection);
      hide UiStream.Rebuild, UiStream.Restartable, UiStream.ServerInv, UiStream.PublishedFrom, Prepare, Prepared;
      if projection.None? {
        return false;
      }
      var prepared := Prepare(projection.value);
      if prepared.Err? {
        return false;
      }
      Renew(prepared.value.(boot := sequencer.boot + 1, revision := 0), generation);
      return true;
    }

    /** Takes a new boot's first snapshot for the state and tells every subscriber. */
    method Renew(snapshot: Snapshot, generation: nat)
      modifies this
      ensures inputCut == generation
      ensures Model() == UiStream.Server(
                           View(snapshot, false), CursorOf(snapshot), [], UiStream.PublishedFrom(snapshot), true,
                           old(envelopes) + [ResyncRequired(snapshot.boot, snapshot.revision, ProjectionRebuilt),
                               Full(snapshot)],
                           old(states) + [old(view).snapshot, snapshot], |old(envelopes)| + 2, [])
    {
      states, start, reliable := states + [view.snapshot, snapshot], |envelopes| + 2, [];
      sequencer := CursorOf(snapshot);
      view := View(snapshot, false);
      inputCut := generation;
      replay := [];
      published := UiStream.PublishedFrom(snapshot);
      envelopes := envelopes + [ResyncRequired(snapshot.boot, snapshot.revision, ProjectionRebuilt), Full(snapshot)];
    }

    /** What a subscriber with this cursor gets before the live envelopes: with it, its view is in step with the log. */
    method Subscribe(cursor: Option<Cursor>) returns (pending: seq<Envelope>)
      requires Valid()
      ensures pending == UiStream.Backlog(Model(), cursor)
      ensures forall v: View ::
                UiStream.MaySubscribe(Model(), v, cursor.Some?)
                    && (cursor.Some? ==> cursor.value == CursorOf(v.snapshot)) ==>
                  UiStream.ClientInv(Model(), UiStream.Client(v, pending, |envelopes|, false))
    {
      BacklogStarts(Model(), cursor);
      hide UiStream.ServerInv, UiStream.ClientInv, UiStream.MaySubscribe;
      var snapshot := view.snapshot;
      if cursor.None? {
        return [Full(snapshot)];
      }
      if cursor.value.boot != snapshot.boot {
        return UiStream.Resync(snapshot, BootChanged);
      }
      if cursor.value.revision > snapshot.revision {
        return UiStream.Resync(snapshot, RevisionGapped);
      }
      if cursor.value.revision == snapshot.revision {
        return [];
      }
      var expected := Min(cursor.value.revision + 1, U64_LIMIT - 1);
      var newer := UiStream.NewerThan(replay, expected);
      if UiStream.Contiguous(newer, expected, snapshot.revision) {
        return UiStream.Envelopes(newer);
      }
      return UiStream.Resync(snapshot, HistoryExpired);
    }

    /** One change by its kind: pointer and gamepads are realtime, everything else is kept for replay. */
    method EmitOne(change: Change) returns (ok: bool)
      requires Valid()
      modifies this`view, this`sequencer, this`published, this`envelopes, this`states, this`replay, this`reliable
      ensures ok || Acceptable(change) ==> Valid()
      ensures ok == (old(view.snapshot.revision) + 1 < U64_LIMIT && Acceptable(change))
      ensures view.snapshot == if ok then Moved(old(view.snapshot), ApplyChange(old(view.snapshot), change), 1)
              else old(view.snapshot)
    {
      hide UiStream.ServerInv, UiStream.Emit, ApplyChange, Acceptable;
      if IsRealtime(change) {
        ok := EmitRealtime(change);
      } else {
        ok := EmitReliable(change);
      }
    }

    /** Emits a list of changes as far as revisions last. */
    method EmitAll(changes: seq<Change>) returns (ok: bool)
      requires Valid() && forall c :: c in changes ==> Acceptable(c)
      modifies this`view, this`sequencer, this`published, this`envelopes, this`states, this`replay, this`reliable
      ensures Valid() && ok == AllEmittable(old(view.snapshot), changes)
      ensures view.snapshot == Emitted(old(view.snapshot), changes)
    {
      hide UiStream.ServerInv, ApplyChange, Acceptable, FoldChanges;
      UiStream.CurrentState(Model());
      ghost var before := view.snapshot;
      FoldOne(before, Topology(0));
      for k := 0 to |changes|
        invariant Valid() && before.revision + k < U64_LIMIT
                  && view.snapshot == Moved(before, FoldChanges(before, changes[..k]), k)
      {
        FoldNext(before, changes, k);
        ApplyKeepsRevision(FoldChanges(before, changes[..k]), changes[k], view.snapshot.revision);
        ok := EmitOne(changes[k]);
        if !ok {
          return;
        }
      }
      assert changes[..|changes|] == changes;
      return true;
    }

    /** apply_input_mutation: false exactly when revisions are exhausted halfway, and then the cut stays. */
    method ApplyInputMutation(m: InputCut.Mutation, at: nat) returns (ok: bool)
      requires Valid()
      modifies this`view, this`sequencer, this`published, this`envelopes, this`states, this`replay, this`reliable,
          this`inputCut
      ensures Valid() && ok == (m.generation <= old(inputCut)
              || AllEmittable(old(view.snapshot), MutationChanges(old(view.snapshot), m, at)))
      ensures inputCut == if ok then Max(old(inputCut), m.generation) else old(inputCut)
      ensures view.snapshot == if m.generation <= old(inputCut) then old(view.snapshot)
                               else Emitted(old(view.snapshot), MutationChanges(old(view.snapshot), m, at))
      ensures ok && m.generation > old(inputCut) ==>
                ShownOf(view.snapshot) == InputCut.Mutate(ShownOf(old(view.snapshot)), m, at)
    {
      hide UiStream.ServerInv, DiscreteChanges, Changing, Discretes, FoldChanges, InputCut.Mutate, ApplyChange;
      MutationShows(view.snapshot, m, at);
      ghost var before := view.snapshot;
      if m.generation <= inputCut {
        return true;
      }
      match m {
      case KeyButton(_, keys, buttons) =>
        ok := EmitTransitions(DiscreteChanges(view.snapshot.dynamic, keys, buttons, at));
      case GamepadButtons(_, transitions) =>
        ok := EmitGamepadTransitions(transitions);
      case SessionIs(_, session) =>
        ok := EmitSession(session);
      }
      if ok {
        AllEmitted(before, MutationChanges(before, m, at));
        inputCut := m.generation;
      }
    }

    /** The control session, unless the view shows it already. */
    method EmitSession(session: ControlSession) returns (ok: bool)
      requires Valid()
      modifies this`view, this`sequencer, this`published, this`envelopes, this`states, this`replay, this`reliable
      ensures Valid() && ok == AllEmittable(old(view.snapshot),
              MutationChanges(old(view.snapshot), InputCut.SessionIs(0, session), 0))
      ensures view.snapshot == Emitted(old(view.snapshot),
              MutationChanges(old(view.snapshot), InputCut.SessionIs(0, session), 0))
    {
      UiStream.CurrentState(Model());
      ghost var before := view.snapshot;
      var sessions := view.snapshot.sessions.(control := Some(session));
      assert Acceptable(SessionChange(sessions));
      hide UiStream.ServerInv, UiStream.Emit, Acceptable, ApplyChange, FoldChanges;
      FoldOne(before, SessionChange(sessions));
      if view.snapshot.sessions.control == Some(session) {
        return true;
      }
      assert [SessionChange(sessions)][..1] == [SessionChange(sessions)];
      ok := EmitReliable(SessionChange(sessions));
    }

    method EmitTransitions(ts: seq<Transition>) returns (ok: bool)
      requires Valid()
      modifies this`view, this`sequencer, this`published, this`envelopes, this`states, this`replay, this`reliable
      ensures Valid() && ok == AllEmittable(old(view.snapshot), Discretes(ts))
      ensures view.snapshot == Emitted(old(view.snapshot), Discretes(ts))
    {
      hide UiStream.ServerInv, UiStream.Emit, ApplyChange, FoldChanges;
      UiStream.CurrentState(Model());
      ghost var before, changes := view.snapshot, Discretes(ts);
      FoldOne(before, Topology(0));
      for k := 0 to |ts|
        invariant Valid() && before.revision + k < U64_LIMIT
                  && view.snapshot == Moved(before, FoldChanges(before, changes[..k]), k)
      {
        FoldNext(before, changes, k);
        ApplyKeepsRevision(FoldChanges(before, changes[..k]), changes[k], view.snapshot.revision);
        ok := EmitReliable(Discrete(ts[k]));
        if !ok {
          return;
        }
      }
      assert changes[..|changes|] == changes;
      return true;
    }

    /** Transitions that would change nothing are left out. */
    method EmitGamepadTransitions(ts: seq<Transition>) returns (ok: bool)
      requires Valid()
      modifies this`view, this`sequencer, this`published, this`envelopes, this`states, this`replay, this`reliable
      ensures Valid() && ok == AllEmittable(old(view.snapshot), Discretes(Changing(old(view.snapshot.dynamic), ts)))
      ensures view.snapshot == Emitted(old(view.snapshot), Discretes(Changing(old(view.snapshot.dynamic), ts)))
    {
      hide UiStream.ServerInv, UiStream.Emit, ApplyChange, InputCut.FoldChanging, Fold, FoldChanges, Changing;
      UiStream.CurrentState(Model());
      ghost var before := view.snapshot;
      ghost var changes := Discretes(Changing(before.dynamic, ts));
      ghost var n := 0;
      NoneChanging(before);
      for k := 0 to |ts|
        invariant Valid() && n == |Changing(before.dynamic, ts[..k])| && before.revision + n < U64_LIMIT
        invariant view.snapshot == Moved(before, FoldChanges(before, Discretes(Changing(before.dynamic, ts[..k]))), n)
      {
        var t := ts[k];
        ChangingShows(before, ts, k, view.snapshot);
        if !t.PadChange? || (t.padButton in view.snapshot.dynamic.padButtons) != t.pressed {
          ok := EmitReliable(Discrete(t));
          if !ok {
            return;
          }
          n := n + 1;
        }
      }
      assert ts[..|ts|] == ts;
      assert changes[..|changes|] == changes;
      return true;
    }

    /** reconcile_from_authoritative_projection, given the projection with the input state laid over it. */
    method Reconcile(projection: Option<Snapshot>, generation: nat, at: nat) returns (ok: bool)
      requires Valid()
      modifies this
      ensures Valid() && inputCut == if ok then generation else old(inputCut)
      ensures projection.None? || Prepare(Settled(old(view.snapshot), projection.value)).Err? ==>
                !ok && view.snapshot == old(view.snapshot)
      ensures projection.Some? && Prepare(Settled(old(view.snapshot), projection.value)).Ok? ==>
                var p := Prepare(Settled(old(view.snapshot), projection.value)).value;
                var changes := Changes(old(view.snapshot), p, at);
                && ok == AllEmittable(old(view.snapshot), changes)
                && view.snapshot == Emitted(old(view.snapshot), changes)
                && (ok ==> view.snapshot.revision == old(view.snapshot.revision) + |changes|
                           && Reconciled(old(view.snapshot), p,
                                view.snapshot.(revision := old(view.snapshot.revision))))
    {
      hide UiStream.ServerInv, Prepared, Prepare, Settled, Changes, Reconciled, FoldChanges, Acceptable;
      if projection.None? {
        return false;
      }
      var current := view.snapshot;
      var prepared := Prepare(Settled(current, projection.value));
      if prepared.Err? {
        return false;
      }
      var p := prepared.value;
      PreparedIsFixed(Settled(current, projection.value));
      UiStream.CurrentState(Model());
      ChangesReachTheProjection(current, p, at);
      ChangesAcceptable(current, p, at);
      ok := EmitInOrder(current, p, at);
      if ok {
        AllEmitted(current, Changes(current, p, at));
        FoldKeepsRevision(current, Changes(current, p, at), current.revision);
        inputCut := generation;
      }
    }

    /** The groups of changes, those of controls and diagnostics computed from the view as it is by then. */
    method EmitInOrder(current: Snapshot, p: Snapshot, at: nat) returns (ok: bool)
      requires Valid() && current == view.snapshot && forall c :: c in Changes(current, p, at) ==> Acceptable(c)
      modifies this`view, this`sequencer, this`published, this`envelopes, this`states, this`replay, this`reliable
      ensures Valid() && ok == AllEmittable(current, Changes(current, p, at))
      ensures view.snapshot == Emitted(current, Changes(current, p, at))
    {
      hide UiStream.ServerInv, Acceptable, FoldChanges, InventoryChanges, ControlChanges, RealtimeChanges,
          DiagnosticsChanges,
           SessionChanges, Emitted, AllEmittable;
      var inventory := InventoryChanges(current, p);
      ghost var controls := ControlChanges(FoldChanges(current, inventory), p, at);
      ghost var realtime := RealtimeChanges(current, p);
      ghost var diagnostics := DiagnosticsChanges(FoldChanges(current, inventory + controls + realtime), p);
      ghost var sessions := SessionChanges(current, p);
      InOrder(current, inventory, controls, realtime, diagnostics, sessions);
      assert Changes(current, p, at) == inventory + controls + realtime + diagnostics + sessions;
      ok := EmitAll(inventory);
      if !ok {
        return;
      }
      AllEmitted(current, inventory);
      ComparesDynamicOnly(FoldChanges(current, inventory), p, at, view.snapshot.revision);
      ok := EmitAll(ControlChanges(view.snapshot, p, at));
      if !ok {
        return;
      }
      ok := EmitAll(RealtimeChanges(current, p));
      if !ok {
        return;
      }
      AllEmitted(current, inventory + controls + realtime);
      ComparesDynamicOnly(FoldChanges(current, inventory + controls + realtime), p, at, view.snapshot.revision);
      ok := EmitAll(DiagnosticsChanges(view.snapshot, p));
      if !ok {
        return;
      }
      ok := EmitAll(SessionChanges(current, p));
    }
  }

  /** Five lists emitted in turn, up to the first that is cut short, are emitted as one list. */
  lemma InOrder(s: Snapshot, a: seq<Change>, b: seq<Change>, c: seq<Change>, d: seq<Change>, e: seq<Change>)
    ensures Continues(s, a, b, c + d + e)
    ensures Continues(s, a + b, c, d + e)
    ensures Continues(s, a + b + c, d, e)
    ensures Continues(s, a + b + c + d, e, [])
    ensures a + b + (c + d + e) == a + b + c + d + e
    ensures a + b + c + (d + e) == a + b + c + d + e
    ensures a + b + c + d + e + [] == a + b + c + d + e
  {
    hide *;
    ContinuesAlways(s, a, b, c + d + e);
    ContinuesAlways(s, a + b, c, d + e);
    ContinuesAlways(s, a + b + c, d, e);
    ContinuesAlways(s, a + b + c + d, e, []);
  }

  /** What emitting b after a leaves, if more would follow. */
  ghost predicate Continues(s: Snapshot, a: seq<Change>, b: seq<Change>, more: seq<Change>) {
    && (!AllEmittable(s, a) ==> !AllEmittable(s, a + b + more) && Emitted(s, a) == Emitted(s, a + b + more))
    && (AllEmittable(s, a) ==>
          && Emitted(Emitted(s, a), b) == Emitted(s, a + b)
          && (AllEmittable(Emitted(s, a), b) <==> AllEmittable(s, a + b))
          && (!AllEmittable(s, a + b) ==>
               !AllEmittable(s, a + b + more) && Emitted(s, a + b) == Emitted(s, a + b + more)))
  }

  lemma ContinuesAlways(s: Snapshot, a: seq<Change>, b: seq<Change>, more: seq<Change>)
    ensures Continues(s, a, b, more)
  {
    hide Emitted, AllEmittable;
    EmittedTwice(s, a, b);
    EmittedTwice(s, a + b, more);
  }

  /** What the methods need to know of an emission: where it leaves the view, and that it is in order unless refused. */
  lemma AfterEmission(s: Server, change: Change, reliable: bool)
    requires UiStream.ServerInv(s) && s.alive && (reliable || IsRealtime(change))
    ensures var (s', ok) := UiStream.Emit(s, change, reliable);
            && ok == (s.view.snapshot.revision + 1 < U64_LIMIT && Acceptable(change))
            && (ok || Acceptable(change) ==> UiStream.ServerInv(s'))
            && s'.alive && s'.start == s.start
            && (ok ==>
                 s'.replay == (if reliable then UiStream.Remember(s.replay,
                 Delta(s.sequencer.boot, s.sequencer.revision + 1, change)) else s.replay)
                       && s'.reliable == (if reliable
                            then s.reliable + [Delta(s.sequencer.boot, s.sequencer.revision + 1, change)]
                            else s.reliable))
            && (!ok ==> s'.replay == s.replay && s'.reliable == s.reliable)
            && s'.view.snapshot == if ok then Moved(s.view.snapshot, ApplyChange(s.view.snapshot, change), 1)
                 else s.view.snapshot
  {
    hide UiStream.Emit, UiStream.PublishView, Apply, ApplyChange, Acceptable;
    UiStream.EmitKeepsInv(s, change, reliable);
    UiStream.AliveStays(s, change);
    UiStream.EmitCases(s, change, reliable);
    UiStream.CurrentState(s);
    NothingEmitted(s, change, reliable);
    var (s', ok) := UiStream.Emit(s, change, reliable);
    assert ok ==> s'.(alive := ok) == s';
  }

  /** Emitting fails without changing anything when revisions are exhausted. */
  lemma NothingEmitted(s: Server, change: Change, reliable: bool)
    ensures s.sequencer.revision + 1 >= U64_LIMIT ==> UiStream.Emit(s, change, reliable) == (s, false)
  {
    hide Apply;
  }

  lemma BacklogStarts(s: Server, cursor: Option<Cursor>)
    requires UiStream.ServerInv(s)
    ensures forall v: View ::
              UiStream.MaySubscribe(s, v, cursor.Some?) && (cursor.Some? ==> cursor.value == CursorOf(v.snapshot)) ==>
                UiStream.ClientInv(s, UiStream.Client(v, UiStream.Backlog(s, cursor), |s.log|, false))
  {
    hide UiStream.ServerInv, UiStream.ClientInv, UiStream.MaySubscribe, UiStream.Backlog;
    forall v: View | UiStream.MaySubscribe(s, v, cursor.Some?)
        && (cursor.Some? ==> cursor.value == CursorOf(v.snapshot))
      ensures UiStream.ClientInv(s, UiStream.Client(v, UiStream.Backlog(s, cursor), |s.log|, false))
    {
      UiStream.SubscribeStarts(s, v, cursor.Some?);
    }
  }

  lemma NoneChanging(v: Snapshot)
    ensures Changing(v.dynamic, []) == [] && Discretes([]) == [] && FoldChanges(v, []) == v
  {
  }

  /** One more gamepad transition: whether the view tells it apart, and what it adds to those that change something. */
  lemma ChangingShows(v: Snapshot, ts: seq<Transition>, k: nat, now: Snapshot)
    requires k < |ts|
    requires var some := Changing(v.dynamic, ts[..k]);
             now == Moved(v, FoldChanges(v, Discretes(some)), |some|)
    ensures var some, t := Changing(v.dynamic, ts[..k]), ts[k];
            var next := Changing(v.dynamic, ts[..k + 1]);
            var all := Changing(v.dynamic, ts);
            && some <= all && next <= all && Discretes(next) == Discretes(all)[..|next|]
            && Discretes(some) == Discretes(all)[..|some|]
            && (if !t.PadChange? || (t.padButton in now.dynamic.padButtons) != t.pressed then
                  && next == some + [t]
                  && Moved(now, ApplyChange(now, Discrete(t)), 1) == Moved(v, FoldChanges(v, Discretes(next)), |next|)
                else next == some)
  {
    var some, t := Changing(v.dynamic, ts[..k]), ts[k];
    var next := Changing(v.dynamic, ts[..k + 1]);
    assert ts[..k + 1][..k] == ts[..k];
    ChangingGrows(v.dynamic, ts, k);
    ChangingGrows(v.dynamic, ts, k + 1);
    FoldDiscretes(v, some);
    ChangingFolds(v.dynamic, ts[..k]);
    assert now.dynamic == InputCut.FoldChanging(v.dynamic, ts[..k]);
    if next == some + [t] {
      assert Discretes(next) == Discretes(some) + [Discrete(t)];
      FoldNext(v, Discretes(next), |some|);
      assert Discretes(next)[..|some|] == Discretes(some) && Discretes(next)[..|next|] == Discretes(next);
      ApplyKeepsRevision(FoldChanges(v, Discretes(some)), Discrete(t), now.revision);
    }
    hide Fold, InputCut.FoldChanging, ApplyChange, FoldChanges;
  }

  lemma ComparesDynamicOnly(s: Snapshot, p: Snapshot, at: nat, revision: nat)
    ensures ControlChanges(s.(revision := revision), p, at) == ControlChanges(s, p, at)
    ensures DiagnosticsChanges(s.(revision := revision), p) == DiagnosticsChanges(s, p)
  {
  }

  lemma MovedTwice(s: Snapshot, a: seq<Change>, b: seq<Change>)
    ensures var s1 := Moved(s, FoldChanges(s, a), |a|);
            Moved(s1, FoldChanges(s1, b), |b|) == Moved(s, FoldChanges(s, a + b), |a + b|)
  {
    FoldChangesAppend(s, a, b);
    FoldKeepsRevision(FoldChanges(s, a), b, s.revision + |a|);
    hide FoldChanges;
  }

  /** overlay_input_projection: pressed controls, gamepads and session from the publisher, the pointer if it has one. */
  function OverlayInput(s: Snapshot, a: InputCut.Authority, pointer: Option<Pointer>): Snapshot {
    s.(dynamic := s.dynamic.(keys := a.keys, buttons := a.buttons, padButtons := a.pads, gamepads := a.gamepads,
                             pointer := if pointer.Some? then pointer else s.dynamic.pointer),
       sessions := s.sessions.(control := Some(a.session)))
  }

  /** With the input state laid over the projection, rebuilding and reconciling both end in step with the publisher. */
  lemma ProjectionWithInputAgrees(v: Snapshot, s: Snapshot, a: InputCut.Authority, pointer: Option<Pointer>,
      after: Snapshot)
    requires Prepared(v) && Prepare(OverlayInput(s, a, pointer)).Ok?
    ensures InputCut.Agrees(ShownOf(Prepare(OverlayInput(s, a, pointer)).value), a)
    ensures Prepare(Settled(v, OverlayInput(s, a, pointer))).Ok?
    ensures var p := Prepare(Settled(v, OverlayInput(s, a, pointer))).value;
            Reconciled(v, p, after) ==>
              && InputCut.Agrees(ShownOf(after), a) && after.status == p.status
              && after.dynamic.gamepads == a.gamepads
              && (pointer.Some? ==> SamePlace(after.dynamic.pointer, pointer))
              && (pointer.None? && s.dynamic.pointer.Some? ==> SamePlace(after.dynamic.pointer, s.dynamic.pointer))
              && after.status.session == Some(a.session) && after.status.activeTarget == TargetOf(a.session)
              && (forall m :: m in after.sessions.media <==> m in s.sessions.media)
              && after.layout == s.layout && after.displays == s.displays
  {
    SettledPrepares(v, OverlayInput(s, a, pointer));
    hide DistinctDevices, DistinctMedia, SettledDevices;
  }

  /** The input state laid over a snapshot replaces its pressed controls, gamepads, pointer and session, and no more. */
  lemma OverlayReplacesInput(s: Snapshot, a: InputCut.Authority, pointer: Option<Pointer>)
    ensures var o := OverlayInput(s, a, pointer);
            && InputCut.Agrees(ShownOf(o), a) && o.dynamic.gamepads == a.gamepads
            && (pointer.Some? ==> o.dynamic.pointer == pointer)
            && (pointer.None? ==> o.dynamic.pointer == s.dynamic.pointer)
            && o.dynamic.diagnostics == s.dynamic.diagnostics && o.sessions.media == s.sessions.media
            && o.devices == s.devices && o.status == s.status && o.layout == s.layout && o.displays == s.displays
            && o.capabilities == s.capabilities && CursorOf(o) == CursorOf(s) && o.protocol == s.protocol
    ensures InputCut.Overlay(ShownOf(s), a, pointer, s.dynamic.diagnostics) == ShownOf(OverlayInput(s, a, pointer))
  {
  }
}
