/** Input state on its way to the view: a bounded queue of mutations, a dirty flag, and the generation cut. */
module InputCut {
  import opened Common
  import opened InputEvents
  import opened UiState
  import opened UiDiff

  /** The publisher's authoritative projection. */
  datatype Authority = Authority(
    generation: nat,
    keys: set<nat>,
    buttons: set<MouseButton>,
    pads: set<PadButton>,
    gamepads: seq<Gamepad>,
    session: ControlSession)

  datatype Mutation =
    | KeyButton(generation: nat, keys: set<nat>, buttons: set<MouseButton>)
    | GamepadButtons(generation: nat, transitions: seq<Transition>)
    | SessionIs(generation: nat, session: ControlSession)

  /** The part of the view that mutations change. */
  datatype Shown = Shown(dynamic: Dynamic, control: Option<ControlSession>)

  /**
   Where the actor is: between turns; past the test of the dirty flag and about to take a mutation; holding the
   taken flag; awaiting a projection to rebuild or to reconcile; or finished.
   */
  datatype Turn = Idle | Receiving | Checking | Rebuilding | Reconciling | Stopped

  /** unsent is a mutation whose generation is published but which is not yet in the queue. */
  datatype System = System(
    authority: Authority,
    unsent: Option<Mutation>,
    queue: seq<Mutation>,
    capacity: nat,
    dirty: bool,
    view: Shown,
    cut: nat,
    turn: Turn)

  // ----- The publisher

  function PressedPads(gamepads: seq<Gamepad>): set<PadButton> {
    set g, k | g in gamepads && g.connected && k in g.pressed :: PadButton(g.id, k)
  }

  datatype Publication =
    | Keys(keys: set<nat>, buttons: set<MouseButton>)
    | Gamepads(gamepads: seq<Gamepad>, at: nat)
    | Session(session: ControlSession)

  function NextAuthority(a: Authority, p: Publication): Authority {
    var next := a.(generation := a.generation + 1);
    match p
    case Keys(keys, buttons) => next.(keys := keys, buttons := buttons)
    case Gamepads(gamepads, _) => next.(pads := PressedPads(gamepads), gamepads := gamepads)
    case Session(session) => next.(session := session)
  }

  /** The mutation a publication queues; a gamepad report that changes no button queues none. */
  function MutationFor(a: Authority, p: Publication): Option<Mutation> {
    match p
    case Keys(keys, buttons) => Some(KeyButton(a.generation + 1, keys, buttons))
    case Gamepads(gamepads, at) =>
      var transitions := PadTransitions(a.pads, PressedPads(gamepads), at);
      if transitions == [] then None else Some(GamepadButtons(a.generation + 1, transitions))
    case Session(session) => Some(SessionIs(a.generation + 1, session))
  }

  /** A gamepad button is pressed exactly when a connected gamepad reports it. */
  lemma PressedExactlyWhen(gamepads: seq<Gamepad>, id: byte, kind: PadKind)
    ensures PadButton(id, kind) in PressedPads(gamepads)
        <==> exists i ::
               0 <= i < |gamepads| && gamepads[i].id == id && gamepads[i].connected && kind in gamepads[i].pressed
  {
    if i :| 0 <= i < |gamepads| && gamepads[i].id == id && gamepads[i].connected && kind in gamepads[i].pressed {
      assert gamepads[i] in gamepads;
    }
  }

  /** A publication changes its part of the authority, counts a generation, and nothing else. */
  lemma PublicationChanges(a: Authority, p: Publication)
    ensures var a' := NextAuthority(a, p);
            && a'.generation == a.generation + 1
            && (p.Keys? ==> a' == a.(generation := a'.generation, keys := p.keys, buttons := p.buttons))
            && (p.Gamepads? ==>
                  a' == a.(generation := a'.generation, gamepads := p.gamepads, pads := PressedPads(p.gamepads)))
            && (p.Session? ==> a' == a.(generation := a'.generation, session := p.session))
  {
    hide PressedPads;
  }

  /** What is queued for a publication: its new content under the new generation, and nothing for unchanged buttons. */
  lemma QueuesExactly(a: Authority, p: Publication)
    ensures MutationFor(a, p).None? <==> p.Gamepads? && PressedPads(p.gamepads) == a.pads
    ensures p.Keys? ==> MutationFor(a, p) == Some(KeyButton(NextAuthority(a, p).generation, p.keys, p.buttons))
    ensures p.Session? ==> MutationFor(a, p) == Some(SessionIs(NextAuthority(a, p).generation, p.session))
    ensures p.Gamepads? && MutationFor(a, p).Some? ==>
              && MutationFor(a, p).value.GamepadButtons?
              && MutationFor(a, p).value.generation == NextAuthority(a, p).generation
              && forall t :: t in MutationFor(a, p).value.transitions <==>
                   IsPadNews(a.pads, PressedPads(p.gamepads), p.at, t)
  {
    if p.Gamepads? {
      var none := Dynamic(None, [], {}, {}, a.pads, Feedback(0, 0));
      QuietWhenEqual(none, {}, {}, PressedPads(p.gamepads), p.at);
      PadChangesExactly(a.pads, PressedPads(p.gamepads), p.at);
    }
    hide PressedPads, PadTransitions, IsPadNews;
  }

  // ----- The actor

  /** Transitions of gamepad buttons that would change nothing are not emitted. */
  function FoldChanging(d: Dynamic, ts: seq<Transition>): Dynamic {
    if ts == [] then d
    else
      var before := FoldChanging(d, ts[..|ts| - 1]);
      var t := ts[|ts| - 1];
      if t.PadChange? && (t.padButton in before.padButtons) == t.pressed then before else ApplyTransition(before, t)
  }

  lemma {:induction false} FoldChangingIsFold(d: Dynamic, ts: seq<Transition>)
    ensures FoldChanging(d, ts) == Fold(d, ts)
  {
    if ts != [] {
      FoldChangingIsFold(d, ts[..|ts| - 1]);
      var before := Fold(d, ts[..|ts| - 1]);
      var t := ts[|ts| - 1];
      if t.PadChange? && (t.padButton in before.padButtons) == t.pressed {
        assert Member(before.padButtons, t.padButton, t.pressed) == before.padButtons;
      }
    }
  }

  /** The view after one mutation above the cut. */
  function Mutate(v: Shown, m: Mutation, at: nat): Shown {
    match m
    case KeyButton(_, keys, buttons) => v.(dynamic := Fold(v.dynamic, DiscreteChanges(v.dynamic, keys, buttons, at)))
    case GamepadButtons(_, transitions) => v.(dynamic := FoldChanging(v.dynamic, transitions))
    case SessionIs(_, session) => v.(control := Some(session))
  }

  /** What taking all these mutations will make of the view. */
  function Drained(v: Shown, cut: nat, queue: seq<Mutation>): Shown
    decreases |queue|
  {
    if queue == [] then v
    else if queue[0].generation <= cut then Drained(v, cut, queue[1..])
    else Drained(Mutate(v, queue[0], 0), queue[0].generation, queue[1..])
  }

  predicate Agrees(v: Shown, a: Authority) {
    v.dynamic.keys == a.keys && v.dynamic.buttons == a.buttons && v.dynamic.padButtons == a.pads
        && v.control == Some(a.session)
  }

  function Overlay(v: Shown, a: Authority, pointer: Option<Pointer>, diagnostics: Feedback): Shown {
    Shown(Dynamic(if pointer.Some? then pointer else v.dynamic.pointer, a.gamepads, a.keys, a.buttons, a.pads,
        diagnostics),
          Some(a.session))
  }

  datatype Action =
    | Publish(publication: Publication)
    | Send
    | Ambient(pointer: Option<Pointer>, gamepads: seq<Gamepad>, diagnostics: Feedback)
    | Poll
    | Take(at: nat)
    | TakeFails(partial: Shown)
    | EmissionFails
    | TakeDirty
    | Check
    | StartReconcile
    | Project(pointer: Option<Pointer>, diagnostics: Feedback)
    | ProjectionFails

  function TakeStep(s: System, at: nat): System {
    if s.turn != Receiving then s
    else if s.queue == [] then s.(turn := Idle)
    else
      var m := s.queue[0];
      var rest := s.(queue := s.queue[1..], turn := Idle);
      if m.generation <= s.cut then rest else rest.(view := Mutate(s.view, m, at), cut := m.generation)
  }

  function Step(s: System, a: Action): System {
    match a
    case Publish(p) =>
      if s.unsent.None? then s.(authority := NextAuthority(s.authority, p), unsent := MutationFor(s.authority, p))
          else s
    case Send =>
      if s.unsent.None? then s
      else if s.turn != Stopped && |s.queue| < s.capacity then s.(queue := s.queue + [s.unsent.value], unsent := None)
      else s.(dirty := true, unsent := None)
    case Ambient(pointer, gamepads, diagnostics) =>
      if s.turn == Idle then
        s.(view := s.view.(dynamic := s.view.dynamic.(pointer := pointer, gamepads := gamepads,
            diagnostics := diagnostics)))
      else s
    case Poll => if s.turn == Idle && !s.dirty then s.(turn := Receiving) else s
    case Take(at) => TakeStep(s, at)
    case TakeFails(partial) =>
      if s.turn == Receiving && s.queue != [] then s.(queue := s.queue[1..], view := partial, turn := Rebuilding) else s
    case EmissionFails => if s.turn == Idle then s.(turn := Rebuilding) else s
    case TakeDirty => if s.turn == Idle && s.dirty then s.(dirty := false, turn := Checking) else s
    case Check =>
      if s.turn == Checking then s.(turn := if s.authority.generation > s.cut then Rebuilding else Idle) else s
    case StartReconcile => if s.turn == Idle then s.(turn := Reconciling) else s
    case Project(pointer, diagnostics) =>
      if s.turn == Rebuilding || s.turn == Reconciling then
        s.(view := Overlay(s.view, s.authority, pointer, diagnostics), cut := s.authority.generation, turn := Idle)
      else s
    case ProjectionFails => if s.turn == Rebuilding || s.turn == Reconciling then s.(turn := Stopped) else s
  }

  // ----- Invariant

  function Coming(s: System): seq<Mutation> {
    s.queue + if s.unsent.Some? then [s.unsent.value] else []
  }

  predicate Ordered(queue: seq<Mutation>, upTo: nat) {
    && (forall i, j :: 0 <= i < j < |queue| ==> queue[i].generation < queue[j].generation)
    && (forall i :: 0 <= i < |queue| ==> queue[i].generation <= upTo)
  }

  predicate Inv(s: System) {
    && s.capacity > 0 && s.cut <= s.authority.generation
    && Ordered(Coming(s), s.authority.generation)
    && (!s.dirty && (s.turn.Idle? || s.turn.Receiving? || s.turn.Reconciling?) ==>
          Agrees(Drained(s.view, s.cut, Coming(s)), s.authority))
    && (s.cut == s.authority.generation && !s.turn.Rebuilding? && !s.turn.Stopped? ==> Agrees(s.view, s.authority))
    && (s.turn.Receiving? && s.dirty ==> s.queue != [] && s.queue[0].generation < s.authority.generation)
  }

  // ----- Draining

  /** The time at which a mutation is applied does not show in the view. */
  lemma MutateIsTimeless(v: Shown, m: Mutation, at: nat)
    ensures Mutate(v, m, at) == Mutate(v, m, 0)
    ensures m.KeyButton? ==> Mutate(v, m, at) == v.(dynamic := v.dynamic.(keys := m.keys, buttons := m.buttons))
  {
    if m.KeyButton? {
      DiscreteChangesReach(v.dynamic, m.keys, m.buttons, at);
      DiscreteChangesReach(v.dynamic, m.keys, m.buttons, 0);
    }
  }

  lemma {:induction false} DrainedSkipsCovered(v: Shown, cut: nat, queue: seq<Mutation>)
    requires Ordered(queue, cut)
    ensures Drained(v, cut, queue) == v
  {
    if queue != [] {
      DrainedSkipsCovered(v, cut, queue[1..]);
    }
  }

  lemma {:induction false} DrainedAppend(v: Shown, cut: nat, queue: seq<Mutation>, m: Mutation)
    requires Ordered(queue + [m], m.generation) && cut < m.generation
    ensures Drained(v, cut, queue + [m]) == Mutate(Drained(v, cut, queue), m, 0)
    decreases |queue|
  {
    hide Mutate;
    if queue == [] {
      assert queue + [m] == [m];
      assert Drained(Mutate(v, m, 0), m.generation, [m][1..]) == Mutate(v, m, 0);
    } else {
      var first := queue[0];
      assert (queue + [m])[1..] == queue[1..] + [m];
      assert first.generation < m.generation by { assert (queue + [m])[0] == first && (queue + [m])[|queue|] == m; }
      OrderedTail(queue + [m], m.generation);
      if first.generation <= cut {
        DrainedAppend(v, cut, queue[1..], m);
      } else {
        DrainedAppend(Mutate(v, first, 0), first.generation, queue[1..], m);
      }
    }
  }

  lemma OrderedTail(queue: seq<Mutation>, upTo: nat)
    requires queue != [] && Ordered(queue, upTo)
    ensures Ordered(queue[1..], upTo)
    ensures forall i :: 0 <= i < |queue[1..]| ==> queue[0].generation < queue[1..][i].generation
  {
  }

  /** A publication's mutation does to an agreeing view what the publication does to the authority. */
  lemma MutationFollows(v: Shown, a: Authority, p: Publication)
    requires Agrees(v, a)
    ensures var m := MutationFor(a, p);
            Agrees(if m.Some? then Mutate(v, m.value, 0) else v, NextAuthority(a, p))
  {
    match p
    case Keys(keys, buttons) => MutateIsTimeless(v, KeyButton(a.generation + 1, keys, buttons), 0);
    case Gamepads(gamepads, at) =>
      PadTransitionsReach(v.dynamic, PressedPads(gamepads), at);
      FoldChangingIsFold(v.dynamic, PadTransitions(a.pads, PressedPads(gamepads), at));
      QuietWhenEqual(v.dynamic, {}, {}, PressedPads(gamepads), at);
      hide PadTransitions, PressedPads, Fold;
    case Session(session) =>
  }

  // ----- Every step keeps the invariant

  lemma OrderedAppend(queue: seq<Mutation>, upTo: nat, m: Mutation)
    requires Ordered(queue, upTo) && upTo < m.generation
    ensures Ordered(queue + [m], m.generation)
  {
  }

  lemma PublishKeeps(s: System, p: Publication)
    requires Inv(s) && s.unsent.None?
    ensures Inv(Step(s, Publish(p)))
  {
    var s' := Step(s, Publish(p));
    assert Coming(s) == s.queue;
    var m := MutationFor(s.authority, p);
    var settled := Drained(s.view, s.cut, s.queue);
    if Agrees(settled, s.authority) {
      MutationFollows(settled, s.authority, p);
    }
    if m.Some? {
      assert m.value.generation == s'.authority.generation;
      OrderedAppend(s.queue, s.authority.generation, m.value);
      DrainedAppend(s.view, s.cut, s.queue, m.value);
      assert Coming(s') == s.queue + [m.value];
    } else {
      assert Coming(s') == s.queue;
    }
    hide MutationFor, Mutate, Drained, PressedPads, PadTransitions;
  }

  lemma SendKeeps(s: System)
    requires Inv(s) && s.unsent.Some?
    ensures Inv(Step(s, Send))
  {
    var s' := Step(s, Send);
    assert Coming(s) == s.queue + [s.unsent.value];
    hide Drained, Agrees;
    if s.turn != Stopped && |s.queue| < s.capacity {
      assert Coming(s') == Coming(s);
    } else {
      assert Coming(s') == s.queue;
      assert forall i :: 0 <= i < |s.queue| ==> s.queue[i] == Coming(s)[i];
      assert s.queue != [] ==> Coming(s)[0].generation < Coming(s)[|s.queue|].generation;
    }
  }

  lemma ComingTail(s: System)
    requires s.queue != [] && Ordered(Coming(s), s.authority.generation)
    ensures var s' := s.(queue := s.queue[1..]);
            && Coming(s') == Coming(s)[1..] && Coming(s)[0] == s.queue[0]
            && Ordered(Coming(s'), s.authority.generation)
            && (s.queue[0].generation == s.authority.generation ==> Coming(s') == [])
  {
    var s' := s.(queue := s.queue[1..]);
    assert Coming(s') == Coming(s)[1..];
    OrderedTail(Coming(s), s.authority.generation);
    if Coming(s') != [] {
      assert Coming(s)[0].generation < Coming(s')[0].generation;
    }
  }

  lemma TakeKeeps(s: System, at: nat)
    requires Inv(s) && s.turn.Receiving?
    ensures Inv(TakeStep(s, at))
  {
    if s.queue != [] {
      ComingTail(s);
      MutateIsTimeless(s.view, s.queue[0], at);
      var s' := TakeStep(s, at);
      assert Coming(s') == Coming(s)[1..];
      hide Mutate, Agrees;
      assert Coming(s') == [] ==> Drained(s'.view, s'.cut, []) == s'.view;
    }
  }

  lemma CheckKeeps(s: System)
    requires Inv(s)
    ensures Inv(Step(s, Check))
  {
    hide Agrees;
    if s.cut == s.authority.generation {
      DrainedSkipsCovered(s.view, s.cut, Coming(s));
    }
  }

  lemma ProjectKeeps(s: System, pointer: Option<Pointer>, diagnostics: Feedback)
    requires Inv(s)
    ensures Inv(Step(s, Project(pointer, diagnostics)))
  {
    if s.turn == Rebuilding || s.turn == Reconciling {
      var s' := Step(s, Project(pointer, diagnostics));
      assert Coming(s') == Coming(s);
      DrainedSkipsCovered(s'.view, s'.cut, Coming(s'));
    }
  }

  /** What the drained view shows of the pressed controls depends only on what the view shows of them. */
  lemma {:induction false} DrainedShows(v: Shown, w: Shown, cut: nat, queue: seq<Mutation>, a: Authority)
    requires w.control == v.control && w.dynamic.keys == v.dynamic.keys && w.dynamic.buttons == v.dynamic.buttons
    requires w.dynamic.padButtons == v.dynamic.padButtons
    ensures Agrees(Drained(v, cut, queue), a) <==> Agrees(Drained(w, cut, queue), a)
    decreases |queue|
  {
    if queue != [] {
      if queue[0].generation <= cut {
        DrainedShows(v, w, cut, queue[1..], a);
      } else {
        var v', w' := Mutate(v, queue[0], 0), Mutate(w, queue[0], 0);
        MutateShows(v, w, queue[0]);
        hide Mutate;
        DrainedShows(v', w', queue[0].generation, queue[1..], a);
      }
    }
  }

  lemma MutateShows(v: Shown, w: Shown, m: Mutation)
    requires w.control == v.control && w.dynamic.keys == v.dynamic.keys && w.dynamic.buttons == v.dynamic.buttons
    requires w.dynamic.padButtons == v.dynamic.padButtons
    ensures var v', w' := Mutate(v, m, 0), Mutate(w, m, 0);
            w'.control == v'.control && w'.dynamic.keys == v'.dynamic.keys && w'.dynamic.buttons == v'.dynamic.buttons
            && w'.dynamic.padButtons == v'.dynamic.padButtons
  {
    MutateIsTimeless(v, m, 0);
    MutateIsTimeless(w, m, 0);
    if m.GamepadButtons? {
      FoldShows(v.dynamic, w.dynamic, m.transitions);
    }
  }

  lemma {:induction false} FoldShows(d: Dynamic, e: Dynamic, ts: seq<Transition>)
    requires e.keys == d.keys && e.buttons == d.buttons && e.padButtons == d.padButtons
    ensures var d', e' := FoldChanging(d, ts), FoldChanging(e, ts);
            e'.keys == d'.keys && e'.buttons == d'.buttons && e'.padButtons == d'.padButtons
  {
    if ts != [] {
      FoldShows(d, e, ts[..|ts| - 1]);
    }
  }

  lemma AmbientKeeps(s: System, pointer: Option<Pointer>, gamepads: seq<Gamepad>, diagnostics: Feedback)
    requires Inv(s)
    ensures Inv(Step(s, Ambient(pointer, gamepads, diagnostics)))
  {
    var s' := Step(s, Ambient(pointer, gamepads, diagnostics));
    DrainedShows(s.view, s'.view, s.cut, Coming(s), s.authority);
    assert Coming(s') == Coming(s);
    assert Agrees(s.view, s.authority) ==> Agrees(s'.view, s.authority);
    hide Drained, Agrees;
  }

  lemma StepKeepsInv(s: System, a: Action)
    requires Inv(s)
    ensures Inv(Step(s, a))
  {
    match a
    case Publish(p) => if s.unsent.None? { PublishKeeps(s, p); }
    case Send => if s.unsent.Some? { SendKeeps(s); }
    case Ambient(pointer, gamepads, diagnostics) => AmbientKeeps(s, pointer, gamepads, diagnostics);
    case Take(at) => if s.turn.Receiving? { TakeKeeps(s, at); }
    case TakeFails(_) => TakeFailsKeeps(s, a);
    case Check => CheckKeeps(s);
    case Project(pointer, diagnostics) => ProjectKeeps(s, pointer, diagnostics);
    case _ => TurnKeeps(s, a);
  }

  lemma TakeFailsKeeps(s: System, a: Action)
    requires Inv(s) && a.TakeFails?
    ensures Inv(Step(s, a))
  {
    hide Agrees, Drained;
    if s.turn == Receiving && s.queue != [] {
      ComingTail(s);
      assert Coming(Step(s, a)) == Coming(s)[1..];
    }
  }

  lemma TurnKeeps(s: System, a: Action)
    requires Inv(s)
    requires a.Poll? || a.EmissionFails? || a.TakeDirty? || a.StartReconcile? || a.ProjectionFails?
    ensures Inv(Step(s, a))
  {
    hide Agrees, Drained;
    assert Coming(Step(s, a)) == Coming(s);
  }

  // ----- Main results

  /** A publisher's channel with an aggregator overlaid with its first projection. */
  function Started(capacity: nat, dynamic: Dynamic): System {
    var a := Authority(0, {}, {}, {}, [], LocalReady);
    System(a, None, [], capacity, false, Overlay(Shown(dynamic, None), a, None, dynamic.diagnostics), 0, Idle)
  }

  function Run(capacity: nat, dynamic: Dynamic, actions: seq<Action>): (s: System)
    requires capacity > 0
    ensures Inv(s)
  {
    if actions == [] then Started(capacity, dynamic)
    else
      var before := Run(capacity, dynamic, actions[..|actions| - 1]);
      StepKeepsInv(before, actions[|actions| - 1]);
      Step(before, actions[|actions| - 1])
  }

  /**
   Whenever the flag is clear and no rebuild is under way, the mutations still to come, those at or below the cut
   left out, lead the view to the publisher's projection; with none to come the view shows it already.
   */
  lemma PendingMutationsLeadToAuthority(capacity: nat, dynamic: Dynamic, actions: seq<Action>)
    requires capacity > 0
    ensures var s := Run(capacity, dynamic, actions);
            !s.dirty && (s.turn.Idle? || s.turn.Receiving? || s.turn.Reconciling?) ==>
              && Agrees(Drained(s.view, s.cut, Coming(s)), s.authority)
              && (Coming(s) == [] ==> Agrees(s.view, s.authority))
  {
    hide Run, Agrees;
  }

  /** A set flag is never lost: its test, taken at any time, ends with an agreeing view or with a rebuild. */
  lemma DirtyIsRepaired(s: System, pointer: Option<Pointer>, diagnostics: Feedback)
    requires Inv(s) && s.turn.Idle? && s.dirty
    ensures var checked := Step(Step(s, TakeDirty), Check);
            !checked.dirty && if checked.turn.Rebuilding? then
                                Agrees(Step(checked, Project(pointer, diagnostics)).view, s.authority)
                              else checked.turn.Idle? && Agrees(checked.view, s.authority)
  {
    hide Drained, Ordered, Coming, Mutate;
    StepKeepsInv(s, TakeDirty);
    StepKeepsInv(Step(s, TakeDirty), Check);
    StepKeepsInv(Step(Step(s, TakeDirty), Check), Project(pointer, diagnostics));
  }

  /**
   A failed emission, whether of a mutation or of anything else, is made good by a rebuild, whatever part of it the view
   shows already; without a projection to rebuild from the actor stops, for good, and what is sent to it marks the flag.
   */
  lemma FailuresRebuildOrStop(s: System, partial: Shown, pointer: Option<Pointer>, diagnostics: Feedback, a: Action)
    requires Inv(s)
    ensures s.turn.Idle? ==>
              var failed := Step(s, EmissionFails);
              var rebuilt := Step(failed, Project(pointer, diagnostics));
              failed == s.(turn := Rebuilding) && rebuilt.turn.Idle? && Agrees(rebuilt.view, s.authority)
              && rebuilt.cut == s.authority.generation
    ensures s.turn.Receiving? && s.queue != [] ==>
              var failed := Step(s, TakeFails(partial));
              var rebuilt := Step(failed, Project(pointer, diagnostics));
              failed == s.(turn := Rebuilding, queue := s.queue[1..], view := partial)
              && rebuilt.turn.Idle? && Agrees(rebuilt.view, s.authority) && rebuilt.cut == s.authority.generation
    ensures s.turn.Rebuilding? || s.turn.Reconciling? ==> Step(s, ProjectionFails) == s.(turn := Stopped)
    ensures s.turn.Stopped? ==>
              var s' := Step(s, a);
              s'.turn.Stopped? && s'.view == s.view && s'.queue == s.queue
              && (a.Send? && s.unsent.Some? ==> s'.dirty) && (s.dirty ==> s'.dirty)
  {
    hide Drained, Ordered, Coming, Mutate, NextAuthority, MutationFor;
  }

  /** Taking a mutation without testing the flag first, which the actor's order of branches rules out. */
  function TakeRegardless(s: System, at: nat): System {
    TakeStep(s.(turn := Receiving), at)
  }

  /** With a queue of one: a key report is queued and a session change dropped. */
  lemma SessionIsDropped(dynamic: Dynamic)
    ensures var s0 := Started(1, dynamic);
            var dropped := Step(Step(Step(Step(s0, Publish(Keys({1}, {}))), Send), Publish(Session(Suspended(0)))),
                Send);
            && dropped == s0.(authority := Authority(2, {1}, {}, {}, [], Suspended(0)),
                 queue := [KeyButton(1, {1}, {})], dirty := true)
  {
  }

  lemma TakenRegardless(s: System, m: Mutation)
    requires s.queue == [m] && m.KeyButton? && m.generation > s.cut
    ensures var s' := TakeRegardless(s, 0);
            s'.queue == [] && s'.cut == m.generation && s'.turn == Idle && s'.view.control == s.view.control
            && s' == s.(queue := [], turn := Idle, view := s'.view, cut := m.generation)
  {
    MutateIsTimeless(s.view, m, 0);
    hide Mutate;
  }

  /**
   That order matters: with a queue of one, a dropped session change between two key reports is lost for good
   if the second report is taken before the flag, because the cut has then passed the dropped generation.
   */
  lemma FlagMustBeTestedFirst(dynamic: Dynamic)
    ensures var s0 := Started(1, dynamic);
            var dropped := Step(Step(Step(Step(s0, Publish(Keys({1}, {}))), Send), Publish(Session(Suspended(0)))),
                Send);
            var passed := TakeRegardless(Step(Step(TakeRegardless(dropped, 0), Publish(Keys({}, {}))), Send), 0);
            var checked := Step(Step(passed, TakeDirty), Check);
            checked.turn.Idle? && !checked.dirty && Coming(checked) == [] && !Agrees(checked.view, checked.authority)
  {
    SessionIsDropped(dynamic);
    var s0 := Started(1, dynamic);
    var dropped := s0.(authority := Authority(2, {1}, {}, {}, [], Suspended(0)), queue := [KeyButton(1, {1}, {})],
        dirty := true);
    TakenRegardless(dropped, KeyButton(1, {1}, {}));
    hide TakeRegardless;
    var taken := TakeRegardless(dropped, 0);
    var refilled := Step(Step(taken, Publish(Keys({}, {}))), Send);
    assert refilled == taken.(authority := Authority(3, {}, {}, {}, [], Suspended(0)), queue := [KeyButton(3, {}, {})]);
    TakenRegardless(refilled, KeyButton(3, {}, {}));
  }

  // ----- The publisher as an object

  /** What one publication does when its mutation is queued right away. */
  function Published(s: System, p: Publication): System {
    Step(Step(s, Publish(p)), Send)
  }

  lemma PublishedKeepsInv(s: System, p: Publication)
    requires Inv(s)
    ensures Inv(Published(s, p))
  {
    StepKeepsInv(s, Publish(p));
    StepKeepsInv(Step(s, Publish(p)), Send);
    hide Inv, Step;
  }

  /** The publisher's fields, and in view, cut and turn what the actor makes of them. */
  class InputStatePublisher {
    const capacity: nat
    var authority: Authority
    var queue: seq<Mutation>
    var dirty: bool
    /** The queue is closed once the actor has stopped. */
    var turn: Turn
    ghost var view: Shown
    ghost var cut: nat

    ghost function Model(): System
      reads this
    {
      System(authority, None, queue, capacity, dirty, view, cut, turn)
    }

    constructor (capacity: nat, ghost dynamic: Dynamic)
      requires capacity > 0
      ensures Model() == Started(capacity, dynamic) && Inv(Model())
    {
      this.capacity := capacity;
      authority := Authority(0, {}, {}, {}, [], LocalReady);
      queue, dirty, turn := [], false, Idle;
      view, cut := Started(capacity, dynamic).view, 0;
      new;
      assert Run(capacity, dynamic, []) == Started(capacity, dynamic);
    }

    /** Puts the mutation in the queue, or marks the projection dirty if that is full or closed. */
    method Enqueue(m: Mutation)
      modifies this`queue, this`dirty
      ensures Model() == Step(old(Model()).(unsent := Some(m)), Action.Send)
    {
      if turn != Stopped && |queue| < capacity {
        queue := queue + [m];
      } else {
        dirty := true;
      }
    }

    method PublishDiscrete(keys: set<nat>, buttons: set<MouseButton>)
      requires Inv(Model())
      modifies this`authority, this`queue, this`dirty
      ensures Inv(Model()) && Model() == Published(old(Model()), Keys(keys, buttons))
    {
      PublishedKeepsInv(Model(), Keys(keys, buttons));
      hide Inv, DiscreteChanges, PadTransitions;
      var generation := authority.generation + 1;
      authority := authority.(generation := generation, keys := keys, buttons := buttons);
      Enqueue(KeyButton(generation, keys, buttons));
    }

    method PublishGamepads(gamepads: seq<Gamepad>, at: nat)
      requires Inv(Model())
      modifies this`authority, this`queue, this`dirty
      ensures Inv(Model()) && Model() == Published(old(Model()), Gamepads(gamepads, at))
    {
      PublishedKeepsInv(Model(), Gamepads(gamepads, at));
      hide Inv, DiscreteChanges, PadTransitions, PressedPads;
      var generation := authority.generation + 1;
      var pressed := PressedPads(gamepads);
      var transitions := PadTransitions(authority.pads, pressed, at);
      authority := authority.(generation := generation, pads := pressed, gamepads := gamepads);
      if transitions != [] {
        Enqueue(GamepadButtons(generation, transitions));
      }
    }

    method PublishSession(session: ControlSession)
      requires Inv(Model())
      modifies this`authority, this`queue, this`dirty
      ensures Inv(Model()) && Model() == Published(old(Model()), Session(session))
    {
      PublishedKeepsInv(Model(), Session(session));
      hide Inv, DiscreteChanges, PadTransitions;
      var generation := authority.generation + 1;
      authority := authority.(generation := generation, session := session);
      Enqueue(SessionIs(generation, session));
    }
  }
}
