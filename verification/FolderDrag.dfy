/** Dragging files across screens: an observer that stamps gesture events, and a runner that sends. */
module FolderDrag {
  import opened Common

  const QUEUE: nat := 32
  const THRESHOLD: int := 8

  type Id = nat

  datatype Point = Point(x: int, y: int, epoch: nat, release: nat)

  datatype Event = Begin(x: int, y: int) | Cross(peer: Id, epoch: nat) | Drop(peer: Id, point: Point)

  /** A queued event with the generation it was stamped with; at is its place in the history. */
  datatype Item = Item(generation: nat, event: Event, at: nat)

  datatype Movement = Movement(x: int, y: int, moved: bool)

  datatype Target = Target(peer: Id, epoch: nat, connection: Id)

  /** began, crossed and registered are the places in the history of what the gesture comes from. */
  datatype Gesture = Gesture(
    generation: nat, began: nat, target: Option<Target>, crossed: nat, registered: nat, paths: seq<string>)

  datatype Send = Send(
    generation: nat, target: Target, point: Point, paths: seq<string>,
    began: nat, crossed: nat, registered: nat, dropped: nat)

  /**
   What happened, in order: generation bumps, pointer travel of at least 8 px, stamped events, the connection found
   registered for the crossing at a place, and sends decided with the connection found registered at that time.
   */
  datatype Entry =
    | Bumped
    | Travelled(press: nat, x: int, y: int, toX: int, toY: int)
    | Stamped(generation: nat, event: Event)
    | Registered(crossed: nat, connection: Id)
    | Decided(send: Send, found: Id)

  /** The single actions a callback of the observer consists of. */
  datatype Micro = Bump | Clear | Press(x: int, y: int) | Stamp(event: Event) | Push(item: Item)

  /** Where the runner is with the item it took. */
  datatype Work =
    | Free
    | Taken(item: Item)
    | Beginning(item: Item)
    | Reading(item: Item, candidate: Gesture)
    | Checking(item: Item, candidate: Gesture, files: seq<string>)
    | Cancelling(item: Item, candidate: Gesture, files: seq<string>)
    | Dropping(item: Item, candidate: Gesture)

  /** press is the generation at which the remembered movement started. */
  datatype State = State(
    generation: nat,
    movement: Option<Movement>,
    press: nat,
    program: seq<Micro>,
    queue: seq<Item>,
    work: Work,
    gesture: Option<Gesture>,
    history: seq<Entry>)

  datatype Action =
    | Motion(x: int, y: int)
    | LeftPressed(pointer: Option<(int, int)>)
    | Cancel
    | Entered(peer: Id, epoch: nat)
    | LeftReleasedRemotely(peer: Id, point: Point)
    | Observe
    | Receive
    | Compare
    | DragBegan(ok: bool)
    | FilesRead(files: Option<seq<string>>)
    | CheckCurrent
    | NativeCancelled(ok: bool, connection: Option<Id>)
    | Finish(connection: Option<Id>)

  // ----- The observer

  predicate Far(m: Movement, x: int, y: int) {
    x - m.x >= THRESHOLD || m.x - x >= THRESHOLD || y - m.y >= THRESHOLD || m.y - y >= THRESHOLD
  }

  function Log(s: State, e: Entry): State {
    s.(history := s.history + [e])
  }

  function MotionStep(s: State, x: int, y: int): State {
    match s.movement
    case None => s
    case Some(m) =>
      if Far(m, x, y) then Log(s.(movement := Some(m.(moved := true))), Travelled(s.press, m.x, m.y, x, y)) else s
  }

  function ObserveStep(s: State): State {
    if s.program == [] then s
    else
      var rest := s.(program := s.program[1..]);
      match s.program[0]
      case Bump => Log(rest.(generation := s.generation + 1), Bumped)
      case Clear => rest.(movement := None)
      case Press(x, y) => rest.(movement := Some(Movement(x, y, false)), press := s.generation)
      case Stamp(event) =>
        Log(rest.(program := [Push(Item(s.generation, event, |s.history|))] + rest.program),
            Stamped(s.generation, event))
      case Push(item) =>
        if |s.queue| < QUEUE then rest.(queue := s.queue + [item]) else rest.(program := [Bump] + rest.program)
  }

  // ----- The runner

  predicate ReleaseMatches(g: Gesture, generation: nat, peer: Id, point: Point, connection: Id) {
    g.generation == generation && g.paths != [] && g.target == Some(Target(peer, point.epoch, connection))
  }

  function CompareStep(s: State): State {
    if !s.work.Taken? then s
    else
      var item := s.work.item;
      if item.generation != s.generation then s.(gesture := None, work := Free)
      else match item.event
        case Begin(_, _) => s.(work := Beginning(item))
        case Cross(_, _) =>
          if s.gesture.Some? && s.gesture.value.generation == item.generation && s.gesture.value.target.None? then
            s.(gesture := None, work := Reading(item, s.gesture.value))
          else s.(gesture := None, work := Free)
        case Drop(_, _) =>
          if s.gesture.Some? then s.(gesture := None, work := Dropping(item, s.gesture.value)) else s.(work := Free)
  }

  /** After the native drag was ended: the crossing is bound to the connection registered for its peer. */
  function RegisterStep(s: State, ok: bool, connection: Option<Id>): State {
    if !s.work.Cancelling? || !s.work.item.event.Cross? then s
    else if !ok || connection.None? then s.(work := Free)
    else
      var item := s.work.item;
      var target := Target(item.event.peer, item.event.epoch, connection.value);
      Log(s.(work := Free,
             gesture := Some(s.work.candidate.(paths := s.work.files, crossed := item.at, registered := |s.history|,
                                               target := Some(target)))),
          Registered(item.at, connection.value))
  }

  function FinishStep(s: State, connection: Option<Id>): State {
    if !s.work.Dropping? || !s.work.item.event.Drop? then s
    else
      var item, candidate := s.work.item, s.work.candidate;
      var point := item.event.point;
      if connection.None? || s.generation != item.generation
         || !ReleaseMatches(candidate, item.generation, item.event.peer, point, connection.value) then s.(work := Free)
      else
        Log(s.(work := Free),
            Decided(Send(item.generation, candidate.target.value, point, candidate.paths,
                         candidate.began, candidate.crossed, candidate.registered, item.at), connection.value))
  }

  function Step(s: State, a: Action): State {
    match a
    case Motion(x, y) => if s.program == [] then MotionStep(s, x, y) else s
    case LeftPressed(pointer) =>
      if s.program != [] then s
      else if pointer.Some? then
        s.(program := [Bump, Clear, Press(pointer.value.0, pointer.value.1),
            Stamp(Begin(pointer.value.0, pointer.value.1))])
      else s.(program := [Bump, Clear])
    case Cancel => if s.program == [] then s.(program := [Bump, Clear]) else s
    case Entered(peer, epoch) =>
      if s.program == [] && s.movement.Some? && s.movement.value.moved then s.(program := [Stamp(Cross(peer, epoch))])
          else s
    case LeftReleasedRemotely(peer, point) => if s.program == [] then s.(program := [Stamp(Drop(peer, point))]) else s
    case Observe => ObserveStep(s)
    case Receive => if s.work.Free? && s.queue != [] then s.(work := Taken(s.queue[0]), queue := s.queue[1..]) else s
    case Compare => CompareStep(s)
    case DragBegan(ok) =>
      if s.work.Beginning? then
        s.(work := Free, gesture := if ok then Some(Gesture(s.work.item.generation, s.work.item.at, None, 0, 0, []))
            else None)
      else s
    case FilesRead(files) =>
      if s.work.Reading? then
        s.(work := if files.Some? && files.value != [] then Checking(s.work.item, s.work.candidate, files.value)
            else Free)
      else s
    case CheckCurrent =>
      if s.work.Checking? then
        s.(work := if s.generation != s.work.item.generation then Free
                   else Cancelling(s.work.item, s.work.candidate, s.work.files))
      else s
    case NativeCancelled(ok, connection) => RegisterStep(s, ok, connection)
    case Finish(connection) => FinishStep(s, connection)
  }

  // ----- Invariant

  function Bumps(history: seq<Entry>): nat {
    if history == [] then 0
    else Bumps(history[..|history| - 1]) + if history[|history| - 1].Bumped? then 1 else 0
  }

  predicate IsBegin(h: seq<Entry>, k: nat) {
    k < |h| && h[k].Stamped? && h[k].event.Begin?
  }

  predicate IsStamp(h: seq<Entry>, k: nat) {
    k < |h| && h[k].Stamped?
  }

  /** Generations are counted bumps, and a press is always preceded by one of its own. */
  ghost predicate StampsOk(h: seq<Entry>) {
    && (forall k: nat :: IsStamp(h, k) ==> h[k].generation == Bumps(h[..k]) <= Bumps(h))
    && (forall j: nat, k: nat :: IsStamp(h, j) && IsBegin(h, k) && j < k ==> h[j].generation < h[k].generation)
  }

  function Distance(a: int, b: int): nat {
    if a <= b then b - a else a - b
  }

  predicate FarTravel(e: Entry) {
    e.Travelled? && (Distance(e.x, e.toX) >= 8 || Distance(e.y, e.toY) >= 8)
  }

  /** Entry f shows that the press of generation g moved far enough, after its Begin was stamped. */
  ghost predicate Shows(h: seq<Entry>, f: nat, g: nat) {
    && f < |h| && FarTravel(h[f])
    && (forall b: nat :: IsBegin(h, b) && h[b].generation == g ==>
          b < f && h[f].press == g && h[b].event == Begin(h[f].x, h[f].y))
  }

  /** A crossing is stamped only after the press it belongs to has moved far enough. */
  ghost predicate CrossesOk(h: seq<Entry>) {
    forall c: nat :: IsStamp(h, c) && h[c].event.Cross? ==> exists f: nat :: f < c && Shows(h, f, h[c].generation)
  }

  predicate StampedAt(h: seq<Entry>, item: Item) {
    item.at < |h| && h[item.at] == Stamped(item.generation, item.event)
  }

  function Waiting(s: State): seq<Item> {
    s.queue + if s.program != [] && s.program[0].Push? then [s.program[0].item] else []
  }

  predicate QueueOk(s: State) {
    var items := Waiting(s);
    && (forall i :: 0 <= i < |items| ==> StampedAt(s.history, items[i]))
    && (forall i, j :: 0 <= i < j < |items| ==> items[i].at < items[j].at)
  }

  /** Everything still waiting was stamped after place k. */
  predicate AllAfter(s: State, k: nat) {
    forall i :: 0 <= i < |Waiting(s)| ==> k < Waiting(s)[i].at
  }

  predicate GestureOk(h: seq<Entry>, g: Gesture) {
    && IsBegin(h, g.began) && h[g.began].generation == g.generation
    && (g.target.Some? ==>
          && g.began < g.crossed < |h|
          && h[g.crossed] == Stamped(g.generation, Cross(g.target.value.peer, g.target.value.epoch))
          && g.registered < |h| && h[g.registered] == Registered(g.crossed, g.target.value.connection))
  }

  function Last(g: Gesture): nat {
    if g.target.Some? then g.crossed else g.began
  }

  predicate WorkOk(s: State) {
    match s.work
    case Free => true
    case Taken(item) => StampedAt(s.history, item) && AllAfter(s, item.at)
        && (s.gesture.Some? ==> Last(s.gesture.value) < item.at)
    case Beginning(item) => StampedAt(s.history, item) && AllAfter(s, item.at) && item.event.Begin?
    case Reading(item, candidate) => CandidateOk(s, item, candidate)
    case Checking(item, candidate, files) => CandidateOk(s, item, candidate) && files != []
    case Cancelling(item, candidate, files) => CandidateOk(s, item, candidate) && files != []
    case Dropping(item, candidate) =>
      s.gesture.None? && StampedAt(s.history, item) && AllAfter(s, item.at) && item.event.Drop?
          && GestureOk(s.history, candidate) && Last(candidate) < item.at
  }

  predicate CandidateOk(s: State, item: Item, candidate: Gesture) {
    && s.gesture.None? && StampedAt(s.history, item) && AllAfter(s, item.at) && item.event.Cross?
    && GestureOk(s.history, candidate) && candidate.target.None? && candidate.began < item.at
    && candidate.generation == item.generation
  }

  /** The history place of the Begin that anything the runner or the queue holds could still lead to a send with. */
  predicate BegunAfter(s: State, k: nat) {
    && AllAfter(s, k)
    && (s.gesture.Some? ==> k < s.gesture.value.began)
    && (match s.work
        case Free => true
        case Taken(item) => k < item.at
        case Beginning(item) => k < item.at
        case Reading(item, candidate) => k < candidate.began && k < item.at
        case Checking(item, candidate, _) => k < candidate.began && k < item.at
        case Cancelling(item, candidate, _) => k < candidate.began && k < item.at
        case Dropping(item, candidate) => k < candidate.began && k < item.at)
  }

  /** A send comes from a Begin, a Cross and a Drop of one generation that is still the current one. */
  ghost predicate SendOk(h: seq<Entry>, i: nat, send: Send)
    requires i < |h|
  {
    && send.began < send.crossed < send.dropped < i && send.paths != []
    && IsBegin(h, send.began) && h[send.began].generation == send.generation
    && h[send.crossed] == Stamped(send.generation, Cross(send.target.peer, send.target.epoch))
    && h[send.dropped] == Stamped(send.generation, Drop(send.target.peer, send.point))
    && send.point.epoch == send.target.epoch
    && send.registered < i && h[send.registered] == Registered(send.crossed, send.target.connection)
    && h[i] == Decided(send, send.target.connection)
    && send.generation == Bumps(h[..i])
  }

  predicate IsRegistered(h: seq<Entry>, r: nat) {
    r < |h| && h[r].Registered?
  }

  /** Everything the queue and the runner still have to handle was stamped after place k. */
  predicate HandledAfter(s: State, k: nat) {
    AllAfter(s, k) && (!s.work.Free? ==> k < s.work.item.at)
  }

  /** Each crossing is bound to a connection at most once, and is not handled again. */
  ghost predicate RegistrationsOk(s: State) {
    var h := s.history;
    && (forall r: nat :: IsRegistered(h, r) ==> h[r].crossed < r && HandledAfter(s, h[r].crossed))
    && (forall q: nat, r: nat :: IsRegistered(h, q) && IsRegistered(h, r) && q < r ==> h[q].crossed < h[r].crossed)
  }

  predicate IsSend(h: seq<Entry>, i: nat) {
    i < |h| && h[i].Decided?
  }

  ghost predicate SendsOk(s: State) {
    && (forall i: nat ::
         IsSend(s.history, i) ==> SendOk(s.history, i, s.history[i].send) && BegunAfter(s, s.history[i].send.began))
    && (forall i: nat, j: nat ::
         IsSend(s.history, i) && IsSend(s.history, j) && i < j ==> s.history[i].send.began < s.history[j].send.began)
  }

  /** What the callback under way has established. */
  ghost predicate ProgramOk(s: State) {
    match |s.program|
    case 0 => true
    case 1 =>
      (match s.program[0]
       case Bump => true
       case Clear => true
       case Stamp(Begin(x, y)) => s.movement == Some(Movement(x, y, false)) && s.press == s.generation && Renewed(s)
       case Stamp(Cross(_, _)) => s.movement.Some? && s.movement.value.moved
       case Stamp(Drop(_, _)) => true
       case Push(_) => true
       case Press(_, _) => false)
    case 2 =>
      (s.program == [Bump, Clear])
      || (s.program[0].Press? && s.program[1] == Stamp(Begin(s.program[0].x, s.program[0].y)) && Renewed(s))
    case 3 =>
      s.program[0].Clear? && s.program[1].Press? && s.program[2] == Stamp(Begin(s.program[1].x, s.program[1].y))
          && Renewed(s)
    case 4 =>
      s.program[0].Bump? && s.program[1].Clear? && s.program[2].Press?
      && s.program[3] == Stamp(Begin(s.program[2].x, s.program[2].y))
    case _ => false
  }

  /** Nothing was stamped with the current generation yet. */
  ghost predicate Renewed(s: State) {
    forall k: nat :: IsStamp(s.history, k) ==> s.history[k].generation < s.generation
  }

  /** The remembered movement is that of the last press. */
  ghost predicate MovementOk(s: State) {
    && s.press <= s.generation
    && (forall b: nat :: IsBegin(s.history, b) ==> s.history[b].generation <= s.press)
    && (s.movement.Some? ==>
          && (forall b: nat :: IsBegin(s.history, b) && s.history[b].generation == s.press ==>
                s.history[b].event == Begin(s.movement.value.x, s.movement.value.y))
          && (s.movement.value.moved ==> Shown(s.history, s.press)))
  }

  /** The history shows that the press of generation g moved far enough. */
  ghost predicate Shown(h: seq<Entry>, g: nat) {
    exists f: nat :: Shows(h, f, g)
  }

  ghost predicate ObserverInv(s: State) {
    && s.generation == Bumps(s.history)
    && StampsOk(s.history) && CrossesOk(s.history) && ProgramOk(s) && MovementOk(s)
  }

  ghost predicate RunnerInv(s: State) {
    && QueueOk(s) && WorkOk(s) && SendsOk(s) && RegistrationsOk(s)
    && (s.gesture.Some? ==> GestureOk(s.history, s.gesture.value) && AllAfter(s, Last(s.gesture.value)))
  }

  ghost predicate Inv(s: State) {
    ObserverInv(s) && RunnerInv(s)
  }

  // ----- One more entry in the history

  lemma AppendEntry(h: seq<Entry>, e: Entry)
    ensures Bumps(h + [e]) == Bumps(h) + if e.Bumped? then 1 else 0
    ensures forall k: nat :: k <= |h| ==> (h + [e])[..k] == h[..k]
  {
    assert (h + [e])[..|h|] == h;
  }

  lemma StampsAppend(h: seq<Entry>, e: Entry)
    requires StampsOk(h)
    requires e.Stamped? ==> e.generation == Bumps(h)
    requires e.Stamped? && e.event.Begin? ==> forall k: nat :: IsStamp(h, k) ==> h[k].generation < e.generation
    ensures StampsOk(h + [e])
  {
    AppendEntry(h, e);
    var h' := h + [e];
    hide Bumps;
    forall k: nat | IsStamp(h', k) ensures h'[k].generation == Bumps(h'[..k]) <= Bumps(h') {
      if k < |h| {
        assert IsStamp(h, k);
      }
    }
    forall j: nat, k: nat | IsStamp(h', j) && IsBegin(h', k) && j < k ensures h'[j].generation < h'[k].generation {
      assert IsStamp(h, j);
      if k < |h| {
        assert IsBegin(h, k);
      }
    }
  }

  lemma ShowsAppend(h: seq<Entry>, e: Entry, f: nat, g: nat)
    requires Shows(h, f, g) && !(e.Stamped? && e.event.Begin? && e.generation == g)
    ensures Shows(h + [e], f, g)
  {
    var h' := h + [e];
    forall b: nat | IsBegin(h', b) && h'[b].generation == g
      ensures b < f && h'[f].press == g && h'[b].event == Begin(h'[f].x, h'[f].y)
    {
      assert IsBegin(h, b);
    }
  }

  lemma CrossesAppend(h: seq<Entry>, e: Entry)
    requires CrossesOk(h)
    requires e.Stamped? && e.event.Begin? ==> forall k: nat :: IsStamp(h, k) ==> h[k].generation < e.generation
    requires e.Stamped? && e.event.Cross? ==> Shown(h, e.generation)
    ensures CrossesOk(h + [e])
  {
    var h' := h + [e];
    forall c: nat | IsStamp(h', c) && h'[c].event.Cross? ensures exists f: nat ::
        f < c && Shows(h', f, h'[c].generation) {
      if c < |h| {
        assert IsStamp(h, c);
        var f: nat :| f < c && Shows(h, f, h[c].generation);
        ShowsAppend(h, e, f, h[c].generation);
      } else {
        var f: nat :| Shows(h, f, e.generation);
        ShowsAppend(h, e, f, e.generation);
      }
    }
  }

  lemma SendAppend(h: seq<Entry>, e: Entry, i: nat, send: Send)
    requires i < |h| && SendOk(h, i, send)
    ensures SendOk(h + [e], i, send)
  {
    AppendEntry(h, e);
    hide Bumps;
  }

  /** The parts of the invariant that speak of the history only, after one more entry. */
  lemma HistoryAppend(h: seq<Entry>, e: Entry)
    requires StampsOk(h) && CrossesOk(h)
    requires e.Stamped? ==> e.generation == Bumps(h)
    requires e.Stamped? && e.event.Begin? ==> forall k: nat :: IsStamp(h, k) ==> h[k].generation < e.generation
    requires e.Stamped? && e.event.Cross? ==> Shown(h, e.generation)
    ensures StampsOk(h + [e]) && CrossesOk(h + [e])
    ensures Bumps(h + [e]) == Bumps(h) + if e.Bumped? then 1 else 0
  {
    AppendEntry(h, e);
    StampsAppend(h, e);
    CrossesAppend(h, e);
  }

  /** What the runner holds does not notice entries that the observer adds. */
  lemma RunnerAppend(s: State, s': State, e: Entry)
    requires RunnerInv(s) && !e.Decided? && !e.Registered?
    requires s'.history == s.history + [e] && s'.queue == s.queue && s'.work == s.work && s'.gesture == s.gesture
    requires Waiting(s') == Waiting(s)
             || (e.Stamped? && Waiting(s') == Waiting(s) + [Item(e.generation, e.event, |s.history|)])
    ensures RunnerInv(s')
  {
    hide SendsOk, RegistrationsOk;
    forall k: nat | AllAfter(s, k) && k < |s.history| ensures AllAfter(s', k) {
    }
    RegistrationsAppend(s, s', e);
    SendsUnchanged(s, s', e);
  }

  /** An entry that is no send leaves the sends as they are. */
  lemma SendsUnchanged(s: State, s': State, e: Entry)
    requires SendsOk(s) && !e.Decided? && s'.history == s.history + [e]
    requires forall k: nat :: BegunAfter(s, k) && k < |s.history| ==> BegunAfter(s', k)
    ensures SendsOk(s')
  {
    hide BegunAfter;
    forall i: nat | IsSend(s'.history, i)
      ensures SendOk(s'.history, i, s'.history[i].send) && BegunAfter(s', s'.history[i].send.began)
    {
      assert IsSend(s.history, i);
      SendAppend(s.history, e, i, s.history[i].send);
    }
    hide SendOk;
    forall i: nat, j: nat | IsSend(s'.history, i) && IsSend(s'.history, j) && i < j
      ensures s'.history[i].send.began < s'.history[j].send.began
    {
      assert IsSend(s.history, i) && IsSend(s.history, j);
    }
  }

  lemma RegistrationsAppend(s: State, s': State, e: Entry)
    requires RegistrationsOk(s) && s'.history == s.history + [e]
    requires forall k: nat :: HandledAfter(s, k) && k < |s.history| ==> HandledAfter(s', k)
    requires e.Registered? ==> e.crossed < |s.history| && HandledAfter(s', e.crossed)
                               && forall k: nat :: HandledAfter(s, k) ==> k < e.crossed
    ensures RegistrationsOk(s')
  {
    hide HandledAfter;
    var h, h' := s.history, s'.history;
    forall r: nat | IsRegistered(h', r) ensures h'[r].crossed < r && HandledAfter(s', h'[r].crossed) {
      assert r < |h| ==> IsRegistered(h, r);
    }
    forall q: nat, r: nat | IsRegistered(h', q) && IsRegistered(h', r) && q < r ensures h'[q].crossed < h'[r].crossed {
      assert IsRegistered(h, q) && (r < |h| ==> IsRegistered(h, r));
    }
  }

  lemma RegistrationsStay(s: State, s': State)
    requires RegistrationsOk(s) && s'.history == s.history
    requires forall k: nat :: HandledAfter(s, k) ==> HandledAfter(s', k)
    ensures RegistrationsOk(s')
  {
    hide HandledAfter;
  }

  /** Steps that touch neither the history nor anything the runner holds. */
  lemma RunnerUntouched(s: State, s': State)
    requires RunnerInv(s)
    requires s'.history == s.history && s'.work == s.work && s'.gesture == s.gesture
    requires Waiting(s') == Waiting(s) || (Waiting(s) != [] && Waiting(s') == Waiting(s)[..|Waiting(s)| - 1])
    ensures RunnerInv(s')
  {
    forall k: nat | AllAfter(s, k) ensures AllAfter(s', k) {
    }
    RegistrationsStay(s, s');
  }

  lemma ObserverUntouched(s: State, s': State)
    requires ObserverInv(s)
    requires s'.history == s.history && s'.program == s.program && s'.movement == s.movement
    requires s'.press == s.press && s'.generation == s.generation
    ensures ObserverInv(s')
  {
    hide StampsOk, CrossesOk, Bumps, Shown;
  }

  // ----- The observer's steps

  lemma MovementAppend(s: State, s': State, e: Entry)
    requires MovementOk(s) && s'.history == s.history + [e] && s'.movement == s.movement && s'.press == s.press
    requires s.generation <= s'.generation
    requires e.Stamped? && e.event.Begin? ==>
               e.generation == s.press && s.movement == Some(Movement(e.event.x, e.event.y, false))
    ensures MovementOk(s')
  {
    forall b: nat | IsBegin(s'.history, b)
      ensures s'.history[b].generation <= s.press
      ensures s.movement.Some? && s'.history[b].generation == s.press ==>
                s'.history[b].event == Begin(s.movement.value.x, s.movement.value.y)
    {
      assert b < |s.history| ==> IsBegin(s.history, b);
    }
    if s.movement.Some? && s.movement.value.moved {
      var f: nat :| Shows(s.history, f, s.press);
      ShowsAppend(s.history, e, f, s.press);
    }
  }

  /** A press counts as moved once the pointer is 8 px away from it in x or in y, and from then on. */
  lemma MovesExactlyWhen(s: State, x: int, y: int)
    ensures var s' := MotionStep(s, x, y);
            && s' == s.(movement := s'.movement, history := s'.history) && s.history <= s'.history
            && (s.movement.None? ==> s' == s)
            && (s.movement.Some? ==>
                  var m := s.movement.value;
                  && s'.movement.Some? && s'.movement.value.x == m.x && s'.movement.value.y == m.y
                  && (s'.movement.value.moved <==> m.moved || Distance(m.x, x) >= 8 || Distance(m.y, y) >= 8))
  {
  }

  lemma TravelShows(s: State, x: int, y: int)
    requires MovementOk(s) && s.movement.Some? && Far(s.movement.value, x, y)
    ensures var m := s.movement.value;
            Shows(s.history + [Travelled(s.press, m.x, m.y, x, y)], |s.history|, s.press)
  {
    var m := s.movement.value;
    var h' := s.history + [Travelled(s.press, m.x, m.y, x, y)];
    forall b: nat | IsBegin(h', b) && h'[b].generation == s.press
      ensures b < |s.history| && h'[b].event == Begin(m.x, m.y)
    {
      assert IsBegin(s.history, b);
    }
  }

  lemma TravelKeepsMovement(s: State, x: int, y: int)
    requires MovementOk(s) && s.movement.Some? && Far(s.movement.value, x, y)
    ensures MovementOk(MotionStep(s, x, y))
  {
    var m := s.movement.value;
    var s' := MotionStep(s, x, y);
    TravelShows(s, x, y);
    assert Shown(s'.history, s.press);
    MovementAppend(s, s'.(movement := s.movement), Travelled(s.press, m.x, m.y, x, y));
    hide Shown;
  }

  lemma MotionKeeps(s: State, x: int, y: int)
    requires Inv(s) && s.program == []
    ensures Inv(MotionStep(s, x, y))
  {
    hide RunnerInv, StampsOk, CrossesOk, MovementOk, Bumps;
    if s.movement.Some? && Far(s.movement.value, x, y) {
      var m := s.movement.value;
      var e := Travelled(s.press, m.x, m.y, x, y);
      var s' := MotionStep(s, x, y);
      assert s' == s.(movement := s'.movement, history := s.history + [e]);
      HistoryAppend(s.history, e);
      RunnerAppend(s, s', e);
      TravelKeepsMovement(s, x, y);
    }
  }

  lemma BumpKeeps(s: State)
    requires Inv(s) && s.program != [] && s.program[0].Bump?
    ensures Inv(ObserveStep(s))
  {
    hide RunnerInv, CrossesOk, Bumps, MovementOk;
    var s' := ObserveStep(s);
    HistoryAppend(s.history, Bumped);
    RunnerAppend(s, s', Bumped);
    forall k: nat | IsStamp(s'.history, k) ensures s'.history[k].generation < s'.generation {
      assert IsStamp(s.history, k);
    }
    MovementAppend(s, s', Bumped);
    hide StampsOk;
  }

  lemma QuietMicroKeeps(s: State)
    requires Inv(s) && s.program != [] && (s.program[0].Clear? || s.program[0].Press?)
    ensures Inv(ObserveStep(s))
  {
    var s' := ObserveStep(s);
    RunnerUntouched(s, s');
    hide RunnerInv, StampsOk, CrossesOk, Bumps, Shown;
    if s.program[0].Press? {
      forall b: nat | IsBegin(s.history, b) ensures s.history[b].generation < s.generation {
        assert IsStamp(s.history, b);
      }
    }
  }

  lemma PushKeeps(s: State)
    requires Inv(s) && s.program != [] && s.program[0].Push?
    ensures Inv(ObserveStep(s))
  {
    var s' := ObserveStep(s);
    assert |s.program| == 1;
    assert Waiting(s) == s.queue + [s.program[0].item];
    assert Waiting(s') == if |s.queue| < QUEUE then Waiting(s) else Waiting(s)[..|Waiting(s)| - 1];
    RunnerUntouched(s, s');
    hide RunnerInv, StampsOk, CrossesOk, Bumps, Shown;
  }

  lemma CrossShows(s: State)
    requires MovementOk(s) && Shown(s.history, s.press)
    ensures Shown(s.history, s.generation)
  {
    var f: nat :| Shows(s.history, f, s.press);
    assert Shows(s.history, f, s.generation) by {
      forall b: nat | IsBegin(s.history, b) && s.history[b].generation == s.generation ensures s.generation == s.press {
      }
    }
  }

  lemma StampObserved(s: State)
    requires ObserverInv(s) && s.program != [] && s.program[0].Stamp?
    ensures ObserverInv(ObserveStep(s))
  {
    assert |s.program| == 1;
    var event := s.program[0].event;
    StampHistory(s, event);
    var s' := ObserveStep(s);
    assert s' == s.(program := s'.program, history := s.history + [Stamped(s.generation, event)]);
    assert |s'.program| == 1 && s'.program[0].Push?;
    hide ProgramOk, StampsOk, CrossesOk, Bumps, Shown, MovementOk;
    MovementAppend(s, s', Stamped(s.generation, event));
    assert ProgramOk(s') by { OnlyPush(s'); }
  }

  lemma OnlyPush(s: State)
    requires |s.program| == 1 && s.program[0].Push?
    ensures ProgramOk(s)
  {
  }

  lemma StampHistory(s: State, event: Event)
    requires ObserverInv(s) && s.program == [Stamp(event)]
    ensures var h := s.history + [Stamped(s.generation, event)];
            StampsOk(h) && CrossesOk(h) && Bumps(h) == Bumps(s.history)
    ensures event.Begin? ==> s.generation == s.press && s.movement == Some(Movement(event.x, event.y, false))
  {
    if event.Cross? {
      CrossShows(s);
    }
    hide MovementOk, StampsOk, CrossesOk, Bumps, Shown;
    HistoryAppend(s.history, Stamped(s.generation, event));
  }

  lemma StampKeeps(s: State)
    requires Inv(s) && s.program != [] && s.program[0].Stamp?
    ensures Inv(ObserveStep(s))
  {
    var s' := ObserveStep(s);
    StampObserved(s);
    assert |s.program| == 1;
    assert Waiting(s') == Waiting(s) + [Item(s.generation, s.program[0].event, |s.history|)];
    hide ObserverInv;
    RunnerAppend(s, s', Stamped(s.generation, s.program[0].event));
  }

  lemma ObserveKeeps(s: State)
    requires Inv(s)
    ensures Inv(ObserveStep(s))
  {
    if s.program != [] {
      if s.program[0].Bump? {
        BumpKeeps(s);
      } else if s.program[0].Push? {
        PushKeeps(s);
      } else if s.program[0].Stamp? {
        StampKeeps(s);
      } else {
        QuietMicroKeeps(s);
      }
    }
  }

  /** A callback begins. */
  lemma CallbackKeeps(s: State, a: Action)
    requires Inv(s) && (a.LeftPressed? || a.Cancel? || a.Entered? || a.LeftReleasedRemotely?)
    ensures Inv(Step(s, a))
  {
    RunnerUntouched(s, Step(s, a));
    hide RunnerInv, StampsOk, CrossesOk, Bumps, Shown;
  }

  // ----- The runner's steps

  lemma ReceiveKeeps(s: State)
    requires Inv(s) && s.work.Free? && s.queue != []
    ensures Inv(Step(s, Receive))
  {
    var s' := Step(s, Receive);
    ObserverUntouched(s, s');
    hide ObserverInv;
    assert Waiting(s) == [s.queue[0]] + Waiting(s');
    forall i | 0 <= i < |Waiting(s')| ensures Waiting(s')[i] == Waiting(s)[i + 1] {
    }
    assert Waiting(s)[0] == s.queue[0];
    forall k: nat | AllAfter(s, k) ensures AllAfter(s', k) && k < s.queue[0].at {
    }
    assert AllAfter(s', s.queue[0].at);
    SendsStay(s, s');
    RegistrationsStay(s, s');
  }

  /** Sends stay apart from what is held while nothing older than before is held. */
  lemma SendsStay(s: State, s': State)
    requires SendsOk(s) && s'.history == s.history
    requires forall k: nat :: BegunAfter(s, k) ==> BegunAfter(s', k)
    ensures SendsOk(s')
  {
    hide SendOk;
  }

  lemma CompareKeeps(s: State)
    requires Inv(s)
    ensures Inv(CompareStep(s))
  {
    hide ObserverInv, SendsOk, RegistrationsOk;
    var s' := CompareStep(s);
    ObserverUntouched(s, s');
    assert Waiting(s') == Waiting(s);
    assert forall k: nat :: AllAfter(s, k) <==> AllAfter(s', k);
    SendsStay(s, s');
    RegistrationsStay(s, s');
  }

  lemma CrossingKeeps(s: State, a: Action)
    requires Inv(s) && (a.DragBegan? || a.FilesRead? || a.CheckCurrent? || a.NativeCancelled?)
    requires Step(s, a).history == s.history
    ensures Inv(Step(s, a))
  {
    hide ObserverInv, SendsOk, RegistrationsOk;
    var s' := Step(s, a);
    ObserverUntouched(s, s');
    assert Waiting(s') == Waiting(s);
    assert forall k: nat :: AllAfter(s, k) <==> AllAfter(s', k);
    SendsStay(s, s');
    RegistrationsStay(s, s');
  }

  lemma FinishKeeps(s: State, connection: Option<Id>)
    requires Inv(s)
    ensures Inv(FinishStep(s, connection))
  {
    var s' := FinishStep(s, connection);
    assert Waiting(s') == Waiting(s);
    assert forall k: nat :: AllAfter(s, k) <==> AllAfter(s', k);
    if s'.history == s.history {
      ObserverUntouched(s, s');
      SendsStay(s, s');
      RegistrationsStay(s, s');
    } else {
      SendKeeps(s, connection);
    }
  }

  /** The observer does not notice entries that the runner adds. */
  lemma RunnerObserved(s: State, s': State, e: Entry)
    requires ObserverInv(s) && (e.Decided? || e.Registered?) && s'.history == s.history + [e]
    requires s'.program == s.program && s'.movement == s.movement && s'.press == s.press
             && s'.generation == s.generation
    ensures ObserverInv(s')
  {
    HistoryAppend(s.history, e);
    MovementAppend(s, s', e);
    SameProgram(s, s', e);
    hide MovementOk, StampsOk, CrossesOk, Bumps, ProgramOk;
  }

  lemma SameProgram(s: State, s': State, e: Entry)
    requires ProgramOk(s) && !e.Stamped? && s'.history == s.history + [e]
    requires s'.program == s.program && s'.movement == s.movement && s'.press == s.press
             && s'.generation == s.generation
    ensures ProgramOk(s')
  {
    assert forall k: nat :: IsStamp(s'.history, k) ==> IsStamp(s.history, k) && s'.history[k] == s.history[k];
  }

  /** A decided send changes the history and frees the runner, nothing else. */
  lemma SendCases(s: State, connection: Option<Id>)
    requires FinishStep(s, connection).history != s.history
    ensures s.work.Dropping?
    ensures var s' := FinishStep(s, connection);
            && |s'.history| == |s.history| + 1 && s'.history[|s.history|].Decided?
            && s' == s.(work := Free, history := s.history + [s'.history[|s.history|]])
            && s'.history[|s.history|].send.began == s.work.candidate.began
  {
  }

  lemma QueueAppend(s: State, s': State, e: Entry)
    requires QueueOk(s) && s'.history == s.history + [e] && s'.queue == s.queue && s'.program == s.program
    ensures QueueOk(s') && forall k: nat :: AllAfter(s, k) <==> AllAfter(s', k)
  {
    assert Waiting(s') == Waiting(s);
  }

  lemma SendKeeps(s: State, connection: Option<Id>)
    requires Inv(s) && FinishStep(s, connection).history != s.history
    ensures Inv(FinishStep(s, connection))
  {
    SendCases(s, connection);
    var s' := FinishStep(s, connection);
    var e := s'.history[|s.history|];
    SendsAppend(s, connection);
    QueueAppend(s, s', e);
    RegistrationsAppend(s, s', e);
    hide FinishStep, SendsOk, QueueOk, RegistrationsOk;
    RunnerObserved(s, s', e);
    hide ObserverInv;
  }

  lemma FreedBegun(s: State, s': State, k: nat)
    requires BegunAfter(s, k) && s'.work.Free? && s'.gesture == s.gesture && AllAfter(s', k)
    ensures BegunAfter(s', k)
  {
  }

  lemma BegunBefore(s: State, k: nat)
    requires BegunAfter(s, k) && s.work.Dropping?
    ensures k < s.work.candidate.began && AllAfter(s, k)
  {
  }

  lemma SendsAppend(s: State, connection: Option<Id>)
    requires Inv(s) && FinishStep(s, connection).history != s.history
    ensures SendsOk(FinishStep(s, connection))
  {
    hide ObserverInv, RegistrationsOk;
    SendCases(s, connection);
    var s' := FinishStep(s, connection);
    var e := s'.history[|s.history|];
    NewSendOk(s, connection);
    QueueAppend(s, s', e);
    hide SendOk, QueueOk, FinishStep, GestureOk, StampedAt, WorkOk, BegunAfter, AllAfter;
    forall i: nat | IsSend(s'.history, i) && i < |s.history|
      ensures SendOk(s'.history, i, s'.history[i].send) && BegunAfter(s', s'.history[i].send.began)
      ensures s'.history[i].send.began < e.send.began
    {
      assert IsSend(s.history, i);
      SendAppend(s.history, e, i, s.history[i].send);
      BegunBefore(s, s.history[i].send.began);
      FreedBegun(s, s', s.history[i].send.began);
    }
    forall i: nat, j: nat | IsSend(s'.history, i) && IsSend(s'.history, j) && i < j
      ensures s'.history[i].send.began < s'.history[j].send.began
    {
      if j < |s.history| {
        assert IsSend(s.history, i) && IsSend(s.history, j);
      }
    }
  }

  lemma NewSendOk(s: State, connection: Option<Id>)
    requires Inv(s) && FinishStep(s, connection).history != s.history
    ensures var s' := FinishStep(s, connection);
            var i := |s.history|;
            IsSend(s'.history, i) && SendOk(s'.history, i, s'.history[i].send)
                && BegunAfter(s', s'.history[i].send.began)
  {
    hide StampsOk, CrossesOk, MovementOk, ProgramOk, SendsOk, QueueOk, RegistrationsOk, Bumps;
    var s' := FinishStep(s, connection);
    AppendEntry(s.history, s'.history[|s.history|]);
    assert Waiting(s') == Waiting(s);
  }

  // ----- Binding a crossing to a connection

  lemma RegisterCases(s: State, connection: Id)
    requires s.work.Cancelling? && s.work.item.event.Cross?
    ensures var item, s' := s.work.item, RegisterStep(s, true, Some(connection));
            && s'.gesture.Some? && s'.gesture.value == s.work.candidate.(
                 paths := s.work.files, crossed := item.at, registered := |s.history|,
                 target := Some(Target(item.event.peer, item.event.epoch, connection)))
            && s' == s.(work := Free, gesture := s'.gesture, history := s.history + [Registered(item.at, connection)])
  {
  }

  lemma RegisterKeeps(s: State, connection: Id)
    requires Inv(s) && s.work.Cancelling? && s.work.item.event.Cross?
    ensures Inv(RegisterStep(s, true, Some(connection)))
  {
    hide RegisterStep, ObserverInv, RegistrationsOk, SendsOk, QueueOk;
    RegisterCases(s, connection);
    var s' := RegisterStep(s, true, Some(connection));
    var e := Registered(s.work.item.at, connection);
    RunnerObserved(s, s', e);
    QueueAppend(s, s', e);
    RegistrationsAppend(s, s', e);
    SendsUnchanged(s, s', e);
  }

  lemma StepKeepsInv(s: State, a: Action)
    requires Inv(s)
    ensures Inv(Step(s, a))
  {
    match a
    case Motion(x, y) => if s.program == [] { MotionKeeps(s, x, y); }
    case Observe => ObserveKeeps(s);
    case Receive => if s.work.Free? && s.queue != [] { ReceiveKeeps(s); }
    case Compare => CompareKeeps(s);
    case Finish(connection) => FinishKeeps(s, connection);
    case DragBegan(_) => CrossingKeeps(s, a);
    case FilesRead(_) => CrossingKeeps(s, a);
    case CheckCurrent => CrossingKeeps(s, a);
    case NativeCancelled(ok, connection) =>
      if ok && connection.Some? && s.work.Cancelling? && s.work.item.event.Cross? {
        RegisterKeeps(s, connection.value);
      } else {
        CrossingKeeps(s, a);
      }
    case _ => CallbackKeeps(s, a);
  }

  // ----- Main results

  function Run(actions: seq<Action>): (s: State)
    ensures Inv(s)
  {
    if actions == [] then State(0, None, 0, [], [], Free, None, [])
    else
      var before := Run(actions[..|actions| - 1]);
      StepKeepsInv(before, actions[|actions| - 1]);
      Step(before, actions[|actions| - 1])
  }

  lemma {:induction false} BumpsGrow(h: seq<Entry>, a: nat, b: nat)
    requires a <= b <= |h|
    ensures Bumps(h[..a]) <= Bumps(h[..b])
    ensures Bumps(h[..a]) == Bumps(h[..b]) ==> forall k :: a <= k < b ==> !h[k].Bumped?
    decreases b
  {
    if a < b {
      BumpsGrow(h, a, b - 1);
      assert h[..b][..b - 1] == h[..b - 1];
    }
  }

  /**
   The send at place i of the history belongs to one press that moved, crossed and was released, with nothing in
   between. The connection registered for its crossing, once and for all, is the one found at the decision and sent to.
   */
  ghost predicate OneGesture(h: seq<Entry>, i: nat, send: Send, travelled: nat)
    requires i < |h|
  {
    && h[i] == Decided(send, send.target.connection)
    && send.registered < i && h[send.registered] == Registered(send.crossed, send.target.connection)
    && (forall r: nat :: IsRegistered(h, r) && h[r].crossed == send.crossed ==> r == send.registered)
    && send.began < travelled < send.crossed < send.dropped < i && send.paths != []
    && h[travelled].Travelled?
    && (Distance(h[travelled].x, h[travelled].toX) >= 8 || Distance(h[travelled].y, h[travelled].toY) >= 8)
    && h[send.began] == Stamped(send.generation, Begin(h[travelled].x, h[travelled].y))
    && h[send.crossed] == Stamped(send.generation, Cross(send.target.peer, send.target.epoch))
    && h[send.dropped] == Stamped(send.generation, Drop(send.target.peer, send.point))
    && send.point.epoch == send.target.epoch
    && (forall k :: send.began <= k < i ==> !h[k].Bumped?)
  }

  /**
   In every interleaving of observer and runner, a send follows a Begin, at least 8 px of travel from it, a Cross and
   a Drop, agreeing on peer, epoch and connection, and the generation was not bumped, by a cancel, an Escape, a new
   press or a full queue, from the Begin until the decision.
   */
  lemma EverySendIsOneGesture(actions: seq<Action>, i: nat) returns (travelled: nat)
    requires IsSend(Run(actions).history, i)
    ensures var h := Run(actions).history;
            OneGesture(h, i, h[i].send, travelled)
  {
    var h := Run(actions).history;
    hide Run, Bumps, RunnerInv, ProgramOk, MovementOk;
    var send := h[i].send;
    assert SendOk(h, i, send) by { SendHolds(Run(actions), i); }
    assert IsStamp(h, send.crossed) && h[send.crossed].event.Cross?;
    travelled :| travelled < send.crossed && Shows(h, travelled, send.generation);
    assert IsBegin(h, send.began) && IsStamp(h, send.began);
    BumpsGrow(h, send.began, i);
    OneRegistration(Run(actions), send.registered);
  }

  lemma OneRegistration(s: State, r: nat)
    requires Inv(s) && IsRegistered(s.history, r)
    ensures forall q: nat :: IsRegistered(s.history, q) && s.history[q].crossed == s.history[r].crossed ==> q == r
  {
    hide ObserverInv, QueueOk, WorkOk, SendsOk, HandledAfter;
    forall q: nat | IsRegistered(s.history, q) && s.history[q].crossed == s.history[r].crossed ensures q == r {
      assert q < r || r < q || q == r;
    }
  }

  lemma SendHolds(s: State, i: nat)
    requires Inv(s) && IsSend(s.history, i)
    ensures SendOk(s.history, i, s.history[i].send)
  {
  }

  /** Whatever connections come and go in a run, a send and the crossing it comes from found the same one. */
  lemma SendsKeepTheConnection(actions: seq<Action>, i: nat, r: nat)
    requires IsSend(Run(actions).history, i)
    requires IsRegistered(Run(actions).history, r)
             && Run(actions).history[r].crossed == Run(actions).history[i].send.crossed
    ensures var h := Run(actions).history;
            && r < i && h[r].connection == h[i].found == h[i].send.target.connection
            && IsStamp(h, h[r].crossed)
            && h[h[r].crossed] == Stamped(h[i].send.generation, Cross(h[i].send.target.peer, h[i].send.target.epoch))
  {
    var travelled := EverySendIsOneGesture(actions, i);
    hide Run;
  }

  /** Each Begin leads to at most one send, and different sends have different generations. */
  lemma EachBeginSendsOnce(actions: seq<Action>, i: nat, j: nat)
    requires IsSend(Run(actions).history, i) && IsSend(Run(actions).history, j) && i != j
    ensures var h := Run(actions).history;
            h[i].send.began != h[j].send.began && h[i].send.generation != h[j].send.generation
  {
    var s := Run(actions);
    var h := s.history;
    hide Run, Bumps, ProgramOk, MovementOk, CrossesOk, BegunAfter, QueueOk, WorkOk;
    assert IsBegin(h, h[i].send.began) && IsBegin(h, h[j].send.began);
    assert IsStamp(h, h[i].send.began) && IsStamp(h, h[j].send.began);
  }

  // ----- The runtime as an object

  function Remaining(program: seq<Micro>): nat {
    if program == [] then 0
    else Remaining(program[1..]) + match program[0] case Stamp(_) => 3 case Push(_) => 2 case _ => 1
  }

  /** The callback under way runs to its end. */
  function Settle(s: State): State
    decreases Remaining(s.program)
  {
    if s.program == [] then s
    else
      Settle(ObserveStep(s))
  }

  lemma {:induction false} SettleKeepsInv(s: State)
    requires Inv(s)
    ensures Inv(Settle(s)) && Settle(s).program == []
    decreases Remaining(s.program)
  {
    hide Inv;
    if s.program != [] {
      StepKeepsInv(s, Observe);
      SettleKeepsInv(ObserveStep(s));
    }
  }

  /** What the observer is shown of captured input. */
  datatype Captured = PointerMoved(x: int, y: int) | LeftButton(pressed: bool, pointer: Option<(int, int)>) | Escape
      | OtherInput

  /** An uninterrupted call of captured. */
  function OnCaptured(s: State, input: Captured, remote: bool): State {
    match input
    case PointerMoved(x, y) => if remote then s else Step(s, Motion(x, y))
    case LeftButton(pressed, pointer) =>
      if remote then s else Settle(Step(s, if pressed then LeftPressed(pointer) else Cancel))
    case Escape => Settle(Step(s, Cancel))
    case OtherInput => s
  }

  /** What the awaited calls of one turn answer: the origin, the files, the native cancel, the registered connection. */
  datatype Answers = Answers(began: bool, files: Option<seq<string>>, ended: bool, connection: Option<Id>)

  /** An uninterrupted turn of the runner: one item, taken, compared and handled. */
  function OnItem(s: State, answers: Answers): State {
    var taken := Step(Step(s, Receive), Compare);
    match taken.work
    case Beginning(_) => Step(taken, DragBegan(answers.began))
    case Reading(_, _) =>
      Step(Step(Step(taken, FilesRead(answers.files)), CheckCurrent),
          NativeCancelled(answers.ended, answers.connection))
    case Dropping(_, _) => Step(taken, Finish(answers.connection))
    case _ => taken
  }

  lemma TurnsKeepInv(s: State, input: Captured, remote: bool, answers: Answers)
    requires Inv(s)
    ensures Inv(OnCaptured(s, input, remote)) && Inv(OnItem(s, answers))
  {
    hide Inv, Step, Settle;
    match input {
      case PointerMoved(x, y) => StepKeepsInv(s, Motion(x, y));
      case LeftButton(pressed, pointer) =>
        var a := if pressed then LeftPressed(pointer) else Cancel;
        StepKeepsInv(s, a);
        SettleKeepsInv(Step(s, a));
      case Escape =>
        StepKeepsInv(s, Cancel);
        SettleKeepsInv(Step(s, Cancel));
      case OtherInput =>
    }
    var received := Step(s, Receive);
    var taken := Step(received, Compare);
    StepKeepsInv(s, Receive);
    StepKeepsInv(received, Compare);
    StepKeepsInv(taken, DragBegan(answers.began));
    StepKeepsInv(taken, Finish(answers.connection));
    StepKeepsInv(taken, FilesRead(answers.files));
    var read := Step(taken, FilesRead(answers.files));
    StepKeepsInv(read, CheckCurrent);
    StepKeepsInv(Step(read, CheckCurrent), NativeCancelled(answers.ended, answers.connection));
  }

  /** The send that the entries from a place on end with, if any. */
  function DecidedSince(place: nat, h: seq<Entry>): Option<Send> {
    if place < |h| && h[|h| - 1].Decided? then Some(h[|h| - 1].send) else None
  }

  lemma HeldIsCross(s: State)
    requires Inv(s) && s.work.Cancelling?
    ensures s.work.item.event.Cross?
  {
    hide ObserverInv, SendsOk, QueueOk, RegistrationsOk;
  }

  lemma HeldIsDrop(s: State)
    requires Inv(s) && s.work.Dropping?
    ensures s.work.item.event.Drop?
  {
    hide ObserverInv, SendsOk, QueueOk, RegistrationsOk;
  }

  lemma ComparingLogsNothing(s: State)
    ensures CompareStep(s).history == s.history
  {
  }

  /** A turn that nothing interrupts, by the item it takes. */
  lemma TurnOutcome(s: State, answers: Answers)
    requires s.work.Free? && s.queue != []
    ensures var item := s.queue[0];
            var rest := s.(queue := s.queue[1..], gesture := None);
            OnItem(s, answers) ==
            if item.generation != s.generation then rest
            else match item.event
              case Begin(_, _) =>
                if answers.began then rest.(gesture := Some(Gesture(item.generation, item.at, None, 0, 0, [])))
                    else rest
              case Cross(peer, epoch) =>
                if s.gesture.Some? && s.gesture.value.generation == item.generation && s.gesture.value.target.None?
                   && answers.files.Some? && answers.files.value != [] && answers.ended && answers.connection.Some? then
                  Log(rest.(gesture := Some(s.gesture.value.(
                              paths := answers.files.value, crossed := item.at, registered := |s.history|,
                              target := Some(Target(peer, epoch, answers.connection.value))))),
                      Registered(item.at, answers.connection.value))
                else rest
              case Drop(peer, point) =>
                if s.gesture.Some? && answers.connection.Some?
                   && ReleaseMatches(s.gesture.value, item.generation, peer, point, answers.connection.value) then
                  var g := s.gesture.value;
                  Log(rest, Decided(Send(item.generation, g.target.value, point, g.paths, g.began, g.crossed,
                      g.registered, item.at),
                                    answers.connection.value))
                else rest
  {
  }

  /**
   The stages of a turn, whatever the observer did since the one before: only an answered begin makes a gesture; files
   are needed, then that the generation was not bumped meanwhile, then that the native drag ended and a connection is
   there.
   */
  lemma StagesExactly(s: State, ok: bool, files: Option<seq<string>>, connection: Option<Id>)
    ensures s.work.Beginning? ==>
              Step(s, DragBegan(ok))
              == s.(work := Free,
                    gesture := if ok then Some(Gesture(s.work.item.generation, s.work.item.at, None, 0, 0, []))
                               else None)
    ensures s.work.Reading? ==>
              Step(s, FilesRead(files))
              == s.(work := if files.Some? && |files.value| > 0
                            then Checking(s.work.item, s.work.candidate, files.value) else Free)
    ensures s.work.Checking? ==>
              Step(s, CheckCurrent)
              == s.(work := if s.generation == s.work.item.generation
                            then Cancelling(s.work.item, s.work.candidate, s.work.files) else Free)
    ensures s.work.Cancelling? && s.work.item.event.Cross? ==>
              var item, s' := s.work.item, Step(s, NativeCancelled(ok, connection));
              if ok && connection.Some? then
                && s' == s.(work := Free, gesture := s'.gesture,
                            history := s.history + [Registered(item.at, connection.value)])
                && s'.gesture == Some(Gesture(s.work.candidate.generation, s.work.candidate.began,
                                              Some(Target(item.event.peer, item.event.epoch, connection.value)),
                                              item.at, |s.history|, s.work.files))
              else s' == s.(work := Free)
  {
  }

  lemma SettleTwice(s: State)
    requires s.program != []
    ensures Settle(s) == Settle(ObserveStep(s))
    ensures ObserveStep(s).program == [] ==> Settle(s) == ObserveStep(s)
    ensures ObserveStep(s).program != [] && ObserveStep(ObserveStep(s)).program == [] ==>
            Settle(s) == ObserveStep(ObserveStep(s))
  {
  }

  /** A stamped event joins the queue behind the others; a full queue of 32 invalidates the gesture instead. */
  function Stamping(s: State, event: Event): State {
    if |s.queue| < 32 then
      s.(queue := s.queue + [Item(s.generation, event, |s.history|)],
         history := s.history + [Stamped(s.generation, event)])
    else
      s.(generation := s.generation + 1, history := s.history + [Stamped(s.generation, event)] + [Bumped])
  }

  lemma SettleStamp(s: State, event: Event)
    requires s.program == []
    ensures Settle(s.(program := [Stamp(event)])) == Stamping(s, event)
  {
    var item := Item(s.generation, event, |s.history|);
    var stamped := s.(program := [Push(item)], history := s.history + [Stamped(s.generation, event)]);
    assert ObserveStep(s.(program := [Stamp(event)])) == stamped;
    SettleTwice(s.(program := [Stamp(event)]));
    SettleTwice(stamped);
  }

  function Cancelled(s: State): State {
    s.(generation := s.generation + 1, movement := None, history := s.history + [Bumped])
  }

  /** Cancelling, whether for a release, an Escape or a press without a pointer. */
  lemma SettleCancel(s: State)
    requires s.program == []
    ensures Settle(Step(s, Cancel)) == Cancelled(s)
    ensures Settle(Step(s, LeftPressed(None))) == Cancelled(s)
  {
    var started := s.(program := [Bump, Clear]);
    SettleTwice(started);
    assert ObserveStep(ObserveStep(started)) == Cancelled(s);
  }

  lemma WorkIsNoNewer(s: State)
    requires Inv(s)
    ensures !s.work.Free? ==> s.work.item.generation <= s.generation
  {
    hide CrossesOk, MovementOk, ProgramOk, QueueOk, SendsOk, RegistrationsOk, Bumps, AllAfter;
    if !s.work.Free? {
      assert IsStamp(s.history, s.work.item.at);
    }
  }

  lemma NothingIsNewer(s: State)
    requires Inv(s)
    ensures forall item :: item in s.queue ==> item.generation <= s.generation
    ensures s.gesture.Some? ==> s.gesture.value.generation <= s.generation
  {
    hide CrossesOk, MovementOk, ProgramOk, WorkOk, SendsOk, RegistrationsOk, Bumps, AllAfter;
    forall item | item in s.queue ensures item.generation <= s.generation {
      var i :| 0 <= i < |s.queue| && s.queue[i] == item;
      assert Waiting(s)[i] == item && StampedAt(s.history, item) && IsStamp(s.history, item.at);
    }
    if s.gesture.Some? {
      assert IsStamp(s.history, s.gesture.value.began);
    }
  }

  lemma SettlePress(s: State, x: int, y: int)
    requires s.program == []
    ensures Settle(Step(s, LeftPressed(Some((x, y)))))
            == Settle(Cancelled(s).(movement := Some(Movement(x, y, false)), press := s.generation + 1,
                program := [Stamp(Begin(x, y))]))
  {
    var started := s.(program := [Bump, Clear, Press(x, y), Stamp(Begin(x, y))]);
    SettleTwice(started);
    SettleTwice(ObserveStep(started));
    SettleTwice(ObserveStep(ObserveStep(started)));
    assert ObserveStep(ObserveStep(ObserveStep(started)))
        == Cancelled(s).(movement := Some(Movement(x, y, false)), press := s.generation + 1,
            program := [Stamp(Begin(x, y))]);
  }

  /** What each callback of the observer does when nothing interrupts it. */
  lemma CallbackOutcome(s: State, x: int, y: int, remote: bool, peer: Id, epoch: nat, point: Point)
    requires s.program == []
    ensures OnCaptured(s, LeftButton(true, Some((x, y))), false)
            == Stamping(Cancelled(s).(movement := Some(Movement(x, y, false)), press := s.generation + 1), Begin(x, y))
    ensures OnCaptured(s, LeftButton(true, None), false) == Cancelled(s)
    ensures forall pointer :: OnCaptured(s, LeftButton(false, pointer), false) == Cancelled(s)
    ensures forall pressed, pointer :: OnCaptured(s, LeftButton(pressed, pointer), true) == s
    ensures OnCaptured(s, Escape, remote) == Cancelled(s) && OnCaptured(s, OtherInput, remote) == s
    ensures OnCaptured(s, PointerMoved(x, y), true) == s
    ensures OnCaptured(s, PointerMoved(x, y), false) == MotionStep(s, x, y)
    ensures Settle(Step(s, Entered(peer, epoch)))
            == if s.movement.Some? && s.movement.value.moved then Stamping(s, Cross(peer, epoch)) else s
    ensures Settle(Step(s, LeftReleasedRemotely(peer, point))) == Stamping(s, Drop(peer, point))
  {
    hide ObserveStep, MotionStep, Settle;
    SettleCancel(s);
    SettlePress(s, x, y);
    SettleStamp(Cancelled(s).(movement := Some(Movement(x, y, false)), press := s.generation + 1), Begin(x, y));
    SettleStamp(s, Cross(peer, epoch));
    SettleStamp(s, Drop(peer, point));
    SettledStays(s);
  }

  lemma SettledStays(s: State)
    requires s.program == []
    ensures Settle(s) == s
  {
  }

  /** The runner has answered the press, and the gesture waits for a crossing. */
  predicate Begun(s: State, press: nat, x: int, y: int, began: nat) {
    && s.program == [] && s.queue == [] && s.work.Free? && s.generation == press
    && s.movement.Some? && s.movement.value.x == x && s.movement.value.y == y
    && s.gesture == Some(Gesture(press, began, None, 0, 0, []))
  }

  lemma PressBegins(s: State, x: int, y: int)
    requires s.program == [] && s.queue == [] && s.work.Free?
    ensures var s' := OnItem(OnCaptured(s, LeftButton(true, Some((x, y))), false), Answers(true, None, false, None));
            Begun(s', s.generation + 1, x, y, |s.history| + 1) && !s'.movement.value.moved
  {
    CallbackOutcome(s, x, y, false, 0, 0, Point(0, 0, 0, 0));
    hide OnCaptured, OnItem;
    TurnOutcome(OnCaptured(s, LeftButton(true, Some((x, y))), false), Answers(true, None, false, None));
  }

  /**
   A press, a motion, a crossing and a release that nothing interrupts send the files exactly when the pointer got 8 px
   away from the press in x or in y and the release belongs to the epoch of the crossing.
   */
  lemma GestureSendsExactlyWhen(s: State, x: int, y: int, toX: int, toY: int, peer: Id, epoch: nat, point: Point,
      paths: seq<string>, connection: Id)
    requires s.program == [] && s.queue == [] && s.work.Free? && paths != []
    ensures var pressed := OnItem(OnCaptured(s, LeftButton(true, Some((x, y))), false),
                                  Answers(true, None, false, None));
            var moved := OnCaptured(pressed, PointerMoved(toX, toY), false);
            var entered := Settle(Step(moved, Entered(peer, epoch)));
            var crossed := if entered.queue == [] then entered
                           else OnItem(entered, Answers(false, Some(paths), true, Some(connection)));
            var released := Settle(Step(crossed, LeftReleasedRemotely(peer, point)));
            var sent := DecidedSince(|released.history|,
                                     OnItem(released, Answers(false, None, false, Some(connection))).history);
            && (sent.Some? <==> (Distance(x, toX) >= 8 || Distance(y, toY) >= 8) && point.epoch == epoch)
            && (sent.Some? ==>
                  && sent.value.target == Target(peer, epoch, connection) && sent.value.point == point
                  && sent.value.paths == paths)
  {
    PressBegins(s, x, y);
    hide OnItem, OnCaptured, Settle;
    var pressed := OnItem(OnCaptured(s, LeftButton(true, Some((x, y))), false), Answers(true, None, false, None));
    CallbackOutcome(pressed, toX, toY, false, peer, epoch, point);
    MovesExactlyWhen(pressed, toX, toY);
    var moved := OnCaptured(pressed, PointerMoved(toX, toY), false);
    CallbackOutcome(moved, x, y, false, peer, epoch, point);
    hide MotionStep;
    var entered := Settle(Step(moved, Entered(peer, epoch)));
    if moved.movement.value.moved {
      TurnOutcome(entered, Answers(false, Some(paths), true, Some(connection)));
    }
    var crossed := if entered.queue == [] then entered
                   else OnItem(entered, Answers(false, Some(paths), true, Some(connection)));
    CallbackOutcome(crossed, x, y, false, peer, epoch, point);
    var released := Settle(Step(crossed, LeftReleasedRemotely(peer, point)));
    TurnOutcome(released, Answers(false, None, false, Some(connection)));
  }

  /**
   The observer's fields, the runner's gesture and where the runner is between two of its awaits. The log and the
   places in it that items and gestures carry are there for the specification.
   */
  class FolderDragRuntime {
    var generation: nat
    var movement: Option<Movement>
    var queue: seq<Item>
    var gesture: Option<Gesture>
    var work: Work
    var press: nat
    var log: seq<Entry>

    ghost function Model(): State
      reads this
    {
      State(generation, movement, press, [], queue, work, gesture, log)
    }

    constructor ()
      ensures Model() == State(0, None, 0, [], [], Free, None, []) && Inv(Model())
    {
      generation, movement, press, queue, work, gesture, log := 0, None, 0, [], Free, None, [];
      new;
      assert Run([]) == Model();
    }

    /** Stamps and queues an event; a full queue invalidates the gesture instead. */
    method SendEvent(event: Event)
      modifies this`generation, this`queue, this`log
      ensures Model() == Settle(old(Model()).(program := [Stamp(event)])) == Stamping(old(Model()), event)
    {
      ghost var s := Model().(program := [Stamp(event)]);
      var item := Item(generation, event, |log|);
      log := log + [Stamped(generation, event)];
      ghost var stamped := Model().(program := [Push(item)]);
      assert ObserveStep(s) == stamped;
      if |queue| < QUEUE {
        queue := queue + [item];
        assert ObserveStep(stamped) == Model();
      } else {
        assert ObserveStep(stamped) == stamped.(program := [Bump]);
        generation := generation + 1;
        log := log + [Bumped];
        assert ObserveStep(stamped.(program := [Bump])) == Model();
      }
      SettleTwice(s);
      SettleTwice(stamped);
    }

    /** Nothing that is queued or held keeps the current generation, so none of it can lead to a send. */
    method CancelGesture()
      requires Inv(Model())
      modifies this`generation, this`movement, this`log
      ensures Inv(Model()) && Model() == Settle(Step(old(Model()), Cancel))
      ensures forall item :: item in queue ==> item.generation < generation
      ensures gesture.Some? ==> gesture.value.generation < generation
      ensures !work.Free? ==> work.item.generation < generation
    {
      hide Inv, Settle;
      StepKeepsInv(Model(), Cancel);
      SettleKeepsInv(Step(Model(), Cancel));
      SettleCancel(Model());
      NothingIsNewer(Model());
      WorkIsNoNewer(Model());
      generation := generation + 1;
      log := log + [Bumped];
      movement := None;
    }

    method CapturedInput(input: Captured, remote: bool)
      requires Inv(Model())
      modifies this
      ensures Inv(Model()) && Model() == OnCaptured(old(Model()), input, remote)
      ensures input.PointerMoved? && !remote && old(movement).Some? ==>
                var m := old(movement).value;
                movement == Some(m.(moved := m.moved || Distance(m.x, input.x) >= 8 || Distance(m.y, input.y) >= 8))
    {
      hide Inv, Settle;
      TurnsKeepInv(Model(), input, remote, Answers(false, None, false, None));
      ghost var s := Model();
      match input {
        case PointerMoved(x, y) =>
          if !remote && movement.Some? {
            var m := movement.value;
            if Far(m, x, y) {
              movement := Some(m.(moved := true));
              log := log + [Travelled(press, m.x, m.y, x, y)];
            }
          }
        case LeftButton(pressed, pointer) =>
          if !remote {
            SettleCancel(s);
            CancelGesture();
            if pressed && pointer.Some? {
              var (x, y) := pointer.value;
              SettlePress(s, x, y);
              movement := Some(Movement(x, y, false));
              press := generation;
              SendEvent(Begin(x, y));
            }
          }
        case Escape =>
          SettleCancel(s);
          CancelGesture();
        case OtherInput =>
      }
    }

    /** sent, for an Enter: only a press that has moved far enough crosses. */
    method SentEnter(peer: Id, epoch: nat)
      requires Inv(Model())
      modifies this`generation, this`queue, this`log
      ensures Inv(Model()) && Model() == Settle(Step(old(Model()), Entered(peer, epoch)))
    {
      hide Inv;
      StepKeepsInv(Model(), Entered(peer, epoch));
      SettleKeepsInv(Step(Model(), Entered(peer, epoch)));
      if movement.Some? && movement.value.moved {
        hide Settle;
        SendEvent(Cross(peer, epoch));
      }
    }

    /** sent, for the release of the left button. */
    method SentRelease(peer: Id, point: Point)
      requires Inv(Model())
      modifies this`generation, this`queue, this`log
      ensures Inv(Model()) && Model() == Settle(Step(old(Model()), LeftReleasedRemotely(peer, point)))
    {
      hide Inv, Settle;
      StepKeepsInv(Model(), LeftReleasedRemotely(peer, point));
      SettleKeepsInv(Step(Model(), LeftReleasedRemotely(peer, point)));
      SendEvent(Drop(peer, point));
    }

    // The runner: each method is what run does between two awaits; observer calls may come between any two of them.

    method TakeNext()
      requires Inv(Model()) && work.Free? && queue != []
      modifies this`queue, this`work
      ensures Inv(Model()) && Model() == Step(old(Model()), Receive)
    {
      hide Inv;
      StepKeepsInv(Model(), Receive);
      work := Taken(queue[0]);
      queue := queue[1..];
    }

    method CompareTaken()
      requires Inv(Model()) && work.Taken?
      modifies this`gesture, this`work
      ensures Inv(Model()) && Model() == Step(old(Model()), Compare)
    {
      hide Inv;
      StepKeepsInv(Model(), Compare);
      var item := work.item;
      if item.generation != generation {
        gesture := None;
        work := Free;
        return;
      }
      var candidate := gesture;
      match item.event {
        case Begin(_, _) =>
          work := Beginning(item);
        case Cross(_, _) =>
          gesture := None;
          if candidate.Some? && candidate.value.generation == item.generation && candidate.value.target.None? {
            work := Reading(item, candidate.value);
          } else {
            work := Free;
          }
        case Drop(_, _) =>
          gesture := None;
          work := if candidate.Some? then Dropping(item, candidate.value) else Free;
      }
    }

    method AfterBegin(began: bool)
      requires Inv(Model()) && work.Beginning?
      modifies this`gesture, this`work
      ensures Inv(Model()) && Model() == Step(old(Model()), DragBegan(began))
    {
      hide Inv;
      StepKeepsInv(Model(), DragBegan(began));
      gesture := if began then Some(Gesture(work.item.generation, work.item.at, None, 0, 0, [])) else None;
      work := Free;
    }

    method AfterFiles(files: Option<seq<string>>)
      requires Inv(Model()) && work.Reading?
      modifies this`work
      ensures Inv(Model()) && Model() == Step(old(Model()), FilesRead(files))
    {
      hide Inv;
      StepKeepsInv(Model(), FilesRead(files));
      work := if files.Some? && files.value != [] then Checking(work.item, work.candidate, files.value) else Free;
    }

    method CheckGeneration()
      requires Inv(Model()) && work.Checking?
      modifies this`work
      ensures Inv(Model()) && Model() == Step(old(Model()), CheckCurrent)
    {
      hide Inv;
      StepKeepsInv(Model(), CheckCurrent);
      work := if generation != work.item.generation then Free else Cancelling(work.item, work.candidate, work.files);
    }

    method AfterCancel(ended: bool, connection: Option<Id>)
      requires Inv(Model()) && work.Cancelling?
      modifies this`gesture, this`work, this`log
      ensures Inv(Model()) && Model() == Step(old(Model()), NativeCancelled(ended, connection))
    {
      hide Inv;
      HeldIsCross(Model());
      StepKeepsInv(Model(), NativeCancelled(ended, connection));
      var item := work.item;
      if ended && connection.Some? {
        gesture := Some(work.candidate.(paths := work.files, crossed := item.at, registered := |log|,
                                        target := Some(Target(item.event.peer, item.event.epoch, connection.value))));
        log := log + [Registered(item.at, connection.value)];
      }
      work := Free;
    }

    /** The file transfer that the release starts, if any. */
    method FinishDrop(connection: Option<Id>) returns (sent: Option<Send>)
      requires Inv(Model()) && work.Dropping?
      modifies this`work, this`log
      ensures Inv(Model()) && Model() == Step(old(Model()), Finish(connection))
      ensures sent == DecidedSince(|old(log)|, log)
    {
      hide Inv;
      HeldIsDrop(Model());
      StepKeepsInv(Model(), Finish(connection));
      var item, g := work.item, work.candidate;
      var point := item.event.point;
      work := Free;
      if connection.None? || generation != item.generation
         || !ReleaseMatches(g, item.generation, item.event.peer, point, connection.value)
      {
        return None;
      }
      var send := Send(item.generation, g.target.value, point, g.paths, g.began, g.crossed, g.registered, item.at);
      log := log + [Decided(send, connection.value)];
      return Some(send);
    }

    /** One iteration of run that nothing interrupts; the file transfer it starts, if any. */
    method HandleNext(answers: Answers) returns (sent: Option<Send>)
      requires Inv(Model()) && work.Free? && queue != []
      modifies this`queue, this`gesture, this`work, this`log
      ensures Inv(Model()) && Model() == OnItem(old(Model()), answers)
      ensures sent == DecidedSince(|old(log)|, log)
    {
      hide Inv, CompareStep, FinishStep;
      sent := None;
      TakeNext();
      CompareTaken();
      assert log == old(log) by { ComparingLogsNothing(Step(old(Model()), Receive)); }
      match work {
        case Beginning(_) => AfterBegin(answers.began);
        case Reading(_, _) =>
          AfterFiles(answers.files);
          if work.Checking? {
            CheckGeneration();
          }
          if work.Cancelling? {
            AfterCancel(answers.ended, answers.connection);
          }
        case Dropping(_, _) => sent := FinishDrop(answers.connection);
        case _ =>
      }
    }
  }
}
