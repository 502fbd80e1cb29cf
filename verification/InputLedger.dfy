/** Held remote controls, batches of releases for them, and the gate that admits input frames. */
module InputLedger {
  import opened Common
  import opened InputEvents
  import opened UiState
  import opened UiDiff

  datatype LedgerError = GenerationExhausted | BatchTokenExhausted

  datatype ReleaseReason = SessionEnded | OwnershipTransfer | SuspendedSession | BackendFailure | Timeout

  /** Where and after which realtime frame a button went down, and the generation of the press. */
  datatype Held = Held(x: int, y: int, anchor: nat, generation: nat)

  datatype Release =
    | KeyRelease(key: nat)
    | ButtonRelease(button: MouseButton, x: int, y: int, anchor: nat)

  datatype Batch = Batch(
    ledger: Id,
    token: nat,
    reason: ReleaseReason,
    events: seq<Release>,
    keys: seq<(nat, nat)>,
    buttons: seq<(MouseButton, nat)>)

  datatype State = State(id: Id, nextGeneration: nat, nextToken: nat, keys: map<nat, nat>, buttons: map<MouseButton,
      Held>)

  // ----- Recording

  function RecordKey(s: State, key: nat, pressed: bool): (State, Result<bool, LedgerError>) {
    if pressed then
      if key in s.keys then (s, Ok(false))
      else if s.nextGeneration + 1 >= U64_LIMIT then (s, Err(GenerationExhausted))
      else (s.(nextGeneration := s.nextGeneration + 1, keys := s.keys[key := s.nextGeneration]), Ok(true))
    else (s.(keys := s.keys - {key}), Ok(key in s.keys))
  }

  function RecordButton(s: State, button: MouseButton, pressed: bool, x: int, y: int, anchor: nat): (State,
      Result<bool, LedgerError>) {
    if pressed then
      if button in s.buttons then (s, Ok(false))
      else if s.nextGeneration + 1 >= U64_LIMIT then (s, Err(GenerationExhausted))
      else
        (s.(nextGeneration := s.nextGeneration + 1,
            buttons := s.buttons[button := Held(x, y, anchor, s.nextGeneration)]), Ok(true))
    else (s.(buttons := s.buttons - {button}), Ok(button in s.buttons))
  }

  // ----- Batches

  function HeldKeys(s: State): seq<nat> {
    Listing(s.keys.Keys)
  }

  function HeldButtons(s: State): seq<MouseButton> {
    var codes := Listing(ButtonRanks(s.buttons.Keys));
    seq(|codes|, i requires 0 <= i < |codes| => ButtonOfRank(codes[i]))
  }

  lemma HeldAreListed(s: State)
    ensures forall k :: k in HeldKeys(s) <==> k in s.keys
    ensures forall b :: b in HeldButtons(s) <==> b in s.buttons
  {
    ListingHas(s.keys.Keys);
    ListingHas(ButtonRanks(s.buttons.Keys));
    var codes := Listing(ButtonRanks(s.buttons.Keys));
    hide ButtonRank, ButtonOfRank;
    forall b | b in s.buttons ensures b in HeldButtons(s) {
      ButtonRankInverse(b);
      assert ButtonRank(b) in ButtonRanks(s.buttons.Keys);
      var i :| 0 <= i < |codes| && codes[i] == ButtonRank(b);
      assert HeldButtons(s)[i] == b;
    }
    forall i | 0 <= i < |codes| ensures HeldButtons(s)[i] in s.buttons {
      assert codes[i] in ButtonRanks(s.buttons.Keys);
      var b :| b in s.buttons && ButtonRank(b) == codes[i];
      ButtonRankInverse(b);
    }
  }

  function BatchOf(s: State, reason: ReleaseReason): Batch {
    HeldAreListed(s);
    var keys, buttons := HeldKeys(s), HeldButtons(s);
    Batch(s.id, s.nextToken, reason,
          seq(|keys|, i requires 0 <= i < |keys| => KeyRelease(keys[i]))
          + seq(|buttons|, i requires 0 <= i < |buttons| =>
              assert buttons[i] in s.buttons;
              var h := s.buttons[buttons[i]];
              ButtonRelease(buttons[i], h.x, h.y, h.anchor)),
          seq(|keys|, i requires 0 <= i < |keys| => assert keys[i] in s.keys; (keys[i], s.keys[keys[i]])),
          seq(|buttons|, i requires 0 <= i < |buttons| =>
              assert buttons[i] in s.buttons; (buttons[i], s.buttons[buttons[i]].generation)))
  }

  /** release_all_events */
  function TakeBatch(s: State, reason: ReleaseReason): (State, Result<Batch, LedgerError>) {
    if s.nextToken + 1 >= U64_LIMIT then (s, Err(BatchTokenExhausted))
    else (s.(nextToken := s.nextToken + 1), Ok(BatchOf(s, reason)))
  }

  function ClearKeys(keys: map<nat, nat>, batch: seq<(nat, nat)>): map<nat, nat> {
    if batch == [] then keys
    else
      var (key, generation) := batch[0];
      ClearKeys(if key in keys && keys[key] == generation then keys - {key} else keys, batch[1..])
  }

  function ClearButtons(buttons: map<MouseButton, Held>, batch: seq<(MouseButton, nat)>): map<MouseButton, Held> {
    if batch == [] then buttons
    else
      var (button, generation) := batch[0];
      ClearButtons(if button in buttons && buttons[button].generation == generation then buttons - {button}
          else buttons, batch[1..])
  }

  /** confirm_release_all: the ledger and the number of controls cleared. */
  function Confirm(s: State, batch: Batch): (State, int) {
    if batch.ledger != s.id then (s, 0)
    else
      var keys := ClearKeys(s.keys, batch.keys);
      var buttons := ClearButtons(s.buttons, batch.buttons);
      (s.(keys := keys, buttons := buttons), (|s.keys| - |keys|) + (|s.buttons| - |buttons|))
  }

  lemma {:induction false} ClearedKeys(keys: map<nat, nat>, batch: seq<(nat, nat)>)
    ensures var left := ClearKeys(keys, batch);
            forall k :: k in left <==> k in keys && (k, keys[k]) !in batch
    ensures var left := ClearKeys(keys, batch);
            forall k :: k in left ==> left[k] == keys[k]
    decreases |batch|
  {
    if batch != [] {
      var (key, generation) := batch[0];
      ClearedKeys(if key in keys && keys[key] == generation then keys - {key} else keys, batch[1..]);
      assert batch == [batch[0]] + batch[1..];
    }
  }

  lemma {:induction false} ClearedButtons(buttons: map<MouseButton, Held>, batch: seq<(MouseButton, nat)>)
    ensures var left := ClearButtons(buttons, batch);
            forall b :: b in left <==> b in buttons && (b, buttons[b].generation) !in batch
    ensures var left := ClearButtons(buttons, batch);
            forall b :: b in left ==> left[b] == buttons[b]
    decreases |batch|
  {
    if batch != [] {
      var (button, generation) := batch[0];
      ClearedButtons(if button in buttons && buttons[button].generation == generation then buttons - {button}
          else buttons, batch[1..]);
      assert batch == [batch[0]] + batch[1..];
    }
  }

  lemma ButtonsAreReleased(s: State, reason: ReleaseReason)
    ensures forall m, x, y, anchor ::
              ButtonRelease(m, x, y, anchor) in BatchOf(s, reason).events <==>
              m in s.buttons && s.buttons[m] == Held(x, y, anchor, s.buttons[m].generation)
  {
    HeldAreListed(s);
    var b := BatchOf(s, reason);
    var n := |HeldKeys(s)|;
    hide HeldKeys, HeldButtons;
    forall m | m in s.buttons
      ensures ButtonRelease(m, s.buttons[m].x, s.buttons[m].y, s.buttons[m].anchor) in b.events
    {
      var i :| 0 <= i < |HeldButtons(s)| && HeldButtons(s)[i] == m;
      assert b.events[n + i] == ButtonRelease(m, s.buttons[m].x, s.buttons[m].y, s.buttons[m].anchor);
    }
  }

  /** A batch releases every held control once, with the generation of its press. */
  lemma BatchCoversHeld(s: State, reason: ReleaseReason)
    ensures var b := BatchOf(s, reason);
            && (forall k, g :: (k, g) in b.keys <==> k in s.keys && s.keys[k] == g)
            && (forall m, g :: (m, g) in b.buttons <==> m in s.buttons && s.buttons[m].generation == g)
            && |b.events| == |s.keys| + |b.buttons| == |b.keys| + |b.buttons|
            && (forall k :: KeyRelease(k) in b.events <==> k in s.keys)
            && (forall m, x, y, anchor ::
                  ButtonRelease(m, x, y, anchor) in b.events <==>
                  m in s.buttons && s.buttons[m] == Held(x, y, anchor, s.buttons[m].generation))
            && b.ledger == s.id && b.token == s.nextToken && b.reason == reason
  {
    HeldAreListed(s);
    ListingHas(s.keys.Keys);
    var b := BatchOf(s, reason);
    hide ButtonRanks, Listing;
    ButtonsAreReleased(s, reason);
    forall k | k in s.keys ensures (k, s.keys[k]) in b.keys && KeyRelease(k) in b.events {
      var i :| 0 <= i < |HeldKeys(s)| && HeldKeys(s)[i] == k;
      assert b.keys[i] == (k, s.keys[k]) && b.events[i] == KeyRelease(k);
    }
    forall m | m in s.buttons ensures (m, s.buttons[m].generation) in b.buttons {
      var i :| 0 <= i < |HeldButtons(s)| && HeldButtons(s)[i] == m;
      assert b.buttons[i] == (m, s.buttons[m].generation);
    }
    assert |s.keys| == |s.keys.Keys|;
  }

  /** A new press is remembered under a generation of its own; a repeated one, and what is not held, changes nothing. */
  lemma RecordsExactly(s: State, key: nat, button: MouseButton, x: int, y: int, anchor: nat)
    ensures var (s', r) := RecordKey(s, key, true);
            if key in s.keys then s' == s && r == Ok(false)
            else if s.nextGeneration + 1 >= U64_LIMIT then s' == s && r == Err(GenerationExhausted)
            else
              && r == Ok(true) && s' == s.(nextGeneration := s.nextGeneration + 1, keys := s'.keys)
              && key in s'.keys && s'.keys[key] == s.nextGeneration && s'.keys - {key} == s.keys
    ensures var (s', r) := RecordKey(s, key, false);
            && r == Ok(key in s.keys) && s' == s.(keys := s'.keys) && key !in s'.keys
            && (forall k :: k in s.keys && k != key ==> k in s'.keys && s'.keys[k] == s.keys[k])
            && (forall k :: k in s'.keys ==> k in s.keys)
    ensures var (s', r) := RecordButton(s, button, true, x, y, anchor);
            if button in s.buttons then s' == s && r == Ok(false)
            else if s.nextGeneration + 1 >= U64_LIMIT then s' == s && r == Err(GenerationExhausted)
            else
              && r == Ok(true) && s' == s.(nextGeneration := s.nextGeneration + 1, buttons := s'.buttons)
              && button in s'.buttons && s'.buttons[button] == Held(x, y, anchor, s.nextGeneration)
              && s'.buttons - {button} == s.buttons
    ensures var (s', r) := RecordButton(s, button, false, x, y, anchor);
            && r == Ok(button in s.buttons) && s' == s.(buttons := s'.buttons) && button !in s'.buttons
            && (forall b :: b in s.buttons && b != button ==> b in s'.buttons && s'.buttons[b] == s.buttons[b])
            && (forall b :: b in s'.buttons ==> b in s.buttons)
  {
  }

  /** The keys of the batch that are held with the generation they were taken with. */
  function TakenKeys(s: State, batch: Batch): set<nat> {
    set k | k in s.keys && (k, s.keys[k]) in batch.keys
  }

  function TakenButtons(s: State, batch: Batch): set<MouseButton> {
    set b | b in s.buttons && (b, s.buttons[b].generation) in batch.buttons
  }

  /** Confirming a batch of the ledger clears those, and counts them. */
  lemma ConfirmCountsCleared(s: State, batch: Batch)
    requires batch.ledger == s.id
    ensures var (s', cleared) := Confirm(s, batch);
            && cleared == |TakenKeys(s, batch)| + |TakenButtons(s, batch)|
            && s'.keys == s.keys - TakenKeys(s, batch) && s'.buttons == s.buttons - TakenButtons(s, batch)
            && s' == s.(keys := s'.keys, buttons := s'.buttons)
  {
    ClearedKeys(s.keys, batch.keys);
    ClearedButtons(s.buttons, batch.buttons);
    var keys, buttons := ClearKeys(s.keys, batch.keys), ClearButtons(s.buttons, batch.buttons);
    hide ClearKeys, ClearButtons;
    LeftAndGone(s.keys, keys, TakenKeys(s, batch));
    LeftAndGone(s.buttons, buttons, TakenButtons(s, batch));
    assert keys == s.keys - TakenKeys(s, batch);
    assert buttons == s.buttons - TakenButtons(s, batch);
  }

  lemma LeftAndGone<K, V>(whole: map<K, V>, left: map<K, V>, gone: set<K>)
    requires forall k :: k in whole <==> k in left || k in gone
    requires forall k :: k in left ==> k !in gone
    ensures |whole| - |left| == |gone|
  {
    assert whole.Keys == left.Keys + gone;
    assert |whole.Keys| == |left.Keys| + |gone|;
  }

  // ----- Runs

  datatype Action =
    | KeyAction(key: nat, pressed: bool)
    | ButtonAction(button: MouseButton, pressed: bool, x: int, y: int, anchor: nat)
    | SnapshotAction(reason: ReleaseReason)
    | ConfirmAction(batch: Batch)

  function Step(s: State, a: Action): State {
    match a
    case KeyAction(key, pressed) => RecordKey(s, key, pressed).0
    case ButtonAction(button, pressed, x, y, anchor) => RecordButton(s, button, pressed, x, y, anchor).0
    case SnapshotAction(reason) => TakeBatch(s, reason).0
    case ConfirmAction(batch) => Confirm(s, batch).0
  }

  function Run(s: State, actions: seq<Action>): State {
    if actions == [] then s else Step(Run(s, actions[..|actions| - 1]), actions[|actions| - 1])
  }

  /** Generations of held controls are distinct and already used up. */
  predicate Inv(s: State) {
    Issued(s) && DistinctGenerations(s)
  }

  predicate Issued(s: State) {
    && 1 <= s.nextGeneration < U64_LIMIT
    && (forall k :: k in s.keys ==> 1 <= s.keys[k] < s.nextGeneration)
    && (forall b :: b in s.buttons ==> 1 <= s.buttons[b].generation < s.nextGeneration)
  }

  predicate DistinctGenerations(s: State) {
    && (forall j, k :: j in s.keys && k in s.keys && s.keys[j] == s.keys[k] ==> j == k)
    && (forall a, b ::
         a in s.buttons && b in s.buttons && s.buttons[a].generation == s.buttons[b].generation ==> a == b)
    && (forall k, b :: k in s.keys && b in s.buttons ==> s.keys[k] != s.buttons[b].generation)
  }

  /** Old presses keep their generation; new ones get one that was not used. */
  predicate Follows(s: State, s': State) {
    && s.nextGeneration <= s'.nextGeneration && s'.id == s.id
    && (forall k :: k in s'.keys ==> if k in s.keys then s'.keys[k] == s.keys[k] else s'.keys[k] >= s.nextGeneration)
    && (forall b :: b in s'.buttons ==>
          if b in s.buttons then s'.buttons[b] == s.buttons[b] else s'.buttons[b].generation >= s.nextGeneration)
  }

  lemma FewerHeld(s: State, s': State)
    requires Inv(s) && s'.nextGeneration == s.nextGeneration && s'.id == s.id
    requires forall k :: k in s'.keys ==> k in s.keys && s'.keys[k] == s.keys[k]
    requires forall b :: b in s'.buttons ==> b in s.buttons && s'.buttons[b] == s.buttons[b]
    ensures Inv(s') && Follows(s, s')
  {
  }

  lemma KeyPressKeeps(s: State, key: nat)
    requires Inv(s)
    ensures Inv(RecordKey(s, key, true).0) && Follows(s, RecordKey(s, key, true).0)
  {
    var s' := RecordKey(s, key, true).0;
    assert Issued(s') && Follows(s, s') by { hide DistinctGenerations; }
    NewKeyIsDistinct(s, key);
    hide Issued, DistinctGenerations, Follows;
  }

  lemma NewKeyIsDistinct(s: State, key: nat)
    requires Inv(s)
    ensures DistinctGenerations(RecordKey(s, key, true).0)
  {
  }

  lemma ButtonPressKeeps(s: State, button: MouseButton, x: int, y: int, anchor: nat)
    requires Inv(s)
    ensures var s' := RecordButton(s, button, true, x, y, anchor).0;
            Inv(s') && Follows(s, s')
  {
    var s' := RecordButton(s, button, true, x, y, anchor).0;
    hide DistinctGenerations;
    NewButtonIsDistinct(s, button, x, y, anchor);
    assert Issued(s') && Follows(s, s');
    hide Issued, Follows;
  }

  lemma NewButtonIsDistinct(s: State, button: MouseButton, x: int, y: int, anchor: nat)
    requires Inv(s)
    ensures DistinctGenerations(RecordButton(s, button, true, x, y, anchor).0)
  {
    hide Follows;
  }

  lemma ConfirmKeeps(s: State, batch: Batch)
    requires Inv(s)
    ensures Inv(Confirm(s, batch).0) && Follows(s, Confirm(s, batch).0)
  {
    ClearedKeys(s.keys, batch.keys);
    ClearedButtons(s.buttons, batch.buttons);
    hide ClearKeys, ClearButtons, Inv, Follows;
    FewerHeld(s, Confirm(s, batch).0);
  }

  lemma StepKeepsInv(s: State, a: Action)
    requires Inv(s)
    ensures Inv(Step(s, a)) && Follows(s, Step(s, a))
  {
    hide Inv, Follows, Confirm, BatchOf;
    match a
    case KeyAction(key, pressed) =>
      if pressed {
        KeyPressKeeps(s, key);
      } else {
        FewerHeld(s, Step(s, a));
      }
    case ButtonAction(button, pressed, x, y, anchor) =>
      if pressed {
        ButtonPressKeeps(s, button, x, y, anchor);
      } else {
        FewerHeld(s, Step(s, a));
      }
    case SnapshotAction(_) => FewerHeld(s, Step(s, a));
    case ConfirmAction(batch) => ConfirmKeeps(s, batch);
  }

  lemma KeyRecordKeepsInv(s: State, key: nat, pressed: bool)
    requires Inv(s)
    ensures Inv(RecordKey(s, key, pressed).0)
  {
    hide Inv, RecordKey, Follows;
    StepKeepsInv(s, KeyAction(key, pressed));
  }

  lemma ButtonRecordKeepsInv(s: State, button: MouseButton, pressed: bool, x: int, y: int, anchor: nat)
    requires Inv(s)
    ensures Inv(RecordButton(s, button, pressed, x, y, anchor).0)
  {
    hide Inv, RecordButton, Follows;
    StepKeepsInv(s, ButtonAction(button, pressed, x, y, anchor));
  }

  lemma {:induction false} RunKeepsInv(s: State, actions: seq<Action>)
    requires Inv(s)
    ensures Inv(Run(s, actions)) && s.nextGeneration <= Run(s, actions).nextGeneration && Run(s, actions).id == s.id
    decreases |actions|
  {
    if actions != [] {
      RunKeepsInv(s, actions[..|actions| - 1]);
      StepKeepsInv(Run(s, actions[..|actions| - 1]), actions[|actions| - 1]);
    }
    hide Step, Inv;
  }

  lemma {:induction false} TokensGrow(s: State, actions: seq<Action>)
    ensures s.nextToken <= Run(s, actions).nextToken
    decreases |actions|
  {
    hide Confirm, BatchOf;
    if actions != [] {
      TokensGrow(s, actions[..|actions| - 1]);
      TokenKept(Run(s, actions[..|actions| - 1]), actions[|actions| - 1]);
    }
  }

  lemma TokenKept(s: State, a: Action)
    ensures s.nextToken <= Step(s, a).nextToken
  {
    hide BatchOf;
  }

  /** A batch takes the next token and changes nothing else; no two batches of a ledger have the same token. */
  lemma BatchTokensDiffer(s: State, reason: ReleaseReason, actions: seq<Action>, later: ReleaseReason)
    ensures var (s', r) := TakeBatch(s, reason);
            && (r.Ok? <==> s.nextToken + 1 < U64_LIMIT)
            && (r.Ok? ==>
                  && r.value == BatchOf(s, reason) && r.value.token == s.nextToken
                  && s' == s.(nextToken := s.nextToken + 1))
            && (r.Err? ==> s' == s && r == Err(BatchTokenExhausted))
    ensures var (s', r) := TakeBatch(s, reason);
            var again := TakeBatch(Run(s', actions), later).1;
            r.Ok? && again.Ok? ==> r.value.token < again.value.token
  {
    TokensGrow(TakeBatch(s, reason).0, actions);
    hide Run;
  }

  /** The key was held at the start and after each of the actions. */
  predicate KeyStayed(s: State, actions: seq<Action>, k: nat)
    decreases |actions|
  {
    k in Run(s, actions).keys && (actions != [] ==> KeyStayed(s, actions[..|actions| - 1], k))
  }

  predicate ButtonStayed(s: State, actions: seq<Action>, b: MouseButton)
    decreases |actions|
  {
    b in Run(s, actions).buttons && (actions != [] ==> ButtonStayed(s, actions[..|actions| - 1], b))
  }

  lemma {:induction false} KeyKeepsGeneration(s: State, actions: seq<Action>, k: nat)
    requires Inv(s) && k in s.keys
    ensures var now := Run(s, actions).keys;
            && (KeyStayed(s, actions, k) <==> k in now && now[k] == s.keys[k])
            && (k in now && now[k] != s.keys[k] ==> now[k] >= s.nextGeneration)
    decreases |actions|
  {
    if actions != [] {
      var n := |actions| - 1;
      KeyKeepsGeneration(s, actions[..n], k);
      RunKeepsInv(s, actions[..n]);
      StepKeepsInv(Run(s, actions[..n]), actions[n]);
    }
    hide Step, Inv;
  }

  lemma {:induction false} ButtonKeepsGeneration(s: State, actions: seq<Action>, b: MouseButton)
    requires Inv(s) && b in s.buttons
    ensures var now := Run(s, actions).buttons;
            && (ButtonStayed(s, actions, b) <==> b in now && now[b].generation == s.buttons[b].generation)
            && (b in now && now[b].generation != s.buttons[b].generation ==> now[b].generation >= s.nextGeneration)
    decreases |actions|
  {
    if actions != [] {
      var n := |actions| - 1;
      ButtonKeepsGeneration(s, actions[..n], b);
      RunKeepsInv(s, actions[..n]);
      StepKeepsInv(Run(s, actions[..n]), actions[n]);
    }
    hide Step, Inv;
  }

  lemma {:induction false} StayedSinceStart(s: State, actions: seq<Action>, k: nat, b: MouseButton)
    ensures KeyStayed(s, actions, k) ==> k in s.keys
    ensures ButtonStayed(s, actions, b) ==> b in s.buttons
    decreases |actions|
  {
    if actions != [] {
      StayedSinceStart(s, actions[..|actions| - 1], k, b);
    }
  }

  /**
   Confirming a batch after anything else was recorded, snapshot or confirmed since clears exactly the controls of
   the batch that were held all the time; one released in between survives, pressed again or not.
   */
  lemma ConfirmClearsWhatStayedHeld(s: State, reason: ReleaseReason, actions: seq<Action>)
    requires Inv(s)
    ensures var batch := BatchOf(s, reason);
            var now := Run(s, actions);
            var after := Confirm(now, batch).0;
            && (forall k :: k in after.keys <==> k in now.keys && !KeyStayed(s, actions, k))
            && (forall b :: b in after.buttons <==> b in now.buttons && !ButtonStayed(s, actions, b))
            && (forall k :: k in after.keys ==> after.keys[k] == now.keys[k])
            && (forall b :: b in after.buttons ==> after.buttons[b] == now.buttons[b])
  {
    var batch := BatchOf(s, reason);
    var now := Run(s, actions);
    RunKeepsInv(s, actions);
    BatchCoversHeld(s, reason);
    ClearedKeys(now.keys, batch.keys);
    ClearedButtons(now.buttons, batch.buttons);
    forall k ensures KeyStayed(s, actions, k) <==> k in now.keys && k in s.keys && now.keys[k] == s.keys[k] {
      StayedSinceStart(s, actions, k, Left);
      if k in s.keys {
        KeyKeepsGeneration(s, actions, k);
      }
    }
    forall b ensures ButtonStayed(s, actions, b) <==>
                       b in now.buttons && b in s.buttons && now.buttons[b].generation == s.buttons[b].generation {
      StayedSinceStart(s, actions, 0, b);
      if b in s.buttons {
        ButtonKeepsGeneration(s, actions, b);
      }
    }
    hide KeyStayed, ButtonStayed, BatchOf, ClearKeys, ClearButtons, Run, Inv;
  }

  /** A batch of another ledger clears nothing. */
  lemma ForeignBatchClearsNothing(s: State, batch: Batch)
    requires batch.ledger != s.id
    ensures Confirm(s, batch) == (s, 0)
  {
  }

  // ----- The ledger as an object

  class PressedStateLedger {
    const id: Id
    var nextGeneration: nat
    var nextToken: nat
    var keys: map<nat, nat>
    var buttons: map<MouseButton, Held>

    ghost function Model(): State
      reads this
    {
      State(id, nextGeneration, nextToken, keys, buttons)
    }

    constructor (id: Id)
      ensures Inv(Model()) && Model() == State(id, 1, 1, map[], map[])
    {
      this.id := id;
      nextGeneration, nextToken, keys, buttons := 1, 1, map[], map[];
    }

    method Record(key: nat, pressed: bool) returns (r: Result<bool, LedgerError>)
      requires Inv(Model())
      modifies this`nextGeneration, this`keys
      ensures Inv(Model()) && (Model(), r) == RecordKey(old(Model()), key, pressed)
    {
      hide Inv;
      KeyRecordKeepsInv(Model(), key, pressed);
      if pressed {
        if key in keys {
          return Ok(false);
        }
        if nextGeneration + 1 >= U64_LIMIT {
          return Err(GenerationExhausted);
        }
        var generation := nextGeneration;
        nextGeneration := nextGeneration + 1;
        keys := keys[key := generation];
        return Ok(true);
      }
      r := Ok(key in keys);
      keys := keys - {key};
    }

    method RecordMouse(button: MouseButton, pressed: bool, x: int, y: int, anchor: nat)
        returns (r: Result<bool, LedgerError>)
      requires Inv(Model())
      modifies this`nextGeneration, this`buttons
      ensures Inv(Model()) && (Model(), r) == RecordButton(old(Model()), button, pressed, x, y, anchor)
    {
      hide Inv;
      ButtonRecordKeepsInv(Model(), button, pressed, x, y, anchor);
      if pressed {
        if button in buttons {
          return Ok(false);
        }
        if nextGeneration + 1 >= U64_LIMIT {
          return Err(GenerationExhausted);
        }
        var generation := nextGeneration;
        nextGeneration := nextGeneration + 1;
        buttons := buttons[button := Held(x, y, anchor, generation)];
        return Ok(true);
      }
      r := Ok(button in buttons);
      buttons := buttons - {button};
    }

    /** release_all_events: held state stays as it is. */
    method ReleaseAllEvents(reason: ReleaseReason) returns (r: Result<Batch, LedgerError>)
      modifies this`nextToken
      ensures (Model(), r) == TakeBatch(old(Model()), reason)
    {
      if nextToken + 1 >= U64_LIMIT {
        return Err(BatchTokenExhausted);
      }
      var held := State(id, nextGeneration, nextToken, keys, buttons);
      nextToken := nextToken + 1;
      var batch := CollectReleases(held, reason);
      return Ok(batch);
    }

    static method CollectReleases(s: State, reason: ReleaseReason) returns (batch: Batch)
      ensures batch == BatchOf(s, reason)
    {
      HeldAreListed(s);
      ghost var full := BatchOf(s, reason);
      var heldKeys, heldButtons := HeldKeys(s), HeldButtons(s);
      hide HeldKeys, HeldButtons;
      var events: seq<Release>, keyGenerations: seq<(nat, nat)>, buttonGenerations: seq<(MouseButton, nat)> := [], [],
          [];
      for i := 0 to |heldKeys|
        invariant events == full.events[..i] && keyGenerations == full.keys[..i]
      {
        assert heldKeys[i] in s.keys;
        events := events + [KeyRelease(heldKeys[i])];
        keyGenerations := keyGenerations + [(heldKeys[i], s.keys[heldKeys[i]])];
      }
      for i := 0 to |heldButtons|
        invariant events == full.events[..|heldKeys| + i] && buttonGenerations == full.buttons[..i]
      {
        assert heldButtons[i] in s.buttons;
        var held := s.buttons[heldButtons[i]];
        events := events + [ButtonRelease(heldButtons[i], held.x, held.y, held.anchor)];
        buttonGenerations := buttonGenerations + [(heldButtons[i], held.generation)];
      }
      return Batch(s.id, s.nextToken, reason, events, keyGenerations, buttonGenerations);
    }

    method ConfirmReleaseAll(batch: Batch) returns (cleared: int)
      requires Inv(Model())
      modifies this`keys, this`buttons
      ensures Inv(Model()) && (Model(), cleared) == Confirm(old(Model()), batch)
    {
      ghost var s := Model();
      ConfirmKeeps(s, batch);
      cleared := ClearBatch(batch);
    }

    /** The body of confirm_release_all. */
    method ClearBatch(batch: Batch) returns (cleared: int)
      modifies this`keys, this`buttons
      ensures (Model(), cleared) == Confirm(old(Model()), batch)
    {
      hide ClearKeys, ClearButtons;
      if batch.ledger != id {
        return 0;
      }
      var clearedKeys := ClearBatchKeys(batch.keys);
      var clearedButtons := ClearBatchButtons(batch.buttons);
      return clearedKeys + clearedButtons;
    }

    method ClearBatchKeys(batch: seq<(nat, nat)>) returns (cleared: int)
      modifies this`keys
      ensures keys == ClearKeys(old(keys), batch) && cleared == |old(keys)| - |keys|
    {
      cleared := 0;
      for i := 0 to |batch|
        invariant ClearKeys(keys, batch[i..]) == ClearKeys(old(keys), batch)
        invariant cleared == |old(keys)| - |keys|
      {
        var (key, generation) := batch[i];
        assert batch[i..][0] == batch[i] && batch[i..][1..] == batch[i + 1..];
        if key in keys && keys[key] == generation {
          assert (keys - {key}).Keys == keys.Keys - {key};
          keys := keys - {key};
          cleared := cleared + 1;
        }
      }
    }

    method ClearBatchButtons(batch: seq<(MouseButton, nat)>) returns (cleared: int)
      modifies this`buttons
      ensures buttons == ClearButtons(old(buttons), batch) && cleared == |old(buttons)| - |buttons|
    {
      cleared := 0;
      for i := 0 to |batch|
        invariant ClearButtons(buttons, batch[i..]) == ClearButtons(old(buttons), batch)
        invariant cleared == |old(buttons)| - |buttons|
      {
        var (button, generation) := batch[i];
        assert batch[i..][0] == batch[i] && batch[i..][1..] == batch[i + 1..];
        if button in buttons && buttons[button].generation == generation {
          assert (buttons - {button}).Keys == buttons.Keys - {button};
          buttons := buttons - {button};
          cleared := cleared + 1;
        }
      }
    }
  }

  // ----- The gate

  datatype Owner = Owner(peer: Id, connection: Id)

  datatype Gate = Gate(owner: Owner, epoch: nat, realtime: Option<nat>, reliable: Option<nat>)

  datatype Verdict = Accepted | AcceptedWithGap(gap: nat) | OutOfOrder | WrongOwnerOrEpoch

  function AcceptSequence(last: Option<nat>, sequence: nat): (Option<nat>, Verdict) {
    match last
    case None => (Some(sequence), Accepted)
    case Some(previous) =>
      if sequence <= previous then (last, OutOfOrder)
      else if sequence == previous + 1 then (Some(sequence), Accepted)
      else (Some(sequence), AcceptedWithGap(sequence - previous - 1))
  }

  datatype Frame = Frame(owner: Owner, epoch: nat, sequence: nat, isReliable: bool)

  datatype GateAction = Offer(frame: Frame) | Transfer(owner: Owner, epoch: nat)

  function GateStep(g: Gate, a: GateAction): (Gate, Option<Verdict>) {
    match a
    case Transfer(owner, epoch) => (if epoch <= g.epoch then g else Gate(owner, epoch, None, None), None)
    case Offer(f) =>
      if f.owner != g.owner || f.epoch != g.epoch then (g, Some(WrongOwnerOrEpoch))
      else if f.isReliable then
        var (last, verdict) := AcceptSequence(g.reliable, f.sequence);
        (g.(reliable := last), Some(verdict))
      else
        var (last, verdict) := AcceptSequence(g.realtime, f.sequence);
        (g.(realtime := last), Some(verdict))
  }

  predicate Admits(v: Option<Verdict>) {
    v.Some? && (v.value.Accepted? || v.value.AcceptedWithGap?)
  }

  function GateRun(g: Gate, actions: seq<GateAction>): Gate {
    if actions == [] then g else GateStep(GateRun(g, actions[..|actions| - 1]), actions[|actions| - 1]).0
  }

  /** Frame f of the run was admitted. */
  predicate AdmittedAt(g: Gate, actions: seq<GateAction>, i: nat) {
    i < |actions| && actions[i].Offer? && Admits(GateStep(GateRun(g, actions[..i]), actions[i]).1)
  }

  function LastOf(g: Gate, isReliable: bool): Option<nat> {
    if isReliable then g.reliable else g.realtime
  }

  // ----- Whom the gate listens to

  /** The transfer at k is the first of the run to an epoch above all the earlier ones that no later one exceeds. */
  predicate LastHandover(g: Gate, actions: seq<GateAction>, k: nat) {
    && k < |actions| && actions[k].Transfer? && g.epoch < actions[k].epoch
    && (forall j :: 0 <= j < k && actions[j].Transfer? ==> actions[j].epoch < actions[k].epoch)
    && (forall j :: k < j < |actions| && actions[j].Transfer? ==> actions[j].epoch <= actions[k].epoch)
  }

  /** No transfer of the run goes beyond the first epoch. */
  predicate NoHandover(g: Gate, actions: seq<GateAction>) {
    forall j :: 0 <= j < |actions| && actions[j].Transfer? ==> actions[j].epoch <= g.epoch
  }

  /** The gate belongs to the owner and epoch of the last transfer whose epoch grew, or to the first ones. */
  lemma {:induction false} GateBelongsToLastHandover(g: Gate, actions: seq<GateAction>) returns (k: nat)
    ensures var now := GateRun(g, actions);
            if NoHandover(g, actions) then (now.owner, now.epoch) == (g.owner, g.epoch)
            else LastHandover(g, actions, k) && (now.owner, now.epoch) == (actions[k].owner, actions[k].epoch)
    decreases |actions|
  {
    k := 0;
    if actions != [] {
      var n := |actions| - 1;
      k := GateBelongsToLastHandover(g, actions[..n]);
      var before := GateRun(g, actions[..n]);
      if actions[n].Transfer? && actions[n].epoch > before.epoch {
        k := n;
      }
    }
  }

  /** A frame is admitted only from the owner, and at the epoch, of the last transfer before it whose epoch grew. */
  lemma AdmittedOnlyFromHolder(g: Gate, actions: seq<GateAction>, i: nat) returns (k: nat)
    requires AdmittedAt(g, actions, i)
    ensures var f := actions[i].frame;
            if NoHandover(g, actions[..i]) then (f.owner, f.epoch) == (g.owner, g.epoch)
            else LastHandover(g, actions[..i], k) && (f.owner, f.epoch) == (actions[k].owner, actions[k].epoch)
  {
    k := GateBelongsToLastHandover(g, actions[..i]);
    hide NoHandover, GateRun;
  }

  /** The frame would be the first of its stream from its owner at its epoch. */
  predicate NewTo(actions: seq<GateAction>, f: Frame) {
    forall j :: 0 <= j < |actions| && actions[j].Offer? ==>
      var e := actions[j].frame;
      e.owner != f.owner || e.epoch != f.epoch || e.isReliable != f.isReliable
  }

  lemma {:induction false} SilentUntilFirst(g: Gate, owner: Owner, epoch: nat, actions: seq<GateAction>, f: Frame)
    requires epoch > g.epoch && f.owner == owner && f.epoch == epoch && NewTo(actions, f)
    requires forall j :: 0 <= j < |actions| && actions[j].Transfer? ==> actions[j].epoch <= epoch
    ensures var now := GateRun(GateStep(g, Transfer(owner, epoch)).0, actions);
            now.owner == owner && now.epoch == epoch && LastOf(now, f.isReliable) == None
    decreases |actions|
  {
    if actions != [] {
      SilentUntilFirst(g, owner, epoch, actions[..|actions| - 1], f);
    }
  }

  /**
   After a transfer to a later epoch, and whatever is offered since, until the next such transfer the new owner's first
   frame of each stream is accepted whatever its number, and nothing of another owner or epoch is.
   */
  lemma HandoverStartsAfresh(g: Gate, owner: Owner, epoch: nat, actions: seq<GateAction>, f: Frame)
    requires epoch > g.epoch
    requires forall j :: 0 <= j < |actions| && actions[j].Transfer? ==> actions[j].epoch <= epoch
    ensures var verdict := GateStep(GateRun(GateStep(g, Transfer(owner, epoch)).0, actions), Offer(f)).1;
            && (f.owner != owner || f.epoch != epoch <==> verdict == Some(WrongOwnerOrEpoch))
            && (f.owner == owner && f.epoch == epoch && NewTo(actions, f) ==> verdict == Some(Accepted))
  {
    StaysWith(g, owner, epoch, actions);
    if f.owner == owner && f.epoch == epoch && NewTo(actions, f) {
      SilentUntilFirst(g, owner, epoch, actions, f);
    }
    hide GateRun, NewTo;
  }

  lemma {:induction false} StaysWith(g: Gate, owner: Owner, epoch: nat, actions: seq<GateAction>)
    requires epoch > g.epoch
    requires forall j :: 0 <= j < |actions| && actions[j].Transfer? ==> actions[j].epoch <= epoch
    ensures var now := GateRun(GateStep(g, Transfer(owner, epoch)).0, actions);
            now.owner == owner && now.epoch == epoch
    decreases |actions|
  {
    if actions != [] {
      StaysWith(g, owner, epoch, actions[..|actions| - 1]);
    }
  }

  /** What the gate says of a frame of its owner, by the last number it let through of the stream. */
  lemma VerdictExactly(g: Gate, f: Frame)
    requires f.owner == g.owner && f.epoch == g.epoch
    ensures var (g', verdict) := GateStep(g, Offer(f));
            var last := LastOf(g, f.isReliable);
            && (verdict == Some(OutOfOrder) <==> last.Some? && f.sequence <= last.value)
            && (verdict == Some(Accepted) <==> last.None? || f.sequence == last.value + 1)
            && (forall gap :: verdict == Some(AcceptedWithGap(gap)) <==>
                  last.Some? && f.sequence > last.value + 1 && gap == f.sequence - last.value - 1)
            && LastOf(g', f.isReliable) == (if verdict == Some(OutOfOrder) then last else Some(f.sequence))
            && LastOf(g', !f.isReliable) == LastOf(g, !f.isReliable)
            && g'.owner == g.owner && g'.epoch == g.epoch
  {
  }

  /** The gate remembers the epoch of every admitted frame, or has left it, and its sequence number, or a later one. */
  lemma {:induction false} AdmittedIsRemembered(g: Gate, actions: seq<GateAction>, i: nat)
    requires AdmittedAt(g, actions, i)
    ensures var f := actions[i].frame;
            var now := GateRun(g, actions);
            && f.epoch <= now.epoch
            && (f.epoch == now.epoch ==>
                  f.owner == now.owner && LastOf(now, f.isReliable).Some?
                      && f.sequence <= LastOf(now, f.isReliable).value)
    decreases |actions|
  {
    var n := |actions| - 1;
    if i < n {
      assert actions[..n][..i] == actions[..i];
      AdmittedIsRemembered(g, actions[..n], i);
    }
  }

  /**
   No replays: of two admitted frames of one epoch and one stream the later has the larger number and the same owner.
   */
  lemma AdmittedOnlyForward(g: Gate, actions: seq<GateAction>, i: nat, j: nat)
    requires i < j && AdmittedAt(g, actions, i) && AdmittedAt(g, actions, j)
    ensures actions[i].frame.epoch <= actions[j].frame.epoch
    ensures actions[i].frame.epoch == actions[j].frame.epoch ==> actions[i].frame.owner == actions[j].frame.owner
    ensures actions[i].frame.epoch == actions[j].frame.epoch
            && actions[i].frame.isReliable == actions[j].frame.isReliable ==>
              actions[i].frame.sequence < actions[j].frame.sequence
  {
    assert actions[..j][..i] == actions[..i];
    AdmittedIsRemembered(g, actions[..j], i);
  }

  // ----- The gate as an object

  class InputOwnershipGate {
    var owner: Owner
    var epoch: nat
    var lastRealtime: Option<nat>
    var lastReliable: Option<nat>

    ghost function Model(): Gate
      reads this
    {
      Gate(owner, epoch, lastRealtime, lastReliable)
    }

    constructor (owner: Owner, epoch: nat)
      ensures Model() == Gate(owner, epoch, None, None)
    {
      this.owner, this.epoch, lastRealtime, lastReliable := owner, epoch, None, None;
    }

    /** Whether the gate was handed over; an epoch that does not grow is refused. */
    method HandOver(owner: Owner, epoch: nat) returns (ok: bool)
      modifies this
      ensures ok <==> epoch > old(this.epoch)
      ensures Model() == GateStep(old(Model()), Transfer(owner, epoch)).0
      ensures Model() == if ok then Gate(owner, epoch, None, None) else old(Model())
    {
      if epoch <= this.epoch {
        return false;
      }
      this.owner := owner;
      this.epoch := epoch;
      lastRealtime := None;
      lastReliable := None;
      return true;
    }

    method AcceptRealtime(owner: Owner, epoch: nat, sequence: nat) returns (verdict: Verdict)
      modifies this`lastRealtime
      ensures (Model(), Some(verdict)) == GateStep(old(Model()), Offer(Frame(owner, epoch, sequence, false)))
    {
      if owner != this.owner || epoch != this.epoch {
        return WrongOwnerOrEpoch;
      }
      lastRealtime, verdict := Accept(lastRealtime, sequence);
    }

    method AcceptReliable(owner: Owner, epoch: nat, sequence: nat) returns (verdict: Verdict)
      modifies this`lastReliable
      ensures (Model(), Some(verdict)) == GateStep(old(Model()), Offer(Frame(owner, epoch, sequence, true)))
    {
      if owner != this.owner || epoch != this.epoch {
        return WrongOwnerOrEpoch;
      }
      lastReliable, verdict := Accept(lastReliable, sequence);
    }

    /** accept_sequence; the gap is the count of numbers that were skipped. */
    static method Accept(last: Option<nat>, sequence: nat) returns (next: Option<nat>, verdict: Verdict)
      ensures (next, verdict) == AcceptSequence(last, sequence)
      ensures verdict.OutOfOrder? <==> last.Some? && sequence <= last.value
      ensures verdict.AcceptedWithGap? ==> last.Some? && verdict.gap > 0 && last.value + verdict.gap + 1 == sequence
    {
      if last.None? {
        return Some(sequence), Accepted;
      }
      if sequence <= last.value {
        return last, OutOfOrder;
      }
      var gap := sequence - last.value - 1;
      return Some(sequence), if gap == 0 then Accepted else AcceptedWithGap(gap);
    }
  }
}
