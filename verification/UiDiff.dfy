/** The transitions that lead from one set of pressed controls to another, in the order they are emitted. */
module UiDiff {
  import opened Common
  import opened InputEvents
  import opened UiState

  // ----- Sets as ascending lists

  function Listing(codes: set<nat>): seq<nat> {
    if codes == {} then [] else [Smallest(codes)] + Listing(codes - {Smallest(codes)})
  }

  lemma {:induction false} ListingHas(codes: set<nat>)
    ensures forall x :: x in Listing(codes) <==> x in codes
    ensures |Listing(codes)| == |codes|
  {
    if codes != {} {
      ListingHas(codes - {Smallest(codes)});
    }
  }

  /** The rank by which gamepad buttons are sorted: by gamepad, then by button. */
  function PadRank(b: PadButton): nat {
    b.gamepad * PAD_KINDS + b.button
  }

  function PadOfRank(rank: nat): PadButton {
    PadButton((rank / PAD_KINDS) % 256, rank % PAD_KINDS)
  }

  function ButtonRanks(buttons: set<MouseButton>): set<nat> {
    set b | b in buttons :: ButtonRank(b)
  }

  function PadRanks(pads: set<PadButton>): set<nat> {
    set b | b in pads :: PadRank(b)
  }

  lemma PadRankInverse(b: PadButton)
    ensures PadOfRank(PadRank(b)) == b
  {
  }

  // ----- Lists of transitions

  function KeyChanges(keys: seq<nat>, pressed: bool, at: nat): (ts: seq<Transition>)
    ensures |ts| == |keys|
  {
    seq(|keys|, i requires 0 <= i < |keys| => KeyChange(keys[i], pressed, at))
  }

  function ButtonChanges(ranks: seq<nat>, pressed: bool, at: nat): (ts: seq<Transition>)
    ensures |ts| == |ranks|
  {
    seq(|ranks|, i requires 0 <= i < |ranks| => ButtonChange(ButtonOfRank(ranks[i]), pressed, at))
  }

  function PadChanges(ranks: seq<nat>, current: set<PadButton>, at: nat): seq<Transition> {
    seq(|ranks|, i requires 0 <= i < |ranks| => PadChange(PadOfRank(ranks[i]), PadOfRank(ranks[i]) in current, at))
  }

  /** discrete_changes: releases, then presses, of keys and then of mouse buttons. */
  function DiscreteChanges(d: Dynamic, keys: set<nat>, buttons: set<MouseButton>, at: nat): seq<Transition> {
    KeyChanges(Listing(d.keys - keys), false, at) + KeyChanges(Listing(keys - d.keys), true, at)
    + ButtonChanges(Listing(ButtonRanks(d.buttons - buttons)), false, at)
    + ButtonChanges(Listing(ButtonRanks(buttons - d.buttons)), true, at)
  }

  /** gamepad_button_transitions: every button that differs, by gamepad and button. */
  function PadTransitions(previous: set<PadButton>, current: set<PadButton>, at: nat): seq<Transition> {
    PadChanges(Listing(PadRanks((previous - current) + (current - previous))), current, at)
  }

  /** gamepad_pressed_changes: releases first, then presses. */
  function PadPressedChanges(previous: set<PadButton>, target: set<PadButton>, at: nat): seq<Transition> {
    PadChanges(Listing(PadRanks(previous - target)), target, at)
        + PadChanges(Listing(PadRanks(target - previous)), target, at)
  }

  /** The pressed controls after a list of transitions. */
  function Fold(d: Dynamic, ts: seq<Transition>): Dynamic {
    if ts == [] then d else ApplyTransition(Fold(d, ts[..|ts| - 1]), ts[|ts| - 1])
  }

  lemma {:induction false} FoldAppend(d: Dynamic, a: seq<Transition>, b: seq<Transition>)
    ensures Fold(d, a + b) == Fold(Fold(d, a), b)
  {
    if b == [] {
      assert a + b == a;
    } else {
      FoldAppend(d, a, b[..|b| - 1]);
      assert (a + b)[..|a + b| - 1] == a + b[..|b| - 1];
    }
  }

  function Elements(keys: seq<nat>): set<nat> {
    set k | k in keys
  }

  lemma KeysOfListing(keys: set<nat>)
    ensures Elements(Listing(keys)) == keys
  {
    ListingHas(keys);
  }

  lemma {:induction false} FoldKeys(d: Dynamic, keys: seq<nat>, pressed: bool, at: nat)
    ensures Fold(d, KeyChanges(keys, pressed, at))
            == d.(keys := if pressed then d.keys + Elements(keys) else d.keys - Elements(keys))
  {
    var ts := KeyChanges(keys, pressed, at);
    if keys != [] {
      var n := |keys| - 1;
      FoldKeys(d, keys[..n], pressed, at);
      assert ts[..n] == KeyChanges(keys[..n], pressed, at);
      assert Elements(keys) == Elements(keys[..n]) + {keys[n]} by {
        assert keys == keys[..n] + [keys[n]];
      }
    }
  }

  lemma {:induction false} FoldButtons(d: Dynamic, ranks: seq<nat>, pressed: bool, at: nat)
    ensures var changed := set r | r in ranks :: ButtonOfRank(r);
            Fold(d, ButtonChanges(ranks, pressed, at))
            == d.(buttons := if pressed then d.buttons + changed else d.buttons - changed)
  {
    var ts := ButtonChanges(ranks, pressed, at);
    if ranks != [] {
      var n := |ranks| - 1;
      FoldButtons(d, ranks[..n], pressed, at);
      assert ts[..n] == ButtonChanges(ranks[..n], pressed, at);
      assert (set r | r in ranks :: ButtonOfRank(r)) == (set r | r in ranks[..n] ::
          ButtonOfRank(r)) + {ButtonOfRank(ranks[n])} by {
        assert ranks == ranks[..n] + [ranks[n]];
      }
    }
  }

  lemma {:induction false} FoldPads(d: Dynamic, ranks: seq<nat>, current: set<PadButton>, at: nat)
    ensures var changed := set r | r in ranks :: PadOfRank(r);
            Fold(d, PadChanges(ranks, current, at)) == d.(padButtons := (d.padButtons - changed) + (changed * current))
  {
    var ts := PadChanges(ranks, current, at);
    if ranks != [] {
      var n := |ranks| - 1;
      FoldPads(d, ranks[..n], current, at);
      assert ts[..n] == PadChanges(ranks[..n], current, at);
      var last := PadOfRank(ranks[n]);
      var before := set r | r in ranks[..n] :: PadOfRank(r);
      assert (set r | r in ranks :: PadOfRank(r)) == before + {last} by {
        assert ranks == ranks[..n] + [ranks[n]];
      }
      assert Member((d.padButtons - before) + (before * current), last, last in current)
             == (d.padButtons - (before + {last})) + ((before + {last}) * current);
    }
  }

  lemma ButtonsOfListing(buttons: set<MouseButton>)
    ensures (set r | r in Listing(ButtonRanks(buttons)) :: ButtonOfRank(r)) == buttons
  {
    ListingHas(ButtonRanks(buttons));
    hide ButtonRank, ButtonOfRank;
    var back := set r | r in Listing(ButtonRanks(buttons)) :: ButtonOfRank(r);
    forall b | b in buttons ensures b in back {
      ButtonRankInverse(b);
      assert ButtonRank(b) in ButtonRanks(buttons);
    }
    forall b | b in back ensures b in buttons {
      var r :| r in Listing(ButtonRanks(buttons)) && ButtonOfRank(r) == b;
      var c :| c in buttons && ButtonRank(c) == r;
      ButtonRankInverse(c);
    }
  }

  lemma PadsOfListing(pads: set<PadButton>)
    ensures (set r | r in Listing(PadRanks(pads)) :: PadOfRank(r)) == pads
  {
    ListingHas(PadRanks(pads));
    hide PadRank, PadOfRank;
    var back := set r | r in Listing(PadRanks(pads)) :: PadOfRank(r);
    forall b | b in pads ensures b in back {
      PadRankInverse(b);
      assert PadRank(b) in PadRanks(pads);
    }
    forall b | b in back ensures b in pads {
      var r :| r in Listing(PadRanks(pads)) && PadOfRank(r) == b;
      var c :| c in pads && PadRank(c) == r;
      PadRankInverse(c);
    }
  }

  lemma {:induction false} RanksKeepSize(buttons: set<MouseButton>)
    ensures |ButtonRanks(buttons)| == |buttons|
  {
    if b :| b in buttons {
      RanksKeepSize(buttons - {b});
      ButtonRankInverse(b);
      forall other | other in buttons ensures other == b || ButtonRank(other) != ButtonRank(b) {
        ButtonRankInverse(other);
      }
      hide ButtonRank, ButtonOfRank;
      assert ButtonRanks(buttons) == ButtonRanks(buttons - {b}) + {ButtonRank(b)};
    }
  }

  lemma FoldKeyDiff(d: Dynamic, keys: set<nat>, at: nat)
    ensures var ts := KeyChanges(Listing(d.keys - keys), false, at) + KeyChanges(Listing(keys - d.keys), true, at);
            Fold(d, ts) == d.(keys := keys) && |ts| == |d.keys - keys| + |keys - d.keys|
  {
    hide Listing, Fold, Elements;
    var a := KeyChanges(Listing(d.keys - keys), false, at);
    var b := KeyChanges(Listing(keys - d.keys), true, at);
    FoldAppend(d, a, b);
    FoldKeys(d, Listing(d.keys - keys), false, at);
    FoldKeys(Fold(d, a), Listing(keys - d.keys), true, at);
    ListingHas(d.keys - keys);
    ListingHas(keys - d.keys);
    KeysOfListing(d.keys - keys);
    KeysOfListing(keys - d.keys);
    hide KeyChanges;
    assert (d.keys - (d.keys - keys)) + (keys - d.keys) == keys;
  }

  lemma FoldButtonDiff(d: Dynamic, buttons: set<MouseButton>, at: nat)
    ensures var ts := ButtonChanges(Listing(ButtonRanks(d.buttons - buttons)), false, at)
                      + ButtonChanges(Listing(ButtonRanks(buttons - d.buttons)), true, at);
            Fold(d, ts) == d.(buttons := buttons) && |ts| == |d.buttons - buttons| + |buttons - d.buttons|
  {
    var a := ButtonChanges(Listing(ButtonRanks(d.buttons - buttons)), false, at);
    var b := ButtonChanges(Listing(ButtonRanks(buttons - d.buttons)), true, at);
    FoldAppend(d, a, b);
    FoldButtons(d, Listing(ButtonRanks(d.buttons - buttons)), false, at);
    FoldButtons(Fold(d, a), Listing(ButtonRanks(buttons - d.buttons)), true, at);
    ListingHas(ButtonRanks(d.buttons - buttons));
    ListingHas(ButtonRanks(buttons - d.buttons));
    ButtonsOfListing(d.buttons - buttons);
    ButtonsOfListing(buttons - d.buttons);
    RanksKeepSize(d.buttons - buttons);
    RanksKeepSize(buttons - d.buttons);
    hide Listing, Fold, ButtonRanks, ButtonOfRank, ButtonChanges;
    assert (d.buttons - (d.buttons - buttons)) + (buttons - d.buttons) == buttons;
  }

  /** The emitted transitions lead to the projected keys and buttons, one for each control that differs. */
  lemma DiscreteChangesReach(d: Dynamic, keys: set<nat>, buttons: set<MouseButton>, at: nat)
    ensures var ts := DiscreteChanges(d, keys, buttons, at);
            && Fold(d, ts) == d.(keys := keys, buttons := buttons)
            && |ts| == |d.keys - keys| + |keys - d.keys| + |d.buttons - buttons| + |buttons - d.buttons|
  {
    var a := KeyChanges(Listing(d.keys - keys), false, at) + KeyChanges(Listing(keys - d.keys), true, at);
    var b := ButtonChanges(Listing(ButtonRanks(d.buttons - buttons)), false, at)
             + ButtonChanges(Listing(ButtonRanks(buttons - d.buttons)), true, at);
    FoldKeyDiff(d, keys, at);
    FoldButtonDiff(d.(keys := keys), buttons, at);
    FoldAppend(d, a, b);
    hide Listing, Fold, ButtonRanks, KeyChanges, ButtonChanges;
    assert DiscreteChanges(d, keys, buttons, at) == a + b;
  }

  /** The transitions: a release for each control no longer pressed, a press for each new one, all of one time. */
  lemma DiscreteChangesExactly(d: Dynamic, keys: set<nat>, buttons: set<MouseButton>, at: nat)
    ensures var ts := DiscreteChanges(d, keys, buttons, at);
            && (forall k, pressed, time ::
                  KeyChange(k, pressed, time) in ts <==>
                  time == at && if pressed then k in keys && k !in d.keys else k in d.keys && k !in keys)
            && (forall b, pressed, time ::
                  ButtonChange(b, pressed, time) in ts <==>
                  time == at && if pressed then b in buttons && b !in d.buttons else b in d.buttons && b !in buttons)
            && (forall t :: t in ts ==> t.KeyChange? || t.ButtonChange?)
  {
    KeysListed(d.keys - keys, false, at);
    KeysListed(keys - d.keys, true, at);
    ButtonsListed(d.buttons - buttons, false, at);
    ButtonsListed(buttons - d.buttons, true, at);
    hide Listing, ButtonRanks, KeyChanges, ButtonChanges;
  }

  lemma KeysListed(keys: set<nat>, pressed: bool, at: nat)
    ensures forall t :: t in KeyChanges(Listing(keys), pressed, at) <==>
              t.KeyChange? && t.key in keys && t.pressed == pressed && t.observedAt == at
  {
    ListingHas(keys);
    var ts := KeyChanges(Listing(keys), pressed, at);
    forall k | k in keys ensures KeyChange(k, pressed, at) in ts {
      var i :| 0 <= i < |Listing(keys)| && Listing(keys)[i] == k;
      assert ts[i] == KeyChange(k, pressed, at);
    }
  }

  lemma ButtonsListed(buttons: set<MouseButton>, pressed: bool, at: nat)
    ensures forall t :: t in ButtonChanges(Listing(ButtonRanks(buttons)), pressed, at) <==>
              t.ButtonChange? && t.button in buttons && t.pressed == pressed && t.observedAt == at
  {
    var ranks := Listing(ButtonRanks(buttons));
    ListingHas(ButtonRanks(buttons));
    var ts := ButtonChanges(ranks, pressed, at);
    hide ButtonRank, ButtonOfRank;
    forall b | b in buttons ensures ButtonChange(b, pressed, at) in ts {
      ButtonRankInverse(b);
      assert ButtonRank(b) in ButtonRanks(buttons);
      var i :| 0 <= i < |ranks| && ranks[i] == ButtonRank(b);
      assert ts[i] == ButtonChange(b, pressed, at);
    }
    forall i | 0 <= i < |ranks| ensures ts[i].button in buttons {
      assert ranks[i] in ButtonRanks(buttons);
      var b :| b in buttons && ButtonRank(b) == ranks[i];
      ButtonRankInverse(b);
    }
  }

  /** The same for gamepad buttons, whichever of the two lists is asked for. */
  lemma PadChangesExactly(previous: set<PadButton>, current: set<PadButton>, at: nat)
    ensures forall t :: t in PadTransitions(previous, current, at) <==> IsPadNews(previous, current, at, t)
    ensures forall t :: t in PadPressedChanges(previous, current, at) <==> IsPadNews(previous, current, at, t)
  {
    PadsListed((previous - current) + (current - previous), current, at);
    PadsListed(previous - current, current, at);
    PadsListed(current - previous, current, at);
    hide Listing, PadRanks, PadChanges;
  }

  predicate IsPadNews(previous: set<PadButton>, current: set<PadButton>, at: nat, t: Transition) {
    && t.PadChange? && t.observedAt == at
    && if t.pressed then t.padButton in current && t.padButton !in previous
       else t.padButton in previous && t.padButton !in current
  }

  lemma PadsListed(pads: set<PadButton>, current: set<PadButton>, at: nat)
    ensures forall t :: t in PadChanges(Listing(PadRanks(pads)), current, at) <==>
              t.PadChange? && t.padButton in pads && t.pressed == (t.padButton in current) && t.observedAt == at
  {
    var ranks := Listing(PadRanks(pads));
    ListingHas(PadRanks(pads));
    var ts := PadChanges(ranks, current, at);
    hide PadRank, PadOfRank;
    forall b | b in pads ensures PadChange(b, b in current, at) in ts {
      PadRankInverse(b);
      assert PadRank(b) in PadRanks(pads);
      var i :| 0 <= i < |ranks| && ranks[i] == PadRank(b);
      assert ts[i] == PadChange(b, b in current, at);
    }
    forall i | 0 <= i < |ranks| ensures ts[i].padButton in pads {
      assert ranks[i] in PadRanks(pads);
      var b :| b in pads && PadRank(b) == ranks[i];
      PadRankInverse(b);
    }
  }

  /** Gamepad transitions computed from the previous set lead any view holding that set to the current one. */
  lemma PadTransitionsReach(d: Dynamic, current: set<PadButton>, at: nat)
    ensures Fold(d, PadTransitions(d.padButtons, current, at)) == d.(padButtons := current)
    ensures Fold(d, PadPressedChanges(d.padButtons, current, at)) == d.(padButtons := current)
  {
    var previous := d.padButtons;
    var differing := (previous - current) + (current - previous);
    FoldPads(d, Listing(PadRanks(differing)), current, at);
    PadsOfListing(differing);
    var released := PadChanges(Listing(PadRanks(previous - current)), current, at);
    var pressed := PadChanges(Listing(PadRanks(current - previous)), current, at);
    FoldAppend(d, released, pressed);
    FoldPads(d, Listing(PadRanks(previous - current)), current, at);
    FoldPads(Fold(d, released), Listing(PadRanks(current - previous)), current, at);
    PadsOfListing(previous - current);
    PadsOfListing(current - previous);
    hide Listing, PadRanks, Fold, PadChanges;
    assert (previous - differing) + (differing * current) == current;
    var middle := (previous - (previous - current)) + ((previous - current) * current);
    assert (middle - (current - previous)) + ((current - previous) * current) == current;
  }

  /** Nothing is emitted exactly when nothing differs. */
  lemma QuietWhenEqual(d: Dynamic, keys: set<nat>, buttons: set<MouseButton>, pads: set<PadButton>, at: nat)
    ensures DiscreteChanges(d, keys, buttons, at) == [] <==> d.keys == keys && d.buttons == buttons
    ensures PadTransitions(d.padButtons, pads, at) == [] <==> d.padButtons == pads
    ensures PadPressedChanges(d.padButtons, pads, at) == [] <==> d.padButtons == pads
  {
    DiscreteChangesReach(d, keys, buttons, at);
    PadTransitionsReach(d, pads, at);
    assert d.keys == keys ==> d.keys - keys == {} && keys - d.keys == {};
    assert d.buttons == buttons ==> d.buttons - buttons == {} && buttons - d.buttons == {};
    assert d.padButtons == pads ==> d.padButtons - pads == {} && pads - d.padButtons == {};
  }
}
