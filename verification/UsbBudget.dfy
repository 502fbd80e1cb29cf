/** Resident-memory accounting of USB requests: totals, per peer and per lease. */
module UsbBudget {
  import opened Common

  type Id = nat

  const MAX_PAYLOAD: nat := 1024 * 1024
  const TOTAL_BYTES: nat := 64 * 1024 * 1024
  const TOTAL_REQUESTS: nat := 512
  const PEER_BYTES: nat := 16 * 1024 * 1024
  const PEER_REQUESTS: nat := 128
  const LEASE_BYTES: nat := 4 * 1024 * 1024
  const LEASE_REQUESTS: nat := 32

  datatype Usage = Usage(requests: nat, bytes: nat)

  const NONE: Usage := Usage(0, 0)

  datatype Owner = Owner(peer: Id, connection: Id)

  datatype LeaseKey = LeaseKey(owner: Owner, lease: Id)

  datatype Reservation = Reservation(key: LeaseKey, bytes: nat)

  datatype BudgetError = SingleRequestTooLarge | Exhausted

  function Plus(a: Usage, b: Usage): Usage {
    Usage(a.requests + b.requests, a.bytes + b.bytes)
  }

  lemma PlusSwap(a: Usage, b: Usage, c: Usage)
    ensures Plus(a, Plus(b, c)) == Plus(b, Plus(a, c))
  {
  }

  // ----- Sums over tables

  ghost function Sum<K(!new)>(table: map<K, Usage>): Usage
    decreases |table|
  {
    if table == map[] then NONE
    else
      var k :| k in table;
      RemovalShrinks(table, k);
      Plus(table[k], Sum(table - {k}))
  }

  lemma {:induction false} SumWithout<K(!new)>(table: map<K, Usage>, k: K)
    requires k in table
    ensures Sum(table) == Plus(table[k], Sum(table - {k}))
    decreases |table|
  {
    var first :| first in table && Sum(table) == Plus(table[first], Sum(table - {first}));
    if first != k {
      RemovalShrinks(table, first);
      RemovalShrinks(table, k);
      SumWithout(table - {first}, k);
      SumWithout(table - {k}, first);
      assert table - {first} - {k} == table - {k} - {first};
      var rest := Sum(table - {first} - {k});
      assert Sum(table - {first}) == Plus(table[k], rest);
      assert Sum(table - {k}) == Plus(table[first], rest);
      PlusSwap(table[first], table[k], rest);
    }
  }

  lemma SumPut<K(!new)>(table: map<K, Usage>, k: K, usage: Usage)
    ensures Sum(table[k := usage]) == Plus(usage, Sum(table - {k}))
  {
    SumWithout(table[k := usage], k);
    assert table[k := usage] - {k} == table - {k};
  }

  // ----- State

  datatype State = State(total: Usage, peers: map<Id, Usage>, leases: map<LeaseKey, Usage>)

  function PeerUsage(s: State, peer: Id): Usage {
    if peer in s.peers then s.peers[peer] else NONE
  }

  function LeaseUsage(s: State, key: LeaseKey): Usage {
    if key in s.leases then s.leases[key] else NONE
  }

  /** Wire payload, native buffer and completion may coexist. */
  function ChargedBytes(payload: nat): nat {
    payload * 3 + 1024
  }

  predicate Fits(s: State, key: LeaseKey, bytes: nat) {
    var peer, leased := PeerUsage(s, key.owner.peer), LeaseUsage(s, key);
    && s.total.bytes + bytes <= TOTAL_BYTES && s.total.requests < TOTAL_REQUESTS
    && peer.bytes + bytes <= PEER_BYTES && peer.requests < PEER_REQUESTS
    && leased.bytes + bytes <= LEASE_BYTES && leased.requests < LEASE_REQUESTS
  }

  function ReserveError(s: State, key: LeaseKey, payload: nat): Option<BudgetError> {
    if payload > MAX_PAYLOAD then Some(SingleRequestTooLarge)
    else if !Fits(s, key, ChargedBytes(payload)) then Some(Exhausted)
    else None
  }

  function Reserve(s: State, key: LeaseKey, payload: nat): State {
    if ReserveError(s, key, payload).Some? then s
    else
      var one := Usage(1, ChargedBytes(payload));
      State(Plus(s.total, one),
            s.peers[key.owner.peer := Plus(PeerUsage(s, key.owner.peer), one)],
            s.leases[key := Plus(LeaseUsage(s, key), one)])
  }

  /** What drop takes for granted: the entries exist and nothing underflows. */
  predicate CanDrop(s: State, r: Reservation) {
    && r.key.owner.peer in s.peers && r.key in s.leases
    && s.total.requests >= 1 && s.total.bytes >= r.bytes
    && s.peers[r.key.owner.peer].requests >= 1 && s.peers[r.key.owner.peer].bytes >= r.bytes
    && s.leases[r.key].requests >= 1 && s.leases[r.key].bytes >= r.bytes
  }

  function Minus(a: Usage, bytes: nat): Usage
    requires a.requests >= 1 && a.bytes >= bytes
  {
    Usage(a.requests - 1, a.bytes - bytes)
  }

  /** The table without a use, and without the entry once it has no requests left. */
  function Refund<K(==)>(table: map<K, Usage>, k: K, bytes: nat): map<K, Usage>
    requires k in table && table[k].requests >= 1 && table[k].bytes >= bytes
  {
    var left := Minus(table[k], bytes);
    if left.requests == 0 then table - {k} else table[k := left]
  }

  function Drop(s: State, r: Reservation): State
    requires CanDrop(s, r)
  {
    State(Minus(s.total, r.bytes), Refund(s.peers, r.key.owner.peer, r.bytes), Refund(s.leases, r.key, r.bytes))
  }

  // ----- Invariant

  /** What the live reservations that satisfy a test amount to. */
  ghost function Live(live: map<nat, Reservation>): map<nat, Usage> {
    map t | t in live :: Usage(1, live[t].bytes)
  }

  function OfPeer(live: map<nat, Reservation>, peer: Id): map<nat, Reservation> {
    map t | t in live && live[t].key.owner.peer == peer :: live[t]
  }

  function OfLease(live: map<nat, Reservation>, key: LeaseKey): map<nat, Reservation> {
    map t | t in live && live[t].key == key :: live[t]
  }

  function LeasesOfPeer(leases: map<LeaseKey, Usage>, peer: Id): map<LeaseKey, Usage> {
    map k | k in leases && k.owner.peer == peer :: leases[k]
  }

  ghost predicate PeerOk(s: State, live: map<nat, Reservation>, peer: Id) {
    && PeerUsage(s, peer) == Sum(Live(OfPeer(live, peer))) == Sum(LeasesOfPeer(s.leases, peer))
    && (peer in s.peers <==> PeerUsage(s, peer).requests > 0)
    && PeerUsage(s, peer).bytes <= PEER_BYTES && PeerUsage(s, peer).requests <= PEER_REQUESTS
  }

  ghost predicate LeaseOk(s: State, live: map<nat, Reservation>, key: LeaseKey) {
    && LeaseUsage(s, key) == Sum(Live(OfLease(live, key)))
    && (key in s.leases <==> LeaseUsage(s, key).requests > 0)
    && LeaseUsage(s, key).bytes <= LEASE_BYTES && LeaseUsage(s, key).requests <= LEASE_REQUESTS
  }

  /** The books balance: total, peers and leases all add up to the live reservations, within every cap. */
  ghost predicate Inv(s: State, live: map<nat, Reservation>) {
    && s.total == Sum(Live(live)) == Sum(s.peers) == Sum(s.leases)
    && s.total.bytes <= TOTAL_BYTES && s.total.requests <= TOTAL_REQUESTS
    && (forall peer :: PeerOk(s, live, peer))
    && (forall key :: LeaseOk(s, live, key))
  }

  // ----- One more, one less

  lemma LiveAdded(live: map<nat, Reservation>, token: nat, r: Reservation)
    requires token !in live
    ensures Sum(Live(live[token := r])) == Plus(Usage(1, r.bytes), Sum(Live(live)))
  {
    SumPut(Live(live), token, Usage(1, r.bytes));
    assert Live(live[token := r]) == Live(live)[token := Usage(1, r.bytes)];
    assert Live(live) - {token} == Live(live);
  }

  lemma LiveRemoved(live: map<nat, Reservation>, token: nat)
    requires token in live
    ensures Sum(Live(live)) == Plus(Usage(1, live[token].bytes), Sum(Live(live - {token})))
  {
    SumWithout(Live(live), token);
    assert Live(live) - {token} == Live(live - {token});
  }

  lemma SumRaised<K(!new)>(table: map<K, Usage>, k: K, before: Usage, one: Usage)
    requires before == if k in table then table[k] else NONE
    ensures Sum(table[k := Plus(before, one)]) == Plus(one, Sum(table))
  {
    SumPut(table, k, Plus(before, one));
    if k in table {
      SumWithout(table, k);
    } else {
      assert table - {k} == table;
    }
  }

  lemma SumRefunded<K(!new)>(table: map<K, Usage>, k: K, bytes: nat)
    requires k in table && table[k].requests >= 1 && table[k].bytes >= bytes
    requires table[k].requests == 1 ==> table[k].bytes == bytes
    ensures Plus(Usage(1, bytes), Sum(Refund(table, k, bytes))) == Sum(table)
  {
    SumWithout(table, k);
    SumPut(table, k, Minus(table[k], bytes));
  }

  lemma ReservePeer(s: State, live: map<nat, Reservation>, key: LeaseKey, payload: nat, token: nat, peer: Id)
    requires PeerOk(s, live, peer) && token !in live && ReserveError(s, key, payload).None?
    ensures PeerOk(Reserve(s, key, payload), live[token := Reservation(key, ChargedBytes(payload))], peer)
  {
    var r := Reservation(key, ChargedBytes(payload));
    var s', live' := Reserve(s, key, payload), live[token := r];
    hide Sum, Fits;
    if peer == key.owner.peer {
      assert OfPeer(live', peer) == OfPeer(live, peer)[token := r];
      LiveAdded(OfPeer(live, peer), token, r);
      assert LeasesOfPeer(s'.leases, peer) == LeasesOfPeer(s.leases, peer)[key := s'.leases[key]];
      SumRaised(LeasesOfPeer(s.leases, peer), key, LeaseUsage(s, key), Usage(1, r.bytes));
      assert Fits(s, key, r.bytes);
      PeerFits(s, key, r.bytes);
    } else {
      assert OfPeer(live', peer) == OfPeer(live, peer);
      assert LeasesOfPeer(s'.leases, peer) == LeasesOfPeer(s.leases, peer);
    }
  }

  lemma PeerFits(s: State, key: LeaseKey, bytes: nat)
    requires Fits(s, key, bytes)
    ensures PeerUsage(s, key.owner.peer).bytes + bytes <= PEER_BYTES
            && PeerUsage(s, key.owner.peer).requests < PEER_REQUESTS
    ensures LeaseUsage(s, key).bytes + bytes <= LEASE_BYTES && LeaseUsage(s, key).requests < LEASE_REQUESTS
  {
  }

  lemma ReserveLease(s: State, live: map<nat, Reservation>, key: LeaseKey, payload: nat, token: nat, other: LeaseKey)
    requires LeaseOk(s, live, other) && token !in live && ReserveError(s, key, payload).None?
    ensures LeaseOk(Reserve(s, key, payload), live[token := Reservation(key, ChargedBytes(payload))], other)
  {
    var r := Reservation(key, ChargedBytes(payload));
    var live' := live[token := r];
    hide Sum, Fits;
    if other == key {
      assert OfLease(live', other) == OfLease(live, other)[token := r];
      LiveAdded(OfLease(live, other), token, r);
      PeerFits(s, key, r.bytes);
    } else {
      assert OfLease(live', other) == OfLease(live, other);
    }
  }

  lemma ReserveKeepsInv(s: State, live: map<nat, Reservation>, key: LeaseKey, payload: nat, token: nat)
    requires Inv(s, live) && token !in live && ReserveError(s, key, payload).None?
    ensures Inv(Reserve(s, key, payload), live[token := Reservation(key, ChargedBytes(payload))])
  {
    var r := Reservation(key, ChargedBytes(payload));
    var s', live' := Reserve(s, key, payload), live[token := r];
    hide Sum, PeerOk, LeaseOk;
    LiveAdded(live, token, r);
    SumRaised(s.peers, key.owner.peer, PeerUsage(s, key.owner.peer), Usage(1, r.bytes));
    SumRaised(s.leases, key, LeaseUsage(s, key), Usage(1, r.bytes));
    forall peer ensures PeerOk(s', live', peer) {
      ReservePeer(s, live, key, payload, token, peer);
    }
    forall other ensures LeaseOk(s', live', other) {
      ReserveLease(s, live, key, payload, token, other);
    }
  }

  lemma PeerCanDrop(s: State, live: map<nat, Reservation>, token: nat)
    requires Inv(s, live) && token in live
    ensures var r, peer := live[token], live[token].key.owner.peer;
            && peer in s.peers && s.peers[peer].requests >= 1 && s.peers[peer].bytes >= r.bytes
            && (s.peers[peer].requests == 1 ==> s.peers[peer].bytes == r.bytes)
  {
    var peer := live[token].key.owner.peer;
    assert PeerOk(s, live, peer);
    hide Sum, Inv;
    LiveRemoved(OfPeer(live, peer), token);
    NoRequestsNoBytes(OfPeer(live, peer) - {token});
  }

  lemma LeaseCanDrop(s: State, live: map<nat, Reservation>, token: nat)
    requires Inv(s, live) && token in live
    ensures var r := live[token];
            && r.key in s.leases && s.leases[r.key].requests >= 1 && s.leases[r.key].bytes >= r.bytes
            && (s.leases[r.key].requests == 1 ==> s.leases[r.key].bytes == r.bytes)
  {
    var key := live[token].key;
    assert LeaseOk(s, live, key);
    hide Sum, Inv;
    LiveRemoved(OfLease(live, key), token);
    NoRequestsNoBytes(OfLease(live, key) - {token});
  }

  /** A live reservation can always be dropped: its entries exist and no count underflows. */
  lemma LiveCanDrop(s: State, live: map<nat, Reservation>, token: nat)
    requires Inv(s, live) && token in live
    ensures CanDrop(s, live[token])
    ensures s.peers[live[token].key.owner.peer].requests == 1 ==>
            s.peers[live[token].key.owner.peer].bytes == live[token].bytes
    ensures s.leases[live[token].key].requests == 1 ==> s.leases[live[token].key].bytes == live[token].bytes
  {
    hide Sum, PeerOk, LeaseOk;
    LiveRemoved(live, token);
    PeerCanDrop(s, live, token);
    LeaseCanDrop(s, live, token);
  }

  lemma {:induction false} NoRequestsNoBytes(live: map<nat, Reservation>)
    ensures Sum(Live(live)).requests == |live|
    ensures live == map[] ==> Sum(Live(live)).bytes == 0
    decreases |live|
  {
    if live != map[] {
      var token :| token in live;
      RemovalShrinks(live, token);
      LiveRemoved(live, token);
      NoRequestsNoBytes(live - {token});
    }
  }

  lemma DropPeer(s: State, live: map<nat, Reservation>, token: nat, peer: Id)
    requires Inv(s, live) && token in live && CanDrop(s, live[token])
    ensures PeerOk(Drop(s, live[token]), live - {token}, peer)
  {
    hide Sum;
    LiveCanDrop(s, live, token);
    var r := live[token];
    var s', live' := Drop(s, r), live - {token};
    assert PeerOk(s, live, peer);
    hide Inv;
    if peer == r.key.owner.peer {
      assert OfPeer(live', peer) == OfPeer(live, peer) - {token};
      LiveRemoved(OfPeer(live, peer), token);
      assert LeasesOfPeer(s'.leases, peer) == Refund(LeasesOfPeer(s.leases, peer), r.key, r.bytes);
      SumRefunded(LeasesOfPeer(s.leases, peer), r.key, r.bytes);
    } else {
      assert OfPeer(live', peer) == OfPeer(live, peer);
      assert LeasesOfPeer(s'.leases, peer) == LeasesOfPeer(s.leases, peer);
    }
  }

  lemma DropLease(s: State, live: map<nat, Reservation>, token: nat, key: LeaseKey)
    requires Inv(s, live) && token in live && CanDrop(s, live[token])
    ensures LeaseOk(Drop(s, live[token]), live - {token}, key)
  {
    LiveCanDrop(s, live, token);
    var r := live[token];
    assert LeaseOk(s, live, key);
    hide Sum, Inv;
    if key == r.key {
      assert OfLease(live - {token}, key) == OfLease(live, key) - {token};
      LiveRemoved(OfLease(live, key), token);
    } else {
      assert OfLease(live - {token}, key) == OfLease(live, key);
    }
  }

  lemma DropKeepsInv(s: State, live: map<nat, Reservation>, token: nat)
    requires Inv(s, live) && token in live
    ensures CanDrop(s, live[token]) && Inv(Drop(s, live[token]), live - {token})
  {
    LiveCanDrop(s, live, token);
    var r := live[token];
    var s', live' := Drop(s, r), live - {token};
    LiveRemoved(live, token);
    SumRefunded(s.peers, r.key.owner.peer, r.bytes);
    SumRefunded(s.leases, r.key, r.bytes);
    hide Sum, PeerOk, LeaseOk, Refund, LeaseUsage, PeerUsage;
    forall peer ensures PeerOk(s', live', peer) {
      DropPeer(s, live, token, peer);
    }
    forall key ensures LeaseOk(s', live', key) {
      DropLease(s, live, token, key);
    }
  }

  // ----- Runs

  datatype Action = ReserveAction(key: LeaseKey, payload: nat) | DropAction(token: nat)

  /** A budget with its live reservations, numbered in the order they were granted. */
  datatype Ledger = Ledger(s: State, live: map<nat, Reservation>, next: nat)

  ghost predicate LedgerInv(l: Ledger) {
    Inv(l.s, l.live) && forall t :: t in l.live ==> t < l.next
  }

  function Step(l: Ledger, a: Action): Ledger
    requires LedgerInv(l)
  {
    match a
    case ReserveAction(key, payload) =>
      if ReserveError(l.s, key, payload).Some? then l
      else Ledger(Reserve(l.s, key, payload), l.live[l.next := Reservation(key, ChargedBytes(payload))], l.next + 1)
    case DropAction(token) =>
      if token in l.live then
        LiveCanDrop(l.s, l.live, token);
        Ledger(Drop(l.s, l.live[token]), l.live - {token}, l.next)
      else l
  }

  lemma StepKeepsInv(l: Ledger, a: Action)
    requires LedgerInv(l)
    ensures LedgerInv(Step(l, a))
  {
    hide Inv;
    match a
    case ReserveAction(key, payload) =>
      if ReserveError(l.s, key, payload).None? {
        ReserveKeepsInv(l.s, l.live, key, payload, l.next);
      }
    case DropAction(token) =>
      if token in l.live {
        DropKeepsInv(l.s, l.live, token);
      }
  }

  /** A new budget after any sequence of reservations and drops: the books balance. */
  function Run(actions: seq<Action>): (l: Ledger)
    ensures LedgerInv(l)
  {
    if actions == [] then EmptyInv(); Ledger(State(NONE, map[], map[]), map[], 0)
    else
      var before := Run(actions[..|actions| - 1]);
      StepKeepsInv(before, actions[|actions| - 1]);
      Step(before, actions[|actions| - 1])
  }

  lemma EmptyInv()
    ensures Inv(State(NONE, map[], map[]), map[])
  {
    var s := State(NONE, map[], map[]);
    forall peer ensures PeerOk(s, map[], peer) {
      assert OfPeer(map[], peer) == map[] && LeasesOfPeer(map[], peer) == map[];
    }
    forall key ensures LeaseOk(s, map[], key) {
      assert OfLease(map[], key) == map[];
    }
  }

  /** Once every reservation is dropped nothing is charged to anyone. */
  lemma AllDroppedIsEmpty(actions: seq<Action>)
    requires Run(actions).live == map[]
    ensures Run(actions).s == State(NONE, map[], map[])
  {
    var s := Run(actions).s;
    hide Run;
    forall peer ensures peer !in s.peers {
      assert PeerOk(s, map[], peer);
      assert OfPeer(map[], peer) == map[] && Live(map[]) == map[];
    }
    forall key ensures key !in s.leases {
      assert LeaseOk(s, map[], key);
      assert OfLease(map[], key) == map[];
    }
  }

  // ----- What is charged, and when it is refused

  lemma {:induction false} EachLiveCountsOnce(live: map<nat, Reservation>)
    ensures Sum(Live(live)).requests == |live|
    decreases |live|
  {
    if live == map[] {
      assert Live(live) == map[];
    } else {
      var t :| t in live;
      LiveRemoved(live, t);
      RemovalShrinks(live, t);
      EachLiveCountsOnce(live - {t});
      assert (live - {t}).Keys == live.Keys - {t};
    }
  }

  /**
   With the live reservations as the measure, a request is admitted exactly when its payload is at most 1 MiB and three
   times that and 1 KiB more stay within 64 MiB in all, 16 MiB for the peer and 4 MiB for the lease, and fewer than 512,
   128 and 32 requests are live. It is then charged that much.
   */
  lemma AdmitsExactlyWhen(s: State, live: map<nat, Reservation>, key: LeaseKey, payload: nat)
    requires Inv(s, live)
    ensures var ofPeer, ofLease := OfPeer(live, key.owner.peer), OfLease(live, key);
            var charge := 3 * payload + 1024;
            && (ReserveError(s, key, payload) == Some(SingleRequestTooLarge) <==> payload > 1048576)
            && (ReserveError(s, key, payload).None? <==>
                  && payload <= 1048576
                  && Sum(Live(live)).bytes + charge <= 67108864 && |live| < 512
                  && Sum(Live(ofPeer)).bytes + charge <= 16777216 && |ofPeer| < 128
                  && Sum(Live(ofLease)).bytes + charge <= 4194304 && |ofLease| < 32)
            && (ReserveError(s, key, payload).None? ==>
                  var s' := Reserve(s, key, payload);
                  && s'.total == Plus(s.total, Usage(1, charge))
                  && s'.peers == s.peers[key.owner.peer := Plus(PeerUsage(s, key.owner.peer), Usage(1, charge))]
                  && s'.leases == s.leases[key := Plus(LeaseUsage(s, key), Usage(1, charge))])
            && (ReserveError(s, key, payload).Some? ==> Reserve(s, key, payload) == s)
  {
    assert PeerOk(s, live, key.owner.peer) && LeaseOk(s, live, key);
    EachLiveCountsOnce(live);
    EachLiveCountsOnce(OfPeer(live, key.owner.peer));
    EachLiveCountsOnce(OfLease(live, key));
    hide Inv, Sum, Live;
  }

  /** Every live reservation of a run is charged for three copies of the payload that it was admitted with. */
  lemma {:induction false} LiveWasCharged(actions: seq<Action>, token: nat) returns (i: nat)
    requires token in Run(actions).live
    ensures i < |actions| && actions[i].ReserveAction? && actions[i].payload <= 1048576
    ensures Run(actions).live[token] == Reservation(actions[i].key, 3 * actions[i].payload + 1024)
    decreases |actions|
  {
    hide LedgerInv, Reserve, Drop, Fits;
    var n := |actions| - 1;
    if token in Run(actions[..n]).live && Run(actions[..n]).live[token] == Run(actions).live[token] {
      i := LiveWasCharged(actions[..n], token);
    } else {
      i := n;
    }
  }

  // ----- The budget as an object

  class Budget {
    var total: Usage
    var peers: map<Id, Usage>
    var leases: map<LeaseKey, Usage>
    ghost var live: map<nat, Reservation>

    ghost function Model(): State
      reads this
    {
      State(total, peers, leases)
    }

    ghost predicate Valid()
      reads this
    {
      Inv(Model(), live)
    }

    constructor ()
      ensures Valid() && Model() == State(NONE, map[], map[]) && live == map[]
    {
      total, peers, leases, live := NONE, map[], map[], map[];
      EmptyInv();
    }

    /** The reservation for a request; token stands for the identity of the guard. */
    method TryReserve(key: LeaseKey, payload: nat, ghost token: nat) returns (r: Result<Reservation, BudgetError>)
      requires Valid() && token !in live
      modifies this
      ensures Valid() && Model() == Reserve(old(Model()), key, payload)
      ensures match ReserveError(old(Model()), key, payload)
              case Some(error) => r == Err(error) && live == old(live)
              case None => r == Ok(Reservation(key, ChargedBytes(payload))) && live == old(live)[token := r.value]
      ensures r.Ok? ==> r.value == Reservation(key, 3 * payload + 1024) && payload <= 1048576
    {
      if payload > MAX_PAYLOAD {
        return Err(SingleRequestTooLarge);
      }
      var bytes := payload * 3 + 1024;
      var peer := if key.owner.peer in peers then peers[key.owner.peer] else NONE;
      var leased := if key in leases then leases[key] else NONE;
      if total.bytes + bytes > TOTAL_BYTES || total.requests >= TOTAL_REQUESTS
         || peer.bytes + bytes > PEER_BYTES || peer.requests >= PEER_REQUESTS
         || leased.bytes + bytes > LEASE_BYTES || leased.requests >= LEASE_REQUESTS
      {
        return Err(Exhausted);
      }
      assert ReserveError(Model(), key, payload).None?;
      hide Inv, ReserveError;
      r := Ok(Reservation(key, bytes));
      Charge(key, payload, token);
    }

    /** Books an admitted request: the sums over the live reservations and the caps still hold with the new one. */
    method Charge(key: LeaseKey, payload: nat, ghost token: nat)
      requires Valid() && token !in live && ReserveError(Model(), key, payload).None?
      modifies this
      ensures Valid() && live == old(live)[token := Reservation(key, 3 * payload + 1024)]
      ensures Model() == Reserve(old(Model()), key, payload)
    {
      hide Inv, Fits;
      ReserveKeepsInv(Model(), live, key, payload, token);
      live := live[token := Reservation(key, ChargedBytes(payload))];
      var bytes := ChargedBytes(payload);
      var peer := if key.owner.peer in peers then peers[key.owner.peer] else NONE;
      var leased := if key in leases then leases[key] else NONE;
      total := Usage(total.requests + 1, total.bytes + bytes);
      peers := peers[key.owner.peer := Usage(peer.requests + 1, peer.bytes + bytes)];
      leases := leases[key := Usage(leased.requests + 1, leased.bytes + bytes)];
    }

    /** The guard's drop. */
    method Release(r: Reservation, ghost token: nat)
      requires Valid() && token in live && live[token] == r
      modifies this
      ensures Valid() && live == old(live) - {token}
      ensures CanDrop(old(Model()), r) && Model() == Drop(old(Model()), r)
    {
      LiveCanDrop(Model(), live, token);
      DropKeepsInv(Model(), live, token);
      hide Inv;
      live := live - {token};
      RefundCounts(r);
    }

    method RefundCounts(r: Reservation)
      requires CanDrop(Model(), r)
      modifies this`total, this`peers, this`leases
      ensures Model() == Drop(old(Model()), r)
    {
      total := Minus(total, r.bytes);
      var peer := Minus(peers[r.key.owner.peer], r.bytes);
      peers := peers[r.key.owner.peer := peer];
      if peer.requests == 0 {
        peers := peers - {r.key.owner.peer};
      }
      assert peers == Refund(old(peers), r.key.owner.peer, r.bytes);
      var leased := Minus(leases[r.key], r.bytes);
      leases := leases[r.key := leased];
      if leased.requests == 0 {
        leases := leases - {r.key};
      }
      assert leases == Refund(old(leases), r.key, r.bytes);
    }
  }
}
