/** The bounded history of endpoint events, in which metrics samples give way to discrete events. */
module EndpointEvents {
  import opened Common

  type Id = nat

  datatype Kind = Keyboard | Mouse | Gamepad | Usb | Display | Audio | Backend | SessionKind

  datatype Source =
    | Hardware | UserModeHook | Driver | VirtualHid | SendInput | AudioSource | DisplaySource | RemoteMirror | Test
        | System | Unknown

  datatype Direction = Observed | Injected | InjectedLoopback | ForwardedIn | ForwardedOut | SystemDirection

  /** content stands for the payloads that the store does not look into. */
  datatype Payload = BackendPayload(summary: string, fields: map<string, string>) | OtherPayload(content: int)

  /** origin stands for the event's identity, time, origin and correlation. */
  datatype Event = Event(
    sequence: nat,
    endpoint: Id,
    device: string,
    direction: Direction,
    source: Source,
    kind: Kind,
    payload: Payload,
    origin: int)

  const METRICS_SUMMARY: string := "Sampled control-path metrics"

  predicate IsMetrics(e: Event) {
    && e.kind.Backend? && e.payload.BackendPayload?
    && (e.payload.summary == METRICS_SUMMARY
        || "snapshot_json" in e.payload.fields
        || ("captured" in e.payload.fields && "routed" in e.payload.fields))
  }

  /** The backend events that are samples: they say so, carry a snapshot, or count what was captured and routed. */
  lemma SamplesAreBackendEvents(e: Event)
    ensures !e.kind.Backend? || e.payload.OtherPayload? ==> !IsMetrics(e)
    ensures e.kind.Backend? && e.payload.BackendPayload? ==>
              var (summary, fields) := (e.payload.summary, e.payload.fields);
              && (summary == "Sampled control-path metrics" ==> IsMetrics(e))
              && ("snapshot_json" in fields ==> IsMetrics(e))
              && ("captured" in fields && "routed" in fields ==> IsMetrics(e))
              && (IsMetrics(e) && summary != "Sampled control-path metrics" && "snapshot_json" !in fields ==>
                    "captured" in fields && "routed" in fields)
  {
  }

  datatype Filter = Filter(
    endpoint: Option<Id>,
    device: Option<string>,
    kinds: seq<Kind>,
    sources: seq<Source>,
    includeLoopback: bool)

  predicate Matches(f: Filter, e: Event) {
    && (f.endpoint.Some? ==> f.endpoint.value == e.endpoint)
    && (f.device.Some? ==> f.device.value == e.device)
    && (f.kinds != [] ==> e.kind in f.kinds)
    && (f.sources != [] ==> e.source in f.sources)
    && (!f.includeLoopback ==> !e.direction.InjectedLoopback?)
  }

  // ----- Pushing

  /** The place of the oldest metrics sample, if any. */
  function FirstMetrics(recent: seq<Event>): (place: Option<nat>)
    ensures place.Some? ==> place.value < |recent| && IsMetrics(recent[place.value])
  {
    if recent == [] then None
    else if IsMetrics(recent[0]) then Some(0)
    else match FirstMetrics(recent[1..])
      case Some(i) => Some(i + 1)
      case None => None
  }

  function Newest(recent: seq<Event>, limit: nat): seq<Event> {
    recent[SaturatingSub(|recent|, limit)..]
  }

  /** The event repeats the newest one and is ignored. */
  predicate Repeats(recent: seq<Event>, e: Event) {
    recent != [] && recent[|recent| - 1].sequence == e.sequence
  }

  /** The event is a newer sample of the metrics at the end. */
  predicate Resamples(recent: seq<Event>, e: Event) {
    IsMetrics(e) && recent != [] && recent[|recent| - 1].endpoint == e.endpoint && IsMetrics(recent[|recent| - 1])
  }

  function Push(recent: seq<Event>, limit: nat, e: Event): seq<Event> {
    if Repeats(recent, e) then recent
    else if Resamples(recent, e) then recent[|recent| - 1 := e]
    else if IsMetrics(e) && |recent| >= limit then
      match FirstMetrics(recent)
      case Some(i) => Newest(recent[..i] + recent[i + 1..] + [e], limit)
      case None => recent
    else Newest(recent + [e], limit)
  }

  // ----- Discrete events

  /** The events that are not metrics samples. */
  function Discrete(events: seq<Event>): seq<Event> {
    if events == [] then []
    else Discrete(events[..|events| - 1]) + if IsMetrics(events[|events| - 1]) then [] else [events[|events| - 1]]
  }

  predicate IsSuffix<T(==)>(part: seq<T>, whole: seq<T>) {
    |part| <= |whole| && part == whole[|whole| - |part|..]
  }

  lemma {:induction false} DiscreteAppend(a: seq<Event>, b: seq<Event>)
    ensures Discrete(a + b) == Discrete(a) + Discrete(b)
    decreases |b|
  {
    if b == [] {
      assert a + b == a;
    } else {
      DiscreteAppend(a, b[..|b| - 1]);
      assert (a + b)[..|a + b| - 1] == a + b[..|b| - 1];
    }
  }

  lemma DiscreteOne(e: Event)
    ensures Discrete([e]) == if IsMetrics(e) then [] else [e]
  {
    assert [e][..0] == [];
  }

  /** Dropping old events leaves a suffix of the discrete ones. */
  lemma NewestIsSuffix(events: seq<Event>, limit: nat)
    ensures IsSuffix(Discrete(Newest(events, limit)), Discrete(events))
  {
    var n := SaturatingSub(|events|, limit);
    DiscreteAppend(events[..n], events[n..]);
    assert events == events[..n] + events[n..];
  }

  lemma MetricsBetween(a: seq<Event>, e: Event, b: seq<Event>)
    requires IsMetrics(e)
    ensures Discrete(a + [e] + b) == Discrete(a + b)
  {
    DiscreteAppend(a, b);
    DiscreteAppend(a + [e], b);
    DiscreteAppend(a, [e]);
    DiscreteOne(e);
  }

  lemma Parts(events: seq<Event>, i: nat)
    requires i < |events|
    ensures events == events[..i] + [events[i]] + events[i + 1..]
  {
  }

  lemma WithoutMetrics(events: seq<Event>, i: nat)
    requires i < |events| && IsMetrics(events[i])
    ensures Discrete(events[..i] + events[i + 1..]) == Discrete(events)
  {
    Parts(events, i);
    MetricsBetween(events[..i], events[i], events[i + 1..]);
    hide Discrete, IsMetrics;
  }

  lemma ResampledLast(recent: seq<Event>, e: Event)
    requires Resamples(recent, e)
    ensures Discrete(recent[|recent| - 1 := e]) == Discrete(recent)
  {
    var n := |recent| - 1;
    DiscreteOne(e);
    DiscreteOne(recent[n]);
    DiscreteAppend(recent[..n], [e]);
    DiscreteAppend(recent[..n], [recent[n]]);
    hide Discrete, IsMetrics;
    assert recent[n := e] == recent[..n] + [e];
    assert recent == recent[..n] + [recent[n]];
  }

  lemma MetricsAppended(recent: seq<Event>, limit: nat, e: Event)
    requires IsMetrics(e) && |recent| < limit
    ensures Newest(recent + [e], limit) == recent + [e] && Discrete(recent + [e]) == Discrete(recent)
  {
    DiscreteOne(e);
    DiscreteAppend(recent, [e]);
    hide Discrete;
  }

  lemma LastStays(events: seq<Event>, e: Event)
    requires !IsMetrics(e)
    ensures e in Discrete(events + [e])
  {
    DiscreteAppend(events, [e]);
    DiscreteOne(e);
    hide Discrete;
    assert [e][0] in [e];
  }

  lemma NewestKeepsLast(recent: seq<Event>, limit: nat, e: Event)
    requires 0 < limit
    ensures Newest(recent + [e], limit) == recent[SaturatingSub(|recent| + 1, limit)..] + [e]
  {
  }

  lemma DiscreteAppended(recent: seq<Event>, limit: nat, e: Event)
    requires !IsMetrics(e) && 0 < limit
    ensures var after := Discrete(Newest(recent + [e], limit));
            IsSuffix(after, Discrete(recent) + [e]) && e in after
  {
    DiscreteOne(e);
    DiscreteAppend(recent, [e]);
    NewestIsSuffix(recent + [e], limit);
    NewestKeepsLast(recent, limit, e);
    LastStays(recent[SaturatingSub(|recent| + 1, limit)..], e);
    hide Discrete, IsMetrics, Newest;
  }

  /** A metrics sample changes no discrete event; a discrete one is appended and may drop old ones. */
  lemma PushOnDiscrete(recent: seq<Event>, limit: nat, e: Event)
    requires 0 < limit && |recent| <= limit
    ensures |Push(recent, limit, e)| <= limit
    ensures var after := Discrete(Push(recent, limit, e));
            if IsMetrics(e) || Repeats(recent, e) then after == Discrete(recent)
            else IsSuffix(after, Discrete(recent) + [e]) && e in after
  {
    hide Discrete, IsMetrics;
    if Repeats(recent, e) {
    } else if Resamples(recent, e) {
      ResampledLast(recent, e);
    } else if !IsMetrics(e) {
      DiscreteAppended(recent, limit, e);
    } else if |recent| < limit {
      MetricsAppended(recent, limit, e);
    } else if FirstMetrics(recent).Some? {
      var i := FirstMetrics(recent).value;
      WithoutMetrics(recent, i);
      MetricsAppended(recent[..i] + recent[i + 1..], limit, e);
    }
  }

  /** The event at i is the oldest metrics sample. */
  predicate OldestMetrics(recent: seq<Event>, i: nat) {
    i < |recent| && IsMetrics(recent[i]) && forall j :: 0 <= j < i ==> !IsMetrics(recent[j])
  }

  lemma {:induction false} FirstIsOldest(recent: seq<Event>)
    ensures FirstMetrics(recent).Some? ==> OldestMetrics(recent, FirstMetrics(recent).value)
    ensures FirstMetrics(recent).None? ==> forall e :: e in recent ==> !IsMetrics(e)
  {
    hide IsMetrics;
    if recent != [] && !IsMetrics(recent[0]) {
      FirstIsOldest(recent[1..]);
      assert recent == [recent[0]] + recent[1..];
    }
  }

  /**
   A pushed event comes last unless it repeats the newest one or is a sample with no room beside discrete events only.
   What it costs: the sample at the end that it renews, or, in a full store, the oldest sample for a sample and the
   oldest event for a discrete one; nothing else changes.
   */
  lemma PushExactly(recent: seq<Event>, limit: nat, e: Event)
    requires 0 < limit && |recent| <= limit
    ensures var n := |recent|;
            var after := Push(recent, limit, e);
            if n > 0 && recent[n - 1].sequence == e.sequence then after == recent
            else if n > 0 && IsMetrics(e) && IsMetrics(recent[n - 1]) && recent[n - 1].endpoint == e.endpoint then
              after == recent[..n - 1] + [e]
            else if n < limit then after == recent + [e]
            else if !IsMetrics(e) then after == recent[1..] + [e]
            else if forall x :: x in recent ==> !IsMetrics(x) then after == recent
            else exists i: nat :: OldestMetrics(recent, i) && after == recent[..i] + recent[i + 1..] + [e]
  {
    FirstIsOldest(recent);
    hide IsMetrics, FirstMetrics, OldestMetrics;
    var n := |recent|;
    if Repeats(recent, e) {
    } else if Resamples(recent, e) {
      assert recent[n - 1 := e] == recent[..n - 1] + [e];
    } else if n < limit {
      PushWithRoom(recent, limit, e);
    } else if !IsMetrics(e) {
      PushWithoutRoom(recent, limit, e);
    } else if FirstMetrics(recent).Some? {
      PushForSample(recent, limit, e, FirstMetrics(recent).value);
      SampleIsThere(recent, FirstMetrics(recent).value);
    }
    hide Push;
  }

  lemma PushWithRoom(recent: seq<Event>, limit: nat, e: Event)
    requires |recent| < limit && !Repeats(recent, e) && !Resamples(recent, e)
    ensures Push(recent, limit, e) == recent + [e]
  {
    hide IsMetrics;
  }

  lemma PushWithoutRoom(recent: seq<Event>, limit: nat, e: Event)
    requires 0 < |recent| == limit && !Repeats(recent, e) && !IsMetrics(e)
    ensures Push(recent, limit, e) == recent[1..] + [e]
  {
    hide IsMetrics;
  }

  lemma PushForSample(recent: seq<Event>, limit: nat, e: Event, i: nat)
    requires |recent| == limit && !Repeats(recent, e) && !Resamples(recent, e) && IsMetrics(e)
    requires FirstMetrics(recent) == Some(i)
    ensures Push(recent, limit, e) == recent[..i] + recent[i + 1..] + [e]
  {
    hide IsMetrics, FirstMetrics;
    var after := recent[..i] + recent[i + 1..] + [e];
    assert |after| == limit && after[0..] == after;
  }

  lemma SampleIsThere(recent: seq<Event>, i: nat)
    requires OldestMetrics(recent, i)
    ensures exists x :: x in recent && IsMetrics(x)
  {
    assert recent[i] in recent && IsMetrics(recent[i]);
  }

  // ----- Runs

  function Run(limit: nat, events: seq<Event>): seq<Event> {
    if events == [] then [] else Push(Run(limit, events[..|events| - 1]), limit, events[|events| - 1])
  }

  /** The discrete events of a run that were not ignored as repetitions. */
  function AdmittedDiscrete(limit: nat, events: seq<Event>): seq<Event> {
    if events == [] then []
    else
      var before := events[..|events| - 1];
      var e := events[|events| - 1];
      AdmittedDiscrete(limit, before) + if IsMetrics(e) || Repeats(Run(limit, before), e) then [] else [e]
  }

  lemma SuffixOfSuffix<T>(a: seq<T>, b: seq<T>, c: seq<T>, e: T)
    requires IsSuffix(a, b + [e]) && IsSuffix(b, c)
    ensures IsSuffix(a, c + [e])
  {
    assert (c + [e])[|c| - |b|..] == b + [e];
  }

  lemma NothingDiscrete()
    ensures Discrete([]) == []
  {
  }

  /** The store stays within its limit, and its discrete events are the last of the admitted ones, in order. */
  lemma {:induction false} DiscreteEventsAreTheLastAdmitted(limit: nat, events: seq<Event>)
    requires 0 < limit
    ensures |Run(limit, events)| <= limit
    ensures IsSuffix(Discrete(Run(limit, events)), AdmittedDiscrete(limit, events))
    decreases |events|
  {
    hide Push, Discrete, IsMetrics, Repeats;
    if events == [] {
      NothingDiscrete();
    } else {
      var before := events[..|events| - 1];
      var e := events[|events| - 1];
      DiscreteEventsAreTheLastAdmitted(limit, before);
      PushOnDiscrete(Run(limit, before), limit, e);
      if !IsMetrics(e) && !Repeats(Run(limit, before), e) {
        SuffixOfSuffix(Discrete(Run(limit, events)), Discrete(Run(limit, before)), AdmittedDiscrete(limit, before), e);
      }
    }
  }

  // ----- Querying

  predicate Wanted(f: Filter, after: Option<nat>, e: Event) {
    (after.Some? ==> e.sequence > after.value) && Matches(f, e)
  }

  /** The wanted events, in order. */
  function Selected(recent: seq<Event>, f: Filter, after: Option<nat>): seq<Event> {
    if recent == [] then []
    else
      Selected(recent[..|recent| - 1], f, after)
      + if Wanted(f, after, recent[|recent| - 1]) then [recent[|recent| - 1]] else []
  }

  const DEFAULT_QUERY: nat := 128

  function Query(recent: seq<Event>, f: Filter, after: Option<nat>, limit: Option<nat>): seq<Event> {
    Newest(Selected(recent, f, after), if limit.Some? then limit.value else DEFAULT_QUERY)
  }

  lemma {:induction false} SelectedIsWanted(recent: seq<Event>, f: Filter, after: Option<nat>)
    ensures forall e :: e in Selected(recent, f, after) <==> e in recent && Wanted(f, after, e)
  {
    if recent != [] {
      SelectedIsWanted(recent[..|recent| - 1], f, after);
      assert recent == recent[..|recent| - 1] + [recent[|recent| - 1]];
    }
  }

  /** What a query asks for: later than a number, and every criterion that is given; loopback only if included. */
  predicate Asked(f: Filter, after: Option<nat>, e: Event) {
    && (after.None? || after.value < e.sequence)
    && (f.endpoint.None? || e.endpoint == f.endpoint.value) && (f.device.None? || e.device == f.device.value)
    && (|f.kinds| == 0 || exists i :: 0 <= i < |f.kinds| && f.kinds[i] == e.kind)
    && (|f.sources| == 0 || exists i :: 0 <= i < |f.sources| && f.sources[i] == e.source)
    && (f.includeLoopback || e.direction != InjectedLoopback)
  }

  /** Nothing wanted is passed over for something older. */
  lemma QueryReturnsTheNewest(recent: seq<Event>, f: Filter, after: Option<nat>, limit: Option<nat>)
    ensures var all := Selected(recent, f, after);
            var asked := if limit.Some? then limit.value else DEFAULT_QUERY;
            var result := Query(recent, f, after, limit);
            && IsSuffix(result, all) && |result| == Min(|all|, asked)
            && (forall e :: e in all <==> e in recent && Asked(f, after, e))
            && (forall e :: e in result ==> e in recent && Asked(f, after, e))
  {
    SelectedIsWanted(recent, f, after);
  }

  // ----- The store as an object

  class EventStore {
    const limit: nat
    var recent: seq<Event>

    constructor (limit: nat)
      ensures this.limit == Max(limit, 1) && recent == []
    {
      this.limit := Max(limit, 1);
      recent := [];
    }

    method PushEvent(e: Event)
      modifies this`recent
      ensures recent == Push(old(recent), limit, e)
    {
      if recent != [] && recent[|recent| - 1].sequence == e.sequence {
        return;
      }
      if IsMetrics(e) {
        if recent != [] && recent[|recent| - 1].endpoint == e.endpoint && IsMetrics(recent[|recent| - 1]) {
          recent := recent[|recent| - 1 := e];
          return;
        }
        if |recent| >= limit {
          var index := FirstMetrics(recent);
          if index.None? {
            return;
          }
          recent := recent[..index.value] + recent[index.value + 1..];
        }
      }
      recent := recent + [e];
      Trim();
    }

    method Trim()
      modifies this`recent
      ensures recent == Newest(old(recent), limit)
    {
      while |recent| > limit
        invariant Newest(recent, limit) == Newest(old(recent), limit)
        decreases |recent|
      {
        recent := recent[1..];
      }
    }

    /** Walks back from the newest event until enough wanted ones are found. */
    method QueryEvents(f: Filter, after: Option<nat>, asked: Option<nat>) returns (result: seq<Event>)
      ensures result == Query(recent, f, after, asked)
    {
      var most := if asked.Some? then asked.value else DEFAULT_QUERY;
      result := [];
      var k := |recent|;
      assert recent[..k] == recent;
      while k > 0 && |result| < most
        invariant 0 <= k <= |recent| && |result| <= most
        invariant Selected(recent, f, after) == Selected(recent[..k], f, after) + result
      {
        k := k - 1;
        assert recent[..k + 1][..k] == recent[..k];
        if Wanted(f, after, recent[k]) {
          result := [recent[k]] + result;
        }
      }
    }
  }
}
