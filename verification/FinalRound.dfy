// The segment a budget judgment reads: the facts one address committed behind its
// last turn-end fact, and the one request a range in flight may carry.
module FinalRound {
  import opened Core
  import opened EventBody
  import opened FactWindow
  import opened FactLedger
  import opened FactChain
  import MappedSequence

  /** The moment a time value that was never set names. */
  const ZERO_TIME := -62135596800 * 1_000_000_000

  datatype Segment = Segment(range: string, rounds: nat, started: int)

  predicate AtAddress(e: Event, addr: Address) { SessionOf(e) == addr.session && AgentOf(e) == addr.agent }

  function AddressChain(l: seq<Event>, addr: Address): seq<Event> {
    Filter(l, (e: Event) => AtAddress(e, addr))
  }

  /** The facts behind the last turn-end fact. */
  function InFlight(c: seq<Event>): seq<Event> { c[LastOutput(c) + 1..] }

  /** The range the newest fact that names one names. */
  function RangeOf(c: seq<Event>): string {
    if c == [] then ""
    else if c[|c| - 1].invocation != "" then c[|c| - 1].invocation
    else RangeOf(c[..|c| - 1])
  }

  function RoundsOf(c: seq<Event>, range: string): nat {
    |Filter(c, (e: Event) => e.kind.ThinkingPlan? && e.invocation == range)|
  }

  /** The segment of one chain. */
  function SegmentOf(c: seq<Event>): Option<Segment> {
    var f := InFlight(c);
    if f == [] || RangeOf(f) == "" || f[0].time == ZERO_TIME then None
    else Some(Segment(RangeOf(f), RoundsOf(f, RangeOf(f)), f[0].time))
  }

  /** The fact at one place of the order belongs to the address, and no turn-end fact of the
      address stands there or behind it. */
  ghost predicate Flying(facts: map<string, Event>, order: seq<string>, addr: Address, p: int)
    requires forall k :: k in order ==> k in facts
  {
    && 0 <= p < |order| && AtAddress(facts[order[p]], addr)
    && forall q :: p <= q < |order| && AtAddress(facts[order[q]], addr) ==> !facts[order[q]].kind.AgentOutput?
  }

  /** The places of the facts in flight, in order, beside the facts. */
  ghost predicate Places(facts: map<string, Event>, order: seq<string>, addr: Address, places: seq<nat>, segment: seq<Event>)
    requires forall k :: k in order ==> k in facts
  {
    && |places| == |segment| && (forall i, j :: 0 <= i < j < |places| ==> places[i] < places[j])
    && (forall i :: 0 <= i < |places| ==> places[i] < |order| && segment[i] == facts[order[places[i]]])
    && (forall p :: Flying(facts, order, addr, p) <==> 0 <= p && p in places)
  }

  /** The tool rounds of one range among the facts in flight. */
  ghost function RoundPlaces(facts: map<string, Event>, order: seq<string>, addr: Address, range: string): set<int>
    requires forall k :: k in order ==> k in facts
  {
    set p | 0 <= p < |order| && Flying(facts, order, addr, p) && facts[order[p]].kind.ThinkingPlan? && facts[order[p]].invocation == range
  }

  /** The first fact in flight. */
  ghost predicate Earliest(facts: map<string, Event>, order: seq<string>, addr: Address, p: int)
    requires forall k :: k in order ==> k in facts
  {
    Flying(facts, order, addr, p) && forall q :: q < p ==> !Flying(facts, order, addr, q)
  }

  /** The newest fact in flight that names a range. */
  ghost predicate NewestNamed(facts: map<string, Event>, order: seq<string>, addr: Address, p: int)
    requires forall k :: k in order ==> k in facts
  {
    && Flying(facts, order, addr, p) && facts[order[p]].invocation != ""
    && forall q :: q > p && Flying(facts, order, addr, q) ==> facts[order[q]].invocation == ""
  }

  /** finalRoundSegmentOf: the newest range of the facts in flight, the tool rounds it ran
      and the moment its earliest fact landed. */
  method FinalRoundSegmentOf(facts: map<string, Event>, order: seq<string>, addr: Address) returns (r: Option<Segment>)
    requires forall k :: k in order ==> k in facts
    ensures r == if addr.IsComplete() then SegmentOf(AddressChain(Live(facts, order), addr)) else None
    ensures r.Some? ==> addr.IsComplete() && r.value.started != ZERO_TIME
    ensures r.Some? ==> exists p :: NewestNamed(facts, order, addr, p) && facts[order[p]].invocation == r.value.range
    ensures r.Some? ==> exists p :: Earliest(facts, order, addr, p) && facts[order[p]].time == r.value.started
    ensures r.Some? ==> r.value.rounds == |RoundPlaces(facts, order, addr, r.value.range)|
    ensures r.None? && addr.IsComplete() ==>
              (forall p :: !NewestNamed(facts, order, addr, p)) || exists p :: Earliest(facts, order, addr, p) && facts[order[p]].time == ZERO_TIME
  {
    hide AddressChain, RangeOf, RoundsOf, InFlight, Live, AtAddress, Flying;
    if !addr.IsComplete() { return None; }
    var segment, places := ReadInFlight(facts, order, addr);
    if |segment| == 0 { return None; }
    var range, newest := ReadRange(segment);
    assert Rising(places, |segment|) by { hide Flying; }
    assert Earliest(facts, order, addr, places[0]) by { PlacesEarliest(facts, order, addr, places, segment); }
    PlacesNamed(facts, order, addr, places, segment, range, newest);
    if range == "" || segment[0].time == ZERO_TIME { return None; }
    var rounds := CountRounds(segment, range, facts, order, addr, places);
    r := Some(Segment(range, rounds, segment[0].time));
  }

  lemma PlacesEarliest(facts: map<string, Event>, order: seq<string>, addr: Address, places: seq<nat>, segment: seq<Event>)
    requires (forall k :: k in order ==> k in facts) && Places(facts, order, addr, places, segment) && places != []
    ensures Earliest(facts, order, addr, places[0])
  {
    hide Flying;
    assert places[0] in places;
  }

  lemma PlacesNamed(facts: map<string, Event>, order: seq<string>, addr: Address, places: seq<nat>, segment: seq<Event>, range: string, newest: nat)
    requires (forall k :: k in order ==> k in facts) && Places(facts, order, addr, places, segment)
    requires range != "" ==> newest < |segment| && segment[newest].invocation == range && forall j :: newest < j < |segment| ==> segment[j].invocation == ""
    requires range == "" ==> forall e :: e in segment ==> e.invocation == ""
    ensures range != "" ==> newest < |places| && NewestNamed(facts, order, addr, places[newest]) && facts[order[places[newest]]].invocation == range
    ensures range == "" ==> forall p :: !NewestNamed(facts, order, addr, p)
  {
    hide Flying;
    if range != "" {
      assert places[newest] in places;
      forall q | q > places[newest] && Flying(facts, order, addr, q)
        ensures 0 <= q < |order| && facts[order[q]].invocation == ""
      {
        var j :| 0 <= j < |places| && places[j] == q;
        assert j > newest;
      }
    } else {
      forall p | Flying(facts, order, addr, p) ensures 0 <= p < |order| && facts[order[p]].invocation == "" {
        var j :| 0 <= j < |places| && places[j] == p;
        assert segment[j] in segment;
      }
    }
  }

  /** The order is read from the back up to the last turn-end fact of the address. */
  method ReadInFlight(facts: map<string, Event>, order: seq<string>, addr: Address) returns (segment: seq<Event>, ghost places: seq<nat>)
    requires forall k :: k in order ==> k in facts
    ensures segment == InFlight(AddressChain(Live(facts, order), addr))
    ensures Places(facts, order, addr, places, segment)
  {
    segment, places := [], [];
    var at := |order|;
    ghost var live := Live(facts, order);
    hide AddressChain, InFlight, Tail, AtAddress, Collected, Places;
    TailStart(live, addr);
    CollectedStart(facts, order, addr);
    while at > 0
      invariant 0 <= at <= |order|
      invariant Tail(live, at, addr, segment) && Collected(facts, order, addr, at, places, segment)
    {
      at := at - 1;
      assert order[at] in order;
      var evt := facts[order[at]];
      TailStep(live, at, addr, segment);
      CollectedStep(facts, order, addr, at, places, segment);
      if !AtAddress(evt, addr) { continue; }
      if evt.kind.AgentOutput? { return; }
      segment, places := [evt] + segment, [at] + places;
    }
    TailEnd(live, addr, segment);
    CollectedEnd(facts, order, addr, places, segment);
  }

  /** What was collected behind a position, by place: every fact of the address, none of
      which is a turn-end fact. */
  ghost predicate Collected(facts: map<string, Event>, order: seq<string>, addr: Address, at: nat, places: seq<nat>, segment: seq<Event>)
    requires forall k :: k in order ==> k in facts
  {
    Shown(facts, order, at, places, segment) && Covers(facts, order, addr, at, places)
  }

  ghost predicate Shown(facts: map<string, Event>, order: seq<string>, at: nat, places: seq<nat>, segment: seq<Event>)
    requires forall k :: k in order ==> k in facts
  {
    && |places| == |segment| && (forall i, j :: 0 <= i < j < |places| ==> places[i] < places[j])
    && (forall i :: 0 <= i < |places| ==> at <= places[i] < |order| && segment[i] == facts[order[places[i]]])
  }

  ghost predicate Covers(facts: map<string, Event>, order: seq<string>, addr: Address, at: nat, places: seq<nat>)
    requires forall k :: k in order ==> k in facts
  {
    && (forall p: nat :: at <= p < |order| && AtAddress(facts[order[p]], addr) ==> p in places && !facts[order[p]].kind.AgentOutput?)
    && (forall p :: p in places ==> p < |order| && AtAddress(facts[order[p]], addr))
  }

  lemma CollectedStart(facts: map<string, Event>, order: seq<string>, addr: Address)
    requires forall k :: k in order ==> k in facts
    ensures Collected(facts, order, addr, |order|, [], [])
  {
  }

  lemma CollectedStep(facts: map<string, Event>, order: seq<string>, addr: Address, at: nat, places: seq<nat>, segment: seq<Event>)
    requires (forall k :: k in order ==> k in facts) && at < |order| && Collected(facts, order, addr, at + 1, places, segment)
    ensures !AtAddress(facts[order[at]], addr) ==> Collected(facts, order, addr, at, places, segment)
    ensures AtAddress(facts[order[at]], addr) && !facts[order[at]].kind.AgentOutput? ==>
              Collected(facts, order, addr, at, [at] + places, [facts[order[at]]] + segment)
    ensures AtAddress(facts[order[at]], addr) && facts[order[at]].kind.AgentOutput? ==> Places(facts, order, addr, places, segment)
  {
    hide AtAddress, Collected, Places, Flying;
    if !AtAddress(facts[order[at]], addr) {
      CollectedSkip(facts, order, addr, at, places, segment);
    } else if facts[order[at]].kind.AgentOutput? {
      CollectedBehind(facts, order, addr, at, places, segment);
    } else {
      CollectedOne(facts, order, addr, at, places, segment);
    }
  }

  lemma CollectedSkip(facts: map<string, Event>, order: seq<string>, addr: Address, at: nat, places: seq<nat>, segment: seq<Event>)
    requires (forall k :: k in order ==> k in facts) && at < |order| && Collected(facts, order, addr, at + 1, places, segment)
    requires !AtAddress(facts[order[at]], addr)
    ensures Collected(facts, order, addr, at, places, segment)
  {
    hide AtAddress;
  }

  lemma CollectedOne(facts: map<string, Event>, order: seq<string>, addr: Address, at: nat, places: seq<nat>, segment: seq<Event>)
    requires (forall k :: k in order ==> k in facts) && at < |order| && Collected(facts, order, addr, at + 1, places, segment)
    requires AtAddress(facts[order[at]], addr) && !facts[order[at]].kind.AgentOutput?
    ensures Collected(facts, order, addr, at, [at] + places, [facts[order[at]]] + segment)
  {
    hide AtAddress;
    assert Covers(facts, order, addr, at, [at] + places) by {
      hide Shown;
      assert forall p :: p in [at] + places <==> p == at || p in places;
    }
    ShownMore(facts, order, at, places, segment);
  }

  lemma ShownMore(facts: map<string, Event>, order: seq<string>, at: nat, places: seq<nat>, segment: seq<Event>)
    requires (forall k :: k in order ==> k in facts) && at < |order| && Shown(facts, order, at + 1, places, segment)
    ensures Shown(facts, order, at, [at] + places, [facts[order[at]]] + segment)
  {
  }

  lemma CollectedBehind(facts: map<string, Event>, order: seq<string>, addr: Address, at: nat, places: seq<nat>, segment: seq<Event>)
    requires (forall k :: k in order ==> k in facts) && at < |order| && Collected(facts, order, addr, at + 1, places, segment)
    requires AtAddress(facts[order[at]], addr) && facts[order[at]].kind.AgentOutput?
    ensures Places(facts, order, addr, places, segment)
  {
    hide AtAddress;
    forall p | p in places ensures at < p < |order| {
      var i :| 0 <= i < |places| && places[i] == p;
    }
  }

  lemma CollectedEnd(facts: map<string, Event>, order: seq<string>, addr: Address, places: seq<nat>, segment: seq<Event>)
    requires (forall k :: k in order ==> k in facts) && Collected(facts, order, addr, 0, places, segment)
    ensures Places(facts, order, addr, places, segment)
  {
    hide AtAddress;
    forall p | p in places ensures p < |order| {
      var i :| 0 <= i < |places| && places[i] == p;
    }
  }

  /** The newest fact that names a range. */
  method ReadRange(segment: seq<Event>) returns (range: string, ghost newest: nat)
    ensures range == RangeOf(segment)
    ensures range != "" ==>
              newest < |segment| && segment[newest].invocation == range && forall j :: newest < j < |segment| ==> segment[j].invocation == ""
    ensures range == "" ==> forall e :: e in segment ==> e.invocation == ""
  {
    var i := |segment|;
    assert segment[..i] == segment;
    while i > 0
      invariant 0 <= i <= |segment| && RangeOf(segment) == RangeOf(segment[..i])
      invariant forall j :: i <= j < |segment| ==> segment[j].invocation == ""
    {
      i := i - 1;
      assert segment[..i + 1][..i] == segment[..i];
      if segment[i].invocation != "" { return segment[i].invocation, i; }
    }
    range, newest := "", 0;
  }

  method CountRounds(segment: seq<Event>, range: string, ghost facts: map<string, Event>, ghost order: seq<string>,
                     ghost addr: Address, ghost places: seq<nat>)
    returns (rounds: nat)
    requires (forall k :: k in order ==> k in facts) && Places(facts, order, addr, places, segment)
    requires Rising(places, |segment|)
    ensures rounds == RoundsOf(segment, range) && rounds == |RoundPlaces(facts, order, addr, range)|
  {
    hide *;
    rounds := 0;
    ghost var seen: set<int> := {};
    RoundsNone(segment, range, places);
    for j := 0 to |segment|
      invariant rounds == RoundsOf(segment[..j], range) == |seen| && SeenRounds(segment, range, places, j, seen)
    {
      RoundsNext(segment, range, places, j, seen);
      if segment[j].kind.ThinkingPlan? && segment[j].invocation == range {
        rounds, seen := rounds + 1, seen + {places[j]};
      }
    }
    assert segment[..|segment|] == segment;
    RoundsSeen(facts, order, addr, places, segment, range, seen);
  }

  ghost predicate Rising(places: seq<nat>, n: nat) {
    |places| == n && forall i, j :: 0 <= i < j < |places| ==> places[i] < places[j]
  }

  /** The places of the rounds among the first j facts. */
  ghost predicate SeenRounds(segment: seq<Event>, range: string, places: seq<nat>, j: nat, seen: set<int>)
    requires Rising(places, |segment|) && j <= |segment|
  {
    forall p :: p in seen <==> exists i :: 0 <= i < j && places[i] == p && segment[i].kind.ThinkingPlan? && segment[i].invocation == range
  }

  lemma RoundsNone(segment: seq<Event>, range: string, places: seq<nat>)
    requires Rising(places, |segment|)
    ensures RoundsOf(segment[..0], range) == 0 && SeenRounds(segment, range, places, 0, {})
  {
  }

  lemma RoundsNext(segment: seq<Event>, range: string, places: seq<nat>, j: nat, seen: set<int>)
    requires Rising(places, |segment|) && j < |segment| && SeenRounds(segment, range, places, j, seen)
    ensures j < |places| && places[j] !in seen
    ensures segment[j].kind.ThinkingPlan? && segment[j].invocation == range ==>
              RoundsOf(segment[..j + 1], range) == RoundsOf(segment[..j], range) + 1
              && SeenRounds(segment, range, places, j + 1, seen + {places[j]})
    ensures !(segment[j].kind.ThinkingPlan? && segment[j].invocation == range) ==>
              RoundsOf(segment[..j + 1], range) == RoundsOf(segment[..j], range) && SeenRounds(segment, range, places, j + 1, seen)
  {
    assert segment[..j + 1][..j] == segment[..j];
  }

  lemma RoundsSeen(facts: map<string, Event>, order: seq<string>, addr: Address, places: seq<nat>, segment: seq<Event>, range: string, seen: set<int>)
    requires (forall k :: k in order ==> k in facts) && Places(facts, order, addr, places, segment)
    requires Rising(places, |segment|) && SeenRounds(segment, range, places, |segment|, seen)
    ensures seen == RoundPlaces(facts, order, addr, range)
  {
    hide Flying;
    forall p ensures p in seen <==> p in RoundPlaces(facts, order, addr, range) {
      if p in RoundPlaces(facts, order, addr, range) {
        var i :| 0 <= i < |places| && places[i] == p;
      }
      if p in seen {
        var i :| 0 <= i < |segment| && places[i] == p && segment[i].kind.ThinkingPlan? && segment[i].invocation == range;
        assert places[i] in places;
      }
    }
  }

  /** What was collected behind position at holds no turn-end fact of the address. */
  ghost predicate Tail(live: seq<Event>, at: nat, addr: Address, segment: seq<Event>) {
    && at <= |live| && segment == AddressChain(live[at..], addr)
    && (forall e :: e in segment ==> !e.kind.AgentOutput?)
  }

  lemma TailStart(live: seq<Event>, addr: Address)
    ensures Tail(live, |live|, addr, [])
  {
  }

  lemma TailStep(live: seq<Event>, at: nat, addr: Address, segment: seq<Event>)
    requires at < |live| && Tail(live, at + 1, addr, segment)
    ensures !AtAddress(live[at], addr) ==> Tail(live, at, addr, segment)
    ensures AtAddress(live[at], addr) && !live[at].kind.AgentOutput? ==> Tail(live, at, addr, [live[at]] + segment)
    ensures AtAddress(live[at], addr) && live[at].kind.AgentOutput? ==> InFlight(AddressChain(live, addr)) == segment
  {
    hide LastOutput, AtAddress, InFlight, Filter;
    AddressNext(live, at, addr);
    if AtAddress(live[at], addr) && live[at].kind.AgentOutput? {
      AddressBehind(live, at, addr);
      BehindOutput(AddressChain(live[..at], addr), live[at], segment);
    }
  }

  lemma AddressNext(live: seq<Event>, at: nat, addr: Address)
    requires at < |live|
    ensures AddressChain(live[at..], addr) == (if AtAddress(live[at], addr) then [live[at]] else []) + AddressChain(live[at + 1..], addr)
  {
    hide AtAddress;
    var p := (e: Event) => AtAddress(e, addr);
    assert live[at..] == [live[at]] + live[at + 1..];
    FilterAppend([live[at]], live[at + 1..], p);
    OneFiltered(live[at], p);
  }

  lemma AddressBehind(live: seq<Event>, at: nat, addr: Address)
    requires at < |live|
    ensures AddressChain(live, addr) == AddressChain(live[..at], addr) + AddressChain(live[at..], addr)
  {
    assert live == live[..at] + live[at..];
    FilterAppend(live[..at], live[at..], (e: Event) => AtAddress(e, addr));
  }

  lemma OneFiltered(e: Event, p: Event -> bool)
    ensures Filter([e], p) == if p(e) then [e] else []
  {
    assert [e][..0] == [];
  }

  lemma BehindOutput(before: seq<Event>, out: Event, segment: seq<Event>)
    requires out.kind.AgentOutput? && forall e :: e in segment ==> !e.kind.AgentOutput?
    ensures InFlight(before + ([out] + segment)) == segment
  {
    var c := before + ([out] + segment);
    forall i | |before| < i < |c| ensures !c[i].kind.AgentOutput? {
      assert c[i] == segment[i - |before| - 1];
    }
    LastOf(c, |before|);
  }

  lemma TailEnd(live: seq<Event>, addr: Address, segment: seq<Event>)
    requires Tail(live, 0, addr, segment)
    ensures InFlight(AddressChain(live, addr)) == segment
  {
    assert live[0..] == live;
    LastOf(segment, -1);
  }

  // --- trimming is invisible to the segment in flight ---

  lemma WindowInFlight(c: seq<Event>)
    ensures InFlight(Window(c)) == InFlight(c)
  {
    SegmentKept(c);
  }

  ghost predicate OneAgent(h: seq<Event>, addr: Address) {
    forall e :: e in h && SessionOf(e) == addr.session ==> AgentOf(e) == addr.agent
  }

  lemma AddressIsSession(l: seq<Event>, addr: Address)
    requires OneAgent(l, addr)
    ensures AddressChain(l, addr) == Chain(l, addr.session)
  {
    FilterCongruent(l, (e: Event) => AtAddress(e, addr), (e: Event) => SessionOf(e) == addr.session);
  }

  /** For a session of one agent the trimmed ledger answers the segment the whole history
      answers: the same range, the same rounds and the same start. */
  lemma TrimInvisible(h: seq<Event>, live: seq<Event>, addr: Address)
    requires Windowed(h, live) && addr.IsComplete() && OneAgent(h, addr)
    ensures SegmentOf(AddressChain(live, addr)) == SegmentOf(AddressChain(h, addr))
  {
    hide SegmentOf, Window;
    var s := addr.session;
    forall e | e in live && SessionOf(e) == s ensures AgentOf(e) == addr.agent {
      assert e in Chain(live, s);
      InWindow(Chain(h, s), e);
      assert e in Chain(h, s);
    }
    AddressIsSession(live, addr);
    AddressIsSession(h, addr);
    WindowInFlight(Chain(h, s));
    SameSegment(Chain(live, s), Chain(h, s));
  }

  lemma InWindow(c: seq<Event>, e: Event)
    ensures e in Window(c) ==> e in c
  {
  }

  lemma SameSegment(a: seq<Event>, b: seq<Event>)
    requires InFlight(a) == InFlight(b)
    ensures SegmentOf(a) == SegmentOf(b)
  {
  }

  // --- one request for one range ---

  const ROUNDS := "rounds"
  const BUDGET := "budget"

  /** The facts in flight carry at most one of the named identities. */
  ghost predicate OneOf(c: seq<Event>, ids: set<string>) {
    forall i, j :: LastOutput(c) < i < j < |c| ==> !(c[i].key in ids && c[j].key in ids)
  }

  lemma OtherCommitKeeps(c: seq<Event>, ids: set<string>, e: Event)
    requires OneOf(c, ids)
    requires e.key in ids ==> forall i :: LastOutput(c) < i < |c| ==> c[i].key !in ids
    ensures OneOf(c + [e], ids)
  {
    OutputBehind(c, e);
  }

  /** A fact in flight is a live fact. */
  lemma InFlightLive(h: seq<Event>, live: seq<Event>, s: string, i: nat)
    requires Windowed(h, live) && s != "" && LastOutput(Chain(h, s)) < i < |Chain(h, s)|
    ensures Chain(h, s)[i] in live
  {
    hide LastOutput;
    var c := Chain(h, s);
    SegmentKept(c);
    assert Window(c)[i - CutOf(c)] == c[i];
    assert c[i] in Chain(live, s);
  }

  /** finalRoundRequestEvent: the judgment carries no message, so it enters no sequence. */
  function FinalRoundRequestEvent(addr: Address, id: string, range: string, reason: string, at: int): Event {
    Event(id, Kind.FinalRoundRequest, at, map["event_summary" := "final round request " + reason, "final_round_range" := range, "final_round_reason" := reason],
          Message("", "", [], "", ""), addr, Address("", ""), Address("", ""), range, "", "", "", "", "", "", "")
  }

  /** fileFinalRoundRequest: a range that carries a request under either reason files no
      second one. ids are the identities of the two reasons for this range. */
  method FileFinalRoundRequest(run: Run, addr: Address, range: string, reason: string, id: string, ids: set<string>, now: int) returns (ok: bool)
    requires run.Valid() && id in ids
    modifies run, run.factOrder, run.factOrder.data
    ensures run.Valid() && run.factOrder == old(run.factOrder) && (run.factOrder.data == old(run.factOrder.data) || fresh(run.factOrder.data))
    ensures ok <==> addr.IsComplete() && id != "" && range != ""
    ensures !ok ==> run.history == old(run.history)
    ensures run.history == old(run.history) || run.history == old(run.history) + [FinalRoundRequestEvent(addr, id, range, reason, now)]
    ensures (exists k :: k in ids && k in old(run.facts)) ==> run.history == old(run.history) && run.facts == old(run.facts)
    ensures ok && !run.tiered && (forall k :: k in ids ==> k !in old(run.facts)) ==>
              run.history == old(run.history) + [FinalRoundRequestEvent(addr, id, range, reason, now)]
    ensures ok && OneOf(Chain(old(run.history), addr.session), ids) ==> OneOf(Chain(run.history, addr.session), ids)
  {
    if !addr.IsComplete() || id == "" || range == "" { return false; }
    ok := true;
    var filed := exists k :: k in ids && k in run.facts;
    if filed { return; }
    ghost var h := run.history;
    NoneInFlight(run, addr.session, ids);
    hide *;
    var evt := FinalRoundRequestEvent(addr, id, range, reason, now);
    RequestNamed(addr, id, range, reason, now);
    var _ := run.CommitKeyed(evt);
    RequestFiled(h, run.history, addr.session, ids, evt);
  }

  lemma RequestNamed(addr: Address, id: string, range: string, reason: string, at: int)
    requires addr.IsComplete()
    ensures FinalRoundRequestEvent(addr, id, range, reason, at).key == id
    ensures SessionOf(FinalRoundRequestEvent(addr, id, range, reason, at)) == addr.session
    ensures MappedSequence.MappedEntry(FinalRoundRequestEvent(addr, id, range, reason, at)).None?
  {
  }

  /** An identity the live ledger does not hold is carried by no fact in flight. */
  lemma NoneInFlight(run: Run, s: string, ids: set<string>)
    requires run.Valid() && forall k :: k in ids ==> k !in run.facts
    ensures s != "" ==> forall i :: LastOutput(Chain(run.history, s)) < i < |Chain(run.history, s)| ==> Chain(run.history, s)[i].key !in ids
  {
    hide LastOutput, Chain, Windowed;
    var live := run.LiveFacts();
    AlignedDistinct(run.facts, run.factOrder.Contents());
    if s != "" {
      forall i | LastOutput(Chain(run.history, s)) < i < |Chain(run.history, s)| ensures Chain(run.history, s)[i].key !in ids {
        InFlightLive(run.history, live, s, i);
      }
    }
  }

  lemma RequestFiled(h: seq<Event>, after: seq<Event>, s: string, ids: set<string>, evt: Event)
    requires after == h || after == h + [evt]
    requires SessionOf(evt) == s && forall i :: LastOutput(Chain(h, s)) < i < |Chain(h, s)| ==> Chain(h, s)[i].key !in ids
    ensures OneOf(Chain(h, s), ids) ==> OneOf(Chain(after, s), ids)
  {
    hide LastOutput, Chain;
    ChainAppend(h, evt, s);
    if OneOf(Chain(h, s), ids) { OtherCommitKeeps(Chain(h, s), ids, evt); }
  }

  // --- runs ---

  /** A commit of another fact of any session, or the filing of a request under one of the
      two identities of the range. */
  datatype RoundOp = Commit(e: Event) | File(reason: string, id: string, now: int)

  predicate RoundOpOf(op: RoundOp, ids: set<string>) {
    match op
    case Commit(e) => e.key != "" && e.key !in ids
    case File(_, id, _) => id in ids
  }

  /** However commits, the trims they cause and filings under either reason interleave, the
      facts in flight of the address carry at most one request, after every one of them. */
  method RunRounds(run: Run, addr: Address, range: string, ids: set<string>, ops: seq<RoundOp>) returns (ghost seen: seq<seq<Event>>)
    requires run.Valid() && addr.IsComplete() && OneOf(Chain(run.history, addr.session), ids)
    requires forall op :: op in ops ==> RoundOpOf(op, ids)
    modifies run, run.factOrder, run.factOrder.data
    ensures run.Valid() && |seen| == |ops| + 1 && seen[0] == old(run.history) && seen[|ops|] == run.history
    ensures forall i :: 0 <= i <= |ops| ==> OneOf(Chain(seen[i], addr.session), ids)
    ensures forall i :: 0 <= i < |ops| ==> seen[i] <= seen[i + 1] && |seen[i + 1]| <= |seen[i]| + 1
  {
    hide *;
    seen := [run.history];
    for i := 0 to |ops|
      invariant run.Valid() && run.factOrder == old(run.factOrder) && (run.factOrder.data == old(run.factOrder.data) || fresh(run.factOrder.data))
      invariant |seen| == i + 1 && seen[0] == old(run.history) && seen[i] == run.history
      invariant forall j :: 0 <= j <= i ==> OneOf(Chain(seen[j], addr.session), ids)
      invariant forall j :: 0 <= j < i ==> seen[j] <= seen[j + 1] && |seen[j + 1]| <= |seen[j]| + 1
    {
      assert ops[i] in ops;
      RoundStep(run, addr, range, ids, ops[i]);
      seen := seen + [run.history];
    }
  }

  method RoundStep(run: Run, addr: Address, range: string, ids: set<string>, op: RoundOp)
    requires run.Valid() && addr.IsComplete() && OneOf(Chain(run.history, addr.session), ids) && RoundOpOf(op, ids)
    modifies run, run.factOrder, run.factOrder.data
    ensures run.Valid() && OneOf(Chain(run.history, addr.session), ids)
    ensures run.factOrder == old(run.factOrder) && (run.factOrder.data == old(run.factOrder.data) || fresh(run.factOrder.data))
    ensures old(run.history) <= run.history && |run.history| <= |old(run.history)| + 1
  {
    ghost var h := run.history;
    RoundOpParts(op, ids);
    hide *;
    match op
    case Commit(e) =>
      var _ := run.CommitKeyed(e);
      OtherFiled(h, run.history, addr.session, ids, e);
    case File(reason, id, now) =>
      var ok := FileFinalRoundRequest(run, addr, range, reason, id, ids, now);
      assert !ok ==> run.history == h;
  }

  lemma RoundOpParts(op: RoundOp, ids: set<string>)
    requires RoundOpOf(op, ids)
    ensures op.Commit? ==> op.e.key != "" && op.e.key !in ids
    ensures op.File? ==> op.id in ids
  {
  }

  lemma OtherFiled(h: seq<Event>, after: seq<Event>, s: string, ids: set<string>, e: Event)
    requires after == h || after == h + [e]
    requires OneOf(Chain(h, s), ids) && e.key !in ids
    ensures OneOf(Chain(after, s), ids)
  {
    hide LastOutput, Chain;
    ChainAppend(h, e, s);
    if SessionOf(e) == s { OtherCommitKeeps(Chain(h, s), ids, e); }
    assert Chain(h, s) + [] == Chain(h, s);
  }
}
