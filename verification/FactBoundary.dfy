// The ended boundary of every sequence a run registers: which commits reach a
// registration, that it is what those commits make of the entries a restart seeded,
// and what one commit does to the ended prefix of each of them.
module FactBoundary {
  import opened Core
  import opened EventBody
  import opened FactWindow
  import opened FactReplays
  import opened MappedSequence

  // --- which commits reach a registration ---

  /** The registered addresses behind one commit. */
  function Registering(slots: set<Address>, e: Event): set<Address> {
    if MappedEntry(e).None? || SessionOf(e) == "" || ReplaySlot(slots, ReplayAddress(e)).Some? then slots
    else slots + {ReplayAddress(e)}
  }

  /** The registration the entry of one commit enters, if it has one. */
  function SlotFor(slots: set<Address>, e: Event): Option<Address> {
    if MappedEntry(e).None? then None else ReplaySlot(Registering(slots, e), ReplayAddress(e))
  }

  function Registered(slots: set<Address>, c: seq<Event>): set<Address> {
    if c == [] then slots else Registering(Registered(slots, c[..|c| - 1]), c[|c| - 1])
  }

  /** The commits of c whose entries enter one registration, in order. */
  function FactsFor(slots: set<Address>, c: seq<Event>, slot: Address): seq<Event> {
    if c == [] then []
    else
      var init, e := c[..|c| - 1], c[|c| - 1];
      FactsFor(slots, init, slot) + if SlotFor(Registered(slots, init), e) == Some(slot) then [e] else []
  }

  lemma FactsForAppend(slots: set<Address>, c: seq<Event>, e: Event, slot: Address)
    ensures FactsFor(slots, c + [e], slot) ==
              FactsFor(slots, c, slot) + if SlotFor(Registered(slots, c), e) == Some(slot) then [e] else []
    ensures Registered(slots, c + [e]) == Registering(Registered(slots, c), e)
  {
    assert (c + [e])[..|c|] == c;
  }

  lemma {:induction false} FactsForUnregistered(slots: set<Address>, c: seq<Event>, slot: Address)
    ensures slots <= Registered(slots, c)
    ensures slot !in Registered(slots, c) ==> FactsFor(slots, c, slot) == []
  {
    hide MappedEntry;
    if c != [] {
      FactsForUnregistered(slots, c[..|c| - 1], slot);
    }
  }

  lemma {:induction false} FactsForOf(slots: set<Address>, c: seq<Event>, slot: Address)
    ensures forall e :: e in FactsFor(slots, c, slot) ==> e in c && MappedEntry(e).Some?
    ensures DistinctKeys(c) ==> DistinctKeys(FactsFor(slots, c, slot))
  {
    hide MappedEntry;
    if c != [] {
      var init, e := c[..|c| - 1], c[|c| - 1];
      FactsForOf(slots, init, slot);
      assert forall x :: x in init ==> x in c;
      if DistinctKeys(c) {
        assert forall x :: x in init ==> x.key != e.key;
      }
    }
  }

  /** Where a mapped fact enters: its own registration, else the one of its session that names
      no agent, else one it registers; a fact of no session enters none of its own. */
  lemma SlotChosen(slots: set<Address>, e: Event)
    requires MappedEntry(e).Some?
    ensures ReplayAddress(e) in slots ==> SlotFor(slots, e) == Some(ReplayAddress(e))
    ensures ReplayAddress(e) !in slots && Address("", SessionOf(e)) in slots ==> SlotFor(slots, e) == Some(Address("", SessionOf(e)))
    ensures ReplayAddress(e) !in slots && Address("", SessionOf(e)) !in slots ==>
              SlotFor(slots, e) == if SessionOf(e) == "" then None else Some(ReplayAddress(e))
  {
    hide MappedEntry, SessionOf, AgentOf;
  }

  /** The mapped facts of one address, in order. */
  function MappedFacts(c: seq<Event>, addr: Address): seq<Event> {
    if c == [] then []
    else
      var e := c[|c| - 1];
      MappedFacts(c[..|c| - 1], addr) + if ReplayAddress(e) == addr && MappedEntry(e).Some? then [e] else []
  }

  /** In a session no registration without an agent shares, the commits that reach an
      address are its own mapped facts, and the first of them registers it. */
  lemma {:induction false} FactsForOwn(slots: set<Address>, c: seq<Event>, addr: Address)
    requires addr.session != "" && Address("", addr.session) !in Registered(slots, c)
    ensures FactsFor(slots, c, addr) == MappedFacts(c, addr)
    ensures MappedFacts(c, addr) != [] ==> addr in Registered(slots, c)
  {
    hide MappedEntry;
    if c != [] {
      FactsForOwn(slots, c[..|c| - 1], addr);
    }
  }

  // --- every registration is what its commits make of it ---

  /** Every registration holds what its commits since the restart make of the entries the
      restart seeded, and nothing else is registered. */
  ghost predicate Follows(replays: map<Address, Replay>, restored: map<Address, Replay>, c: seq<Event>) {
    && replays.Keys == Registered(restored.Keys, c)
    && forall slot :: slot in replays ==> replays[slot] == After(EntriesAt(restored, slot), FactsFor(restored.Keys, c, slot))
  }

  /** A restart seeds every sequence as ended material. */
  lemma {:induction false} SeededFollows(h: seq<Event>)
    ensures Follows(Seeded(h), Seeded(h), [])
  {
    hide MappedEntry, Append;
    forall slot | slot in Seeded(h) ensures Seeded(h)[slot] == Replay(EntriesAt(Seeded(h), slot), "", false) {
      SeededEnded(h, slot);
    }
  }

  lemma {:induction false} SeededEnded(h: seq<Event>, slot: Address)
    ensures slot in Seeded(h) ==> Seeded(h)[slot].endedAt == "" && !Seeded(h)[slot].rangeOpen
  {
    hide MappedEntry, Append;
    if h != [] { SeededEnded(h[..|h| - 1], slot); }
  }

  /** One commit keeps every registration on its commits. */
  lemma CommitFollows(replays: map<Address, Replay>, restored: map<Address, Replay>, c: seq<Event>, e: Event)
    requires Follows(replays, restored, c)
    ensures Follows(Mapped(replays, e), restored, c + [e])
  {
    hide *;
    var after := Mapped(replays, e);
    FollowsKeys(replays, restored, c);
    FactsForAppend(restored.Keys, c, e, Address("", ""));
    CommitKeys(replays, e);
    forall slot | slot in after
      ensures after[slot] == After(EntriesAt(restored, slot), FactsFor(restored.Keys, c + [e], slot))
    {
      CommitFollowsAt(replays, restored, c, e, slot);
    }
    FollowsOf(after, restored, c + [e]);
  }

  lemma CommitFollowsAt(replays: map<Address, Replay>, restored: map<Address, Replay>, c: seq<Event>, e: Event, slot: Address)
    requires Follows(replays, restored, c) && slot in Mapped(replays, e)
    ensures Mapped(replays, e)[slot] == After(EntriesAt(restored, slot), FactsFor(restored.Keys, c + [e], slot))
  {
    hide *;
    FollowsKeys(replays, restored, c);
    FollowsAt(replays, restored, c, slot);
    FactsForAppend(restored.Keys, c, e, slot);
    CommitAt(replays, e, slot);
    AfterAppend(EntriesAt(restored, slot), FactsFor(restored.Keys, c, slot), e);
    assert FactsFor(restored.Keys, c, slot) + [] == FactsFor(restored.Keys, c, slot);
  }

  lemma FollowsKeys(replays: map<Address, Replay>, restored: map<Address, Replay>, c: seq<Event>)
    requires Follows(replays, restored, c)
    ensures replays.Keys == Registered(restored.Keys, c)
  {
  }

  lemma FollowsOf(replays: map<Address, Replay>, restored: map<Address, Replay>, c: seq<Event>)
    requires replays.Keys == Registered(restored.Keys, c)
    requires forall slot :: slot in replays ==> replays[slot] == After(EntriesAt(restored, slot), FactsFor(restored.Keys, c, slot))
    ensures Follows(replays, restored, c)
  {
  }

  function RegistrationAt(replays: map<Address, Replay>, slot: Address): Replay {
    if slot in replays then replays[slot] else Replay([], "", false)
  }

  /** An address nothing registered yet holds the empty sequence. */
  lemma FollowsAt(replays: map<Address, Replay>, restored: map<Address, Replay>, c: seq<Event>, slot: Address)
    requires Follows(replays, restored, c)
    ensures RegistrationAt(replays, slot) == After(EntriesAt(restored, slot), FactsFor(restored.Keys, c, slot))
  {
    hide MappedEntry, Record;
    FactsForUnregistered(restored.Keys, c, slot);
  }

  lemma AfterAppend(base: seq<Entry>, c: seq<Event>, e: Event)
    ensures After(base, c + [e]) == Record(After(base, c), e)
  {
    assert (c + [e])[..|c|] == c;
  }

  /** One commit is recorded in the registration it resolves and in no other. */
  lemma CommitAt(replays: map<Address, Replay>, e: Event, slot: Address)
    requires slot in Mapped(replays, e)
    ensures Mapped(replays, e)[slot] ==
              if SlotFor(replays.Keys, e) == Some(slot) then Record(RegistrationAt(replays, slot), e) else RegistrationAt(replays, slot)
  {
    hide MappedEntry, Record, SessionOf, AgentOf;
    CommitKeys(replays, e);
  }

  lemma CommitKeys(replays: map<Address, Replay>, e: Event)
    ensures Mapped(replays, e).Keys == Registering(replays.Keys, e)
    ensures MappedEntry(e).Some? ==> Attached(replays, ReplayAddress(e)).Keys == Registering(replays.Keys, e)
  {
    hide MappedEntry, Record, SessionOf, AgentOf;
  }

  // --- what a commit does to the ended prefix ---

  /** Every commit of the history names a fact of its own. */
  ghost predicate FreshCommits(h: seq<Event>) {
    DistinctKeys(h) && forall e :: e in h ==> e.key != ""
  }

  /** The seeded entries stand for facts of the history, each once. */
  lemma {:induction false} SeededKeys(h: seq<Event>, slot: Address)
    requires FreshCommits(h)
    ensures forall n :: n in EntriesAt(Seeded(h), slot) ==> n.key != "" && exists e :: e in h && e.key == n.key
    ensures forall i, j :: 0 <= i < j < |EntriesAt(Seeded(h), slot)| ==> EntriesAt(Seeded(h), slot)[i].key != EntriesAt(Seeded(h), slot)[j].key
  {
    hide MappedContent;
    if h != [] {
      var init, e := h[..|h| - 1], h[|h| - 1];
      assert forall x :: x in init ==> x in h;
      SeededKeys(init, slot);
      assert e in h;
    }
  }

  lemma {:induction false} FollowsFresh(past: seq<Event>, c: seq<Event>, slot: Address)
    requires FreshCommits(past + c)
    ensures FreshKeys(EntriesAt(Seeded(past), slot), FactsFor(Seeded(past).Keys, c, slot))
  {
    var base, facts := EntriesAt(Seeded(past), slot), FactsFor(Seeded(past).Keys, c, slot);
    HistoryParts(past, c);
    hide MappedEntry, Seeded, FactsFor, EntriesAt;
    SeededKeys(past, slot);
    FactsForOf(Seeded(past).Keys, c, slot);
    forall i | 0 <= i < |base| ensures base[i].key != "" {
      assert base[i] in base;
    }
    forall i | 0 <= i < |facts| ensures facts[i].key != "" && MappedEntry(facts[i]).Some? && !Holds(base, facts[i].key) {
      assert facts[i] in facts;
    }
  }

  lemma HistoryParts(past: seq<Event>, c: seq<Event>)
    requires FreshCommits(past + c)
    ensures FreshCommits(past) && FreshCommits(c)
    ensures forall a, b :: a in past && b in c ==> a.key != b.key
  {
    var h := past + c;
    forall e | e in past ensures e.key != "" { assert e in h; }
    forall e | e in c ensures e.key != "" { assert e in h; }
    forall i, j | 0 <= i < j < |past| ensures past[i].key != past[j].key { assert h[i] == past[i] && h[j] == past[j]; }
    forall i, j | 0 <= i < j < |c| ensures c[i].key != c[j].key { assert h[|past| + i] == c[i] && h[|past| + j] == c[j]; }
    forall a, b | a in past && b in c ensures a.key != b.key {
      var i :| 0 <= i < |past| && past[i] == a;
      var j :| 0 <= j < |c| && c[j] == b;
      assert h[i] == a && h[|past| + j] == b;
    }
  }

  /** An input that may start a range: a ready input that is no instruction and no material of
      a delegated batch, or the notice of a settled task. */
  predicate StartsRange(e: Event) {
    || (e.kind.ExternalInput? && ("delegated_part" in e.meta ==> e.meta["delegated_part"] != "instruction" && e.meta["delegated_part"] != "material"))
    || (e.kind.Feedback? && "trigger_source" in e.meta && e.meta["trigger_source"] == "task")
  }

  /** What one commit does to the sequence it enters: the ended prefix never moves back; an
      output closes the range and ends everything; an input that may start a range opens one
      beside none, right behind everything committed before it; everything else moves
      neither the boundary nor the range. */
  ghost predicate SequenceMoves(before: Replay, e: Event, now: Replay) {
    && EndedPrefix(before) <= EndedPrefix(now)
    && (e.kind.AgentOutput? ==> !now.rangeOpen && EndedPrefix(now) == |now.entries|)
    && (StartsRange(e) && !before.rangeOpen ==> now.rangeOpen && EndedPrefix(now) == |before.entries|)
    && (!e.kind.AgentOutput? && (before.rangeOpen || !StartsRange(e)) ==> now.rangeOpen == before.rangeOpen && now.endedAt == before.endedAt)
    && (!e.kind.AgentOutput? && before.rangeOpen ==> EndedPrefix(now) == EndedPrefix(before))
  }

  lemma RangeStarts(e: Event)
    ensures StartsRange(e) <==> AdmitsRange(e)
  {
  }

  lemma AfterMoves(base: seq<Entry>, c: seq<Event>, e: Event)
    requires FreshKeys(base, c + [e])
    ensures SequenceMoves(After(base, c), e, After(base, c + [e]))
  {
    assert (c + [e])[..|c|] == c;
    RangeStarts(e);
    BoundaryAdvances(base, c + [e]);
    FreshPrefix(base, c + [e]);
    ChartedAfter(base, c);
    ChartedAfter(base, c + [e]);
    OpeningStep(c + [e]);
    BoundaryResolved(base, c + [e]);
    AfterAppend(base, c, e);
    hide FreshKeys, EndedPrefix, After, Opening, LastClosed, StartsRange, AdmitsRange, MappedEntry;
  }

  /** What one commit does to the registered sequences: the one it enters, from an empty one
      where the commit registers it, moves as above, and the others stay as they were. */
  ghost predicate BoundaryMoves(before: map<Address, Replay>, now: map<Address, Replay>, e: Event) {
    && before.Keys <= now.Keys
    && (forall slot :: slot in now && SlotFor(before.Keys, e) != Some(slot) ==> slot in before && now[slot] == before[slot])
    && (SlotFor(before.Keys, e).Some? ==>
        var slot := SlotFor(before.Keys, e).value;
        slot in now && SequenceMoves(if slot in before then before[slot] else Replay([], "", false), e, now[slot]))
  }

  lemma CommitMoves(before: map<Address, Replay>, past: seq<Event>, c: seq<Event>, e: Event, now: map<Address, Replay>)
    requires Follows(before, Seeded(past), c) && Follows(now, Seeded(past), c + [e]) && FreshCommits(past + (c + [e]))
    ensures BoundaryMoves(before, now, e)
  {
    hide Follows, After, SequenceMoves, FreshCommits, FactsFor, Registered, Seeded, EntriesAt, MappedEntry;
    var restored := Seeded(past);
    FollowsKeys(before, restored, c);
    FollowsKeys(now, restored, c + [e]);
    FactsForAppend(restored.Keys, c, e, Address("", ""));
    RegisteringSlot(before.Keys, e);
    forall slot | slot in now
      ensures SlotFor(before.Keys, e) == Some(slot) ==> SequenceMoves(RegistrationAt(before, slot), e, now[slot])
      ensures SlotFor(before.Keys, e) != Some(slot) ==> slot in before && now[slot] == before[slot]
    {
      FollowsAt(before, restored, c, slot);
      FollowsAt(now, restored, c + [e], slot);
      FactsForAppend(restored.Keys, c, e, slot);
      var base, facts := EntriesAt(restored, slot), FactsFor(restored.Keys, c, slot);
      if SlotFor(before.Keys, e) == Some(slot) {
        FollowsFresh(past, c + [e], slot);
        AfterMoves(base, facts, e);
      } else {
        assert facts + [] == facts;
      }
    }
  }

  /** A commit registers no address but the one it enters. */
  lemma RegisteringSlot(slots: set<Address>, e: Event)
    ensures slots <= Registering(slots, e)
    ensures forall a :: a in Registering(slots, e) && a !in slots ==> SlotFor(slots, e) == Some(a)
    ensures SlotFor(slots, e).Some? ==> SlotFor(slots, e).value in Registering(slots, e)
  {
    hide MappedEntry, SessionOf, AgentOf;
  }

  /** One commit of a run that read the first part of its history back. */
  lemma HistoryFollows(before: map<Address, Replay>, h: seq<Event>, past: nat, e: Event)
    requires past <= |h| && Follows(before, Seeded(h[..past]), h[past..])
    ensures Follows(Mapped(before, e), Seeded((h + [e])[..past]), (h + [e])[past..])
    ensures FreshCommits(h + [e]) ==> BoundaryMoves(before, Mapped(before, e), e)
  {
    hide *;
    var p, c := h[..past], h[past..];
    assert (h + [e])[..past] == p && (h + [e])[past..] == c + [e] && p + (c + [e]) == h + [e];
    CommitFollows(before, Seeded(p), c, e);
    if FreshCommits(h + [e]) { CommitMoves(before, p, c, e, Mapped(before, e)); }
  }

  /** Where the ended material of a sequence stands: its entries are what a restart restored
      and behind it the commits, in order; everything restored is ended, every output is from
      the commit it landed, and nothing from the first input of an open range on is. */
  ghost predicate Ended(r: Replay, base: seq<Entry>, c: seq<Event>) {
    && |r.entries| == |base| + |c| && r.entries[..|base|] == base
    && |base| <= EndedPrefix(r) && EndedPrefix(r) == Boundary(|base|, c)
    && (forall i :: 0 <= i < |c| ==> MappedEntry(c[i]) == Some(r.entries[|base| + i]))
    && (forall i :: 0 <= i < |c| && c[i].kind.AgentOutput? ==> |base| + i < EndedPrefix(r))
    && (r.rangeOpen <==> exists i :: OpenAt(c, i))
    && (forall i :: OpenAt(c, i) ==> EndedPrefix(r) <= |base| + i)
  }

  lemma RegistrationEnded(replays: map<Address, Replay>, past: seq<Event>, c: seq<Event>, slot: Address)
    requires Follows(replays, Seeded(past), c) && FreshCommits(past + c) && slot in replays
    ensures Ended(replays[slot], EntriesAt(Seeded(past), slot), FactsFor(Seeded(past).Keys, c, slot))
  {
    hide *;
    RegisteredAt(replays, Seeded(past), c, slot);
    FollowsFresh(past, c, slot);
    SequenceEnded(EntriesAt(Seeded(past), slot), FactsFor(Seeded(past).Keys, c, slot));
  }

  lemma RegisteredAt(replays: map<Address, Replay>, restored: map<Address, Replay>, c: seq<Event>, slot: Address)
    requires Follows(replays, restored, c) && slot in replays
    ensures replays[slot] == After(EntriesAt(restored, slot), FactsFor(restored.Keys, c, slot))
  {
  }

  lemma SequenceEnded(base: seq<Entry>, c: seq<Event>)
    requires FreshKeys(base, c)
    ensures Ended(After(base, c), base, c)
  {
    hide FreshKeys, After, EndedPrefix, MappedEntry;
    BoundaryResolved(base, c);
    ChartedAfter(base, c);
    OpenIff(c);
    forall i | 0 <= i < |c| && c[i].kind.AgentOutput? ensures |base| + i < EndedPrefix(After(base, c)) {
      EndedMaterial(base, c, i);
    }
  }

  lemma OpenIff(c: seq<Event>)
    ensures Opening(c) < |c| <==> exists i :: OpenAt(c, i)
    ensures forall i :: OpenAt(c, i) ==> Opening(c) <= i
  {
    hide Opening, LastClosed;
    if Opening(c) < |c| { assert OpenAt(c, Opening(c)); }
  }

  /** An input at i opened a range no output closed yet. */
  ghost predicate OpenAt(c: seq<Event>, i: int) {
    && 0 <= i < |c| && AdmitsRange(c[i])
    && forall j :: i < j < |c| ==> !c[j].kind.AgentOutput?
  }
}
