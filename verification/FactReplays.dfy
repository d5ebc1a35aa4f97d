// The mapped sequences a run registers, one for each address: what a commit adds to
// them, what a restart seeds them with, and the entries both owe to the history.
module FactReplays {
  import opened Core
  import opened EventBody
  import opened FactWindow
  import opened MappedSequence

  function ReplayAddress(e: Event): Address { Address(AgentOf(e), SessionOf(e)) }

  /** replaySlotLocked: the full address first, then the registration naming no agent. */
  function ReplaySlot(slots: set<Address>, addr: Address): Option<Address> {
    if addr in slots then Some(addr)
    else if Address("", addr.session) in slots then Some(Address("", addr.session))
    else None
  }

  /** attachDeclaredReplay: the first mapped fact of a session registers its sequence. */
  function Attached(replays: map<Address, Replay>, addr: Address): map<Address, Replay> {
    if addr.session == "" || ReplaySlot(replays.Keys, addr).Some? then replays
    else replays[addr := Replay([], "", false)]
  }

  function Mapped(replays: map<Address, Replay>, e: Event): map<Address, Replay> {
    if MappedEntry(e).None? then replays
    else
      var attached := Attached(replays, ReplayAddress(e));
      var slot := ReplaySlot(attached.Keys, ReplayAddress(e));
      if slot.None? then attached else attached[slot.value := Record(attached[slot.value], e)]
  }

  /** seedReplay registers every restored sequence as ended material. A compression product
      is placed as the fold it recorded and appends no entry. */
  function SeedEntry(replays: map<Address, Replay>, e: Event): map<Address, Replay> {
    var addr := ReplayAddress(e);
    if addr.session == "" || e.kind.CompressProduct? || MappedEntry(e).None? then replays
    else replays[addr := Replay(Append(EntriesAt(replays, addr), MappedEntry(e).value), "", false)]
  }

  function Seeded(h: seq<Event>): map<Address, Replay> {
    if h == [] then map[] else SeedEntry(Seeded(h[..|h| - 1]), h[|h| - 1])
  }

  function EntriesAt(replays: map<Address, Replay>, addr: Address): seq<Entry> {
    if addr in replays then replays[addr].entries else []
  }

  /** The entries a history owes the sequence of one address. */
  function EntriesOf(h: seq<Event>, addr: Address): seq<Entry> {
    if h == [] then []
    else
      var e := h[|h| - 1];
      var before := EntriesOf(h[..|h| - 1], addr);
      if ReplayAddress(e) == addr && MappedEntry(e).Some? then Append(before, MappedEntry(e).value) else before
  }

  /** No compression product speaks a text of its own. */
  ghost predicate ProductsSilent(h: seq<Event>) {
    forall e :: e in h && e.kind.CompressProduct? ==> MappedEntry(e).None?
  }

  /** Where no registration without an agent shares the session, every sequence carries
      exactly the entries the history owes it. */
  ghost predicate Tracks(replays: map<Address, Replay>, h: seq<Event>) {
    ProductsSilent(h) ==> forall addr: Address :: addr.session != "" && Address("", addr.session) !in replays ==>
      EntriesAt(replays, addr) == EntriesOf(h, addr)
  }

  lemma SeededTracks(h: seq<Event>)
    ensures Tracks(Seeded(h), h)
  {
    if ProductsSilent(h) {
      forall addr: Address | addr.session != "" ensures EntriesAt(Seeded(h), addr) == EntriesOf(h, addr) {
        SeedTracks(h, addr);
      }
    }
  }

  lemma EntriesOfAppend(h: seq<Event>, e: Event, addr: Address)
    ensures EntriesOf(h + [e], addr) ==
              if ReplayAddress(e) == addr && MappedEntry(e).Some? then Append(EntriesOf(h, addr), MappedEntry(e).value)
              else EntriesOf(h, addr)
  {
    assert (h + [e])[..|h|] == h;
  }

  /** A commit adds its entry to the one sequence it belongs to. */
  lemma CommitTracks(replays: map<Address, Replay>, h: seq<Event>, e: Event)
    requires Tracks(replays, h)
    ensures Tracks(Mapped(replays, e), h + [e])
  {
    hide MappedEntry, AdmitsRange, Append;
    var after := Mapped(replays, e);
    if !ProductsSilent(h + [e]) { return; }
    assert forall f :: f in h ==> f in h + [e];
    hide ProductsSilent, Mapped, EntriesAt, EntriesOf;
    forall addr: Address | addr.session != "" && Address("", addr.session) !in after
      ensures EntriesAt(after, addr) == EntriesOf(h + [e], addr)
    {
      MappedEntries(replays, e, addr);
      EntriesOfAppend(h, e, addr);
    }
  }

  /** What one commit adds to the sequence of an address nothing registers without agent. */
  lemma MappedEntries(replays: map<Address, Replay>, e: Event, addr: Address)
    requires addr.session != "" && Address("", addr.session) !in Mapped(replays, e)
    ensures Address("", addr.session) !in replays
    ensures EntriesAt(Mapped(replays, e), addr) ==
              if ReplayAddress(e) == addr && MappedEntry(e).Some? then Append(EntriesAt(replays, addr), MappedEntry(e).value)
              else EntriesAt(replays, addr)
  {
    hide MappedEntry, AdmitsRange, Append;
  }

  /** A restart seeds every sequence with exactly the entries the records owe it. */
  lemma {:induction false} SeedTracks(h: seq<Event>, addr: Address)
    requires ProductsSilent(h) && addr.session != ""
    ensures EntriesAt(Seeded(h), addr) == EntriesOf(h, addr)
    ensures addr in Seeded(h) ==> Seeded(h)[addr].endedAt == "" && !Seeded(h)[addr].rangeOpen
  {
    hide MappedEntry, Append;
    if h != [] {
      assert h[|h| - 1] in h;
      SeedTracks(h[..|h| - 1], addr);
    }
  }

  /** The entries of one address are owed to its session chain alone. */
  lemma {:induction false} EntriesOfChain(h: seq<Event>, addr: Address)
    ensures EntriesOf(Chain(h, addr.session), addr) == EntriesOf(h, addr)
  {
    hide MappedEntry, Append;
    if h != [] {
      var init, e := h[..|h| - 1], h[|h| - 1];
      EntriesOfChain(init, addr);
      if SessionOf(e) == addr.session {
        assert Chain(h, addr.session) == Chain(init, addr.session) + [e];
        EntriesOfAppend(Chain(init, addr.session), e, addr);
      }
    }
  }

  /** Facts that agree on their address and their text owe the same entries. */
  lemma {:induction false} EntriesAgree(a: seq<Event>, b: seq<Event>, addr: Address)
    requires |a| == |b|
    requires forall i :: 0 <= i < |a| ==> ReplayAddress(a[i]) == ReplayAddress(b[i]) && MappedEntry(a[i]) == MappedEntry(b[i])
    ensures EntriesOf(a, addr) == EntriesOf(b, addr)
  {
    hide MappedEntry, Append;
    if a != [] {
      EntriesAgree(a[..|a| - 1], b[..|b| - 1], addr);
    }
  }

  // --- a fact the window cut, committed again ---

  function OutputFact(key: string, addr: Address): Event {
    Event(key, AgentOutput, 0, map[], Message("assistant", "done", [], "", ""), addr, Address("", ""), Address("", ""),
          "", "", "", "", "", "", "", "")
  }

  /** Commits alone reach such a sequence: an output, the facts of a whole window and another
      output. The window has cut the first, so its identity is free in the live ledger, and
      its second commit takes the boundary back behind the first entry. */
  lemma RecommitReached(addr: Address)
    ensures var first := OutputFact("a", addr);
            var h := LongChain(first, addr, OutputFact("b", addr));
            && DistinctKeys(h) && (forall e :: e in Window(h) ==> e.key != "a")
            && EndedPrefix(After([], h)) == |h| && EndedPrefix(After([], h + [first])) == 1
  {
    var first, last := OutputFact("a", addr), OutputFact("b", addr);
    var h := LongChain(first, addr, last);
    LongChainKeyed(first, addr, last);
    LongChainCut(first, addr, last);
    forall i | 0 <= i < |h| ensures MappedEntry(h[i]).Some? {}
    hide MappedEntry, CutOf, Record;
    BoundaryResolved([], h);
    ChartedAfter([], h);
    OpeningOf(h, |h|);
    RecommitOpens(h, first);
  }

  lemma {:induction false} RecommitOpens(h: seq<Event>, first: Event)
    requires h != [] && h[0] == first && first.kind.AgentOutput? && first.key != "" && MappedEntry(first).Some?
    requires Charted([], h)
    ensures EndedPrefix(After([], h + [first])) == 1
  {
    hide Opening, LastClosed;
    var r := After([], h);
    assert (h + [first])[..|h|] == h;
    KeyOfMapped(first);
    assert MappedEntry(h[0]) == Some(r.entries[0]);
    assert r.entries[0] in r.entries;
    FirstAt(r.entries, 0, first.key);
  }
}
