// What a restart reads back: the records of the tier in index order, and when that
// order is the commit order of a chain.
module FactRestart {
  import opened Core
  import opened EventBody
  import opened FactWindow
  import opened FactLedger
  import opened FactChain
  import opened SegmentIndex
  import opened FactReplays
  import opened Sorting

  /** The event a record restores. */
  function Reread(e: Event): Event
    requires e.key != ""
  {
    EventOf(BodyOf(e))
  }

  /** What the segment index holds of one session chain: every fact of it, and no other fact
      of its session, each under a slot behind the one before it. */
  ghost predicate Filed(segments: map<string, Stored>, s: string, c: seq<Event>) {
    && (forall i :: 0 <= i < |c| ==> c[i].key != "" && c[i].key in segments && SessionOf(c[i]) == s)
    && (forall i :: 0 <= i < |c| ==> segments[c[i].key].body == BodyOf(c[i]) && segments[c[i].key].window == UnixMilli(c[i].time))
    && (forall i, j :: 0 <= i < j < |c| ==>
        segments[c[i].key].partition == segments[c[j].key].partition && segments[c[i].key].slot < segments[c[j].key].slot)
    && (forall k :: InSession(segments, k, s) ==> exists i :: 0 <= i < |c| && c[i].key == k)
  }

  predicate InSession(segments: map<string, Stored>, k: string, s: string) {
    k in segments && SessionOf(EventOf(segments[k].body)) == s
  }

  /** One new fact of the owning agent files the chain on; a fact of another session, under
      its own partition or the same, leaves it filed. */
  lemma CommitFiles(segments: map<string, Stored>, landed: map<int, nat>, s: string, c: seq<Event>, e: Event, p: int)
    requires SlotsSound(segments, landed) && Filed(segments, s, c) && e.key != "" && e.key !in segments
    requires SessionOf(e) == s ==> forall i :: 0 <= i < |c| ==> segments[c[i].key].partition == p
    ensures var next := segments[e.key := Stored(BodyOf(e), p, UnixMilli(e.time), Slot(landed, p) + 1)];
            Filed(next, s, if SessionOf(e) == s then c + [e] else c)
  {
    var rec := Stored(BodyOf(e), p, UnixMilli(e.time), Slot(landed, p) + 1);
    var next := segments[e.key := rec];
    SameSession(e);
    forall k | k != e.key ensures InSession(next, k, s) <==> InSession(segments, k, s) {}
    assert InSession(next, e.key, s) <==> SessionOf(e) == s;
    hide InSession, SessionOf, BodyOf, UnixMilli;
    if SessionOf(e) == s {
      BehindAll(segments, landed, c, p);
      FiledOn(segments, s, c, e, rec);
    } else {
      FiledBeside(segments, s, c, e.key, rec);
    }
  }

  lemma BehindAll(segments: map<string, Stored>, landed: map<int, nat>, c: seq<Event>, p: int)
    requires SlotsSound(segments, landed)
    requires forall i :: 0 <= i < |c| ==> c[i].key in segments && segments[c[i].key].partition == p
    ensures forall i :: 0 <= i < |c| ==> segments[c[i].key].slot <= Slot(landed, p)
  {
  }

  lemma FiledOn(segments: map<string, Stored>, s: string, c: seq<Event>, e: Event, rec: Stored)
    requires Filed(segments, s, c) && e.key != "" && e.key !in segments && SessionOf(e) == s
    requires rec.body == BodyOf(e) && rec.window == UnixMilli(e.time)
    requires forall i :: 0 <= i < |c| ==> segments[c[i].key].partition == rec.partition && segments[c[i].key].slot < rec.slot
    requires forall k :: k != e.key ==> (InSession(segments[e.key := rec], k, s) <==> InSession(segments, k, s))
    ensures Filed(segments[e.key := rec], s, c + [e])
  {
    hide InSession, SessionOf, BodyOf, UnixMilli;
    var next, d := segments[e.key := rec], c + [e];
    forall k | InSession(next, k, s) ensures exists i :: 0 <= i < |d| && d[i].key == k {
      if k == e.key {
        assert d[|c|].key == k;
      } else {
        assert InSession(segments[e.key := rec], k, s);
        assert InSession(segments, k, s);
        var i :| 0 <= i < |c| && c[i].key == k;
        assert d[i].key == k;
      }
    }
  }

  lemma FiledBeside(segments: map<string, Stored>, s: string, c: seq<Event>, key: string, rec: Stored)
    requires Filed(segments, s, c) && key !in segments && !InSession(segments[key := rec], key, s)
    requires forall k :: k != key ==> (InSession(segments[key := rec], k, s) <==> InSession(segments, k, s))
    ensures Filed(segments[key := rec], s, c)
  {
    hide InSession, SessionOf, BodyOf, UnixMilli;
    var next := segments[key := rec];
    forall k | InSession(next, k, s) ensures exists i :: 0 <= i < |c| && c[i].key == k {
      assert InSession(segments[key := rec], k, s);
      assert InSession(segments, k, s);
    }
  }

  /** The event times of the chain never step back. */
  ghost predicate TimesAdvance(c: seq<Event>) {
    forall i, j :: 0 <= i < j < |c| ==> UnixMilli(c[i].time) <= UnixMilli(c[j].time)
  }

  function KeySeq(c: seq<Event>): (keys: seq<string>)
    ensures |keys| == |c| && forall i :: 0 <= i < |c| ==> keys[i] == c[i].key
  {
    seq(|c|, i requires 0 <= i < |c| => c[i].key)
  }

  function RereadAll(c: seq<Event>): (r: seq<Event>)
    requires forall e :: e in c ==> e.key != ""
    ensures |r| == |c| && forall i :: 0 <= i < |c| ==> r[i] == Reread(c[i])
  {
    seq(|c|, i requires 0 <= i < |c| => Reread(c[i]))
  }

  lemma {:induction false} ReloadedChain(segments: map<string, Stored>, keys: seq<string>, s: string)
    requires forall k :: k in keys ==> k in segments
    ensures var mine := Filter(keys, (k: string) => InSession(segments, k, s));
            (forall k :: k in mine ==> k in segments) && Chain(Reloaded(segments, keys), s) == Reloaded(segments, mine)
  {
    var p := (k: string) => InSession(segments, k, s);
    if keys != [] {
      var init, last := keys[..|keys| - 1], keys[|keys| - 1];
      assert forall k :: k in init ==> k in keys;
      ReloadedChain(segments, init, s);
      assert last in keys;
      var e := EventOf(segments[last].body);
      ReloadedAppend(segments, init, last);
      assert init + [last] == keys;
      ChainAppend(Reloaded(segments, init), e, s);
      ReloadedAppend(segments, Filter(init, p), last);
    }
  }

  lemma FiledKeys(segments: map<string, Stored>, s: string, c: seq<Event>)
    requires Filed(segments, s, c)
    ensures SortedBy(KeySeq(c), IndexOrder(segments)) <==> TimesAdvance(c)
    ensures forall k :: k in KeySeq(c) <==> InSession(segments, k, s)
  {
    forall i, j | 0 <= i < j < |c|
      ensures IndexOrder(segments)(c[i].key, c[j].key) <==> UnixMilli(c[i].time) <= UnixMilli(c[j].time)
    {
    }
    forall k ensures k in KeySeq(c) <==> InSession(segments, k, s) {
      if k in KeySeq(c) {
        var i :| 0 <= i < |c| && c[i].key == k;
        SameSession(c[i]);
      }
    }
    if SortedBy(KeySeq(c), IndexOrder(segments)) {
      forall i, j | 0 <= i < j < |c| ensures UnixMilli(c[i].time) <= UnixMilli(c[j].time) {
        assert IndexOrder(segments)(KeySeq(c)[i], KeySeq(c)[j]);
      }
    }
  }

  lemma SameSession(e: Event)
    requires e.key != ""
    ensures SessionOf(Reread(e)) == SessionOf(e) && Reread(e).kind == e.kind && Reread(e).key == e.key
  {
  }

  /** A restart reads a chain back in its commit order exactly when its event times never
      stepped back: the index is ordered by window before slot. */
  lemma RestartOrder(segments: map<string, Stored>, s: string, c: seq<Event>)
    requires Filed(segments, s, c)
    ensures Chain(Reloaded(segments, EventKeys(segments)), s) == RereadAll(c) <==> TimesAdvance(c)
  {
    var keys := EventKeys(segments);
    var p := (k: string) => InSession(segments, k, s);
    var mine := Filter(keys, p);
    ReloadedChain(segments, keys, s);
    FilterSorted(keys, p, IndexOrder(segments));
    FiledKeys(segments, s, c);
    hide Chain, InSession, IndexOrder, EventOf, Filter;
    if TimesAdvance(c) {
      IndexOrderTotal(segments);
      SortedUnique(KeySeq(c), mine, IndexOrder(segments));
      ChainReloads(segments, s, c);
    }
    if Reloaded(segments, mine) == RereadAll(c) {
      ChainReread(segments, s, c, mine);
    }
  }

  lemma ChainReloads(segments: map<string, Stored>, s: string, c: seq<Event>)
    requires Filed(segments, s, c)
    ensures Reloaded(segments, KeySeq(c)) == RereadAll(c)
  {
    hide InSession, EventOf;
  }

  lemma ChainReread(segments: map<string, Stored>, s: string, c: seq<Event>, mine: seq<string>)
    requires Filed(segments, s, c) && (forall k :: k in mine ==> InSession(segments, k, s))
    requires Reloaded(segments, mine) == RereadAll(c)
    ensures mine == KeySeq(c)
  {
    forall i | 0 <= i < |c| ensures mine[i] == c[i].key {
      assert mine[i] in mine;
      var j :| 0 <= j < |c| && c[j].key == mine[i];
      assert Reloaded(segments, mine)[i] == Reread(c[i]);
      SameSession(c[i]);
      SameSession(c[j]);
    }
  }

  lemma {:induction false} RereadOutput(c: seq<Event>)
    requires forall e :: e in c ==> e.key != ""
    ensures LastOutput(RereadAll(c)) == LastOutput(c)
  {
    if c != [] {
      var init := c[..|c| - 1];
      RereadOutput(init);
      assert RereadAll(c)[..|c| - 1] == RereadAll(init);
      assert RereadAll(c)[|c| - 1].kind == c[|c| - 1].kind;
    }
  }

  /** Restart refinement: for a filed chain whose times never stepped back, the window a
      restart rebuilds is the live window the process held, each fact as it reads back. */
  lemma RestartWindow(segments: map<string, Stored>, s: string, c: seq<Event>)
    requires Filed(segments, s, c) && TimesAdvance(c)
    ensures (forall e :: e in Window(c) ==> e.key != "")
    ensures Window(Chain(Reloaded(segments, EventKeys(segments)), s)) == RereadAll(Window(c))
    ensures |Window(Chain(Reloaded(segments, EventKeys(segments)), s))| == |Window(c)|
  {
    hide Chain, Reloaded, LastOutput, Window, IndexOrder, EventOf, BodyOf;
    RestartOrder(segments, s, c);
    RereadWindow(c);
  }

  lemma RereadWindow(c: seq<Event>)
    requires forall e :: e in c ==> e.key != ""
    ensures forall e :: e in Window(c) ==> e.key != ""
    ensures Window(RereadAll(c)) == RereadAll(Window(c))
  {
    hide LastOutput, Reread;
    RereadOutput(c);
    var w, n := Window(c), CutOf(c);
    assert CutOf(RereadAll(c)) == n;
    forall e | e in w ensures e.key != "" {
      assert e in c;
    }
    assert RereadAll(c)[n..] == RereadAll(w);
  }

  /** A reread fact maps onto the entry it mapped onto before. */
  lemma RereadMapped(e: Event)
    requires e.key != ""
    ensures ReplayAddress(Reread(e)) == ReplayAddress(e) && MappedSequence.MappedEntry(Reread(e)) == MappedSequence.MappedEntry(e)
  {
  }

  lemma SessionParts(h: seq<Event>, live: seq<Event>, counts: map<string, nat>, s: string)
    requires Windowed(h, live) && Counted(live, counts) && s != ""
    ensures Chain(live, s) == Window(Chain(h, s)) && Count(counts, s) == |Chain(live, s)|
  {
    hide Chain, Window;
  }

  lemma RestartEntries(h: seq<Event>, replays: map<Address, MappedSequence.Replay>, segments: map<string, Stored>, addr: Address, back: seq<Event>)
    requires Tracks(replays, h) && ProductsSilent(h) && ProductsSilent(back)
    requires addr.session != "" && Address("", addr.session) !in replays
    requires Filed(segments, addr.session, Chain(h, addr.session))
    requires Chain(back, addr.session) == RereadAll(Chain(h, addr.session))
    ensures EntriesAt(Seeded(back), addr) == EntriesAt(replays, addr)
  {
    hide Chain, EntriesOf, Seeded, Reread;
    var c := Chain(h, addr.session);
    SeedTracks(back, addr);
    EntriesOfChain(back, addr);
    EntriesOfChain(h, addr);
    forall i | 0 <= i < |c| ensures ReplayAddress(RereadAll(c)[i]) == ReplayAddress(c[i])
                                 && MappedSequence.MappedEntry(RereadAll(c)[i]) == MappedSequence.MappedEntry(c[i])
    {
      RereadMapped(c[i]);
    }
    EntriesAgree(RereadAll(c), c, addr);
  }

  // --- the filing of a run ---

  /** Every fact of the session names its owner at the address, and the address is whole. */
  ghost predicate OwnedBy(h: seq<Event>, addr: Address) {
    addr.IsComplete() && forall e :: e in h && SessionOf(e) == addr.session ==> e.owner.agent == addr.agent
  }

  /** Every record is the record of a committed fact, filed under the partition of its
      owner, and every sequence was registered by one. */
  ghost predicate Mirrors(partitionOf: string -> int, h: seq<Event>, segments: map<string, Stored>, replays: map<Address, MappedSequence.Replay>) {
    && (forall k :: k in segments ==> segments[k].partition == partitionOf(segments[k].body.owner.agent))
    && (forall k :: k in segments ==> exists e :: e in h && e.key == k && k != "" && segments[k].body == BodyOf(e))
    && (forall a :: a in replays ==> exists e :: e in h && ReplayAddress(e) == a)
  }

  /** The tier holds the session of an owned address as the chain committed it. */
  ghost predicate Archived(h: seq<Event>, segments: map<string, Stored>, addr: Address) {
    OwnedBy(h, addr) ==> Filed(segments, addr.session, Chain(h, addr.session))
  }

  /** A first commit keeps the tier the mirror of the history. */
  lemma MirrorsCommit(tiered: bool, partitionOf: string -> int, h: seq<Event>, segments: map<string, Stored>, landed: map<int, nat>,
                      replays: map<Address, MappedSequence.Replay>, e: Event, next: map<string, Stored>)
    requires Mirrors(partitionOf, h, segments, replays) && e.key != ""
    requires next == if Records(tiered, segments, e) then segments[e.key := NextRecord(landed, e, partitionOf(e.owner.agent))] else segments
    ensures Mirrors(partitionOf, h + [e], next, Mapped(replays, e))
  {
    hide SessionOf, AgentOf, UnixMilli, Slot;
    var all := h + [e];
    assert e in all && forall x :: x in h ==> x in all;
    forall k | k in next ensures exists x :: x in all && x.key == k && k != "" && next[k].body == BodyOf(x) {
      if k == e.key && Records(tiered, segments, e) {
        assert e in all && e.key == k && next[k].body == BodyOf(e);
      } else {
        var x :| x in h && x.key == k && k != "" && segments[k].body == BodyOf(x);
        assert x in all;
      }
    }
    MappedAddresses(replays, h, e);
  }

  lemma MappedAddresses(replays: map<Address, MappedSequence.Replay>, h: seq<Event>, e: Event)
    requires forall a :: a in replays ==> exists x :: x in h && ReplayAddress(x) == a
    ensures forall a :: a in Mapped(replays, e) ==> exists x :: x in h + [e] && ReplayAddress(x) == a
  {
    hide ReplayAddress, MappedSequence.MappedEntry, MappedSequence.Record;
    assert e in h + [e];
    forall a | a in Mapped(replays, e) ensures exists x :: x in h + [e] && ReplayAddress(x) == a {
      if a in replays {
        var x :| x in h && ReplayAddress(x) == a;
        assert x in h + [e];
      } else {
        assert a == ReplayAddress(e);
      }
    }
  }

  /** A first commit, of whatever session, keeps every owned session filed. */
  lemma ArchivedCommit(partitionOf: string -> int, h: seq<Event>, segments: map<string, Stored>, landed: map<int, nat>,
                       replays: map<Address, MappedSequence.Replay>, e: Event, next: map<string, Stored>, addr: Address)
    requires Mirrors(partitionOf, h, segments, replays) && Archived(h, segments, addr) && SlotsSound(segments, landed)
    requires e.key != "" && forall x :: x in h ==> x.key != e.key
    requires next == if Records(true, segments, e) then segments[e.key := NextRecord(landed, e, partitionOf(e.owner.agent))] else segments
    ensures Archived(h + [e], next, addr)
  {
    if OwnedBy(h + [e], addr) {
      OwnedBefore(h, e, addr);
      hide SlotsSound, Mirrors, Filed, SessionOf, Chain, BodyOf, UnixMilli, OwnedBy, Slot;
      NotRecorded(partitionOf, h, segments, replays, e);
      OwnedPartition(partitionOf, h, segments, replays, addr);
      ChainAppend(h, e, addr.session);
      FiledNext(partitionOf, h, segments, landed, e, next, addr);
    }
  }

  lemma FiledNext(partitionOf: string -> int, h: seq<Event>, segments: map<string, Stored>, landed: map<int, nat>, e: Event, next: map<string, Stored>, addr: Address)
    requires SlotsSound(segments, landed) && Filed(segments, addr.session, Chain(h, addr.session)) && e.key != "" && e.key !in segments
    requires SessionOf(e) == addr.session ==> e.owner.agent == addr.agent != ""
    requires forall i :: 0 <= i < |Chain(h, addr.session)| ==> segments[Chain(h, addr.session)[i].key].partition == partitionOf(addr.agent)
    requires next == if e.owner.agent != "" then segments[e.key := NextRecord(landed, e, partitionOf(e.owner.agent))] else segments
    requires Chain(h + [e], addr.session) == Chain(h, addr.session) + if SessionOf(e) == addr.session then [e] else []
    ensures Filed(next, addr.session, Chain(h + [e], addr.session))
  {
    hide SlotsSound, Filed, SessionOf, Chain, BodyOf, UnixMilli, Slot;
    assert Chain(h, addr.session) + [] == Chain(h, addr.session);
    if e.owner.agent != "" {
      CommitFiles(segments, landed, addr.session, Chain(h, addr.session), e, partitionOf(e.owner.agent));
    }
  }

  lemma OwnedBefore(h: seq<Event>, e: Event, addr: Address)
    requires OwnedBy(h + [e], addr)
    ensures OwnedBy(h, addr) && (SessionOf(e) == addr.session ==> e.owner.agent == addr.agent != "")
  {
    hide SessionOf;
    assert e in h + [e] && forall x :: x in h ==> x in h + [e];
  }

  lemma NotRecorded(partitionOf: string -> int, h: seq<Event>, segments: map<string, Stored>, replays: map<Address, MappedSequence.Replay>, e: Event)
    requires Mirrors(partitionOf, h, segments, replays) && forall x :: x in h ==> x.key != e.key
    ensures e.key !in segments
  {
  }

  lemma OwnedPartition(partitionOf: string -> int, h: seq<Event>, segments: map<string, Stored>, replays: map<Address, MappedSequence.Replay>, addr: Address)
    requires Mirrors(partitionOf, h, segments, replays) && OwnedBy(h, addr) && Filed(segments, addr.session, Chain(h, addr.session))
    ensures forall i :: 0 <= i < |Chain(h, addr.session)| ==> segments[Chain(h, addr.session)[i].key].partition == partitionOf(addr.agent)
  {
    hide SessionOf, UnixMilli;
    var c := Chain(h, addr.session);
    forall i | 0 <= i < |c| ensures segments[c[i].key].partition == partitionOf(addr.agent) {
      assert c[i] in c && c[i] in h;
      assert segments[c[i].key].body == BodyOf(c[i]);
    }
  }

  // --- the restart of a run ---

  lemma RecordReread(b: Body)
    requires b.key != "" && b.format == FORMAT && b.retention == RETENTION
    ensures EventOf(b).key == b.key && BodyOf(EventOf(b)) == b
  {
    BodyRoundTrip(b);
  }

  lemma MirrorsRestart(partitionOf: string -> int, h: seq<Event>, segments: map<string, Stored>, replays: map<Address, MappedSequence.Replay>)
    requires Mirrors(partitionOf, h, segments, replays)
    ensures Mirrors(partitionOf, Reloaded(segments, EventKeys(segments)), segments, Seeded(Reloaded(segments, EventKeys(segments))))
    ensures ProductsSilent(h) ==> ProductsSilent(Reloaded(segments, EventKeys(segments)))
  {
    hide *;
    RecordsReread(partitionOf, h, segments, replays);
    SeededAddresses(Reloaded(segments, EventKeys(segments)));
    MirrorsAgain(partitionOf, h, segments, replays, Reloaded(segments, EventKeys(segments)), Seeded(Reloaded(segments, EventKeys(segments))));
    if ProductsSilent(h) { SilentReread(partitionOf, h, segments, replays); }
  }

  lemma MirrorsAgain(partitionOf: string -> int, h: seq<Event>, segments: map<string, Stored>, replays: map<Address, MappedSequence.Replay>,
                     back: seq<Event>, seeded: map<Address, MappedSequence.Replay>)
    requires Mirrors(partitionOf, h, segments, replays)
    requires forall k :: k in segments ==> exists e :: e in back && e.key == k && k != "" && segments[k].body == BodyOf(e)
    requires forall a :: a in seeded ==> exists e :: e in back && ReplayAddress(e) == a
    ensures Mirrors(partitionOf, back, segments, seeded)
  {
    hide BodyOf, ReplayAddress;
  }

  lemma RecordsReread(partitionOf: string -> int, h: seq<Event>, segments: map<string, Stored>, replays: map<Address, MappedSequence.Replay>)
    requires Mirrors(partitionOf, h, segments, replays)
    ensures forall k :: k in segments ==>
              exists e :: e in Reloaded(segments, EventKeys(segments)) && e.key == k && k != "" && segments[k].body == BodyOf(e)
  {
    var keys := EventKeys(segments);
    var back := Reloaded(segments, keys);
    hide SortedBy;
    forall k | k in segments ensures exists e :: e in back && e.key == k && k != "" && segments[k].body == BodyOf(e) {
      var i :| 0 <= i < |keys| && keys[i] == k;
      var x :| x in h && x.key == k && k != "" && segments[k].body == BodyOf(x);
      RecordReread(segments[k].body);
      assert back[i] in back;
    }
  }

  lemma SilentReread(partitionOf: string -> int, h: seq<Event>, segments: map<string, Stored>, replays: map<Address, MappedSequence.Replay>)
    requires Mirrors(partitionOf, h, segments, replays) && ProductsSilent(h)
    ensures ProductsSilent(Reloaded(segments, EventKeys(segments)))
  {
    var keys := EventKeys(segments);
    var back := Reloaded(segments, keys);
    forall e | e in back && e.kind.CompressProduct? ensures MappedSequence.MappedEntry(e).None? {
      var i :| 0 <= i < |back| && back[i] == e;
      assert keys[i] in keys;
      var x :| x in h && x.key == keys[i] && keys[i] != "" && segments[keys[i]].body == BodyOf(x);
      assert e == Reread(x);
      RereadMapped(x);
    }
  }

  lemma {:induction false} SeededAddresses(h: seq<Event>)
    ensures forall a :: a in Seeded(h) ==> exists e :: e in h && ReplayAddress(e) == a
  {
    hide ReplayAddress, MappedSequence.MappedEntry, MappedSequence.Append;
    if h != [] {
      var init, last := h[..|h| - 1], h[|h| - 1];
      SeededAddresses(init);
      forall a | a in Seeded(h) ensures exists e :: e in h && ReplayAddress(e) == a {
        if a in Seeded(init) {
          var e :| e in init && ReplayAddress(e) == a;
          assert e in h;
        } else {
          assert a == ReplayAddress(last) && last in h;
        }
      }
    }
  }

  /** A session read back in its commit order is filed as the restarted run holds it. */
  lemma ArchivedRestart(h: seq<Event>, segments: map<string, Stored>, addr: Address)
    requires OwnedBy(h, addr) && Filed(segments, addr.session, Chain(h, addr.session)) && TimesAdvance(Chain(h, addr.session))
    ensures OwnedBy(Reloaded(segments, EventKeys(segments)), addr)
    ensures Filed(segments, addr.session, Chain(Reloaded(segments, EventKeys(segments)), addr.session))
    ensures TimesAdvance(Chain(Reloaded(segments, EventKeys(segments)), addr.session))
  {
    var s, c := addr.session, Chain(h, addr.session);
    RestartOrder(segments, s, c);
    RereadFiled(segments, s, c);
    OwnersReread(h, addr, Reloaded(segments, EventKeys(segments)));
    hide OwnedBy, Filed, TimesAdvance, RereadAll, Chain;
  }

  lemma OwnersReread(h: seq<Event>, addr: Address, back: seq<Event>)
    requires OwnedBy(h, addr) && (forall e :: e in Chain(h, addr.session) ==> e.key != "")
    requires Chain(back, addr.session) == RereadAll(Chain(h, addr.session))
    ensures OwnedBy(back, addr)
  {
    var c := Chain(h, addr.session);
    var d := RereadAll(c);
    hide SessionOf;
    forall e | e in back && SessionOf(e) == addr.session ensures e.owner.agent == addr.agent {
      assert e in Chain(back, addr.session);
      var i :| 0 <= i < |d| && d[i] == e;
      assert c[i] in c && c[i] in h;
    }
  }

  lemma RereadFiled(segments: map<string, Stored>, s: string, c: seq<Event>)
    requires Filed(segments, s, c) && TimesAdvance(c)
    ensures Filed(segments, s, RereadAll(c)) && TimesAdvance(RereadAll(c))
  {
    hide SessionOf, InSession;
    var d := RereadAll(c);
    forall i | 0 <= i < |c|
      ensures d[i].key == c[i].key && d[i].key != "" && BodyOf(d[i]) == BodyOf(c[i]) && UnixMilli(d[i].time) == UnixMilli(c[i].time) && SessionOf(d[i]) == SessionOf(c[i])
    {
      RecordReread(BodyOf(c[i]));
      SameSession(c[i]);
    }
    forall k | InSession(segments, k, s) ensures exists i :: 0 <= i < |d| && d[i].key == k {
      var i :| 0 <= i < |c| && c[i].key == k;
      assert d[i].key == k;
    }
  }

  /** An owned session is registered under its agent, never beside none. */
  lemma OwnedRegistered(partitionOf: string -> int, h: seq<Event>, segments: map<string, Stored>, replays: map<Address, MappedSequence.Replay>, addr: Address)
    requires Mirrors(partitionOf, h, segments, replays) && OwnedBy(h, addr)
    ensures Address("", addr.session) !in replays
  {
    forall e | e in h ensures ReplayAddress(e) != Address("", addr.session) {}
  }

  ghost predicate RunMirrors(run: Run)
    reads run
  {
    Mirrors(run.partitionOf, run.history, run.segments, run.replays)
  }

  ghost predicate RunArchives(run: Run, addr: Address)
    reads run
  {
    Archived(run.history, run.segments, addr)
  }

  /** The commit of a fact whose identity is live or was never committed keeps the tier the
      mirror of the history, and every owned session filed. */
  method CommitOnce(run: Run, e: Event) returns (r: CommitResult)
    requires run.Valid() && run.tiered && RunMirrors(run) && e.key != ""
    requires e.key in KeysOf(run.history) ==> e.key in run.facts
    modifies run, run.factOrder, run.factOrder.data
    ensures run.Valid() && RunMirrors(run) && run.factOrder == old(run.factOrder)
    ensures run.factOrder.data == old(run.factOrder.data) || fresh(run.factOrder.data)
    ensures forall addr :: old(RunArchives(run, addr)) ==> RunArchives(run, addr)
    ensures run.history == (if r.Committed? then old(run.history) + [e] else old(run.history))
  {
    ghost var h, segments, landed, replays := run.history, run.segments, run.landedSeq, run.replays;
    FirstCommit(run, e);
    hide *;
    r := run.CommitKeyed(e);
    CommitMirrored(run, h, segments, landed, replays, e, r);
  }

  lemma FirstCommit(run: Run, e: Event)
    requires run.Valid() && (e.key in KeysOf(run.history) ==> e.key in run.facts)
    ensures SlotsSound(run.segments, run.landedSeq)
    ensures e.key !in run.facts ==> forall x :: x in run.history ==> x.key != e.key
  {
  }

  lemma CommitMirrored(run: Run, h: seq<Event>, segments: map<string, Stored>, landed: map<int, nat>,
                       replays: map<Address, MappedSequence.Replay>, e: Event, r: CommitResult)
    requires run.tiered && Mirrors(run.partitionOf, h, segments, replays) && SlotsSound(segments, landed) && e.key != ""
    requires r.Committed? ==> (forall x :: x in h ==> x.key != e.key) && run.history == h + [e] && run.replays == Mapped(replays, e)
                              && (Records(true, segments, e) ==> run.segments == segments[e.key := NextRecord(landed, e, run.partitionOf(e.owner.agent))])
                              && (!Records(true, segments, e) ==> run.segments == segments)
    requires !r.Committed? ==> run.history == h && run.replays == replays && run.segments == segments
    ensures RunMirrors(run) && forall addr :: Archived(h, segments, addr) ==> RunArchives(run, addr)
  {
    hide Mirrors, Archived, SlotsSound, Records, NextRecord;
    if r.Committed? {
      MirrorsCommit(true, run.partitionOf, h, segments, landed, replays, e, run.segments);
      forall addr | Archived(h, segments, addr) ensures Archived(run.history, run.segments, addr) {
        ArchivedCommit(run.partitionOf, h, segments, landed, replays, e, run.segments, addr);
      }
    }
  }

  /** The live facts of the session are the ones before, each as it reads back. */
  ghost predicate Reappears(was: seq<Event>, now: seq<Event>, s: string) {
    (forall e :: e in Chain(was, s) ==> e.key != "") && Chain(now, s) == RereadAll(Chain(was, s))
  }

  /** The whole history of the session comes back in its commit order. */
  ghost predicate InOrder(h: seq<Event>, back: seq<Event>, s: string) {
    (forall e :: e in Chain(h, s) ==> e.key != "") && Chain(back, s) == RereadAll(Chain(h, s))
  }

  /** Restart refinement of an owned session: whatever a restart rebuilds from the tier is a
      mirror again; the history of the session comes back in its commit order exactly when
      its times never stepped back, and then the live window, the live count and, beside no
      folding product, the mapped sequence are the ones the process held. */
  lemma RestartRefines(partitionOf: string -> int, h: seq<Event>, segments: map<string, Stored>, replays: map<Address, MappedSequence.Replay>, addr: Address,
                        live: seq<Event>, counts: map<string, nat>, back: seq<Event>, live2: seq<Event>, counts2: map<string, nat>)
    requires Mirrors(partitionOf, h, segments, replays) && OwnedBy(h, addr) && Archived(h, segments, addr)
    requires Windowed(h, live) && Counted(live, counts) && Tracks(replays, h)
    requires back == Reloaded(segments, EventKeys(segments)) && Windowed(back, live2) && Counted(live2, counts2)
    ensures Mirrors(partitionOf, back, segments, Seeded(back))
    ensures InOrder(h, back, addr.session) <==> TimesAdvance(Chain(h, addr.session))
    ensures TimesAdvance(Chain(h, addr.session)) ==>
              OwnedBy(back, addr) && Archived(back, segments, addr) && TimesAdvance(Chain(back, addr.session))
              && Reappears(live, live2, addr.session) && Count(counts2, addr.session) == Count(counts, addr.session)
    ensures TimesAdvance(Chain(h, addr.session)) && ProductsSilent(h) ==> EntriesAt(Seeded(back), addr) == EntriesAt(replays, addr)
  {
    var s := addr.session;
    MirrorsRestart(partitionOf, h, segments, replays);
    RestartOrder(segments, s, Chain(h, s));
    OwnedRegistered(partitionOf, h, segments, replays, addr);
    SessionParts(h, live, counts, s);
    SessionParts(back, live2, counts2, s);
    hide Mirrors, Filed, Windowed, Counted, Tracks, TimesAdvance, OwnedBy, Chain, Window, Seeded, ProductsSilent, EntriesAt, Reread;
    if TimesAdvance(Chain(h, s)) {
      ArchivedRestart(h, segments, addr);
      RestartWindow(segments, s, Chain(h, s));
      if ProductsSilent(h) { RestartEntries(h, replays, segments, addr, back); }
    }
  }

  lemma RunParts(run: Run)
    requires run.Valid()
    ensures Windowed(run.history, run.LiveFacts()) && Counted(run.LiveFacts(), run.sessionFactCount)
    ensures Tracks(run.replays, run.history) && SlotsSound(run.segments, run.landedSeq)
    ensures forall k :: k in run.segments ==> run.segments[k].body.key == k && k != ""
    ensures RunMirrors(run) <==> Mirrors(run.partitionOf, run.history, run.segments, run.replays)
    ensures forall addr :: RunArchives(run, addr) <==> Archived(run.history, run.segments, addr)
  {
  }

  /** The restart of a run over the tier it filed: an owned session comes back in its commit
      order exactly when its times never stepped back, and then its live window, its live
      count, its mapped sequence and every slot are the ones the process held, and the tier
      stays filed for the next restart. */
  method RestartOnce(run: Run, ghost addr: Address)
    requires run.Valid() && run.tiered && RunMirrors(run) && RunArchives(run, addr)
    modifies run
    ensures run.Valid() && RunMirrors(run) && fresh(run.factOrder) && fresh(run.factOrder.data)
    ensures run.segments == old(run.segments) && forall p :: Slot(run.landedSeq, p) == Slot(old(run.landedSeq), p)
    ensures OwnedBy(old(run.history), addr) ==>
              (InOrder(old(run.history), run.history, addr.session) <==> TimesAdvance(Chain(old(run.history), addr.session)))
    ensures InOrder(old(run.history), run.history, addr.session) && OwnedBy(old(run.history), addr) ==>
              OwnedBy(run.history, addr) && RunArchives(run, addr) && TimesAdvance(Chain(run.history, addr.session))
              && Reappears(old(run.LiveFacts()), run.LiveFacts(), addr.session)
              && Count(run.sessionFactCount, addr.session) == Count(old(run.sessionFactCount), addr.session)
              && (ProductsSilent(old(run.history)) ==> EntriesAt(run.replays, addr) == EntriesAt(old(run.replays), addr))
  {
    ghost var h, segments, replays, live, counts := run.history, run.segments, run.replays, run.LiveFacts(), run.sessionFactCount;
    hide *;
    RunParts(run);
    run.Restart();
    RunParts(run);
    MirrorsRestart(run.partitionOf, h, segments, replays);
    if OwnedBy(h, addr) {
      RestartRefines(run.partitionOf, h, segments, replays, addr, live, counts, run.history, run.LiveFacts(), run.sessionFactCount);
    }
  }

  /** A run from its constructor: it commits the given facts once each, whatever of them the
      tier refuses, and restarts. No step asks for more than the last one gave. */
  method Lifetime(partitionOf: string -> int, events: seq<Event>, ghost addr: Address) returns (run: Run, ghost h: seq<Event>, ghost live: seq<Event>)
    requires DistinctKeys(events) && forall e :: e in events ==> e.key != ""
    ensures run.Valid() && forall e :: e in h ==> e in events
    ensures OwnedBy(h, addr) ==> (InOrder(h, run.history, addr.session) <==> TimesAdvance(Chain(h, addr.session)))
    ensures OwnedBy(h, addr) && TimesAdvance(Chain(h, addr.session)) ==> Reappears(live, run.LiveFacts(), addr.session)
  {
    hide *;
    run := new Run(true, partitionOf);
    FirstFiled(run);
    FileAll(run, events);
    h, live := run.history, run.LiveFacts();
    RestartOnce(run, addr);
  }

  method FileAll(run: Run, events: seq<Event>)
    requires run.Valid() && run.tiered && run.history == [] && RunMirrors(run) && forall a :: RunArchives(run, a)
    requires DistinctKeys(events) && forall e :: e in events ==> e.key != ""
    modifies run, run.factOrder, run.factOrder.data
    ensures run.Valid() && RunMirrors(run) && (forall a :: RunArchives(run, a))
    ensures forall e :: e in run.history ==> e in events
  {
    hide *;
    for i := 0 to |events|
      invariant run.factOrder == old(run.factOrder) && (run.factOrder.data == old(run.factOrder.data) || fresh(run.factOrder.data))
      invariant run.Valid() && RunMirrors(run) && forall a :: RunArchives(run, a)
      invariant forall e :: e in run.history ==> e in events[..i]
    {
      NotYet(run.history, events, i);
      var _ := CommitOnce(run, events[i]);
      assert events[..i + 1] == events[..i] + [events[i]];
    }
    assert events[..|events|] == events;
  }

  lemma FirstFiled(run: Run)
    requires run.history == [] && run.segments == map[] && run.replays == map[]
    ensures RunMirrors(run) && forall a :: RunArchives(run, a)
  {
  }

  lemma NotYet(h: seq<Event>, events: seq<Event>, i: nat)
    requires DistinctKeys(events) && i < |events| && forall e :: e in h ==> e in events[..i]
    ensures events[i] in events && events[i].key !in KeysOf(h)
  {
    forall e | e in h ensures e.key != events[i].key {
      var j :| 0 <= j < i && events[..i][j] == e;
      assert events[j] == e;
    }
  }
}
