// The fact chain of one run: the commit of a fact under its identity, the durable
// record behind it, the trim of its session and the mapped sequence it enters, and
// the rebuild of all of them on a restart.
module FactChain {
  import opened Core
  import opened EventBody
  import opened FactWindow
  import opened FactLedger
  import opened SegmentIndex
  import opened Sorting
  import KeyBuffer
  import opened FactReplays
  import opened FactBoundary

  datatype CommitResult = Committed(key: string) | Existing(key: string) | Conflict | Failed

  /** Every live fact that has an owner is the fact its durable record names. */
  ghost predicate Durable(tiered: bool, facts: map<string, Event>, segments: map<string, Stored>) {
    && (forall k :: k in segments ==> segments[k].body.key == k && k != "")
    && (tiered ==> forall k :: k in facts && k != "" && facts[k].key == k && facts[k].owner.agent != "" ==>
        k in segments && SameFact(segments[k].body, BodyOf(facts[k])))
  }

  /** The tier takes a record of the fact: it keeps one, the fact names its owner, and its
      identity has none yet. */
  predicate Records(tiered: bool, segments: map<string, Stored>, e: Event) {
    tiered && e.owner.agent != "" && e.key !in segments
  }

  /** The record a fact is filed under behind the last slot of its partition. */
  function NextRecord(landed: map<int, nat>, e: Event, p: int): Stored
    requires e.key != ""
  {
    Stored(BodyOf(e), p, UnixMilli(e.time), Slot(landed, p) + 1)
  }

  class Run {
    const tiered: bool
    const partitionOf: string -> int
    var facts: map<string, Event>
    var factOrder: KeyBuffer.KeyBuffer
    var sessionFactCount: map<string, nat>
    var replays: map<Address, MappedSequence.Replay>
    var landedSeq: map<int, nat>
    // the storage tier
    var segments: map<string, Stored>
    ghost var history: seq<Event>
    /** how much of the history the last restart read back */
    ghost var past: nat

    ghost predicate Valid()
      reads this, factOrder, factOrder.data
    {
      Kept() && Tracks(replays, history) && past <= |history| && Follows(replays, Restored(), Since())
    }

    /** What the last restart seeded. */
    ghost function Restored(): map<Address, MappedSequence.Replay>
      requires past <= |history|
      reads this
    {
      Seeded(history[..past])
    }

    /** The commits since the last restart. */
    ghost function Since(): seq<Event>
      requires past <= |history|
      reads this
    {
      history[past..]
    }

    /** The ledger beside the mapped sequences. */
    ghost predicate Kept()
      reads this, factOrder, factOrder.data
    {
      && factOrder.Valid()
      && Aligned(facts, factOrder.Contents())
      && Windowed(history, Live(facts, factOrder.Contents()))
      && Counted(Live(facts, factOrder.Contents()), sessionFactCount)
      && Durable(tiered, facts, segments)
      && SlotsSound(segments, landedSeq)
    }

    ghost function LiveFacts(): seq<Event>
      requires Valid()
      reads this, factOrder, factOrder.data
    {
      Live(facts, factOrder.Contents())
    }

    constructor (tiered: bool, partitionOf: string -> int)
      ensures Valid() && history == [] && past == 0 && segments == map[] && replays == map[]
      ensures this.tiered == tiered && this.partitionOf == partitionOf
      ensures fresh(factOrder) && fresh(factOrder.data)
    {
      this.tiered, this.partitionOf := tiered, partitionOf;
      facts, sessionFactCount, replays, landedSeq, segments, history, past := map[], map[], map[], map[], map[], [], 0;
      factOrder := new KeyBuffer.KeyBuffer();
    }

    // --- the commit ---

    /** commitFactChecked: an event without an identity is minted one. */
    method CommitFactChecked(evt: Event, minted: string) returns (r: CommitResult)
      requires Valid() && minted != "" && minted !in facts && minted !in segments
      modifies this, factOrder, factOrder.data
      ensures Valid() && factOrder == old(factOrder) && (factOrder.data == old(factOrder.data) || fresh(factOrder.data))
      ensures r.Committed? ==> history == old(history) + [if evt.key == "" then evt.(key := minted) else evt]
      ensures evt.key == "" ==> r == Committed(minted) || r == Failed
      ensures !r.Committed? ==>
                facts == old(facts) && factOrder.Contents() == old(factOrder.Contents()) && sessionFactCount == old(sessionFactCount)
                && replays == old(replays) && landedSeq == old(landedSeq) && segments == old(segments) && history == old(history)
      ensures past == old(past)
      ensures r.Committed? && FreshCommits(history) ==>
                BoundaryMoves(old(replays), replays, if evt.key == "" then evt.(key := minted) else evt)
      ensures var e := if evt.key == "" then evt.(key := minted) else evt;
              segments == if r.Committed? && Records(tiered, old(segments), e)
                          then old(segments)[e.key := NextRecord(old(landedSeq), e, partitionOf(e.owner.agent))] else old(segments)
    {
      hide Valid, Durable, SlotsSound, SameFact, Mapped, BoundaryMoves, FreshCommits;
      r := CommitKeyed(if evt.key == "" then evt.(key := minted) else evt);
    }

    /** One identity, one fact: the commit of the fact an identity already names changes
        nothing, the commit of another is refused, and a new one lands whole. */
    method CommitKeyed(e: Event) returns (r: CommitResult)
      requires Valid() && e.key != ""
      modifies this, factOrder, factOrder.data
      ensures Valid() && factOrder == old(factOrder) && (factOrder.data == old(factOrder.data) || fresh(factOrder.data))
      ensures r.Existing? <==> e.key in old(facts) && SameFact(BodyOf(old(facts)[e.key]), BodyOf(e))
      ensures r.Conflict? ==>
                if e.key in old(facts) then !SameFact(BodyOf(old(facts)[e.key]), BodyOf(e))
                else tiered && e.owner.agent != "" && e.key in old(segments) && !SameFact(old(segments)[e.key].body, BodyOf(e))
      ensures e.key in old(facts) && !r.Existing? ==> r.Conflict?
      ensures r.Failed? ==> tiered && e.owner.agent != ""
      ensures r.Committed? ==>
                r.key == e.key && history == old(history) + [e] && replays == Mapped(old(replays), e)
                && e.key in facts && facts[e.key] == e
      ensures r.Committed? && tiered && e.owner.agent != "" ==>
                e.key in segments && SameFact(segments[e.key].body, BodyOf(e))
      ensures r.Committed? && Records(tiered, old(segments), e) ==>
                segments == old(segments)[e.key := NextRecord(old(landedSeq), e, partitionOf(e.owner.agent))]
                && landedSeq == old(landedSeq)[partitionOf(e.owner.agent) := Slot(old(landedSeq), partitionOf(e.owner.agent)) + 1]
      ensures !(r.Committed? && Records(tiered, old(segments), e)) ==> segments == old(segments) && landedSeq == old(landedSeq)
      ensures past == old(past) && (r.Committed? && FreshCommits(history) ==> BoundaryMoves(old(replays), replays, e))
      ensures !r.Committed? ==>
                facts == old(facts) && factOrder.Contents() == old(factOrder.Contents()) && sessionFactCount == old(sessionFactCount)
                && replays == old(replays) && landedSeq == old(landedSeq) && segments == old(segments) && history == old(history)
    {
      hide Windowed, Counted, SlotsSound, SameFact, Live, Mapped, Tracks, Follows, Seeded, BoundaryMoves, FreshCommits;
      if e.key in facts {
        assert e.key == facts[e.key].key;
        if SameFact(BodyOf(facts[e.key]), BodyOf(e)) { return Existing(e.key); }
        return Conflict;
      }
      r := PersistFact(e);
      if !r.Committed? { return; }
      AppendFact(e);
      CommitTracks(replays, old(history), e);
      HistoryFollows(replays, old(history), past, e);
      replays := Mapped(replays, e);
    }

    /** persistFact: the durable record of one fact, under the next slot of its partition. A
        record the tier already holds answers the very fact and refuses any other. */
    method PersistFact(e: Event) returns (r: CommitResult)
      requires Valid() && e.key != ""
      modifies this`segments, this`landedSeq
      ensures Valid()
      ensures r == Committed(e.key) || r.Conflict? || r.Failed?
      ensures r.Failed? ==> tiered && e.owner.agent != ""
      ensures r.Committed? && Records(tiered, old(segments), e) ==>
                segments == old(segments)[e.key := NextRecord(old(landedSeq), e, partitionOf(e.owner.agent))]
                && landedSeq == old(landedSeq)[partitionOf(e.owner.agent) := Slot(old(landedSeq), partitionOf(e.owner.agent)) + 1]
      ensures !(r.Committed? && Records(tiered, old(segments), e)) ==> segments == old(segments) && landedSeq == old(landedSeq)
      ensures r.Committed? && tiered && e.owner.agent != "" ==> e.key in segments && SameFact(segments[e.key].body, BodyOf(e))
      ensures r.Conflict? ==> tiered && e.owner.agent != "" && e.key in segments && !SameFact(segments[e.key].body, BodyOf(e))
    {
      hide Windowed, Counted, Aligned, Tracks, Live, SameFact, Follows, Seeded, Durable, SlotsSound;
      if !tiered || e.owner.agent == "" { return Committed(e.key); }
      // the tier could not be read
      if * { return Failed; }
      if e.key in segments {
        return if SameFact(segments[e.key].body, BodyOf(e)) then Committed(e.key) else Conflict;
      }
      var window := UnixMilli(e.time);
      if window < 0 { return Failed; }
      // the segment barrier refused the record and published nothing
      if * { return Failed; }
      FileRecord(e);
      r := Committed(e.key);
    }

    /** The record of a fact lands under the slot behind the last one of its partition. */
    method FileRecord(e: Event)
      requires e.key != "" && e.key !in segments && Durable(tiered, facts, segments) && SlotsSound(segments, landedSeq)
      modifies this`segments, this`landedSeq
      ensures Durable(tiered, facts, segments) && SlotsSound(segments, landedSeq) && SameFact(BodyOf(e), BodyOf(e))
      ensures segments == old(segments)[e.key := NextRecord(old(landedSeq), e, partitionOf(e.owner.agent))]
      ensures landedSeq == old(landedSeq)[partitionOf(e.owner.agent) := Slot(old(landedSeq), partitionOf(e.owner.agent)) + 1]
    {
      hide SameFact, SlotsSound;
      var partition := partitionOf(e.owner.agent);
      var slot := Slot(landedSeq, partition) + 1;
      SlotTaken(segments, landedSeq, e.key, NextRecord(landedSeq, e, partition));
      SameFactReflexive(BodyOf(e));
      segments := segments[e.key := NextRecord(landedSeq, e, partition)];
      landedSeq := landedSeq[partition := slot];
    }

    /** The insert of a committed fact and the trim of its session. */
    method AppendFact(e: Event)
      requires Valid() && e.key != "" && e.key !in facts
      requires tiered && e.owner.agent != "" ==> e.key in segments && SameFact(segments[e.key].body, BodyOf(e))
      modifies this`facts, this`sessionFactCount, this`history, factOrder, factOrder.data
      ensures Kept() && history == old(history) + [e]
      ensures e.key in facts && facts[e.key] == e
      ensures factOrder.data == old(factOrder.data) || fresh(factOrder.data)
    {
      hide Windowed, Counted, Aligned, SlotsSound, SameFact, Live, Durable, TrimSession, Window, Chain, CutOf, Follows, Seeded;
      ghost var live := LiveFacts();
      ghost var had := facts;
      Insert(e);
      DurableGrows(tiered, had, segments, e);
      history := history + [e];
      var session := SessionOf(e);
      if session == "" {
        CommitWindowed(old(history), live, e);
        CountAppended(live, sessionFactCount, e);
      } else {
        AppendEffect(old(history), live, sessionFactCount, e, session,
                     sessionFactCount[session := Count(sessionFactCount, session) + 1], TrimSession(live + [e], session));
        sessionFactCount := sessionFactCount[session := Count(sessionFactCount, session) + 1];
        if sessionFactCount[session] >= FACT_WINDOW {
          ghost var full := facts;
          TrimFactsLocked(session);
          DurableShrinks(tiered, full, segments, facts);
          LiveHolds(facts, factOrder.Contents(), e);
        }
      }
    }

    /** A fact under a new identity enters the map and the order. */
    method Insert(e: Event)
      requires factOrder.Valid() && Aligned(facts, factOrder.Contents()) && e.key != "" && e.key !in facts
      modifies this`facts, factOrder, factOrder.data
      ensures factOrder.Valid() && Aligned(facts, factOrder.Contents()) && facts == old(facts)[e.key := e]
      ensures Live(facts, factOrder.Contents()) == old(Live(facts, factOrder.Contents())) + [e]
      ensures DistinctKeys(Live(facts, factOrder.Contents()))
      ensures factOrder.data == old(factOrder.data) || fresh(factOrder.data)
    {
      Appended(facts, factOrder.Contents(), e);
      facts := facts[e.key := e];
      factOrder.Append(e.key);
      AlignedDistinct(facts, factOrder.Contents());
    }

    /** Where the ended material of one registered sequence stands, over every commit since
        the last restart. */
    lemma SequenceBoundary(slot: Address)
      requires Valid() && slot in replays && FreshCommits(history)
      ensures Ended(replays[slot], EntriesAt(Restored(), slot), FactsFor(Restored().Keys, Since(), slot))
    {
      hide Kept, Tracks, Ended, Follows, FreshCommits, Seeded;
      assert history[..past] + history[past..] == history;
      RegistrationEnded(replays, history[..past], history[past..], slot);
    }

    // --- the trim ---

    /** windowCutLocked: the cut is at most the last turn-end fact, found from the back. */
    method WindowCutLocked(keys: seq<string>) returns (cut: nat)
      requires forall k :: k in keys ==> k in facts
      ensures cut == CutOf(Live(facts, keys))
    {
      cut := if |keys| > FACT_WINDOW then |keys| - FACT_WINDOW else 0;
      var at := |keys|;
      while at > 0
        invariant 0 <= at <= |keys|
        invariant forall i :: at <= i < |keys| ==> !Live(facts, keys)[i].kind.AgentOutput?
      {
        at := at - 1;
        if facts[keys[at]].kind.AgentOutput? {
          LastOf(Live(facts, keys), at);
          return if at < cut then at else cut;
        }
      }
      LastOf(Live(facts, keys), -1);
      cut := 0;
    }

    /** The identities of one session in commit order. */
    method SessionKeys(session: string) returns (keys: seq<string>)
      requires factOrder.Valid() && Aligned(facts, factOrder.Contents())
      ensures forall k :: k in keys ==> k in facts
      ensures Live(facts, keys) == Chain(Live(facts, factOrder.Contents()), session)
    {
      keys := [];
      ghost var order := factOrder.Contents();
      ghost var all := Live(facts, order);
      hide Aligned, Live, Chain;
      for i := 0 to factOrder.length
        invariant (forall k :: k in order ==> k in facts) && all == Live(facts, order) && |all| == |order|
        invariant forall k :: k in keys ==> k in facts
        invariant Live(facts, keys) == Chain(all[..i], session)
      {
        var key := factOrder.data[i];
        SessionKeyStep(facts, order, i, keys, session);
        if SessionOf(facts[key]) == session {
          keys := keys + [key];
        }
      }
      assert all[..|order|] == all;
    }

    /** The named facts leave the live map. */
    method DeleteFacts(keys: seq<string>) returns (dropped: set<string>)
      modifies this`facts
      ensures dropped == set k | k in keys
      ensures facts == old(facts) - dropped
    {
      dropped := {};
      for i := 0 to |keys|
        invariant dropped == set k | k in keys[..i]
        invariant facts == old(facts) - dropped
      {
        assert keys[..i + 1] == keys[..i] + [keys[i]];
        facts := facts - {keys[i]};
        dropped := dropped + {keys[i]};
      }
      assert keys[..|keys|] == keys;
    }

    method TrimFactsLocked(session: string)
      requires factOrder.Valid() && Aligned(facts, factOrder.Contents())
      requires Count(sessionFactCount, session) == |Chain(Live(facts, factOrder.Contents()), session)|
      modifies this`facts, this`sessionFactCount, factOrder`length, factOrder.data
      ensures factOrder.Valid() && Aligned(facts, factOrder.Contents()) && factOrder.data == old(factOrder.data)
      ensures Live(facts, factOrder.Contents()) == TrimSession(old(Live(facts, factOrder.Contents())), session)
      ensures forall k :: k in facts ==> k in old(facts) && facts[k] == old(facts)[k]
      ensures sessionFactCount == old(sessionFactCount)[session := |Window(Chain(old(Live(facts, factOrder.Contents())), session))|]
    {
      hide Aligned, Live, Chain, CutOf, Window, TrimSession, Filter, KeysOf;
      var keys := SessionKeys(session);
      var cut := WindowCutLocked(keys);
      ghost var was, order := facts, factOrder.Contents();
      var dropped := DeleteFacts(keys[..cut]);
      TrimResult(was, order, keys, cut, dropped, session);
      sessionFactCount := sessionFactCount[session := Count(sessionFactCount, session) - cut];
      factOrder.Compact(dropped);
    }

    // --- the restart ---

    /** seedLandedSeq: the last slot every partition committed. */
    method SeedLandedSeq() returns (landed: map<int, nat>)
      requires SlotsSound(segments, landedSeq)
      ensures forall p :: Slot(landed, p) == Slot(landedSeq, p)
    {
      hide SortedBy, IndexOrder, SlotsSound, Fills;
      var keys := EventKeys(segments);
      SlotBounds(segments, landedSeq);
      landed := map[];
      for i := 0 to |keys|
        invariant forall p :: Slot(landed, p) <= Slot(landedSeq, p)
        invariant forall j :: 0 <= j < i ==> segments[keys[j]].slot <= Slot(landed, segments[keys[j]].partition)
      {
        assert keys[i] in keys;
        var stored := segments[keys[i]];
        if stored.slot > Slot(landed, stored.partition) {
          landed := landed[stored.partition := stored.slot];
        }
      }
      forall k | k in segments ensures segments[k].slot <= Slot(landed, segments[k].partition) {
        var i :| 0 <= i < |keys| && keys[i] == k;
      }
      LastSlots(segments, landedSeq, landed);
    }

    /** The restart of a run over the tier it left: the slots, the ledger and the sequences
        are read back from the records alone. */
    method Restart()
      requires SlotsSound(segments, landedSeq) && forall k :: k in segments ==> segments[k].body.key == k && k != ""
      modifies this
      ensures Valid() && fresh(factOrder) && fresh(factOrder.data)
      ensures segments == old(segments) && history == Reloaded(segments, EventKeys(segments))
      ensures past == |history| && replays == Seeded(history)
      ensures forall p :: Slot(landedSeq, p) == Slot(old(landedSeq), p)
    {
      hide *;
      var landed := SeedLandedSeq();
      SlotsSame(segments, landedSeq, landed);
      landedSeq := landed;
      SeedReplay();
      past := |history|;
      Assembled();
    }

    /** seedReplay: every record of the tier enters a fresh ledger in index order, its entry
        enters the sequence of its address, and every chain is held to its window. */
    method SeedReplay()
      requires forall k :: k in segments ==> segments[k].body.key == k && k != ""
      modifies this`facts, this`factOrder, this`replays, this`history, this`sessionFactCount
      ensures fresh(factOrder) && fresh(factOrder.data) && factOrder.Valid() && Aligned(facts, factOrder.Contents())
      ensures Windowed(history, Live(facts, factOrder.Contents()))
      ensures Counted(Live(facts, factOrder.Contents()), sessionFactCount)
      ensures Durable(tiered, facts, segments)
      ensures history == Reloaded(segments, EventKeys(segments)) && replays == Seeded(history) && Tracks(replays, history)
    {
      hide *;
      SeedFacts();
      ghost var seeded := facts;
      sessionFactCount := map[];
      TrimSeededFacts();
      DurableShrinks(tiered, seeded, segments, facts);
      SeededTracks(history);
    }

    /** A valid run of its parts. */
    lemma Assembled()
      requires factOrder.Valid() && Aligned(facts, factOrder.Contents()) && Windowed(history, Live(facts, factOrder.Contents()))
      requires Counted(Live(facts, factOrder.Contents()), sessionFactCount) && Durable(tiered, facts, segments)
      requires SlotsSound(segments, landedSeq) && Tracks(replays, history) && replays == Seeded(history) && past == |history|
      ensures Valid()
    {
      assert history[..past] == history && history[past..] == [];
      SeededFollows(history);
      hide Windowed, Counted, Durable, SlotsSound, Tracks, Follows, Seeded, Aligned, Live;
    }

    /** seedFact over every record, beside the sequence its entry is placed in. */
    method SeedFacts()
      requires forall k :: k in segments ==> segments[k].body.key == k && k != ""
      modifies this`facts, this`factOrder, this`replays, this`history
      ensures fresh(factOrder) && fresh(factOrder.data) && factOrder.Valid() && Aligned(facts, factOrder.Contents())
      ensures history == Reloaded(segments, EventKeys(segments)) && Live(facts, factOrder.Contents()) == history
      ensures replays == Seeded(history)
      ensures Durable(tiered, facts, segments)
    {
      var keys := EventKeys(segments);
      EventKeysDistinct(segments);
      hide *;
      facts, replays := map[], map[];
      factOrder := new KeyBuffer.KeyBuffer();
      SeedStart(tiered, segments, keys);
      for i := 0 to |keys|
        invariant fresh(factOrder) && fresh(factOrder.data) && factOrder.Valid()
        invariant factOrder.Contents() == keys[..i]
        invariant SeedRead(tiered, segments, keys, i, facts, replays)
      {
        assert keys[..i + 1] == keys[..i] + [keys[i]];
        SeedStep(tiered, segments, keys, i, facts, replays);
        var e := EventOf(segments[keys[i]].body);
        facts := facts[e.key := e];
        factOrder.Append(e.key);
        replays := SeedEntry(replays, e);
      }
      SeedEnd(tiered, segments, keys, facts, replays);
      assert keys[..|keys|] == keys;
      history := Reloaded(segments, keys);
    }

    /** trimSeededFacts: every chain of the seeded ledger is held to its window, and the order
        is compacted once. */
    method TrimSeededFacts()
      requires factOrder.Valid() && Aligned(facts, factOrder.Contents()) && Live(facts, factOrder.Contents()) == history
      requires sessionFactCount == map[]
      modifies this`facts, this`sessionFactCount, factOrder, factOrder.data
      ensures factOrder.Valid() && factOrder.data == old(factOrder.data) && Aligned(facts, factOrder.Contents())
      ensures Windowed(history, Live(facts, factOrder.Contents()))
      ensures Counted(Live(facts, factOrder.Contents()), sessionFactCount)
      ensures forall k :: k in facts ==> k in old(facts) && facts[k] == old(facts)[k]
    {
      hide *;
      ghost var was, order := facts, factOrder.Contents();
      var chains := SessionChains();
      ChainsEnd(was, order, chains);
      var todo, dropped := chains.Keys, {};
      AlignedKeys(was, order);
      TrimStart(history, was, order, chains);
      while todo != {}
        modifies this`facts, this`sessionFactCount
        invariant Trimming(history, was, order, chains, todo, dropped, facts, sessionFactCount)
        decreases |todo|
      {
        var s :| s in todo;
        TrimReady(history, was, order, chains, todo, dropped, facts, sessionFactCount, s);
        var cut := WindowCutLocked(chains[s]);
        TrimStep(history, was, order, chains, todo, dropped, facts, sessionFactCount, s, cut);
        var gone := DeleteFacts(chains[s][..cut]);
        dropped, todo := dropped + gone, todo - {s};
        sessionFactCount := sessionFactCount[s := |chains[s]| - cut];
      }
      TrimEnd(history, was, order, chains, dropped, facts, sessionFactCount);
      factOrder.Compact(dropped);
    }

    /** The identities of every session, in one pass over the order. */
    method SessionChains() returns (chains: map<string, seq<string>>)
      requires factOrder.Valid() && Aligned(facts, factOrder.Contents())
      ensures ChainsRead(facts, factOrder.Contents(), |factOrder.Contents()|, chains)
    {
      ghost var order := factOrder.Contents();
      assert |order| == factOrder.length <= factOrder.data.Length && order == factOrder.data[..factOrder.length];
      hide *;
      AlignedKeys(facts, order);
      ChainsStart(facts, order);
      chains := map[];
      for i := 0 to factOrder.length
        invariant ChainsRead(facts, order, i, chains)
      {
        assert factOrder.data[i] == order[i];
        ChainsStep(facts, order, i, chains);
        chains := Joined(chains, SessionOf(facts[factOrder.data[i]]), factOrder.data[i]);
      }
    }
  }

  /** Dropping the identities before the cut of one session trims that session. */
  lemma TrimResult(facts: map<string, Event>, order: seq<string>, keys: seq<string>, cut: nat, dropped: set<string>, s: string)
    requires Aligned(facts, order) && (forall k :: k in keys ==> k in facts) && Live(facts, keys) == Chain(Live(facts, order), s)
    requires cut == CutOf(Live(facts, keys)) && dropped == set k | k in keys[..cut]
    ensures Aligned(facts - dropped, Filter(order, (k: string) => k !in dropped))
    ensures Live(facts - dropped, Filter(order, (k: string) => k !in dropped)) == TrimSession(Live(facts, order), s)
    ensures |Chain(Live(facts, order), s)| - cut == |Window(Chain(Live(facts, order), s))|
    ensures cut <= |Chain(Live(facts, order), s)|
  {
    hide Chain;
    DroppedKeys(facts, keys, cut, dropped);
    Removed(facts, order, dropped);
  }

  lemma SessionKeyStep(facts: map<string, Event>, order: seq<string>, i: nat, keys: seq<string>, s: string)
    requires (forall k :: k in order ==> k in facts) && (forall k :: k in keys ==> k in facts) && i < |order|
    requires Live(facts, keys) == Chain(Live(facts, order)[..i], s)
    ensures order[i] in facts
    ensures var next := if SessionOf(facts[order[i]]) == s then keys + [order[i]] else keys;
            (forall k :: k in next ==> k in facts) && Live(facts, next) == Chain(Live(facts, order)[..i + 1], s)
  {
    var all := Live(facts, order);
    assert order[i] in order;
    assert all[..i + 1] == all[..i] + [all[i]];
    ChainAppend(all[..i], all[i], s);
    if SessionOf(facts[order[i]]) == s {
      LiveAppend(facts, keys, order[i]);
    }
  }

  /** The trim of every chain with the sessions of todo still to trim. */
  ghost predicate Trimming(h: seq<Event>, was: map<string, Event>, order: seq<string>, chains: map<string, seq<string>>,
                           todo: set<string>, dropped: set<string>, facts: map<string, Event>, counts: map<string, nat>) {
    && Aligned(was, order) && (forall k :: k in order ==> k in was) && h == Live(was, order)
    && "" !in chains && todo <= chains.Keys && facts == was - dropped
    && (forall s :: s in chains ==> forall k :: k in chains[s] ==> k in was)
    && (forall s :: s in chains ==> Live(was, chains[s]) == Chain(h, s))
    && (forall s :: s !in chains && s != "" ==> Chain(h, s) == [])
    && DroppedOf(h, was, chains.Keys - todo, dropped)
    && (forall s :: s in chains && s !in todo ==> Count(counts, s) == |Window(Chain(h, s))|)
    && (forall s :: s !in chains ==> Count(counts, s) == 0)
  }

  lemma TrimStart(h: seq<Event>, was: map<string, Event>, order: seq<string>, chains: map<string, seq<string>>)
    requires Aligned(was, order) && (forall k :: k in order ==> k in was) && h == Live(was, order) && "" !in chains
    requires forall s :: s in chains ==> forall k :: k in chains[s] ==> k in was
    requires forall s :: s in chains ==> Live(was, chains[s]) == Chain(h, s)
    requires forall s :: s !in chains && s != "" ==> Chain(h, s) == []
    ensures Trimming(h, was, order, chains, chains.Keys, {}, was, map[])
  {
    hide Aligned, Live, Chain, DroppedOf, Window;
    DroppedStart(h, was);
    assert chains.Keys - chains.Keys == {};
    assert was - {} == was;
  }

  lemma TrimReady(h: seq<Event>, was: map<string, Event>, order: seq<string>, chains: map<string, seq<string>>,
                  todo: set<string>, dropped: set<string>, facts: map<string, Event>, counts: map<string, nat>, s: string)
    requires Trimming(h, was, order, chains, todo, dropped, facts, counts) && s in todo
    ensures s in chains && (forall k :: k in chains[s] ==> k in facts) && Live(facts, chains[s]) == Chain(h, s) && |chains[s]| == |Chain(h, s)|
  {
    hide Aligned, Live, Chain, DroppedOf, Window;
    StillHeld(h, was, order, chains.Keys - todo, dropped, s, chains[s]);
  }

  lemma TrimStep(h: seq<Event>, was: map<string, Event>, order: seq<string>, chains: map<string, seq<string>>,
                 todo: set<string>, dropped: set<string>, facts: map<string, Event>, counts: map<string, nat>, s: string, cut: nat)
    requires Trimming(h, was, order, chains, todo, dropped, facts, counts) && s in todo && s in chains
    requires cut == CutOf(Chain(h, s)) && |chains[s]| == |Chain(h, s)|
    ensures cut <= |chains[s]|
    ensures var gone := set k | k in chains[s][..cut];
            Trimming(h, was, order, chains, todo - {s}, dropped + gone, facts - gone, counts[s := |chains[s]| - cut])
  {
    hide Aligned, Live, Chain, DroppedOf, CutOf;
    var gone := set k | k in chains[s][..cut];
    DropSession(h, was, order, chains.Keys - todo, dropped, s, chains[s], cut);
    assert chains.Keys - (todo - {s}) == (chains.Keys - todo) + {s};
    assert was - dropped - gone == was - (dropped + gone);
    assert |Window(Chain(h, s))| == |chains[s]| - cut;
  }

  lemma TrimEnd(h: seq<Event>, was: map<string, Event>, order: seq<string>, chains: map<string, seq<string>>,
                dropped: set<string>, facts: map<string, Event>, counts: map<string, nat>)
    requires Trimming(h, was, order, chains, {}, dropped, facts, counts)
    ensures var kept := Filter(order, (k: string) => k !in dropped);
            && Aligned(facts, kept) && (forall k :: k in kept ==> k in facts)
            && Windowed(h, Live(facts, kept)) && Counted(Live(facts, kept), counts)
    ensures forall k :: k in facts ==> k in was && facts[k] == was[k]
  {
    hide Aligned, Live, Chain, DroppedOf, CutOf, Windowed, Counted, Filter;
    assert chains.Keys - {} == chains.Keys;
    var kept := Filter(order, (k: string) => k !in dropped);
    Removed(was, order, dropped);
    AlignedKeys(facts, kept);
    TrimmedAll(h, was, order, chains.Keys, dropped);
    CountedAll(h, Live(facts, kept), counts, chains.Keys);
  }

  /** One identity joins the chain of its session. */
  function Joined(chains: map<string, seq<string>>, s: string, key: string): map<string, seq<string>> {
    if s == "" then chains else chains[s := (if s in chains then chains[s] else []) + [key]]
  }

  /** The chains read off the first i identities of the order. */
  ghost predicate ChainsRead(facts: map<string, Event>, order: seq<string>, i: nat, chains: map<string, seq<string>>) {
    && i <= |order| && (forall k :: k in order ==> k in facts) && "" !in chains
    && (forall s :: s in chains ==> forall k :: k in chains[s] ==> k in facts)
    && (forall s :: s in chains ==> Live(facts, chains[s]) == Chain(Live(facts, order)[..i], s))
    && (forall s :: s !in chains && s != "" ==> Chain(Live(facts, order)[..i], s) == [])
  }

  lemma ChainsStart(facts: map<string, Event>, order: seq<string>)
    requires forall k :: k in order ==> k in facts
    ensures ChainsRead(facts, order, 0, map[])
  {
    assert Live(facts, order)[..0] == [];
  }

  lemma ChainsEnd(facts: map<string, Event>, order: seq<string>, chains: map<string, seq<string>>)
    requires ChainsRead(facts, order, |order|, chains)
    ensures "" !in chains
    ensures forall s :: s in chains ==> forall k :: k in chains[s] ==> k in facts
    ensures forall s :: s in chains ==> Live(facts, chains[s]) == Chain(Live(facts, order), s)
    ensures forall s :: s !in chains && s != "" ==> Chain(Live(facts, order), s) == []
  {
    hide Chain;
    assert Live(facts, order)[..|order|] == Live(facts, order);
  }

  lemma ChainsStep(facts: map<string, Event>, order: seq<string>, i: nat, chains: map<string, seq<string>>)
    requires ChainsRead(facts, order, i, chains) && i < |order|
    ensures order[i] in facts
    ensures var s := SessionOf(facts[order[i]]);
            ChainsRead(facts, order, i + 1, Joined(chains, s, order[i]))
  {
    hide Chain, SessionOf, Live;
    assert order[i] in order;
    var e := facts[order[i]];
    var s := SessionOf(e);
    forall t ensures Chain(Live(facts, order)[..i + 1], t) == Chain(Live(facts, order)[..i], t) + if s == t then [e] else [] {
      ChainNext(facts, order, i, t);
    }
    LiveAppend(facts, if s in chains then chains[s] else [], order[i]);
  }

  lemma ChainNext(facts: map<string, Event>, order: seq<string>, i: nat, s: string)
    requires (forall k :: k in order ==> k in facts) && i < |order|
    ensures order[i] in facts
    ensures Chain(Live(facts, order)[..i + 1], s) == Chain(Live(facts, order)[..i], s) + if SessionOf(facts[order[i]]) == s then [facts[order[i]]] else []
  {
    var all := Live(facts, order);
    assert order[i] in order;
    assert all[..i + 1] == all[..i] + [all[i]];
    ChainAppend(all[..i], all[i], s);
  }

  lemma AlignedKeys(facts: map<string, Event>, keys: seq<string>)
    requires Aligned(facts, keys)
    ensures forall k :: k in keys ==> k in facts
  {
  }

  /** The ledger and the sequences behind the first i records. */
  ghost predicate SeedRead(tiered: bool, segments: map<string, Stored>, keys: seq<string>, i: nat, facts: map<string, Event>, replays: map<Address, MappedSequence.Replay>) {
    && i <= |keys| && Distinct(keys) && (forall k :: k in keys ==> k in segments && segments[k].body.key == k && k != "")
    && Aligned(facts, keys[..i]) && (forall k :: k in keys[..i] ==> k in facts)
    && Live(facts, keys[..i]) == Reloaded(segments, keys[..i])
    && replays == Seeded(Reloaded(segments, keys[..i]))
    && Durable(tiered, facts, segments)
  }

  lemma SeedStart(tiered: bool, segments: map<string, Stored>, keys: seq<string>)
    requires Distinct(keys) && (forall k :: k in keys ==> k in segments && segments[k].body.key == k && k != "")
    requires forall k :: k in segments ==> segments[k].body.key == k && k != ""
    ensures SeedRead(tiered, segments, keys, 0, map[], map[])
  {
    assert keys[..0] == [];
  }

  lemma SeedStep(tiered: bool, segments: map<string, Stored>, keys: seq<string>, i: nat, facts: map<string, Event>, replays: map<Address, MappedSequence.Replay>)
    requires SeedRead(tiered, segments, keys, i, facts, replays) && i < |keys|
    ensures keys[i] in segments
    ensures var e := EventOf(segments[keys[i]].body);
            e.key == keys[i] && SeedRead(tiered, segments, keys, i + 1, facts[e.key := e], SeedEntry(replays, e))
  {
    hide SeedEntry, SameFact, Durable, Live, Aligned, Distinct, Seeded, Reloaded, EventOf, BodyOf;
    var k := keys[i];
    assert k in keys;
    NewInPrefix(keys, i);
    var e := EventOf(segments[k].body);
    RecordDurable(segments, k);
    AlignedNames(facts, keys[..i], k);
    Appended(facts, keys[..i], e);
    ReloadedAppend(segments, keys[..i], k);
    SeededNext(Reloaded(segments, keys[..i]), e);
    assert keys[..i] + [k] == keys[..i + 1];
    DurableGrows(tiered, facts, segments, e);
  }

  lemma SeededNext(h: seq<Event>, e: Event)
    ensures Seeded(h + [e]) == SeedEntry(Seeded(h), e)
  {
    hide SeedEntry;
    assert (h + [e])[..|h|] == h;
  }

  lemma NewInPrefix(keys: seq<string>, i: nat)
    requires Distinct(keys) && i < |keys|
    ensures keys[i] !in keys[..i]
  {
  }

  lemma AlignedNames(facts: map<string, Event>, keys: seq<string>, k: string)
    requires Aligned(facts, keys) && k !in keys
    ensures k !in facts
  {
  }

  lemma SeedEnd(tiered: bool, segments: map<string, Stored>, keys: seq<string>, facts: map<string, Event>, replays: map<Address, MappedSequence.Replay>)
    requires SeedRead(tiered, segments, keys, |keys|, facts, replays)
    ensures Aligned(facts, keys) && (forall k :: k in keys ==> k in facts) && (forall k :: k in keys ==> k in segments)
    ensures Live(facts, keys) == Reloaded(segments, keys) && replays == Seeded(Reloaded(segments, keys))
    ensures Durable(tiered, facts, segments)
  {
    hide Aligned, Live, Reloaded, Durable, Seeded;
    assert keys[..|keys|] == keys;
  }

  /** A record is the durable record of the event it restores. */
  lemma RecordDurable(segments: map<string, Stored>, k: string)
    requires k in segments && segments[k].body.key == k && k != ""
    ensures var e := EventOf(segments[k].body); e.key == k && SameFact(segments[k].body, BodyOf(e))
  {
    var b := segments[k].body;
    BodyRoundTrip(b);
    CanonicalReads(b, BodyOf(EventOf(b)));
  }

  lemma LiveHolds(facts: map<string, Event>, keys: seq<string>, e: Event)
    requires Aligned(facts, keys) && e in Live(facts, keys)
    ensures e.key in facts && facts[e.key] == e
  {
    AlignedDistinct(facts, keys);
  }

  lemma DurableGrows(tiered: bool, facts: map<string, Event>, segments: map<string, Stored>, e: Event)
    requires Durable(tiered, facts, segments) && e.key != ""
    requires tiered && e.owner.agent != "" ==> e.key in segments && SameFact(segments[e.key].body, BodyOf(e))
    ensures Durable(tiered, facts[e.key := e], segments)
  {
    hide SameFact;
  }

  lemma DurableShrinks(tiered: bool, facts: map<string, Event>, segments: map<string, Stored>, fewer: map<string, Event>)
    requires Durable(tiered, facts, segments) && forall k :: k in fewer ==> k in facts && fewer[k] == facts[k]
    ensures Durable(tiered, fewer, segments)
  {
    hide SameFact;
  }

  /** What one commit to a session leaves of the windows and the counts, trimmed or not
      yet due. */
  lemma AppendEffect(history: seq<Event>, live: seq<Event>, counts: map<string, nat>, e: Event, s: string, now: map<string, nat>, next: seq<Event>)
    requires Windowed(history, live) && Counted(live, counts) && DistinctKeys(live + [e]) && s == SessionOf(e) && s != ""
    requires now == counts[s := Count(counts, s) + 1] && next == TrimSession(live + [e], s)
    ensures now[s] == |Chain(live + [e], s)| && Counted(live + [e], now)
    ensures Windowed(history + [e], next) && e in next
    ensures Counted(next, now[s := |Window(Chain(live + [e], s))|])
    ensures now[s] < FACT_WINDOW ==> Windowed(history + [e], live + [e])
  {
    hide Windowed, Window, TrimSession, Chain, DistinctKeys, SessionOf, Counted;
    CommitWindowed(history, live, e);
    CountAppended(live, counts, e);
    LandedStays(live, e);
    CountOf(live + [e], now, s);
    CountTrimmed(live + [e], now, s);
  }

  lemma CountOf(live: seq<Event>, counts: map<string, nat>, s: string)
    requires Counted(live, counts) && s != ""
    ensures Count(counts, s) == |Chain(live, s)|
  {
  }

  lemma CountTrimmed(live: seq<Event>, counts: map<string, nat>, s: string)
    requires Counted(live, counts) && DistinctKeys(live) && s != ""
    ensures Counted(TrimSession(live, s), counts[s := |Window(Chain(live, s))|])
  {
    hide Window, TrimSession, Chain, DistinctKeys;
    forall t ensures Chain(TrimSession(live, s), t) == if t == s then Window(Chain(live, s)) else Chain(live, t) {
      TrimSessionChains(live, s, t);
    }
  }

  lemma CountAppended(live: seq<Event>, counts: map<string, nat>, e: Event)
    requires Counted(live, counts)
    ensures SessionOf(e) != "" ==> Counted(live + [e], counts[SessionOf(e) := Count(counts, SessionOf(e)) + 1])
    ensures SessionOf(e) == "" ==> Counted(live + [e], counts)
  {
    forall s ensures Chain(live + [e], s) == Chain(live, s) + if SessionOf(e) == s then [e] else [] {
      ChainAppend(live, e, s);
    }
  }
}
