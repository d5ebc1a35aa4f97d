// The delivery face of the host: registration, the reviewed send, the review
// table with its approval and refusal, the hand-off of a landed turn and the
// rebuild at boot. Every durable call and every send may fail, and the process
// may stop at any of them: from there on nothing reaches the log or the channel.
module DeliveryHost {
  import opened Core
  import opened DeliveryIds
  import opened FactLog
  import opened DeliveryLedger
  import opened DeliverySteps
  import opened DeliveryReview

  datatype Decision =
    | HostClosed
    | NotFound
    | Carried
    | Failed(restored: bool)
    | Landed(restored: bool)

  class Host {
    const tiered: bool
    const hasSender: bool
    const hasRuler: bool
    var entry: string
    // the fact log of the tier
    var log: Log<string, Record>
    // the process
    var pendingDeliveries: map<string, Delivery>
    var heldSeq: nat
    var closed: bool
    var up: bool
    // the facts of the chain, and what the outside counts
    var origin: map<string, Body>
    ghost var accepted: map<string, nat>
    ghost var faults: nat
    // what was asked of the ruler and of the channel, with what they answered
    ghost var asked: seq<Exchange>

    ghost function Snap(): Ledger
      reads this
    {
      Ledger(log, pendingDeliveries, heldSeq, closed, up, tiered, entry, accepted, faults, origin)
    }

    /** A host before its first boot: an empty log and no process, under the entry its
        document declares, over the facts the chain holds. */
    constructor (tiered: bool, hasSender: bool, hasRuler: bool, entry: string, origin: map<string, Body>)
      ensures Inv(Snap()) && log == Empty() && !up && !closed && faults == 0 && pendingDeliveries == map[] && heldSeq == 0
      ensures this.tiered == tiered && this.hasSender == hasSender && this.hasRuler == hasRuler
      ensures this.entry == entry && this.origin == origin && asked == []
      ensures forall k :: Accepted(Snap(), k) == 0
    {
      this.tiered, this.hasSender, this.hasRuler := tiered, hasSender, hasRuler;
      this.entry, log, pendingDeliveries, heldSeq, closed, up := entry, Empty(), map[], 0, false, false;
      this.origin, accepted, faults, asked := origin, map[], 0, [];
    }

    // --- the fact log ---

    /** A stop: the log keeps what may stand, and nothing later is carried out. */
    method Stop()
      requires WellFormed(log)
      modifies this`log, this`up
      ensures WellFormed(log) && Fewer(old(log), log) && !up
      ensures log == Rested(log.stored) && Survives(old(log), log.stored)
    {
      var left: map<string, Record> := *;
      if !Survives(log, left) {
        ViewSurvives(log);
        left := log.view;
      }
      SurvivorStep(log, left);
      log, up := Rested(left), false;
    }

    method Put(k: string, rec: Record) returns (ok: bool)
      requires WellFormed(log)
      modifies this`log, this`up, this`faults, this`closed
      ensures WellFormed(log) && LogMove(old(Snap()), Snap())
      ensures FewerBut(old(log), log, k, rec)
      ensures ok ==> up && faults == old(faults) && log == Stage(old(log), k, rec)
      ensures !ok && old(up) ==> old(faults) < faults
    {
      PutLeaves(log, k, rec);
      hide WellFormed, FewerBut, Fewer, Stage;
      if * { closed := true; }
      if !up { return false; }
      if * {
        faults := faults + 1;
        if * { return false; }
        log := Stage(log, k, rec);
        if * { Stop(); }
        return false;
      }
      log := Stage(log, k, rec);
      ok := true;
    }

    /** The write barrier over everything staged so far. */
    method Sync() returns (ok: bool)
      requires WellFormed(log)
      modifies this`log, this`up, this`faults, this`closed
      ensures WellFormed(log) && LogMove(old(Snap()), Snap())
      ensures Fewer(old(log), log)
      ensures ok ==> up && faults == old(faults) && log == Barrier(old(log))
      ensures !ok && old(up) ==> old(faults) < faults
    {
      if * { closed := true; }
      if !up { return false; }
      if * {
        faults := faults + 1;
        if * { Stop(); return false; }
        var left: map<string, Record> := *;
        if Survives(log, left) {
          SurvivorStep(log, left);
          log := log.(stored := left);
        }
        return false;
      }
      BarrierStep(log);
      log := Barrier(log);
      ok := true;
    }

    /** The stored value under one key; a staged one is never answered as stored. */
    method Get(k: string) returns (ok: bool, held: Option<Record>)
      requires WellFormed(log)
      modifies this`log, this`up, this`faults, this`closed
      ensures WellFormed(log) && LogMove(old(Snap()), Snap())
      ensures Fewer(old(log), log)
      ensures ok ==> up && faults == old(faults) && log == old(log) && held == Lookup(log.stored, k)
      ensures !ok && old(up) ==> old(faults) < faults
    {
      if * { closed := true; }
      if !up { return false, None; }
      if * {
        faults := faults + 1;
        if * { Stop(); }
        return false, None;
      }
      return true, Lookup(log.stored, k);
    }

    /** recordDeliveryState: the record of one obligation behind its write barrier. */
    method RecordDeliveryState(k: string, delivery: Delivery, status: Status) returns (ok: bool)
      requires Inv(Snap()) && RecordSound(Snap(), k, Record(delivery, status))
      modifies this`log, this`up, this`faults, this`closed
      ensures Inv(Snap()) && Within(old(Snap()), Snap())
      ensures RecordStep(old(Snap()), k, Record(delivery, status), ok, Snap())
    {
      ghost var s := Snap();
      if !tiered { return true; }
      ok := Put(k, Record(delivery, status));
      if ok {
        ok := Sync();
      }
      InvRecorded(s, k, Record(delivery, status), ok, Snap());
    }

    /** The send over the channel: accepted, refused, or cut before it started. */
    method Send(ghost k: string, body: Body) returns (ok: bool)
      requires WellFormed(log)
      modifies this`log, this`up, this`accepted, this`closed, this`asked
      ensures asked == old(asked) + [Asked(body, ok)]
      ensures WellFormed(log) && Fewer(old(log), log)
      ensures !ok ==> LogMove(old(Snap()), Snap()) && faults == old(faults)
      ensures ok ==> up && (old(closed) ==> closed)
      ensures ok ==> Snap() == old(Snap()).(accepted := accepted, closed := closed)
      ensures ok ==> accepted == old(accepted)[k := old(Accepted(Snap(), k)) + 1]
    {
      if * { closed := true; }
      asked := asked + [Asked(body, false)];
      if !up { return false; }
      if * { Stop(); return false; }
      if * { return false; }
      accepted := accepted[k := Accepted(Snap(), k) + 1];
      asked := old(asked) + [Asked(body, true)];
      ok := true;
    }

    // --- the review table ---

    /** holdDelivery: park one body under its obligation, or under a minted identity
        beside a body no generation named. */
    method HoldDelivery(obligation: string, delivery: Delivery, status: Status) returns (ok: bool)
      requires Inv(Snap()) && SeqCovers(Snap()) && (status.Held? || status.Retry?)
      requires obligation != "" ==> IsFresh(obligation) && obligation in origin && origin[obligation] == delivery.body
      modifies this`log, this`up, this`faults, this`closed, this`pendingDeliveries, this`heldSeq, this`origin
      ensures OneDelivery(old(Snap()), obligation, Snap())
      ensures HoldAnswer(old(Snap()), obligation, delivery, status, ok, Snap())
    {
      hide Inv, SeqCovers, Within, OneDelivery, HoldAnswer, RecordStep;
      ghost var s := Snap();
      if closed {
        ClosedHold(s, obligation, delivery, status);
        return false;
      }
      var id := obligation;
      if id == "" {
        heldSeq := heldSeq + 1;
        id := MintId(heldSeq);
      }
      origin := origin[id := delivery.body];
      pendingDeliveries := pendingDeliveries[id := delivery];
      ghost var m := Snap();
      MintIsFresh(s, obligation, delivery, m);
      ok := RecordDeliveryState(id, delivery, status);
      HoldEffect(s, obligation, delivery, m, Record(delivery, status), ok, Snap());
    }

    // --- the reviewed send ---

    /** The ruling of the review on one delivery, or the failure to render one. */
    method Rule(delivery: Delivery) returns (ruling: Ruling)
      modifies this`asked
      ensures asked == old(asked) + [Ruled(delivery, ruling)]
    {
      ruling := *;
      asked := asked + [Ruled(delivery, ruling)];
    }

    /** The send behind an allowing ruling, and the receipt or the redelivery it leaves. */
    method SendAllowed(obligation: string, delivery: Delivery) returns (outcome: Outcome)
      requires Inv(Snap()) && SeqCovers(Snap())
      requires obligation != "" ==> IsFresh(obligation) && obligation in origin && origin[obligation] == delivery.body
      modifies this`log, this`up, this`faults, this`closed, this`pendingDeliveries, this`heldSeq, this`origin, this`accepted, this`asked
      ensures old(asked) <= asked && OneSend(asked[|old(asked)|..], delivery.body, outcome)
      ensures OneDelivery(old(Snap()), obligation, Snap())
      ensures DeliverAnswer(old(Snap()), obligation, delivery, outcome, Snap())
    {
      hide Inv, SeqCovers, Within, OneDelivery, NothingClosed, Spared, Spent, OneSend;
      ghost var s := Snap();
      assert WellFormed(s.log) by { InvWellFormed(s); }
      var ok := Send(obligation, delivery.body);
      ghost var m := Snap();
      if !ok {
        InvKept(s, m);
        SentNothing(s, m);
        ok := HoldDelivery(obligation, delivery, Retry);
        HoldAfter(s, m, obligation, Snap());
        OneSent(old(asked), asked, delivery.body, false, DeliveryRefused(ok));
        return DeliveryRefused(ok);
      }
      SendLanded(s, obligation, m);
      OneSent(old(asked), asked, delivery.body, true, DeliverySent(true));
      if obligation == "" { return DeliverySent(true); }
      assert RecordSound(m, obligation, Record(delivery, Sent));
      ok := RecordDeliveryState(obligation, delivery, Sent);
      ReceiptEffect(s, obligation, m, Record(delivery, Sent), ok, Snap());
      OneSent(old(asked), asked, delivery.body, true, DeliverySent(ok));
      return DeliverySent(ok);
    }

    /** One body through the ruler: an allowing or recording ruling sends it, every other
        one parks it. */
    method DeliverRuled(obligation: string, delivery: Delivery) returns (outcome: Outcome)
      requires Inv(Snap()) && SeqCovers(Snap()) && hasRuler && hasSender
      requires obligation != "" ==> IsFresh(obligation) && obligation in origin && origin[obligation] == delivery.body
      modifies this`log, this`up, this`faults, this`closed, this`pendingDeliveries, this`heldSeq, this`origin, this`accepted, this`asked
      ensures old(asked) <= asked && Reviewed(asked[|old(asked)|..], delivery, true, true, outcome)
      ensures OneDelivery(old(Snap()), obligation, Snap())
      ensures DeliverAnswer(old(Snap()), obligation, delivery, outcome, Snap())
    {
      hide Inv, SeqCovers, OneDelivery, DeliverAnswer, HoldAnswer, Reviewed, OneSend;
      ghost var s, before := Snap(), asked;
      var ruling := Rule(delivery);
      ghost var ruled := asked;
      match ruling
      case RuleFailed | RuleHold | RuleUnknown =>
        var ok := HoldDelivery(obligation, delivery, Held);
        outcome := DeliveryHeld(ok);
        HeldAnswers(s, obligation, delivery, ok, Snap());
        ReviewedHold(before, asked, delivery, ruling, ok);
      case RuleAllow | RuleRecord =>
        outcome := SendAllowed(obligation, delivery);
        ReviewedSend(before, ruled, asked, delivery, ruling, outcome);
    }

    /** deliverObligation: one body through the ruling and over the channel. A ruling that
        holds, fails or is unknown sends nothing and parks the body; the outcome behind an
        allowing ruling is the answer of the channel. */
    method DeliverObligation(obligation: string, delivery: Delivery) returns (outcome: Outcome)
      requires Inv(Snap()) && SeqCovers(Snap())
      requires obligation != "" ==> IsFresh(obligation) && obligation in origin && origin[obligation] == delivery.body
      modifies this`log, this`up, this`faults, this`closed, this`pendingDeliveries, this`heldSeq, this`origin, this`accepted, this`asked
      ensures old(asked) <= asked && Reviewed(asked[|old(asked)|..], delivery, hasSender, hasRuler, outcome)
      ensures outcome.SenderMissing? <==> !hasSender
      ensures OneDelivery(old(Snap()), obligation, Snap())
      ensures DeliverAnswer(old(Snap()), obligation, delivery, outcome, Snap())
    {
      if !hasSender { return SenderMissing; }
      hide Inv, SeqCovers, OneDelivery, DeliverAnswer, HoldAnswer;
      if hasRuler {
        outcome := DeliverRuled(obligation, delivery);
      } else {
        outcome := SendAllowed(obligation, delivery);
      }
    }

    // --- registration ---

    /** One body of a registration: a stored record answers it, and a body without one
        is staged as owed. */
    method RegisterBody(id: string, rec: Record) returns (ok: bool, added: bool)
      requires Inv(Snap()) && tiered && RecordSound(Snap(), id, rec) && rec.status.Owed?
      modifies this`log, this`up, this`faults, this`closed
      ensures Inv(Snap()) && LogMove(old(Snap()), Snap()) && OwedStaged(old(Snap()), Snap())
      ensures ok ==> up && faults == old(faults) && (added <==> id !in old(log).stored)
      ensures ok ==> log == if added then Stage(old(log), id, rec) else old(log)
      ensures !ok && old(up) ==> old(faults) < faults
    {
      ghost var s := Snap();
      var held;
      ok, held := Get(id);
      InvKept(s, Snap());
      added := held.None?;
      if ok && added {
        ghost var m := Snap();
        ok := Put(id, rec);
        StagedSound(s, m, id, rec, Snap());
      }
    }

    method RecordDeliveryOwed(addr: Address, lineage: string, bodies: seq<FreshBody>) returns (ok: bool, owed: seq<FreshBody>)
      requires Inv(Snap()) && SeqCovers(Snap()) && BodiesOf(origin, addr, bodies)
      modifies this`log, this`up, this`faults, this`closed
      ensures Inv(Snap()) && LogMove(old(Snap()), Snap()) && OwedStaged(old(Snap()), Snap())
      ensures !ok && old(up) ==> old(faults) < faults
      ensures ok ==> RegistrationAnswer(old(Snap()), addr, bodies, owed, Snap())
    {
      ghost var s := Snap();
      NoMove(s);
      if !tiered || |bodies| == 0 || addr.agent != entry { return true, []; }
      hide Inv, SeqCovers, OwedStaged, LogMove, Registered, RegistrationAnswer;
      owed := [];
      var stagedAny := false;
      RegisteredStart(s);
      for i := 0 to |bodies|
        invariant Inv(Snap()) && LogMove(s, Snap()) && OwedStaged(s, Snap())
        invariant faults == s.faults && up == s.up
        invariant Registered(s, bodies[..i], owed, stagedAny, log)
      {
        var body := bodies[i];
        ghost var m, had := Snap(), owed;
        assert bodies[..i + 1] == bodies[..i] + [body];
        if body.fact == "" {
          RegisteredSkip(s, bodies[..i], owed, stagedAny, log, body);
          continue;
        }
        var rec := Record(Delivery(Body(body.content, addr), lineage), Owed);
        var added;
        ok, added := RegisterBody(FreshId(body.fact), rec);
        OwedStagedChain(s, m, Snap());
        if !ok { return false, []; }
        RegisteredKey(s, bodies[..i], had, stagedAny, m.log, body, added, log);
        if added || log.stored[FreshId(body.fact)].status.Owed? { owed := owed + [body]; }
        RegisteredStep(s, bodies[..i], had, stagedAny, m.log, body, rec, added, log);
        stagedAny := stagedAny || added;
      }
      assert bodies[..|bodies|] == bodies;
      ghost var m := Snap();
      if stagedAny {
        InvWellFormed(m);
        ok := Sync();
        InvKept(m, Snap());
        OwedStagedChain(s, m, Snap());
        if !ok { return false, []; }
      }
      RegisteredEnd(s, addr, bodies, owed, stagedAny, m.log, Snap());
      ok := true;
    }

    // --- the delivery of a turn ---

    /** Send the given bodies of one address, each under its obligation. */
    method DeliverAll(ghost s: Ledger, addr: Address, lineage: string, bodies: seq<FreshBody>)
      requires Pending(s, Snap(), Obligations(bodies), 0) && BodiesOf(origin, addr, bodies)
      modifies this`log, this`up, this`faults, this`closed, this`pendingDeliveries, this`heldSeq, this`origin, this`accepted, this`asked
      ensures Pending(s, Snap(), Obligations(bodies), |bodies|) && OneByOne(old(Snap()), Snap())
      ensures old(asked) <= asked && Conversed(asked[|old(asked)|..], DeliveriesOf(addr, lineage, bodies), hasSender, hasRuler)
      ensures Quiet(old(Snap()), Snap()) && hasSender && tiered ==>
                forall b :: b in bodies && b.fact != "" ==> Discharged(Snap(), FreshId(b.fact))
    {
      hide Inv, SeqCovers, OneDelivery, Pending, OneByOne, DeliverAnswer, Discharged, Conversed, Reviewed, Quiet;
      ghost var start, ids, before, deliveries := Snap(), Obligations(bodies), asked, DeliveriesOf(addr, lineage, bodies);
      NothingConversed(before, deliveries, hasSender, hasRuler);
      PendingBase(s, start, ids);
      for i := 0 to |bodies|
        invariant Pending(s, Snap(), ids, i) && OneByOne(start, Snap())
        invariant before <= asked && Conversed(asked[|before|..], deliveries[..i], hasSender, hasRuler)
        invariant BodiesOf(origin, addr, bodies)
        invariant Quiet(start, Snap()) && hasSender && tiered ==>
                    forall b :: b in bodies[..i] && b.fact != "" ==> Discharged(Snap(), FreshId(b.fact))
      {
        ghost var m, had := Snap(), asked;
        PendingInv(s, m, ids, i);
        var obligation := ObligationOf(bodies[i]);
        var delivery := Delivery(Body(bodies[i].content, addr), lineage);
        var outcome := DeliverObligation(obligation, delivery);
        PendingStep(s, m, ids, i, Snap());
        ConversedOn(before, had, asked, deliveries, i, hasSender, hasRuler, outcome);
        OneByOneStep(start, m, obligation, Snap());
        if Quiet(start, Snap()) && hasSender && tiered && obligation != "" {
          DeliveredDischarges(m, obligation, delivery, outcome, Snap());
        }
        assert bodies[..i + 1] == bodies[..i] + [bodies[i]];
      }
      assert bodies[..|bodies|] == bodies && deliveries[..|bodies|] == deliveries;
    }

    /** deliverFresh: a turn that generated bodies delivers them, a failed turn without
        one delivers the notice of its cause. Behind a confirmed registration the owed
        bodies are delivered; beside no tier, away from the entry, or behind a refused
        registration every body is. */
    method DeliverFresh(addr: Address, lineage: string, notice: string, bodies: seq<FreshBody>)
      returns (ghost registered: bool, ghost owed: seq<FreshBody>)
      requires Inv(Snap()) && SeqCovers(Snap()) && BodiesOf(origin, addr, bodies) && DistinctFacts(bodies)
      modifies this`log, this`up, this`faults, this`closed, this`pendingDeliveries, this`heldSeq, this`origin, this`accepted, this`asked
      ensures CallMoves(old(Snap()), DeliverCall, Snap()) && SeqCovers(Snap())
      ensures !hasSender ==> Snap() == old(Snap())
      ensures old(asked) <= asked
      ensures Conversed(asked[|old(asked)|..],
                if bodies == [] && notice != "" then [Delivery(Body(notice, addr), lineage)] else DeliveriesOf(addr, lineage, owed),
                hasSender, hasRuler)
      ensures !registered ==> owed == bodies
      ensures !registered && hasSender && bodies != [] && tiered && addr.agent == entry && old(up) ==> old(faults) < faults
      ensures registered ==> OwedAnswer(old(Snap()), addr, bodies, owed)
      ensures Quiet(old(Snap()), Snap()) && hasSender && tiered && addr.agent == entry && old(log).staged == map[] ==>
                forall b :: b in bodies && b.fact != "" ==> Discharged(Snap(), FreshId(b.fact))
    {
      hide Inv, SeqCovers, OneDelivery, Pending, OneByOne, CallMoves, Discharged, Spared, Within, NothingClosed, LogMove, Conversed, Reviewed, OwedAnswer;
      ghost var s := Snap();
      registered, owed := false, bodies;
      NoCall(s, DeliverCall);
      NothingConversed(asked, DeliveriesOf(addr, lineage, bodies), hasSender, hasRuler);
      if !hasSender {
        SilentConversed(if bodies == [] && notice != "" then [Delivery(Body(notice, addr), lineage)] else DeliveriesOf(addr, lineage, owed), hasRuler);
        return;
      }
      if |bodies| == 0 {
        if notice != "" {
          var outcome := DeliverObligation("", Delivery(Body(notice, addr), lineage));
          LooseDelivery(s, Snap());
          OneConversed(asked[|old(asked)|..], Delivery(Body(notice, addr), lineage), hasSender, hasRuler, outcome);
        }
        return;
      }
      var due := bodies;
      if tiered && addr.agent == entry {
        var ok, filtered := RecordDeliveryOwed(addr, lineage, bodies);
        if ok {
          registered, due := true, filtered;
          OwedAnswered(s, addr, bodies, filtered, Snap());
        }
        RegistrationMoves(s, addr, bodies, ok, filtered, Snap());
      } else {
        PendingElsewhere(s, addr, bodies);
      }
      owed := due;
      ghost var m := Snap();
      PendingMoves(s, m, Obligations(owed), 0, DeliverCall);
      DeliverAll(s, addr, lineage, due);
      PendingMoves(s, Snap(), Obligations(owed), |owed|, DeliverCall);
      if registered { DeliveredAll(hasSender, s, m, addr, bodies, owed, Snap()); }
      assert (Quiet(s, Snap()) ==> Quiet(s, m)) && m.faults <= faults by { OneByOneQuiet(s, m, Snap()); }
    }

    /** handoffSettledBodies: register the bodies of a landed turn and send every one the
        account still owes; a refused registration is answered and sends nothing. */
    method HandoffSettledBodies(addr: Address, bodies: seq<FreshBody>) returns (ok: bool, ghost due: seq<FreshBody>)
      requires Inv(Snap()) && SeqCovers(Snap()) && BodiesOf(origin, addr, bodies) && DistinctFacts(bodies)
      modifies this`log, this`up, this`faults, this`closed, this`pendingDeliveries, this`heldSeq, this`origin, this`accepted, this`asked
      ensures CallMoves(old(Snap()), HandoffCall, Snap()) && SeqCovers(Snap())
      ensures ok && tiered && addr.agent == entry ==>
                forall b :: b in bodies && b.fact != "" ==> FreshId(b.fact) in log.stored
      ensures !ok ==> accepted == old(accepted) && asked == old(asked)
      ensures ok ==> old(asked) <= asked && Conversed(asked[|old(asked)|..], DeliveriesOf(addr, "task", due), hasSender, hasRuler)
      ensures ok && tiered && addr.agent == entry && bodies != [] ==> OwedAnswer(old(Snap()), addr, bodies, due)
      ensures ok && (!tiered || addr.agent != entry || bodies == []) ==> due == []
      ensures (up ==> old(up)) && old(faults) <= faults && (!ok && old(up) ==> old(faults) < faults)
      ensures Quiet(old(Snap()), Snap()) && hasSender && tiered && addr.agent == entry && old(log).staged == map[] ==>
                ok && forall b :: b in bodies && b.fact != "" ==> Discharged(Snap(), FreshId(b.fact))
    {
      hide Inv, SeqCovers, OneDelivery, Pending, OneByOne, CallMoves, Discharged, Spared, Within, NothingClosed, Conversed, OwedAnswer;
      ghost var s := Snap();
      NoCall(s, HandoffCall);
      var owed;
      ok, owed := RecordDeliveryOwed(addr, "task", bodies);
      ghost var m := Snap();
      due := owed;
      if ok && tiered && addr.agent == entry && bodies != [] { OwedAnswered(s, addr, bodies, owed, m); }
      RegistrationMoves(s, addr, bodies, ok, owed, m);
      PendingMoves(s, m, Obligations(if ok then owed else bodies), 0, HandoffCall);
      if !ok { return; }
      DeliverAll(s, addr, "task", owed);
      PendingMoves(s, Snap(), Obligations(owed), |owed|, HandoffCall);
      DeliveredAll(hasSender, s, m, addr, bodies, owed, Snap());
    }

    /** restoreHeldDelivery: the body waits again, recorded under the state it stands in. */
    method RestoreHeldDelivery(id: string, delivery: Delivery, status: Status) returns (ok: bool)
      requires Inv(Snap()) && SeqCovers(Snap()) && (status.Held? || status.Retry?)
      requires id in origin && origin[id] == delivery.body && DeliveryHeldSeq(id) <= heldSeq
      modifies this`log, this`up, this`faults, this`closed, this`pendingDeliveries
      ensures forall closing :: Deciding(old(Snap()), Snap(), id, closing)
      ensures old(closed) ==> !ok && Snap() == old(Snap())
      ensures !old(closed) ==> pendingDeliveries == old(pendingDeliveries)[id := delivery]
      ensures old(faults) <= faults && (ok && tiered ==> Closes(Snap(), id, Record(delivery, status)))
    {
      hide Inv, SeqCovers, Within, RecordStep, Deciding;
      ghost var s := Snap();
      if closed {
        forall closing ensures Deciding(s, s, id, closing) { ClosedRestore(s, id, closing); }
        return false;
      }
      pendingDeliveries := pendingDeliveries[id := delivery];
      ghost var m := Snap();
      TableSound(s, id, delivery, m);
      ok := RecordDeliveryState(id, delivery, status);
      RecordDecides(m, id, Record(delivery, status), ok, Snap());
      forall closing ensures Deciding(s, Snap(), id, closing) {
        RestoredDecides(s, m, id, status, closing, Snap());
      }
    }

    /** The way back of a decision that could not be carried out: whatever it sent so far is
        paid by the faults it met. */
    method RestoreDecided(ghost s: Ledger, ghost c: Call, id: string, held: Delivery, status: Status, ghost closing: Status) returns (ok: bool)
      requires Inv(s) && SeqCovers(s) && s.up && id in s.table && Deciding(s, Snap(), id, closing)
      requires s.table[id] == held && pendingDeliveries == s.table - {id} && (status.Held? || status.Retry?)
      requires (closing == Refused && c == RefuseCall(id)) || (closing == Sent && c == ApproveCall(id))
      requires !s.tiered || Accepted(Snap(), id) + s.faults <= Accepted(s, id) + faults
      modifies this`log, this`up, this`faults, this`closed, this`pendingDeliveries
      ensures CallMoves(s, c, Snap()) && SeqCovers(Snap())
      ensures ok ==> pendingDeliveries == s.table && (tiered ==> Closes(Snap(), id, Record(held, status)))
      ensures old(faults) <= faults
    {
      hide Inv, SeqCovers, CallMoves, Deciding;
      ghost var m := Snap();
      DecidingBack(s, m, id, held, closing);
      ok := RestoreHeldDelivery(id, held, status);
      DecidingChain(s, m, Snap(), id, closing);
      DecisionMoves(s, Snap(), c, id, closing);
    }

    /** The receipt of an approved send the channel accepted. */
    method ReceiptApproved(ghost s: Ledger, id: string, held: Delivery) returns (decision: Decision)
      requires Inv(s) && SeqCovers(s) && s.up && id in s.table && s.table[id] == held && pendingDeliveries == s.table - {id}
      requires Deciding(s, Snap(), id, Sent) && Inv(Snap()) && SeqCovers(Snap()) && RecordSound(Snap(), id, Record(held, Sent))
      requires s.tiered == tiered && up && faults == s.faults && accepted == s.accepted[id := Accepted(s, id) + 1] && DeliveryHeldSeq(id) <= heldSeq
      modifies this`log, this`up, this`faults, this`closed, this`pendingDeliveries
      ensures CallMoves(s, ApproveCall(id), Snap()) && SeqCovers(Snap())
      ensures decision.Carried? || decision.Landed?
      ensures decision.Carried? ==>
                pendingDeliveries == s.table - {id} && (tiered ==> Closes(Snap(), id, Record(held, Sent)))
      ensures decision.Landed? ==> old(faults) < faults
      ensures decision.Landed? && decision.restored ==>
                pendingDeliveries == s.table && (tiered ==> Closes(Snap(), id, Record(held, Held)))
    {
      hide Inv, SeqCovers, Within, RecordStep, CallMoves, Deciding, RecordSound;
      ghost var n := Snap();
      var ok := RecordDeliveryState(id, held, Sent);
      ghost var r := Snap();
      RecordDecides(n, id, Record(held, Sent), ok, r);
      DecidingChain(s, n, r, id, Sent);
      if ok {
        DecisionMoves(s, r, ApproveCall(id), id, Sent);
        return Carried;
      }
      ok := RestoreDecided(s, ApproveCall(id), id, held, Held, Sent);
      decision := Landed(ok);
    }

    /** The send of an approved body that was taken from the table. */
    method SendApproved(ghost s: Ledger, id: string, held: Delivery) returns (decision: Decision)
      requires Inv(s) && SeqCovers(s) && s.up && id in s.table && s.table[id] == held && hasSender
      requires Deciding(s, Snap(), id, Sent) && Inv(Snap()) && SeqCovers(Snap()) && Snap() == s.(table := s.table - {id})
      requires id in origin && origin[id] == held.body && DeliveryHeldSeq(id) <= heldSeq
      modifies this`log, this`up, this`faults, this`closed, this`pendingDeliveries, this`accepted, this`asked
      ensures CallMoves(s, ApproveCall(id), Snap()) && SeqCovers(Snap())
      ensures decision.Carried? || decision.Landed? || decision.Failed?
      ensures asked == old(asked) + [Asked(held.body, !decision.Failed?)]
      ensures accepted == if decision.Failed? then s.accepted else s.accepted[id := Accepted(s, id) + 1]
      ensures decision.Carried? ==>
                pendingDeliveries == s.table - {id} && (tiered ==> Closes(Snap(), id, Record(held, Sent)))
      ensures decision.Landed? ==> s.faults < faults
      ensures !decision.Carried? && decision.restored ==>
                pendingDeliveries == s.table
                && (tiered ==> Closes(Snap(), id, Record(held, if decision.Landed? then Held else Retry)))
    {
      hide Inv, SeqCovers, Within, RecordStep, CallMoves, Deciding, RecordSound, Untouched, Fewer, WellFormed;
      ghost var m := Snap();
      InvWellFormed(m);
      var ok := Send(id, held.body);
      ghost var n := Snap();
      if !ok {
        LogDecides(m, id, Sent, n);
        DecidingChain(s, m, n, id, Sent);
        ok := RestoreDecided(s, ApproveCall(id), id, held, Retry, Sent);
        return Failed(ok);
      }
      SendDecides(s, m, id, held, n);
      decision := ReceiptApproved(s, id, held);
    }

    method ApproveDelivery(id: string) returns (decision: Decision)
      requires Inv(Snap()) && SeqCovers(Snap()) && up
      modifies this`log, this`up, this`faults, this`closed, this`pendingDeliveries, this`accepted, this`asked
      ensures CallMoves(old(Snap()), ApproveCall(id), Snap()) && SeqCovers(Snap())
      ensures decision.HostClosed? <==> old(closed)
      ensures decision.NotFound? <==> !old(closed) && id !in old(pendingDeliveries)
      ensures decision.HostClosed? || decision.NotFound? ==> Snap() == old(Snap())
      ensures decision.HostClosed? || decision.NotFound? || !hasSender ==> asked == old(asked)
      ensures !decision.HostClosed? && !decision.NotFound? && hasSender ==>
                asked == old(asked) + [Asked(old(pendingDeliveries)[id].body, decision.Carried? || decision.Landed?)]
      ensures decision.Carried? ==>
                hasSender && pendingDeliveries == old(pendingDeliveries) - {id}
                && accepted == old(accepted)[id := Accepted(old(Snap()), id) + 1]
                && (tiered ==> Closes(Snap(), id, Record(old(pendingDeliveries)[id], Sent)))
      ensures decision.Landed? ==> accepted == old(accepted)[id := Accepted(old(Snap()), id) + 1] && old(faults) < faults
      ensures decision.Failed? ==> accepted == old(accepted)
      ensures decision.Landed? && decision.restored ==>
                pendingDeliveries == old(pendingDeliveries) && (tiered ==> Closes(Snap(), id, Record(old(pendingDeliveries)[id], Held)))
      ensures decision.Failed? && decision.restored ==>
                pendingDeliveries == old(pendingDeliveries) && (tiered ==> Closes(Snap(), id, Record(old(pendingDeliveries)[id], Retry)))
    {
      hide Inv, SeqCovers, Within, RecordStep, CallMoves, Deciding, RecordSound, Untouched, Fewer, WellFormed;
      ghost var s := Snap();
      NoCall(s, ApproveCall(id));
      if closed { return HostClosed; }
      if id !in pendingDeliveries { return NotFound; }
      var held := pendingDeliveries[id];
      pendingDeliveries := pendingDeliveries - {id};
      ghost var m := Snap();
      Taken(s, id, Sent, m);
      if hasSender {
        decision := SendApproved(s, id, held);
      } else {
        var ok := RestoreDecided(s, ApproveCall(id), id, held, Retry, Sent);
        decision := Failed(ok);
      }
    }

    /** The audit fact of a refusal, committed to the chain of the target. */
    method NoteDeliveryRefusal() returns (ok: bool)
      requires WellFormed(log)
      modifies this`log, this`up, this`closed
      ensures WellFormed(log) && LogMove(old(Snap()), Snap()) && Fewer(old(log), log) && faults == old(faults)
      ensures ok ==> up
    {
      if * { closed := true; }
      if !up { return false; }
      if * { Stop(); return false; }
      ok := *;
    }

    method RefuseDelivery(id: string) returns (decision: Decision)
      requires Inv(Snap()) && SeqCovers(Snap()) && up
      modifies this`log, this`up, this`faults, this`closed, this`pendingDeliveries
      ensures CallMoves(old(Snap()), RefuseCall(id), Snap()) && SeqCovers(Snap())
      ensures decision.HostClosed? <==> old(closed)
      ensures decision.NotFound? <==> !old(closed) && id !in old(pendingDeliveries)
      ensures decision.HostClosed? || decision.NotFound? ==> Snap() == old(Snap())
      ensures !decision.Landed?
      ensures decision.Carried? ==>
                pendingDeliveries == old(pendingDeliveries) - {id} && (tiered ==> forall r :: MayStand(log, id, r) ==> r == Some(Record(old(pendingDeliveries)[id], Refused)))
      ensures decision.Failed? && decision.restored ==>
                pendingDeliveries == old(pendingDeliveries) && (tiered ==> Closes(Snap(), id, Record(old(pendingDeliveries)[id], Held)))
    {
      hide Inv, SeqCovers, Within, RecordStep, CallMoves, Deciding, RecordSound, Untouched, Fewer, WellFormed;
      ghost var s := Snap();
      NoCall(s, RefuseCall(id));
      if closed { return HostClosed; }
      if id !in pendingDeliveries { return NotFound; }
      var held := pendingDeliveries[id];
      pendingDeliveries := pendingDeliveries - {id};
      ghost var m := Snap();
      Taken(s, id, Refused, m);
      var ok := RecordDeliveryState(id, held, Refused);
      ghost var r := Snap();
      RecordDecides(m, id, Record(held, Refused), ok, r);
      DecidingChain(s, m, r, id, Refused);
      if !ok {
        ok := RestoreDecided(s, RefuseCall(id), id, held, Held, Refused);
        return Failed(ok);
      }
      InvWellFormed(r);
      ok := NoteDeliveryRefusal();
      ghost var n := Snap();
      LogDecides(r, id, Refused, n);
      DecidingChain(s, r, n, id, Refused);
      if !ok {
        ok := RestoreDecided(s, RefuseCall(id), id, held, Held, Refused);
        return Failed(ok);
      }
      DecisionMoves(s, n, RefuseCall(id), id, Refused);
      decision := Carried;
    }

    // --- the rebuild at boot ---

    /** Every stored record, or the read failure that refuses the boot. */
    method Scan() returns (ok: bool, records: map<string, Record>)
      requires WellFormed(log)
      modifies this`up, this`faults
      ensures faults == if ok then old(faults) else old(faults) + 1
      ensures ok ==> up == old(up) && records == log.stored
      ensures !ok ==> !up
    {
      if * {
        faults, up := faults + 1, false;
        return false, map[];
      }
      return true, log.stored;
    }

    /** A stop of the process at rest. */
    method Halt()
      requires Inv(Snap()) && SeqCovers(Snap()) && up
      modifies this`log, this`up
      ensures CallMoves(old(Snap()), StopCall, Snap()) && SeqCovers(Snap()) && !up
    {
      ghost var s := Snap();
      Stop();
      InvKept(s, Snap());
      SentNothing(s, Snap());
      forall k ensures Paid(s, Snap(), k) { UntouchedPaid(s, Snap(), k); }
    }

    /** retireHeadlessDelivery: an owed body of another address is closed without a send; a
        refused record leaves it owed. */
    method RetireHeadlessDelivery(key: string, record: Record)
      requires Inv(Snap()) && RecordSound(Snap(), key, record) && key !in pendingDeliveries && Only(Snap(), key, record) && tiered
      requires Retires(record, entry) && DeliveryHeldSeq(key) <= heldSeq
      modifies this`log, this`up, this`faults, this`closed
      ensures Inv(Snap()) && old(faults) <= faults && (up ==> old(up))
      ensures forall j :: j != key ==> Untouched(old(Snap()), Snap(), j) && (j in old(log).stored ==> j in log.stored)
      ensures Visited(Snap(), key, record, entry, up && faults == old(faults))
    {
      ghost var m := Snap();
      HeadlessSound(m, key, record, entry);
      hide Inv, Visited, Only, RecordStep, Untouched, RecordSound, Within, Keeps, Retires, DeliveryHeldSeq;
      var retired := RecordDeliveryState(key, record.delivery, Headless);
      RetiredHeadless(m, key, record, retired, Snap());
    }

    /** One record of the first pass. */
    method RestoreRecord(key: string, record: Record) returns (unattended: bool)
      requires Inv(Snap()) && RecordSound(Snap(), key, record) && key !in pendingDeliveries && Only(Snap(), key, record) && tiered
      modifies this`log, this`up, this`faults, this`closed, this`pendingDeliveries, this`heldSeq
      ensures Inv(Snap()) && old(faults) <= faults && (up ==> old(up)) && old(heldSeq) <= heldSeq
      ensures forall j :: j != key ==> Untouched(old(Snap()), Snap(), j) && (j in old(log).stored ==> j in log.stored)
      ensures Visited(Snap(), key, record, entry, up && faults == old(faults))
      ensures unattended <==> Unattended(record, entry)
      ensures Parked(Some(record)) ==> Lookup(pendingDeliveries, key) == Some(record.delivery)
    {
      hide Inv, Visited, Only, RecordStep, Untouched, RecordSound, Within, Keeps, Retires, Parked, Unattended, DeliveryHeldSeq;
      ghost var s := Snap();
      var seqNo := DeliveryHeldSeq(key);
      if seqNo > heldSeq { heldSeq := seqNo; }
      ghost var m := Snap();
      CounterPasses(s, key, record, entry, m);
      match record.status {
        case Owed =>
          if record.delivery.body.target.agent != entry {
            RecordRetires(record, entry);
            RetireHeadlessDelivery(key, record);
            CounterUntouched(s, m, Snap(), key);
            return false;
          }
        case Held | Retry =>
          RecordParks(record, entry);
          pendingDeliveries := pendingDeliveries[key := record.delivery];
          ParkedWaits(m, key, record, entry, Snap());
          CounterUntouched(s, m, Snap(), key);
          return false;
        case Sent | Refused | Headless =>
      }
      RecordStands(record, entry);
      unattended := record.status.Owed?;
    }

    /** restorePendingDeliveries over a fresh process: the review table and the counter are
        rebuilt from every stored record, and each owed body of the entry is sent through
        the live ruling. The keys are read in an arbitrary order. */
    method Boot(declared: string) returns (ok: bool, ghost restored: map<string, Record>)
      requires Inv(Snap()) && !up
      modifies this
      ensures CallMoves(old(Snap()), BootCall(declared), Snap())
      ensures ok && up && tiered ==> forall k :: Covered(Snap(), k)
      ensures ok && tiered && hasSender && Quiet(old(Snap()), Snap()) ==> forall k :: k in restored ==> Discharged(Snap(), k)
      ensures Survives(old(log), restored)
      ensures !ok ==> !up
    {
      hide Inv, CallMoves, Booting, Pending, Covered, Discharged, Visited, Only, Quiet, Keeps, NothingClosed, RecordSound, Untouched, Unattended, Parked, WellFormed, Fewer, SeqCovers, Paid, Survives;
      ghost var s := Snap();
      InvWellFormed(s);
      Stop();
      restored := log.stored;
      entry, pendingDeliveries, heldSeq, closed, up := declared, map[], 0, false, true;
      ghost var b := Snap();
      StartEffect(s, b, declared);
      if !tiered { return true, restored; }
      var records;
      InvWellFormed(b);
      ok, records := Scan();
      if !ok {
        StartRefused(s, b, declared);
        return false, restored;
      }
      BootingStart(b);
      var todo, unattended := records.Keys, [];
      while todo != {}
        invariant Booting(b, Snap(), todo, unattended) && records == b.log.stored && entry == b.entry
      {
        var key :| key in todo;
        ghost var c := Snap();
        BootingKey(b, c, todo, unattended, key);
        var owed := RestoreRecord(key, records[key]);
        BootingQuiet(b, c, key, records[key], Snap());
        BootingRead(b, c, todo, unattended, key, Snap());
        if owed { unattended := unattended + [key]; }
        todo := todo - {key};
      }
      ghost var c := Snap();
      BootingEnd(b, c, unattended);
      DeliverUnattended(records, unattended);
      BootEffect(s, b, declared, c, unattended, hasSender, Snap());
    }

    /** The second pass: every unattended record is delivered under its own identity. */
    method DeliverUnattended(records: map<string, Record>, unattended: seq<string>)
      requires Pending(Snap(), Snap(), unattended, 0)
      requires forall k :: k in unattended ==> k in records && IsFresh(k) && k in origin && origin[k] == records[k].delivery.body
      modifies this`log, this`up, this`faults, this`closed, this`pendingDeliveries, this`heldSeq, this`origin, this`accepted, this`asked
      ensures Pending(old(Snap()), Snap(), unattended, |unattended|)
      ensures old(asked) <= asked && Conversed(asked[|old(asked)|..], RecordDeliveries(records, unattended), hasSender, hasRuler)
      ensures Quiet(old(Snap()), Snap()) && hasSender && tiered ==> forall k :: k in unattended ==> Discharged(Snap(), k)
    {
      hide Inv, SeqCovers, OneDelivery, Pending, OneByOne, DeliverAnswer, Discharged, Conversed, Reviewed;
      ghost var s, before, deliveries := Snap(), asked, RecordDeliveries(records, unattended);
      NothingConversed(before, deliveries, hasSender, hasRuler);
      PendingBase(s, s, unattended);
      for i := 0 to |unattended|
        invariant Pending(s, Snap(), unattended, i) && OneByOne(s, Snap())
        invariant before <= asked && Conversed(asked[|before|..], deliveries[..i], hasSender, hasRuler)
        invariant forall k :: k in unattended ==> k in records && IsFresh(k) && k in origin && origin[k] == records[k].delivery.body
        invariant Quiet(s, Snap()) && hasSender && tiered ==> forall k :: k in unattended[..i] ==> Discharged(Snap(), k)
      {
        ghost var m, had := Snap(), asked;
        PendingInv(s, m, unattended, i);
        var key := unattended[i];
        var outcome := DeliverObligation(key, records[key].delivery);
        PendingStep(s, m, unattended, i, Snap());
        ConversedOn(before, had, asked, deliveries, i, hasSender, hasRuler, outcome);
        OneByOneStep(s, m, key, Snap());
        if Quiet(s, Snap()) && hasSender && tiered {
          DeliveredDischarges(m, key, records[key].delivery, outcome, Snap());
        }
        assert unattended[..i + 1] == unattended[..i] + [key];
      }
      assert unattended[..|unattended|] == unattended && deliveries[..|unattended|] == deliveries;
    }
  }

  /** The run so far ends in the given ledger, every boot of it under one entry. */
  ghost predicate RunTo(states: seq<Ledger>, calls: seq<Call>, entry: string, l: Ledger) {
    IsRun(states, calls) && EntryFixed(states, entry) && states[|calls|] == l && Inv(l) && (l.up ==> SeqCovers(l))
  }

  /** One process of a run: a boot, the delivery of one turn, and a stop. */
  method OneLife(h: Host, entry: string, addr: Address, bodies: seq<FreshBody>, ghost states: seq<Ledger>, ghost calls: seq<Call>)
    returns (ghost more: seq<Ledger>, ghost all: seq<Call>)
    requires RunTo(states, calls, entry, h.Snap()) && !h.up
    requires BodiesOf(h.origin, addr, bodies) && DistinctFacts(bodies)
    modifies h
    ensures RunTo(more, all, entry, h.Snap()) && !h.up && BodiesOf(h.origin, addr, bodies)
    ensures states <= more && calls + [BootCall(entry)] <= all
  {
    hide Inv, SeqCovers, CallMoves, Keeps, BodiesOf, IsRun, EntryFixed;
    ghost var s := h.Snap();
    var _, _ := h.Boot(entry);
    more, all := RunExtended(states, calls, entry, s, BootCall(entry), h.Snap(), addr, bodies);
    if h.up {
      s := h.Snap();
      ghost var _, _ := h.DeliverFresh(addr, "user", "", bodies);
      more, all := RunExtended(more, all, entry, s, DeliverCall, h.Snap(), addr, bodies);
    }
    if h.up {
      s := h.Snap();
      h.Halt();
      more, all := RunExtended(more, all, entry, s, StopCall, h.Snap(), addr, bodies);
    }
  }

  /** A run of the class itself: what is proved of runs speaks of a host that is made, and
      of its processes one after the other. */
  method Lifetime(entry: string, origin: map<string, Body>, addr: Address, bodies: seq<FreshBody>, lives: nat)
    returns (h: Host, ghost states: seq<Ledger>, ghost calls: seq<Call>)
    requires BodiesOf(origin, addr, bodies) && DistinctFacts(bodies)
    ensures IsRun(states, calls) && states[|calls|] == h.Snap() && |calls| >= lives
    ensures forall k :: EntryBody(states[0], k) ==> Accepted(h.Snap(), k) <= 1 + h.faults
  {
    h := new Host(true, true, true, entry, origin);
    states, calls := [h.Snap()], [];
    hide Inv, SeqCovers, CallMoves, Keeps, BodiesOf;
    for i := 0 to lives
      invariant RunTo(states, calls, entry, h.Snap()) && !h.up && BodiesOf(h.origin, addr, bodies) && fresh(h) && |calls| >= i
    {
      ghost var s, c := states, calls;
      states, calls := OneLife(h, entry, addr, bodies, s, c);
    }
    forall k | EntryBody(states[0], k) ensures Accepted(h.Snap(), k) <= 1 + h.faults {
      AcceptedBounded(states, calls, k);
    }
  }

  lemma BodiesKept(s: Ledger, c: Call, t: Ledger, addr: Address, bodies: seq<FreshBody>)
    requires CallMoves(s, c, t) && BodiesOf(s.origin, addr, bodies)
    ensures Inv(t) && (t.up ==> SeqCovers(t)) && BodiesOf(t.origin, addr, bodies)
  {
    forall b | b in bodies && b.fact != "" ensures FreshId(b.fact) in t.origin && t.origin[FreshId(b.fact)] == Body(b.content, addr) {
      FreshIdFresh(b.fact);
    }
  }

  /** One more call of a run. */
  lemma RunExtended(states: seq<Ledger>, calls: seq<Call>, entry: string, s: Ledger, c: Call, t: Ledger, addr: Address, bodies: seq<FreshBody>)
    returns (more: seq<Ledger>, all: seq<Call>)
    requires RunTo(states, calls, entry, s) && CallMoves(s, c, t) && (c.BootCall? ==> c.entry == entry)
    requires BodiesOf(s.origin, addr, bodies)
    ensures more == states + [t] && all == calls + [c] && RunTo(more, all, entry, t)
    ensures BodiesOf(t.origin, addr, bodies)
  {
    more, all := states + [t], calls + [c];
    BodiesKept(s, c, t, addr, bodies);
    assert t.entry == entry;
    hide CallMoves, Inv, SeqCovers;
    forall i | 0 <= i < |all| ensures CallMoves(more[i], all[i], more[i + 1]) {
      if i < |calls| {
        assert CallMoves(states[i], calls[i], states[i + 1]);
        assert more[i] == states[i] && more[i + 1] == states[i + 1] && all[i] == calls[i];
      }
    }
  }
}
