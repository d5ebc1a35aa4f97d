// The steps one delivery call is made of, as relations between ledgers: what a
// hold, a reviewed send, a registration and a decision may move, and what each of
// them leaves of the credit of the body it handles.
module DeliverySteps {
  import opened Core
  import opened DeliveryIds
  import opened FactLog
  import opened DeliveryLedger

  datatype Outcome =
    | DeliverySent(receipt: bool)
    | DeliveryHeld(recorded: bool)
    | DeliveryRefused(recorded: bool)
    | SenderMissing

  datatype FreshBody = FreshBody(fact: string, content: string)

  /** The bodies name facts of one address, each under the body its fact carries. */
  ghost predicate BodiesOf(origin: map<string, Body>, addr: Address, bodies: seq<FreshBody>) {
    forall b :: b in bodies && b.fact != "" ==>
      FreshId(b.fact) in origin && origin[FreshId(b.fact)] == Body(b.content, addr)
  }


  /** What one decision over id may have done so far: nothing but id moved, and what
      stands under id stood there, waits again, or reads the closing status. */
  ghost predicate Deciding(s: Ledger, t: Ledger, id: string, closing: Status) {
    && Inv(t) && SeqCovers(t) && Within(s, t)
    && (forall j :: j != id ==> Untouched(s, t, j))
    && (forall r :: MayStand(t.log, id, r) ==> MayStand(s.log, id, r) || Parked(r) || (r.Some? && r.value.status == closing))
    && id in s.origin && id in t.origin && t.origin[id] == s.origin[id] && DeliveryHeldSeq(id) <= s.heldSeq
  }

  lemma DecidingChain(s: Ledger, m: Ledger, t: Ledger, id: string, closing: Status)
    requires Deciding(s, m, id, closing) && Deciding(m, t, id, closing)
    ensures Deciding(s, t, id, closing)
    ensures Inv(t) && SeqCovers(t)
  {
    forall j | j != id ensures Untouched(s, t, j) {
      assert Untouched(s, m, j) && Untouched(m, t, j);
    }
    forall r | MayStand(t.log, id, r)
      ensures MayStand(s.log, id, r) || Parked(r) || (r.Some? && r.value.status == closing)
    {
      assert MayStand(m.log, id, r) || Parked(r) || (r.Some? && r.value.status == closing);
    }
    forall k | k in s.log.stored
      ensures k in t.log.stored && t.log.stored[k].delivery.body == s.log.stored[k].delivery.body
    {
      assert k in m.log.stored;
    }
  }

  lemma Taken(s: Ledger, id: string, closing: Status, m: Ledger)
    requires Inv(s) && SeqCovers(s) && id in s.table && m == s.(table := s.table - {id})
    ensures Deciding(s, m, id, closing) && Inv(m) && SeqCovers(m)
    ensures id in m.origin && m.origin[id] == s.table[id].body && DeliveryHeldSeq(id) <= m.heldSeq
    ensures RecordSound(m, id, Record(s.table[id], Refused))
    ensures m.table[id := s.table[id]] == s.table
  {
    assert InUse(s, id);
    forall k, r | MayStand(m.log, k, Some(r)) ensures RecordSound(m, k, r) {
      assert RecordSound(s, k, r);
    }
    forall k | InUse(m, k) ensures DeliveryHeldSeq(k) <= m.heldSeq {
      assert InUse(s, k);
    }
  }

  lemma LogDecides(m: Ledger, id: string, closing: Status, n: Ledger)
    requires Inv(m) && SeqCovers(m) && LogMove(m, n) && WellFormed(n.log) && Fewer(m.log, n.log)
    requires id in m.origin && DeliveryHeldSeq(id) <= m.heldSeq
    ensures Deciding(m, n, id, closing) && Inv(n) && SeqCovers(n)
  {
    InvKept(m, n);
    SentNothing(m, n);
  }

  lemma SendDecides(s: Ledger, m: Ledger, id: string, held: Delivery, n: Ledger)
    requires Deciding(s, m, id, Sent)
    requires n == m.(accepted := m.accepted[id := Accepted(m, id) + 1], closed := n.closed) && (m.closed ==> n.closed)
    requires m.origin[id] == held.body
    ensures Deciding(s, n, id, Sent) && Inv(n) && SeqCovers(n) && RecordSound(n, id, Record(held, Sent))
    ensures id in n.origin && DeliveryHeldSeq(id) <= n.heldSeq
  {
    SendLanded(m, id, n);
    assert forall j :: j != id ==> Untouched(m, n, j);
    assert Deciding(m, n, id, Sent);
    DecidingChain(s, m, n, id, Sent);
  }

  lemma RecordDecides(m: Ledger, id: string, rec: Record, ok: bool, r: Ledger)
    requires Inv(m) && SeqCovers(m) && RecordStep(m, id, rec, ok, r) && Inv(r) && Within(m, r) && RecordSound(m, id, rec)
    requires DeliveryHeldSeq(id) <= m.heldSeq
    ensures Deciding(m, r, id, rec.status) && SeqCovers(r)
    ensures r.table == m.table && r.accepted == m.accepted && r.origin == m.origin && r.heldSeq == m.heldSeq
    ensures m.faults <= r.faults && (!ok && m.up ==> m.faults < r.faults)
    ensures ok && m.tiered ==> Closes(r, id, rec)
    ensures ok && m.tiered && (rec.status.Sent? || rec.status.Refused?) && id !in m.table ==> Credit(r, id) == 0
  {
    InvWellFormed(r);
    InvRecorded(m, id, rec, ok, r);
    if ok && m.tiered && (rec.status.Sent? || rec.status.Refused?) {
      RecordedCredit(m, id, rec, ok, r);
    }
  }

  /** A decision is paid: a body the channel took twice met a fault, and one it took
      once spent the credit of its table entry. */
  lemma DecisionMoves(s: Ledger, t: Ledger, c: Call, id: string, closing: Status)
    requires Inv(s) && SeqCovers(s) && s.up && id in s.table && Deciding(s, t, id, closing)
    requires c == (if closing == Refused then RefuseCall(id) else ApproveCall(id)) && (closing == Sent || closing == Refused)
    requires !s.tiered || Accepted(t, id) + s.faults <= Accepted(s, id) + t.faults || (Accepted(t, id) == Accepted(s, id) + 1 && Credit(t, id) == 0)
    ensures CallMoves(s, c, t)
  {
    forall k, status | Reads(t, k, status) && !Reads(s, k, status) && (status == Refused || status == Headless)
      ensures k == id && status == closing
    {
      var r :| MayStand(t.log, k, Some(r)) && r.status == status;
      assert k != id ==> Untouched(s, t, k);
    }
    forall k | EntryBody(s, k) && EntryBody(t, k) ensures Paid(s, t, k) {
      if k != id { UntouchedPaid(s, t, k); }
    }
  }

  lemma ClosedRestore(s: Ledger, id: string, closing: Status)
    requires Inv(s) && SeqCovers(s) && id in s.origin && DeliveryHeldSeq(id) <= s.heldSeq
    ensures Deciding(s, s, id, closing)
  {
  }

  lemma TableSound(s: Ledger, id: string, delivery: Delivery, m: Ledger)
    requires Inv(s) && SeqCovers(s) && id in s.origin && s.origin[id] == delivery.body && DeliveryHeldSeq(id) <= s.heldSeq
    requires m == s.(table := s.table[id := delivery])
    ensures Inv(m) && SeqCovers(m) && forall closing :: Deciding(s, m, id, closing)
    ensures RecordSound(m, id, Record(delivery, Held)) && RecordSound(m, id, Record(delivery, Retry))
  {
    forall k, r | MayStand(m.log, k, Some(r)) ensures RecordSound(m, k, r) {
      assert RecordSound(s, k, r);
    }
    forall k | InUse(m, k) ensures DeliveryHeldSeq(k) <= m.heldSeq {
      if k != id { assert InUse(s, k); }
    }
  }

  /** What the table needs to take a decided body back. */
  lemma DecidingBack(s: Ledger, m: Ledger, id: string, held: Delivery, closing: Status)
    requires Inv(s) && SeqCovers(s) && id in s.table && s.table[id] == held && Deciding(s, m, id, closing)
    ensures Inv(m) && SeqCovers(m) && id in m.origin && m.origin[id] == held.body && DeliveryHeldSeq(id) <= m.heldSeq
  {
  }

  lemma RestoredDecides(s: Ledger, m: Ledger, id: string, status: Status, closing: Status, t: Ledger)
    requires Deciding(s, m, id, closing) && Deciding(m, t, id, status) && (status.Held? || status.Retry?)
    ensures Deciding(s, t, id, closing) && Inv(t) && SeqCovers(t)
  {
    assert Deciding(m, t, id, closing);
    DecidingChain(s, m, t, id, closing);
  }

  lemma LooseDelivery(s: Ledger, t: Ledger)
    requires Inv(s) && OneDelivery(s, "", t)
    ensures CallMoves(s, DeliverCall, t) && SeqCovers(t)
  {
    forall k | EntryBody(s, k) && EntryBody(t, k) ensures Paid(s, t, k) {
      FreshSeq(k);
      UntouchedPaid(s, t, k);
    }
  }

  /** Bodies outside the entry, or beside no tier, are none the bound speaks of. */
  lemma PendingElsewhere(s: Ledger, addr: Address, bodies: seq<FreshBody>)
    requires Inv(s) && SeqCovers(s) && DistinctFacts(bodies) && BodiesOf(s.origin, addr, bodies)
    requires !(s.tiered && addr.agent == s.entry)
    ensures Pending(s, s, Obligations(bodies), 0)
  {
    ObligationsDistinct(bodies);
  }

  /** Behind a registration every body it reports owed, or every body beside a refused
      one, may be sent once. */
  lemma RegistrationMoves(s: Ledger, addr: Address, bodies: seq<FreshBody>, ok: bool, owed: seq<FreshBody>, t: Ledger)
    requires Inv(s) && SeqCovers(s) && Inv(t) && LogMove(s, t) && OwedStaged(s, t)
    requires DistinctFacts(bodies) && BodiesOf(s.origin, addr, bodies)
    requires if ok then RegistrationAnswer(s, addr, bodies, owed, t) else s.up ==> s.faults < t.faults
    ensures Pending(s, t, Obligations(if ok then owed else bodies), 0)
    ensures ok ==> BodiesOf(t.origin, addr, owed)
    ensures s.faults <= t.faults && (!ok ==> !Quiet(s, t))
  {
    OwedStagedEffect(s, t);
    ObligationsDistinct(if ok then owed else bodies);
    forall k | Covered(s, k) ensures Covered(t, k) {
      forall r | MayStand(t.log, k, r) && Parked(r) ensures k in t.table {
        assert MayStand(s.log, k, r);
      }
    }
  }

  lemma PendingMoves(s: Ledger, t: Ledger, ids: seq<string>, i: nat, c: Call)
    requires Pending(s, t, ids, i) && !c.BootCall?
    ensures CallMoves(s, c, t) && SeqCovers(t) && (t.up ==> s.up) && s.faults <= t.faults
  {
  }

  lemma OneByOneQuiet(s: Ledger, m: Ledger, t: Ledger)
    requires OneByOne(m, t)
    ensures Quiet(s, t) && s.faults <= m.faults ==> Quiet(s, m) && Quiet(m, t)
    ensures m.faults <= t.faults
  {
  }

  /** The bodies a registration found owed are discharged by their sends, and the ones it
      left out were discharged before. */
  lemma DeliveredAll(hasSender: bool, s: Ledger, m: Ledger, addr: Address, bodies: seq<FreshBody>, owed: seq<FreshBody>, t: Ledger)
    requires s.tiered && addr.agent == s.entry && bodies != [] ==> RegistrationAnswer(s, addr, bodies, owed, m)
    requires OneByOne(m, t) && s.faults <= m.faults
    requires hasSender && s.tiered && Quiet(m, t) ==> forall b :: b in owed && b.fact != "" ==> Discharged(t, FreshId(b.fact))
    ensures s.tiered && addr.agent == s.entry ==>
              forall b :: b in bodies && b.fact != "" ==> FreshId(b.fact) in t.log.stored
    ensures hasSender && s.tiered && addr.agent == s.entry && s.log.staged == map[] && Quiet(s, t) ==>
              forall b :: b in bodies && b.fact != "" ==> Discharged(t, FreshId(b.fact))
  {
    if hasSender && s.tiered && addr.agent == s.entry && s.log.staged == map[] && Quiet(s, t) {
      forall b | b in bodies && b.fact != "" ensures Discharged(t, FreshId(b.fact)) {
        if b !in owed {
          assert Discharged(m, FreshId(b.fact));
        }
      }
    }
  }

  lemma NoCall(s: Ledger, c: Call)
    requires Inv(s) && SeqCovers(s) && !c.BootCall?
    ensures CallMoves(s, c, s)
  {
  }

  /** What a confirmed registration reports: outside the entry or the tier nothing moves
      and nothing is owed; otherwise every keyed body has a stored record, and the bodies
      reported are sends the account still owes — all of them, beside a log with nothing
      staged before. */
  ghost predicate RegistrationAnswer(s: Ledger, addr: Address, bodies: seq<FreshBody>, owed: seq<FreshBody>, t: Ledger) {
    if !s.tiered || addr.agent != s.entry || bodies == [] then owed == [] && t == s
    else
      && (forall b :: b in bodies && b.fact != "" ==> FreshId(b.fact) in t.log.stored)
      && (DistinctFacts(bodies) ==> DistinctFacts(owed)) && InOrder(owed, bodies)
      && (s.log.staged == map[] ==> t.log.staged == map[])
      && (forall b :: b in owed ==> b in bodies && b.fact != "" && OwedCredit(s, FreshId(b.fact)) == 1)
      && (s.log.staged == map[] ==> forall b :: b in bodies && b.fact != "" ==>
          (b in owed <==> Lookup(t.log.stored, FreshId(b.fact)).Some? && t.log.stored[FreshId(b.fact)].status.Owed?))
  }

  /** Some of the bodies, in the order they stand in. */
  ghost predicate InOrder(some: seq<FreshBody>, bodies: seq<FreshBody>)
    decreases |bodies|
  {
    if bodies == [] then some == []
    else
      var n := |bodies| - 1;
      || InOrder(some, bodies[..n])
      || (some != [] && some[|some| - 1] == bodies[n] && InOrder(some[..|some| - 1], bodies[..n]))
  }

  lemma InOrderStep(some: seq<FreshBody>, bodies: seq<FreshBody>, body: FreshBody)
    requires InOrder(some, bodies)
    ensures InOrder(some, bodies + [body]) && InOrder(some + [body], bodies + [body])
  {
    assert (bodies + [body])[..|bodies|] == bodies && (some + [body])[..|some|] == some;
  }

  /** No two bodies name one fact. */
  predicate DistinctFacts(bodies: seq<FreshBody>) {
    forall i, j :: 0 <= i < j < |bodies| && bodies[i].fact != "" ==> bodies[i].fact != bodies[j].fact
  }

  /** What a registration that has passed the given bodies left behind. */
  ghost predicate Registered(s: Ledger, passed: seq<FreshBody>, owed: seq<FreshBody>, stagedAny: bool, log: Log<string, Record>) {
    && log.stored == s.log.stored
    && (!stagedAny ==> log == s.log)
    && (DistinctFacts(passed) ==> DistinctFacts(owed)) && InOrder(owed, passed)
    && (forall k :: k in log.stored ==> k in log.view)
    && (forall b :: b in owed ==> b in passed && b.fact != "" && OwedCredit(s, FreshId(b.fact)) == 1)
    && (forall b :: b in passed && b.fact != "" ==>
        FreshId(b.fact) in log.stored || (stagedAny && FreshId(b.fact) in log.view))
    && (s.log.staged == map[] ==>
        && (forall k :: k in log.view ==> if k in log.stored then log.view[k] == log.stored[k] else log.view[k].status.Owed?)
        && (forall b :: b in passed && b.fact != "" ==>
            FreshId(b.fact) in log.view && (b in owed <==> log.view[FreshId(b.fact)].status.Owed?)))
  }

  lemma RegisteredStart(s: Ledger)
    requires Inv(s)
    ensures Registered(s, [], [], false, s.log)
  {
  }

  lemma RegisteredSkip(s: Ledger, passed: seq<FreshBody>, owed: seq<FreshBody>, stagedAny: bool, log: Log<string, Record>, body: FreshBody)
    requires Registered(s, passed, owed, stagedAny, log) && body.fact == ""
    ensures Registered(s, passed + [body], owed, stagedAny, log)
  {
    PrefixDistinct(passed, body);
    InOrderStep(owed, passed, body);
  }

  lemma PrefixDistinct(passed: seq<FreshBody>, body: FreshBody)
    ensures DistinctFacts(passed + [body]) ==> DistinctFacts(passed)
    ensures DistinctFacts(passed + [body]) && body.fact != "" ==> forall b :: b in passed ==> b.fact != body.fact
  {
    var all := passed + [body];
    if DistinctFacts(all) {
      forall i, j | 0 <= i < j < |passed| && passed[i].fact != "" ensures passed[i].fact != passed[j].fact {
        assert all[i] == passed[i] && all[j] == passed[j];
      }
      forall b | b in passed && body.fact != "" ensures b.fact != body.fact {
        var i :| 0 <= i < |passed| && passed[i] == b;
        assert all[i] == b && all[|passed|] == body;
      }
    }
  }

  lemma DistinctAdded(owed: seq<FreshBody>, body: FreshBody)
    requires DistinctFacts(owed) && forall b :: b in owed ==> b.fact != body.fact
    ensures DistinctFacts(owed + [body])
  {
  }

  lemma RegisteredKey(s: Ledger, passed: seq<FreshBody>, owed: seq<FreshBody>, stagedAny: bool, log: Log<string, Record>, body: FreshBody, added: bool, next: Log<string, Record>)
    requires Registered(s, passed, owed, stagedAny, log)
    requires (added <==> FreshId(body.fact) !in log.stored) && next.stored == log.stored
    ensures !added ==> FreshId(body.fact) in next.stored
  {
  }

  lemma RegisteredStep(s: Ledger, passed: seq<FreshBody>, owed: seq<FreshBody>, stagedAny: bool, log: Log<string, Record>, body: FreshBody, rec: Record, added: bool, next: Log<string, Record>)
    requires Registered(s, passed, owed, stagedAny, log) && body.fact != "" && rec.status.Owed?
    requires added <==> FreshId(body.fact) !in log.stored
    requires next == if added then Stage(log, FreshId(body.fact), rec) else log
    ensures var now := if added || next.stored[FreshId(body.fact)].status.Owed? then owed + [body] else owed;
            Registered(s, passed + [body], now, stagedAny || added, next)
  {
    var id := FreshId(body.fact);
    hide InOrder, DistinctFacts;
    assert MayStand(s.log, id, Lookup(s.log.stored, id));
    PrefixDistinct(passed, body);
    if DistinctFacts(passed + [body]) { DistinctAdded(owed, body); }
    InOrderStep(owed, passed, body);
  }

  lemma RegisteredEnd(s: Ledger, addr: Address, bodies: seq<FreshBody>, owed: seq<FreshBody>, stagedAny: bool, log: Log<string, Record>, t: Ledger)
    requires Registered(s, bodies, owed, stagedAny, log) && Inv(s) && s.tiered && addr.agent == s.entry && bodies != []
    requires t.log == if stagedAny then Barrier(log) else log
    ensures RegistrationAnswer(s, addr, bodies, owed, t)
  {
  }

  lemma StagedSound(s: Ledger, m: Ledger, id: string, rec: Record, t: Ledger)
    requires Inv(m) && LogMove(s, m) && OwedStaged(s, m) && LogMove(m, t) && WellFormed(t.log)
    requires FewerBut(m.log, t.log, id, rec) && RecordSound(m, id, rec) && rec.status.Owed? && m.tiered
    requires id !in m.log.stored
    ensures Inv(t) && LogMove(s, t) && OwedStaged(s, t)
  {
    forall k, r | MayStand(t.log, k, Some(r)) ensures RecordSound(t, k, r) {
      assert MayStand(m.log, k, Some(r)) || (k == id && r == rec);
    }
  }

  /** What the delivery of one body, under its obligation or none, may move. */
  ghost predicate OneDelivery(s: Ledger, obligation: string, t: Ledger) {
    && Inv(t) && SeqCovers(t) && Within(s, t)
    && Spared(s, t, obligation) && NothingClosed(s, t)
    && (obligation != "" ==> Spent(s, t, obligation))
    && (forall k :: Covered(s, k) ==> Covered(t, k))
    && (forall k :: Discharged(s, k) ==> Discharged(t, k))
  }

  /** The process still runs and met no fault and no close. */
  ghost predicate Quiet(s: Ledger, t: Ledger) { t.up && !t.closed && t.faults == s.faults }

  /** Deliveries after one another: what each of them keeps. */
  ghost predicate OneByOne(s: Ledger, t: Ledger) {
    && Within(s, t) && NothingClosed(s, t)
    && (forall k :: Covered(s, k) ==> Covered(t, k))
    && (forall k :: Discharged(s, k) ==> Discharged(t, k))
  }

  /** The obligation a body is delivered under; a body beside no key names none. */
  function ObligationOf(b: FreshBody): string {
    if b.fact == "" then "" else FreshId(b.fact)
  }

  function Obligations(bodies: seq<FreshBody>): (ids: seq<string>)
    ensures |ids| == |bodies| && forall i :: 0 <= i < |ids| ==> ids[i] == ObligationOf(bodies[i])
  {
    seq(|bodies|, i requires 0 <= i < |bodies| => ObligationOf(bodies[i]))
  }

  ghost predicate DistinctIds(ids: seq<string>) {
    forall i, j :: 0 <= i < j < |ids| && ids[i] != "" ==> ids[i] != ids[j]
  }

  lemma ObligationsDistinct(bodies: seq<FreshBody>)
    requires DistinctFacts(bodies)
    ensures DistinctIds(Obligations(bodies))
  {
    var ids := Obligations(bodies);
    forall i, j | 0 <= i < j < |ids| && ids[i] != "" ensures ids[i] != ids[j] {
      if bodies[j].fact != "" {
        FreshIdFresh(bodies[i].fact);
        FreshIdFresh(bodies[j].fact);
      }
    }
  }

  /** The obligations from i on are still in hand: what was spent since s is paid for, and
      each of them keeps the one send it is owed. */
  ghost predicate Pending(s: Ledger, t: Ledger, ids: seq<string>, i: nat) {
    && Inv(t) && SeqCovers(t) && OneByOne(s, t) && DistinctIds(ids)
    && (forall k :: EntryBody(s, k) ==> Paid(s, t, k))
    && (forall j :: i <= j < |ids| && EntryBody(s, ids[j]) ==> Ready(s, t, ids[j]))
  }

  lemma PendingBase(s: Ledger, t: Ledger, ids: seq<string>)
    requires Pending(s, t, ids, 0)
    ensures OneByOne(t, t)
  {
  }

  lemma PendingInv(s: Ledger, t: Ledger, ids: seq<string>, i: nat)
    requires Pending(s, t, ids, i)
    ensures Inv(t) && SeqCovers(t)
  {
  }

  lemma OneByOneStep(s: Ledger, m: Ledger, obligation: string, t: Ledger)
    requires OneByOne(s, m) && OneDelivery(m, obligation, t)
    ensures OneByOne(s, t)
    ensures Quiet(s, t) ==> Quiet(s, m) && Quiet(m, t)
    ensures forall k :: Discharged(m, k) ==> Discharged(t, k)
    ensures forall k :: IsFresh(k) && k in m.origin ==> k in t.origin && t.origin[k] == m.origin[k]
  {
  }

  lemma FreshIdFresh(fact: string)
    ensures IsFresh(FreshId(fact)) && DeliveryHeldSeq(FreshId(fact)) == 0 && FreshId(fact) != ""
    ensures FreshId(fact)[|FRESH_PREFIX|..] == fact
  {
    FreshSeq(FreshId(fact));
  }

  lemma PendingStep(s: Ledger, m: Ledger, ids: seq<string>, i: nat, t: Ledger)
    requires i < |ids| && Pending(s, m, ids, i) && OneDelivery(m, ids[i], t)
    ensures Pending(s, t, ids, i + 1)
  {
    OneByOneStep(s, m, ids[i], t);
    forall k | EntryBody(s, k) ensures Paid(s, t, k) {
      FreshSeq(k);
      if k != ids[i] { UntouchedPaid(m, t, k); }
    }
    forall j | i + 1 <= j < |ids| && EntryBody(s, ids[j]) ensures Ready(s, t, ids[j]) {
      FreshSeq(ids[j]);
      UntouchedReady(s, m, t, ids[j]);
    }
  }

  /** A quiet delivery leaves its obligation with a stored record no longer owed. */
  lemma DeliveredDischarges(s: Ledger, k: string, delivery: Delivery, outcome: Outcome, t: Ledger)
    requires DeliverAnswer(s, k, delivery, outcome, t) && OneDelivery(s, k, t) && Quiet(s, t) && !outcome.SenderMissing?
    requires s.tiered && k != ""
    ensures Discharged(t, k)
  {
  }

  /** The identity a hold parks a body under. */
  function HoldId(s: Ledger, obligation: string): string {
    if obligation != "" then obligation else MintId(s.heldSeq + 1)
  }

  /** rec is what stands under k, and nothing a stop could bring back. */
  ghost predicate Closes(t: Ledger, k: string, rec: Record) {
    Lookup(t.log.stored, k) == Some(rec) && k !in t.log.staged
  }

  /** What one hold answers: a closed host parks nothing, and otherwise the body waits
      in the table, recorded under the status when the answer says so. */
  ghost predicate HoldAnswer(s: Ledger, obligation: string, delivery: Delivery, status: Status, ok: bool, t: Ledger) {
    && t.accepted == s.accepted
    && (!ok ==> s.closed || !s.up || s.faults < t.faults)
    && (s.closed ==> !ok && t == s)
    && (!s.closed ==> t.table == s.table[HoldId(s, obligation) := delivery])
    && (!s.closed && obligation == "" ==> !InUse(s, HoldId(s, obligation)))
    && (ok && s.tiered ==> Closes(t, HoldId(s, obligation), Record(delivery, status)))
  }

  /** What one reviewed send answers: the channel counts a sent body once and a
      confirmed receipt stands stored; a held or refused body was not sent and waits. */
  ghost predicate DeliverAnswer(s: Ledger, obligation: string, delivery: Delivery, outcome: Outcome, t: Ledger) {
    match outcome
    case SenderMissing => t == s
    case DeliverySent(receipt) =>
      && t.accepted == s.accepted[obligation := Accepted(s, obligation) + 1] && t.table == s.table
      && (!receipt ==> s.faults < t.faults)
      && (receipt && s.tiered && obligation != "" ==> Closes(t, obligation, Record(delivery, Sent)))
    case DeliveryHeld(recorded) => HoldAnswer(s, obligation, delivery, Held, recorded, t)
    case DeliveryRefused(recorded) =>
      && t.accepted == s.accepted
      && (recorded ==> t.table == s.table[HoldId(s, obligation) := delivery])
      && (!recorded ==> t.closed || !t.up || s.faults < t.faults)
      && (recorded && s.tiered ==> Closes(t, HoldId(s, obligation), Record(delivery, Retry)))
  }

  /** Publishing the entry under an identity nothing holds, or under the obligation
      itself, keeps every record sound. */
  lemma MintIsFresh(s: Ledger, obligation: string, delivery: Delivery, m: Ledger)
    requires Inv(s) && SeqCovers(s) && Published(s, obligation, delivery, m)
    ensures Inv(m) && SeqCovers(m) && Within(s, m)
    ensures obligation == "" ==> !InUse(s, HoldId(s, obligation)) && DeliveryHeldSeq(HoldId(s, obligation)) == s.heldSeq + 1
    ensures forall j :: j != HoldId(s, obligation) ==> Untouched(s, m, j)
  {
    var id := HoldId(s, obligation);
    if obligation == "" {
      MintedSeq(s.heldSeq + 1);
      assert !InUse(s, id);
    } else {
      FreshSeq(id);
      assert s.origin[id := delivery.body] == s.origin;
    }
    forall k | InUse(m, k) ensures DeliveryHeldSeq(k) <= m.heldSeq {
      if k != id { assert InUse(s, k); }
    }
    forall k, r | MayStand(m.log, k, Some(r)) ensures RecordSound(m, k, r) {
      assert MayStand(s.log, k, Some(r)) && RecordSound(s, k, r) && InUse(s, k);
    }
    forall k | k in s.log.stored ensures k in m.log.stored && m.log.stored[k].delivery.body == s.log.stored[k].delivery.body {}
  }

  /** The table entry of a hold is published before its record is attempted. */
  ghost predicate Published(s: Ledger, obligation: string, delivery: Delivery, m: Ledger) {
    var id := HoldId(s, obligation);
    && (obligation != "" ==> IsFresh(id) && id in s.origin && s.origin[id] == delivery.body)
    && m == s.(table := s.table[id := delivery], heldSeq := if obligation == "" then s.heldSeq + 1 else s.heldSeq,
               origin := s.origin[id := delivery.body])
  }

  lemma HoldEffect(s: Ledger, obligation: string, delivery: Delivery, m: Ledger, rec: Record, ok: bool, t: Ledger)
    requires Inv(s) && SeqCovers(s) && Published(s, obligation, delivery, m) && !s.closed
    requires RecordStep(m, HoldId(s, obligation), rec, ok, t) && Within(m, t) && Inv(t)
    requires rec.delivery == delivery && (rec.status.Held? || rec.status.Retry?)
    ensures OneDelivery(s, obligation, t)
    ensures HoldAnswer(s, obligation, delivery, rec.status, ok, t)
  {
    hide Inv, SeqCovers, Spent;
    var id := HoldId(s, obligation);
    MintIsFresh(s, obligation, delivery, m);
    InvWellFormed(t);
    InvRecorded(m, id, rec, ok, t);
    forall k, status | Reads(t, k, status) && (status == Refused || status == Headless) ensures Reads(s, k, status) {
      var r :| MayStand(t.log, k, Some(r)) && r.status == status;
      assert MayStand(m.log, k, Some(r));
    }
    forall j | j != obligation && DeliveryHeldSeq(j) <= s.heldSeq ensures Untouched(s, t, j) {
      assert j != id;
      assert Untouched(s, m, j) && Untouched(m, t, j);
    }
    HoldCovers(s, m, id, rec, ok, t);
    if obligation != "" && s.tiered {
      HoldSpent(m, id, rec, ok, t);
    }
    HoldPays(s, obligation, m, id, t);
  }

  lemma ClosedHold(s: Ledger, obligation: string, delivery: Delivery, status: Status)
    requires Inv(s) && SeqCovers(s) && s.closed
    ensures OneDelivery(s, obligation, s) && HoldAnswer(s, obligation, delivery, status, false, s)
  {
  }

  lemma HoldPays(s: Ledger, obligation: string, m: Ledger, id: string, t: Ledger)
    requires m.log == s.log && m.up == s.up && m.accepted == s.accepted && m.faults == s.faults && m.tiered == s.tiered
    requires t.accepted == m.accepted && s.faults <= t.faults
    requires obligation != "" && s.tiered ==> id == obligation
    requires obligation != "" && s.tiered && m.up ==> Credit(t, id) + m.faults <= 1 + t.faults
    requires obligation != "" && s.tiered && !m.up ==> Credit(t, id) <= Credit(m, id)
    ensures obligation != "" ==> Spent(s, t, obligation)
  {
  }

  lemma HoldCovers(s: Ledger, m: Ledger, id: string, rec: Record, ok: bool, t: Ledger)
    requires m.log == s.log && id in m.table && (forall k :: k in s.table ==> k in m.table)
    requires RecordStep(m, id, rec, ok, t) && (rec.status.Held? || rec.status.Retry?)
    ensures forall k :: Covered(s, k) ==> Covered(t, k)
    ensures forall k :: Discharged(s, k) ==> Discharged(t, k)
  {
    forall k | Covered(s, k) ensures Covered(t, k) {
      forall r | MayStand(t.log, k, r) && Parked(r) ensures k in t.table {
        assert MayStand(m.log, k, r) || k == id;
      }
    }
    forall k | Discharged(s, k) ensures Discharged(t, k) {
      forall r | MayStand(t.log, k, r) ensures !Sendable(r) {
        assert MayStand(m.log, k, r) || r == Some(rec);
      }
    }
  }

  lemma HoldSpent(m: Ledger, id: string, rec: Record, ok: bool, t: Ledger)
    requires RecordStep(m, id, rec, ok, t) && (rec.status.Held? || rec.status.Retry?) && m.tiered && id in m.table
    ensures m.up ==> Credit(t, id) + m.faults <= 1 + t.faults
    ensures !m.up ==> Credit(t, id) <= Credit(m, id) && TableCredit(t, id) == TableCredit(m, id)
  {
    if ok {
      RecordedCredit(m, id, rec, ok, t);
    } else if !m.up {
      forall r | MayStand(t.log, id, r) ensures MayStand(m.log, id, r) {}
    }
  }

  lemma InvWellFormed(s: Ledger)
    requires Inv(s)
    ensures WellFormed(s.log)
  {
  }

  lemma SendLanded(s: Ledger, k: string, m: Ledger)
    requires Inv(s) && m == s.(accepted := s.accepted[k := Accepted(s, k) + 1], closed := m.closed) && (s.closed ==> m.closed)
    ensures Inv(m) && Within(s, m) && (SeqCovers(s) ==> SeqCovers(m)) && Accepted(m, k) == Accepted(s, k) + 1
    ensures forall j :: j != k ==> Untouched(s, m, j)
    ensures k == "" && SeqCovers(s) ==> OneDelivery(s, k, m)
  {
    forall j, r | MayStand(m.log, j, Some(r)) ensures RecordSound(m, j, r) {
      assert RecordSound(s, j, r);
    }
    forall j | InUse(m, j) && SeqCovers(s) ensures DeliveryHeldSeq(j) <= m.heldSeq {
      assert InUse(s, j);
    }
  }

  /** The receipt of an accepted send spends exactly the send it confirms. */
  lemma ReceiptEffect(s: Ledger, k: string, m: Ledger, rec: Record, ok: bool, t: Ledger)
    requires m.log == s.log && m.table == s.table && m.up == s.up && m.faults == s.faults && m.tiered == s.tiered
    requires s.up && Accepted(m, k) == Accepted(s, k) + 1
    requires forall j :: j != k ==> Untouched(s, m, j)
    requires RecordStep(m, k, rec, ok, t) && rec.status.Sent?
    requires Within(s, m) && Inv(m) && SeqCovers(m) && Inv(t) && Within(m, t) && RecordSound(m, k, rec) && IsFresh(k)
    ensures OneDelivery(s, k, t)
  {
    FreshSeq(k);
    InvRecorded(m, k, rec, ok, t);
    forall j, status | Reads(t, j, status) && (status == Refused || status == Headless) ensures Reads(s, j, status) {
      var r :| MayStand(t.log, j, Some(r)) && r.status == status;
      assert MayStand(m.log, j, Some(r));
    }
    forall j | j != k && DeliveryHeldSeq(j) <= s.heldSeq ensures Untouched(s, t, j) {
      assert Untouched(s, m, j) && Untouched(m, t, j);
    }
    if s.tiered && ok {
      RecordedCredit(m, k, rec, ok, t);
    } else if s.tiered {
      assert TableCredit(t, k) <= TableCredit(m, k);
    }
  }

  lemma SentNothing(s: Ledger, m: Ledger)
    requires LogMove(s, m) && Fewer(s.log, m.log)
    ensures SeqCovers(s) ==> SeqCovers(m)
    ensures NothingClosed(s, m)
  {
    forall k | InUse(m, k) && SeqCovers(s) ensures DeliveryHeldSeq(k) <= m.heldSeq {
      assert InUse(s, k);
    }
    forall k, status | Reads(m, k, status) && (status == Refused || status == Headless) ensures Reads(s, k, status) {
      var r :| MayStand(m.log, k, Some(r)) && r.status == status;
      assert MayStand(s.log, k, Some(r));
    }
  }

  /** A hold behind a send that landed nothing is a hold of the ledger before it. */
  lemma HoldAfter(s: Ledger, m: Ledger, k: string, t: Ledger)
    requires LogMove(s, m) && Fewer(s.log, m.log) && m.faults == s.faults && NothingClosed(s, m)
    requires Within(s, m) && OneDelivery(m, k, t)
    ensures OneDelivery(s, k, t) && (m.closed ==> t.closed) && (t.up ==> m.up)
  {
    forall j | j != k && DeliveryHeldSeq(j) <= s.heldSeq ensures Untouched(s, t, j) {
      assert Untouched(s, m, j) && Untouched(m, t, j);
    }
  }

  // --- the rebuild at boot ---

  /** A process that starts over the log the stop left: no table, no counter. */
  ghost predicate Started(s: Ledger, b: Ledger, declared: string) {
    && Inv(s) && !s.up
    && b == s.(log := b.log, entry := declared, table := map[], heldSeq := 0, closed := false, up := true)
    && WellFormed(b.log) && b.log == Rested(b.log.stored) && Fewer(s.log, b.log)
  }

  lemma StartEffect(s: Ledger, b: Ledger, declared: string)
    requires Started(s, b, declared)
    ensures Inv(b) && Keeps(s, b) && NothingClosed(s, b) && (forall k :: Paid(s, b, k))
    ensures !b.tiered ==> SeqCovers(b)
    ensures !b.tiered ==> CallMoves(s, BootCall(declared), b)
  {
    forall k | k in s.log.stored
      ensures k in b.log.stored && b.log.stored[k].delivery.body == s.log.stored[k].delivery.body
    {
      assert MayStand(b.log, k, Some(b.log.stored[k])) && MayStand(s.log, k, Some(s.log.stored[k]));
    }
    forall k, status | Reads(b, k, status) ensures Reads(s, k, status) {
      var r :| MayStand(b.log, k, Some(r)) && r.status == status;
      assert MayStand(s.log, k, Some(r));
    }
  }

  /** A boot whose scan failed leaves the log as it read it and no process. */
  lemma StartRefused(s: Ledger, b: Ledger, declared: string)
    requires Started(s, b, declared)
    ensures CallMoves(s, BootCall(declared), b.(up := false, faults := b.faults + 1))
  {
    StartEffect(s, b, declared);
    var d := b.(up := false, faults := b.faults + 1);
    forall k, r | MayStand(d.log, k, Some(r)) ensures RecordSound(d, k, r) {
      assert RecordSound(b, k, r);
    }
    forall k, status | Reads(d, k, status) && (status == Refused || status == Headless) ensures Reads(s, k, status) {
      assert Reads(b, k, status);
    }
    forall k ensures Paid(s, d, k) {
      assert Paid(s, b, k);
    }
  }

  /** Nothing but rec stands under k, or may. */
  ghost predicate Only(c: Ledger, k: string, rec: Record) {
    k in c.log.stored && forall r :: MayStand(c.log, k, r) ==> r == Some(rec)
  }

  predicate Unattended(rec: Record, entry: string) {
    rec.status.Owed? && rec.delivery.body.target.agent == entry
  }

  predicate Retires(rec: Record, entry: string) {
    rec.status.Owed? && rec.delivery.body.target.agent != entry
  }

  /** What the first pass leaves of one record it read: a parked one waits in the table,
      an owed one of another address reads headless unless its call failed, and any
      other stands as it was. */
  ghost predicate Visited(c: Ledger, k: string, rec: Record, entry: string, quiet: bool) {
    && DeliveryHeldSeq(k) <= c.heldSeq
    && (k in c.table <==> Parked(Some(rec)))
    && (!Retires(rec, entry) ==> Only(c, k, rec))
    && (Retires(rec, entry) && quiet ==> Only(c, k, Record(rec.delivery, Headless)))
    && (Retires(rec, entry) ==> k in c.log.stored)
    && (Retires(rec, entry) ==>
        forall r :: MayStand(c.log, k, r) ==> r == Some(rec) || r == Some(Record(rec.delivery, Headless)))
  }

  /** The first pass with the keys of todo still to read. */
  ghost predicate Booting(b: Ledger, c: Ledger, todo: set<string>, unattended: seq<string>) {
    && Inv(c) && b.tiered && b.up && b.table == map[] && b.faults <= c.faults
    && c == b.(log := c.log, closed := c.closed, up := c.up, faults := c.faults, table := c.table, heldSeq := c.heldSeq)
    && todo <= b.log.stored.Keys && DistinctIds(unattended)
    && (forall k :: k in todo ==> k !in c.table && Only(c, k, b.log.stored[k]))
    && (forall k :: k in b.log.stored && k !in todo ==>
        Visited(c, k, b.log.stored[k], b.entry, c.up && c.faults == b.faults))
    && (forall k :: k !in b.log.stored ==> k !in c.table && k !in c.log.stored && forall r :: !MayStand(c.log, k, Some(r)))
    && (forall k :: k in unattended <==> k in b.log.stored && k !in todo && Unattended(b.log.stored[k], b.entry))
  }

  lemma BootingStart(b: Ledger)
    requires Inv(b) && b.tiered && b.up && b.table == map[] && b.log == Rested(b.log.stored)
    ensures Booting(b, b, b.log.stored.Keys, [])
  {
  }

  /** One key read: whatever the read did, it did to that key. */
  lemma BootingRead(b: Ledger, c: Ledger, todo: set<string>, unattended: seq<string>, k: string, d: Ledger)
    requires Booting(b, c, todo, unattended) && k in todo && Inv(d)
    requires d == c.(log := d.log, closed := d.closed, up := d.up, faults := d.faults, table := d.table, heldSeq := d.heldSeq)
    requires c.faults <= d.faults && (d.up ==> c.up) && c.heldSeq <= d.heldSeq
    requires forall j :: j != k ==> Untouched(c, d, j) && (j in c.log.stored ==> j in d.log.stored)
    requires Visited(d, k, b.log.stored[k], b.entry, d.up && d.faults == b.faults)
    ensures Booting(b, d, todo - {k}, if Unattended(b.log.stored[k], b.entry) then unattended + [k] else unattended)
  {
    hide Inv, Only, Visited;
    assert k !in unattended;
    forall j | j in todo - {k} ensures j !in d.table && Only(d, j, b.log.stored[j]) {
      OnlyKept(c, d, j, b.log.stored[j]);
    }
    forall j | j in b.log.stored && j !in todo - {k}
      ensures Visited(d, j, b.log.stored[j], b.entry, d.up && d.faults == b.faults)
    {
      if j != k { VisitedKept(c, d, j, b.log.stored[j], b.entry, c.up && c.faults == b.faults); }
    }
    forall j | j !in b.log.stored
      ensures j !in d.table && j !in d.log.stored && forall r :: !MayStand(d.log, j, Some(r))
    {
      assert Untouched(c, d, j);
      assert j in d.log.stored ==> MayStand(d.log, j, Some(d.log.stored[j]));
    }
  }

  lemma OnlyKept(c: Ledger, d: Ledger, j: string, rec: Record)
    requires Only(c, j, rec) && Untouched(c, d, j) && (j in c.log.stored ==> j in d.log.stored)
    ensures Only(d, j, rec)
  {
  }

  lemma VisitedKept(c: Ledger, d: Ledger, j: string, rec: Record, entry: string, quiet: bool)
    requires Visited(c, j, rec, entry, quiet) && Untouched(c, d, j) && (j in c.log.stored ==> j in d.log.stored) && c.heldSeq <= d.heldSeq
    ensures Visited(d, j, rec, entry, quiet)
    ensures forall less: bool :: (less ==> quiet) ==> Visited(d, j, rec, entry, less)
  {
  }

  /** Behind the first pass the table, the counter and the unattended sends are what the
      second pass and every later call rely on. */
  lemma BootingEnd(b: Ledger, c: Ledger, unattended: seq<string>)
    requires Booting(b, c, {}, unattended) && b.log == Rested(b.log.stored)
    ensures Pending(c, c, unattended, 0)
    ensures Keeps(b, c) && (forall k :: Paid(b, c, k)) && (forall k :: Covered(c, k))
    ensures forall k :: Reads(c, k, Refused) ==> Reads(b, k, Refused)
    ensures forall k :: Reads(c, k, Headless) && !Reads(b, k, Headless) ==> k in c.origin && c.origin[k].target.agent != b.entry
    ensures c.up && c.faults == b.faults ==>
              forall k :: k in b.log.stored && k !in unattended ==> Discharged(c, k)
    ensures forall k :: k in unattended ==>
              k in b.log.stored && IsFresh(k) && k in c.origin && c.origin[k] == b.log.stored[k].delivery.body
    ensures c.entry == b.entry && b.faults <= c.faults
  {
    hide Inv, Pending;
    forall k
      ensures Covered(c, k) && Paid(b, c, k) && (InUse(c, k) ==> DeliveryHeldSeq(k) <= c.heldSeq)
      ensures Reads(c, k, Refused) ==> Reads(b, k, Refused)
      ensures Reads(c, k, Headless) && !Reads(b, k, Headless) ==> k in b.log.stored && Retires(b.log.stored[k], b.entry)
      ensures k in b.log.stored ==> k in c.log.stored
    {
      if k in b.log.stored { BootedKey(b, c, k, b.log.stored[k]); }
    }
    BootingPends(b, c, unattended);
  }

  lemma BootedKey(b: Ledger, c: Ledger, k: string, rec: Record)
    requires Visited(c, k, rec, b.entry, c.up && c.faults == b.faults) && Lookup(b.log.stored, k) == Some(rec)
    requires b.log == Rested(b.log.stored) && c.accepted == b.accepted && b.faults <= c.faults && b.up && b.table == map[]
    ensures Covered(c, k) && Paid(b, c, k) && DeliveryHeldSeq(k) <= c.heldSeq && k in c.log.stored
    ensures Reads(c, k, Refused) ==> Reads(b, k, Refused)
    ensures Reads(c, k, Headless) && !Reads(b, k, Headless) ==> Retires(rec, b.entry)
    ensures c.up && c.faults == b.faults && !Unattended(rec, b.entry) ==> Discharged(c, k)
  {
    assert MayStand(b.log, k, Some(rec));
  }

  lemma BootingPends(b: Ledger, c: Ledger, unattended: seq<string>)
    requires Booting(b, c, {}, unattended) && b.log == Rested(b.log.stored) && SeqCovers(c)
    ensures Pending(c, c, unattended, 0)
    ensures Keeps(b, c)
    ensures forall k :: k in b.log.stored ==> k in c.origin && c.origin[k] == b.log.stored[k].delivery.body
    ensures forall k :: k in unattended ==> IsFresh(k)
  {
    hide Inv, Ready, Paid, OneByOne, Visited;
    forall k | k in b.log.stored
      ensures k in c.log.stored && c.log.stored[k].delivery.body == b.log.stored[k].delivery.body
      ensures k in c.origin && c.origin[k] == b.log.stored[k].delivery.body
    {
      BootedRecord(b, c, k, b.log.stored[k]);
    }
    forall k | k in unattended ensures IsFresh(k) && Ready(c, c, k) {
      UnattendedReady(b, c, k, b.log.stored[k]);
    }
    OneByOneRefl(c);
  }

  lemma OneByOneRefl(c: Ledger)
    ensures OneByOne(c, c) && forall k :: Paid(c, c, k)
  {
  }

  lemma BootedRecord(b: Ledger, c: Ledger, k: string, rec: Record)
    requires Inv(c) && Visited(c, k, rec, b.entry, c.up && c.faults == b.faults)
    ensures k in c.log.stored && c.log.stored[k].delivery.body == rec.delivery.body
    ensures k in c.origin && c.origin[k] == rec.delivery.body
  {
    var r := c.log.stored[k];
    assert MayStand(c.log, k, Some(r)) && RecordSound(c, k, r);
  }

  lemma UnattendedReady(b: Ledger, c: Ledger, k: string, rec: Record)
    requires Inv(c) && Unattended(rec, b.entry) && Visited(c, k, rec, b.entry, c.up && c.faults == b.faults)
    ensures IsFresh(k) && Ready(c, c, k)
  {
    assert MayStand(c.log, k, Lookup(c.log.stored, k));
    assert RecordSound(c, k, rec);
  }

  lemma BootingKey(b: Ledger, c: Ledger, todo: set<string>, unattended: seq<string>, k: string)
    requires Booting(b, c, todo, unattended) && k in todo
    ensures Inv(c) && k in b.log.stored && k !in c.table && Only(c, k, b.log.stored[k]) && RecordSound(c, k, b.log.stored[k])
    ensures b.faults <= c.faults
  {
    assert MayStand(c.log, k, Some(c.log.stored[k])) && RecordSound(c, k, c.log.stored[k]);
  }

  /** Reading a record moves the counter past its order number. */
  lemma CounterPasses(s: Ledger, k: string, rec: Record, entry: string, m: Ledger)
    requires Inv(s) && k !in s.table && Only(s, k, rec)
    requires m == s.(heldSeq := m.heldSeq) && DeliveryHeldSeq(k) <= m.heldSeq
    ensures Inv(m) && Only(m, k, rec) && forall r :: RecordSound(s, k, r) ==> RecordSound(m, k, r)
    ensures forall j :: Untouched(s, m, j)
    ensures !Parked(Some(rec)) && !Retires(rec, entry) ==> forall quiet :: Visited(m, k, rec, entry, quiet)
  {
    forall j, r | MayStand(m.log, j, Some(r)) ensures RecordSound(m, j, r) {
      assert RecordSound(s, j, r);
    }
  }

  lemma RecordRetires(rec: Record, entry: string)
    requires rec.status.Owed? && rec.delivery.body.target.agent != entry
    ensures Retires(rec, entry) && !Unattended(rec, entry) && !Parked(Some(rec))
  {
  }

  lemma RecordParks(rec: Record, entry: string)
    requires rec.status.Held? || rec.status.Retry?
    ensures Parked(Some(rec)) && !Unattended(rec, entry) && !Retires(rec, entry)
  {
  }

  lemma RecordStands(rec: Record, entry: string)
    requires if rec.status.Owed? then rec.delivery.body.target.agent == entry else !rec.status.Held? && !rec.status.Retry?
    ensures !Parked(Some(rec)) && !Retires(rec, entry) && (Unattended(rec, entry) <==> rec.status.Owed?)
  {
  }

  lemma HeadlessSound(m: Ledger, k: string, rec: Record, entry: string)
    requires RecordSound(m, k, rec) && Retires(rec, entry)
    ensures RecordSound(m, k, Record(rec.delivery, Headless))
  {
  }

  lemma CounterUntouched(s: Ledger, m: Ledger, t: Ledger, k: string)
    requires m == s.(heldSeq := m.heldSeq)
    requires forall j :: j != k ==> Untouched(m, t, j) && (j in m.log.stored ==> j in t.log.stored)
    ensures forall j :: j != k ==> Untouched(s, t, j) && (j in s.log.stored ==> j in t.log.stored)
  {
  }

  lemma ParkedWaits(m: Ledger, k: string, rec: Record, entry: string, t: Ledger)
    requires Inv(m) && Only(m, k, rec) && RecordSound(m, k, rec) && Parked(Some(rec)) && DeliveryHeldSeq(k) <= m.heldSeq
    requires t == m.(table := m.table[k := rec.delivery])
    ensures Inv(t) && forall quiet :: Visited(t, k, rec, entry, quiet)
    ensures forall j :: j != k ==> Untouched(m, t, j)
  {
    forall j, r | MayStand(t.log, j, Some(r)) ensures RecordSound(t, j, r) {
      assert RecordSound(m, j, r);
    }
  }

  lemma RetiredHeadless(m: Ledger, k: string, rec: Record, ok: bool, t: Ledger)
    requires Inv(m) && Only(m, k, rec) && Retires(rec, m.entry) && k !in m.table && DeliveryHeldSeq(k) <= m.heldSeq
    requires RecordStep(m, k, Record(rec.delivery, Headless), ok, t) && m.tiered && Inv(t) && RecordSound(m, k, Record(rec.delivery, Headless))
    ensures Visited(t, k, rec, m.entry, t.up && t.faults == m.faults)
    ensures m.faults <= t.faults && (t.up ==> m.up)
    ensures forall j :: j != k ==> Untouched(m, t, j) && (j in m.log.stored ==> j in t.log.stored)
  {
    InvWellFormed(t);
    InvRecorded(m, k, Record(rec.delivery, Headless), ok, t);
  }

  lemma BootingQuiet(b: Ledger, c: Ledger, k: string, rec: Record, d: Ledger)
    requires Visited(d, k, rec, b.entry, d.up && d.faults == c.faults) && b.faults <= c.faults <= d.faults
    ensures Visited(d, k, rec, b.entry, d.up && d.faults == b.faults)
  {
  }

  lemma BootEffect(s: Ledger, b: Ledger, declared: string, c: Ledger, unattended: seq<string>, hasSender: bool, t: Ledger)
    requires Started(s, b, declared) && Booting(b, c, {}, unattended) && Pending(c, t, unattended, |unattended|)
    requires hasSender && Quiet(c, t) ==> forall k :: k in unattended ==> Discharged(t, k)
    ensures CallMoves(s, BootCall(declared), t)
    ensures forall k :: Covered(t, k)
    ensures hasSender && Quiet(s, t) ==> forall k :: k in b.log.stored ==> Discharged(t, k)
  {
    hide Inv, Booting, CallMoves, Discharged, Covered, Paid, NothingClosed;
    StartEffect(s, b, declared);
    BootingEnd(b, c, unattended);
    BootEffectMoves(s, b, declared, c, unattended, t);
    BootEffectQuiet(s, b, c, unattended, hasSender, t);
  }

  lemma BootEffectQuiet(s: Ledger, b: Ledger, c: Ledger, unattended: seq<string>, hasSender: bool, t: Ledger)
    requires OneByOne(c, t) && b.faults == s.faults && b.faults <= c.faults
    requires hasSender && Quiet(c, t) ==> forall k :: k in unattended ==> Discharged(t, k)
    requires c.up && c.faults == b.faults ==> forall k :: k in b.log.stored && k !in unattended ==> Discharged(c, k)
    ensures hasSender && Quiet(s, t) ==> forall k :: k in b.log.stored ==> Discharged(t, k)
  {
  }

  lemma BootEffectMoves(s: Ledger, b: Ledger, declared: string, c: Ledger, unattended: seq<string>, t: Ledger)
    requires Started(s, b, declared) && Pending(c, t, unattended, |unattended|)
    requires Keeps(s, b) && Keeps(b, c) && c.entry == b.entry
    requires forall k :: Paid(s, b, k) && Paid(b, c, k)
    requires NothingClosed(s, b) && forall k :: Reads(c, k, Refused) ==> Reads(b, k, Refused)
    requires forall k :: Reads(c, k, Headless) && !Reads(b, k, Headless) ==> k in c.origin && c.origin[k].target.agent != b.entry
    ensures CallMoves(s, BootCall(declared), t)
  {
    forall k | EntryBody(s, k) && EntryBody(t, k) ensures Paid(s, t, k) {
      assert EntryBody(c, k);
      assert Paid(s, b, k) && Paid(b, c, k) && Paid(c, t, k);
    }
    forall k | Reads(t, k, Headless) && !Reads(s, k, Headless)
      ensures k in t.origin && t.origin[k].target.agent != declared
    {
      assert Reads(c, k, Headless) && !Reads(b, k, Headless);
      var r :| MayStand(t.log, k, Some(r)) && r.status == Headless;
      assert RecordSound(t, k, r);
    }
  }
}
