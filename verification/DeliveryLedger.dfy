// The delivery obligations of one host as values: the durable records with what
// a stop may still bring back, the review table, and what a delivery call may do
// to them. The credit of an identity counts the sends the account still owes it.
module DeliveryLedger {
  import opened Core
  import opened DeliveryIds
  import opened FactLog

  datatype Status = Owed | Held | Retry | Sent | Refused | Headless

  datatype Body = Body(content: string, target: Address)

  /** One outbound body beside the trigger line it names. */
  datatype Delivery = Delivery(body: Body, lineage: string)

  datatype Record = Record(delivery: Delivery, status: Status)

  /** Everything one delivery call may read or move.
      table    the review table of the running process
      accepted how often the channel accepted the body of an identity
      faults   the durable calls that failed or that a stop cut
      origin   the body an identity names; a fact never changes its body */
  datatype Ledger = Ledger(
    log: Log<string, Record>,
    table: map<string, Delivery>,
    heldSeq: nat,
    closed: bool,
    up: bool,
    tiered: bool,
    entry: string,
    accepted: map<string, nat>,
    faults: nat,
    origin: map<string, Body>)

  ghost function Accepted(l: Ledger, k: string): nat {
    if k in l.accepted then l.accepted[k] else 0
  }

  // --- the credit of one identity ---

  predicate Sendable(r: Option<Record>) { r.None? || r.value.status.Owed? }

  predicate Parked(r: Option<Record>) { r.Some? && (r.value.status.Held? || r.value.status.Retry?) }

  /** The send a hand-off or a restart still owes. */
  ghost function OwedCredit(l: Ledger, k: string): nat {
    if exists r :: MayStand(l.log, k, r) && Sendable(r) then 1 else 0
  }

  /** The send an approval still owes. */
  ghost function TableCredit(l: Ledger, k: string): nat {
    if (l.up && k in l.table) || exists r :: MayStand(l.log, k, r) && Parked(r) then 1 else 0
  }

  ghost function Credit(l: Ledger, k: string): nat { OwedCredit(l, k) + TableCredit(l, k) }

  /** From s to t the accepted sends and the open credit of k grow by no more than
      the faults did. */
  ghost predicate Paid(s: Ledger, t: Ledger, k: string) {
    Accepted(t, k) + Credit(t, k) + s.faults <= Accepted(s, k) + Credit(s, k) + t.faults
  }

  /** As Paid, with one send of k still in hand. */
  ghost predicate Ready(s: Ledger, t: Ledger, k: string) {
    t.up ==> Accepted(t, k) + TableCredit(t, k) + 1 + s.faults <= Accepted(s, k) + Credit(s, k) + t.faults
  }

  /** The identities the bound speaks of: a generated body of the entry address on
      a host that keeps a durable tier. */
  ghost predicate EntryBody(l: Ledger, k: string) {
    l.tiered && IsFresh(k) && k in l.origin && l.origin[k].target.agent == l.entry
  }

  // --- what holds of every ledger ---

  ghost predicate Reads(l: Ledger, k: string, status: Status) {
    exists r :: MayStand(l.log, k, Some(r)) && r.status == status
  }

  ghost predicate InUse(l: Ledger, k: string) {
    k in l.table || exists r :: MayStand(l.log, k, Some(r))
  }

  ghost predicate RecordSound(l: Ledger, k: string, r: Record) {
    && k in l.origin && r.delivery.body == l.origin[k]
    && (r.status.Sent? ==> Accepted(l, k) > 0)
    && (r.status.Owed? || r.status.Headless? ==> IsFresh(k))
  }

  ghost predicate Inv(l: Ledger) {
    && WellFormed(l.log)
    && (forall k, r :: MayStand(l.log, k, Some(r)) ==> RecordSound(l, k, r))
    && (forall k :: k in l.table ==> k in l.origin && l.table[k].body == l.origin[k])
    && (!l.tiered ==> forall k, r :: !MayStand(l.log, k, Some(r)))
  }

  /** Every identity in use carries an order number the counter has passed. */
  ghost predicate SeqCovers(l: Ledger) {
    forall k :: InUse(l, k) ==> DeliveryHeldSeq(k) <= l.heldSeq
  }

  /** Nothing durable is taken back, and an identity in use keeps its body. */
  ghost predicate Keeps(s: Ledger, t: Ledger) {
    && t.tiered == s.tiered
    && s.faults <= t.faults
    && (forall k :: Accepted(s, k) <= Accepted(t, k))
    && (forall k :: k in s.log.stored ==> k in t.log.stored && t.log.stored[k].delivery.body == s.log.stored[k].delivery.body)
    && (forall k :: IsFresh(k) && k in s.origin ==> k in t.origin && t.origin[k] == s.origin[k])
  }

  /** A call of one process: the process is not replaced by it. */
  ghost predicate Within(s: Ledger, t: Ledger) {
    && Keeps(s, t)
    && t.entry == s.entry
    && (t.up ==> s.up)
    && (s.closed ==> t.closed)
    && s.heldSeq <= t.heldSeq
  }

  /** Whatever may stand under k in t could stand in s, and the table and the
      channel answer for k as they did. */
  ghost predicate Untouched(s: Ledger, t: Ledger, k: string) {
    && (forall r :: MayStand(t.log, k, r) ==> MayStand(s.log, k, r))
    && Lookup(t.table, k) == Lookup(s.table, k)
    && Accepted(t, k) == Accepted(s, k)
  }

  /** Every identity but k the counter has passed keeps what it held. */
  ghost predicate Spared(s: Ledger, t: Ledger, k: string) {
    forall j :: j != k && DeliveryHeldSeq(j) <= s.heldSeq ==> Untouched(s, t, j)
  }

  /** No identity reads a closing status it could not read before. */
  ghost predicate NothingClosed(s: Ledger, t: Ledger) {
    forall k, status :: Reads(t, k, status) && (status == Refused || status == Headless) ==> Reads(s, k, status)
  }

  /** The ledger moved by its log alone, as one durable call moves it. */
  ghost predicate LogMove(s: Ledger, t: Ledger) {
    && t == s.(log := t.log, closed := t.closed, up := t.up, faults := t.faults)
    && (s.closed ==> t.closed) && (t.up ==> s.up) && s.faults <= t.faults
    && (!s.up ==> t.log == s.log && t.faults == s.faults)
  }

  /** One record call: the put of rec under k and the barrier behind it. */
  ghost predicate RecordStep(s: Ledger, k: string, rec: Record, ok: bool, t: Ledger) {
    && LogMove(s, t)
    && FewerBut(s.log, t.log, k, rec)
    && (!ok && s.up ==> s.faults < t.faults)
    && (ok && s.tiered ==> t.up && Lookup(t.log.stored, k) == Some(rec) && k !in t.log.staged)
    && (!s.tiered ==> t.log == s.log && ok)
  }

  lemma UntouchedPaid(s: Ledger, t: Ledger, k: string)
    requires Untouched(s, t, k) && (t.up ==> s.up) && s.faults <= t.faults
    ensures Paid(s, t, k) && TableCredit(t, k) <= TableCredit(s, k)
  {
  }

  lemma UntouchedReady(s: Ledger, m: Ledger, t: Ledger, k: string)
    requires Ready(s, m, k) && Untouched(m, t, k) && (t.up ==> m.up) && m.faults <= t.faults
    ensures Ready(s, t, k)
  {
  }

  lemma InvKept(s: Ledger, t: Ledger)
    requires Inv(s) && LogMove(s, t) && WellFormed(t.log) && Fewer(s.log, t.log)
    ensures Inv(t) && Within(s, t)
    ensures forall k :: Untouched(s, t, k)
  {
    forall k | k in s.log.stored
      ensures k in t.log.stored && t.log.stored[k].delivery.body == s.log.stored[k].delivery.body
    {
      assert MayStand(t.log, k, Some(t.log.stored[k])) && MayStand(s.log, k, Some(s.log.stored[k]));
    }
  }

  lemma InvRecorded(s: Ledger, k: string, rec: Record, ok: bool, t: Ledger)
    requires Inv(s) && RecordSound(s, k, rec) && RecordStep(s, k, rec, ok, t) && WellFormed(t.log)
    ensures Inv(t) && Within(s, t)
    ensures forall j :: j != k ==> Untouched(s, t, j)
    ensures InUse(s, k) || k in t.table || DeliveryHeldSeq(k) <= t.heldSeq ==> SeqCovers(s) ==> SeqCovers(t)
  {
    forall j, r | MayStand(t.log, j, Some(r)) ensures RecordSound(t, j, r) {
      assert MayStand(s.log, j, Some(r)) || (j == k && r == rec);
    }
    forall j | j in s.log.stored
      ensures j in t.log.stored && t.log.stored[j].delivery.body == s.log.stored[j].delivery.body
    {
      assert MayStand(t.log, j, Some(t.log.stored[j])) && MayStand(s.log, j, Some(s.log.stored[j]));
    }
    forall j | j != k ensures Untouched(s, t, j) {
      forall r | MayStand(t.log, j, r) ensures MayStand(s.log, j, r) {}
    }
    if SeqCovers(s) && (InUse(s, k) || k in t.table || DeliveryHeldSeq(k) <= t.heldSeq) {
      forall j | InUse(t, j) ensures DeliveryHeldSeq(j) <= t.heldSeq {
        if j != k { assert InUse(s, j); }
      }
    }
  }

  /** One send of k was spent from s to t: what k stands at afterwards is covered by
      the table credit it had, the one send, and the faults met. */
  ghost predicate Spent(s: Ledger, t: Ledger, k: string) {
    s.tiered ==>
      if s.up then Accepted(t, k) + Credit(t, k) + s.faults <= Accepted(s, k) + TableCredit(s, k) + 1 + t.faults
      else Paid(s, t, k)
  }

  /** A record call that ended under a parked or a sent status leaves at most the
      credit that status carries, unless a fault pays for the rest. */
  lemma RecordedCredit(s: Ledger, k: string, rec: Record, ok: bool, t: Ledger)
    requires RecordStep(s, k, rec, ok, t) && s.tiered && ok
    requires !rec.status.Owed?
    ensures OwedCredit(t, k) == 0
    ensures rec.status.Sent? || rec.status.Refused? ==> TableCredit(t, k) == if k in t.table then 1 else 0
  {
    forall r | MayStand(t.log, k, r) ensures r == Some(rec) {}
  }

  /** From s to t the log gained nothing but owed records of bodies no barrier had
      stored a record of. */
  ghost predicate OwedStaged(s: Ledger, t: Ledger) {
    && (forall k, r :: MayStand(t.log, k, r) ==>
        MayStand(s.log, k, r) || (k !in s.log.stored && IsFresh(k) && r.Some? && r.value.status.Owed?))
    && (forall k :: k in s.log.stored ==> k in t.log.stored)
  }

  lemma OwedStagedEffect(s: Ledger, t: Ledger)
    requires LogMove(s, t) && OwedStaged(s, t) && Inv(s) && Inv(t) && SeqCovers(s)
    ensures Within(s, t) && SeqCovers(t) && NothingClosed(s, t)
    ensures forall k :: Paid(s, t, k) && TableCredit(t, k) <= TableCredit(s, k)
    ensures forall k :: (s.up && s.faults < t.faults) || !t.up ==> Ready(s, t, k)
  {
    forall k | InUse(t, k) ensures DeliveryHeldSeq(k) <= t.heldSeq {
      if IsFresh(k) { FreshSeq(k); } else { assert InUse(s, k); }
    }
    forall k ensures Paid(s, t, k) && TableCredit(t, k) <= TableCredit(s, k) {
      assert k !in s.log.stored ==> MayStand(s.log, k, None);
    }
    forall k | k in s.log.stored ensures k in t.log.stored && t.log.stored[k].delivery.body == s.log.stored[k].delivery.body {
      assert MayStand(t.log, k, Some(t.log.stored[k])) && MayStand(s.log, k, Some(s.log.stored[k]));
    }
  }

  lemma NoMove(s: Ledger)
    ensures Within(s, s) && LogMove(s, s) && NothingClosed(s, s) && OwedStaged(s, s)
    ensures forall k :: Paid(s, s, k)
  {
  }

  lemma OwedStagedChain(s: Ledger, m: Ledger, t: Ledger)
    requires LogMove(s, m) && LogMove(m, t) && OwedStaged(s, m)
    requires OwedStaged(m, t) || Fewer(m.log, t.log)
    ensures LogMove(s, t) && OwedStaged(s, t)
  {
    forall k, r | MayStand(t.log, k, r)
      ensures MayStand(s.log, k, r) || (k !in s.log.stored && IsFresh(k) && r.Some? && r.value.status.Owed?)
    {
      assert MayStand(m.log, k, r) || (k !in m.log.stored && IsFresh(k) && r.Some? && r.value.status.Owed?);
    }
  }

  /** A parked record waits in the table of the running process. */
  ghost predicate Covered(l: Ledger, k: string) {
    forall r :: MayStand(l.log, k, r) && Parked(r) ==> k in l.table
  }

  /** k holds a stored record no longer owed, whatever a stop may do. */
  ghost predicate Discharged(l: Ledger, k: string) {
    k in l.log.stored && forall r :: MayStand(l.log, k, r) ==> !Sendable(r)
  }

  // --- calls and runs ---

  datatype Call =
    | DeliverCall
    | HandoffCall
    | ApproveCall(id: string)
    | RefuseCall(id: string)
    | StopCall
    | BootCall(entry: string)

  /** What one call of the host may do to the ledger. */
  ghost predicate CallMoves(s: Ledger, c: Call, t: Ledger) {
    && Inv(t) && (t.up ==> SeqCovers(t)) && Keeps(s, t)
    && t.entry == (if c.BootCall? then c.entry else s.entry)
    && (forall k :: EntryBody(s, k) && EntryBody(t, k) ==> Paid(s, t, k))
    && (forall k :: Reads(t, k, Refused) && !Reads(s, k, Refused) ==> c == RefuseCall(k))
    && (forall k :: Reads(t, k, Headless) && !Reads(s, k, Headless) ==>
        c.BootCall? && k in t.origin && t.origin[k].target.agent != c.entry)
  }

  /** A run from a first boot: what stands before it was accepted by no channel and met
      no fault. */
  ghost predicate IsRun(states: seq<Ledger>, calls: seq<Call>) {
    && |states| == |calls| + 1
    && Inv(states[0]) && states[0].faults == 0 && states[0].log == Empty() && !states[0].up
    && (forall k :: Accepted(states[0], k) == 0)
    && (forall i :: 0 <= i < |calls| ==> CallMoves(states[i], calls[i], states[i + 1]))
  }

  /** The entry named by every boot of the run. */
  ghost predicate EntryFixed(states: seq<Ledger>, entry: string) {
    forall i :: 0 <= i < |states| ==> states[i].entry == entry
  }

  lemma {:induction false} RunPrefix(states: seq<Ledger>, calls: seq<Call>)
    requires IsRun(states, calls) && |calls| > 0
    ensures IsRun(states[..|calls|], calls[..|calls| - 1])
    ensures CallMoves(states[|calls| - 1], calls[|calls| - 1], states[|calls|])
  {
    var init := calls[..|calls| - 1];
    forall i | 0 <= i < |init| ensures CallMoves(states[..|calls|][i], init[i], states[..|calls|][i + 1]) {
      assert CallMoves(states[i], calls[i], states[i + 1]);
    }
  }

  /** Bounded duplication: over any run under one entry, the channel accepts one keyed
      body of that entry at most once more than durable calls failed or were cut. */
  lemma {:induction false} AcceptedBounded(states: seq<Ledger>, calls: seq<Call>, k: string)
    requires IsRun(states, calls) && EntryFixed(states, states[0].entry)
    requires EntryBody(states[0], k)
    ensures EntryBody(states[|calls|], k)
    ensures Accepted(states[|calls|], k) + Credit(states[|calls|], k) <= 1 + states[|calls|].faults
  {
    if |calls| == 0 {
      assert Credit(states[0], k) <= 1;
    } else {
      RunPrefix(states, calls);
      AcceptedBounded(states[..|calls|], calls[..|calls| - 1], k);
      assert EntryBody(states[|calls|], k);
    }
  }

  /** No lost obligation: a stored record stays stored under the same content and target
      through every later call of the run, restarts included. */
  lemma {:induction false} ObligationKept(states: seq<Ledger>, calls: seq<Call>, at: nat, k: string)
    requires IsRun(states, calls) && at <= |calls| && k in states[at].log.stored
    ensures k in states[|calls|].log.stored
    ensures states[|calls|].log.stored[k].delivery.body == states[at].log.stored[k].delivery.body
  {
    if at < |calls| {
      RunPrefix(states, calls);
      ObligationKept(states[..|calls|], calls[..|calls| - 1], at, k);
    }
  }

  /** Some boot of the run declared another entry than the target of k. */
  ghost predicate RetiredElsewhere(states: seq<Ledger>, calls: seq<Call>, k: string)
    requires |states| == |calls| + 1
  {
    exists i :: 0 <= i < |calls| && calls[i].BootCall? && k in states[i + 1].origin &&
      states[i + 1].origin[k].target.agent != calls[i].entry
  }

  /** A closing status has its cause in the run: sent is backed by an acceptance, refused
      by a refusal naming the identity, headless by a boot under another entry. */
  lemma {:induction false} ClosedForCause(states: seq<Ledger>, calls: seq<Call>, k: string)
    requires IsRun(states, calls)
    ensures Reads(states[|calls|], k, Sent) ==> Accepted(states[|calls|], k) > 0
    ensures Reads(states[|calls|], k, Refused) ==> RefuseCall(k) in calls
    ensures Reads(states[|calls|], k, Headless) ==> IsFresh(k) && RetiredElsewhere(states, calls, k)
  {
    if |calls| > 0 {
      RunPrefix(states, calls);
      ClosedForCause(states[..|calls|], calls[..|calls| - 1], k);
      var n := |calls| - 1;
      assert CallMoves(states[n], calls[n], states[n + 1]);
      assert forall c :: c in calls[..n] ==> c in calls;
      if Reads(states[n + 1], k, Headless) && !Reads(states[n], k, Headless) {
        assert calls[n].BootCall?;
      }
    }
  }
}
