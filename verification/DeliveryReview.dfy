// What a delivery asks of the outside: the ruling of the review and the answer of
// the channel, in the order they were asked.
module DeliveryReview {
  import opened Core
  import opened DeliveryIds
  import opened DeliveryLedger
  import opened DeliverySteps
  import opened FactLog

  datatype Ruling = RuleFailed | RuleHold | RuleAllow | RuleRecord | RuleUnknown

  datatype Exchange =
    | Ruled(delivery: Delivery, ruling: Ruling)
    | Asked(body: Body, accepted: bool)

  /** The channel was asked for one body, and its answer decides the outcome. */
  ghost predicate OneSend(t: seq<Exchange>, body: Body, outcome: Outcome) {
    && |t| == 1 && t[0].Asked? && t[0].body == body
    && (t[0].accepted <==> outcome.DeliverySent?)
    && (!t[0].accepted <==> outcome.DeliveryRefused?)
  }

  /** The exchanges of one delivery. A host beside no sender asks nobody. Otherwise the
      ruler, where there is one, is asked for this very delivery; the channel is asked for
      its body behind an allowing or recording ruling and behind no other, and every other
      ruling holds the body. */
  ghost predicate Reviewed(t: seq<Exchange>, delivery: Delivery, hasSender: bool, hasRuler: bool, outcome: Outcome) {
    && (!hasSender ==> t == [] && outcome.SenderMissing?)
    && (hasSender && !hasRuler ==> OneSend(t, delivery.body, outcome))
    && (hasSender && hasRuler ==>
        && |t| > 0 && t[0].Ruled? && t[0].delivery == delivery
        && (t[0].ruling == RuleAllow || t[0].ruling == RuleRecord ==> OneSend(t[1..], delivery.body, outcome))
        && (t[0].ruling != RuleAllow && t[0].ruling != RuleRecord ==> |t| == 1 && outcome.DeliveryHeld?))
  }

  /** The exchanges of a list of deliveries: one after the other, each reviewed once. */
  ghost predicate Conversed(t: seq<Exchange>, deliveries: seq<Delivery>, hasSender: bool, hasRuler: bool)
    decreases |deliveries|, 1
  {
    if deliveries == [] then t == []
    else exists k: nat, outcome :: ConversedAt(t, deliveries, hasSender, hasRuler, k, outcome)
  }

  /** The exchanges of the last delivery start at k. */
  ghost predicate ConversedAt(t: seq<Exchange>, deliveries: seq<Delivery>, hasSender: bool, hasRuler: bool, k: nat, outcome: Outcome)
    requires deliveries != []
    decreases |deliveries|, 0
  {
    && k <= |t|
    && Conversed(t[..k], deliveries[..|deliveries| - 1], hasSender, hasRuler)
    && Reviewed(t[k..], deliveries[|deliveries| - 1], hasSender, hasRuler, outcome)
  }

  lemma OneSent(before: seq<Exchange>, now: seq<Exchange>, body: Body, accepted: bool, outcome: Outcome)
    requires now == before + [Asked(body, accepted)]
    requires (accepted <==> outcome.DeliverySent?) && (!accepted <==> outcome.DeliveryRefused?)
    ensures before <= now && OneSend(now[|before|..], body, outcome)
  {
  }

  /** A ruling that lets nothing pass holds the body. */
  lemma ReviewedHold(before: seq<Exchange>, now: seq<Exchange>, delivery: Delivery, ruling: Ruling, ok: bool)
    requires now == before + [Ruled(delivery, ruling)] && ruling != RuleAllow && ruling != RuleRecord
    ensures before <= now && Reviewed(now[|before|..], delivery, true, true, DeliveryHeld(ok))
  {
    assert now[|before|..] == [Ruled(delivery, ruling)];
  }

  /** Behind a ruling that lets the body pass the channel decides. */
  lemma ReviewedSend(before: seq<Exchange>, ruled: seq<Exchange>, now: seq<Exchange>, delivery: Delivery, ruling: Ruling, outcome: Outcome)
    requires ruled == before + [Ruled(delivery, ruling)] && (ruling == RuleAllow || ruling == RuleRecord)
    requires ruled <= now && OneSend(now[|ruled|..], delivery.body, outcome)
    ensures before <= now && Reviewed(now[|before|..], delivery, true, true, outcome)
  {
    assert now[|before|] == ruled[|before|];
    assert now[|before|..][1..] == now[|ruled|..];
  }

  lemma ConversedStep(t: seq<Exchange>, deliveries: seq<Delivery>, more: seq<Exchange>, delivery: Delivery, hasSender: bool, hasRuler: bool, outcome: Outcome)
    requires Conversed(t, deliveries, hasSender, hasRuler) && Reviewed(more, delivery, hasSender, hasRuler, outcome)
    ensures Conversed(t + more, deliveries + [delivery], hasSender, hasRuler)
  {
    var all, k := deliveries + [delivery], |t|;
    assert all[..|all| - 1] == deliveries && all[|all| - 1] == delivery;
    assert (t + more)[..k] == t && (t + more)[k..] == more;
    assert ConversedAt(t + more, all, hasSender, hasRuler, k, outcome);
  }

  /** Beside no sender nobody is asked, and beside no ruler the channel is asked for every
      body, in order, and for nothing else. */
  lemma {:induction false} UnreviewedAsksAll(t: seq<Exchange>, deliveries: seq<Delivery>, hasSender: bool, hasRuler: bool)
    requires Conversed(t, deliveries, hasSender, hasRuler)
    ensures !hasSender ==> t == []
    ensures hasSender && !hasRuler ==>
              |t| == |deliveries| && forall i :: 0 <= i < |t| ==> t[i].Asked? && t[i].body == deliveries[i].body
    decreases |deliveries|
  {
    if deliveries != [] {
      var k: nat, outcome :| ConversedAt(t, deliveries, hasSender, hasRuler, k, outcome);
      UnreviewedAsksAll(t[..k], deliveries[..|deliveries| - 1], hasSender, hasRuler);
      assert t == t[..k] + t[k..];
    }
  }

  /** No body is sent that the review did not let pass: beside a ruler, whatever the channel
      was asked for stands right behind an allowing or recording ruling on it. */
  lemma {:induction false} SentIsAllowed(t: seq<Exchange>, deliveries: seq<Delivery>, hasSender: bool, i: nat)
    requires Conversed(t, deliveries, hasSender, true) && i < |t| && t[i].Asked?
    ensures i > 0 && t[i - 1].Ruled? && t[i - 1].delivery.body == t[i].body
    ensures t[i - 1].ruling == RuleAllow || t[i - 1].ruling == RuleRecord
    decreases |deliveries|
  {
    if deliveries != [] {
      var k: nat, outcome :| ConversedAt(t, deliveries, hasSender, true, k, outcome);
      if i < k {
        SentIsAllowed(t[..k], deliveries[..|deliveries| - 1], hasSender, i);
      } else {
        assert t[k..][i - k] == t[i];
        assert hasSender && i - k == 1 && t[k..][0] == t[k];
      }
    }
  }

  /** The deliveries of the bodies of one address, in order. */
  function DeliveriesOf(addr: Address, lineage: string, bodies: seq<FreshBody>): (deliveries: seq<Delivery>)
    ensures |deliveries| == |bodies|
    ensures forall i :: 0 <= i < |bodies| ==> deliveries[i] == Delivery(Body(bodies[i].content, addr), lineage)
  {
    seq(|bodies|, i requires 0 <= i < |bodies| => Delivery(Body(bodies[i].content, addr), lineage))
  }

  /** The deliveries of stored records, in the order they are read. */
  ghost function RecordDeliveries(records: map<string, Record>, keys: seq<string>): (deliveries: seq<Delivery>)
    requires forall k :: k in keys ==> k in records
    ensures |deliveries| == |keys|
    ensures forall i :: 0 <= i < |keys| ==> deliveries[i] == records[keys[i]].delivery
  {
    seq(|keys|, i requires 0 <= i < |keys| => records[keys[i]].delivery)
  }

  lemma NothingConversed(before: seq<Exchange>, deliveries: seq<Delivery>, hasSender: bool, hasRuler: bool)
    ensures Conversed(before[|before|..], deliveries[..0], hasSender, hasRuler)
  {
  }

  lemma OneConversed(t: seq<Exchange>, delivery: Delivery, hasSender: bool, hasRuler: bool, outcome: Outcome)
    requires Reviewed(t, delivery, hasSender, hasRuler, outcome)
    ensures Conversed(t, [delivery], hasSender, hasRuler)
  {
    hide Reviewed;
    assert Conversed([], [], hasSender, hasRuler);
    ConversedStep([], [], t, delivery, hasSender, hasRuler, outcome);
    assert [] + t == t && [] + [delivery] == [delivery];
  }

  lemma {:induction false} SilentConversed(deliveries: seq<Delivery>, hasRuler: bool)
    ensures Conversed([], deliveries, false, hasRuler)
  {
    if deliveries != [] {
      var n := |deliveries| - 1;
      SilentConversed(deliveries[..n], hasRuler);
      assert Reviewed([], deliveries[n], false, hasRuler, SenderMissing);
      hide *;
      var none: seq<Exchange> := [];
      ConversedStep(none, deliveries[..n], none, deliveries[n], false, hasRuler, SenderMissing);
      assert deliveries[..n] + [deliveries[n]] == deliveries && none + none == none;
    }
  }

  /** One more delivery of a list. */
  lemma ConversedOn(before: seq<Exchange>, had: seq<Exchange>, now: seq<Exchange>, deliveries: seq<Delivery>, i: nat, hasSender: bool, hasRuler: bool, outcome: Outcome)
    requires before <= had <= now && i < |deliveries|
    requires Conversed(had[|before|..], deliveries[..i], hasSender, hasRuler)
    requires Reviewed(now[|had|..], deliveries[i], hasSender, hasRuler, outcome)
    ensures Conversed(now[|before|..], deliveries[..i + 1], hasSender, hasRuler)
  {
    ConversedStep(had[|before|..], deliveries[..i], now[|had|..], deliveries[i], hasSender, hasRuler, outcome);
    assert had[|before|..] + now[|had|..] == now[|before|..];
    assert deliveries[..i] + [deliveries[i]] == deliveries[..i + 1];
  }

  // --- what a confirmed registration leaves to send ---

  /** The bodies left to send are bodies of the turn in their order, each a send the account
      still owes; beside a log with nothing staged they leave out only the unkeyed bodies and
      those whose stored record stands under a later state. */
  ghost predicate OwedAnswer(s: Ledger, addr: Address, bodies: seq<FreshBody>, owed: seq<FreshBody>) {
    && s.tiered && addr.agent == s.entry && InOrder(owed, bodies)
    && (forall b :: b in owed ==> b.fact != "" && OwedCredit(s, FreshId(b.fact)) == 1)
    && (s.log.staged == map[] ==> forall b :: b in bodies && b.fact != "" && b !in owed ==>
        FreshId(b.fact) in s.log.stored && !s.log.stored[FreshId(b.fact)].status.Owed?)
  }

  lemma OwedAnswered(s: Ledger, addr: Address, bodies: seq<FreshBody>, owed: seq<FreshBody>, t: Ledger)
    requires RegistrationAnswer(s, addr, bodies, owed, t) && OwedStaged(s, t)
    requires s.tiered && addr.agent == s.entry && bodies != []
    ensures OwedAnswer(s, addr, bodies, owed)
  {
    if s.log.staged == map[] {
      forall b | b in bodies && b.fact != "" && b !in owed
        ensures FreshId(b.fact) in s.log.stored && !s.log.stored[FreshId(b.fact)].status.Owed?
      {
        var k := FreshId(b.fact);
        assert MayStand(t.log, k, Some(t.log.stored[k]));
      }
    }
  }

  lemma HeldAnswers(s: Ledger, obligation: string, delivery: Delivery, ok: bool, t: Ledger)
    requires HoldAnswer(s, obligation, delivery, Held, ok, t)
    ensures DeliverAnswer(s, obligation, delivery, DeliveryHeld(ok), t)
  {
  }
}
