// The replay of unconfirmed deliveries: an obligation the target accepted once is
// delivered nothing again, however often it is handed in.
module ReplayEngine {
  import opened Core

  /** The stable identity a confirmed delivery is recognized by. */
  datatype DeliveryId = DeliveryId(task: string, round: int, kind: string, number: int)

  datatype Record = Record(id: DeliveryId, source: Address, target: Address)

  datatype Result = Skipped | Refused | Delivered(owner: string)

  datatype Outcome = Outcome(delivery: Record, result: Result)

  /** What the resolver and the sink of a call answer one obligation with. */
  datatype Answer = Answer(owner: Option<string>, accepted: bool)

  datatype Report = Unwired | Report(outcomes: seq<Outcome>)

  /** How often the sink accepted an identity within one report. */
  function DeliveredCount(outcomes: seq<Outcome>, id: DeliveryId): nat {
    if outcomes == [] then 0
    else
      var last := outcomes[|outcomes| - 1];
      DeliveredCount(outcomes[..|outcomes| - 1], id) + if last.delivery.id == id && last.result.Delivered? then 1 else 0
  }

  /** The identities a report delivered. */
  function DeliveredIds(outcomes: seq<Outcome>): (ids: set<DeliveryId>)
    ensures forall id :: id in ids <==> exists o :: o in outcomes && o.result.Delivered? && o.delivery.id == id
  {
    set o | o in outcomes && o.result.Delivered? :: o.delivery.id
  }

  /** What one replay answers: one outcome for each obligation in order; an obligation is
      skipped exactly when its identity was confirmed before or delivered earlier in the same
      call, and delivered exactly when it was not skipped, located and accepted; and the
      confirmed set grows by exactly what was delivered. */
  ghost predicate Answers(before: set<DeliveryId>, pending: seq<Record>, answers: seq<Answer>, outcomes: seq<Outcome>, after: set<DeliveryId>) {
    && |outcomes| == |pending| == |answers|
    && (forall i :: 0 <= i < |pending| ==> outcomes[i].delivery == pending[i])
    && (forall i :: 0 <= i < |pending| ==>
        (outcomes[i].result.Skipped? <==> pending[i].id in before + DeliveredIds(outcomes[..i])))
    && (forall i :: 0 <= i < |pending| && !outcomes[i].result.Skipped? ==> outcomes[i].result == Judged(answers[i]))
    && after == before + DeliveredIds(outcomes)
  }

  function Judged(a: Answer): Result { if a.owner.Some? && a.accepted then Delivered(a.owner.value) else Refused }

  class Replay {
    var confirmed: set<DeliveryId>

    constructor ()
      ensures confirmed == {}
    {
      confirmed := {};
    }

    method Ack(id: DeliveryId)
      modifies this
      ensures confirmed == old(confirmed) + {id}
    {
      confirmed := confirmed + {id};
    }

    /** One obligation after the other, whatever the resolver and the sink answer. */
    method Run(wired: bool, pending: seq<Record>, answers: seq<Answer>) returns (report: Report)
      requires |answers| == |pending|
      modifies this
      ensures !wired ==> report.Unwired? && confirmed == old(confirmed)
      ensures wired ==> report.Report? && Answers(old(confirmed), pending, answers, report.outcomes, confirmed)
    {
      if !wired { return Unwired; }
      var outcomes: seq<Outcome> := [];
      for i := 0 to |pending|
        invariant |outcomes| == i
        invariant forall j :: 0 <= j < i ==> outcomes[j].delivery == pending[j]
        invariant forall j :: 0 <= j < i ==>
                    (outcomes[j].result.Skipped? <==> pending[j].id in old(confirmed) + DeliveredIds(outcomes[..j]))
        invariant forall j :: 0 <= j < i && !outcomes[j].result.Skipped? ==> outcomes[j].result == Judged(answers[j])
        invariant confirmed == old(confirmed) + DeliveredIds(outcomes)
      {
        var rec := pending[i];
        ghost var so := outcomes;
        var result := Refused;
        if rec.id in confirmed {
          result := Skipped;
        } else {
          var answer := answers[i];
          if answer.owner.Some? {
            if answer.accepted {
              Ack(rec.id);
              result := Delivered(answer.owner.value);
            }
          }
        }
        outcomes := outcomes + [Outcome(rec, result)];
        assert outcomes[..i] == so;
        assert forall j :: 0 <= j < i ==> outcomes[..j] == so[..j];
      }
      report := Report(outcomes);
    }
  }

  /** Within one call an identity is delivered once if it joined the confirmed set, and never
      if it was in it before. */
  lemma {:induction false} DeliveredOnce(before: set<DeliveryId>, pending: seq<Record>, answers: seq<Answer>, outcomes: seq<Outcome>, after: set<DeliveryId>, id: DeliveryId)
    requires Answers(before, pending, answers, outcomes, after)
    ensures DeliveredCount(outcomes, id) == if id in after && id !in before then 1 else 0
    ensures before <= after
  {
    if outcomes != [] {
      var n := |outcomes| - 1;
      var init := outcomes[..n];
      IdsStep(outcomes);
      AnswersPrefix(before, pending, answers, outcomes, after);
      hide DeliveredIds;
      DeliveredOnce(before, pending[..n], answers[..n], init, before + DeliveredIds(init), id);
      assert outcomes[n].result.Skipped? <==> pending[n].id in before + DeliveredIds(outcomes[..n]);
    } else {
      assert DeliveredIds(outcomes) == {};
    }
  }

  lemma AnswersPrefix(before: set<DeliveryId>, pending: seq<Record>, answers: seq<Answer>, outcomes: seq<Outcome>, after: set<DeliveryId>)
    requires Answers(before, pending, answers, outcomes, after) && outcomes != []
    ensures var n := |outcomes| - 1;
            Answers(before, pending[..n], answers[..n], outcomes[..n], before + DeliveredIds(outcomes[..n]))
  {
    hide DeliveredIds;
    var n := |outcomes| - 1;
    var init := outcomes[..n];
    forall i | 0 <= i < n
      ensures init[i].result.Skipped? <==> pending[..n][i].id in before + DeliveredIds(init[..i])
    {
      assert init[..i] == outcomes[..i];
    }
  }

  lemma IdsStep(outcomes: seq<Outcome>)
    requires outcomes != []
    ensures var init, last := outcomes[..|outcomes| - 1], outcomes[|outcomes| - 1];
            DeliveredIds(outcomes) == DeliveredIds(init) + if last.result.Delivered? then {last.delivery.id} else {}
  {
    var init, last := outcomes[..|outcomes| - 1], outcomes[|outcomes| - 1];
    assert forall o :: o in outcomes <==> o in init || o == last;
  }

  /** The reports of a sequence of calls, each from the confirmed set the last one left;
      between calls acceptances may be acknowledged from outside. */
  ghost predicate IsRun(sets: seq<set<DeliveryId>>, starts: seq<set<DeliveryId>>, calls: seq<seq<Record>>, answers: seq<seq<Answer>>, reports: seq<seq<Outcome>>) {
    && |sets| == |calls| + 1 && |starts| == |calls| == |answers| == |reports|
    && (forall i :: 0 <= i < |calls| ==> sets[i] <= starts[i] && Answers(starts[i], calls[i], answers[i], reports[i], sets[i + 1]))
  }

  function TotalDelivered(reports: seq<seq<Outcome>>, id: DeliveryId): nat {
    if reports == [] then 0
    else TotalDelivered(reports[..|reports| - 1], id) + DeliveredCount(reports[|reports| - 1], id)
  }

  /** Over any sequence of replays, with duplicates in one call and any answers of resolver
      and sink, a sink accepts one identity at most once. */
  lemma {:induction false} AcceptedAtMostOnce(sets: seq<set<DeliveryId>>, starts: seq<set<DeliveryId>>, calls: seq<seq<Record>>, answers: seq<seq<Answer>>, reports: seq<seq<Outcome>>, id: DeliveryId)
    requires IsRun(sets, starts, calls, answers, reports)
    ensures TotalDelivered(reports, id) <= 1
    ensures TotalDelivered(reports, id) == 1 ==> id in sets[|calls|] && id !in sets[0]
    ensures sets[0] <= sets[|calls|]
  {
    if |calls| > 0 {
      var n := |calls| - 1;
      AcceptedAtMostOnce(sets[..|calls|], starts[..n], calls[..n], answers[..n], reports[..n], id);
      DeliveredOnce(starts[n], calls[n], answers[n], reports[n], sets[n + 1], id);
    }
  }
}
