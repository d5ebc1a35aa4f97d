// The committed body of one event and the judgment whether two bodies name one
// fact: what the fact itself says must agree, a stamp a caller may declare must
// agree only where both sides declare it, and what the commit generates decides
// nothing.
module EventBody {
  import opened Core

  datatype Kind =
    | AgentOutput
    | ExternalInput
    | Feedback
    | ThinkingPlan
    | ActionCommand
    | CompressProduct
    | ConfigChange
    | FinalRoundRequest
    | OtherKind(name: string)

  datatype ToolCall = ToolCall(id: string, name: string, arguments: string)

  datatype Message = Message(role: string, content: string, calls: seq<ToolCall>, toolId: string, toolName: string)

  const NANOS_IN_A_MILLI := 1_000_000

  /** time counts nanoseconds. */
  datatype Event = Event(
    key: string, kind: Kind, time: int, meta: map<string, string>, message: Message,
    owner: Address, source: Address, target: Address,
    invocation: string, task: string, instance: string, episode: string,
    decision: string, attempt: string, call: string, approval: string)

  /** timestamp counts milliseconds. */
  datatype Body = Body(
    key: string, kind: Kind, timestamp: int, owner: Address, format: string, retention: string,
    meta: map<string, string>, message: Message, source: Address, target: Address,
    invocation: string, task: string, instance: string, episode: string,
    decision: string, attempt: string, call: string, approval: string)

  function UnixMilli(time: int): int { time / NANOS_IN_A_MILLI }

  /** BodyFromEvent: an event that carries no key is refused. */
  function BodyFromEvent(e: Event, format: string, retention: string): Option<Body> {
    if e.key == "" then None
    else Some(Body(e.key, e.kind, UnixMilli(e.time), e.owner, format, retention, e.meta, e.message, e.source, e.target,
                   e.invocation, e.task, e.instance, e.episode, e.decision, e.attempt, e.call, e.approval))
  }

  function EventOf(b: Body): Event {
    Event(b.key, b.kind, b.timestamp * NANOS_IN_A_MILLI, b.meta, b.message, b.owner, b.source, b.target,
          b.invocation, b.task, b.instance, b.episode, b.decision, b.attempt, b.call, b.approval)
  }

  /** A restored event projects to the very body it was restored from. */
  lemma BodyRoundTrip(b: Body)
    requires b.key != ""
    ensures BodyFromEvent(EventOf(b), b.format, b.retention) == Some(b)
  {
    assert (b.timestamp * NANOS_IN_A_MILLI) / NANOS_IN_A_MILLI == b.timestamp;
  }

  /** A committed event reads back as it stood but for the part of its time below one
      millisecond, so it reads back unchanged exactly when it carried none. */
  lemma EventRoundTrip(e: Event, format: string, retention: string)
    requires e.key != ""
    ensures var back := EventOf(BodyFromEvent(e, format, retention).value);
            && back == e.(time := back.time)
            && back.time <= e.time < back.time + NANOS_IN_A_MILLI
            && (back == e <==> e.time % NANOS_IN_A_MILLI == 0)
  {
    assert e.time == (e.time / NANOS_IN_A_MILLI) * NANOS_IN_A_MILLI + e.time % NANOS_IN_A_MILLI;
  }

  /** canonical: the body its own event projects to, without what the commit generates and
      without the stamps that are compared pairwise. */
  function Canonical(b: Body): Option<Body> {
    var body := BodyFromEvent(EventOf(b), b.format, b.retention);
    if body.None? then None
    else
      var zero := Address("", "");
      Some(body.value.(timestamp := 0, invocation := "", instance := "", format := "", retention := "",
                       source := zero, target := zero, task := ""))
  }

  predicate UnstatedRange(stamp: Address, owner: Address) { stamp.IsZero() || stamp == owner }

  predicate SameRangeStamp(left: Address, leftOwner: Address, right: Address, rightOwner: Address) {
    if UnstatedRange(left, leftOwner) || UnstatedRange(right, rightOwner) then true else left == right
  }

  predicate SameTaskStamp(left: string, right: string) {
    if left == "" || right == "" then true else left == right
  }

  predicate SameFact(a: Body, b: Body) {
    var left, right := Canonical(a), Canonical(b);
    && left.Some? && right.Some? && left == right
    && SameRangeStamp(a.source, a.owner, b.source, b.owner)
    && SameRangeStamp(a.target, a.owner, b.target, b.owner)
    && SameTaskStamp(a.task, b.task)
  }

  lemma SameFactReflexive(b: Body)
    ensures SameFact(b, b) <==> b.key != ""
  {
  }

  lemma SameFactSymmetric(a: Body, b: Body)
    ensures SameFact(a, b) == SameFact(b, a)
  {
  }

  /** Every stamp a caller may declare is declared. */
  predicate Declared(b: Body) {
    && !UnstatedRange(b.source, b.owner) && !UnstatedRange(b.target, b.owner) && b.task != ""
  }

  /** What the judgment reads of a body beside its declared stamps. */
  lemma CanonicalReads(a: Body, b: Body)
    requires a.key != "" && b.key != ""
    ensures Canonical(a) == Canonical(b) <==>
              && a.key == b.key && a.kind == b.kind && a.owner == b.owner && a.meta == b.meta && a.message == b.message
              && a.episode == b.episode && a.decision == b.decision && a.attempt == b.attempt
              && a.call == b.call && a.approval == b.approval
  {
    var x, y := Canonical(a).value, Canonical(b).value;
    assert x.key == a.key && y.key == b.key;
    assert x.kind == a.kind && y.kind == b.kind && x.owner == a.owner && y.owner == b.owner;
    assert x.meta == a.meta && y.meta == b.meta && x.message == a.message && y.message == b.message;
    assert x.episode == a.episode && y.episode == b.episode && x.decision == a.decision && y.decision == b.decision;
    assert x.attempt == a.attempt && y.attempt == b.attempt && x.call == a.call && y.call == b.call;
    assert x.approval == a.approval && y.approval == b.approval;
  }

  function Somewhere(owner: Address, n: nat): (a: Address)
    ensures !UnstatedRange(a, owner)
    ensures |a.agent| == |owner.agent| + n + 1
  {
    Address(owner.agent + seq(n + 1, _ => 'x'), owner.session)
  }

  /** A chain of same facts through b always closes exactly when b declares every stamp: an
      unstated stamp of b lets two facts that disagree on it both pass as b. */
  lemma TransitiveThrough(b: Body)
    requires b.key != ""
    ensures Declared(b) <==> forall a, c :: SameFact(a, b) && SameFact(b, c) ==> SameFact(a, c)
  {
    if Declared(b) {
      forall a, c | SameFact(a, b) && SameFact(b, c) ensures SameFact(a, c) {
        CanonicalReads(a, b);
        CanonicalReads(b, c);
      }
    } else {
      var a, c := Opposed(b);
      CanonicalReads(a, b);
      CanonicalReads(b, c);
      assert SameFact(a, b) && SameFact(b, c) && !SameFact(a, c);
    }
  }

  /** Two facts that pass as b and disagree on a stamp b left unstated. */
  lemma Opposed(b: Body) returns (a: Body, c: Body)
    requires b.key != "" && !Declared(b)
    ensures SameFact(a, b) && SameFact(b, c) && !SameFact(a, c)
  {
    var p, q := Somewhere(b.owner, 0), Somewhere(b.owner, 1);
    if UnstatedRange(b.source, b.owner) {
      a, c := b.(source := p), b.(source := q);
    } else if UnstatedRange(b.target, b.owner) {
      a, c := b.(target := p), b.(target := q);
    } else {
      a, c := b.(task := "a"), b.(task := "b");
    }
    CanonicalReads(a, b);
    CanonicalReads(b, c);
  }

  /** The two stamps read alike: both unstated, or the same address. */
  predicate StampsAlike(left: Address, leftOwner: Address, right: Address, rightOwner: Address) {
    if UnstatedRange(left, leftOwner) then UnstatedRange(right, rightOwner)
    else !UnstatedRange(right, rightOwner) && left == right
  }

  predicate DeclareAlike(a: Body, b: Body) {
    && StampsAlike(a.source, a.owner, b.source, b.owner) && StampsAlike(a.target, a.owner, b.target, b.owner)
    && a.task == b.task
  }

  /** Two bodies of one fact judge every later commit alike exactly when they declare the
      same stamps. A trimmed fact that was committed again under other stamps leaves a live
      copy that answers another judgment than the durable record does. */
  lemma JudgeAlike(a: Body, b: Body)
    requires SameFact(a, b)
    ensures DeclareAlike(a, b) <==> forall e :: SameFact(a, e) == SameFact(b, e)
  {
    CanonicalReads(a, b);
    if DeclareAlike(a, b) {
      forall e ensures SameFact(a, e) == SameFact(b, e) {}
    } else {
      var e := Judged(a, b);
      assert SameFact(a, e) != SameFact(b, e);
    }
  }

  /** A commit one of the two bodies takes as its own fact and the other refuses. */
  lemma Judged(a: Body, b: Body) returns (e: Body)
    requires SameFact(a, b) && !DeclareAlike(a, b)
    ensures SameFact(a, e) != SameFact(b, e)
  {
    CanonicalReads(a, b);
    var elsewhere := Somewhere(a.owner, |a.source.agent| + |b.source.agent| + |a.target.agent| + |b.target.agent|);
    var zero := Address("", "");
    var base := a.(source := zero, target := zero, task := "");
    if !StampsAlike(a.source, a.owner, b.source, b.owner) {
      e := base.(source := elsewhere);
    } else if !StampsAlike(a.target, a.owner, b.target, b.owner) {
      e := base.(target := elsewhere);
    } else {
      e := base.(task := a.task + b.task + "x");
    }
    CanonicalReads(a, e);
    CanonicalReads(b, e);
  }

  /** The judgment is not transitive. */
  lemma SameFactNotTransitive() returns (a: Body, b: Body, c: Body)
    ensures SameFact(a, b) && SameFact(b, c) && !SameFact(a, c)
  {
    var owner, none := Address("entry", "s"), Address("", "");
    b := Body("k", Feedback, 0, owner, "", "", map[], Message("user", "m", [], "", ""), none, none, "", "", "", "", "", "", "", "");
    a, c := Opposed(b);
  }
}
