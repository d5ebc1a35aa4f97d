// The bodies of one notification as the hot window of its session answers them: the
// assistant texts committed under the invocation the notification names, in chain
// order, and what a position of the chain says about the read.
module TurnBodies {
  import opened Core
  import opened DeliverySteps
  import opened EventBody
  import opened FactWindow
  import opened GeneratedBodies

  /** noticeInvocation: the invocation every turn of a notification runs under. */
  function NoticeInvocation(n: string): string { "notice:" + n }

  predicate IsSpace(c: char) { c == ' ' || c == '\t' || c == '\n' || c == '\r' }

  function TrimSpace(s: string): string {
    if s == "" then ""
    else if IsSpace(s[0]) then TrimSpace(s[1..])
    else if IsSpace(s[|s| - 1]) then TrimSpace(s[..|s| - 1])
    else s
  }

  /** The fact carries a body of n at addr. */
  predicate IsBody(e: Event, addr: Address, n: string) {
    && e.invocation == NoticeInvocation(n)
    && (addr.agent != "" ==> AgentOf(e) == addr.agent)
    && e.message.role == "assistant" && e.message.calls == [] && TrimSpace(e.message.content) != ""
  }

  function BodyFact(e: Event): FreshBody { FreshBody(e.key, TrimSpace(e.message.content)) }

  /** The bodies of n among the given facts, in their order. */
  function BodiesAt(l: seq<Event>, addr: Address, n: string): (bodies: seq<FreshBody>)
    ensures forall f :: f in bodies <==> exists i :: 0 <= i < |l| && IsBody(l[i], addr, n) && f == BodyFact(l[i])
  {
    if l == [] then []
    else
      var init, last := BodiesAt(l[..|l| - 1], addr, n), l[|l| - 1];
      if IsBody(last, addr, n) then init + [BodyFact(last)] else init
  }

  /** SessionFacts: the live facts of one address. */
  function SessionFacts(c: seq<Event>, addr: Address): seq<Event> {
    Filter(Window(c), (e: Event) => addr.agent == "" || AgentOf(e) == addr.agent)
  }

  function TurnFactOf(e: Event): TurnFact {
    TurnFact(e.key, e.invocation, e.kind.AgentOutput?, None,
             e.message.role == "assistant", e.message.calls != [], TrimSpace(e.message.content))
  }

  function TurnFacts(l: seq<Event>): (facts: seq<TurnFact>)
    ensures |facts| == |l| && forall i :: 0 <= i < |l| ==> facts[i] == TurnFactOf(l[i])
  {
    seq(|l|, i requires 0 <= i < |l| => TurnFactOf(l[i]))
  }

  lemma {:induction false} BodiesDistinct(l: seq<Event>, addr: Address, n: string)
    requires DistinctKeys(l)
    ensures DistinctFacts(BodiesAt(l, addr, n))
  {
    if l != [] {
      var init, last := l[..|l| - 1], l[|l| - 1];
      BodiesDistinct(init, addr, n);
      forall f | f in BodiesAt(init, addr, n) ensures f.fact != last.key {
        var i :| 0 <= i < |init| && IsBody(init[i], addr, n) && f == BodyFact(init[i]);
        assert l[i] == init[i];
      }
    }
  }

  lemma {:induction false} BodiesOfAddress(l: seq<Event>, addr: Address, n: string)
    ensures BodiesAt(Filter(l, (e: Event) => addr.agent == "" || AgentOf(e) == addr.agent), addr, n) == BodiesAt(l, addr, n)
  {
    hide TrimSpace;
    if l != [] {
      var init, last := l[..|l| - 1], l[|l| - 1];
      var p := (e: Event) => addr.agent == "" || AgentOf(e) == addr.agent;
      BodiesOfAddress(init, addr, n);
      if p(last) {
        var kept := Filter(init, p);
        assert (kept + [last])[..|kept|] == kept;
      }
    }
  }

  /** Over facts of distinct identities the first body under each key is every body. */
  lemma {:induction false} LeadingIsAll(l: seq<Event>, addr: Address, n: string, k: nat)
    requires DistinctKeys(l) && k <= |l|
    requires forall e :: e in l ==> addr.agent == "" || AgentOf(e) == addr.agent
    ensures LeadingBodies(TurnFacts(l), k, NoticeInvocation(n)) == BodiesAt(l[..k], addr, n)
  {
    if k > 0 {
      LeadingIsAll(l, addr, n, k - 1);
      assert l[..k][..k - 1] == l[..k - 1];
      assert l[k - 1] in l;
      BodyLeads(l, addr, n, k - 1);
      hide TrimSpace, NoticeInvocation, AgentOf, Leads, IsBody;
    }
  }

  lemma BodyLeads(l: seq<Event>, addr: Address, n: string, i: nat)
    requires DistinctKeys(l) && i < |l| && (addr.agent == "" || AgentOf(l[i]) == addr.agent)
    ensures Leads(TurnFacts(l), i, NoticeInvocation(n)) <==> IsBody(l[i], addr, n)
  {
    hide TrimSpace, NoticeInvocation, AgentOf;
    var facts := TurnFacts(l);
    assert facts[i].inputs.None?;
    assert Carries(facts, facts[i], NoticeInvocation(n)) <==> IsBody(l[i], addr, n);
    forall j | 0 <= j < i ensures facts[j].key != facts[i].key {}
  }

  /** generatedBodiesOf over the live facts of an address is the bodies of its window. */
  method ReadWindow(c: seq<Event>, addr: Address, n: string) returns (bodies: seq<FreshBody>)
    requires DistinctKeys(c)
    ensures bodies == BodiesAt(Window(c), addr, n) && DistinctFacts(bodies)
  {
    var live := SessionFacts(c, addr);
    assert DistinctKeys(Window(c)) by { hide CutOf; }
    ChainDistinct(Window(c), (e: Event) => addr.agent == "" || AgentOf(e) == addr.agent);
    bodies := GeneratedBodiesOf(TurnFacts(live), NoticeInvocation(n));
    LeadingIsAll(live, addr, n, |live|);
    assert live[..|live|] == live;
    BodiesOfAddress(Window(c), addr, n);
  }

  /** The read in terms of positions: it answers the body at a position exactly when that
      fact is among the most recent ones or no turn-end fact stands behind it. */
  lemma AnsweredAt(c: seq<Event>, addr: Address, n: string, i: nat)
    requires DistinctKeys(c) && i < |c| && IsBody(c[i], addr, n)
    ensures BodyFact(c[i]) in BodiesAt(Window(c), addr, n) <==>
              |c| - i <= FACT_WINDOW || forall j :: i < j < |c| ==> !c[j].kind.AgentOutput?
  {
    hide CutOf, TrimSpace;
    WindowKeeps(c, i);
    if CutOf(c) <= i {
      assert Window(c)[i - CutOf(c)] == c[i];
    }
  }
}
