// The assistant bodies one invocation generated, read back from the facts a
// session answers: a fact of the invocation, or an output that names one of its
// inputs, carries a body unless it is a tool call or empty.
module GeneratedBodies {
  import opened Core
  import opened DeliverySteps

  /** inputs  the keys an output says it consumed; None where the list does not parse
      body    the trimmed content */
  datatype TurnFact = TurnFact(
    key: string, invocation: string, isOutput: bool, inputs: Option<seq<string>>,
    fromAssistant: bool, callsTools: bool, body: string)

  /** A keyed material of the invocation, which an output may name. */
  predicate IsInput(f: TurnFact, inv: string) {
    f.invocation == inv && !f.isOutput && f.key != ""
  }

  predicate NamesInput(facts: seq<TurnFact>, f: TurnFact, inv: string) {
    f.isOutput && f.inputs.Some? &&
    exists g :: g in facts && IsInput(g, inv) && g.key in f.inputs.value
  }

  /** The fact carries a body of the invocation. */
  predicate Carries(facts: seq<TurnFact>, f: TurnFact, inv: string) {
    && (f.invocation == inv || NamesInput(facts, f, inv))
    && f.fromAssistant && !f.callsTools && f.body != ""
  }

  /** Position i is the first body under its key; a body without a key is always its own. */
  ghost predicate Leads(facts: seq<TurnFact>, i: nat, inv: string)
    requires i < |facts|
  {
    && Carries(facts, facts[i], inv)
    && (facts[i].key != "" ==> forall j :: 0 <= j < i && facts[j].key == facts[i].key ==> !Carries(facts, facts[j], inv))
  }

  /** The leading bodies up to position n, in the order of their facts. */
  ghost function LeadingBodies(facts: seq<TurnFact>, n: nat, inv: string): seq<FreshBody>
    requires n <= |facts|
  {
    if n == 0 then []
    else LeadingBodies(facts, n - 1, inv) +
         if Leads(facts, n - 1, inv) then [FreshBody(facts[n - 1].key, facts[n - 1].body)] else []
  }

  lemma {:induction false} LeadingFrom(facts: seq<TurnFact>, n: nat, inv: string)
    requires n <= |facts|
    ensures forall b :: b in LeadingBodies(facts, n, inv) <==>
              exists i :: 0 <= i < n && Leads(facts, i, inv) && b == FreshBody(facts[i].key, facts[i].body)
    ensures DistinctFacts(LeadingBodies(facts, n, inv))
  {
    if n > 0 {
      LeadingFrom(facts, n - 1, inv);
      var init, last := LeadingBodies(facts, n - 1, inv), FreshBody(facts[n - 1].key, facts[n - 1].body);
      forall b | b in LeadingBodies(facts, n, inv)
        ensures exists i :: 0 <= i < n && Leads(facts, i, inv) && b == FreshBody(facts[i].key, facts[i].body)
      {
        if b in init {
          var i :| 0 <= i < n - 1 && Leads(facts, i, inv) && b == FreshBody(facts[i].key, facts[i].body);
        } else {
          assert b == last;
        }
      }
      if Leads(facts, n - 1, inv) {
        forall b | b in init && b.fact != "" ensures b.fact != last.fact {
          var i :| 0 <= i < n - 1 && Leads(facts, i, inv) && b == FreshBody(facts[i].key, facts[i].body);
        }
      }
    }
  }

  /** A restart, or a later turn, that only puts other invocations behind the facts of this
      one reads the same bodies back. */
  lemma {:induction false} LaterFactsAddNothing(facts: seq<TurnFact>, more: seq<TurnFact>, inv: string)
    requires forall f :: f in more ==> f.invocation != inv && !NamesInput(facts, f, inv)
    ensures LeadingBodies(facts + more, |facts + more|, inv) == LeadingBodies(facts, |facts|, inv)
  {
    if more == [] {
      assert facts + more == facts;
    } else {
      var init := more[..|more| - 1];
      LaterFactsAddNothing(facts, init, inv);
      var all, less := facts + more, facts + init;
      assert all == less + [more[|more| - 1]] && less == all[..|less|];
      InputsOf(facts, more, inv);
      InputsOf(facts, init, inv);
      SameLead(less, all, |less|, inv);
    }
  }

  /** The inputs of an invocation stand among its own facts. */
  lemma InputsOf(facts: seq<TurnFact>, more: seq<TurnFact>, inv: string)
    requires forall f :: f in more ==> f.invocation != inv
    ensures forall f :: NamesInput(facts + more, f, inv) <==> NamesInput(facts, f, inv)
  {
    forall g | g in facts + more && IsInput(g, inv) ensures g in facts {}
  }

  lemma {:induction false} SameLead(less: seq<TurnFact>, all: seq<TurnFact>, n: nat, inv: string)
    requires |less| <= |all| && less == all[..|less|] && n <= |less|
    requires forall f :: NamesInput(less, f, inv) <==> NamesInput(all, f, inv)
    ensures LeadingBodies(less, n, inv) == LeadingBodies(all, n, inv)
  {
    if n > 0 {
      SameLead(less, all, n - 1, inv);
      assert less[n - 1] == all[n - 1];
    }
  }

  method GeneratedBodiesOf(facts: seq<TurnFact>, inv: string) returns (bodies: seq<FreshBody>)
    ensures bodies == if inv == "" then [] else LeadingBodies(facts, |facts|, inv)
    ensures DistinctFacts(bodies)
  {
    bodies := [];
    if inv == "" { return; }
    var inputs: set<string> := {};
    for i := 0 to |facts|
      invariant forall k :: k in inputs <==> exists g :: g in facts[..i] && IsInput(g, inv) && g.key == k
    {
      if IsInput(facts[i], inv) { inputs := inputs + {facts[i].key}; }
      assert facts[..i + 1] == facts[..i] + [facts[i]];
    }
    assert facts[..|facts|] == facts;
    var seen: set<string> := {};
    for i := 0 to |facts|
      invariant bodies == LeadingBodies(facts, i, inv)
      invariant forall k :: k in seen <==> k != "" && exists j :: 0 <= j < i && facts[j].key == k && Carries(facts, facts[j], inv)
    {
      var f := facts[i];
      var related := f.invocation == inv;
      if f.isOutput && f.inputs.Some? {
        related := related || exists k :: k in f.inputs.value && k in inputs;
      }
      assert related <==> f.invocation == inv || NamesInput(facts, f, inv);
      if !related || (f.key != "" && f.key in seen) { continue; }
      if f.fromAssistant && !f.callsTools && f.body != "" {
        bodies := bodies + [FreshBody(f.key, f.body)];
        if f.key != "" { seen := seen + {f.key}; }
      }
    }
    LeadingFrom(facts, |facts|, inv);
  }
}
