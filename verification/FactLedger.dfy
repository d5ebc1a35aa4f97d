// The live ledger of a run as values: the facts under their identities, the order
// they committed in, and the live count of each session. A commit appends one fact
// and holds its session to the hot window.
module FactLedger {
  import opened Core
  import opened EventBody
  import opened FactWindow

  /** The map and the order name the same facts, each under its own identity. */
  ghost predicate Aligned(facts: map<string, Event>, keys: seq<string>) {
    && Distinct(keys)
    && (forall k :: k in keys <==> k in facts)
    && (forall k :: k in facts ==> facts[k].key == k && k != "")
  }

  /** The live facts in their commit order. */
  function Live(facts: map<string, Event>, keys: seq<string>): (l: seq<Event>)
    requires forall k :: k in keys ==> k in facts
    ensures |l| == |keys| && forall i :: 0 <= i < |keys| ==> l[i] == facts[keys[i]]
  {
    seq(|keys|, i requires 0 <= i < |keys| => facts[keys[i]])
  }

  function Count(counts: map<string, nat>, s: string): nat {
    if s in counts then counts[s] else 0
  }

  /** Every session holds its window of the whole history, and facts of none stay. */
  ghost predicate Windowed(history: seq<Event>, live: seq<Event>) {
    && (forall s :: s != "" ==> Chain(live, s) == Window(Chain(history, s)))
    && Chain(live, "") == Chain(history, "")
  }

  ghost predicate Counted(live: seq<Event>, counts: map<string, nat>) {
    forall s :: s != "" ==> Count(counts, s) == |Chain(live, s)|
  }

  lemma AlignedDistinct(facts: map<string, Event>, keys: seq<string>)
    requires Aligned(facts, keys)
    ensures DistinctKeys(Live(facts, keys))
    ensures forall e :: e in Live(facts, keys) <==> e.key in facts && facts[e.key] == e
  {
    var l := Live(facts, keys);
    forall e ensures e in l <==> e.key in facts && facts[e.key] == e {
      if e in l {
        var i :| 0 <= i < |l| && l[i] == e;
        assert keys[i] in keys;
      }
      if e.key in facts && facts[e.key] == e {
        var i :| 0 <= i < |keys| && keys[i] == e.key;
        assert l[i] == e;
      }
    }
    forall i, j | 0 <= i < j < |l| ensures l[i].key != l[j].key {
      assert keys[i] in keys && keys[j] in keys;
    }
  }

  lemma Appended(facts: map<string, Event>, keys: seq<string>, e: Event)
    requires Aligned(facts, keys) && e.key != "" && e.key !in facts
    ensures Aligned(facts[e.key := e], keys + [e.key])
    ensures Live(facts[e.key := e], keys + [e.key]) == Live(facts, keys) + [e]
  {
    var l, m := Live(facts, keys), Live(facts[e.key := e], keys + [e.key]);
    forall i | 0 <= i < |l| ensures m[i] == l[i] {
      assert keys[i] in keys;
    }
    assert forall k :: k in keys + [e.key] <==> k in keys || k == e.key;
  }

  /** The identities of s that leave take their facts with them, in place. */
  lemma {:induction false} Removed(facts: map<string, Event>, keys: seq<string>, dropped: set<string>)
    requires Aligned(facts, keys)
    ensures Aligned(facts - dropped, Filter(keys, (k: string) => k !in dropped))
    ensures Live(facts - dropped, Filter(keys, (k: string) => k !in dropped))
         == Filter(Live(facts, keys), (e: Event) => e.key !in dropped)
  {
    var kept := Filter(keys, (k: string) => k !in dropped);
    FilterDistinct(keys, (k: string) => k !in dropped);
    RemovedLive(facts, keys, dropped);
  }

  lemma {:induction false} FilterDistinct(keys: seq<string>, p: string -> bool)
    requires Distinct(keys)
    ensures Distinct(Filter(keys, p))
  {
    if keys != [] {
      var init, last := keys[..|keys| - 1], keys[|keys| - 1];
      FilterDistinct(init, p);
      assert last !in init;
    }
  }

  lemma {:induction false} RemovedLive(facts: map<string, Event>, keys: seq<string>, dropped: set<string>)
    requires forall k :: k in keys ==> k in facts && facts[k].key == k
    ensures forall k :: k in Filter(keys, (k: string) => k !in dropped) ==> k in facts - dropped
    ensures Live(facts - dropped, Filter(keys, (k: string) => k !in dropped))
         == Filter(Live(facts, keys), (e: Event) => e.key !in dropped)
  {
    if keys != [] {
      var init, last := keys[..|keys| - 1], keys[|keys| - 1];
      assert keys == init + [last];
      RemovedLive(facts, init, dropped);
      hide Filter, Live;
      RemovedNext(facts, init, last, dropped);
    }
  }

  lemma RemovedNext(facts: map<string, Event>, init: seq<string>, last: string, dropped: set<string>)
    requires forall k :: k in init + [last] ==> k in facts && facts[k].key == k
    requires forall k :: k in Filter(init, (k: string) => k !in dropped) ==> k in facts - dropped
    requires Live(facts - dropped, Filter(init, (k: string) => k !in dropped))
          == Filter(Live(facts, init), (e: Event) => e.key !in dropped)
    ensures forall k :: k in Filter(init + [last], (k: string) => k !in dropped) ==> k in facts - dropped
    ensures Live(facts - dropped, Filter(init + [last], (k: string) => k !in dropped))
         == Filter(Live(facts, init + [last]), (e: Event) => e.key !in dropped)
  {
    var kept := Filter(init, (k: string) => k !in dropped);
    FilterNext(init, last, (k: string) => k !in dropped);
    FilterNext(Live(facts, init), facts[last], (e: Event) => e.key !in dropped);
    hide Filter;
    LiveAppend(facts, init, last);
    if last !in dropped { LiveAppend(facts - dropped, kept, last); }
  }

  lemma FilterNext<T(!new)>(init: seq<T>, last: T, p: T -> bool)
    ensures Filter(init + [last], p) == if p(last) then Filter(init, p) + [last] else Filter(init, p)
  {
    assert (init + [last])[..|init|] == init;
  }

  lemma LiveAppend(facts: map<string, Event>, keys: seq<string>, k: string)
    requires (forall j :: j in keys ==> j in facts) && k in facts
    ensures forall j :: j in keys + [k] ==> j in facts
    ensures Live(facts, keys + [k]) == Live(facts, keys) + [facts[k]]
  {
  }

  /** The commit of one fact of a session keeps every chain on its window. */
  lemma CommitWindowed(history: seq<Event>, live: seq<Event>, e: Event)
    requires Windowed(history, live) && DistinctKeys(live + [e])
    ensures SessionOf(e) != "" ==> Windowed(history + [e], TrimSession(live + [e], SessionOf(e)))
    ensures SessionOf(e) == "" ==> Windowed(history + [e], live + [e])
    ensures SessionOf(e) != "" && |Chain(live + [e], SessionOf(e))| < FACT_WINDOW ==> TrimSession(live + [e], SessionOf(e)) == live + [e]
  {
    hide Window, TrimSession;
    var s := SessionOf(e);
    forall t
      ensures Chain(live + [e], t) == Chain(live, t) + if t == s then [e] else []
      ensures Chain(history + [e], t) == Chain(history, t) + if t == s then [e] else []
    {
      ChainAppend(live, e, t);
      ChainAppend(history, e, t);
    }
    if s != "" {
      forall t ensures Chain(TrimSession(live + [e], s), t) == if t == s then Window(Chain(live + [e], s)) else Chain(live + [e], t) {
        TrimSessionChains(live + [e], s, t);
      }
      TrimOnce(Chain(history, s), e);
      if |Chain(live + [e], s)| < FACT_WINDOW { ShortTrim(live + [e], s); }
    }
  }

  lemma ChainAppend(l: seq<Event>, e: Event, s: string)
    ensures Chain(l + [e], s) == Chain(l, s) + if SessionOf(e) == s then [e] else []
  {
    assert (l + [e])[..|l|] == l;
  }

  lemma ShortTrim(l: seq<Event>, s: string)
    requires |Chain(l, s)| <= FACT_WINDOW
    ensures TrimSession(l, s) == l
  {
    var c := Chain(l, s);
    ShortChainKept(c);
    var dropped := KeysOf(c[..CutOf(c)]);
    FilterAll(l, (e: Event) => e.key !in dropped);
  }

  /** The fact a commit lands is never cut by the trim of that commit. */
  lemma LandedStays(l: seq<Event>, e: Event)
    requires DistinctKeys(l + [e])
    ensures e in TrimSession(l + [e], SessionOf(e))
  {
    var s := SessionOf(e);
    var c := Chain(l + [e], s);
    ChainAppend(l, e, s);
    WindowKeeps(c, |c| - 1);
    TrimSessionChains(l + [e], s, s);
    assert c[|c| - 1] == e && Window(c)[|Window(c)| - 1] == e;
  }

  // --- the trim of every session at once ---

  /** e stands before the window of its session. */
  ghost predicate BeforeWindow(h: seq<Event>, e: Event) {
    e.key in KeysOf(Chain(h, SessionOf(e))[..CutOf(Chain(h, SessionOf(e)))])
  }

  /** The identities dropped once the sessions of done were trimmed. */
  ghost predicate DroppedOf(h: seq<Event>, facts: map<string, Event>, done: set<string>, dropped: set<string>) {
    forall k :: k in dropped <==> k in facts && SessionOf(facts[k]) in done && BeforeWindow(h, facts[k])
  }

  lemma DroppedKeys(facts: map<string, Event>, keys: seq<string>, cut: nat, dropped: set<string>)
    requires cut <= |keys| && (forall k :: k in keys ==> k in facts && facts[k].key == k)
    requires dropped == set k | k in keys[..cut]
    ensures dropped == KeysOf(Live(facts, keys)[..cut])
  {
    var l := Live(facts, keys)[..cut];
    forall k ensures k in dropped <==> exists e :: e in l && e.key == k {
      if k in dropped {
        var i :| 0 <= i < cut && keys[i] == k;
        assert keys[i] in keys && l[i].key == k;
      }
      if e :| e in l && e.key == k {
        var i :| 0 <= i < cut && l[i] == e;
        assert keys[i] in keys && keys[..cut][i] == k;
      }
    }
  }


  lemma DroppedStart(h: seq<Event>, facts: map<string, Event>)
    ensures DroppedOf(h, facts, {}, {})
    ensures forall s :: Count(map[], s) == 0
  {
  }

  /** The chain of a session not trimmed yet is still held whole. */
  lemma StillHeld(h: seq<Event>, facts: map<string, Event>, order: seq<string>, done: set<string>, dropped: set<string>, s: string, keys: seq<string>)
    requires Aligned(facts, order) && h == Live(facts, order) && DroppedOf(h, facts, done, dropped) && s !in done
    requires (forall k :: k in keys ==> k in facts) && Live(facts, keys) == Chain(h, s)
    ensures forall k :: k in keys ==> k in facts - dropped
    ensures Live(facts - dropped, keys) == Chain(h, s) && |keys| == |Chain(h, s)|
  {
    hide BeforeWindow, CutOf;
    forall k | k in keys ensures k in facts - dropped {
      var i :| 0 <= i < |keys| && keys[i] == k;
      assert Chain(h, s)[i] == facts[k] && Chain(h, s)[i] in Chain(h, s);
    }
  }

  lemma DropSession(h: seq<Event>, facts: map<string, Event>, order: seq<string>, done: set<string>, dropped: set<string>, s: string, keys: seq<string>, cut: nat)
    requires Aligned(facts, order) && h == Live(facts, order) && DroppedOf(h, facts, done, dropped) && s !in done
    requires (forall k :: k in keys ==> k in facts) && Live(facts, keys) == Chain(h, s) && cut == CutOf(Chain(h, s))
    ensures cut <= |keys|
    ensures DroppedOf(h, facts, done + {s}, dropped + set k | k in keys[..cut])
  {
    hide CutOf, KeysOf;
    var mine := set k | k in keys[..cut];
    DroppedKeys(facts, keys, cut, mine);
    forall k ensures k in mine <==> k in facts && SessionOf(facts[k]) == s && BeforeWindow(h, facts[k]) {
      if k in mine {
        var i :| 0 <= i < cut && keys[i] == k;
        assert keys[i] in keys;
        assert Chain(h, s)[i] == facts[k] && Chain(h, s)[i] in Chain(h, s);
      }
    }
  }

  /** Every session trimmed at once stands on its window. */
  lemma TrimmedAll(h: seq<Event>, facts: map<string, Event>, order: seq<string>, done: set<string>, dropped: set<string>)
    requires Aligned(facts, order) && h == Live(facts, order) && DroppedOf(h, facts, done, dropped) && "" !in done
    requires forall s :: s !in done && s != "" ==> Chain(h, s) == []
    ensures Windowed(h, Filter(h, (e: Event) => e.key !in dropped))
  {
    hide CutOf, KeysOf;
    AlignedDistinct(facts, order);
    forall s ensures Chain(Filter(h, (e: Event) => e.key !in dropped), s) == if s == "" then Chain(h, s) else Window(Chain(h, s)) {
      TrimOf(h, s, dropped);
      if s in done {
        TrimmedOne(h, facts, order, done, dropped, s);
      } else {
        forall e | e in Chain(h, s) ensures e.key !in dropped {}
        FilterAll(Chain(h, s), (e: Event) => e.key !in dropped);
      }
    }
  }

  lemma TrimmedOne(h: seq<Event>, facts: map<string, Event>, order: seq<string>, done: set<string>, dropped: set<string>, s: string)
    requires Aligned(facts, order) && h == Live(facts, order) && DroppedOf(h, facts, done, dropped) && s in done
    ensures Filter(Chain(h, s), (e: Event) => e.key !in dropped) == Window(Chain(h, s))
  {
    hide CutOf, KeysOf;
    var c := Chain(h, s);
    var mine := KeysOf(c[..CutOf(c)]);
    AlignedDistinct(facts, order);
    ChainDistinct(h, (e: Event) => SessionOf(e) == s);
    DropPrefix(c, CutOf(c), mine);
    forall e | e in c ensures e.key !in dropped <==> e.key !in mine {
      assert e in h && facts[e.key] == e;
    }
    FilterCongruent(c, (e: Event) => e.key !in dropped, (e: Event) => e.key !in mine);
  }

  lemma CountedAll(h: seq<Event>, live: seq<Event>, counts: map<string, nat>, sessions: set<string>)
    requires Windowed(h, live) && "" !in sessions
    requires forall s :: s in sessions ==> Count(counts, s) == |Window(Chain(h, s))|
    requires forall s :: s !in sessions ==> Count(counts, s) == 0 && (s != "" ==> Chain(h, s) == [])
    ensures Counted(live, counts)
  {
    hide CutOf, Chain;
  }
}
