// The hot window of one session chain: the most recent facts beside the whole
// segment still in flight. The live ledger trims after every commit; the window
// of a history is stated here on its own, and trimming commit by commit is shown
// to keep exactly what one trim of the whole history keeps.
module FactWindow {
  import opened Core
  import opened EventBody

  const FACT_WINDOW: nat := 2048

  /** The session a fact belongs to: of its owner, else of its target, else of its source. */
  function SessionOf(e: Event): string {
    if e.owner.session != "" then e.owner.session
    else if e.target.session != "" then e.target.session
    else e.source.session
  }

  function AgentOf(e: Event): string {
    if e.owner.agent != "" then e.owner.agent
    else if e.target.agent != "" then e.target.agent
    else e.source.agent
  }

  /** The facts of one session, in their order. */
  function Chain(l: seq<Event>, s: string): seq<Event> {
    Filter(l, (e: Event) => SessionOf(e) == s)
  }

  /** The position of the last turn-end fact, or -1. */
  function LastOutput(c: seq<Event>): (at: int)
    ensures -1 <= at < |c|
    ensures at >= 0 ==> c[at].kind.AgentOutput?
    ensures forall i :: at < i < |c| ==> !c[i].kind.AgentOutput?
  {
    if c == [] then -1
    else if c[|c| - 1].kind.AgentOutput? then |c| - 1
    else LastOutput(c[..|c| - 1])
  }

  /** How many leading facts the window drops. */
  function CutOf(c: seq<Event>): (cut: nat)
    ensures cut <= |c|
  {
    var over := if |c| > FACT_WINDOW then |c| - FACT_WINDOW else 0;
    var last := LastOutput(c);
    if last < 0 then 0 else if last < over then last else over
  }

  function Window(c: seq<Event>): seq<Event> { c[CutOf(c)..] }

  /** The window in terms of positions: a fact stays while it is among the most recent
      ones or no turn-end fact stands behind it. */
  lemma WindowKeeps(c: seq<Event>, i: nat)
    requires i < |c|
    ensures CutOf(c) <= i <==> |c| - i <= FACT_WINDOW || forall j :: i < j < |c| ==> !c[j].kind.AgentOutput?
  {
    var last := LastOutput(c);
    if last > i {
      assert c[last].kind.AgentOutput?;
    }
  }

  /** The segment in flight stays whole: the last turn-end fact and everything behind it. */
  lemma SegmentKept(c: seq<Event>)
    ensures LastOutput(c) < 0 ==> Window(c) == c
    ensures LastOutput(c) >= 0 ==> CutOf(c) <= LastOutput(c) && c[LastOutput(c)..] == Window(c)[LastOutput(c) - CutOf(c)..]
    ensures LastOutput(Window(c)) == if LastOutput(c) < 0 then -1 else LastOutput(c) - CutOf(c)
  {
    var last, cut := LastOutput(c), CutOf(c);
    LastOf(Window(c), if last < 0 then -1 else last - cut);
  }

  lemma LastOf(c: seq<Event>, at: int)
    requires -1 <= at < |c| && (at >= 0 ==> c[at].kind.AgentOutput?)
    requires forall i :: at < i < |c| ==> !c[i].kind.AgentOutput?
    ensures LastOutput(c) == at
  {
    var last := LastOutput(c);
    if last > at { assert false; }
  }

  /** A chain that holds no more than the window drops nothing, so a guard that leaves a
      short chain unread loses no trim. */
  lemma ShortChainKept(c: seq<Event>)
    requires |c| <= FACT_WINDOW
    ensures Window(c) == c
  {
  }

  /** Trimming after every commit keeps exactly what one trim of the whole history keeps. */
  lemma TrimOnce(c: seq<Event>, e: Event)
    ensures Window(Window(c) + [e]) == Window(c + [e])
    ensures CutOf(c) <= CutOf(c + [e])
  {
    hide LastOutput;
    var w, last, cut := Window(c), LastOutput(c), CutOf(c);
    SegmentKept(c);
    OutputBehind(c, e);
    OutputBehind(w, e);
    assert CutOf(w + [e]) == CutOf(c + [e]) - cut;
    assert w + [e] == (c + [e])[cut..];
    assert (c + [e])[cut..][CutOf(c + [e]) - cut..] == (c + [e])[CutOf(c + [e])..];
  }

  lemma OutputBehind(c: seq<Event>, e: Event)
    ensures LastOutput(c + [e]) == if e.kind.AgentOutput? then |c| else LastOutput(c)
  {
    assert (c + [e])[..|c|] == c;
  }

  // --- the ledger of several sessions ---

  predicate DistinctKeys(l: seq<Event>) {
    forall i, j :: 0 <= i < j < |l| ==> l[i].key != l[j].key
  }

  function KeysOf(l: seq<Event>): (keys: set<string>)
    ensures forall k :: k in keys <==> exists e :: e in l && e.key == k
  {
    set e | e in l :: e.key
  }

  /** trimFactsLocked: the facts of s before its window leave the ledger. */
  function TrimSession(l: seq<Event>, s: string): seq<Event> {
    var dropped := KeysOf(Chain(l, s)[..CutOf(Chain(l, s))]);
    Filter(l, (e: Event) => e.key !in dropped)
  }

  lemma {:induction false} ChainDistinct(l: seq<Event>, p: Event -> bool)
    requires DistinctKeys(l)
    ensures DistinctKeys(Filter(l, p))
  {
    if l != [] {
      var init, last := l[..|l| - 1], l[|l| - 1];
      ChainDistinct(init, p);
      forall e | e in Filter(init, p) ensures e.key != last.key {
        var i :| 0 <= i < |init| && init[i] == e;
        assert l[i] == e;
      }
    }
  }

  lemma {:induction false} DropPrefix(c: seq<Event>, n: nat, dropped: set<string>)
    requires DistinctKeys(c) && n <= |c| && dropped == KeysOf(c[..n])
    ensures Filter(c, (e: Event) => e.key !in dropped) == c[n..]
  {
    var p := (e: Event) => e.key !in dropped;
    assert c == c[..n] + c[n..];
    FilterAppend(c[..n], c[n..], p);
    FilterNone(c[..n], p);
    forall e | e in c[n..] ensures p(e) {
      var i :| n <= i < |c| && c[i] == e;
      forall d | d in c[..n] ensures d.key != e.key {
        var j :| 0 <= j < n && c[j] == d;
      }
    }
    FilterAll(c[n..], p);
  }

  lemma {:induction false} FilterNone<T(!new)>(s: seq<T>, p: T -> bool)
    requires forall x :: x in s ==> !p(x)
    ensures Filter(s, p) == []
  {
    if s != [] { FilterNone(s[..|s| - 1], p); }
  }

  lemma {:induction false} FilterAll<T(!new)>(s: seq<T>, p: T -> bool)
    requires forall x :: x in s ==> p(x)
    ensures Filter(s, p) == s
  {
    if s != [] { FilterAll(s[..|s| - 1], p); }
  }

  /** A trim of one session holds that session to its window and leaves every other chain,
      and the facts of no session, as they were. */
  lemma TrimSessionChains(l: seq<Event>, s: string, other: string)
    requires DistinctKeys(l)
    ensures Chain(TrimSession(l, s), s) == Window(Chain(l, s))
    ensures other != s ==> Chain(TrimSession(l, s), other) == Chain(l, other)
    ensures DistinctKeys(TrimSession(l, s))
  {
    var c := Chain(l, s);
    var dropped := KeysOf(c[..CutOf(c)]);
    var keep := (e: Event) => e.key !in dropped;
    ChainDistinct(l, keep);
    ChainDistinct(l, (e: Event) => SessionOf(e) == s);
    TrimOf(l, s, dropped);
    DropPrefix(c, CutOf(c), dropped);
    if other != s {
      TrimOf(l, other, dropped);
      forall e | e in Chain(l, other) ensures e.key !in dropped {
        forall d | d in c[..CutOf(c)] ensures d.key != e.key {
          SameKey(l, d, e);
        }
      }
      FilterAll(Chain(l, other), keep);
    }
  }

  lemma SameKey(l: seq<Event>, d: Event, e: Event)
    requires DistinctKeys(l) && d in l && e in l
    ensures d.key == e.key ==> d == e
  {
    var i :| 0 <= i < |l| && l[i] == d;
    var j :| 0 <= j < |l| && l[j] == e;
  }

  lemma TrimOf(l: seq<Event>, s: string, dropped: set<string>)
    ensures var keep := (e: Event) => e.key !in dropped;
            Chain(Filter(l, keep), s) == Filter(Chain(l, s), keep)
  {
    FilterSwap(l, (e: Event) => e.key !in dropped, (e: Event) => SessionOf(e) == s);
  }

  // --- facts behind which others leave the window ---

  /** A fact of a session that ends no turn. */
  function Filler(addr: Address, i: nat): Event {
    Event(seq(i + 1, _ => 'x'), Feedback, 0, map[], Message("user", "note", [], "", ""), addr, Address("", ""), Address("", ""),
          "", "", "", "", "", "", "", "")
  }

  /** A fact, the fillers of a whole window and a turn-end fact. */
  function LongChain(first: Event, addr: Address, last: Event): (c: seq<Event>)
    ensures |c| == FACT_WINDOW + 2 && c[0] == first && c[FACT_WINDOW + 1] == last
    ensures forall i :: 0 < i <= FACT_WINDOW ==> c[i] == Filler(addr, i)
  {
    [first] + seq(FACT_WINDOW, i requires 0 <= i < FACT_WINDOW => Filler(addr, i + 1)) + [last]
  }

  /** The first fact has left the window, and the last one is answered. */
  lemma LongChainCut(first: Event, addr: Address, last: Event)
    requires last.kind.AgentOutput?
    ensures CutOf(LongChain(first, addr, last)) == 2
  {
    LastOf(LongChain(first, addr, last), FACT_WINDOW + 1);
  }

  lemma LongChainKeyed(first: Event, addr: Address, last: Event)
    requires first.key == "a" && last.key == "b"
    ensures DistinctKeys(LongChain(first, addr, last)) && forall e :: e in LongChain(first, addr, last) ==> e.key != ""
  {
    var c := LongChain(first, addr, last);
    forall i | 0 < i <= FACT_WINDOW ensures |c[i].key| == i + 1 && c[i].key[0] == 'x' {}
  }
}
