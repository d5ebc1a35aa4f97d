// When a body is stranded: the record of a landed terminal is reported and passed over,
// and from there a receipt can be left standing over a turn that ran behind it; and a
// body the window cut before the closing read has no record behind its receipt.
module SettleStranding {
  import opened Core
  import opened DeliveryIds
  import opened FactLog
  import opened DeliveryLedger
  import opened DeliverySteps
  import opened FactWindow
  import opened TurnBodies
  import opened SettleAccount
  import opened SettleRuns
  import EventBody

  // --- the facts of a further turn ---

  ghost function Longest(s: set<string>): (n: nat)
    ensures forall k :: k in s ==> |k| <= n
  {
    if s == {} then 0
    else
      var k :| k in s;
      var rest := Longest(s - {k});
      assert forall j :: j in s ==> j == k || j in s - {k};
      if |k| > rest then |k| else rest
  }

  /** An identity none of the given ones is. */
  ghost function Unused(s: set<string>): (k: string)
    ensures k !in s && k != "" && forall j :: j in s ==> |j| < |k|
  {
    seq(Longest(s) + 1, _ => 'k')
  }

  function Answer(key: string, text: string, addr: Address, n: string): Event {
    EventBody.Event(key, EventBody.AgentOutput, 0, map[], EventBody.Message("assistant", text, [], "", ""),
                    addr, Address("", ""), Address("", ""), NoticeInvocation(n), "", "", "", "", "", "", "")
  }

  lemma AnswerIsBody(key: string, text: string, addr: Address, n: string)
    requires TrimSpace(text) != ""
    ensures IsBody(Answer(key, text, addr, n), addr, n)
    ensures forall m, a :: IsBody(Answer(key, text, addr, n), a, m) ==> m == n
  {
    forall m | NoticeInvocation(m) == NoticeInvocation(n) ensures m == n {
      assert NoticeInvocation(m)[7..] == m && NoticeInvocation(n)[7..] == n;
    }
  }

  // --- a further turn of an open account ---

  /** An account in hand that is known to be in flight, in a process that runs. */
  ghost predicate Drivable(w: World, n: string) {
    && Sound(w) && w.ledger.up && n in w.book.routing && Holds(w.book, n) && !w.book.phases[n].Left?
    && n in w.book.attempts && w.book.attempts[n].InFlight?
  }

  /** The seat is handed back, claimed again and marked: what a wake does with an account
      it finds open. */
  lemma Remarked(w: World, n: string) returns (v: World)
    requires Drivable(w, n)
    ensures v == w.(book := w.book.(phases := w.book.phases[n := Marked]))
    ensures Reaches(w, v)
  {
    var b := w.book;
    var x := w.(book := b.(seats := b.seats[n := Pending], phases := b.phases - {n}));
    var y := w.(book := b.(phases := b.phases[n := Open]));
    v := w.(book := b.(phases := b.phases[n := Marked]));
    ReachesSelf(w);
    ReachesStep(w, w, ReleaseStep(n), x);
    assert b.seats[n := Pending][n := Claimed] == b.seats;
    assert (b.phases - {n})[n := Open] == b.phases[n := Open];
    assert AccountMoves(x, ClaimStep(n), y);
    ReachesStep(w, x, ClaimStep(n), y);
    assert b.phases[n := Open][n := Marked] == b.phases[n := Marked];
    assert AccountMoves(y, AttemptStep(n, InFlight, true), v);
    ReachesStep(w, y, AttemptStep(n, InFlight, true), v);
  }

  /** A turn that answers with one body, under an identity nothing used. */
  lemma Answered(w: World, n: string) returns (v: World)
    requires Drivable(w, n) && w.book.phases[n].Marked?
    ensures Reaches(w, v) && Drivable(v, n)
    ensures v.book == w.book.(phases := w.book.phases[n := Ran], chains := v.book.chains, drives := v.book.drives)
    ensures v.ledger == w.ledger.(origin := v.ledger.origin)
    ensures var c, d := ChainOf(w.book, n), ChainOf(v.book, n);
            |d| == |c| + 1 && IsBody(d[|c|], w.book.routing[n], n) && (n in w.book.readTo ==> w.book.readTo[n] <= |c|)
  {
    hide *;
    var e := FreshAnswer(w, n);
    v := AnswerAdded(w, n, e);
    AnswerDrivable(w, n, e, v);
  }

  /** A body of n under an identity nothing used. */
  lemma FreshAnswer(w: World, n: string) returns (e: Event)
    requires Drivable(w, n)
    ensures n in w.book.routing
    ensures e.key != "" && FreshId(e.key) !in w.ledger.origin && e.key !in KeysOf(ChainOf(w.book, n))
    ensures IsBody(e, w.book.routing[n], n) && forall m, a :: IsBody(e, a, m) ==> m == n
  {
    var key := Unused(w.ledger.origin.Keys + KeysOf(ChainOf(w.book, n)));
    e := Answer(key, "late", w.book.routing[n], n);
    AnswerIsBody(key, "late", w.book.routing[n], n);
    assert |key| <= |FreshId(key)|;
  }

  lemma AnswerDrivable(w: World, n: string, e: Event, v: World)
    requires Drivable(w, n) && w.book.phases[n].Marked? && AccountMoves(w, TurnStep(n, [e]), v)
    requires v.ledger == w.ledger.(origin := v.ledger.origin)
    requires v.book == w.book.(phases := w.book.phases[n := Ran], chains := v.book.chains, drives := v.book.drives)
    ensures Reaches(w, v) && Drivable(v, n) && n in v.book.phases && v.book.phases[n].Ran?
    ensures n in w.book.routing && (n in w.book.readTo ==> w.book.readTo[n] <= |ChainOf(w.book, n)|)
  {
    SoundNotice(w, n);
    hide AccountMoves, Sound, AttemptSound, SureSound, BodiesSound;
    StepKeeps(w, TurnStep(n, [e]), v);
    ReachesSelf(w);
    ReachesStep(w, w, TurnStep(n, [e]), v);
  }

  lemma SoundNotice(w: World, n: string)
    requires Sound(w)
    ensures NoticeSound(w.book, w.ledger, n)
  {
  }

  lemma AnswerAdded(w: World, n: string, e: Event) returns (v: World)
    requires Drivable(w, n) && w.book.phases[n].Marked? && e.key != "" && FreshId(e.key) !in w.ledger.origin
    requires e.key !in KeysOf(ChainOf(w.book, n)) && IsBody(e, w.book.routing[n], n) && forall m, a :: IsBody(e, a, m) ==> m == n
    ensures AccountMoves(w, TurnStep(n, [e]), v)
    ensures v.ledger == w.ledger.(origin := v.ledger.origin)
    ensures v.book == w.book.(phases := w.book.phases[n := Ran], chains := v.book.chains, drives := v.book.drives)
    ensures ChainOf(v.book, n) == ChainOf(w.book, n) + [e]
  {
    var b, addr := w.book, w.book.routing[n];
    v := World(b.(phases := b.phases[n := Ran], chains := b.chains[addr.session := ChainOf(b, n) + [e]], drives := b.drives[n := Drives(b, n) + 1]),
               w.ledger.(origin := w.ledger.origin[FreshId(e.key) := Body(BodyFact(e).content, addr)]));
    NewAnswer(w, n, e);
    hide Sound, NewFacts, IsBody, TrimSpace;
    assert Grown(w, addr.session, [e], Some(n), v);
  }

  lemma NewAnswer(w: World, n: string, e: Event)
    requires Sound(w) && n in w.book.routing && e.key != "" && FreshId(e.key) !in w.ledger.origin
    requires e.key !in KeysOf(ChainOf(w.book, n)) && forall m, a :: IsBody(e, a, m) ==> m == n
    ensures NewFacts(ChainOf(w.book, n), w.book.routing, w.ledger.origin, w.book.routing[n].session, [e], Some(n))
  {
    hide IsBody;
    var c := ChainOf(w.book, n);
    assert DistinctKeys(ChainAt(w.book.chains, w.book.routing[n].session));
    forall i | 0 <= i < |c| ensures c[i].key != e.key {
      assert c[i] in c;
    }
  }

  /** The terminal of that turn is recorded: the barrier stores it beside whatever the
      account holds staged. */
  lemma Completes(w: World, n: string) returns (v: World)
    requires Drivable(w, n) && w.book.phases[n].Ran?
    ensures Reaches(w, v) && CompletedMayStand(v.book, n) && (ReceiptMayStand(w.book, n) && ConsumeKey(n) in w.book.log.view && w.book.log.view[ConsumeKey(n)] == Receipt ==> ReceiptMayStand(v.book, n))
    ensures v.ledger == w.ledger && v.book == w.book.(log := v.book.log, phases := v.book.phases, attempts := w.book.attempts[n := Completed])
    ensures n in v.book.phases && v.book.phases[n] == Ended(Completed) && Lookup(v.book.log.stored, AttemptKey(n)) == Some(Attempt(Completed)) && v.book.log.staged == map[]
  {
    var g := Stage(w.book.log, AttemptKey(n), Attempt(Completed));
    v := World(w.book.(log := Barrier(g), phases := w.book.phases[n := Ended(Completed)], attempts := w.book.attempts[n := Completed]), w.ledger);
    StageStep(w.book.log, AttemptKey(n), Attempt(Completed));
    BarrierStep(g);
    assert AccountMoves(w, AttemptStep(n, Completed, true), v);
    ReachesSelf(w);
    ReachesStep(w, w, AttemptStep(n, Completed, true), v);
  }

  /** The terminal could not be recorded, and nothing of the write is left. */
  lemma Misses(w: World, n: string, t: Terminal) returns (v: World)
    requires Drivable(w, n) && w.book.phases[n].Ran? && Landed(t)
    ensures Reaches(w, v) && Drivable(v, n) && v.book.phases[n] == Ended(t)
    ensures v.ledger == w.ledger && v.book.moved == w.book.moved && v.book.routing == w.book.routing
  {
    v := w.(book := w.book.(phases := w.book.phases[n := Ended(t)], missed := w.book.missed + {n}));
    assert AccountMoves(w, AttemptStep(n, t, false), v);
    StepKeeps(w, AttemptStep(n, t, false), v);
    ReachesSelf(w);
    ReachesStep(w, w, AttemptStep(n, t, false), v);
  }

  /** A receipt that reported failure and is left staged. */
  lemma ReceiptLeft(w: World, n: string) returns (v: World)
    requires Drivable(w, n) && MayReceive(w, n) && w.book.phases[n].Ended?
    ensures Reaches(w, v) && Drivable(v, n)
    ensures v.ledger == w.ledger && v.book == w.book.(log := v.book.log)
    ensures ReceiptMayStand(v.book, n) && ConsumeKey(n) in v.book.log.view && v.book.log.view[ConsumeKey(n)] == Receipt
  {
    v := w.(book := w.book.(log := Stage(w.book.log, ConsumeKey(n), Receipt)));
    StageStep(w.book.log, ConsumeKey(n), Receipt);
    assert AccountMoves(w, ReceiptStep(n, false), v);
    StepKeeps(w, ReceiptStep(n, false), v);
    ReachesSelf(w);
    ReachesStep(w, w, ReceiptStep(n, false), v);
  }

  /** The account of a turn that ended failed or cancelled, whose terminal could not be
      recorded: its receipt reports failure and is left staged, the next wake drives the
      notification again, and the record of that turn stores both over a body no delivery
      record names. */
  lemma OpenStrands(w: World, n: string) returns (x: World)
    requires Drivable(w, n) && w.ledger.tiered && w.book.routing[n].agent == w.ledger.entry
    requires w.book.phases[n] == Ended(Failed) || w.book.phases[n] == Ended(Cancelled)
    ensures Reaches(w, x) && Strands(x, n) && x.book.moved == w.book.moved
  {
    hide AccountMoves, Sound, Reaches, IsBody, CutOf;
    var a := ReceiptLeft(w, n);
    var m := Remarked(a, n);
    ReachesSound(a, m);
    var r := Answered(m, n);
    x := Completes(r, n);
    ReachesChain(w, a, m);
    ReachesChain(w, m, r);
    ReachesChain(w, r, x);
    assert x.book.log.stored == x.book.log.stored;
  }

  /** From every moment at which a running process failed to record the landed terminal of a
      turn, some continuation strands a body. */
  lemma MissStrands(w: World, n: string, t: Terminal) returns (x: World)
    requires Drivable(w, n) && w.ledger.tiered && w.book.routing[n].agent == w.ledger.entry
    requires Landed(t) && w.book.phases[n] == Ended(t)
    ensures Reaches(w, x) && Strands(x, n) && x.book.moved == w.book.moved
  {
    hide AccountMoves, Sound, Reaches, IsBody, CutOf;
    if t.Completed? {
      var m := Remarked(w, n);
      ReachesSound(w, m);
      var r := Answered(m, n);
      var f := Misses(r, n, Failed);
      x := OpenStrands(f, n);
      ReachesChain(w, m, r);
      ReachesChain(w, r, f);
      ReachesChain(w, f, x);
    } else {
      x := OpenStrands(w, n);
    }
  }

  /** Exactly when a body may be stranded: behind the record of a landed terminal, in a
      process that lived to see its answer, some continuation under one entry strands a
      body of the notification if and only if that record reported a failure — the error
      the close reports and passes over. */
  lemma StrandsIffMissed(w: World, n: string, t: Terminal, ok: bool, v: World)
    requires Sound(w) && w.ledger.up && !w.book.moved && w.ledger.tiered
    requires n in w.book.routing && w.book.routing[n].agent == w.ledger.entry
    requires n !in w.book.missed && Holds(w.book, n) && w.book.phases[n].Ran? && Landed(t)
    requires AccountMoves(w, AttemptStep(n, t, ok), v) && v.ledger.up
    ensures (exists x :: Reaches(v, x) && !x.book.moved && Strands(x, n)) <==> !ok
  {
    StepKeeps(w, AttemptStep(n, t, ok), v);
    assert NoticeSound(w.book, w.ledger, n);
    if ok {
      hide AccountMoves, Reaches, Sound, Strands;
      assert n in v.book.attempts && v.book.attempts[n] == t;
      forall x | Reaches(v, x) && !x.book.moved ensures !Strands(x, n) {
        SureForever(v, x, n);
        SureStrandsNothing(x, n);
      }
    } else {
      assert Drivable(v, n);
      var x := MissStrands(v, n, t);
    }
  }

  // --- runs from an account that holds nothing ---

  /** A boot, the seat of one notification, its claim and its in-flight marker. */
  lemma Booted(n: string, addr: Address) returns (s: World, w: World)
    ensures Starts(s) && Reaches(s, w) && Drivable(w, n) && w.book.phases[n].Marked?
    ensures w.ledger.tiered && w.book.routing == map[n := addr] && addr.agent == w.ledger.entry
    ensures !w.book.moved && n !in w.book.missed && ChainOf(w.book, n) == [] && w.ledger.origin == map[] && w.ledger.log == Empty()
  {
    var l := Ledger(Empty(), map[], 0, false, false, true, addr.agent, map[], 0, map[]);
    var b := Book(Empty(), {}, map[], map[], map[], map[n := addr], map[], map[], {}, map[], false);
    s := World(b, l);
    var up := World(b, l.(up := true));
    var seated := World(b.(seats := map[n := Pending]), up.ledger);
    var claimed := World(b.(seats := map[n := Claimed], phases := map[n := Open]), up.ledger);
    w := World(claimed.book.(phases := map[n := Marked], attempts := map[n := InFlight],
                             log := Barrier(Stage(b.log, AttemptKey(n), Attempt(InFlight)))), up.ledger);
    FirstBoot(s, up);
    FirstSeat(n, up, seated, claimed);
    FirstMark(n, claimed, w);
    StartSound(s);
    hide AccountMoves, Sound;
    ReachesSelf(s);
    ReachesStep(s, s, ReopenStep(map[]), up);
    ReachesStep(s, up, SeatStep(n), seated);
    ReachesStep(s, seated, ClaimStep(n), claimed);
    ReachesStep(s, claimed, AttemptStep(n, InFlight, true), w);
    ReachesSound(s, w);
  }

  lemma FirstBoot(s: World, up: World)
    requires Starts(s) && s.ledger.log == Empty() && s.ledger.table == map[] && up == s.(ledger := s.ledger.(up := true))
    ensures AccountMoves(s, ReopenStep(map[]), up) && HostMoves(up.ledger, up.ledger)
  {
    assert forall k, r :: !MayStand(up.ledger.log, k, Some(r));
  }

  lemma FirstSeat(n: string, up: World, seated: World, claimed: World)
    requires up.book.seats == map[] && up.book.phases == map[] && up.book.receipts == {} && n in up.book.routing
    requires seated == up.(book := up.book.(seats := map[n := Pending]))
    requires claimed == up.(book := up.book.(seats := map[n := Claimed], phases := map[n := Open]))
    ensures AccountMoves(up, SeatStep(n), seated) && AccountMoves(seated, ClaimStep(n), claimed)
  {
  }

  lemma FirstMark(n: string, w: World, v: World)
    requires Holds(w.book, n) && w.book.phases == map[n := Open] && w.book.attempts == map[] && w.book.log == Empty()
    requires v == w.(book := w.book.(phases := map[n := Marked], attempts := map[n := InFlight],
                                     log := Barrier(Stage(w.book.log, AttemptKey(n), Attempt(InFlight)))))
    requires HostMoves(w.ledger, w.ledger) && w.ledger.up
    ensures AccountMoves(w, AttemptStep(n, InFlight, true), v)
  {
    var g := Stage(w.book.log, AttemptKey(n), Attempt(InFlight));
    StageStep(w.book.log, AttemptKey(n), Attempt(InFlight));
    BarrierStep(g);
    hide HostMoves;
    assert Writes(w, AttemptKey(n), Attempt(InFlight), true, v);
  }

  /** A run that strands a body, for every notification and address: a completed turn whose
      terminal could not be recorded, and whatever may follow it. */
  lemma StrandingRun(n: string, addr: Address) returns (s: World, x: World)
    ensures Starts(s) && Reaches(s, x) && Strands(x, n) && !x.book.moved
  {
    hide AccountMoves, Sound, Reaches, IsBody, CutOf, Strands;
    var w;
    s, w := Booted(n, addr);
    var r := Answered(w, n);
    var m := Misses(r, n, Completed);
    x := MissStrands(m, n, Completed);
    ReachesChain(s, w, r);
    ReachesChain(s, r, m);
    ReachesChain(s, m, x);
  }

  // --- a body the window cut before the closing read ---

  /** The closing read registers what the window answers and nothing else: every body of the
      notification ends recorded exactly when each one that had no record was among the most
      recent facts of its session or no turn-end fact stood behind it. */
  lemma ClosingReadCovers(stored: set<string>, c: seq<Event>, addr: Address, n: string)
    requires DistinctKeys(c) && forall e :: e in c ==> e.key != ""
    ensures var after := stored + set f | f in BodiesAt(Window(c), addr, n) && f.fact != "" :: FreshId(f.fact);
            (forall i :: 0 <= i < |c| && IsBody(c[i], addr, n) ==> FreshId(c[i].key) in after)
            <==> (forall i :: 0 <= i < |c| && IsBody(c[i], addr, n) && FreshId(c[i].key) !in stored ==>
                  |c| - i <= FACT_WINDOW || forall j :: i < j < |c| ==> !c[j].kind.AgentOutput?)
  {
    hide IsBody, CutOf;
    var bodies := BodiesAt(Window(c), addr, n);
    var after := stored + set f | f in bodies && f.fact != "" :: FreshId(f.fact);
    forall i | 0 <= i < |c| && IsBody(c[i], addr, n) && FreshId(c[i].key) !in stored
      ensures FreshId(c[i].key) in after <==> |c| - i <= FACT_WINDOW || forall j :: i < j < |c| ==> !c[j].kind.AgentOutput?
    {
      AnsweredAt(c, addr, n, i);
      assert c[i] in c;
      if FreshId(c[i].key) in after {
        var f :| f in bodies && f.fact != "" && FreshId(f.fact) == FreshId(c[i].key);
        FreshIdFresh(f.fact);
        FreshIdFresh(c[i].key);
        AnsweredFact(c, addr, n, i, f);
      }
    }
  }

  /** The answer of a read under the identity of a fact is the body of that fact. */
  lemma AnsweredFact(c: seq<Event>, addr: Address, n: string, i: nat, f: FreshBody)
    requires DistinctKeys(c) && i < |c| && f in BodiesAt(Window(c), addr, n) && f.fact == c[i].key
    ensures f == BodyFact(c[i])
  {
    hide CutOf;
    var w := Window(c);
    var j :| 0 <= j < |w| && IsBody(w[j], addr, n) && f == BodyFact(w[j]);
    assert w[j] == c[j + CutOf(c)];
  }

  /** The receipt of n stands over its completed turn, no record of it failed, and a body of
      n has no delivery record. */
  ghost predicate CutStrands(w: World, n: string, fact: string) {
    && ConsumeKey(n) in w.book.log.stored && Lookup(w.book.log.stored, AttemptKey(n)) == Some(Attempt(Completed))
    && n in w.book.receipts && n !in w.book.missed && !w.book.moved && w.ledger.tiered
    && n in w.book.routing && w.book.routing[n].agent == w.ledger.entry
    && (exists i :: 0 <= i < |ChainOf(w.book, n)| && ChainOf(w.book, n)[i].key == fact && IsBody(ChainOf(w.book, n)[i], w.book.routing[n], n))
    && !(FreshId(fact) in w.ledger.log.stored)
  }

  /** One body registered as the hand-off registers it. */
  function RecordedLedger(l: Ledger, fact: string, content: string, addr: Address): Ledger {
    l.(log := Barrier(Stage(l.log, FreshId(fact), Record(Delivery(Body(content, addr), "task"), Owed))))
  }

  lemma OneRecorded(l: Ledger, fact: string, content: string, addr: Address)
    requires Inv(l) && SeqCovers(l) && l.up && l.tiered
    requires FreshId(fact) in l.origin && l.origin[FreshId(fact)] == Body(content, addr)
    ensures HostMoves(l, RecordedLedger(l, fact, content, addr))
    ensures FreshId(fact) in RecordedLedger(l, fact, content, addr).log.stored
    ensures l.log == Empty() ==> forall k :: k in RecordedLedger(l, fact, content, addr).log.stored ==> k == FreshId(fact)
  {
    var t, rec := RecordedLedger(l, fact, content, addr), Record(Delivery(Body(content, addr), "task"), Owed);
    FreshIdFresh(fact);
    FreshSeq(FreshId(fact));
    StageStep(l.log, FreshId(fact), rec);
    BarrierStep(Stage(l.log, FreshId(fact), rec));
    InvRecorded(l, FreshId(fact), rec, true, t);
  }

  /** A turn that commits its first body, a whole window of further facts, and its last. */
  lemma LongTurn(w: World, n: string, addr: Address, first: Event, last: Event) returns (r: World)
    requires Drivable(w, n) && w.book.phases[n].Marked? && w.book.routing == map[n := addr]
    requires ChainOf(w.book, n) == [] && w.ledger.origin == map[]
    requires first == Answer("a", "first", addr, n) && last == Answer("b", "second", addr, n)
    ensures Reaches(w, r) && Drivable(r, n) && r.book.phases[n].Ran?
    ensures r.book == w.book.(phases := r.book.phases, chains := r.book.chains, drives := r.book.drives)
    ensures ChainOf(r.book, n) == LongChain(first, addr, last)
    ensures r.ledger == w.ledger.(origin := r.ledger.origin)
    ensures FreshId("b") in r.ledger.origin && r.ledger.origin[FreshId("b")] == Body("second", addr)
  {
    r := LongAdded(w, n, addr, first, last);
    hide Sound, AccountMoves, IsBody, Landed, LongChain, NoticeInvocation;
    StepKeeps(w, TurnStep(n, LongChain(first, addr, last)), r);
    ReachesSelf(w);
    ReachesStep(w, w, TurnStep(n, LongChain(first, addr, last)), r);
  }

  lemma LongAdded(w: World, n: string, addr: Address, first: Event, last: Event) returns (r: World)
    requires w.ledger.up && Holds(w.book, n) && w.book.phases[n].Marked? && w.book.routing == map[n := addr]
    requires ChainOf(w.book, n) == [] && w.ledger.origin == map[]
    requires first == Answer("a", "first", addr, n) && last == Answer("b", "second", addr, n)
    ensures AccountMoves(w, TurnStep(n, LongChain(first, addr, last)), r)
    ensures r.book == w.book.(phases := w.book.phases[n := Ran], chains := r.book.chains, drives := r.book.drives)
    ensures ChainAt(r.book.chains, addr.session) == LongChain(first, addr, last)
    ensures r.ledger == w.ledger.(origin := r.ledger.origin)
    ensures FreshId("b") in r.ledger.origin && r.ledger.origin[FreshId("b")] == Body("second", addr)
  {
    var b, facts := w.book, LongChain(first, addr, last);
    r := World(b.(phases := b.phases[n := Ran], chains := b.chains[addr.session := facts], drives := b.drives[n := Drives(b, n) + 1]),
               w.ledger.(origin := LongOrigin(addr)));
    LongChainKeyed(first, addr, last);
    LongNamed(n, addr, first, last);
    hide Sound, IsBody, Landed, LongChain, NoticeInvocation, DistinctKeys, LongOrigin;
    assert [] + facts == facts;
    LongGrown(w, n, addr, facts, r);
    hide Grown, BodyFact, FreshId;
    assert TurnRan(w, n, facts, r);
  }

  /** What the identities of the two bodies name. */
  function LongOrigin(addr: Address): map<string, Body> {
    map[FreshId("a") := Body("first", addr), FreshId("b") := Body("second", addr)]
  }

  lemma LongNamed(n: string, addr: Address, first: Event, last: Event)
    requires first == Answer("a", "first", addr, n) && last == Answer("b", "second", addr, n)
    ensures var c := LongChain(first, addr, last);
            forall i :: 0 <= i < |c| && IsBody(c[i], addr, n) ==>
              FreshId(BodyFact(c[i]).fact) in LongOrigin(addr) && LongOrigin(addr)[FreshId(BodyFact(c[i]).fact)] == Body(BodyFact(c[i]).content, addr)
    ensures FreshId("b") in LongOrigin(addr) && LongOrigin(addr)[FreshId("b")] == Body("second", addr)
  {
    LongBodies(n, addr, first, last);
    FreshIdFresh("a");
    FreshIdFresh("b");
    hide IsBody;
  }

  /** The first and the last fact carry the two bodies, and no fact between them any. */
  lemma LongBodies(n: string, addr: Address, first: Event, last: Event)
    requires first == Answer("a", "first", addr, n) && last == Answer("b", "second", addr, n)
    ensures var c := LongChain(first, addr, last);
            && (forall i :: 0 <= i < |c| && IsBody(c[i], addr, n) ==> i == 0 || i == FACT_WINDOW + 1)
            && IsBody(c[0], addr, n) && BodyFact(c[0]) == FreshBody("a", "first")
            && IsBody(c[FACT_WINDOW + 1], addr, n) && BodyFact(c[FACT_WINDOW + 1]) == FreshBody("b", "second")
  {
    AnswerIsBody("a", "first", addr, n);
    AnswerIsBody("b", "second", addr, n);
    var c := LongChain(first, addr, last);
    forall i | 0 < i <= FACT_WINDOW ensures !IsBody(c[i], addr, n) {
      assert c[i].message.role == "user";
    }
  }

  lemma LongGrown(w: World, n: string, addr: Address, facts: seq<Event>, r: World)
    requires w.ledger.up && w.book.routing == map[n := addr] && ChainOf(w.book, n) == [] && w.ledger.origin == map[]
    requires DistinctKeys([] + facts) && forall e :: e in facts ==> e.key != ""
    requires forall i :: 0 <= i < |facts| && IsBody(facts[i], addr, n) ==>
               FreshId(BodyFact(facts[i]).fact) in r.ledger.origin && r.ledger.origin[FreshId(BodyFact(facts[i]).fact)] == Body(BodyFact(facts[i]).content, addr)
    requires r.ledger == w.ledger.(origin := r.ledger.origin) && r.book.chains == w.book.chains[addr.session := [] + facts]
    ensures Grown(w, addr.session, facts, Some(n), r)
  {
    hide IsBody, DistinctKeys;
    assert ChainAt(w.book.chains, addr.session) == [];
    assert NewFacts(ChainOf(w.book, n), w.book.routing, w.ledger.origin, addr.session, facts, Some(n));
  }

  /** The hand-off registers what the window answers, and the receipt follows. */
  lemma ClosesBehind(v: World, n: string, addr: Address, first: Event, last: Event) returns (x: World)
    requires Sound(v) && v.ledger.up && v.ledger.tiered && v.ledger.log == Empty() && addr.agent == v.ledger.entry
    requires v.book.routing == map[n := addr] && ChainOf(v.book, n) == LongChain(first, addr, last)
    requires first == Answer("a", "first", addr, n) && last == Answer("b", "second", addr, n)
    requires FreshId("b") in v.ledger.origin && v.ledger.origin[FreshId("b")] == Body("second", addr)
    requires Holds(v.book, n) && v.book.phases[n] == Ended(Completed) && n !in v.book.missed && !v.book.moved
    requires Lookup(v.book.log.stored, AttemptKey(n)) == Some(Attempt(Completed)) && v.book.log.staged == map[]
    ensures Reaches(v, x) && CutStrands(x, n, "a")
  {
    var t := RecordedLedger(v.ledger, "b", "second", addr);
    OneRecorded(v.ledger, "b", "second", addr);
    LongBodies(n, addr, first, last);
    LongChainCut(first, addr, last);
    LastAnswered(v.book, n, addr, first, last, t);
    FreshIdFresh("a");
    FreshIdFresh("b");
    hide IsBody, CutOf, RecordedLedger, HostMoves, Inv, NoticeInvocation, Registers, ChainsKeyed, LogTyped, NoticeSound;
    var u := World(v.book.(readTo := v.book.readTo[n := |ChainOf(v.book, n)|]), t);
    RegisteredCarries(v.book, t, n);
    StepKeeps(v, RegisterStep(n), u);
    ReachesSelf(v);
    ReachesStep(v, v, RegisterStep(n), u);
    x := Closed(u, n);
    hide Reaches;
    ReachesChain(v, u, x);
    assert ChainOf(x.book, n)[0].key == "a";
  }

  lemma LastAnswered(b: Book, n: string, addr: Address, first: Event, last: Event, t: Ledger)
    requires b.routing == map[n := addr] && ChainOf(b, n) == LongChain(first, addr, last) && CutOf(ChainOf(b, n)) == 2
    requires forall i :: 0 <= i < |ChainOf(b, n)| && IsBody(ChainOf(b, n)[i], addr, n) ==> i == 0 || i == FACT_WINDOW + 1
    requires last.key == "b" && FreshId("b") in t.log.stored
    ensures Registers(b, n, t)
  {
    hide IsBody, CutOf;
    var c := ChainOf(b, n);
    forall f | f in BodiesAt(Window(c), addr, n) ensures f.fact == "b" {
      var i :| 0 <= i < |Window(c)| && IsBody(Window(c)[i], addr, n) && f == BodyFact(Window(c)[i]);
      assert Window(c)[i] == c[i + 2];
    }
  }

  /** The receipt of an account that may be closed. */
  lemma Closed(u: World, n: string) returns (x: World)
    requires Sound(u) && u.ledger.up && MayReceive(u, n)
    requires n !in u.book.missed && !u.book.moved && u.book.log.staged == map[]
    ensures Reaches(u, x) && x.ledger == u.ledger
    ensures x.book == u.book.(log := x.book.log, phases := x.book.phases, receipts := u.book.receipts + {n}, seats := x.book.seats)
    ensures ConsumeKey(n) in x.book.log.stored
    ensures Lookup(x.book.log.stored, AttemptKey(n)) == Lookup(u.book.log.stored, AttemptKey(n))
  {
    var g := Stage(u.book.log, ConsumeKey(n), Receipt);
    x := u.(book := u.book.(log := Barrier(g), phases := ReceiptPhases(u.book.phases, n, true),
                            receipts := u.book.receipts + {n}, seats := u.book.seats[n := Consumed]));
    StageStep(u.book.log, ConsumeKey(n), Receipt);
    BarrierStep(g);
    hide MayReceive;
    assert Received(u, n, true, x);
    ReachesSelf(u);
    ReachesStep(u, u, ReceiptStep(n, true), x);
  }

  /** A turn whose first body the window cut before its closing read: the read answers the
      last one alone, and the receipt is written behind it. */
  lemma TrimmedBodyStranded(n: string, addr: Address) returns (s: World, x: World)
    ensures Starts(s) && Reaches(s, x) && CutStrands(x, n, "a")
  {
    hide AccountMoves, Sound, Reaches, IsBody, CutOf, HostMoves;
    var w;
    s, w := Booted(n, addr);
    var first, last := Answer("a", "first", addr, n), Answer("b", "second", addr, n);
    var r := LongTurn(w, n, addr, first, last);
    ReachesChain(s, w, r);
    var v := Completes(r, n);
    ReachesChain(s, r, v);
    ReachesSound(r, v);
    x := ClosesBehind(v, n, addr, first, last);
    ReachesChain(s, v, x);
  }
}
