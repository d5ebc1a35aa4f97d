// The settle driver: the drain of the mailbox, the drive of one seat, and the two
// faces that may close its account. Claims are memory; attempts and receipts are
// durable and written behind one barrier each. Every method takes steps of the settle
// account and no others.
module SettleDriver {
  import opened Core
  import opened DeliveryIds
  import opened FactLog
  import opened DeliveryLedger
  import opened DeliverySteps
  import DeliveryHost
  import DeliveryReview
  import EventBody
  import opened FactWindow
  import opened TurnBodies
  import opened SettleAccount
  import opened SettleRuns
  import Faces = SettleFaces

  datatype Settlement = NotSettled | Settled | Unregistered

  /** How a fire ends, as far as the driver does not decide it: the loop is stopped, the
      flying segment already paired the task, the notice material does not commit, or a turn
      runs to a terminal, whose segment may have consumed the notice and which the wait may
      or may not answer. */
  datatype Turn = StoppedLoop | PairedAlready | Uncommitted | Turned(terminal: Terminal, consumed: bool, waited: bool)

  /** A world a call may start from. */
  ghost predicate Steady(w: World) {
    BookInv(w) && Inv(w.ledger) && SeqCovers(w.ledger)
  }

  /** The consumptions a carrier reads back from the records it finds. */
  function ReceiptsOf(kept: map<AccountKey, Mark>): (r: set<string>)
    ensures forall n :: n in r <==> ConsumeKey(n) in kept
  {
    var r := set k | k in kept.Keys && k.ConsumeKey? :: k.notice;
    assert forall n :: ConsumeKey(n) in kept ==> ConsumeKey(n).notice in r;
    r
  }

  /** The attempts it reads back. */
  function AttemptsOf(kept: map<AccountKey, Mark>): (r: map<string, Terminal>)
    requires forall k :: k in kept && k.AttemptKey? ==> kept[k].Attempt?
    ensures forall n :: n in r <==> AttemptKey(n) in kept
    ensures forall n :: n in r ==> kept[AttemptKey(n)] == Attempt(r[n])
  {
    var named := set k | k in kept.Keys && k.AttemptKey? :: k.notice;
    assert forall n :: AttemptKey(n) in kept ==> AttemptKey(n).notice in named;
    map n | n in named :: kept[AttemptKey(n)].terminal
  }

  /** What every call of the driver does: it takes steps of the account, in one process. */
  ghost predicate Advanced(w: World, v: World) {
    Reaches(w, v) && BookInv(v) && HostMoves(w.ledger, v.ledger) && Fenced(w, v)
  }

  lemma AdvancedRefl(w: World)
    requires Steady(w)
    ensures Advanced(w, w)
  {
    ReachesSelf(w);
    hide Reaches;
  }

  lemma AdvancedChain(w: World, u: World, v: World)
    requires Advanced(w, u) && Advanced(u, v)
    ensures Advanced(w, v)
    ensures Steady(v)
  {
    ReachesChain(w, u, v);
    hide BookInv, Inv, SeqCovers, Keeps, Reaches;
    HostMovesChain(w.ledger, u.ledger, v.ledger);
    FencedChain(w, u, v);
  }

  /** One step of the account. */
  lemma OneStep(w: World, step: Step, v: World)
    requires Steady(w) && AccountMoves(w, step, v) && !step.ReopenStep?
    ensures Advanced(w, v)
  {
    StepKeeps(w, step, v);
    StepLedger(w, step, v);
    ReachesSelf(w);
    ReachesStep(w, w, step, v);
  }

  lemma NextStep(w: World, u: World, step: Step, v: World)
    requires Advanced(w, u) && AccountMoves(u, step, v) && !step.ReopenStep?
    ensures Advanced(w, v)
  {
    hide AccountMoves, Reaches;
    OneStep(u, step, v);
    AdvancedChain(w, u, v);
  }

  lemma AttemptKnown(w: World, n: string, t: Terminal, v: World)
    requires Steady(w) && MayAttempt(w.book, n, t) && n in w.book.attempts && w.book.attempts[n] == t
    requires v == w.(book := w.book.(phases := w.book.phases[n := AttemptPhase(t, true)]))
    ensures Advanced(w, v)
  {
    hide MayAttempt, Steady, Advanced, AccountMoves;
    AttemptAdvances(w, n, t, true, v);
  }

  /** The record of an attempt landed. */
  lemma AttemptLanded(w: World, n: string, t: Terminal, g: Log<AccountKey, Mark>, v: World)
    requires Steady(w) && MayAttempt(w.book, n, t) && !(n in w.book.attempts && w.book.attempts[n] == t)
    requires MarkMoves(w.book.log, AttemptKey(n), Attempt(t), true, g) && HostMoves(w.ledger, v.ledger) && w.ledger.up && v.ledger.up
    requires v.book == w.book.(log := g, phases := w.book.phases[n := AttemptPhase(t, true)], attempts := w.book.attempts[n := t])
    ensures Advanced(w, v)
  {
    hide MayAttempt, Steady, Advanced, AccountMoves, MarkMoves, HostMoves;
    AttemptAdvances(w, n, t, true, v);
  }

  /** The record of an attempt reported a failure, or was cut. */
  lemma AttemptFailed(w: World, n: string, t: Terminal, g: Log<AccountKey, Mark>, v: World)
    requires Steady(w) && MayAttempt(w.book, n, t) && !(n in w.book.attempts && w.book.attempts[n] == t)
    requires MarkMoves(w.book.log, AttemptKey(n), Attempt(t), false, g) && HostMoves(w.ledger, v.ledger) && (!w.ledger.up ==> g == w.book.log)
    requires v.book == w.book.(log := g, phases := w.book.phases[n := AttemptPhase(t, false)], missed := v.book.missed)
    requires v.book.missed == if v.ledger.up && !t.InFlight? then w.book.missed + {n} else w.book.missed
    ensures Advanced(w, v)
  {
    hide MayAttempt, Steady, Advanced, AccountMoves, MarkMoves, HostMoves;
    AttemptAdvances(w, n, t, false, v);
  }

  lemma AttemptAdvances(w: World, n: string, t: Terminal, ok: bool, v: World)
    requires Steady(w) && Attempted(w, n, t, ok, v)
    ensures Advanced(w, v)
  {
    hide Attempted, Advanced, Steady;
    OneStep(w, AttemptStep(n, t, ok), v);
  }

  lemma ReceiptAdvances(w: World, n: string, ok: bool, v: World)
    requires Steady(w) && MayReceive(w, n) && Received(w, n, ok, v)
    ensures Advanced(w, v)
  {
    hide Received, MayReceive, Advanced, Steady;
    OneStep(w, ReceiptStep(n, ok), v);
  }

  lemma SeatAdvances(w: World, step: Step, v: World)
    requires Steady(w) && (step.SeatStep? || step.ClaimStep? || step.ReleaseStep?)
    requires SeatMoves(w.book, step, v.book) && v.ledger == w.ledger
    ensures Advanced(w, v)
  {
    hide SeatMoves, Advanced, Steady;
    OneStep(w, step, v);
  }

  lemma TurnAdvances(w: World, n: string, facts: seq<Event>, v: World)
    requires Steady(w) && TurnRan(w, n, facts, v)
    ensures Advanced(w, v)
  {
    hide TurnRan, Advanced, Steady;
    OneStep(w, TurnStep(n, facts), v);
  }

  /** The facts of a turn entered the chain of its session, each body named. */
  lemma TurnTaken(w: World, n: string, facts: seq<Event>, v: World)
    requires Steady(w) && w.ledger.up && n in w.book.routing && Holds(w.book, n) && w.book.phases[n].Marked?
    requires NewFacts(ChainOf(w.book, n), w.book.routing, w.ledger.origin, w.book.routing[n].session, facts, Some(n))
    requires forall k :: k in w.ledger.origin ==> k in v.ledger.origin && v.ledger.origin[k] == w.ledger.origin[k]
    requires Named(facts, w.book.routing[n], n, v.ledger.origin)
    requires v.ledger == w.ledger.(origin := v.ledger.origin)
    requires v.book == w.book.(phases := w.book.phases[n := Ran], drives := w.book.drives[n := DrivesOf(w.book.drives, n) + 1],
                               chains := w.book.chains[w.book.routing[n].session := ChainOf(w.book, n) + facts])
    ensures Advanced(w, v)
  {
    hide Steady, Advanced, NewFacts, IsBody, AccountMoves;
    assert Grown(w, w.book.routing[n].session, facts, Some(n), v);
    hide Grown;
    TurnAdvances(w, n, facts, v);
  }

  lemma GrowthAdvances(w: World, s: string, facts: seq<Event>, v: World)
    requires Steady(w) && Grown(w, s, facts, None, v) && v.book == w.book.(chains := v.book.chains)
    ensures Advanced(w, v)
  {
    hide Grown, Advanced, Steady;
    OneStep(w, GrowStep(s, facts), v);
  }

  /** A receipt of n stands, or may be written. */
  ghost predicate ClosableAt(w: World, n: string) {
    n in w.book.seats && (w.book.seats[n].Consumed? || MayReceive(w, n))
  }

  lemma ClosableReceives(w: World, n: string)
    requires ClosableAt(w, n)
    ensures n in w.book.seats && !w.book.seats[n].Pending? && (w.book.seats[n].Claimed? ==> MayReceive(w, n))
  {
  }

  /** The account of one fire closes: the segment in flight had paired the task, or the turn
      landed and its delivery or its wait met the account. A cancel beside a closing host is
      the stop and closes nothing. */
  predicate ClosesAccount(turn: Turn, closing: bool) {
    || turn.PairedAlready?
    || (turn.Turned? && (turn.consumed || turn.waited) && Landed(turn.terminal) && !(closing && turn.terminal.Cancelled?))
  }

  /** A turn that reports no terminal closes nothing, as one of an unknown terminal does. */
  lemma UnknownCloses(turn: Turn, terminal: Terminal, closing: bool)
    requires turn.Turned? && terminal == (if turn.terminal.InFlight? then Unclosed("unknown") else turn.terminal)
    ensures ClosesAccount(Turned(terminal, turn.consumed, turn.waited), closing) <==> ClosesAccount(turn, closing)
  {
  }

  /** The one settlement the account of a drive takes. */
  class SettleMarker {
    var taken: bool
    constructor ()
      ensures !taken
    {
      taken := false;
    }
  }

  class Driver {
    const host: DeliveryHost.Host
    /** the address each notification was frozen to; the mailbox seats no other */
    const routing: map<string, Address>
    /** the notifications that end a task */
    const terminalKinds: set<string>
    /** the target agents the host document declares */
    const scope: set<string>
    var log: Log<AccountKey, Mark>
    var receipts: set<string>
    var attempts: map<string, Terminal>
    var seats: map<string, Claim>
    // the facts every session committed
    var chains: map<string, seq<Event>>
    ghost var phases: map<string, Phase>
    ghost var readTo: map<string, nat>
    ghost var missed: set<string>
    ghost var drives: map<string, nat>
    ghost var moved: bool
    /** the account writes that failed or that a stop cut */
    ghost var lost: nat

    ghost function Account(): Book
      reads this
    {
      Book(log, receipts, attempts, seats, phases, routing, chains, readTo, missed, drives, moved)
    }

    ghost function State(): World
      reads this, host
    {
      World(Account(), host.Snap())
    }

    /** A driver over an account that holds nothing yet. */
    constructor (host: DeliveryHost.Host, routing: map<string, Address>, terminalKinds: set<string>, scope: set<string>)
      ensures this.host == host && this.routing == routing
      ensures Inv(host.Snap()) && !host.up ==> Starts(State())
    {
      this.host, this.routing, this.terminalKinds, this.scope := host, routing, terminalKinds, scope;
      log, receipts, attempts, seats, chains := Empty(), {}, map[], map[], map[];
      phases, readTo, missed, drives, moved, lost := map[], map[], {}, map[], false, 0;
    }

    /** The process still runs, and since then no durable call failed. */
    ghost predicate CalmSince(faults: nat, before: nat)
      reads this, host
    {
      host.up && host.faults == faults && lost == before
    }

    predicate Dispatchable(n: string)
      requires n in routing
    {
      routing[n].agent != "" && routing[n].agent in scope
    }

    /** A drive has the account of n in hand and has come this far. */
    ghost predicate Driving(n: string, phase: Phase)
      reads this
    {
      n in seats && seats[n].Claimed? && n in phases && phases[n] == phase
    }

    // --- the durable account ---

    /** One record staged and the barrier behind it. */
    method Write(k: AccountKey, m: Mark) returns (ok: bool)
      requires Steady(State())
      modifies this`log, this`lost, host`log, host`up
      ensures lost == if ok then old(lost) else old(lost) + 1
      ensures MarkMoves(old(log), k, m, ok, log) && (!old(host.up) ==> log == old(log))
      ensures HostMoves(old(host.Snap()), host.Snap())
      ensures host.Snap() == old(host.Snap()).(log := host.log, up := host.up)
      ensures ok ==> host.up && host.Snap() == old(host.Snap())
    {
      ghost var l, g := host.Snap(), log;
      SameHost(l);
      WriteMoves(State(), k, m);
      hide *;
      lost := lost + 1;
      if !host.up { return false; }
      if * { return false; }
      log := Stage(log, k, m);
      if * { return false; }
      if * {
        host.Stop();
        HostStopped(l, host.Snap());
        return false;
      }
      if * {
        var left: map<AccountKey, Mark> := *;
        if Survives(log, left) {
          SurvivedMoves(g, k, m, left);
          log := log.(stored := left);
        }
        return false;
      }
      log, lost := Barrier(log), lost - 1;
      ok := true;
    }

    /** The attempt of one notification; a record of the same content stages nothing. */
    method RecordAttempt(n: string, t: Terminal) returns (ok: bool)
      requires Steady(State()) && MayAttempt(Account(), n, t)
      modifies this`log, this`lost, this`attempts, this`phases, this`missed, host`log, host`up
      ensures Advanced(old(State()), State())
      ensures host.faults == old(host.faults) && lost == if ok then old(lost) else old(lost) + 1
      ensures ok ==> attempts == old(attempts)[n := t] && missed == old(missed)
      ensures !ok ==> attempts == old(attempts)
      ensures phases == old(phases)[n := AttemptPhase(t, ok)]
      ensures !ok && host.up && !t.InFlight? ==> missed == old(missed) + {n}
      ensures !(!ok && host.up && !t.InFlight?) ==> missed == old(missed)
    {
      hide Steady, Advanced, MayAttempt, AttemptPhase, AccountMoves, Attempted, Reaches;
      if n !in attempts || attempts[n] != t {
        ok := WriteAttempt(n, t);
        return;
      }
      ghost var w := State();
      phases := phases[n := AttemptPhase(t, true)];
      AttemptKnown(w, n, t, State());
      ok := true;
    }

    method WriteAttempt(n: string, t: Terminal) returns (ok: bool)
      requires Steady(State()) && MayAttempt(Account(), n, t) && !(n in attempts && attempts[n] == t)
      modifies this`log, this`lost, this`attempts, this`phases, this`missed, host`log, host`up
      ensures Advanced(old(State()), State())
      ensures host.faults == old(host.faults) && lost == if ok then old(lost) else old(lost) + 1
      ensures ok ==> attempts == old(attempts)[n := t] && missed == old(missed)
      ensures !ok ==> attempts == old(attempts)
      ensures phases == old(phases)[n := AttemptPhase(t, ok)]
      ensures !ok && host.up && !t.InFlight? ==> missed == old(missed) + {n}
      ensures !(!ok && host.up && !t.InFlight?) ==> missed == old(missed)
    {
      hide Steady, MarkMoves, HostMoves, Advanced, MayAttempt, AttemptPhase, AccountMoves, Attempted, Writes, Driving, Reaches;
      ghost var w := State();
      ok := Write(AttemptKey(n), Attempt(t));
      phases := phases[n := AttemptPhase(t, ok)];
      if ok {
        attempts := attempts[n := t];
        AttemptLanded(w, n, t, log, State());
        return;
      }
      if host.up && !t.InFlight? { missed := missed + {n}; }
      AttemptFailed(w, n, t, log, State());
    }

    // --- the mailbox ---

    /** Take one pending seat; a seat another consumer holds is refused. */
    method ClaimSeat(n: string) returns (ok: bool)
      requires Steady(State()) && n in seats
      modifies this`seats, this`phases
      ensures Advanced(old(State()), State())
      ensures seats.Keys == old(seats).Keys
      ensures ok ==> old(seats)[n].Pending? && seats == old(seats)[n := Claimed] && Driving(n, Open)
      ensures !ok ==> !seats[n].Pending?
      ensures forall j :: j in seats && j != n ==> seats[j] == old(seats)[j]
    {
      hide Steady, Advanced;
      ghost var w := State();
      AdvancedRefl(w);
      if !seats[n].Pending? { return false; }
      seats, phases := seats[n := Claimed], phases[n := Open];
      SeatAdvances(w, ClaimStep(n), State());
      // another consumer may have taken it first
      ok := *;
    }

    /** Hand a claimed seat back; a settled seat never returns to work. */
    method Release(n: string)
      requires Steady(State()) && !Driving(n, Left)
      modifies this`seats, this`phases
      ensures Advanced(old(State()), State())
      ensures n in old(seats) && old(seats)[n].Claimed? ==> seats == old(seats)[n := Pending]
      ensures !(n in old(seats) && old(seats)[n].Claimed?) ==> seats == old(seats)
    {
      ghost var w := State();
      PhaseHeld(w, n);
      hide Steady, Advanced;
      AdvancedRefl(w);
      if n in seats && seats[n].Claimed? {
        seats, phases := seats[n := Pending], phases - {n};
        SeatAdvances(w, ReleaseStep(n), State());
      }
    }

    /** Record the consumption of one claimed seat behind its receipt. A repeated
        consumption is answered as settled and an unclaimed one is refused. */
    method Consume(n: string) returns (ok: bool, settled: bool)
      requires Steady(State()) && (n in seats && seats[n].Claimed? ==> MayReceive(State(), n))
      modifies this`log, this`lost, this`receipts, this`seats, this`phases, host`log, host`up
      ensures Advanced(old(State()), State())
      ensures lost == if !ok && n in old(seats) && old(seats)[n].Claimed? then old(lost) + 1 else old(lost)
      ensures host.faults == old(host.faults)
      ensures settled <==> n in old(seats) && old(seats)[n].Consumed?
      ensures !(n in old(seats) && old(seats)[n].Claimed?) ==> !ok && State() == old(State())
      ensures ok ==> host.up && seats == old(seats)[n := Consumed] && n in receipts
      ensures !ok ==> seats == old(seats)
      ensures phases == if n in old(seats) && old(seats)[n].Claimed? then ReceiptPhases(old(phases), n, ok) else old(phases)
    {
      hide Steady, MarkMoves, HostMoves, Advanced, MayReceive, ReceiptPhases, AccountMoves;
      ghost var w := State();
      AdvancedRefl(w);
      if n !in seats { return false, false; }
      if seats[n].Consumed? { return false, true; }
      if seats[n].Pending? { return false, false; }
      settled := false;
      ok := Write(ConsumeKey(n), Receipt);
      if ok {
        receipts, seats := receipts + {n}, seats[n := Consumed];
      }
      phases := ReceiptPhases(phases, n, ok);
      ReceiptAdvances(w, n, ok, State());
    }

    // --- the facts ---

    /** Facts other work commits beside the drive: to any session, and with no body of a
        notification. */
    method Bystanders()
      requires Steady(State())
      modifies this`chains
      ensures Advanced(old(State()), State())
      ensures forall c :: ChainAt(old(chains), c) <= ChainAt(chains, c)
    {
      ghost var w := State();
      AdvancedRefl(w);
      var s: string, facts: seq<Event> := *, *;
      if host.up && NewFacts(ChainAt(chains, s), routing, host.origin, s, facts, None) {
        chains := chains[s := ChainAt(chains, s) + facts];
        hide Steady, Advanced, NewFacts;
        assert Grown(w, s, facts, None, State());
        GrowthAdvances(w, s, facts, State());
      }
    }

    /** generatedBodiesOf over the window the session answers now. */
    method ReadBodies(n: string) returns (bodies: seq<FreshBody>)
      requires Steady(State()) && n in routing
      modifies this`chains
      ensures Advanced(old(State()), State())
      ensures bodies == BodiesAt(Window(ChainAt(chains, routing[n].session)), routing[n], n)
      ensures DistinctFacts(bodies) && BodiesOf(host.origin, routing[n], bodies)
    {
      hide Advanced;
      Bystanders();
      ghost var w := State();
      SteadyOf(old(State()), w);
      ReadSoundly(w, n);
      hide *;
      bodies := ReadWindow(ChainAt(chains, routing[n].session), routing[n], n);
    }

    // --- the close of an account ---

    /** settleTerminal: the terminal a turn ended on closes the account of its notification.
        A cancel of the close itself settles nothing; a face that finds the marker taken
        reports a settlement; a completed turn is closed behind its registration alone. */
    method SettleTerminal(n: string, t: Terminal, marker: SettleMarker) returns (r: Settlement)
      requires Steady(State()) && n in routing && !t.InFlight?
      requires !marker.taken ==> Driving(n, Ran) || Driving(n, Ended(t))
      modifies this`log, this`lost, this`receipts, this`attempts, this`seats, this`phases, this`missed, this`readTo, this`chains
      modifies host`log, host`up, host`faults, host`closed, marker
      ensures Advanced(old(State()), State())
      ensures old(host.closed) && t.Cancelled? ==>
                r.NotSettled? && State() == old(State()) && marker.taken == old(marker.taken)
      ensures !(old(host.closed) && t.Cancelled?) && old(marker.taken) ==>
                r.Settled? && State() == old(State()) && marker.taken
      ensures r.Unregistered? ==> t.Completed? && !marker.taken && receipts == old(receipts) && seats == old(seats)
      ensures r.NotSettled? ==> (old(host.closed) && t.Cancelled?) || !Landed(t)
      ensures r.NotSettled? ==> marker.taken == old(marker.taken) && receipts == old(receipts) && seats == old(seats)
      ensures r.Settled? && !old(marker.taken) ==>
                marker.taken && Landed(t) && (seats == old(seats)[n := Consumed] || (seats == old(seats) && old(lost) < lost))
      ensures r.Settled? && !old(marker.taken) ==> ClosableAt(State(), n)
      ensures !marker.taken ==> Driving(n, Ran) || Driving(n, Ended(t))
      ensures old(host.faults) <= host.faults && old(lost) <= lost
      ensures forall j :: j in old(attempts) ==> j in attempts
      ensures !t.Completed? ==> host.closed == old(host.closed)
      ensures Landed(t) && !(old(host.closed) && t.Cancelled?) && !old(marker.taken) && CalmSince(old(host.faults), old(lost)) ==>
                r.Settled? && seats == old(seats)[n := Consumed]
    {
      hide Steady, HostMoves, Carried, Advanced, MayReceive, MayAttempt, AccountMoves, AttemptPhase, ClosableAt;
      AdvancedRefl(State());
      if host.closed && t.Cancelled? { return NotSettled; }
      if marker.taken { return Settled; }
      marker.taken := true;
      r := SettleHeld(n, t);
      if !r.Settled? { marker.taken := false; }
    }

    /** The settlement behind a marker this face took. */
    method SettleHeld(n: string, t: Terminal) returns (r: Settlement)
      requires Steady(State()) && n in routing && !t.InFlight? && (Driving(n, Ran) || Driving(n, Ended(t)))
      modifies this`log, this`lost, this`receipts, this`attempts, this`seats, this`phases, this`missed, this`readTo, this`chains
      modifies host`log, host`up, host`faults, host`closed
      ensures Advanced(old(State()), State())
      ensures r.NotSettled? <==> !Landed(t)
      ensures r.Unregistered? ==> t.Completed?
      ensures !r.Settled? ==> receipts == old(receipts) && seats == old(seats) && Driving(n, Ended(t))
      ensures r.Settled? ==> ClosableAt(State(), n) && (seats == old(seats)[n := Consumed] || (seats == old(seats) && old(lost) < lost))
      ensures old(host.faults) <= host.faults && old(lost) <= lost
      ensures forall j :: j in old(attempts) ==> j in attempts
      ensures !t.Completed? ==> host.closed == old(host.closed)
      ensures Landed(t) && CalmSince(old(host.faults), old(lost)) ==> r.Settled? && seats == old(seats)[n := Consumed]
    {
      hide Steady, HostMoves, Carried, Advanced, MayReceive, AccountMoves, ClosableAt;
      ghost var w := State();
      NoteTerminal(n, t);
      ghost var u := State();
      SteadyOf(w, u);
      hide Driving;
      if !Landed(t) { return NotSettled; }
      var ok := CloseTerminal(n, t);
      AdvancedChain(w, u, State());
      UpBefore(u, State());
      r := if ok then Settled else Unregistered;
    }

    /** The attempt of a turn behind its terminal; a refused record is reported and nothing
        more. */
    method NoteTerminal(n: string, t: Terminal)
      requires Steady(State()) && !t.InFlight? && (Driving(n, Ran) || Driving(n, Ended(t)))
      modifies this`log, this`lost, this`attempts, this`phases, this`missed, host`log, host`up
      ensures Advanced(old(State()), State()) && Driving(n, Ended(t))
      ensures host.faults == old(host.faults) && old(lost) <= lost
      ensures forall j :: j in old(attempts) ==> j in attempts
    {
      hide Steady, Advanced, AccountMoves;
      var _ := RecordAttempt(n, t);
    }

    /** A landed terminal closes its account: the registration, then the receipt. A refused
        registration writes no receipt. */
    method CloseTerminal(n: string, t: Terminal) returns (ok: bool)
      requires Steady(State()) && n in routing && Landed(t) && Driving(n, Ended(t))
      modifies this`log, this`lost, this`receipts, this`seats, this`phases, this`readTo, this`chains
      modifies host`log, host`up, host`faults, host`closed
      ensures Advanced(old(State()), State())
      ensures !ok ==> t.Completed? && receipts == old(receipts) && seats == old(seats) && phases == old(phases)
      ensures ok ==> ClosableAt(State(), n)
      ensures ok ==> seats == old(seats)[n := Consumed] || (seats == old(seats) && old(lost) < lost)
      ensures old(host.faults) <= host.faults && old(lost) <= lost
      ensures !t.Completed? ==> host.closed == old(host.closed)
      ensures CalmSince(old(host.faults), old(lost)) ==> ok && seats == old(seats)[n := Consumed]
    {
      hide Steady, HostMoves, Carried, Advanced, MayReceive, AccountMoves;
      ghost var u := State();
      ok := RegisterTerminal(n, t);
      ghost var v := State();
      SteadyOf(u, v);
      UpBefore(u, v);
      if !ok { return; }
      var _, _ := Consume(n);
      ReceiveAgain(v, State(), n, t);
      UpBefore(v, State());
      AdvancedChain(u, v, State());
    }

    /** What a landed terminal owes before its receipt: a completed turn registers every
        body the window answers, and a refused registration keeps the entry owed. */
    method RegisterTerminal(n: string, t: Terminal) returns (ok: bool)
      requires Steady(State()) && n in routing && Landed(t) && Driving(n, Ended(t))
      modifies this`readTo, this`chains, host`log, host`up, host`faults, host`closed
      ensures Advanced(old(State()), State())
      ensures ok ==> MayReceive(State(), n)
      ensures !ok ==> t.Completed?
      ensures old(host.faults) <= host.faults && (!ok && old(host.up) ==> old(host.faults) < host.faults)
      ensures !t.Completed? ==> host.closed == old(host.closed)
      ensures ok && t.Completed? ==> Carried(Account(), host.Snap(), n)
    {
      hide BookInv, Inv, SeqCovers, HostMoves, Fenced, Carried, OwedStaged, LogMove, RegistrationAnswer, Advanced, Reaches;
      ghost var w := State();
      AdvancedRefl(w);
      if !t.Completed? { return true; }
      var bodies := ReadBodies(n);
      ghost var v := State();
      SteadyOf(w, v);
      var owed;
      ok, owed := host.RecordDeliveryOwed(routing[n], "task", bodies);
      ghost var l := host.Snap();
      RegistrationHost(v.ledger, l);
      if ok {
        readTo := readTo[n := |ChainAt(chains, routing[n].session)|];
        RegistrationAnswers(v, n, bodies, owed, l);
        ReadClosed(w, v, n, State());
      } else {
        NextStep(w, v, HostStep, State());
      }
    }

    // --- the drive of one seat ---

    /** The follow-up turn: it commits new facts under the notification beside whatever else
        its session commits. A stopped process runs none. */
    method RunTurn(n: string)
      requires Steady(State()) && n in routing && Driving(n, Marked)
      modifies this`chains, this`drives, this`phases, host`origin
      ensures Advanced(old(State()), State())
      ensures forall j :: j != n ==> DrivesOf(drives, j) == DrivesOf(old(drives), j)
      ensures DrivesOf(drives, n) == DrivesOf(old(drives), n) + if host.up then 1 else 0
      ensures host.up == old(host.up)
      ensures Driving(n, if host.up then Ran else Marked)
    {
      AdvancedRefl(State());
      hide Steady, Advanced, AccountMoves;
      if !host.up { return; }
      DrivenOnce(drives, n);
      TakeTurn(n);
    }

    method TakeTurn(n: string)
      requires Steady(State()) && n in routing && Driving(n, Marked) && host.up
      modifies this`chains, this`drives, this`phases, host`origin
      ensures Advanced(old(State()), State())
      ensures drives == old(drives)[n := DrivesOf(old(drives), n) + 1] && phases == old(phases)[n := Ran]
    {
      ghost var w := State();
      hide Steady, Advanced, NewFacts, ChainAt, IsBody, Grown, Named, AccountMoves, Reaches, Drives, DrivesOf;
      var s := routing[n].session;
      var facts := GenerateFacts(n);
      chains := chains[s := ChainAt(chains, s) + facts];
      drives := drives[n := DrivesOf(drives, n) + 1];
      phases := phases[n := Ran];
      TurnTaken(w, n, facts, State());
    }

    /** Whatever facts a turn commits, they are new to the chain, and its bodies name no
        other notification. */
    method GenerateFacts(n: string) returns (facts: seq<Event>)
      requires n in routing && Steady(State())
      modifies host`origin
      ensures NewFacts(ChainAt(chains, routing[n].session), routing, old(host.origin), routing[n].session, facts, Some(n))
      ensures forall k :: k in old(host.origin) ==> k in host.origin && host.origin[k] == old(host.origin)[k]
      ensures Named(facts, routing[n], n, host.origin)
    {
      var s := routing[n].session;
      KeyedChain(State(), s);
      hide *;
      facts := *;
      if !NewFacts(ChainAt(chains, s), routing, host.origin, s, facts, Some(n)) {
        facts := [];
        NoFacts(ChainAt(chains, s), routing, host.origin, s, Some(n));
      }
      CommitFacts(n, facts);
    }

    /** The facts of a turn enter the chain, each under a key the chain did not hold. */
    method CommitFacts(n: string, facts: seq<Event>)
      requires n in routing && NewFacts(ChainAt(chains, routing[n].session), routing, host.origin, routing[n].session, facts, Some(n))
      modifies host`origin
      ensures forall k :: k in old(host.origin) ==> k in host.origin && host.origin[k] == old(host.origin)[k]
      ensures Named(facts, routing[n], n, host.origin)
    {
      NewKeys(ChainAt(chains, routing[n].session), routing, host.origin, routing[n].session, facts, Some(n));
      hide *;
      ghost var was := host.origin;
      NamedStart(facts, routing[n], n, was);
      for i := 0 to |facts|
        invariant Naming(facts, routing[n], n, was, i, host.origin)
      {
        NamedStep(facts, routing[n], n, was, i, host.origin);
        if IsBody(facts[i], routing[n], n) {
          host.origin := host.origin[FreshId(facts[i].key) := Body(BodyFact(facts[i]).content, routing[n])];
        }
      }
      NamedEnd(facts, routing[n], n, was, host.origin);
    }

    /** fireNoticeTurn: the wake of the address, the turn it drives, and the two faces that
        close its account one after the other: the delivery of the segment that consumed
        the notice, then the wait this call holds. Both read one answer. The steps say how
        the two faces met the account. */
    method Fire(n: string, marker: SettleMarker, turn: Turn) returns (ok: bool, ghost steps: seq<Faces.Step>)
      requires Steady(State()) && n in routing && Driving(n, Marked) && !marker.taken
      modifies this`log, this`lost, this`receipts, this`attempts, this`seats, this`phases, this`missed, this`readTo, this`chains, this`drives
      modifies host`log, host`up, host`faults, host`closed, host`origin, marker
      ensures Advanced(old(State()), State())
      ensures seats == old(seats) || seats == old(seats)[n := Consumed]
      ensures ok ==> ClosableAt(State(), n)
      ensures !ok ==> !Driving(n, Left)
      ensures Faces.IsTrace(steps) && Faces.WaitsForDelivery(steps) && Faces.After(steps).marker == marker.taken
      ensures turn.Turned? ==> (ok <==> Faces.Reports(Faces.After(steps).fire))
      ensures old(host.faults) <= host.faults && old(lost) <= lost
      ensures !turn.Turned? ==> seats == old(seats) && drives == old(drives) && (ok <==> turn.PairedAlready?)
      ensures turn.Turned? ==> DrivesOf(drives, n) == DrivesOf(old(drives), n) + if old(host.up) then 1 else 0
      ensures forall j :: j != n ==> DrivesOf(drives, j) == DrivesOf(old(drives), j)
      ensures forall j :: j in old(attempts) ==> j in attempts
      ensures !ClosesAccount(turn, old(host.closed)) ==> seats == old(seats) && !ok
      ensures turn.Turned? && ClosesAccount(turn, old(host.closed)) && CalmSince(old(host.faults), old(lost)) ==>
                (ok <==> turn.waited) && seats == old(seats)[n := Consumed]
    {
      hide Steady, HostMoves, Carried, Advanced, AccountMoves, MayReceive, ClosableAt, Faces.IsTrace, Faces.After, Faces.WaitsForDelivery;
      if turn.Turned? {
        ok, steps := FireTurn(n, marker, turn);
        return;
      }
      AdvancedRefl(State());
      steps := [];
      FacesStart();
      if turn.PairedAlready? { PairedCloses(n); }
      ok := turn.PairedAlready?;
    }

    /** The turn of a fire and the faces behind it. */
    method FireTurn(n: string, marker: SettleMarker, turn: Turn) returns (ok: bool, ghost steps: seq<Faces.Step>)
      requires Steady(State()) && n in routing && Driving(n, Marked) && !marker.taken && turn.Turned?
      modifies this`log, this`lost, this`receipts, this`attempts, this`seats, this`phases, this`missed, this`readTo, this`chains, this`drives
      modifies host`log, host`up, host`faults, host`closed, host`origin, marker
      ensures Advanced(old(State()), State())
      ensures seats == old(seats) || seats == old(seats)[n := Consumed]
      ensures (ok ==> ClosableAt(State(), n)) && (!ok ==> !Driving(n, Left))
      ensures Faces.IsTrace(steps) && Faces.WaitsForDelivery(steps) && Faces.After(steps).marker == marker.taken
      ensures ok <==> Faces.Reports(Faces.After(steps).fire)
      ensures old(host.faults) <= host.faults && old(lost) <= lost
      ensures DrivesOf(drives, n) == DrivesOf(old(drives), n) + if old(host.up) then 1 else 0
      ensures forall j :: j != n ==> DrivesOf(drives, j) == DrivesOf(old(drives), j)
      ensures forall j :: j in old(attempts) ==> j in attempts
      ensures !ClosesAccount(turn, old(host.closed)) ==> seats == old(seats) && !ok
      ensures ClosesAccount(turn, old(host.closed)) && CalmSince(old(host.faults), old(lost)) ==>
                (ok <==> turn.waited) && seats == old(seats)[n := Consumed]
    {
      hide Steady, HostMoves, Carried, Advanced, AccountMoves, MayReceive, ClosableAt, Faces.IsTrace, Faces.After, Faces.WaitsForDelivery, DrivesOf, ClosesAccount;
      ghost var w := State();
      RunTurn(n);
      ghost var u := State();
      SteadyOf(w, u);
      if !host.up {
        steps := [];
        FacesStart();
        return false, steps;
      }
      var terminal := if turn.terminal.InFlight? then Unclosed("unknown") else turn.terminal;
      UnknownCloses(turn, terminal, host.closed);
      ok, steps := MeetFaces(n, terminal, turn.consumed, turn.waited, marker);
      UpBefore(u, State());
      AdvancedChain(w, u, State());
    }

    /** The two faces of a turn that ran: the delivery of the segment that consumed the
        notice, and behind it the fire face, which a wait that was cut never becomes. */
    method MeetFaces(n: string, t: Terminal, consumed: bool, waited: bool, marker: SettleMarker) returns (ok: bool, ghost steps: seq<Faces.Step>)
      requires Steady(State()) && n in routing && Driving(n, Ran) && !marker.taken && !t.InFlight?
      modifies this`log, this`lost, this`receipts, this`attempts, this`seats, this`phases, this`missed, this`readTo, this`chains
      modifies host`log, host`up, host`faults, host`closed, marker
      ensures Advanced(old(State()), State())
      ensures seats == old(seats) || seats == old(seats)[n := Consumed]
      ensures (ok ==> ClosableAt(State(), n)) && (!ok ==> !Driving(n, Left))
      ensures Faces.IsTrace(steps) && Faces.WaitsForDelivery(steps) && Faces.After(steps).marker == marker.taken
      ensures ok <==> Faces.Reports(Faces.After(steps).fire)
      ensures old(host.faults) <= host.faults && old(lost) <= lost
      ensures forall j :: j in old(attempts) ==> j in attempts
      ensures ok ==> ClosesAccount(Turned(t, consumed, waited), old(host.closed))
      ensures !ClosesAccount(Turned(t, consumed, waited), old(host.closed)) ==> seats == old(seats)
      ensures CalmSince(old(host.faults), old(lost)) && ClosesAccount(Turned(t, consumed, waited), old(host.closed)) ==>
                (ok <==> waited) && seats == old(seats)[n := Consumed]
    {
      hide Steady, HostMoves, Carried, Advanced, AccountMoves, MayReceive, ClosableAt, Faces.IsTrace, Faces.After, Faces.WaitsForDelivery;
      ghost var w := State();
      AdvancedRefl(w);
      steps := [];
      FacesStart();
      if consumed {
        var first := SettleTerminal(n, t, marker);
        steps := FaceMet(steps, Faces.DeliveryFace, first, false, marker.taken);
        if first.Settled? { ClosableOpen(n); }
      }
      // the wait was cut
      if !waited { return false, steps; }
      ghost var v, taken := State(), marker.taken;
      SteadyOf(w, v);
      UpBefore(w, v);
      var r := SettleTerminal(n, t, marker);
      steps := FaceMet(steps, Faces.FireFace, r, taken, marker.taken);
      UpBefore(v, State());
      AdvancedChain(w, v, State());
      ok := r.Settled?;
    }

    lemma ClosableOpen(n: string)
      requires ClosableAt(State(), n)
      ensures !Driving(n, Left)
    {
    }

    lemma PairedCloses(n: string)
      requires Driving(n, Marked)
      ensures ClosableAt(State(), n)
    {
    }

    /** driveSeat: a seat this driver claimed ends consumed or handed back, and a landed
        attempt is closed behind its hand-off without a turn. */
    method DriveSeat(n: string, readable: bool, turn: Turn)
      requires Steady(State()) && n in routing && Driving(n, Open)
      modifies this`log, this`lost, this`receipts, this`attempts, this`seats, this`phases, this`missed, this`readTo, this`chains, this`drives, host
      ensures Advanced(old(State()), State())
      ensures seats == old(seats)[n := Consumed] || seats == old(seats)[n := Pending] || (seats == old(seats) && old(lost) < lost)
      ensures !readable ==> seats == old(seats)[n := Pending] && drives == old(drives) && log == old(log)
      ensures drives != old(drives) ==>
                readable && !(n in old(attempts) && Landed(old(attempts)[n])) && Dispatchable(n) && turn.Turned? && AttemptKey(n) in log.stored
      ensures forall j :: j != n ==> DrivesOf(drives, j) == DrivesOf(old(drives), j)
      ensures DrivesOf(drives, n) <= DrivesOf(old(drives), n) + 1
      ensures readable && n in old(attempts) && Landed(old(attempts)[n]) && CalmSince(old(host.faults), old(lost)) ==>
                seats == old(seats)[n := Consumed]
      ensures readable && !(n in old(attempts) && Landed(old(attempts)[n])) && CalmSince(old(host.faults), old(lost)) ==>
                TurnEnds(n, turn, old(host.closed), old(seats), DrivesOf(old(drives), n))
    {
      hide BookInv, Inv, SeqCovers, HostMoves, Fenced, Carried, Advanced, TurnEnds;
      // the fact could not be read, or names no settled task; the attempt could not be read
      if !readable { Release(n); return; }
      if n in attempts && Landed(attempts[n]) {
        CloseLanded(n);
        return;
      }
      DriveTurn(n, turn);
    }

    /** How the seat of an attempt that has not landed ends in a calm process: consumed
        exactly when a dispatch to a declared target closed its account, and pending again
        otherwise. A turn is counted exactly when one was fired. */
    ghost predicate TurnEnds(n: string, turn: Turn, closing: bool, was: map<string, Claim>, drivesBefore: nat)
      requires n in routing
      reads this
    {
      && (Dispatchable(n) && ClosesAccount(turn, closing) ==> seats == was[n := Consumed] && n in receipts)
      && (!(Dispatchable(n) && ClosesAccount(turn, closing)) ==> seats == was[n := Pending])
      && DrivesOf(drives, n) == drivesBefore + if Dispatchable(n) && turn.Turned? then 1 else 0
    }

    /** The drive of a turn: its in-flight marker lands first, the dispatch is judged against
        the declared targets, and a fire that leaves the account open hands the seat back. */
    method DriveTurn(n: string, turn: Turn)
      requires Steady(State()) && n in routing && Driving(n, Open)
      requires n in attempts ==> !Landed(attempts[n])
      modifies this`log, this`lost, this`receipts, this`attempts, this`seats, this`phases, this`missed, this`readTo, this`chains, this`drives
      modifies host`log, host`up, host`faults, host`closed, host`origin
      ensures Advanced(old(State()), State())
      ensures seats == old(seats)[n := Consumed] || seats == old(seats)[n := Pending] || (seats == old(seats) && old(lost) < lost)
      ensures drives != old(drives) ==> Dispatchable(n) && turn.Turned? && AttemptKey(n) in log.stored
      ensures forall j :: j != n ==> DrivesOf(drives, j) == DrivesOf(old(drives), j)
      ensures DrivesOf(drives, n) <= DrivesOf(old(drives), n) + 1
      ensures CalmSince(old(host.faults), old(lost)) ==> TurnEnds(n, turn, old(host.closed), old(seats), DrivesOf(old(drives), n))
    {
      hide BookInv, Inv, SeqCovers, HostMoves, Fenced, Carried, Advanced, Reaches;
      ghost var w := State();
      var ok := RecordAttempt(n, InFlight);
      ghost var u := State();
      SteadyOf(w, u);
      UpBefore(w, u);
      if !ok || !Dispatchable(n) {
        Release(n);
        AdvancedChain(w, u, State());
        return;
      }
      FireMarked(n, turn);
      UpBefore(u, State());
      AdvancedChain(w, u, State());
      AttemptStored(State(), n);
      ConsumedKnown(State(), n);
    }

    /** The fire behind the in-flight marker, and the seat its answer leaves. */
    method FireMarked(n: string, turn: Turn)
      requires Steady(State()) && n in routing && Driving(n, Marked)
      requires n in attempts && !Landed(attempts[n]) && Dispatchable(n)
      modifies this`log, this`lost, this`receipts, this`attempts, this`seats, this`phases, this`missed, this`readTo, this`chains, this`drives
      modifies host`log, host`up, host`faults, host`closed, host`origin
      ensures Advanced(old(State()), State())
      ensures seats == old(seats)[n := Consumed] || seats == old(seats)[n := Pending] || (seats == old(seats) && old(lost) < lost)
      ensures drives != old(drives) ==> turn.Turned?
      ensures forall j :: j != n ==> DrivesOf(drives, j) == DrivesOf(old(drives), j)
      ensures DrivesOf(drives, n) <= DrivesOf(old(drives), n) + 1
      ensures old(host.faults) <= host.faults && old(lost) <= lost && n in attempts
      ensures CalmSince(old(host.faults), old(lost)) && ClosesAccount(turn, old(host.closed)) ==> seats == old(seats)[n := Consumed]
      ensures !ClosesAccount(turn, old(host.closed)) ==> seats == old(seats)[n := Pending]
      ensures CalmSince(old(host.faults), old(lost)) ==> DrivesOf(drives, n) == DrivesOf(old(drives), n) + if turn.Turned? then 1 else 0
    {
      hide Steady, HostMoves, Carried, Advanced, MayReceive, ClosableAt, AccountMoves, Faces.IsTrace, Faces.After, Faces.WaitsForDelivery;
      ghost var u := State();
      var marker := new SettleMarker();
      var ok, _ := Fire(n, marker, turn);
      ghost var v := State();
      SteadyOf(u, v);
      UpBefore(u, v);
      LeaveSeat(n, ok);
      UpBefore(v, State());
      AdvancedChain(u, v, State());
    }

    /** The seat behind a fire: consumed, or handed back beside an account left open. */
    method LeaveSeat(n: string, ok: bool)
      requires Steady(State()) && n in seats && (if ok then ClosableAt(State(), n) else !Driving(n, Left))
      modifies this`log, this`lost, this`receipts, this`seats, this`phases, host`log, host`up
      ensures Advanced(old(State()), State())
      ensures !ok ==> seats == (if old(seats)[n].Claimed? then old(seats)[n := Pending] else old(seats)) && lost == old(lost)
      ensures ok ==> seats == old(seats)[n := Consumed] || (seats == old(seats) && old(lost) < lost)
      ensures old(lost) <= lost && host.faults == old(host.faults)
    {
      hide Steady, HostMoves, Carried, Advanced, MayReceive, AccountMoves;
      if !ok { Release(n); return; }
      ClosableReceives(State(), n);
      assert seats[n].Consumed? ==> seats == seats[n := Consumed];
      var _, _ := Consume(n);
    }

    /** The seat of an attempt that already landed: the bodies of its turn are handed off,
        and the receipt the stopped process never wrote is written behind them. */
    method CloseLanded(n: string)
      requires Steady(State()) && n in routing && Driving(n, Open)
      requires n in attempts && Landed(attempts[n])
      modifies this`log, this`lost, this`receipts, this`seats, this`phases, this`readTo, this`chains, host
      ensures Advanced(old(State()), State())
      ensures CalmSince(old(host.faults), old(lost)) ==> seats == old(seats)[n := Consumed]
      ensures seats == old(seats)[n := Consumed] || seats == old(seats)[n := Pending] || (seats == old(seats) && old(lost) < lost)
      ensures n in seats && seats[n].Consumed? ==> Carried(Account(), host.Snap(), n)
    {
      hide Steady, HostMoves, Carried, Advanced, MayReceive, AccountMoves;
      ghost var w := State();
      var ok := HandOff(n);
      ghost var u := State();
      SteadyOf(w, u);
      UpBefore(w, u);
      if ok {
        LandedReceives(u, n);
        var _, _ := Consume(n);
        AdvancedChain(w, u, State());
        CarriedKept(u, State(), n);
      } else {
        Release(n);
        AdvancedChain(w, u, State());
      }
    }

    /** The bodies of a landed turn, handed to the host that owes them. */
    method HandOff(n: string) returns (ok: bool)
      requires Steady(State()) && n in routing && Driving(n, Open)
      modifies this`readTo, this`chains, host
      ensures Advanced(old(State()), State())
      ensures ok ==> Carried(Account(), host.Snap(), n)
      ensures old(host.faults) <= host.faults && (!ok && old(host.up) ==> old(host.faults) < host.faults)
    {
      hide BookInv, Inv, SeqCovers, HostMoves, Fenced, Carried, Advanced, Reaches, CallMoves;
      hide DeliveryReview.Conversed, DeliveryReview.OwedAnswer, DeliveryReview.DeliveriesOf, BodiesOf, DistinctFacts, BodiesAt, Window;
      ghost var w := State();
      var bodies := ReadBodies(n);
      ghost var v := State();
      SteadyOf(w, v);
      ghost var due;
      ok, due := host.HandoffSettledBodies(routing[n], bodies);
      ghost var l := host.Snap();
      HandoffHost(v.ledger, l);
      if ok {
        readTo := readTo[n := |ChainAt(chains, routing[n].session)|];
        HandoffAnswers(v, n, bodies, l);
        ReadClosed(w, v, n, State());
      } else {
        NextStep(w, v, HostStep, State());
      }
    }

    // --- the pass over the mailbox ---

    /** RestoreOwed: every committed notification no receipt closed is seated, once. */
    method RestoreOwed(committed: set<string>)
      requires Steady(State())
      modifies this`seats
      ensures Advanced(old(State()), State())
      ensures seats.Keys == old(seats).Keys + (committed * routing.Keys - receipts)
      ensures forall j :: j in old(seats) ==> j in seats && seats[j] == old(seats)[j]
      ensures forall j :: j in seats && j !in old(seats) ==> seats[j].Pending? && j !in receipts
    {
      hide BookInv, Inv, SeqCovers, HostMoves, Fenced, Reaches, Advanced;
      ghost var w := State();
      AdvancedRefl(w);
      var owed := committed * (routing.Keys - receipts - seats.Keys);
      while owed != {}
        invariant Advanced(w, State()) && owed <= routing.Keys - receipts - seats.Keys
        invariant seats.Keys + owed == w.book.seats.Keys + (committed * routing.Keys - receipts)
        invariant forall j :: j in w.book.seats ==> j in seats && seats[j] == w.book.seats[j]
        invariant forall j :: j in seats && j !in w.book.seats ==> seats[j].Pending? && j !in receipts
      {
        var n :| n in owed;
        ghost var u := State();
        seats := seats[n := Pending];
        owed := owed - {n};
        NextStep(w, u, SeatStep(n), State());
      }
    }

    /** drain: one pass over what the mailbox owes. It ends, drives a notification at most
        once, and ends by itself only when every pending terminal seat was tried. */
    method Drain(committed: set<string>, mayStop: bool) returns (stopped: bool, tried: set<string>)
      requires Steady(State())
      modifies this`log, this`lost, this`receipts, this`attempts, this`seats, this`phases, this`missed, this`readTo, this`chains, this`drives, host
      ensures Advanced(old(State()), State())
      ensures tried <= routing.Keys && (stopped ==> mayStop)
      ensures forall n :: DrivesOf(drives, n) <= DrivesOf(old(drives), n) + if n in tried then 1 else 0
      ensures !stopped ==> forall n :: n in seats && n in terminalKinds && seats[n].Pending? ==> n in tried
    {
      hide BookInv, Inv, SeqCovers, HostMoves, Fenced, Advanced;
      ghost var w := State();
      AdvancedRefl(w);
      tried, stopped := {}, false;
      var worked := true;
      while worked
        invariant Advanced(w, State()) && tried <= routing.Keys
        invariant forall n :: DrivesOf(drives, n) <= DrivesOf(w.book.drives, n) + if n in tried then 1 else 0
        invariant !worked ==> forall n :: n in seats && n in terminalKinds && seats[n].Pending? ==> n in tried
        decreases |routing.Keys - tried|, worked
      {
        if mayStop {
          if * { return true, tried; }
        }
        ghost var u := State();
        SteadyOf(w, u);
        RestoreOwed(committed);
        AdvancedChain(w, u, State());
        ghost var before := tried;
        worked, tried, stopped := DrainSnapshot(w, tried, mayStop);
        if stopped { return; }
        if worked { Shrinks(routing.Keys, before, tried); }
      }
    }

    /** One sweep over the seats as they were listed: a seat listed pending, of a kind that
        ends a task and not tried in this pass, is claimed and driven. */
    method DrainSnapshot(ghost w: World, before: set<string>, mayStop: bool) returns (worked: bool, tried: set<string>, stopped: bool)
      requires Advanced(w, State()) && before <= routing.Keys
      requires forall n :: DrivesOf(drives, n) <= DrivesOf(w.book.drives, n) + if n in before then 1 else 0
      modifies this`log, this`lost, this`receipts, this`attempts, this`seats, this`phases, this`missed, this`readTo, this`chains, this`drives, host
      ensures Advanced(w, State()) && before <= tried <= routing.Keys && (stopped ==> mayStop)
      ensures forall n :: DrivesOf(drives, n) <= DrivesOf(w.book.drives, n) + if n in tried then 1 else 0
      ensures worked <==> tried != before
      ensures !worked && !stopped ==> forall n :: n in seats && n in terminalKinds && seats[n].Pending? ==> n in tried
    {
      hide BookInv, Inv, SeqCovers, HostMoves, Fenced, Advanced;
      tried, worked, stopped := before, false, false;
      SteadyOf(w, State());
      SeatsRouted(State());
      var todo := seats.Keys;
      while todo != {}
        invariant Advanced(w, State()) && before <= tried <= routing.Keys && todo <= routing.Keys && todo <= seats.Keys
        invariant forall n :: DrivesOf(drives, n) <= DrivesOf(w.book.drives, n) + if n in tried then 1 else 0
        invariant worked <==> tried != before
        invariant !worked ==> forall n :: n in seats && n !in todo && n in terminalKinds && seats[n].Pending? ==> n in tried
      {
        if mayStop {
          if * { return worked, tried, true; }
        }
        var n :| n in todo;
        todo := todo - {n};
        ghost var u := State();
        SteadyOf(w, u);
        if n !in terminalKinds || !seats[n].Pending? || n in tried { continue; }
        var ok := ClaimSeat(n);
        ghost var v := State();
        AdvancedChain(w, u, v);
        if !ok { continue; }
        tried, worked := tried + {n}, true;
        var readable: bool, turn: Turn := *, *;
        DriveSeat(n, readable, turn);
        AdvancedChain(w, v, State());
      }
    }

    // --- the restart ---

    /** A process that starts over what the stop left: the carrier reads the receipts and the
        attempts back, the mailbox starts empty, and the host rebuilds its deliveries. */
    method Restart(declared: string) returns (ok: bool)
      requires Sound(State()) && !host.up
      modifies this`log, this`receipts, this`attempts, this`seats, this`phases, this`missed, this`moved, host
      ensures Sound(State()) && Reaches(old(State()), State()) && Fenced(old(State()), State())
      ensures host.up ==> Steady(State())
      ensures !ok ==> !host.up
      ensures seats == map[] && log == Rested(log.stored) && Survives(old(log), log.stored)
      ensures forall n :: n in receipts <==> ConsumeKey(n) in log.stored
      ensures forall n :: n in attempts <==> AttemptKey(n) in log.stored
      ensures missed == old(missed) * receipts
      ensures host.entry == declared && moved == (old(moved) || declared != old(host.entry))
    {
      hide BookInv, Inv, CallMoves, Fenced, Keeps, Survives, WellFormed, SeqCovers, Reaches, AccountMoves;
      ghost var w := State();
      Reload(w);
      ghost var u := State();
      ghost var restored;
      ok, restored := host.Boot(declared);
      missed, moved := missed * receipts, moved || host.entry != w.ledger.entry;
      BootKeeps(w.ledger, declared, host.Snap());
      ReopenAdvances(w, log.stored, State());
    }

    /** The carrier of the new process, over one of the accounts the stop may have left. */
    method Reload(ghost w: World)
      requires BookInv(State()) && w == State()
      modifies this`log, this`receipts, this`attempts, this`seats, this`phases
      ensures seats == map[] && phases == map[] && log == Rested(log.stored) && Survives(w.book.log, log.stored)
      ensures forall n :: n in receipts <==> ConsumeKey(n) in log.stored
      ensures forall n :: n in attempts <==> AttemptKey(n) in log.stored
      ensures forall n :: n in attempts ==> log.stored[AttemptKey(n)] == Attempt(attempts[n])
    {
      hide BookInv;
      var kept: map<AccountKey, Mark> := *;
      LogOf(w);
      if !Survives(log, kept) {
        ViewSurvives(log);
        kept := log.view;
      }
      KeptTyped(w, kept);
      log, receipts, attempts, seats, phases := Rested(kept), ReceiptsOf(kept), AttemptsOf(kept), map[], map[];
    }
  }

  lemma ReopenAdvances(w: World, kept: map<AccountKey, Mark>, v: World)
    requires Sound(w) && Reopened(w, kept, v)
    ensures Sound(v) && Reaches(w, v) && Fenced(w, v)
  {
    hide Reopened, Sound, Fenced;
    StepKeeps(w, ReopenStep(kept), v);
    ReachesSelf(w);
    ReachesStep(w, w, ReopenStep(kept), v);
  }

  lemma SteadyOf(w: World, v: World)
    requires Advanced(w, v)
    ensures Steady(v)
  {
  }

  /** The carrier knows the receipt of a consumed seat. */
  lemma ConsumedKnown(w: World, n: string)
    requires Steady(w)
    ensures n in w.book.seats && w.book.seats[n].Consumed? ==> n in w.book.receipts
  {
    hide Inv, SeqCovers;
    assert NoticeSound(w.book, w.ledger, n);
  }

  /** A process that still runs ran before. */
  lemma UpBefore(u: World, v: World)
    requires Advanced(u, v)
    ensures v.ledger.up ==> u.ledger.up
  {
  }

  lemma PhaseHeld(w: World, n: string)
    requires Steady(w)
    ensures n in w.book.seats && w.book.seats[n].Claimed? ==> Holds(w.book, n)
  {
    assert NoticeSound(w.book, w.ledger, n);
  }

  lemma KeyedChain(w: World, s: string)
    requires Steady(w)
    ensures DistinctKeys(ChainAt(w.book.chains, s))
  {
  }

  lemma ReadSoundly(w: World, n: string)
    requires Steady(w) && n in w.book.routing
    ensures DistinctKeys(ChainOf(w.book, n))
    ensures BodiesOf(w.ledger.origin, w.book.routing[n], BodiesAt(Window(ChainOf(w.book, n)), w.book.routing[n], n))
  {
    assert NoticeSound(w.book, w.ledger, n);
    hide CutOf, IsBody;
    var c, addr := ChainOf(w.book, n), w.book.routing[n];
    forall f | f in BodiesAt(Window(c), addr, n)
      ensures FreshId(f.fact) in w.ledger.origin && w.ledger.origin[FreshId(f.fact)] == Body(f.content, addr)
    {
      var i :| 0 <= i < |Window(c)| && IsBody(Window(c)[i], addr, n) && f == BodyFact(Window(c)[i]);
      assert Window(c)[i] == c[i + CutOf(c)];
    }
  }

  /** A receipt that reported failure may be written again while its account is in hand. */
  lemma ReceiveAgain(v: World, x: World, n: string, t: Terminal)
    requires Steady(v) && Advanced(v, x) && MayReceive(v, n) && Holds(v.book, n) && v.book.phases[n] == Ended(t)
    requires x.book == v.book.(log := x.book.log, receipts := x.book.receipts, seats := x.book.seats, phases := x.book.phases)
    requires (x.book.seats == v.book.seats && x.book.phases == v.book.phases) || (n in x.book.seats && x.book.seats[n].Consumed?)
    ensures n in x.book.seats && (x.book.seats[n].Consumed? || MayReceive(x, n))
  {
    CarriedOn(v.book, v.ledger, x.book, x.ledger, n);
    hide Carried;
  }

  lemma RegistrationHost(s: Ledger, t: Ledger)
    requires Inv(s) && SeqCovers(s) && Inv(t) && LogMove(s, t) && OwedStaged(s, t)
    ensures HostMoves(s, t) && s.faults <= t.faults
  {
    OwedStagedEffect(s, t);
  }

  /** A confirmed registration of what the window answers is a closing read. */
  lemma RegistrationAnswers(v: World, n: string, bodies: seq<FreshBody>, owed: seq<FreshBody>, l: Ledger)
    requires n in v.book.routing && bodies == BodiesAt(Window(ChainOf(v.book, n)), v.book.routing[n], n)
    requires RegistrationAnswer(v.ledger, v.book.routing[n], bodies, owed, l) && LogMove(v.ledger, l)
    ensures Registers(v.book, n, l)
  {
    hide CutOf;
  }

  lemma HandoffAnswers(v: World, n: string, bodies: seq<FreshBody>, l: Ledger)
    requires n in v.book.routing && bodies == BodiesAt(Window(ChainOf(v.book, n)), v.book.routing[n], n)
    requires l.tiered && v.book.routing[n].agent == l.entry ==>
               forall f :: f in bodies && f.fact != "" ==> FreshId(f.fact) in l.log.stored
    ensures Registers(v.book, n, l)
  {
    hide CutOf;
  }

  lemma HandoffHost(s: Ledger, t: Ledger)
    requires CallMoves(s, HandoffCall, t) && SeqCovers(t) && (t.up ==> s.up)
    ensures HostMoves(s, t)
  {
  }

  /** The closing read behind a registration or a hand-off. */
  lemma ReadClosed(w: World, v: World, n: string, x: World)
    requires Advanced(w, v) && Holds(v.book, n) && n in v.book.routing
    requires HostMoves(v.ledger, x.ledger) && Registers(v.book, n, x.ledger)
    requires x.book == v.book.(readTo := v.book.readTo[n := |ChainOf(v.book, n)|])
    ensures Advanced(w, x) && Carried(x.book, x.ledger, n)
    ensures v.book.phases[n] == Ended(Completed) ==> MayReceive(x, n)
  {
    assert AccountMoves(v, RegisterStep(n), x);
    NextStep(w, v, RegisterStep(n), x);
    RegisterKeeps(v, n, x);
    hide Carried, Registers, Advanced, HostMoves;
  }

  lemma LandedReceives(u: World, n: string)
    requires Holds(u.book, n) && u.book.phases[n].Open? && KnownLanded(u.book, n) && Carried(u.book, u.ledger, n)
    ensures MayReceive(u, n)
  {
  }

  lemma CarriedKept(u: World, v: World, n: string)
    requires Advanced(u, v) && Carried(u.book, u.ledger, n) && v.book.chains == u.book.chains && v.book.readTo == u.book.readTo && v.book.routing == u.book.routing
    ensures Carried(v.book, v.ledger, n)
  {
    CarriedOn(u.book, u.ledger, v.book, v.ledger, n);
  }

  // --- the facts of a turn ---

  lemma NoFacts(chain: seq<Event>, routing: map<string, Address>, origin: map<string, Body>, s: string, of: Option<string>)
    requires DistinctKeys(chain)
    ensures NewFacts(chain, routing, origin, s, [], of)
  {
    assert chain + [] == chain;
  }

  /** The bodies among the facts name what the chain says of them. */
  ghost predicate Named(facts: seq<Event>, addr: Address, n: string, origin: map<string, Body>) {
    forall i :: 0 <= i < |facts| && IsBody(facts[i], addr, n) ==>
      FreshId(facts[i].key) in origin && origin[FreshId(facts[i].key)] == Body(BodyFact(facts[i]).content, addr)
  }

  /** The first i facts are named, and no later one is yet. */
  ghost predicate Naming(facts: seq<Event>, addr: Address, n: string, was: map<string, Body>, i: nat, origin: map<string, Body>) {
    && i <= |facts| && (forall j, k :: 0 <= j < k < |facts| ==> facts[j].key != facts[k].key)
    && (forall k :: k in was ==> k in origin && origin[k] == was[k])
    && (forall j :: i <= j < |facts| ==> FreshId(facts[j].key) !in origin)
    && Named(facts[..i], addr, n, origin)
  }

  lemma NewKeys(chain: seq<Event>, routing: map<string, Address>, origin: map<string, Body>, s: string, facts: seq<Event>, of: Option<string>)
    requires NewFacts(chain, routing, origin, s, facts, of)
    ensures forall j, k :: 0 <= j < k < |facts| ==> facts[j].key != facts[k].key
    ensures forall j :: 0 <= j < |facts| ==> FreshId(facts[j].key) !in origin
  {
    forall j, k | 0 <= j < k < |facts| ensures facts[j].key != facts[k].key {
      assert (chain + facts)[|chain| + j] == facts[j] && (chain + facts)[|chain| + k] == facts[k];
    }
  }

  lemma NamedStart(facts: seq<Event>, addr: Address, n: string, was: map<string, Body>)
    requires forall j, k :: 0 <= j < k < |facts| ==> facts[j].key != facts[k].key
    requires forall j :: 0 <= j < |facts| ==> FreshId(facts[j].key) !in was
    ensures Naming(facts, addr, n, was, 0, was)
  {
  }

  lemma NamedStep(facts: seq<Event>, addr: Address, n: string, was: map<string, Body>, i: nat, origin: map<string, Body>)
    requires Naming(facts, addr, n, was, i, origin) && i < |facts|
    ensures Naming(facts, addr, n, was, i + 1,
                   if IsBody(facts[i], addr, n) then origin[FreshId(facts[i].key) := Body(BodyFact(facts[i]).content, addr)] else origin)
  {
    hide IsBody;
    forall j | 0 <= j < |facts| ensures j != i ==> FreshId(facts[j].key) != FreshId(facts[i].key) {
      FreshIdFresh(facts[j].key);
      FreshIdFresh(facts[i].key);
    }
  }

  lemma NamedEnd(facts: seq<Event>, addr: Address, n: string, was: map<string, Body>, origin: map<string, Body>)
    requires Naming(facts, addr, n, was, |facts|, origin)
    ensures Named(facts, addr, n, origin)
    ensures forall k :: k in was ==> k in origin && origin[k] == was[k]
  {
    assert facts[..|facts|] == facts;
  }

  lemma DrivenOnce(drives: map<string, nat>, n: string)
    ensures var now := drives[n := DrivesOf(drives, n) + 1];
            (forall j :: j != n ==> DrivesOf(now, j) == DrivesOf(drives, j)) && DrivesOf(now, n) == DrivesOf(drives, n) + 1
  {
  }

  // --- the faces ---

  lemma FacesStart()
    ensures Faces.IsTrace([]) && Faces.WaitsForDelivery([]) && Faces.After([]) == Faces.Start()
  {
  }

  /** The faces of one fire meet the account one after the other. */
  lemma FaceMet(steps: seq<Faces.Step>, f: Faces.Face, r: Settlement, was: bool, taken: bool) returns (more: seq<Faces.Step>)
    requires Faces.IsTrace(steps) && Faces.WaitsForDelivery(steps) && Faces.After(steps).marker == was && Faces.PhaseOf(Faces.After(steps), f).Waiting?
    requires f == Faces.FireFace ==> !Faces.After(steps).delivery.Holding? && !Faces.After(steps).delivery.Registering?
    requires was ==> taken && !r.Unregistered?
    requires !was ==> (taken <==> r.Settled?)
    ensures Faces.IsTrace(more) && Faces.WaitsForDelivery(more) && Faces.After(more).marker == taken
    ensures f == Faces.DeliveryFace ==>
              Faces.After(more).fire == Faces.After(steps).fire && !Faces.After(more).delivery.Holding? && !Faces.After(more).delivery.Registering?
    ensures Faces.Reports(Faces.PhaseOf(Faces.After(more), f)) <==> r.Settled?
  {
    more := steps;
    if was {
      if r.Settled? { more := FaceNext(more, Faces.Take(f)); }
    } else if r.Unregistered? {
      more := FaceNext(more, Faces.Take(f));
      more := FaceNext(more, Faces.Register(f, false));
    } else if r.Settled? {
      more := FaceNext(more, Faces.Take(f));
      more := FaceNext(more, Faces.Register(f, true));
      more := FaceNext(more, Faces.Receive(f));
    }
  }

  lemma FaceNext(steps: seq<Faces.Step>, step: Faces.Step) returns (more: seq<Faces.Step>)
    requires Faces.IsTrace(steps) && Faces.WaitsForDelivery(steps) && Faces.Enabled(Faces.After(steps), step)
    requires step == Faces.Take(Faces.FireFace) ==> !Faces.After(steps).delivery.Holding? && !Faces.After(steps).delivery.Registering?
    ensures Faces.IsTrace(more) && Faces.WaitsForDelivery(more) && Faces.After(more) == Faces.Next(Faces.After(steps), step)
  {
    more := steps + [step];
    Faces.TraceNext(steps, step);
    forall i | 0 <= i < |more| && more[i] == Faces.Take(Faces.FireFace)
      ensures !Faces.After(more[..i]).delivery.Holding? && !Faces.After(more[..i]).delivery.Registering?
    {
      if i < |steps| {
        assert more[..i] == steps[..i] && steps[i] == more[i];
      } else {
        assert more[..i] == steps;
      }
    }
  }

  lemma SeatsRouted(w: World)
    requires BookInv(w)
    ensures w.book.seats.Keys <= w.book.routing.Keys
  {
    forall n | n in w.book.seats ensures n in w.book.routing {
      assert NoticeSound(w.book, w.ledger, n);
    }
  }

  lemma Shrinks(all: set<string>, before: set<string>, after: set<string>)
    requires before <= after <= all && before != after
    ensures |all - after| < |all - before|
  {
    var n :| n in after && n !in before;
    assert all - after <= (all - before) - {n};
    SubsetSize(all - after, (all - before) - {n});
  }

  lemma {:induction false} SubsetSize(a: set<string>, b: set<string>)
    requires a <= b
    ensures |a| <= |b|
  {
    if a != {} {
      var x :| x in a;
      SubsetSize(a - {x}, b - {x});
    }
  }

  lemma LogOf(w: World)
    requires BookInv(w)
    ensures WellFormed(w.book.log)
  {
  }

  lemma KeptTyped(w: World, kept: map<AccountKey, Mark>)
    requires BookInv(w) && Survives(w.book.log, kept)
    ensures forall k :: k in kept && k.AttemptKey? ==> kept[k].Attempt?
  {
    forall k | k in kept && k.AttemptKey? ensures kept[k].Attempt? {
      MarkTyped(w.book.log, k, kept[k]);
    }
  }

  lemma MarkTyped(g: Log<AccountKey, Mark>, k: AccountKey, m: Mark)
    requires LogTyped(g) && MayStand(g, k, Some(m))
    ensures m.Receipt? <==> k.ConsumeKey?
    ensures m.Attempt? <==> k.AttemptKey?
  {
  }

  lemma AttemptStored(w: World, n: string)
    requires BookInv(w)
    ensures n in w.book.attempts ==> AttemptKey(n) in w.book.log.stored
  {
    assert NoticeSound(w.book, w.ledger, n);
  }

  lemma SameHost(l: Ledger)
    requires Inv(l) && SeqCovers(l)
    ensures HostMoves(l, l)
  {
  }

  /** What each stop of one write leaves of the log: nothing, the staged record, or the
      barrier over it. */
  lemma WriteMoves(w: World, k: AccountKey, m: Mark)
    requires Steady(w)
    ensures WellFormed(w.ledger.log)
    ensures WellFormed(w.book.log)
    ensures MarkMoves(w.book.log, k, m, false, w.book.log)
    ensures MarkMoves(w.book.log, k, m, false, Stage(w.book.log, k, m))
    ensures MarkMoves(w.book.log, k, m, true, Barrier(Stage(w.book.log, k, m)))
  {
    hide SeqCovers;
    StageStep(w.book.log, k, m);
    BarrierStep(Stage(w.book.log, k, m));
  }

  lemma SurvivedMoves(g: Log<AccountKey, Mark>, k: AccountKey, m: Mark, left: map<AccountKey, Mark>)
    requires WellFormed(g) && Survives(Stage(g, k, m), left)
    ensures MarkMoves(g, k, m, false, Stage(g, k, m).(stored := left))
  {
    StageStep(g, k, m);
    SurvivorStep(Stage(g, k, m), left);
  }

  lemma HostStopped(s: Ledger, t: Ledger)
    requires Inv(s) && SeqCovers(s) && LogMove(s, t) && WellFormed(t.log) && Fewer(s.log, t.log)
    ensures HostMoves(s, t)
  {
    InvKept(s, t);
    SentNothing(s, t);
  }

  lemma BootKeeps(s: Ledger, declared: string, t: Ledger)
    requires CallMoves(s, BootCall(declared), t)
    ensures Keeps(s, t) && Inv(t) && (t.up ==> SeqCovers(t)) && t.entry == declared
  {
  }

  // --- the lives of a driver ---

  /** One process: the restart over what the last one left, a pass over the mailbox, and the
      stop of the host. */
  method OneLife(d: Driver, declared: string, committed: set<string>)
    requires Sound(d.State()) && !d.host.up
    modifies d, d.host
    ensures Sound(d.State()) && !d.host.up && Reaches(old(d.State()), d.State())
    ensures d.host.entry == declared && d.moved == (old(d.moved) || declared != old(d.host.entry))
  {
    hide Steady, Sound, Advanced, Reaches, Inv, CallMoves, AccountMoves, BookInv, HostMoves;
    ghost var w := d.State();
    var _ := d.Restart(declared);
    if d.host.up {
      ghost var u := d.State();
      var _, _ := d.Drain(committed, true);
      LifeAdvanced(w, u, d.State());
    }
    if d.host.up {
      ghost var u := d.State();
      LifeHalts(w, u);
      d.host.Halt();
      HaltAdvanced(w, u, d.State());
    }
  }

  lemma LifeAdvanced(w: World, u: World, v: World)
    requires Sound(w) && Reaches(w, u) && Advanced(u, v)
    ensures Sound(v) && Reaches(w, v) && v.ledger.entry == u.ledger.entry
  {
    ReachesChain(w, u, v);
    hide Reaches, BookInv, Inv, SeqCovers;
  }

  lemma LifeHalts(w: World, u: World)
    requires Sound(u) && u.ledger.up
    ensures Inv(u.ledger) && SeqCovers(u.ledger)
  {
    hide BookInv, Inv, SeqCovers;
  }

  lemma HaltAdvanced(w: World, u: World, v: World)
    requires Sound(w) && Reaches(w, u) && Sound(u) && u.ledger.up
    requires CallMoves(u.ledger, StopCall, v.ledger) && SeqCovers(v.ledger) && !v.ledger.up && v.book == u.book
    ensures Sound(v) && Reaches(w, v) && v.ledger.entry == u.ledger.entry
  {
    assert HostMoves(u.ledger, v.ledger) by { hide BookInv, Inv, SeqCovers, Reaches; }
    hide Sound, Reaches, HostMoves, CallMoves;
    assert AccountMoves(u, HostStep, v);
    StepKeeps(u, HostStep, v);
    ReachesStep(w, u, HostStep, v);
  }

  /** A run of the class itself, of any number of processes under one entry: it is a run of
      the account, so no notification of which every terminal was recorded strands a body. */
  method Lifetime(entry: string, routing: map<string, Address>, kinds: set<string>, scope: set<string>, committed: set<string>, lives: nat)
    returns (d: Driver, ghost start: World)
    ensures Starts(start) && Reaches(start, d.State())
    ensures forall n :: n !in d.missed ==> !Strands(d.State(), n)
  {
    var h := new DeliveryHost.Host(true, true, true, entry, map[]);
    d := new Driver(h, routing, kinds, scope);
    hide Inv, SeqCovers, Reaches, Sound, Strands;
    start := d.State();
    StartSound(start);
    ReachesSelf(start);
    for i := 0 to lives
      invariant d.host == h && fresh(h) && fresh(d) && !h.up && h.entry == entry && !d.moved
      invariant Sound(d.State()) && Reaches(start, d.State())
    {
      ghost var w := d.State();
      OneLife(d, entry, committed);
      ReachesChain(start, w, d.State());
    }
    forall n | n !in d.missed ensures !Strands(d.State(), n) {
      SureStrandsNothing(d.State(), n);
    }
  }
}
