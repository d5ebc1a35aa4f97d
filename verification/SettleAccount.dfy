// The settle account of one run as values: what the mailbox claims, what the
// attempts and the consumption receipts record durably, how far each claimed drive
// came, and the session chains its turns commit to. The delivery ledger beside it
// carries the obligations. A run is a sequence of the steps the driver takes.
module SettleAccount {
  import opened Core
  import opened DeliveryIds
  import opened FactLog
  import opened DeliveryLedger
  import opened DeliverySteps
  import opened FactWindow
  import opened TurnBodies
  import EventBody

  type Event = EventBody.Event

  datatype Terminal = InFlight | Completed | Failed | Cancelled | Unclosed(name: string)

  /** settleLandedTerminal: the terminals that end a turn. */
  predicate Landed(t: Terminal) { t.Completed? || t.Failed? || t.Cancelled? }

  datatype Claim = Pending | Claimed | Consumed

  /** How far the drive of a claimed seat came: taken, marked in flight, behind its turn,
      behind the record of the terminal the turn ended on, or over with the seat kept. */
  datatype Phase = Open | Marked | Ran | Ended(terminal: Terminal) | Left

  /** Where the account keeps the two records of one notification. */
  datatype AccountKey = ConsumeKey(notice: string) | AttemptKey(notice: string)

  datatype Mark = Receipt | Attempt(terminal: Terminal)

  /** log      the durable account
      receipts the consumptions the carrier of this process knows
      attempts the attempts it knows
      seats    the mailbox entries; a notification takes one seat
      phases   how far the drive of each claimed seat came
      routing  the address a notification was frozen to
      chains   the facts each session committed
      readTo   how long the chain was when the bodies of a notification were last registered
      missed   the notifications a terminal of whose turn a running process failed to record
      drives   how many turns each notification started
      moved    some boot declared another entry than the one before */
  datatype Book = Book(
    log: Log<AccountKey, Mark>,
    receipts: set<string>,
    attempts: map<string, Terminal>,
    seats: map<string, Claim>,
    phases: map<string, Phase>,
    routing: map<string, Address>,
    chains: map<string, seq<Event>>,
    readTo: map<string, nat>,
    missed: set<string>,
    drives: map<string, nat>,
    moved: bool)

  datatype World = World(book: Book, ledger: Ledger)

  function ChainAt(chains: map<string, seq<Event>>, s: string): seq<Event> {
    if s in chains then chains[s] else []
  }

  /** The session chain a notification was routed to. */
  function ChainOf(b: Book, n: string): seq<Event>
    requires n in b.routing
  {
    ChainAt(b.chains, b.routing[n].session)
  }

  ghost function DrivesOf(drives: map<string, nat>, n: string): nat {
    if n in drives then drives[n] else 0
  }

  ghost function Drives(b: Book, n: string): nat { DrivesOf(b.drives, n) }

  /** The closing read of n covered every body of n, and each one the window answered then
      has a delivery record no stop can take. */
  ghost predicate Carried(b: Book, l: Ledger, n: string) {
    l.tiered && n in b.routing && b.routing[n].agent == l.entry ==>
      var c := ChainOf(b, n);
      && n in b.readTo && b.readTo[n] <= |c|
      && (forall i :: 0 <= i < |c| && IsBody(c[i], b.routing[n], n) ==>
          i < b.readTo[n] && (CutOf(c[..b.readTo[n]]) <= i ==> FreshId(c[i].key) in l.log.stored))
  }

  ghost predicate ReceiptMayStand(b: Book, n: string) {
    MayStand(b.log, ConsumeKey(n), Some(Receipt))
  }

  ghost predicate CompletedMayStand(b: Book, n: string) {
    MayStand(b.log, AttemptKey(n), Some(Attempt(Completed)))
  }

  predicate Holds(b: Book, n: string) { n in b.seats && b.seats[n].Claimed? && n in b.phases }

  predicate KnownLanded(b: Book, n: string) { n in b.attempts && Landed(b.attempts[n]) }

  // --- what holds of every account ---

  ghost predicate AttemptSound(b: Book, n: string) {
    // a landed attempt is the one record that may stand
    && (KnownLanded(b, n) ==> forall r :: MayStand(b.log, AttemptKey(n), r) ==> r == Some(Attempt(b.attempts[n])))
    && (n in b.attempts ==> AttemptKey(n) in b.log.stored)
  }

  ghost predicate SeatSound(b: Book, n: string) {
    && (n in b.seats ==> n in b.routing)
    && (n in b.receipts ==> ConsumeKey(n) in b.log.stored && (n in b.seats ==> b.seats[n].Consumed?))
    && (n in b.seats && b.seats[n].Consumed? ==> n in b.receipts)
    && (n in b.phases <==> n in b.seats && b.seats[n].Claimed?)
    && (n in b.phases && (b.phases[n].Marked? || b.phases[n].Ran?) ==> n in b.attempts && b.attempts[n].InFlight?)
    && (n in b.phases && b.phases[n].Ended? ==> n in b.attempts && (b.attempts[n].InFlight? || b.attempts[n] == b.phases[n].terminal))
    && (n in b.phases && b.phases[n].Ended? ==> !b.phases[n].terminal.InFlight?)
  }

  /** Where every terminal was recorded the process knows what stands, and a receipt
      closed nothing but an account whose bodies are carried. */
  ghost predicate SureSound(b: Book, l: Ledger, n: string) {
    n !in b.missed ==>
      && (l.up && CompletedMayStand(b, n) ==> n in b.attempts && b.attempts[n].Completed?)
      && (l.up && ReceiptMayStand(b, n) ==> n in b.receipts || KnownLanded(b, n) || (n in b.phases && b.phases[n].Left?))
      && (l.up && n in b.phases && b.phases[n].Ended? ==> n in b.attempts && b.attempts[n] == b.phases[n].terminal)
      && (ReceiptMayStand(b, n) && CompletedMayStand(b, n) && !b.moved ==> Carried(b, l, n))
  }

  /** The bodies of n name facts under the address of n. */
  ghost predicate BodiesSound(b: Book, l: Ledger, n: string) {
    n in b.routing ==>
      forall i :: 0 <= i < |ChainOf(b, n)| && IsBody(ChainOf(b, n)[i], b.routing[n], n) ==>
        var f := BodyFact(ChainOf(b, n)[i]);
        FreshId(f.fact) in l.origin && l.origin[FreshId(f.fact)] == Body(f.content, b.routing[n])
  }

  ghost predicate ReadSound(b: Book, n: string) {
    n in b.routing && n in b.readTo ==> b.readTo[n] <= |ChainOf(b, n)|
  }

  ghost predicate NoticeSound(b: Book, l: Ledger, n: string) {
    AttemptSound(b, n) && SeatSound(b, n) && SureSound(b, l, n) && BodiesSound(b, l, n) && ReadSound(b, n)
  }

  ghost predicate LogTyped(g: Log<AccountKey, Mark>) {
    && WellFormed(g)
    && (forall k, m :: MayStand(g, k, Some(m)) ==> (m.Receipt? <==> k.ConsumeKey?))
  }

  ghost predicate ChainsKeyed(chains: map<string, seq<Event>>) {
    forall s :: DistinctKeys(ChainAt(chains, s)) && forall e :: e in ChainAt(chains, s) ==> e.key != ""
  }

  ghost predicate BookInv(w: World) {
    && LogTyped(w.book.log)
    && ChainsKeyed(w.book.chains)
    && (forall n :: NoticeSound(w.book, w.ledger, n))
  }

  /** A sound account over a sound ledger. */
  ghost predicate Sound(w: World) {
    BookInv(w) && Inv(w.ledger) && (w.ledger.up ==> SeqCovers(w.ledger))
  }

  /** The ledger moved as calls of a running host move it. */
  ghost predicate HostMoves(s: Ledger, t: Ledger) {
    && Inv(t) && SeqCovers(t) && Keeps(s, t) && t.entry == s.entry && (t.up ==> s.up)
  }

  lemma HostMovesChain(s: Ledger, m: Ledger, t: Ledger)
    requires HostMoves(s, m) && HostMoves(m, t)
    ensures HostMoves(s, t)
  {
    hide Inv, SeqCovers;
    forall k | k in s.log.stored
      ensures k in t.log.stored && t.log.stored[k].delivery.body == s.log.stored[k].delivery.body
    {
      assert k in m.log.stored;
    }
  }

  /** What the account never takes back: a landed attempt keeps its terminal and starts no
      further turn, a receipt stays, and a chain only grows. */
  ghost predicate Fenced(s: World, t: World) {
    && (forall n :: KnownLanded(s.book, n) ==>
        n in t.book.attempts && t.book.attempts[n] == s.book.attempts[n] && Drives(t.book, n) == Drives(s.book, n))
    && (forall n :: n in s.book.receipts ==> n in t.book.receipts && Drives(t.book, n) == Drives(s.book, n))
    && (forall c :: ChainAt(s.book.chains, c) <= ChainAt(t.book.chains, c))
    && (s.book.moved ==> t.book.moved) && t.book.routing == s.book.routing
    && (forall k :: k in s.ledger.log.stored ==> k in t.ledger.log.stored)
  }

  lemma FencedRefl(s: World)
    ensures Fenced(s, s)
  {
  }

  lemma FencedChain(s: World, m: World, t: World)
    requires Fenced(s, m) && Fenced(m, t)
    ensures Fenced(s, t)
  {
    hide Landed, ChainAt;
  }

  // --- the steps ---

  datatype Step =
    | SeatStep(notice: string)
    | ClaimStep(notice: string)
    | ReleaseStep(notice: string)
    | AttemptStep(notice: string, terminal: Terminal, ok: bool)
    | TurnStep(notice: string, facts: seq<Event>)
    | GrowStep(session: string, facts: seq<Event>)
    | RegisterStep(notice: string)
    | ReceiptStep(notice: string, ok: bool)
    | HostStep
    | ReopenStep(kept: map<AccountKey, Mark>)

  /** One record call of the account. */
  ghost predicate MarkMoves(g: Log<AccountKey, Mark>, k: AccountKey, m: Mark, ok: bool, h: Log<AccountKey, Mark>) {
    && WellFormed(h) && FewerBut(g, h, k, m)
    && (ok ==> Lookup(h.stored, k) == Some(m) && k !in h.staged)
  }

  /** The same beside the process: a stopped one writes nothing and confirms nothing. */
  ghost predicate Writes(w: World, k: AccountKey, m: Mark, ok: bool, v: World) {
    && MarkMoves(w.book.log, k, m, ok, v.book.log) && HostMoves(w.ledger, v.ledger)
    && (ok ==> v.ledger.up)
    && (!w.ledger.up ==> v.book.log == w.book.log)
  }

  /** When an attempt may be recorded: the in-flight marker before the turn, its terminal
      behind it. */
  ghost predicate MayAttempt(b: Book, n: string, t: Terminal) {
    && Holds(b, n)
    && (if t.InFlight? then b.phases[n].Open? && !KnownLanded(b, n)
        else b.phases[n].Ran? || b.phases[n] == Ended(t))
  }

  function AttemptPhase(t: Terminal, ok: bool): Phase {
    if !t.InFlight? then Ended(t) else if ok then Marked else Open
  }

  /** When a receipt may be written: a notice the flying segment paired, a turn that ended
      failed or cancelled, a completed one behind its registration, a landed one behind its
      hand-off. */
  ghost predicate MayReceive(w: World, n: string) {
    && Holds(w.book, n)
    && match w.book.phases[n]
       case Marked => true
       case Ended(t) => t.Failed? || t.Cancelled? || (t.Completed? && Carried(w.book, w.ledger, n))
       case Open => KnownLanded(w.book, n) && Carried(w.book, w.ledger, n)
       case Ran => false
       case Left => false
  }

  function ReceiptPhases(phases: map<string, Phase>, n: string, ok: bool): map<string, Phase> {
    if ok then phases - {n}
    else if n in phases && !phases[n].Ended? then phases[n := Left]
    else phases
  }

  /** Facts under identities the chain does not hold yet, one each, that carry a body of no
      other notification than the one named. */
  predicate NewFacts(chain: seq<Event>, routing: map<string, Address>, origin: map<string, Body>, s: string, facts: seq<Event>, of: Option<string>) {
    && DistinctKeys(chain + facts)
    && (forall i :: 0 <= i < |facts| ==> facts[i].key != "" && FreshId(facts[i].key) !in origin)
    && (forall i, m :: 0 <= i < |facts| && m in routing && routing[m].session == s && IsBody(facts[i], routing[m], m) ==> of == Some(m))
  }

  /** The facts entered the chain, each body under its address. */
  ghost predicate Grown(w: World, s: string, facts: seq<Event>, of: Option<string>, v: World) {
    && w.ledger.up
    && NewFacts(ChainAt(w.book.chains, s), w.book.routing, w.ledger.origin, s, facts, of)
    && v.ledger == w.ledger.(origin := v.ledger.origin)
    && (forall k :: k in w.ledger.origin ==> k in v.ledger.origin && v.ledger.origin[k] == w.ledger.origin[k])
    && (forall n, i :: of == Some(n) && n in w.book.routing && 0 <= i < |facts| && IsBody(facts[i], w.book.routing[n], n) ==>
        var f := BodyFact(facts[i]);
        FreshId(f.fact) in v.ledger.origin && v.ledger.origin[FreshId(f.fact)] == Body(f.content, w.book.routing[n]))
    && v.book.chains == w.book.chains[s := ChainAt(w.book.chains, s) + facts]
  }

  /** The closing read: every body the window answers has its delivery record. */
  ghost predicate Registers(b: Book, n: string, l: Ledger) {
    n in b.routing && l.tiered && b.routing[n].agent == l.entry ==>
      forall f :: f in BodiesAt(Window(ChainOf(b, n)), b.routing[n], n) && f.fact != "" ==> FreshId(f.fact) in l.log.stored
  }

  /** A process that opened the account over what a stop left of it: the carrier loads the
      stored records, the mailbox starts empty, and what a write of the stopped process
      left unsure is settled unless its receipt stands. */
  ghost predicate Reopened(w: World, kept: map<AccountKey, Mark>, v: World) {
    && Survives(w.book.log, kept)
    && Keeps(w.ledger, v.ledger) && Inv(v.ledger) && (v.ledger.up ==> SeqCovers(v.ledger))
    && v.book == w.book.(log := Rested(kept), receipts := v.book.receipts, attempts := v.book.attempts,
                         seats := map[], phases := map[], missed := w.book.missed * v.book.receipts,
                         moved := w.book.moved || v.ledger.entry != w.ledger.entry)
    && (forall n :: n in v.book.receipts <==> ConsumeKey(n) in kept)
    && (forall n :: n in v.book.attempts <==> AttemptKey(n) in kept)
    && (forall n :: n in v.book.attempts ==> kept[AttemptKey(n)] == Attempt(v.book.attempts[n]))
  }

  /** The record of one attempt; one of the content the process knows stages nothing. */
  ghost predicate Attempted(w: World, n: string, t: Terminal, ok: bool, v: World) {
    var b := w.book;
    && MayAttempt(b, n, t)
    && if n in b.attempts && b.attempts[n] == t
       then ok && v == w.(book := b.(phases := b.phases[n := AttemptPhase(t, ok)]))
       else && Writes(w, AttemptKey(n), Attempt(t), ok, v)
            && v.book == b.(log := v.book.log, phases := b.phases[n := AttemptPhase(t, ok)],
                            attempts := if ok then b.attempts[n := t] else b.attempts,
                            missed := if !ok && v.ledger.up && !t.InFlight? then b.missed + {n} else b.missed)
  }

  ghost predicate Received(w: World, n: string, ok: bool, v: World) {
    var b := w.book;
    && Writes(w, ConsumeKey(n), Receipt, ok, v)
    && v.book == b.(log := v.book.log, phases := ReceiptPhases(b.phases, n, ok),
                    receipts := if ok then b.receipts + {n} else b.receipts,
                    seats := if ok then b.seats[n := Consumed] else b.seats)
  }

  /** A seat offered, claimed or handed back. */
  predicate SeatMoves(b: Book, step: Step, c: Book)
    requires step.SeatStep? || step.ClaimStep? || step.ReleaseStep?
  {
    var n := step.notice;
    match step
    case SeatStep(_) =>
      n in b.routing && n !in b.seats && n !in b.receipts && c == b.(seats := b.seats[n := Pending])
    case ClaimStep(_) =>
      n in b.seats && b.seats[n].Pending? && c == b.(seats := b.seats[n := Claimed], phases := b.phases[n := Open])
    case ReleaseStep(_) =>
      Holds(b, n) && !b.phases[n].Left? && c == b.(seats := b.seats[n := Pending], phases := b.phases - {n})
  }

  /** The follow-up turn of a marked account. */
  ghost predicate TurnRan(w: World, n: string, facts: seq<Event>, v: World) {
    var b := w.book;
    && Holds(b, n) && b.phases[n].Marked? && n in b.routing
    && Grown(w, b.routing[n].session, facts, Some(n), v)
    && v.book == b.(phases := b.phases[n := Ran], chains := v.book.chains, drives := b.drives[n := Drives(b, n) + 1])
  }

  /** One step of the driver over the account. */
  ghost predicate AccountMoves(w: World, step: Step, v: World) {
    var b := w.book;
    match step
    case SeatStep(_) => SeatMoves(b, step, v.book) && v.ledger == w.ledger
    case ClaimStep(_) => SeatMoves(b, step, v.book) && v.ledger == w.ledger
    case ReleaseStep(_) => SeatMoves(b, step, v.book) && v.ledger == w.ledger
    case AttemptStep(n, t, ok) => Attempted(w, n, t, ok, v)
    case TurnStep(n, facts) => TurnRan(w, n, facts, v)
    case GrowStep(s, facts) =>
      && Grown(w, s, facts, None, v)
      && v.book == b.(chains := v.book.chains)
    case RegisterStep(n) =>
      && Holds(b, n) && n in b.routing
      && HostMoves(w.ledger, v.ledger) && Registers(b, n, v.ledger)
      && v.book == b.(readTo := b.readTo[n := |ChainOf(b, n)|])
    case ReceiptStep(n, ok) => MayReceive(w, n) && Received(w, n, ok, v)
    case HostStep => HostMoves(w.ledger, v.ledger) && v.book == b
    case ReopenStep(kept) => Reopened(w, kept, v)
  }

  // --- what every step keeps ---

  /** What a step leaves of the notifications it does not name. */
  lemma NoticeFramed(b: Book, s: Ledger, c: Book, t: Ledger, j: string)
    requires NoticeSound(b, s, j) && Keeps(s, t) && t.entry == s.entry && (t.up ==> s.up)
    requires c == b.(log := c.log, attempts := c.attempts, seats := c.seats, phases := c.phases, receipts := c.receipts,
                     missed := c.missed, readTo := c.readTo, drives := c.drives)
    requires forall r :: MayStand(c.log, AttemptKey(j), r) ==> MayStand(b.log, AttemptKey(j), r)
    requires ReceiptMayStand(c, j) ==> ReceiptMayStand(b, j)
    requires forall k :: k in b.log.stored ==> k in c.log.stored
    requires Lookup(c.attempts, j) == Lookup(b.attempts, j) && Lookup(c.seats, j) == Lookup(b.seats, j)
    requires Lookup(c.phases, j) == Lookup(b.phases, j) && Lookup(c.readTo, j) == Lookup(b.readTo, j)
    requires (j in c.receipts <==> j in b.receipts) && (j in b.missed <==> j in c.missed)
    ensures NoticeSound(c, t, j)
  {
    CarriedOn(b, s, c, t, j);
    OriginOn(b, s, c, t, j);
    hide Carried, BodiesSound, Landed;
  }

  lemma CarriedOn(b: Book, s: Ledger, c: Book, t: Ledger, n: string)
    requires Keeps(s, t) && t.entry == s.entry && c.routing == b.routing && c.chains == b.chains
    requires Lookup(c.readTo, n) == Lookup(b.readTo, n)
    ensures Carried(b, s, n) ==> Carried(c, t, n)
  {
    hide CutOf, IsBody;
  }

  lemma OriginOn(b: Book, s: Ledger, c: Book, t: Ledger, n: string)
    requires Keeps(s, t) && c.routing == b.routing && c.chains == b.chains
    ensures BodiesSound(b, s, n) ==> BodiesSound(c, t, n)
  {
    hide IsBody;
    if n in b.routing && BodiesSound(b, s, n) {
      var chain := ChainOf(c, n);
      forall i | 0 <= i < |chain| && IsBody(chain[i], c.routing[n], n)
        ensures FreshId(BodyFact(chain[i]).fact) in t.origin
        ensures t.origin[FreshId(BodyFact(chain[i]).fact)] == Body(BodyFact(chain[i]).content, c.routing[n])
      {
        assert IsBody(ChainOf(b, n)[i], b.routing[n], n);
        FreshIdFresh(chain[i].key);
      }
    }
  }

  lemma MarkLogged(g: Log<AccountKey, Mark>, k: AccountKey, m: Mark, ok: bool, h: Log<AccountKey, Mark>)
    requires LogTyped(g) && MarkMoves(g, k, m, ok, h) && (m.Receipt? <==> k.ConsumeKey?)
    ensures LogTyped(h)
  {
    forall j, x | MayStand(h, j, Some(x)) ensures x.Receipt? <==> j.ConsumeKey? {
      assert MayStand(g, j, Some(x)) || (j == k && x == m);
    }
  }

  /** An account in hand, of a process that runs and missed no record of it, stands behind
      no receipt yet. */
  lemma NoReceiptYet(w: World, n: string)
    requires NoticeSound(w.book, w.ledger, n) && Holds(w.book, n) && !w.book.phases[n].Left?
    requires w.ledger.up && n !in w.book.missed && !KnownLanded(w.book, n)
    ensures !ReceiptMayStand(w.book, n)
  {
  }

  lemma AttemptKeeps(w: World, n: string, t: Terminal, ok: bool, v: World)
    requires BookInv(w) && Attempted(w, n, t, ok, v)
    ensures BookInv(v) && Fenced(w, v)
  {
    assert NoticeSound(w.book, w.ledger, n);
    if n in w.book.attempts && w.book.attempts[n] == t {
      AttemptRepeated(w, n, t, v);
    } else {
      AttemptOwn(w, n, t, ok, v);
      AttemptFenced(w, n, t, ok, v);
      hide MarkMoves, HostMoves, NoticeSound, LogTyped, Fenced, Landed, Inv;
      MarkLogged(w.book.log, AttemptKey(n), Attempt(t), ok, v.book.log);
      forall j ensures NoticeSound(v.book, v.ledger, j) {
        assert NoticeSound(w.book, w.ledger, j);
        if j != n { OtherFramed(w, AttemptKey(n), Attempt(t), ok, v, j); }
      }
    }
  }

  /** A record of one notification leaves the account of another as it was. */
  lemma OtherFramed(w: World, k: AccountKey, m: Mark, ok: bool, v: World, j: string)
    requires NoticeSound(w.book, w.ledger, j) && j != k.notice && Writes(w, k, m, ok, v)
    requires var b, c := w.book, v.book;
             && c == b.(log := c.log, attempts := c.attempts, seats := c.seats, phases := c.phases, receipts := c.receipts, missed := c.missed)
             && Lookup(c.attempts, j) == Lookup(b.attempts, j) && Lookup(c.seats, j) == Lookup(b.seats, j) && Lookup(c.phases, j) == Lookup(b.phases, j)
             && (j in c.receipts <==> j in b.receipts) && (j in b.missed <==> j in c.missed)
    ensures NoticeSound(v.book, v.ledger, j)
  {
    hide NoticeSound, Inv, SeqCovers, Keeps;
    NoticeFramed(w.book, w.ledger, v.book, v.ledger, j);
  }

  lemma AttemptRepeated(w: World, n: string, t: Terminal, v: World)
    requires BookInv(w) && MayAttempt(w.book, n, t) && n in w.book.attempts && w.book.attempts[n] == t
    requires v == w.(book := w.book.(phases := w.book.phases[n := AttemptPhase(t, true)]))
    ensures BookInv(v) && Fenced(w, v)
  {
    hide Carried, BodiesSound, LogTyped, ChainsKeyed;
    forall j ensures NoticeSound(v.book, v.ledger, j) {
      assert NoticeSound(w.book, w.ledger, j);
      OriginOn(w.book, w.ledger, v.book, v.ledger, j);
      CarriedOn(w.book, w.ledger, v.book, v.ledger, j);
    }
  }

  lemma AttemptFenced(w: World, n: string, t: Terminal, ok: bool, v: World)
    requires BookInv(w) && Attempted(w, n, t, ok, v) && !(n in w.book.attempts && w.book.attempts[n] == t)
    ensures Fenced(w, v)
  {
    hide Inv, SeqCovers, LogTyped, MarkMoves, SureSound, BodiesSound;
    assert NoticeSound(w.book, w.ledger, n);
  }

  lemma AttemptOwn(w: World, n: string, t: Terminal, ok: bool, v: World)
    requires NoticeSound(w.book, w.ledger, n) && Attempted(w, n, t, ok, v)
    requires !(n in w.book.attempts && w.book.attempts[n] == t)
    ensures NoticeSound(v.book, v.ledger, n)
  {
    OriginOn(w.book, w.ledger, v.book, v.ledger, n);
    CarriedOn(w.book, w.ledger, v.book, v.ledger, n);
    AttemptSure(w, n, t, ok, v);
    hide Inv, SeqCovers, Carried, BodiesSound, SureSound, Keeps;
    if ok {
      forall r | MayStand(v.book.log, AttemptKey(n), r) ensures r == Some(Attempt(t)) {}
    }
  }

  lemma AttemptSure(w: World, n: string, t: Terminal, ok: bool, v: World)
    requires NoticeSound(w.book, w.ledger, n) && Attempted(w, n, t, ok, v)
    requires !(n in w.book.attempts && w.book.attempts[n] == t)
    ensures SureSound(v.book, v.ledger, n)
  {
    CarriedOn(w.book, w.ledger, v.book, v.ledger, n);
    if w.ledger.up && n !in w.book.missed { NoReceiptYet(w, n); }
    hide Inv, SeqCovers, Carried, BodiesSound, Keeps;
    assert ReceiptMayStand(v.book, n) ==> ReceiptMayStand(w.book, n);
    assert ok ==> forall r :: MayStand(v.book.log, AttemptKey(n), r) ==> r == Some(Attempt(t));
  }

  lemma SeatStepKeeps(w: World, step: Step, v: World)
    requires BookInv(w) && (step.SeatStep? || step.ClaimStep? || step.ReleaseStep?)
    requires SeatMoves(w.book, step, v.book) && v.ledger == w.ledger
    ensures BookInv(v) && Fenced(w, v)
  {
    hide BodiesSound, LogTyped, ChainsKeyed, Inv, SeqCovers, Landed;
    forall j ensures NoticeSound(v.book, v.ledger, j) {
      assert NoticeSound(w.book, w.ledger, j);
      SeatNotice(w, step, v, j);
    }
  }

  lemma SeatNotice(w: World, step: Step, v: World, j: string)
    requires NoticeSound(w.book, w.ledger, j) && (step.SeatStep? || step.ClaimStep? || step.ReleaseStep?)
    requires SeatMoves(w.book, step, v.book) && v.ledger == w.ledger
    ensures NoticeSound(v.book, v.ledger, j)
  {
    hide Inv, SeqCovers, Landed;
    OriginOn(w.book, w.ledger, v.book, v.ledger, j);
    CarriedOn(w.book, w.ledger, v.book, v.ledger, j);
    hide Carried, BodiesSound;
  }

  lemma ReceiptKeeps(w: World, n: string, ok: bool, v: World)
    requires BookInv(w) && MayReceive(w, n) && Received(w, n, ok, v)
    ensures BookInv(v) && Fenced(w, v)
  {
    assert NoticeSound(w.book, w.ledger, n);
    ReceiptOwn(w, n, ok, v);
    ReceiptFenced(w, n, ok, v);
    hide MarkMoves, HostMoves, NoticeSound, LogTyped, Fenced, Landed, Inv, MayReceive;
    MarkLogged(w.book.log, ConsumeKey(n), Receipt, ok, v.book.log);
    forall j ensures NoticeSound(v.book, v.ledger, j) {
      assert NoticeSound(w.book, w.ledger, j);
      if j != n { OtherFramed(w, ConsumeKey(n), Receipt, ok, v, j); }
    }
  }

  lemma ReceiptFenced(w: World, n: string, ok: bool, v: World)
    requires BookInv(w) && MayReceive(w, n) && Received(w, n, ok, v)
    ensures Fenced(w, v)
  {
    hide Inv, SeqCovers, LogTyped, MarkMoves, SureSound, BodiesSound, MayReceive, Landed;
    assert NoticeSound(w.book, w.ledger, n);
  }

  lemma ReceiptOwn(w: World, n: string, ok: bool, v: World)
    requires NoticeSound(w.book, w.ledger, n) && MayReceive(w, n) && Received(w, n, ok, v)
    ensures NoticeSound(v.book, v.ledger, n)
  {
    hide Inv, SeqCovers, Carried, BodiesSound;
    OriginOn(w.book, w.ledger, v.book, v.ledger, n);
    CarriedOn(w.book, w.ledger, v.book, v.ledger, n);
    forall r | MayStand(v.book.log, AttemptKey(n), r) ensures MayStand(w.book.log, AttemptKey(n), r) {}
  }

  lemma HostKeeps(w: World, l: Ledger)
    requires BookInv(w) && HostMoves(w.ledger, l)
    ensures BookInv(World(w.book, l)) && Fenced(w, World(w.book, l))
  {
    hide Inv, SeqCovers, LogTyped, ChainsKeyed;
    forall j ensures NoticeSound(w.book, l, j) {
      assert NoticeSound(w.book, w.ledger, j);
      hide NoticeSound, Keeps;
      NoticeFramed(w.book, w.ledger, w.book, l, j);
    }
  }

  // --- the closing read ---

  /** A read that found every body it answered recorded carries the notification. */
  lemma RegisteredCarries(b: Book, l: Ledger, n: string)
    requires ChainsKeyed(b.chains) && n in b.routing && Registers(b, n, l)
    ensures Carried(b.(readTo := b.readTo[n := |ChainOf(b, n)|]), l, n)
  {
    if l.tiered && b.routing[n].agent == l.entry {
      var c := ChainOf(b, n);
      assert c[..|c|] == c;
      forall i | 0 <= i < |c| && IsBody(c[i], b.routing[n], n) && CutOf(c) <= i ensures FreshId(c[i].key) in l.log.stored {
        assert Window(c)[i - CutOf(c)] == c[i];
        assert c[i] in c && BodyFact(c[i]) in BodiesAt(Window(c), b.routing[n], n);
      }
    }
  }

  lemma RegisterKeeps(w: World, n: string, v: World)
    requires BookInv(w) && AccountMoves(w, RegisterStep(n), v)
    ensures BookInv(v) && Fenced(w, v) && Carried(v.book, v.ledger, n)
  {
    var u := World(w.book, v.ledger);
    HostKeeps(w, v.ledger);
    RegisteredCarries(w.book, v.ledger, n);
    hide Inv, SeqCovers, Registers, LogTyped, ChainsKeyed, HostMoves;
    forall j ensures NoticeSound(v.book, v.ledger, j) {
      assert NoticeSound(u.book, u.ledger, j);
      ReadNotice(u, n, v, j);
    }
  }

  lemma ReadNotice(u: World, n: string, v: World, j: string)
    requires NoticeSound(u.book, u.ledger, j) && v.ledger == u.ledger && Carried(v.book, v.ledger, n) && ReadSound(v.book, n)
    requires v.book == u.book.(readTo := v.book.readTo) && (j != n ==> Lookup(v.book.readTo, j) == Lookup(u.book.readTo, j))
    ensures NoticeSound(v.book, v.ledger, j)
  {
    hide BodiesSound, Landed;
    assert BodiesSound(v.book, v.ledger, j) by { OriginOn(u.book, u.ledger, v.book, v.ledger, j); }
    if j != n { CarriedOn(u.book, u.ledger, v.book, v.ledger, j); }
    hide Carried;
  }

  // --- the growth of the chains ---

  /** Facts that carry no body of n leave what the closing read of n covered. */
  lemma CarriedGrows(w: World, s: string, facts: seq<Event>, of: Option<string>, v: World, n: string)
    requires Grown(w, s, facts, of, v) && of != Some(n)
    requires v.book.routing == w.book.routing && v.book.readTo == w.book.readTo
    ensures Carried(w.book, w.ledger, n) ==> Carried(v.book, v.ledger, n)
  {
    hide CutOf, IsBody, DistinctKeys;
    if n in w.book.routing && Carried(w.book, w.ledger, n) && w.ledger.tiered && w.book.routing[n].agent == w.ledger.entry {
      var c, d := ChainOf(w.book, n), ChainOf(v.book, n);
      assert d == c || (w.book.routing[n].session == s && d == c + facts);
      assert d[..w.book.readTo[n]] == c[..w.book.readTo[n]];
      forall i | |c| <= i < |d| ensures !IsBody(d[i], w.book.routing[n], n) {
        assert d[i] == facts[i - |c|];
      }
    }
  }

  lemma BodiesGrow(w: World, s: string, facts: seq<Event>, of: Option<string>, v: World, n: string)
    requires Grown(w, s, facts, of, v) && v.book.routing == w.book.routing
    ensures BodiesSound(w.book, w.ledger, n) ==> BodiesSound(v.book, v.ledger, n)
  {
    hide IsBody, DistinctKeys;
    if n in w.book.routing && BodiesSound(w.book, w.ledger, n) {
      var c, d := ChainOf(w.book, n), ChainOf(v.book, n);
      forall i | 0 <= i < |d| && IsBody(d[i], v.book.routing[n], n)
        ensures FreshId(BodyFact(d[i]).fact) in v.ledger.origin
        ensures v.ledger.origin[FreshId(BodyFact(d[i]).fact)] == Body(BodyFact(d[i]).content, v.book.routing[n])
      {
        if i < |c| {
          assert d[i] == c[i];
        } else {
          assert d[i] == facts[i - |c|];
        }
      }
    }
  }

  lemma ChainsGrow(w: World, s: string, facts: seq<Event>, of: Option<string>, v: World)
    requires Grown(w, s, facts, of, v) && ChainsKeyed(w.book.chains)
    ensures ChainsKeyed(v.book.chains)
    ensures forall c :: ChainAt(w.book.chains, c) <= ChainAt(v.book.chains, c)
  {
    hide DistinctKeys;
    assert ChainAt(v.book.chains, s) == ChainAt(w.book.chains, s) + facts;
    forall c ensures DistinctKeys(ChainAt(v.book.chains, c)) && forall e :: e in ChainAt(v.book.chains, c) ==> e.key != "" {
      assert c != s ==> ChainAt(v.book.chains, c) == ChainAt(w.book.chains, c);
    }
  }

  lemma GrowthKeeps(w: World, step: Step, v: World)
    requires BookInv(w) && AccountMoves(w, step, v) && (step.TurnStep? || step.GrowStep?)
    ensures BookInv(v) && Fenced(w, v)
  {
    var of := if step.TurnStep? then Some(step.notice) else None;
    var s := if step.TurnStep? then w.book.routing[step.notice].session else step.session;
    ChainsGrow(w, s, step.facts, of, v);
    GrowthFenced(w, s, step, of, v);
    hide LogTyped, ChainsKeyed, Fenced, NoticeSound, NewFacts;
    forall j ensures NoticeSound(v.book, v.ledger, j) {
      assert NoticeSound(w.book, w.ledger, j);
      GrowthNotice(w, s, step.facts, of, step, v, j);
    }
  }

  lemma GrowthFenced(w: World, s: string, step: Step, of: Option<string>, v: World)
    requires BookInv(w) && AccountMoves(w, step, v) && (step.TurnStep? || step.GrowStep?)
    requires Grown(w, s, step.facts, of, v) && forall c :: ChainAt(w.book.chains, c) <= ChainAt(v.book.chains, c)
    ensures Fenced(w, v)
  {
    hide ChainAt, NewFacts, Landed, NoticeSound, LogTyped, ChainsKeyed;
    if step.TurnStep? { TurnFenced(w, step.notice, v); }
  }

  lemma TurnFenced(w: World, n: string, v: World)
    requires BookInv(w) && Holds(w.book, n) && w.book.phases[n].Marked?
    requires v.ledger == w.ledger.(origin := v.ledger.origin)
    requires v.book == w.book.(phases := w.book.phases[n := Ran], chains := v.book.chains, drives := w.book.drives[n := Drives(w.book, n) + 1])
    requires forall c :: ChainAt(w.book.chains, c) <= ChainAt(v.book.chains, c)
    ensures Fenced(w, v)
  {
    assert NoticeSound(w.book, w.ledger, n);
    hide ChainAt, SureSound, BodiesSound, LogTyped, ChainsKeyed, AttemptSound, ReadSound;
  }

  lemma GrowthNotice(w: World, s: string, facts: seq<Event>, of: Option<string>, step: Step, v: World, j: string)
    requires NoticeSound(w.book, w.ledger, j) && AccountMoves(w, step, v) && Grown(w, s, facts, of, v)
    requires (step.TurnStep? && of == Some(step.notice)) || (step.GrowStep? && of == None)
    ensures NoticeSound(v.book, v.ledger, j)
  {
    BodiesGrow(w, s, facts, of, v, j);
    if of != Some(j) { CarriedGrows(w, s, facts, of, v, j); }
    if of == Some(j) && j !in w.book.missed { NoReceiptYet(w, j); }
    hide BodiesSound, Carried, NewFacts;
  }

  // --- the restart ---

  lemma ReopenKeeps(w: World, kept: map<AccountKey, Mark>, v: World)
    requires BookInv(w) && Reopened(w, kept, v)
    ensures BookInv(v) && Fenced(w, v)
  {
    hide Inv, Keeps, ChainsKeyed;
    SurvivorStep(w.book.log, kept);
    assert LogTyped(v.book.log) by {
      forall k, m | MayStand(v.book.log, k, Some(m)) ensures m.Receipt? <==> k.ConsumeKey? {
        assert MayStand(w.book.log, k, Some(m));
      }
    }
    forall n
      ensures NoticeSound(v.book, v.ledger, n)
      ensures KnownLanded(w.book, n) ==> n in v.book.attempts && v.book.attempts[n] == w.book.attempts[n]
      ensures n in w.book.receipts ==> n in v.book.receipts
    {
      assert NoticeSound(w.book, w.ledger, n);
      ReopenedNotice(w, kept, v, n);
    }
    hide NoticeSound, LogTyped;
    ReopenedFenced(w, kept, v);
  }

  lemma ReopenedFenced(w: World, kept: map<AccountKey, Mark>, v: World)
    requires Reopened(w, kept, v)
    requires forall n :: KnownLanded(w.book, n) ==> n in v.book.attempts && v.book.attempts[n] == w.book.attempts[n]
    requires forall n :: n in w.book.receipts ==> n in v.book.receipts
    ensures Fenced(w, v)
  {
    hide Inv, Survives, Landed;
  }

  lemma ReopenedNotice(w: World, kept: map<AccountKey, Mark>, v: World, n: string)
    requires NoticeSound(w.book, w.ledger, n) && LogTyped(w.book.log) && Reopened(w, kept, v)
    ensures NoticeSound(v.book, v.ledger, n)
    ensures KnownLanded(w.book, n) ==> n in v.book.attempts && v.book.attempts[n] == w.book.attempts[n]
    ensures n in w.book.receipts ==> n in v.book.receipts
  {
    OriginOn(w.book, w.ledger, v.book, v.ledger, n);
    KeptReads(w, kept, v, n);
    ReopenedSure(w, kept, v, n);
    hide Inv, SeqCovers, BodiesSound, SureSound, Carried, Keeps, LogTyped;
  }

  /** What the stored records of a stop may still say. */
  lemma KeptReads(w: World, kept: map<AccountKey, Mark>, v: World, n: string)
    requires LogTyped(w.book.log) && Reopened(w, kept, v)
    ensures AttemptKey(n) in kept ==> MayStand(w.book.log, AttemptKey(n), Some(kept[AttemptKey(n)]))
    ensures ReceiptMayStand(v.book, n) ==> Lookup(kept, ConsumeKey(n)) == Some(Receipt) && ReceiptMayStand(w.book, n)
    ensures forall r :: MayStand(v.book.log, AttemptKey(n), r) ==> r == Lookup(kept, AttemptKey(n))
  {
    hide Inv, SeqCovers, Keeps;
  }

  lemma ReopenedSure(w: World, kept: map<AccountKey, Mark>, v: World, n: string)
    requires SureSound(w.book, w.ledger, n) && LogTyped(w.book.log) && Reopened(w, kept, v)
    ensures SureSound(v.book, v.ledger, n)
  {
    KeptReads(w, kept, v, n);
    if v.ledger.entry == w.ledger.entry { CarriedOn(w.book, w.ledger, v.book, v.ledger, n); }
    hide Inv, SeqCovers, Carried, Keeps, LogTyped, Survives;
  }

  /** Every step keeps the account sound and its fence. */
  lemma StepKeeps(w: World, step: Step, v: World)
    requires Sound(w) && AccountMoves(w, step, v)
    ensures Sound(v) && Fenced(w, v)
  {
    StepBook(w, step, v);
    StepLedger(w, step, v);
  }

  lemma StepBook(w: World, step: Step, v: World)
    requires BookInv(w) && AccountMoves(w, step, v)
    ensures BookInv(v) && Fenced(w, v)
  {
    match step
    case AttemptStep(n, t, ok) => AttemptKeeps(w, n, t, ok, v);
    case ReceiptStep(n, ok) => ReceiptKeeps(w, n, ok, v);
    case RegisterStep(n) => RegisterKeeps(w, n, v);
    case HostStep => HostKeeps(w, v.ledger);
    case ReopenStep(kept) => ReopenKeeps(w, kept, v);
    case TurnStep(_, _) => GrowthKeeps(w, step, v);
    case GrowStep(_, _) => GrowthKeeps(w, step, v);
    case _ => SeatStepKeeps(w, step, v);
  }

  lemma StepLedger(w: World, step: Step, v: World)
    requires Inv(w.ledger) && (w.ledger.up ==> SeqCovers(w.ledger)) && AccountMoves(w, step, v)
    ensures Inv(v.ledger) && (v.ledger.up ==> SeqCovers(v.ledger))
    ensures !step.ReopenStep? && SeqCovers(w.ledger) ==> HostMoves(w.ledger, v.ledger)
  {
    hide MarkMoves, MayReceive, MayAttempt, NewFacts, Registers;
    if step.TurnStep? || step.GrowStep? {
      OriginGrows(w.ledger, v.ledger);
    }
  }

  lemma OriginGrows(s: Ledger, t: Ledger)
    requires Inv(s) && SeqCovers(s) && t == s.(origin := t.origin)
    requires forall k :: k in s.origin ==> k in t.origin && t.origin[k] == s.origin[k]
    ensures Inv(t) && SeqCovers(t) && HostMoves(s, t)
  {
    forall k, r | MayStand(t.log, k, Some(r)) ensures RecordSound(t, k, r) {
      assert RecordSound(s, k, r);
    }
    forall k | InUse(t, k) ensures DeliveryHeldSeq(k) <= t.heldSeq {
      assert InUse(s, k);
    }
  }
}
