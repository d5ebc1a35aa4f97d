// The re-entry of one settled task by several callers at once: three tables are
// moved in order, each step on its own, and a step that is refused undoes the ones
// before it. The rows here are those of one task; tasks share no row.
module Reentry {
  import opened Core

  datatype TaskStatus = Unknown | Settled | Failed | Cancelled | Running

  /** round counts the rounds the task ever opened; a number is never used again. */
  datatype TaskRow = TaskRow(status: TaskStatus, round: nat)

  datatype LedgerRow = NoEntry | Entry(terminal: bool, round: nat)

  /** A busy slot names the caller that claimed it, or none for the round the task was
      first served in. */
  datatype Slot = NoSlot | Idle | Busy(owner: Option<nat>)

  datatype Pc =
    | Fresh
    | Checked                 // the task admits a re-entry
    | Ready                   // the ledger would reopen, the continuation is served
    | Claimed                 // the slot is taken
    | Denied                  // the reactivation was refused, the slot is to be given back
    | Reopening(round: nat)   // the task runs the round
    | Unclaiming(round: nat)  // the reopen was refused, the slot is to be given back
    | Serving(round: nat)     // the ledger runs the round
    | RollingBack(round: nat) // nothing served the round, the task is to be put back
    | Withdrawing(round: nat) // the ledger is to be put back
    | Refused(withdrawn: Option<nat>)
    | Sent(round: nat)

  /** The round that flies beside its caller: it holds the slot until it ends. */
  datatype Flight = Flying(round: nat) | TaskEnded(round: nat) | LedgerEnded(round: nat) | Failing(round: nat)

  datatype State = State(
    task: TaskRow,
    ledger: LedgerRow,
    slot: Slot,
    pcs: map<nat, Pc>,
    flights: map<nat, Flight>,
    broken: set<nat>)

  function PcOf(s: State, c: nat): Pc { if c in s.pcs then s.pcs[c] else Fresh }

  function To(s: State, c: nat, pc: Pc): State { s.(pcs := s.pcs[c := pc]) }

  /** The answers the tables may give where the source leaves them open. */
  datatype Step =
    | CheckTask
    | CheckLedger
    | RestoreEntry(terminal: bool)
    | Rebuild
    | ClaimSlot
    | Reactivate(committed: bool)
    | GiveBack
    | ReopenRound
    | ServeLands
    | ServeRefuses
    | Rollback(committed: bool)
    | Withdraw
    | Stop
    | TaskSettles(failed: bool)
    | LedgerSettles
    | FlightEnds
    | FirstRoundEnds

  /** One step of one caller, or of the round that flies beside it. */
  ghost predicate Moves(s: State, c: nat, step: Step, t: State) {
    var pc := PcOf(s, c);
    match step
    case CheckTask =>
      pc.Fresh? && t == To(s, c, if s.task.status.Settled? then Checked else Refused(None))
    case CheckLedger =>
      && pc.Checked? && !s.ledger.NoEntry?
      && t == To(s, c, if s.ledger.terminal then Ready else Refused(None))
    case RestoreEntry(terminal) =>
      // the entry a restart lost is rebuilt from the task account, beside no held entry
      pc.Checked? && s.ledger.NoEntry? && t == s.(ledger := Entry(terminal, 0))
    case Rebuild =>
      pc.Ready? && s.slot.NoSlot? && t == s.(slot := Idle)
    case ClaimSlot =>
      && pc.Ready?
      && t == if s.slot.Idle? then To(s, c, Claimed).(slot := Busy(Some(c))) else To(s, c, Refused(None))
    case Reactivate(committed) =>
      && pc.Claimed?
      && t == if s.task.status.Settled? && committed
              then To(s, c, Reopening(s.task.round + 1)).(task := TaskRow(Running, s.task.round + 1))
              else To(s, c, Denied)
    case GiveBack =>
      && (pc.Denied? || pc.Unclaiming?)
      && t == To(s, c, if pc.Denied? then Refused(None) else RollingBack(pc.round)).(slot := if s.slot.Busy? then Idle else s.slot)
    case ReopenRound =>
      && pc.Reopening?
      && t == if s.ledger.Entry? && s.ledger.terminal
              then To(s, c, Serving(pc.round)).(ledger := Entry(false, pc.round))
              else To(s, c, Unclaiming(pc.round))
    case ServeLands =>
      pc.Serving? && t == To(s, c, Sent(pc.round)).(flights := s.flights[c := Flying(pc.round)])
    case ServeRefuses =>
      pc.Serving? && t == To(s, c, RollingBack(pc.round)).(flights := s.flights[c := Failing(pc.round)])
    case Rollback(committed) =>
      && pc.RollingBack?
      && t == if s.task == TaskRow(Running, pc.round) && committed
              then To(s, c, Withdrawing(pc.round)).(task := TaskRow(Settled, pc.round))
              else To(s, c, Withdrawing(pc.round)).(broken := s.broken + {c})
    case Withdraw =>
      && pc.Withdrawing?
      && t == To(s, c, Refused(Some(pc.round))).(ledger := if s.ledger == Entry(false, pc.round) then Entry(true, pc.round) else s.ledger)
    case Stop =>
      // a read that failed before anything was taken
      (pc.Fresh? || pc.Checked? || pc.Ready?) && t == To(s, c, Refused(None))
    case TaskSettles(failed) =>
      && c in s.flights && s.flights[c].Flying?
      && t == s.(task := TaskRow(if failed then Failed else Settled, s.task.round), flights := s.flights[c := TaskEnded(s.flights[c].round)])
    case LedgerSettles =>
      && c in s.flights && s.flights[c].TaskEnded? && s.ledger.Entry?
      && t == s.(ledger := Entry(true, s.ledger.round), flights := s.flights[c := LedgerEnded(s.flights[c].round)])
    case FlightEnds =>
      // with or without a recorded terminal, the slot is given back
      c in s.flights && t == s.(flights := s.flights - {c}, slot := if s.slot.Busy? then Idle else s.slot)
    case FirstRoundEnds =>
      && s.slot == Busy(None)
      && t == s.(slot := Idle,
                 task := if s.task.status.Running? then TaskRow(Settled, s.task.round) else s.task,
                 ledger := if s.ledger.Entry? then Entry(true, s.ledger.round) else s.ledger)
  }

  /** No caller has started: the rows are whatever earlier rounds left, and a running round
      holds the slot. */
  ghost predicate Initial(s: State) {
    && s.pcs == map[] && s.flights == map[] && s.broken == {}
    && (s.slot.Busy? ==> s.slot.owner.None?)
    && (s.ledger.Entry? ==> s.ledger.round <= s.task.round)
  }

  ghost predicate IsTrace(states: seq<State>, callers: seq<nat>, steps: seq<Step>) {
    && |states| == |steps| + 1 && |callers| == |steps| && Initial(states[0])
    && (forall i :: 0 <= i < |steps| ==> Moves(states[i], callers[i], steps[i], states[i + 1]))
  }

  predicate Owns(s: State, c: nat) {
    var pc := PcOf(s, c);
    pc.Claimed? || pc.Denied? || pc.Reopening? || pc.Unclaiming? || pc.Serving? || c in s.flights
  }

  function RoundOf(pc: Pc): Option<nat> {
    match pc
    case Reopening(r) => Some(r)
    case Unclaiming(r) => Some(r)
    case Serving(r) => Some(r)
    case RollingBack(r) => Some(r)
    case Withdrawing(r) => Some(r)
    case Refused(o) => o
    case Sent(r) => Some(r)
    case _ => None
  }

  /** The task runs the round of c. */
  predicate RunsTask(s: State, c: nat) {
    var pc := PcOf(s, c);
    pc.Reopening? || pc.Unclaiming? || pc.Serving? || pc.RollingBack? || (c in s.flights && s.flights[c].Flying?)
  }

  /** The ledger runs the round of c. */
  predicate RunsLedger(s: State, c: nat) {
    PcOf(s, c).Serving? || (c in s.flights && (s.flights[c].Flying? || s.flights[c].TaskEnded?))
  }

  ghost predicate CallerSound(s: State, c: nat) {
    var pc := PcOf(s, c);
    && (Owns(s, c) <==> s.slot == Busy(Some(c)))
    && (RoundOf(pc).Some? ==> 1 <= RoundOf(pc).value <= s.task.round && s.slot != Busy(None))
    && (RunsTask(s, c) ==> RoundOf(pc).Some? && s.task == TaskRow(Running, RoundOf(pc).value))
    && (RunsLedger(s, c) ==> RoundOf(pc).Some? && s.ledger == Entry(false, RoundOf(pc).value))
    && (c in s.flights ==>
        && RoundOf(pc) == Some(s.flights[c].round)
        && if s.flights[c].Failing? then pc.RollingBack? || pc.Withdrawing? || pc.Refused? else pc.Sent?)
    && (RoundOf(pc).Some? && s.ledger == Entry(false, RoundOf(pc).value) ==>
        pc.Serving? || pc.RollingBack? || pc.Withdrawing? || pc.Sent?)
    && ((pc.Withdrawing? || pc.Refused?) && RoundOf(pc).Some? && s.task == TaskRow(Running, RoundOf(pc).value) ==> c in s.broken)
  }

  ghost predicate Sound(s: State) {
    && (forall c :: CallerSound(s, c))
    && (forall c, d :: c != d && RoundOf(PcOf(s, c)).Some? ==> RoundOf(PcOf(s, c)) != RoundOf(PcOf(s, d)))
    && (s.ledger.Entry? ==> s.ledger.round <= s.task.round)
  }

  lemma InitialSound(s: State)
    requires Initial(s)
    ensures Sound(s)
  {
  }

  /** Only one caller holds the slot, so only one has a round open. */
  lemma OneOwner(s: State, c: nat, d: nat)
    requires Sound(s) && Owns(s, c) && Owns(s, d)
    ensures c == d
  {
    assert CallerSound(s, c) && CallerSound(s, d);
  }

  predicate Apart(s: State, c: nat, d: nat) {
    c != d && RoundOf(PcOf(s, c)).Some? ==> RoundOf(PcOf(s, c)) != RoundOf(PcOf(s, d))
  }

  /** What a step of c leaves of c itself. */
  lemma StepSelf(s: State, c: nat, step: Step, t: State)
    requires CallerSound(s, c) && Moves(s, c, step, t) && (s.ledger.Entry? ==> s.ledger.round <= s.task.round)
    ensures CallerSound(t, c)
  {
  }

  /** What a step of c leaves of another caller. */
  lemma StepOther(s: State, c: nat, step: Step, t: State, d: nat)
    requires c != d && CallerSound(s, c) && CallerSound(s, d) && Apart(s, c, d) && Moves(s, c, step, t)
    ensures CallerSound(t, d) && Apart(t, c, d) && Apart(t, d, c)
    ensures PcOf(t, d) == PcOf(s, d)
  {
  }

  lemma StepSound(s: State, c: nat, step: Step, t: State)
    requires Sound(s) && Moves(s, c, step, t)
    ensures Sound(t)
  {
    hide CallerSound;
    assert CallerSound(s, c);
    StepSelf(s, c, step, t);
    forall d ensures CallerSound(t, d) && Apart(t, c, d) && Apart(t, d, c) && (d != c ==> PcOf(t, d) == PcOf(s, d)) {
      if d != c {
        assert CallerSound(s, d) && Apart(s, c, d);
        StepOther(s, c, step, t, d);
      }
    }
    forall d, e | d != e && RoundOf(PcOf(t, d)).Some? ensures RoundOf(PcOf(t, d)) != RoundOf(PcOf(t, e)) {
      assert Apart(t, c, d) && Apart(t, e, c) && Apart(t, d, c);
    }
    LedgerBound(s, c, step, t);
  }

  lemma LedgerBound(s: State, c: nat, step: Step, t: State)
    requires CallerSound(s, c) && (s.ledger.Entry? ==> s.ledger.round <= s.task.round) && Moves(s, c, step, t)
    ensures t.ledger.Entry? ==> t.ledger.round <= t.task.round
  {
  }

  lemma {:induction false} TraceSound(states: seq<State>, callers: seq<nat>, steps: seq<Step>)
    requires IsTrace(states, callers, steps)
    ensures Sound(states[|steps|])
  {
    if |steps| == 0 {
      InitialSound(states[0]);
    } else {
      var n := |steps| - 1;
      var fewer, who := steps[..n], callers[..n];
      forall i | 0 <= i < n ensures Moves(states[..|steps|][i], who[i], fewer[i], states[..|steps|][i + 1]) {
        assert Moves(states[i], callers[i], steps[i], states[i + 1]);
      }
      TraceSound(states[..|steps|], who, fewer);
      assert Moves(states[n], callers[n], steps[n], states[n + 1]);
      StepSound(states[n], callers[n], steps[n], states[n + 1]);
    }
  }

  /** A sent answer is true when it is given: the round of the task and the round of the
      ledger are the one this caller opened, in the slot it alone claimed, and no other
      caller ever opened that round. */
  lemma SentIsServed(states: seq<State>, callers: seq<nat>, steps: seq<Step>, c: nat)
    requires IsTrace(states, callers, steps)
    requires PcOf(states[|steps|], c).Sent? && c in states[|steps|].flights && states[|steps|].flights[c].Flying?
    ensures var s := states[|steps|];
            var r := PcOf(s, c).round;
            && s.task == TaskRow(Running, r) && s.ledger == Entry(false, r) && s.slot == Busy(Some(c))
            && forall d :: d != c ==> !Owns(s, d) && RoundOf(PcOf(s, d)) != Some(r)
  {
    TraceSound(states, callers, steps);
    var s := states[|steps|];
    assert CallerSound(s, c);
    forall d | d != c ensures !Owns(s, d) {
      if Owns(s, d) { OneOwner(s, c, d); }
    }
  }

  /** A refused caller leaves nothing of itself behind, whatever the others did meanwhile:
      the ledger does not run its round, the task does not either unless a broken receipt was
      filed, and once its flight is over the slot is not its own. */
  lemma RefusedLeavesNothing(states: seq<State>, callers: seq<nat>, steps: seq<Step>, c: nat)
    requires IsTrace(states, callers, steps) && PcOf(states[|steps|], c).Refused?
    ensures var s := states[|steps|];
            var o := PcOf(s, c).withdrawn;
            && (o.Some? ==> s.ledger != Entry(false, o.value))
            && (o.Some? && s.task == TaskRow(Running, o.value) ==> c in s.broken)
            && (c !in s.flights ==> s.slot != Busy(Some(c)))
  {
    TraceSound(states, callers, steps);
    assert CallerSound(states[|steps|], c);
  }

  /** No step of one caller releases the slot another claimed, puts back a round another
      opened, or withdraws the ledger round of another. */
  lemma OnlyItsOwn(states: seq<State>, callers: seq<nat>, steps: seq<Step>, i: nat)
    requires IsTrace(states, callers, steps) && i < |steps| && !steps[i].FirstRoundEnds?
    ensures var s, c, t := states[i], callers[i], states[i + 1];
            && (s.slot.Busy? && t.slot != s.slot ==> s.slot == Busy(Some(c)))
            && (s.task.status.Running? && t.task != s.task ==> RoundOf(PcOf(s, c)) == Some(s.task.round))
            && (s.ledger.Entry? && !s.ledger.terminal && t.ledger != s.ledger ==> RoundOf(PcOf(s, c)) == Some(s.ledger.round))
  {
    forall j | 0 <= j < i ensures Moves(states[..i + 1][j], callers[..i][j], steps[..i][j], states[..i + 1][j + 1]) {
      assert Moves(states[j], callers[j], steps[j], states[j + 1]);
    }
    TraceSound(states[..i + 1], callers[..i], steps[..i]);
    assert CallerSound(states[i], callers[i]);
    assert Moves(states[i], callers[i], steps[i], states[i + 1]);
  }

  // --- one caller alone ---

  /** What the tables answer one re-entry: the terminal a lost ledger entry is restored at, if
      it is; whether a lost continuation is rebuilt, the reactivation commits, the round lands
      its input, and the compensation commits. */
  datatype Answers = Answers(restored: Option<bool>, rebuilds: bool, commits: bool, lands: bool, rollsBack: bool)

  class ReentryPort {
    const me: nat
    var task: TaskRow
    var ledger: LedgerRow
    var slot: Slot
    var broken: bool

    ghost predicate LedgerReady(a: Answers)
      reads this
    {
      if ledger.NoEntry? then a.restored == Some(true) else ledger.terminal
    }

    ghost predicate SlotReady(a: Answers)
      reads this
    {
      slot.Idle? || (slot.NoSlot? && a.rebuilds)
    }

    /** unwindReentry: the task goes back to its settled outcome and the ledger entry to the
        terminal it was reopened from; a task that cannot be put back is filed as broken. */
    method Unwind(round: nat, commits: bool)
      modifies this`task, this`ledger, this`broken
      ensures task == if old(task) == TaskRow(Running, round) && commits then TaskRow(Settled, round) else old(task)
      ensures broken == (old(broken) || !(old(task) == TaskRow(Running, round) && commits))
      ensures ledger == if old(ledger) == Entry(false, round) then Entry(true, round) else old(ledger)
    {
      if task == TaskRow(Running, round) && commits {
        task := TaskRow(Settled, round);
      } else {
        broken := true;
      }
      if ledger == Entry(false, round) { ledger := Entry(true, round); }
    }

    /** ReenterTask, with no other caller in between: sent exactly when every table takes its
        step; otherwise the status, the ledger and the slot stand as they stood, the round
        number alone staying used, or the round is left open with a broken receipt. */
    method ReenterTask(a: Answers) returns (sent: bool)
      modifies this
      ensures sent <==> old(task.status.Settled? && LedgerReady(a) && SlotReady(a)) && a.commits && a.lands
      ensures sent ==>
                && task == TaskRow(Running, old(task).round + 1) && ledger == Entry(false, task.round)
                && slot == Busy(Some(me)) && broken == old(broken)
      ensures !sent ==> (slot.Busy? <==> old(slot).Busy?) && (slot.Busy? ==> slot == old(slot))
      ensures !sent && !(old(task.status.Settled? && LedgerReady(a) && SlotReady(a)) && a.commits) ==>
                task == old(task) && broken == old(broken) && (!old(ledger).NoEntry? ==> ledger == old(ledger))
      ensures !sent && old(task.status.Settled? && LedgerReady(a) && SlotReady(a)) && a.commits ==>
                && ledger == Entry(true, old(task).round + 1) && slot == Idle
                && if a.rollsBack then task == TaskRow(Settled, old(task).round + 1) && broken == old(broken)
                   else task == TaskRow(Running, old(task).round + 1) && broken
    {
      if !task.status.Settled? { return false; }
      if ledger.NoEntry? {
        if a.restored.None? { return false; }
        ledger := Entry(a.restored.value, 0);
      }
      if !ledger.terminal { return false; }
      if slot.NoSlot? {
        if !a.rebuilds { return false; }
        slot := Idle;
      }
      if !slot.Idle? { return false; }
      slot := Busy(Some(me));
      if !a.commits {
        slot := Idle;
        return false;
      }
      var round := task.round + 1;
      task := TaskRow(Running, round);
      ledger := Entry(false, round);
      if !a.lands {
        // the round that never landed gives the slot back
        slot := Idle;
        Unwind(round, a.rollsBack);
        return false;
      }
      sent := true;
    }
  }
}
