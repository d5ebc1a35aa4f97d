// Runs of the settle account: from an account that holds nothing, whatever the driver,
// the host, a stop and a restart do. A landed attempt and a receipt are never taken
// back, and no receipt stands over a body nothing carries unless a terminal could not
// be recorded.
module SettleRuns {
  import opened Core
  import opened DeliveryIds
  import opened FactLog
  import opened DeliveryLedger
  import opened DeliverySteps
  import opened FactWindow
  import opened TurnBodies
  import opened SettleAccount

  /** Consecutive steps of the account. */
  ghost predicate IsPath(states: seq<World>, steps: seq<Step>) {
    && |states| == |steps| + 1
    && (forall i :: 0 <= i < |steps| ==> AccountMoves(states[i], steps[i], states[i + 1]))
  }

  /** An account that holds nothing, beside a host before its first boot. */
  ghost predicate Starts(w: World) {
    && w.book == Book(Empty(), {}, map[], map[], map[], w.book.routing, map[], map[], {}, map[], false)
    && Inv(w.ledger) && !w.ledger.up
  }

  ghost predicate IsAccountRun(states: seq<World>, steps: seq<Step>) {
    IsPath(states, steps) && Starts(states[0])
  }

  lemma StartSound(w: World)
    requires Starts(w)
    ensures Sound(w)
  {
    forall n ensures NoticeSound(w.book, w.ledger, n) {}
  }

  lemma PathPrefix(states: seq<World>, steps: seq<Step>)
    requires IsPath(states, steps) && |steps| > 0
    ensures IsPath(states[..|steps|], steps[..|steps| - 1])
    ensures AccountMoves(states[|steps| - 1], steps[|steps| - 1], states[|steps|])
  {
    hide AccountMoves;
    var init := steps[..|steps| - 1];
    forall i | 0 <= i < |init| ensures AccountMoves(states[..|steps|][i], init[i], states[..|steps|][i + 1]) {
      assert AccountMoves(states[i], steps[i], states[i + 1]);
    }
  }

  /** Every state of a path from a sound account is sound, and the fence of every state
      holds in every later one. */
  lemma {:induction false} PathSound(states: seq<World>, steps: seq<Step>, i: nat)
    requires IsPath(states, steps) && Sound(states[0]) && i <= |steps|
    ensures Sound(states[|steps|]) && Sound(states[i]) && Fenced(states[i], states[|steps|])
  {
    hide AccountMoves, Sound, Fenced;
    if i == |steps| {
      FencedRefl(states[i]);
      if |steps| > 0 {
        PathPrefix(states, steps);
        PathSound(states[..|steps|], steps[..|steps| - 1], 0);
        StepKeeps(states[|steps| - 1], steps[|steps| - 1], states[|steps|]);
      }
    } else {
      PathPrefix(states, steps);
      PathSound(states[..|steps|], steps[..|steps| - 1], i);
      StepKeeps(states[|steps| - 1], steps[|steps| - 1], states[|steps|]);
      FencedChain(states[i], states[|steps| - 1], states[|steps|]);
    }
  }

  lemma RunSound(states: seq<World>, steps: seq<Step>, i: nat, j: nat)
    requires IsAccountRun(states, steps) && i <= j <= |steps|
    ensures Sound(states[j]) && Fenced(states[i], states[j])
  {
    hide AccountMoves, Fenced, Sound;
    StartSound(states[0]);
    assert IsPath(states[..j + 1], steps[..j]) by {
      forall k | 0 <= k < j ensures AccountMoves(states[..j + 1][k], steps[..j][k], states[..j + 1][k + 1]) {
        assert AccountMoves(states[k], steps[k], states[k + 1]);
      }
    }
    PathSound(states[..j + 1], steps[..j], i);
  }

  /** Settle fencing: an attempt known landed keeps its terminal through every later state
      of the run, restarts included, nothing else may stand in its place, and its
      notification never starts another turn. */
  lemma LandedForever(states: seq<World>, steps: seq<Step>, i: nat, j: nat, n: string)
    requires IsAccountRun(states, steps) && i <= j <= |steps| && KnownLanded(states[i].book, n)
    ensures n in states[j].book.attempts && states[j].book.attempts[n] == states[i].book.attempts[n]
    ensures Drives(states[j].book, n) == Drives(states[i].book, n)
    ensures forall r :: MayStand(states[j].book.log, AttemptKey(n), r) ==> r == Some(Attempt(states[i].book.attempts[n]))
  {
    hide AccountMoves;
    RunSound(states, steps, i, j);
    assert NoticeSound(states[j].book, states[j].ledger, n);
  }

  /** A consumed notification stays consumed and is driven no more. */
  lemma ConsumedForever(states: seq<World>, steps: seq<Step>, i: nat, j: nat, n: string)
    requires IsAccountRun(states, steps) && i <= j <= |steps| && n in states[i].book.receipts
    ensures n in states[j].book.receipts && ConsumeKey(n) in states[j].book.log.stored
    ensures Drives(states[j].book, n) == Drives(states[i].book, n)
  {
    hide AccountMoves;
    RunSound(states, steps, i, j);
    assert NoticeSound(states[j].book, states[j].ledger, n);
  }

  // --- no body stranded ---

  /** A receipt and a completed turn may stand together over a body of n the closing read
      did not cover. */
  ghost predicate Strands(w: World, n: string) {
    ReceiptMayStand(w.book, n) && CompletedMayStand(w.book, n) && !Carried(w.book, w.ledger, n)
  }

  lemma SureStrandsNothing(w: World, n: string)
    requires Sound(w) && n !in w.book.missed && !w.book.moved
    ensures !Strands(w, n)
  {
    assert NoticeSound(w.book, w.ledger, n);
  }

  /** No body stranded: in every state of every run under one entry, a receipt that stands
      or that a stop could leave standing, beside a completed attempt that stands or could,
      means that every body of the notification lies before its closing read, and has its
      delivery record if it was among the most recent facts then or no turn-end fact stood
      behind it. */
  lemma NoBodyStranded(states: seq<World>, steps: seq<Step>, j: nat, n: string, i: nat)
    requires IsAccountRun(states, steps) && j <= |steps|
    requires forall k :: 0 <= k <= |steps| ==> states[k].ledger.entry == states[0].ledger.entry
    requires var b, l := states[j].book, states[j].ledger;
             && ReceiptMayStand(b, n) && CompletedMayStand(b, n) && n !in b.missed
             && l.tiered && n in b.routing && b.routing[n].agent == l.entry
             && i < |ChainOf(b, n)| && IsBody(ChainOf(b, n)[i], b.routing[n], n)
    ensures var b, c := states[j].book, ChainOf(states[j].book, n);
            && n in b.readTo && i < b.readTo[n] <= |c|
            && (b.readTo[n] - i <= FACT_WINDOW || (forall k :: i < k < b.readTo[n] ==> !c[k].kind.AgentOutput?) ==>
                FreshId(c[i].key) in states[j].ledger.log.stored)
  {
    hide AccountMoves, CutOf, IsBody;
    RunSound(states, steps, 0, j);
    OneEntry(states, steps, j);
    SureStrandsNothing(states[j], n);
    var b := states[j].book;
    WindowKeeps(ChainOf(b, n)[..b.readTo[n]], i);
  }

  lemma {:induction false} OneEntry(states: seq<World>, steps: seq<Step>, j: nat)
    requires IsAccountRun(states, steps) && j <= |steps|
    requires forall k :: 0 <= k <= |steps| ==> states[k].ledger.entry == states[0].ledger.entry
    ensures !states[j].book.moved
  {
    hide AccountMoves;
    if j > 0 {
      OneEntry(states, steps, j - 1);
      assert AccountMoves(states[j - 1], steps[j - 1], states[j - 1 + 1]);
      MovedOn(states[j - 1], steps[j - 1], states[j]);
    }
  }

  lemma MovedOn(w: World, step: Step, v: World)
    requires AccountMoves(w, step, v) && v.ledger.entry == w.ledger.entry
    ensures v.book.moved == w.book.moved
  {
  }

  /** What missed says: a terminal of a turn of n was recorded to an error the process that
      asked for it lived to see. */
  lemma {:induction false} MissedReported(states: seq<World>, steps: seq<Step>, j: nat, n: string)
    requires IsAccountRun(states, steps) && j <= |steps| && n in states[j].book.missed
    ensures exists k :: 0 <= k < j && steps[k].AttemptStep? && steps[k].notice == n && !steps[k].ok
                     && !steps[k].terminal.InFlight? && states[k + 1].ledger.up
  {
    if j > 0 {
      assert AccountMoves(states[j - 1], steps[j - 1], states[j - 1 + 1]);
      if n in states[j - 1].book.missed {
        MissedReported(states, steps, j - 1, n);
      } else {
        MissedBy(states[j - 1], steps[j - 1], states[j], n);
        assert steps[j - 1].AttemptStep?;
      }
    }
  }

  lemma MissedBy(w: World, step: Step, v: World, n: string)
    requires AccountMoves(w, step, v) && n in v.book.missed && n !in w.book.missed
    ensures step.AttemptStep? && step.notice == n && !step.ok && !step.terminal.InFlight? && v.ledger.up
  {
  }

  // --- continuations ---

  ghost predicate Reaches(w: World, v: World) {
    exists states, steps :: IsPath(states, steps) && states[0] == w && states[|steps|] == v
  }

  lemma ReachesSelf(w: World)
    ensures Reaches(w, w)
  {
    var states, steps: seq<Step> := [w], [];
    assert IsPath(states, steps) && states[0] == w && states[|steps|] == w;
  }

  lemma ReachesStep(w: World, u: World, step: Step, v: World)
    requires Reaches(w, u) && AccountMoves(u, step, v)
    ensures Reaches(w, v)
  {
    hide AccountMoves;
    var states: seq<World>, steps: seq<Step> :| IsPath(states, steps) && states[0] == w && states[|steps|] == u;
    var more, all := states + [v], steps + [step];
    forall i | 0 <= i < |all| ensures AccountMoves(more[i], all[i], more[i + 1]) {
      if i < |steps| {
        assert AccountMoves(states[i], steps[i], states[i + 1]);
        assert more[i] == states[i] && more[i + 1] == states[i + 1] && all[i] == steps[i];
      }
    }
    assert IsPath(more, all) && more[0] == w && more[|all|] == v;
  }

  lemma ReachesChain(w: World, u: World, v: World)
    requires Reaches(w, u) && Reaches(u, v)
    ensures Reaches(w, v)
  {
    hide AccountMoves;
    var states: seq<World>, steps: seq<Step> :| IsPath(states, steps) && states[0] == u && states[|steps|] == v;
    for i := 0 to |steps|
      invariant Reaches(w, states[i])
    {
      assert AccountMoves(states[i], steps[i], states[i + 1]);
      ReachesStep(w, states[i], steps[i], states[i + 1]);
    }
  }

  lemma ReachesSound(w: World, v: World)
    requires Sound(w) && Reaches(w, v)
    ensures Sound(v) && Fenced(w, v)
  {
    hide AccountMoves, Sound, Fenced;
    var states: seq<World>, steps: seq<Step> :| IsPath(states, steps) && states[0] == w && states[|steps|] == v;
    PathSound(states, steps, 0);
  }

  /** An account no terminal of which was missed stays so once its attempt landed. */
  lemma LandedStaysSure(w: World, step: Step, v: World, n: string)
    requires Sound(w) && AccountMoves(w, step, v) && KnownLanded(w.book, n) && n !in w.book.missed
    ensures KnownLanded(v.book, n) && n !in v.book.missed
  {
    StepKeeps(w, step, v);
    if n in v.book.missed { MissedBy(w, step, v, n); }
    assert NoticeSound(w.book, w.ledger, n);
    hide Sound, Inv;
  }

  lemma SureForever(w: World, v: World, n: string)
    requires Sound(w) && Reaches(w, v) && KnownLanded(w.book, n) && n !in w.book.missed
    ensures Sound(v) && n !in v.book.missed
  {
    hide AccountMoves, Sound;
    var states: seq<World>, steps: seq<Step> :| IsPath(states, steps) && states[0] == w && states[|steps|] == v;
    for i := 0 to |steps|
      invariant Sound(states[i]) && KnownLanded(states[i].book, n) && n !in states[i].book.missed
    {
      assert AccountMoves(states[i], steps[i], states[i + 1]);
      StepKeeps(states[i], steps[i], states[i + 1]);
      LandedStaysSure(states[i], steps[i], states[i + 1], n);
    }
  }
}
