// The two faces that may close one account, interleaved step by step: the delivery
// of the segment that consumed the notice, and the fire turn the notice drove. Both
// share one marker. The driver writes its own receipt once the fire face reports a
// settlement.
module SettleFaces {
  datatype Face = DeliveryFace | FireFace

  datatype Phase =
    | Waiting
    | Holding     // the marker is taken and what the terminal owes is not registered
    | Registering // it is registered and the receipt is not written
    | Skipped     // the marker was found taken
    | Refused     // the registration failed and the marker was handed back
    | Closed      // the receipt was attempted

  datatype State = State(
    marker: bool,
    delivery: Phase,
    fire: Phase,
    registered: bool,
    faceReceipts: nat,
    receipt: bool)

  function Start(): State { State(false, Waiting, Waiting, false, 0, false) }

  function PhaseOf(s: State, f: Face): Phase { if f == DeliveryFace then s.delivery else s.fire }

  function To(s: State, f: Face, p: Phase): State {
    if f == DeliveryFace then s.(delivery := p) else s.(fire := p)
  }

  datatype Step = Take(f: Face) | Register(f: Face, ok: bool) | Receive(f: Face) | DriverReceipt

  predicate Reports(p: Phase) { p.Skipped? || p.Closed? }

  /** A step of one face, or the receipt the driver writes behind the fire face. */
  predicate Enabled(s: State, step: Step) {
    match step
    case Take(f) => PhaseOf(s, f).Waiting?
    case Register(f, _) => PhaseOf(s, f).Holding?
    case Receive(f) => PhaseOf(s, f).Registering?
    case DriverReceipt => Reports(s.fire)
  }

  function Next(s: State, step: Step): State {
    match step
    case Take(f) => if s.marker then To(s, f, Skipped) else To(s, f, Holding).(marker := true)
    case Register(f, ok) => if ok then To(s, f, Registering).(registered := true) else To(s, f, Refused).(marker := false)
    case Receive(f) => To(s, f, Closed).(faceReceipts := s.faceReceipts + 1, receipt := true)
    case DriverReceipt => s.(receipt := true)
  }

  /** The state behind a sequence of steps, each of which was enabled. */
  ghost predicate IsTrace(steps: seq<Step>) {
    steps == [] || (IsTrace(steps[..|steps| - 1]) && Enabled(After(steps[..|steps| - 1]), steps[|steps| - 1]))
  }

  function After(steps: seq<Step>): State {
    if steps == [] then Start() else Next(After(steps[..|steps| - 1]), steps[|steps| - 1])
  }

  lemma TraceNext(steps: seq<Step>, step: Step)
    requires IsTrace(steps) && Enabled(After(steps), step)
    ensures IsTrace(steps + [step]) && After(steps + [step]) == Next(After(steps), step)
  {
    assert (steps + [step])[..|steps|] == steps;
  }

  predicate Holds(p: Phase) { p.Holding? || p.Registering? || p.Closed? }

  predicate Behind(p: Phase) { p.Registering? || p.Closed? }

  ghost predicate FacesSound(s: State) {
    && !(Holds(s.delivery) && Holds(s.fire))
    && (s.marker <==> Holds(s.delivery) || Holds(s.fire))
    && s.faceReceipts == (if s.delivery.Closed? then 1 else 0) + (if s.fire.Closed? then 1 else 0)
    && (s.registered <==> Behind(s.delivery) || Behind(s.fire))
    && (s.delivery.Closed? || s.fire.Closed? ==> s.receipt)
    && (s.receipt ==> s.delivery.Closed? || Reports(s.fire))
    // a skipped face left the account to the other
    && (s.fire.Skipped? ==> Holds(s.delivery) || s.delivery.Refused?)
    && (s.delivery.Skipped? ==> Holds(s.fire) || s.fire.Refused?)
  }

  lemma {:induction false} TraceSound(steps: seq<Step>)
    requires IsTrace(steps)
    ensures FacesSound(After(steps))
  {
    if steps != [] {
      TraceSound(steps[..|steps| - 1]);
      StepSound(After(steps[..|steps| - 1]), steps[|steps| - 1]);
    }
  }

  lemma StepSound(s: State, step: Step)
    requires FacesSound(s) && Enabled(s, step)
    ensures FacesSound(Next(s, step))
  {
    if !step.DriverReceipt? {
      match step.f
      case DeliveryFace =>
      case FireFace =>
    }
  }

  /** The faces settle one account at most once between them, whatever the order of their
      steps, and never both hold it. */
  lemma SettledOnce(steps: seq<Step>)
    requires IsTrace(steps)
    ensures After(steps).faceReceipts <= 1
    ensures !(Holds(After(steps).delivery) && Holds(After(steps).fire))
  {
    TraceSound(steps);
  }

  // --- a receipt without a registration ---

  /** Both faces are done, and the driver has answered the one it waited for. */
  predicate Settled(s: State) {
    && (s.delivery.Waiting? || s.delivery.Skipped? || s.delivery.Refused? || s.delivery.Closed?)
    && (s.fire.Waiting? || s.fire.Skipped? || s.fire.Refused? || s.fire.Closed?)
    && (Reports(s.fire) ==> s.receipt)
  }

  /** The fire face found the account held by a delivery face whose registration failed
      afterwards. */
  ghost predicate SkippedRefusal(steps: seq<Step>) {
    exists i, j :: 0 <= i < j < |steps| && steps[i] == Take(FireFace) && After(steps[..i]).delivery.Holding? && steps[j] == Register(DeliveryFace, false)
  }

  /** Exactly when an account is closed over nothing: once both faces are done a receipt
      stands without a registration if and only if the fire face skipped an account the
      delivery face held and then failed to register. */
  lemma StrandedIffSkippedRefusal(steps: seq<Step>)
    requires IsTrace(steps) && Settled(After(steps))
    ensures After(steps).receipt && !After(steps).registered <==> SkippedRefusal(steps)
  {
    TraceSound(steps);
    SkippedBeside(steps);
  }

  /** The fire face skipped beside a refused delivery face exactly when it met that face
      while the refused registration was still ahead of it. */
  lemma SkippedBeside(steps: seq<Step>)
    requires IsTrace(steps)
    ensures After(steps).fire.Skipped? && After(steps).delivery.Refused? <==> SkippedRefusal(steps)
  {
    if SkippedRefusal(steps) {
      var i, j :| 0 <= i < j < |steps| && steps[i] == Take(FireFace) && After(steps[..i]).delivery.Holding? && steps[j] == Register(DeliveryFace, false);
      FireTaken(steps, i);
      DeliveryRefused(steps, j);
    }
    if After(steps).fire.Skipped? && After(steps).delivery.Refused? { RefusalAhead(steps); }
  }

  ghost predicate MetHolding(steps: seq<Step>) {
    exists i :: 0 <= i < |steps| && steps[i] == Take(FireFace) && After(steps[..i]).delivery.Holding?
  }

  /** A refused delivery face the fire face skipped was met holding, and refused later. */
  lemma {:induction false} RefusalAhead(steps: seq<Step>)
    requires IsTrace(steps) && After(steps).fire.Skipped? && (After(steps).delivery.Refused? || After(steps).delivery.Holding?)
    ensures MetHolding(steps) && (After(steps).delivery.Refused? ==> SkippedRefusal(steps))
  {
    var n := |steps| - 1;
    var init, last := steps[..n], steps[n];
    TraceSound(init);
    MetLater(steps);
    if After(init).fire.Skipped? {
      RefusalAhead(init);
      RefusedNow(init, last);
    } else {
      assert last == Take(FireFace);
    }
  }

  /** The delivery face a skipping fire face left behind moves on by its own steps. */
  lemma RefusedNow(init: seq<Step>, last: Step)
    requires Enabled(After(init), last)
    ensures Next(After(init), last).delivery.Refused? ==> After(init).delivery.Refused? || last == Register(DeliveryFace, false)
  {
  }

  lemma MetLater(steps: seq<Step>)
    requires steps != []
    ensures var init, last := steps[..|steps| - 1], steps[|steps| - 1];
            && (MetHolding(init) ==> MetHolding(steps))
            && (MetHolding(init) && last == Register(DeliveryFace, false) ==> SkippedRefusal(steps))
            && (SkippedRefusal(init) ==> SkippedRefusal(steps))
  {
    hide After;
    var n := |steps| - 1;
    var init, last := steps[..n], steps[n];
    assert forall i :: 0 <= i <= n ==> steps[..i] == init[..i];
    if MetHolding(init) {
      var i :| 0 <= i < n && init[i] == Take(FireFace) && After(init[..i]).delivery.Holding?;
      assert steps[i] == Take(FireFace) && After(steps[..i]).delivery.Holding?;
    }
    if SkippedRefusal(init) {
      var i, j :| 0 <= i < j < n && init[i] == Take(FireFace) && After(init[..i]).delivery.Holding? && init[j] == Register(DeliveryFace, false);
      assert steps[i] == Take(FireFace) && After(steps[..i]).delivery.Holding? && steps[j] == Register(DeliveryFace, false);
    }
  }

  lemma {:induction false} DeliveryRefused(steps: seq<Step>, j: nat)
    requires IsTrace(steps) && j < |steps| && steps[j] == Register(DeliveryFace, false)
    ensures After(steps).delivery.Refused?
  {
    var n := |steps| - 1;
    if j < n { DeliveryRefused(steps[..n], j); }
  }

  /** A fire face that met a holding delivery face has skipped. */
  lemma {:induction false} FireTaken(steps: seq<Step>, i: nat)
    requires IsTrace(steps) && i < |steps| && steps[i] == Take(FireFace) && After(steps[..i]).delivery.Holding?
    ensures After(steps).fire.Skipped?
  {
    var n := |steps| - 1;
    TraceSound(steps[..n]);
    if i == n {
    } else {
      assert steps[..n][..i] == steps[..i];
      FireTaken(steps[..n], i);
    }
  }

  /** The delivery face has ended, or has not begun, whenever the fire face reads the
      account: what the wait of the fire face promises. */
  ghost predicate WaitsForDelivery(steps: seq<Step>) {
    forall i :: 0 <= i < |steps| && steps[i] == Take(FireFace) ==>
      !After(steps[..i]).delivery.Holding? && !After(steps[..i]).delivery.Registering?
  }

  /** Behind that wait no receipt ever stands without its registration, in any state. */
  lemma WaitStrandsNothing(steps: seq<Step>)
    requires IsTrace(steps) && WaitsForDelivery(steps)
    ensures After(steps).receipt ==> After(steps).registered
  {
    TraceSound(steps);
    WaitedSkip(steps);
  }

  lemma {:induction false} WaitedSkip(steps: seq<Step>)
    requires IsTrace(steps) && WaitsForDelivery(steps)
    ensures After(steps).fire.Skipped? ==> After(steps).delivery.Closed?
  {
    if steps != [] {
      var n := |steps| - 1;
      var init := steps[..n];
      assert forall i :: 0 <= i <= n ==> steps[..i] == init[..i];
      forall i | 0 <= i < n && init[i] == Take(FireFace)
        ensures !After(init[..i]).delivery.Holding? && !After(init[..i]).delivery.Registering?
      {
        assert steps[i] == Take(FireFace);
      }
      WaitedSkip(init);
      TraceSound(init);
      assert After(steps) == Next(After(init), steps[n]);
    }
  }

  /** Such an account: the fire face reports it settled, the driver consumes it, and the
      registration it was left to fails. */
  lemma SkippedRefusalStrands() returns (steps: seq<Step>)
    ensures IsTrace(steps) && Settled(After(steps)) && After(steps).receipt && !After(steps).registered
  {
    steps := [];
    TraceNext(steps, Take(DeliveryFace));
    steps := steps + [Take(DeliveryFace)];
    TraceNext(steps, Take(FireFace));
    steps := steps + [Take(FireFace)];
    TraceNext(steps, DriverReceipt);
    steps := steps + [DriverReceipt];
    TraceNext(steps, Register(DeliveryFace, false));
    steps := steps + [Register(DeliveryFace, false)];
  }
}
