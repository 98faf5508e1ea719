/** The fleet's own goroutines always get where they are going: every step they
    take uses up energy, and they are only stuck where they should be. */
module Progress {
  import opened Jobs
  import opened DispatcherCore
  import opened PauseHistory
  import opened Protocol
  import opened Delivery
  import opened Frames
  import opened Invariant
  import opened Guarantees

  lemma {:induction false} RunThen(s: State, steps: seq<Step>, step: Step)
    requires ValidRun(s, steps) && Can(Final(s, steps), step)
    ensures ValidRun(s, steps + [step]) && Final(s, steps + [step]) == Apply(Final(s, steps), step)
    decreases |steps|
  {
    if steps == [] {
      assert [step][1..] == [];
      assert steps + [step] == [step];
    } else {
      RunThen(Apply(s, steps[0]), steps[1..], step);
      assert (steps + [step])[1..] == steps[1..] + [step];
    }
  }

  lemma ReachableStep(s: State, step: Step)
    requires Reachable(s) && Can(s, step)
    ensures Reachable(Apply(s, step))
  {
    var steps :| ValidRun(NEW_STATE, steps) && Final(NEW_STATE, steps) == s;
    RunThen(NEW_STATE, steps, step);
  }

  /** A step of the fleet's own goroutines, driver calls returning included. */
  predicate Internal(step: Step) {
    !step.Outside?
  }

  function NativeEnergy(n: Native, cond: CondVar): nat {
    match n
    case NotStarted => 0
    case Checking => 2
    case Asleep => if cond.Woken? then 1 else 0
    case Holding(_) => 16
    case Entering(_) => 15
    case Running(_) => 14
    case CdpBound(_) => 15
    case Selecting(_, _) => 14
    case Parked(_, _) => 13
    case Doomed(_) => 12
    case Settling(_) => 3
    case Exited => 0
  }

  function PoolEnergy(p: Pool): nat {
    2 * p.starting + p.idle + 5 * |p.fetched| + 4 * |p.running| + 3 * |p.settling|
  }

  function StopperEnergy(st: Stopper): nat {
    match st
    case NotRequested => 0
    case TearingDown => 10
    case Cancelling(pending) => 8 + 3 * |pending|
    case Crediting(pending, _) => 10 + 3 * |pending|
    case Clearing => 7
    case Revoking => 6
    case Finished => 5
  }

  function Energy(s: State): nat {
    20 * |s.core.queue| + NativeEnergy(s.native, s.core.cond) + 6 * |s.cdp.buffer| + PoolEnergy(s.pool)
    + StopperEnergy(s.stopper) + |s.rejecting| + if s.crashed then 0 else 1
  }

  lemma SetStep(a: set<nat>, t: nat)
    ensures |a + {t}| <= |a| + 1
    ensures t in a ==> |a - {t}| == |a| - 1
  {
  }

  lemma TurnDescends(s: State, turn: Turn)
    requires s.core.Valid() && NativeEnabled(s, TakeTurn(turn)) && (s.native.Asleep? || s.core.cond.NoWaiter?)
    ensures Energy(AfterTurn(s, turn)) < Energy(s)
  {
    if turn.Take? {
      SetStep(s.core.queue, turn.job);
    }
  }

  lemma EnterDescends(s: State, t: nat)
    requires t < |s.core.jobs| == |s.chans| && s.native == Entering(t)
    ensures Energy(AfterEnter(s, t)) < Energy(s)
  {
  }

  lemma ForwardDescends(s: State, t: nat)
    requires s.native == Selecting(t, true) || s.native == Parked(t, true)
    ensures Energy(Forward(s, t)) < Energy(s)
  {
  }

  lemma NativeDescends(s: State, n: NativeStep)
    requires WellFormed(s) && NativeEnabled(s, n) && !s.crashed
    requires s.native.Asleep? || s.core.cond.NoWaiter?
    ensures Energy(AfterNative(s, n)) < Energy(s)
  {
    match n
    case TakeTurn(turn) => TurnDescends(s, turn);
    case Enter => EnterDescends(s, s.native.job);
    case Send => ForwardDescends(s, s.native.job);
    case _ =>
  }

  lemma ReceivedDescends(s: State)
    requires s.cdp.buffer != [] && s.pool.idle > 0
    ensures Energy(Received(s)) < Energy(s)
  {
    SetStep(s.pool.fetched, s.cdp.buffer[0]);
  }

  lemma ReceiveDescends(s: State)
    requires s.cdp.buffer != [] && s.pool.idle > 0
    ensures Energy(AfterReceive(s)) < Energy(s)
  {
    ReceivedDescends(s);
    if s.native.Parked? && s.native.ch {
      ForwardDescends(Received(s), s.native.job);
    }
  }

  lemma LookupDescends(s: State, t: nat)
    requires t < |s.core.jobs| == |s.chans| && t in s.pool.fetched
    ensures Energy(AfterLookup(s, t)) < Energy(s)
  {
    SetStep(s.pool.fetched, t);
    match Lookup(s, t)
    case None => SetStep(s.pool.settling, t);
    case Some(_) => SetStep(s.pool.running, t);
  }

  lemma FinishDescends(s: State, t: nat, st: Status)
    requires t < |s.chans| && t in s.pool.running
    ensures Energy(AfterCdpFinish(s, t, st)) < Energy(s)
  {
    SetStep(s.pool.running, t);
    SetStep(s.pool.settling, t);
  }

  lemma PoolDescends(s: State, p: PoolStep)
    requires WellFormed(s) && PoolEnabled(s, p) && !s.crashed
    ensures Energy(AfterPool(s, p)) < Energy(s)
  {
    match p
    case Receive => ReceiveDescends(s);
    case LookUp(t) => LookupDescends(s, t);
    case Finish(t, st) => FinishDescends(s, t, st);
    case CreditJob(t) => SetStep(s.pool.settling, t);
    case Begin =>
    case Leave =>
  }

  lemma StopDescends(s: State, x: StopStep)
    requires WellFormed(s) && StopEnabled(s, x) && !s.crashed
    ensures Energy(AfterStop(s, x)) < Energy(s)
  {
    if x.CancelPending? {
      CancelDescends(s, x.t);
    } else if x.CloseChannel? {
      CloseDescends(s);
    }
  }

  lemma CancelDescends(s: State, t: nat)
    requires WellFormed(s) && StopEnabled(s, CancelPending(t)) && !s.crashed
    ensures Energy(AfterCancel(s, t)) < Energy(s)
  {
    SetStep(s.stopper.pending, t);
  }

  lemma CloseDescends(s: State)
    requires StopEnabled(s, CloseChannel) && !s.crashed
    ensures Energy(AfterClose(s)) < Energy(s)
  {
  }

  /** Every internal step uses up energy, so no run of them goes on for ever. */
  lemma InternalDescends(s: State, step: Step)
    requires Reachable(s) && Can(s, step) && Internal(step)
    ensures Energy(Apply(s, step)) < Energy(s)
  {
    ReachableInv(s);
    match step
    case DeliverReject(k) => SetStep(s.rejecting, k);
    case OnNative(n) => NativeDescends(s, n);
    case OnPool(p) => PoolDescends(s, p);
    case OnStop(x) => StopDescends(s, x);
  }

  lemma {:induction false} InternalRunsEnd(s: State, steps: seq<Step>)
    requires Reachable(s) && ValidRun(s, steps) && forall k :: 0 <= k < |steps| ==> Internal(steps[k])
    ensures |steps| + Energy(Final(s, steps)) <= Energy(s)
    decreases |steps|
  {
    if steps != [] {
      InternalDescends(s, steps[0]);
      ReachableStep(s, steps[0]);
      InternalRunsEnd(Apply(s, steps[0]), steps[1..]);
    }
  }

  ghost predicate Quiet(s: State) {
    forall step | Internal(step) :: !Can(s, step)
  }

  // ----- who can move ---------------------------------------------------------------

  /** A native worker that is not waiting can move, unless the context it waits
      for is still to be cancelled or the pool it waits for is still to receive. */
  lemma NativeMoves(s: State) returns (n: NativeStep)
    requires Inv(s) && WellFormed(s) && !s.native.NotStarted? && !s.native.Exited?
    requires s.native.Asleep? ==> s.core.cond.Woken?
    requires s.native.Parked? ==> !s.native.ch && s.ctxDone
    ensures NativeEnabled(s, n)
  {
    match s.native
    case Checking => var turn := TurnExists(s.core); n := TakeTurn(turn);
    case Asleep => var turn := TurnExists(s.core); n := TakeTurn(turn);
    case Holding(_) => n := Route;
    case Entering(_) => n := Enter;
    case Running(_) => n := FinishRun(Done);
    case CdpBound(_) => n := ReadChannel;
    case Selecting(_, ch) =>
      n := if s.ctxDone then CancelForward
           else if !ch then Park
           else if s.cdp.closes > 0 then Panic
           else if |s.cdp.buffer| < CDP_BUFFER then Send else Park;
    case Parked(_, _) => n := CancelForward;
    case Doomed(_) => n := Panic;
    case Settling(_) => n := CreditRun;
  }

  /** A cdp worker that is neither gone nor out of work can move. */
  lemma PoolMoves(s: State) returns (p: PoolStep)
    requires s.pool.starting > 0 || s.pool.fetched != {} || s.pool.running != {} || s.pool.settling != {}
             || (s.pool.idle > 0 && (s.cdp.buffer != [] || s.cdp.closes > 0))
    ensures PoolEnabled(s, p)
  {
    if s.pool.starting > 0 {
      p := Begin;
    } else if s.pool.fetched != {} {
      var t: nat :| t in s.pool.fetched;
      p := LookUp(t);
    } else if s.pool.running != {} {
      var t: nat :| t in s.pool.running;
      p := Finish(t, Done);
    } else if s.pool.settling != {} {
      var t: nat :| t in s.pool.settling;
      p := CreditJob(t);
    } else if s.cdp.buffer != [] {
      p := Receive;
    } else {
      p := Leave;
    }
  }

  lemma StopperMoves(s: State) returns (x: StopStep)
    requires !s.stopper.NotRequested? && !s.stopper.Finished?
    ensures StopEnabled(s, x)
  {
    match s.stopper
    case TearingDown => x := BeginAbort;
    case Cancelling(pending) =>
      if pending == {} {
        x := CloseChannel;
      } else {
        var t: nat :| t in pending;
        x := CancelPending(t);
      }
    case Crediting(_, _) => x := CreditPending;
    case Clearing => x := ClearChannel;
    case Revoking => x := CancelContext;
  }

  // ----- no deadlock ------------------------------------------------------------------

  /** A started dispatcher that is neither paused nor asked to stop has a step to
      take as long as any job is in flight, however full the channel is. */
  lemma NoDeadlock(s: State) returns (step: Step)
    requires Reachable(s) && s.started && s.stopper.NotRequested? && s.core.reasons == {} && s.core.inflight > 0
    ensures Internal(step) && Can(s, step)
  {
    ReachableInv(s);
    if s.pool.starting > 0 || s.pool.fetched != {} || s.pool.running != {} || s.pool.settling != {}
       || (s.pool.idle > 0 && s.cdp.buffer != []) {
      var p := PoolMoves(s);
      return OnPool(p);
    }
    assert s.pool.idle > 0 && s.cdp.buffer == [];
    if s.native.Asleep? && s.core.cond.Waiting? {
      AsleepIsDrained(s);
    }
    var n := NativeMoves(s);
    return OnNative(n);
  }

  /** If only the native worker could have a job, and it sleeps unpaused, there is none. */
  lemma AsleepIsDrained(s: State)
    requires Reachable(s) && s.stopper.NotRequested? && s.core.reasons == {}
    requires s.pool.fetched == {} && s.pool.running == {} && s.pool.settling == {} && s.cdp.buffer == []
    requires s.native.Asleep? && s.core.cond.Waiting?
    ensures s.core.inflight == 0
  {
    NoLostWakeup(s);
    Conservation(s);
  }

  /** After stop, the fleet has a step to take until every goroutine is at its end. */
  ghost predicate AtRest(s: State) {
    && (s.stopper.Finished? || s.stopper.NotRequested?)
    && (s.native.Exited? || s.native.NotStarted?)
    && s.rejecting == {}
    && s.pool.Workers() == s.pool.exited + s.pool.stranded
  }

  lemma NativeMovesAfterStop(s: State) returns (n: NativeStep)
    requires Reachable(s) && WellFormed(s) && s.stopper.Finished? && !s.native.NotStarted? && !s.native.Exited?
    ensures NativeEnabled(s, n)
  {
    ReachableInv(s);
    n := NativeMoves(s);
  }

  lemma PoolMovesAfterStop(s: State) returns (p: PoolStep)
    requires Reachable(s) && s.stopper.Finished? && s.pool.Workers() != s.pool.exited + s.pool.stranded
    ensures PoolEnabled(s, p)
  {
    ReachableInv(s);
    p := PoolMoves(s);
  }

  lemma StopMakesProgress(s: State) returns (step: Step)
    requires Reachable(s) && s.fleetStopped && !s.crashed && !AtRest(s)
    ensures Internal(step) && Can(s, step)
  {
    assert !s.stopper.NotRequested? && WellFormed(s) by { ReachableInv(s); }
    if !s.stopper.Finished? {
      var x := StopperMoves(s);
      step := OnStop(x);
    } else if !s.native.Exited? && !s.native.NotStarted? {
      var n := NativeMovesAfterStop(s);
      step := OnNative(n);
    } else if s.rejecting != {} {
      var k: nat :| k in s.rejecting;
      step := DeliverReject(k);
    } else {
      var p := PoolMovesAfterStop(s);
      step := OnPool(p);
    }
  }

  /** With InternalRunsEnd: every stop ends in a crash or at rest, and only there. */
  lemma StopComesToRest(s: State)
    requires Reachable(s) && s.fleetStopped
    ensures Quiet(s) <==> s.crashed || AtRest(s)
  {
    if !s.crashed && AtRest(s) {
      RestIsQuiet(s);
    } else if !s.crashed {
      var step := StopMakesProgress(s);
      assert Internal(step) && Can(s, step);
    }
  }

  lemma RestIsQuiet(s: State)
    requires AtRest(s)
    ensures Quiet(s)
  {
    assert |s.pool.fetched| == 0 && |s.pool.running| == 0 && |s.pool.settling| == 0;
    forall step | Internal(step) ensures !Can(s, step) {
      match step
      case DeliverReject(_) =>
      case OnNative(n) => assert WellFormed(s) ==> !NativeEnabled(s, n);
      case OnPool(p) => assert !PoolEnabled(s, p);
      case OnStop(x) => assert !StopEnabled(s, x);
    }
  }

  /** What is left when a stopped fleet comes to rest without crashing: every
      refused submission is rejected, and every accepted job has its one result
      unless it is still in the channel. */
  lemma RestAfterStop(s: State)
    requires Reachable(s) && s.fleetStopped && AtRest(s)
    ensures forall k: nat :: k < |s.refused| ==> Settled(s.refused[k]) && s.refused[k].sent == [Rejected]
    ensures forall t: nat :: t < |s.chans| ==> (Settled(s.chans[t]) <==> t !in s.cdp.buffer)
    ensures s.core.inflight == |s.cdp.buffer|
    ensures s.cdp.buffer != [] ==> s.pool.stranded == s.pool.Workers() > 0
  {
    ReachableInv(s);
    Conservation(s);
    var p := PlacesOf(s);
    assert |s.pool.fetched| == |s.pool.running| == |s.pool.settling| == 0;
    assert p.Open() == multiset(s.cdp.buffer);
    assert p.Done() == multiset{};
  }

  /** So a stopped fleet at rest has delivered everything exactly when the channel is
      empty, and one cdp worker that left its range loop has seen to that. */
  lemma StopDeliversAllIff(s: State)
    requires Reachable(s) && s.fleetStopped && AtRest(s)
    ensures (forall t: nat :: t < |s.chans| ==> Settled(s.chans[t])) <==> s.cdp.buffer == []
    ensures s.pool.exited > 0 ==> s.cdp.buffer == []
  {
    ReachableInv(s);
    RestAfterStop(s);
    BalancedRange(PlacesOf(s), s.core.inflight, s.chans);
    if s.cdp.buffer != [] {
      assert s.cdp.buffer[0] in s.cdp.buffer;
      assert s.cdp.buffer[0] < |s.chans| && !Settled(s.chans[s.cdp.buffer[0]]);
    }
  }

  lemma InternalKeepsRunning(s: State, step: Step)
    requires Can(s, step) && Internal(step) && s.stopper.NotRequested?
    ensures Apply(s, step).stopper.NotRequested? && Apply(s, step).started == s.started
    ensures Apply(s, step).core.reasons == s.core.reasons
  {
    match step
    case DeliverReject(_) =>
    case OnNative(n) => NativeFrames(s, n);
    case OnPool(p) => PoolFrames(s, p);
  }

  lemma InFlightMoves(s: State)
    requires Reachable(s) && s.started && s.stopper.NotRequested? && s.core.reasons == {}
    ensures s.core.inflight == 0 || !Quiet(s)
  {
    Conservation(s);
    if s.core.inflight > 0 {
      var step := NoDeadlock(s);
      assert Internal(step) && Can(s, step);
    }
  }

  /** `Wait` returns: with no calls from outside, every run of a started,
      unpaused dispatcher is bounded, and where it can go no further nothing is
      in flight. */
  lemma {:induction false} WaitReturns(s: State, steps: seq<Step>)
    requires Reachable(s) && s.started && s.stopper.NotRequested? && s.core.reasons == {}
    requires ValidRun(s, steps) && forall k :: 0 <= k < |steps| ==> Internal(steps[k])
    ensures |steps| <= Energy(s)
    ensures Quiet(Final(s, steps)) ==> Final(s, steps).core.inflight == 0
    decreases |steps|
  {
    InternalRunsEnd(s, steps);
    if steps == [] {
      InFlightMoves(s);
    } else {
      InternalKeepsRunning(s, steps[0]);
      ReachableStep(s, steps[0]);
      WaitReturns(Apply(s, steps[0]), steps[1..]);
    }
  }
}
