/** When a stop can leave a job undelivered, although nothing crashes. */
module Stranding {
  import opened Jobs
  import opened DispatcherCore
  import opened Protocol
  import opened Delivery
  import opened Invariant
  import opened Guarantees
  import opened Progress
  import opened Steering

  /** Some cdp worker has come to its range loop. */
  predicate Live(p: Pool) {
    p.idle > 0 || p.fetched != {} || p.running != {} || p.settling != {} || p.exited > 0
  }

  /** The native worker has a job in hand that it can still send before the close. */
  predicate CanForward(s: State) {
    s.cdp.closes == 0 && (s.native.Holding? || s.native.CdpBound? || (s.native.Selecting? && s.native.ch))
  }

  /** The native worker is blocked in a send that only a receive or the panic ends. */
  predicate Jammed(n: Native) {
    n.Doomed? || (n.Parked? && n.ch)
  }

  /** No cdp worker has come to its loop, and a job is or may yet be put in the channel:
      one in hand, or before the dispatcher has stopped one still to be popped. */
  predicate Strandable(s: State) {
    && !Live(s.pool) && !Jammed(s.native)
    && (s.cdp.buffer != [] || CanForward(s) || (!s.core.stopped && Supplied(s)))
  }

  /** A stopped fleet at rest that has not delivered every accepted job. */
  ghost predicate Stranded(s: State) {
    s.fleetStopped && !s.crashed && AtRest(s) && exists t: nat :: t < |s.chans| && !Settled(s.chans[t])
  }

  ghost predicate CanStrand(s: State) {
    exists steps :: ValidRun(s, steps) && Stranded(Final(s, steps))
  }

  // ----- from a state that is not strandable nothing is ever stranded --------------------

  /** Crashed, or not strandable. */
  predicate Secured(s: State) {
    s.started && (s.crashed || !Strandable(s))
  }

  lemma CallStaysSecured(s: State, call: Call)
    requires Secured(s) && !s.crashed && CallEnabled(s, call) && StopperControl(s)
    ensures Secured(AfterCall(s, call))
  {
  }

  lemma NativeStaysSecured(s: State, n: NativeStep)
    requires Secured(s) && !s.crashed && WellFormed(s) && NativeEnabled(s, n) && Control(s)
    ensures Secured(AfterNative(s, n))
  {
    match n
    case TakeTurn(turn) => assert AfterNative(s, n) == AfterTurn(s, turn);
    case Enter => assert AfterNative(s, n) == AfterEnter(s, s.native.job);
    case Route => assert AfterNative(s, n) == AfterRoute(s, s.native.job);
    case _ =>
  }

  lemma PoolStaysSecured(s: State, p: PoolStep)
    requires Secured(s) && !s.crashed && WellFormed(s) && PoolEnabled(s, p)
    ensures Secured(AfterPool(s, p))
  {
  }

  lemma StopStaysSecured(s: State, x: StopStep)
    requires Secured(s) && !s.crashed && WellFormed(s) && StopEnabled(s, x) && StopperControl(s)
    ensures Secured(AfterStop(s, x))
  {
  }

  lemma StaysSecured(s: State, step: Step)
    requires Reachable(s) && Secured(s) && Can(s, step)
    ensures Secured(Apply(s, step))
  {
    ReachableInv(s);
    match step
    case Outside(call) => CallStaysSecured(s, call);
    case DeliverReject(_) =>
    case OnNative(n) => NativeStaysSecured(s, n);
    case OnPool(p) => PoolStaysSecured(s, p);
    case OnStop(x) => StopStaysSecured(s, x);
  }

  lemma SecuredNotStranded(s: State)
    requires Reachable(s) && Secured(s)
    ensures !Stranded(s)
  {
    if s.fleetStopped && AtRest(s) && !s.crashed {
      assert Control(s) by { ReachableInv(s); }
      StopDeliversAllIff(s);
    }
  }

  lemma {:induction false} SecuredNeverStrands(s: State, steps: seq<Step>)
    requires Reachable(s) && Secured(s) && ValidRun(s, steps)
    ensures !Stranded(Final(s, steps))
    decreases |steps|
  {
    if steps == [] {
      SecuredNotStranded(s);
    } else {
      StaysSecured(s, steps[0]);
      ReachableStep(s, steps[0]);
      SecuredNeverStrands(Apply(s, steps[0]), steps[1..]);
    }
  }

  // ----- a stopped fleet with a job in the channel and no live worker comes to rest ------

  ghost predicate Leaving(s: State) {
    && Reachable(s) && s.started && s.core.stopped && !s.crashed
    && !Live(s.pool) && !Jammed(s.native) && s.cdp.buffer != []
  }

  lemma StranderSteps(s: State, step: Step)
    requires Can(s, step) && CanStrand(Apply(s, step))
    ensures CanStrand(s)
  {
    var s' := Apply(s, step);
    var steps :| ValidRun(s', steps) && Stranded(Final(s', steps));
    assert ([step] + steps)[1..] == steps;
    assert ValidRun(s, [step] + steps);
  }

  lemma {:induction false} StranderRuns(s: State, steps: seq<Step>)
    requires ValidRun(s, steps) && CanStrand(Final(s, steps))
    ensures CanStrand(s)
    decreases |steps|
  {
    if steps != [] {
      StranderRuns(Apply(s, steps[0]), steps[1..]);
      StranderSteps(s, steps[0]);
    }
  }

  lemma StopperLeaves(s: State) returns (x: StopStep)
    requires Leaving(s) && WellFormed(s) && !s.stopper.Finished?
    ensures StopEnabled(s, x)
    ensures SameJobs(s, AfterStop(s, x)) && AfterStop(s, x).native == s.native
  {
    ReachableInv(s);
    x := StopperMoves(s);
  }

  /** Once the context is cancelled the native worker need not send. */
  lemma NativeLeaves(s: State) returns (n: NativeStep)
    requires Leaving(s) && WellFormed(s) && s.stopper.Finished? && !s.native.Exited?
    ensures NativeEnabled(s, n) && !n.Send? && !n.Panic? && !n.Park?
  {
    ReachableInv(s);
    if s.native.Selecting? {
      n := CancelForward;
    } else {
      n := NativeMoves(s);
    }
  }

  lemma NativeKeepsLeaving(s: State, n: NativeStep)
    requires WellFormed(s) && NativeEnabled(s, n) && !n.Send? && !n.Panic? && !n.Park?
    requires s.core.stopped && !s.crashed && !s.cdp.field
    ensures SameJobs(s, AfterNative(s, n)) && (!Jammed(s.native) ==> !Jammed(AfterNative(s, n).native))
  {
    match n
    case TakeTurn(turn) => assert AfterNative(s, n) == AfterTurn(s, turn);
    case Enter => assert AfterNative(s, n) == AfterEnter(s, s.native.job);
    case Route => assert AfterNative(s, n) == AfterRoute(s, s.native.job);
    case _ =>
  }

  /** Every goroutine goes on, and no job leaves the channel. */
  lemma LeavesOn(s: State) returns (step: Step)
    requires Leaving(s) && !AtRest(s)
    ensures Internal(step) && Can(s, step) && Leaving(Apply(s, step))
  {
    assert WellFormed(s) && Control(s) by { ReachableInv(s); }
    if !s.stopper.Finished? {
      var x := StopperLeaves(s);
      step := OnStop(x);
    } else if !s.native.Exited? {
      var n := NativeLeaves(s);
      NativeKeepsLeaving(s, n);
      step := OnNative(n);
    } else if s.rejecting != {} {
      var k: nat :| k in s.rejecting;
      step := DeliverReject(k);
    } else {
      step := OnPool(Begin);
    }
    ReachableStep(s, step);
  }

  lemma {:induction false} LeavingStrands(s: State)
    requires Leaving(s)
    ensures CanStrand(s)
    decreases Energy(s)
  {
    if AtRest(s) {
      assert s.fleetStopped by { ReachableInv(s); }
      StopDeliversAllIff(s);
      assert ValidRun(s, []) && Stranded(Final(s, []));
    } else {
      var step := LeavesOn(s);
      InternalDescends(s, step);
      LeavingStrands(Apply(s, step));
      StranderSteps(s, step);
    }
  }

  // ----- how a job gets there ------------------------------------------------------------

  /** A strandable state in which the channel is still empty. */
  ghost predicate Unsent(s: State) {
    && Reachable(s) && s.started && !s.crashed && !Live(s.pool) && !Jammed(s.native)
    && s.cdp.buffer == [] && s.cdp.closes == 0
  }

  lemma SelectingStrands(s: State)
    requires Unsent(s) && s.core.stopped && s.native.Selecting? && s.native.ch
    ensures CanStrand(s)
  {
    assert WellFormed(s) by { ReachableInv(s); }
    var s' := Apply(s, OnNative(Send));
    ReachableStep(s, OnNative(Send));
    assert Leaving(s');
    LeavingStrands(s');
    StranderSteps(s, OnNative(Send));
  }

  lemma BoundStrands(s: State)
    requires Unsent(s) && s.core.stopped && s.native.CdpBound?
    ensures CanStrand(s)
  {
    assert WellFormed(s) && StopperControl(s) by { ReachableInv(s); }
    var s' := Apply(s, OnNative(ReadChannel));
    ReachableStep(s, OnNative(ReadChannel));
    SelectingStrands(s');
    StranderSteps(s, OnNative(ReadChannel));
  }

  lemma HoldingStrands(s: State)
    requires Unsent(s) && s.core.stopped && s.native.Holding?
    ensures CanStrand(s)
  {
    assert WellFormed(s) by { ReachableInv(s); }
    var id := s.core.jobs[s.native.job].browser;
    if id in s.registry.handles {
      var gone := Outside(Unregister(id));
      ReachableStep(s, gone);
      GoneStrands(Apply(s, gone));
      StranderSteps(s, gone);
    } else {
      GoneStrands(s);
    }
  }

  /** A job whose browser is gone is bound for the pool. */
  lemma GoneStrands(s: State)
    requires Unsent(s) && s.core.stopped && s.native.Holding?
    requires s.native.job < |s.core.jobs| && s.core.jobs[s.native.job].browser !in s.registry.handles
    ensures CanStrand(s)
  {
    assert WellFormed(s) by { ReachableInv(s); }
    ReachableStep(s, OnNative(Route));
    BoundStrands(Apply(s, OnNative(Route)));
    StranderSteps(s, OnNative(Route));
  }

  lemma StoppedStrands(s: State)
    requires Reachable(s) && s.started && !s.crashed && s.core.stopped && Strandable(s)
    ensures CanStrand(s)
  {
    if s.cdp.buffer != [] {
      LeavingStrands(s);
    } else if s.native.Holding? {
      HoldingStrands(s);
    } else if s.native.CdpBound? {
      BoundStrands(s);
    } else {
      SelectingStrands(s);
    }
  }

  // ----- before the stop -----------------------------------------------------------------

  lemma AbortStrands(s: State)
    requires Reachable(s) && s.started && !s.crashed && s.stopper.TearingDown?
    requires !Live(s.pool) && !Jammed(s.native) && (s.cdp.buffer != [] || CanForward(s))
    ensures CanStrand(s)
  {
    assert WellFormed(s) by { ReachableInv(s); }
    ReachableStep(s, OnStop(BeginAbort));
    StoppedStrands(Apply(s, OnStop(BeginAbort)));
    StranderSteps(s, OnStop(BeginAbort));
  }

  lemma StopStrands(s: State)
    requires Reachable(s) && s.started && !s.crashed && !s.core.stopped
    requires !Live(s.pool) && !Jammed(s.native) && (s.cdp.buffer != [] || CanForward(s))
    ensures CanStrand(s)
  {
    assert WellFormed(s) && StopperControl(s) by { ReachableInv(s); }
    if s.stopper.NotRequested? {
      ReachableStep(s, Outside(RequestStop));
      AbortStrands(Apply(s, Outside(RequestStop)));
      StranderSteps(s, Outside(RequestStop));
    } else {
      AbortStrands(s);
    }
  }

  lemma UnstoppedStrands(s: State)
    requires Reachable(s) && s.started && !s.crashed && !s.core.stopped && Strandable(s)
    ensures CanStrand(s)
  {
    assert Control(s) by { ReachableInv(s); }
    if s.cdp.buffer != [] || CanForward(s) {
      StopStrands(s);
    } else {
      BusyHolds(s);
      var steps :| ValidRun(s, steps) && Held(s, Final(s, steps));
      ReachableRun(s, steps);
      StopStrands(Final(s, steps));
      StranderRuns(s, steps);
    }
  }

  // ----- the exact condition -------------------------------------------------------------

  /** Which fleets can be stopped with an accepted job never delivered: exactly those
      in which no cdp worker has come to its range loop, the native worker is not
      blocked in a send, and there is a job that can be left in the channel: one
      that is there, one in a hand that can still put it there, or, until the
      dispatcher has stopped, one that is queued, arriving or still to be submitted. */
  lemma StrandsIffStrandable(s: State)
    requires Reachable(s) && s.started && !s.crashed
    ensures CanStrand(s) <==> Strandable(s)
  {
    if !Strandable(s) {
      forall steps | ValidRun(s, steps) ensures !Stranded(Final(s, steps)) {
        SecuredNeverStrands(s, steps);
      }
    } else if s.core.stopped {
      StoppedStrands(s);
    } else {
      UnstoppedStrands(s);
    }
  }

  /** So a caller who stops only once some cdp worker has come to its loop loses
      nothing but to a crash: wherever the stopped fleet comes to rest, every accepted
      job has its one result. */
  lemma LiveStopDelivers(s: State, steps: seq<Step>, t: nat)
    requires Reachable(s) && s.started && Live(s.pool) && ValidRun(s, steps)
    requires Final(s, steps).fleetStopped && AtRest(Final(s, steps)) && !Final(s, steps).crashed
    requires t < |Final(s, steps).chans|
    ensures Settled(Final(s, steps).chans[t])
  {
    SecuredNeverStrands(s, steps);
  }
}
