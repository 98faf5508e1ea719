/** What the workers' steps leave alone. */
module Frames {
  import opened Jobs
  import opened DispatcherCore
  import opened Protocol

  /** The parts of the state that no worker touches. */
  predicate WorkerFrame(s: State, s': State) {
    && s'.arriving == s.arriving && s'.refused == s.refused && s'.rejecting == s.rejecting
    && s'.started == s.started && s'.ctxDone == s.ctxDone && s'.fleetStopped == s.fleetStopped
    && s'.stopper == s.stopper && s'.registry == s.registry
    && s'.core.jobs == s.core.jobs && s'.core.stopped == s.core.stopped && s'.core.reasons == s.core.reasons
    && s'.cdp.field == s.cdp.field && s'.cdp.closes == s.cdp.closes && |s'.chans| == |s.chans|
  }

  /** The native worker changes neither the pool nor, if it does not pop, the queue. */
  predicate NativeFrame(s: State, s': State) {
    WorkerFrame(s, s') && s'.pool == s.pool && s'.core.queue <= s.core.queue
  }

  /** The pool changes neither the queue nor the condition variable. */
  predicate PoolFrame(s: State, s': State) {
    WorkerFrame(s, s') && s'.crashed == s.crashed && s'.core.queue == s.core.queue && s'.core.cond == s.core.cond
  }

  lemma EnterFrame(s: State, t: nat)
    requires t < |s.core.jobs| == |s.chans|
    ensures NativeFrame(s, AfterEnter(s, t))
  {
  }

  lemma NativeFinishFrame(s: State, t: nat, st: Status)
    requires t < |s.chans|
    ensures NativeFrame(s, AfterNativeFinish(s, t, st))
  {
  }

  lemma TurnFrame(s: State, turn: Turn)
    ensures NativeFrame(s, AfterTurn(s, turn))
  {
    match turn
    case Sleep =>
    case Exit =>
    case Nothing =>
    case Take(_) =>
  }

  lemma RouteFrame(s: State, t: nat)
    requires t < |s.core.jobs|
    ensures NativeFrame(s, AfterRoute(s, t))
  {
  }

  lemma ForwardFrame(s: State, t: nat)
    ensures NativeFrame(s, Forward(s, t))
  {
  }

  lemma NativeFrames(s: State, n: NativeStep)
    requires WellFormed(s) && NativeEnabled(s, n)
    ensures NativeFrame(s, AfterNative(s, n))
  {
    match n
    case TakeTurn(turn) => TurnFrame(s, turn);
    case Route => RouteFrame(s, s.native.job);
    case Enter => EnterFrame(s, s.native.job);
    case FinishRun(st) => NativeFinishFrame(s, s.native.job, st);
    case Send => ForwardFrame(s, s.native.job);
    case CancelForward => NativeFinishFrame(s, s.native.job, Cancelled);
    case ReadChannel => WaitFrame(s, n);
    case Panic => WaitFrame(s, n);
    case Park => WaitFrame(s, n);
    case CreditRun => WaitFrame(s, n);
  }

  lemma WaitFrame(s: State, n: NativeStep)
    requires WellFormed(s) && NativeEnabled(s, n) && (n.ReadChannel? || n.Panic? || n.Park? || n.CreditRun?)
    ensures NativeFrame(s, AfterNative(s, n))
  {
  }

  lemma ReceivedFrame(s: State)
    requires s.cdp.buffer != [] && s.pool.idle > 0
    ensures PoolFrame(s, Received(s)) && Received(s).native == s.native
  {
  }

  lemma ReceiveFrame(s: State)
    requires s.cdp.buffer != [] && s.pool.idle > 0
    ensures PoolFrame(s, AfterReceive(s))
  {
    ReceivedFrame(s);
    if s.native.Parked? && s.native.ch {
      ForwardFrame(Received(s), s.native.job);
    }
  }

  lemma LookupFrame(s: State, t: nat)
    requires t < |s.core.jobs| == |s.chans|
    ensures PoolFrame(s, AfterLookup(s, t)) && AfterLookup(s, t).native == s.native && AfterLookup(s, t).cdp == s.cdp
  {
    match Lookup(s, t)
    case None =>
    case Some(_) =>
  }

  lemma PoolFrames(s: State, p: PoolStep)
    requires WellFormed(s) && PoolEnabled(s, p)
    ensures PoolFrame(s, AfterPool(s, p))
    ensures !p.Receive? ==> AfterPool(s, p).native == s.native && AfterPool(s, p).cdp == s.cdp
  {
    match p
    case Receive => ReceiveFrame(s);
    case LookUp(t) => LookupFrame(s, t);
    case Begin => assert AfterPool(s, p) == AfterBegin(s);
    case Finish(t, st) => assert AfterPool(s, p) == AfterCdpFinish(s, t, st);
    case CreditJob(t) => assert AfterPool(s, p) == AfterCdpCredit(s, t);
    case Leave =>
  }
}
