/** The one way the protocol can crash: a send on the channel that stop closed. */
module Crash {
  import opened Jobs
  import opened DispatcherCore
  import opened Protocol
  import opened Delivery
  import opened Frames
  import opened Invariant
  import opened Guarantees
  import opened Progress
  import opened Steering

  /** The native worker has a job in hand that it may yet send into the channel
      it read, or may yet read. */
  predicate Exposed(s: State) {
    || s.native.Doomed?
    || ((s.native.Selecting? || s.native.Parked?) && s.native.ch)
    || ((s.native.Holding? || s.native.CdpBound?) && s.cdp.field)
  }

  ghost predicate CanCrash(s: State) {
    exists steps :: ValidRun(s, steps) && Final(s, steps).crashed
  }

  /** The native worker may yet pop a job: the dispatcher has not stopped, and there is
      one queued or arriving, or submissions are still let through. */
  predicate CanPop(s: State) {
    !s.core.stopped && Supplied(s)
  }

  /** Nothing to send in hand, and nothing to pop any more. */
  predicate Harmless(s: State) {
    !s.crashed && !Exposed(s) && !CanPop(s)
  }

  /** Once there is nothing left to pop the worker is never exposed again. */
  lemma StaysHarmless(s: State, step: Step)
    requires Control(s) && Can(s, step) && Harmless(s)
    ensures Harmless(Apply(s, step))
  {
    match step
    case Outside(call) => CallStaysHarmless(s, call);
    case DeliverReject(_) =>
    case OnNative(n) => NativeStaysHarmless(s, n);
    case OnPool(p) => PoolStaysHarmless(s, p);
    case OnStop(x) => StopStaysHarmless(s, x);
  }

  lemma CallStaysHarmless(s: State, call: Call)
    requires StopperControl(s) && CallEnabled(s, call) && Harmless(s)
    ensures Harmless(AfterCall(s, call))
  {
  }

  lemma NativeStaysHarmless(s: State, n: NativeStep)
    requires Control(s) && WellFormed(s) && NativeEnabled(s, n) && Harmless(s)
    ensures Harmless(AfterNative(s, n))
  {
    match n
    case TakeTurn(turn) => assert !turn.Take?; assert AfterNative(s, n) == AfterTurn(s, turn);
    case Enter => assert AfterNative(s, n) == AfterEnter(s, s.native.job);
    case Route => assert AfterNative(s, n) == AfterRoute(s, s.native.job);
    case _ =>
  }

  lemma PoolStaysHarmless(s: State, p: PoolStep)
    requires WellFormed(s) && PoolEnabled(s, p) && Harmless(s)
    ensures Harmless(AfterPool(s, p))
  {
  }

  lemma StopStaysHarmless(s: State, x: StopStep)
    requires StopperControl(s) && WellFormed(s) && StopEnabled(s, x) && Harmless(s)
    ensures Harmless(AfterStop(s, x))
  {
  }

  lemma {:induction false} HarmlessNeverCrashes(s: State, steps: seq<Step>)
    requires Reachable(s) && ValidRun(s, steps) && Harmless(s)
    ensures !Final(s, steps).crashed
    decreases |steps|
  {
    if steps != [] {
      ReachableInv(s);
      StaysHarmless(s, steps[0]);
      ReachableStep(s, steps[0]);
      HarmlessNeverCrashes(Apply(s, steps[0]), steps[1..]);
    }
  }

  // ----- how an exposed worker gets to crash ------------------------------------------

  lemma OneStep(s: State, step: Step)
    requires Can(s, step) && CanCrash(Apply(s, step))
    ensures CanCrash(s)
  {
    var s' := Apply(s, step);
    var steps :| ValidRun(s', steps) && Final(s', steps).crashed;
    assert ([step] + steps)[1..] == steps;
    assert ValidRun(s, [step] + steps);
  }

  lemma PanicNow(s: State)
    requires Can(s, OnNative(Panic))
    ensures CanCrash(s)
  {
    var s' := Apply(s, OnNative(Panic));
    assert ValidRun(s', []) && Final(s', []).crashed;
    OneStep(s, OnNative(Panic));
  }

  /** The stopper is about to close the channel, or has just closed it. */
  predicate AtClose(s: State) {
    s.cdp.field && (s.stopper.Clearing? || s.stopper == Cancelling({}))
  }

  lemma CloseThenPanic(s: State)
    requires Reachable(s) && !s.crashed && s.stopper == Cancelling({}) && s.cdp.field
    requires (s.native.Selecting? || s.native.Parked?) && s.native.ch
    ensures CanCrash(s)
  {
    assert WellFormed(s) && s.cdp.closes == 0 by { ReachableInv(s); }
    var s' := AfterClose(s);
    assert s' == Apply(s, OnStop(CloseChannel));
    ReachableStep(s, OnStop(CloseChannel));
    assert WellFormed(s') by { ReachableInv(s'); }
    PanicNow(s');
    OneStep(s, OnStop(CloseChannel));
  }

  lemma SelectThenCrash(s: State)
    requires Reachable(s) && !s.crashed && s.native.Selecting? && s.native.ch && AtClose(s)
    ensures CanCrash(s)
  {
    if s.stopper.Clearing? {
      assert WellFormed(s) && s.cdp.closes == 1 by { ReachableInv(s); }
      PanicNow(s);
    } else {
      CloseThenPanic(s);
    }
  }

  lemma ReadThenCrash(s: State)
    requires Reachable(s) && !s.crashed && s.native.CdpBound? && AtClose(s)
    ensures CanCrash(s)
  {
    assert WellFormed(s) by { ReachableInv(s); }
    var s' := s.(native := Selecting(s.native.job, true));
    assert s' == Apply(s, OnNative(ReadChannel));
    ReachableStep(s, OnNative(ReadChannel));
    SelectThenCrash(s');
    OneStep(s, OnNative(ReadChannel));
  }

  lemma RouteThenCrash(s: State)
    requires Reachable(s) && !s.crashed && s.native.Holding? && AtClose(s)
    ensures CanCrash(s)
  {
    assert WellFormed(s) by { ReachableInv(s); }
    var t := s.native.job;
    var id := s.core.jobs[t].browser;
    if id in s.registry.handles {
      var gone := Outside(Unregister(id));
      ReachableStep(s, gone);
      assert WellFormed(Apply(s, gone));
      RouteGoneThenCrash(Apply(s, gone));
      OneStep(s, gone);
    } else {
      RouteGoneThenCrash(s);
    }
  }

  /** A job whose browser was unregistered is bound for the pool. */
  lemma RouteGoneThenCrash(s: State)
    requires Reachable(s) && !s.crashed && WellFormed(s) && s.native.Holding? && AtClose(s)
    requires s.native.job < |s.core.jobs| && s.core.jobs[s.native.job].browser !in s.registry.handles
    ensures CanCrash(s)
  {
    ReachableStep(s, OnNative(Route));
    ReadThenCrash(Apply(s, OnNative(Route)));
    OneStep(s, OnNative(Route));
  }

  /** The stopper can always work off the drained jobs first. */
  lemma {:induction false} ExposedCanCrash(s: State)
    requires Reachable(s) && s.started && s.core.stopped && !s.crashed && Exposed(s)
    ensures CanCrash(s)
    decreases if s.stopper.Cancelling? then 2 * |s.stopper.pending|
              else if s.stopper.Crediting? then 2 * |s.stopper.pending| + 1 else 0
  {
    assert WellFormed(s) && StopperControl(s) && NativeControl(s) by { ReachableInv(s); }
    if s.stopper.Cancelling? && s.stopper.pending != {} {
      var t: nat :| t in s.stopper.pending;
      var step := OnStop(CancelPending(t));
      ReachableStep(s, step);
      SetStep(s.stopper.pending, t);
      ExposedCanCrash(Apply(s, step));
      OneStep(s, step);
    } else if s.stopper.Crediting? {
      var step := OnStop(CreditPending);
      ReachableStep(s, step);
      ExposedCanCrash(Apply(s, step));
      OneStep(s, step);
    } else if s.native.Holding? {
      RouteThenCrash(s);
    } else if s.native.CdpBound? {
      ReadThenCrash(s);
    } else if s.cdp.closes == 0 {
      CloseThenPanic(s);
    } else {
      PanicNow(s);
    }
  }

  lemma {:induction false} CrasherRuns(s: State, steps: seq<Step>)
    requires ValidRun(s, steps) && CanCrash(Final(s, steps))
    ensures CanCrash(s)
    decreases |steps|
  {
    if steps != [] {
      CrasherRuns(Apply(s, steps[0]), steps[1..]);
      OneStep(s, steps[0]);
    }
  }

  lemma AbortCanCrash(s: State)
    requires Open(s) && s.stopper.TearingDown? && Exposed(s)
    ensures CanCrash(s)
  {
    assert WellFormed(s) by { ReachableInv(s); }
    ReachableStep(s, OnStop(BeginAbort));
    ExposedCanCrash(Apply(s, OnStop(BeginAbort)));
    OneStep(s, OnStop(BeginAbort));
  }

  lemma StopCanCrash(s: State)
    requires Open(s) && Exposed(s)
    ensures CanCrash(s)
  {
    assert WellFormed(s) && StopperControl(s) by { ReachableInv(s); }
    if s.stopper.NotRequested? {
      ReachableStep(s, Outside(RequestStop));
      AbortCanCrash(Apply(s, Outside(RequestStop)));
      OneStep(s, Outside(RequestStop));
    } else {
      AbortCanCrash(s);
    }
  }

  /** Until the dispatcher has stopped, a job that can be popped leads to the crash. */
  lemma PoppingCanCrash(s: State)
    requires Open(s) && Supplied(s)
    ensures CanCrash(s)
  {
    assert Control(s) by { ReachableInv(s); }
    if Exposed(s) {
      StopCanCrash(s);
    } else {
      BusyHolds(s);
      var steps :| ValidRun(s, steps) && Held(s, Final(s, steps));
      ReachableRun(s, steps);
      StopCanCrash(Final(s, steps));
      CrasherRuns(s, steps);
    }
  }

  /** Which started fleets can crash: exactly those in which the native worker holds a
      job that it can still send, into a channel it has read or, while d.cdpJobs is
      set, can still read; or may yet pop one. */
  lemma CrashIffExposed(s: State)
    requires Reachable(s) && s.started && !s.crashed
    ensures CanCrash(s) <==> Exposed(s) || CanPop(s)
  {
    if Harmless(s) {
      forall steps | ValidRun(s, steps) ensures !Final(s, steps).crashed {
        HarmlessNeverCrashes(s, steps);
      }
    } else if s.core.stopped {
      ExposedCanCrash(s);
    } else if CanPop(s) {
      PoppingCanCrash(s);
    } else {
      StopCanCrash(s);
    }
  }

  /** Every crashing run closes the channel at a moment when the native worker
      has popped a job and not finished forwarding it. */
  lemma {:induction false} CrashPassesWindow(s: State, steps: seq<Step>) returns (k: nat)
    requires Reachable(s) && s.cdp.closes == 0 && ValidRun(s, steps) && Final(s, steps).crashed
    ensures k < |steps| && steps[k] == OnStop(CloseChannel)
    ensures ValidRun(s, steps[..k]) && Exposed(Final(s, steps[..k])) && Final(s, steps[..k]).cdp.field
    decreases |steps|
  {
    assert steps != [] by { ReachableInv(s); }
    var s' := Apply(s, steps[0]);
    if s'.cdp.closes == 0 {
      ReachableStep(s, steps[0]);
      k := CrashPassesWindow(s', steps[1..]);
      assert steps[..k + 1][1..] == steps[1..][..k];
      k := k + 1;
    } else {
      CrashingClose(s, steps);
      k := 0;
      assert steps[..0] == [];
    }
  }

  lemma CrashingClose(s: State, steps: seq<Step>)
    requires Reachable(s) && s.cdp.closes == 0 && steps != [] && ValidRun(s, steps) && Final(s, steps).crashed
    requires Apply(s, steps[0]).cdp.closes != 0
    ensures steps[0] == OnStop(CloseChannel) && s.cdp.field && Exposed(s)
  {
    OnlyStopCloses(s, steps[0]);
    if !Exposed(s) {
      assert Control(s) by { ReachableInv(s); }
      StaysHarmless(s, steps[0]);
      ReachableStep(s, steps[0]);
      HarmlessNeverCrashes(Apply(s, steps[0]), steps[1..]);
    }
  }

  lemma OnlyStopCloses(s: State, step: Step)
    requires Can(s, step) && Apply(s, step).cdp.closes != s.cdp.closes
    ensures step == OnStop(CloseChannel) && s.cdp.field && s.stopper == Cancelling({})
  {
    if step.OnNative? {
      NativeFrames(s, step.n);
    }
  }

  /** A worker that reads d.cdpJobs after it was cleared parks on a nil channel,
      and its job is cancelled as soon as the context is. */
  lemma NilReaderIsCancelled(s: State, n: NativeStep)
    requires Reachable(s) && (s.native.Selecting? || s.native.Parked?) && !s.native.ch
    requires WellFormed(s) && NativeEnabled(s, n)
    ensures n == Park || (n == CancelForward && s.ctxDone)
    ensures n == CancelForward ==>
      var chans := AfterNative(s, n).chans; s.native.job < |chans| && chans[s.native.job].sent == [Cancelled]
    ensures s.ctxDone ==> NativeEnabled(s, CancelForward) && n != Park
  {
    ReachableInv(s);
    assert s.native.job in PlacesOf(s).hand;
    assert s.native.job in PlacesOf(s).Open();
  }
}
