/** Which goroutine may drive which browser. */
module Routing {
  import opened Jobs
  import opened DispatcherCore
  import opened Protocol
  import opened Delivery
  import opened Frames
  import opened Invariant
  import opened Guarantees
  import opened Progress

  ghost predicate RoutedTo(s: State, t: nat, native: bool)
    requires |s.chans| == |s.core.jobs|
  {
    t < |s.chans| && t in s.log.routedBy && (RoutesNatively(s.core.jobs[t].action, s.log.routedBy[t]) <==> native)
  }

  /** Jobs on the way to the pool were not routed natively; the job that the
      native worker executes was. */
  ghost predicate Routed(s: State)
    requires |s.chans| == |s.core.jobs|
  {
    && (forall t <- s.cdp.buffer :: RoutedTo(s, t, false))
    && (forall t <- s.pool.fetched :: RoutedTo(s, t, false))
    && (forall t <- s.pool.running :: RoutedTo(s, t, false) && t in s.log.ranWith)
    && (s.native.CdpBound? || s.native.Selecting? || s.native.Parked? || s.native.Doomed? ==>
          RoutedTo(s, s.native.job, false))
    && (s.native.Entering? || s.native.Running? ==> RoutedTo(s, s.native.job, true))
    && (s.native.Running? ==> s.native.job in s.log.ranWith)
  }

  /** No two goroutines hold the native worker's job. */
  ghost predicate HandIsOwn(s: State) {
    s.native.Holding? ==>
      s.native.job !in s.cdp.buffer && s.native.job !in s.pool.fetched && s.native.job !in s.pool.running
  }

  lemma BooksHandIsOwn(s: State)
    requires Accounted(s)
    ensures HandIsOwn(s)
  {
    if s.native.Holding? {
      var p := PlacesOf(s);
      assert p.hand == {s.native.job};
      assert p.Open()[s.native.job] <= 1;
    }
  }

  lemma ArriveRouted(s: State, j: Job)
    requires |s.chans| == |s.core.jobs| && Routed(s)
    ensures |AfterArrive(s, j).chans| == |AfterArrive(s, j).core.jobs| && Routed(AfterArrive(s, j))
  {
    var s' := AfterArrive(s, j);
    assert forall t, n | RoutedTo(s, t, n) :: RoutedTo(s', t, n);
  }

  /** The parts of the state that routing looks at. */
  predicate SameRouting(s: State, s': State) {
    && |s'.chans| == |s.chans| && s'.core.jobs == s.core.jobs && s'.log.routedBy == s.log.routedBy
    && s'.log.ranWith == s.log.ranWith && s'.cdp.buffer == s.cdp.buffer
    && s'.pool.fetched == s.pool.fetched && s'.pool.running == s.pool.running
  }

  predicate SameSide(n: Native, n': Native) {
    || n' == n
    || !(n'.CdpBound? || n'.Selecting? || n'.Parked? || n'.Doomed? || n'.Entering? || n'.Running?)
    || ((n.CdpBound? || n.Selecting? || n.Parked?) && (n'.Selecting? || n'.Parked? || n'.Doomed?) && n'.job == n.job)
  }

  lemma SameRoutingKeeps(s: State, s': State)
    requires |s.chans| == |s.core.jobs| && Routed(s) && SameRouting(s, s') && SameSide(s.native, s'.native)
    ensures Routed(s')
  {
    assert forall t, n | RoutedTo(s, t, n) :: RoutedTo(s', t, n);
  }

  lemma RouteRouted(s: State, t: nat)
    requires |s.chans| == |s.core.jobs| && Routed(s) && HandIsOwn(s) && s.native == Holding(t) && t < |s.chans|
    ensures Routed(AfterRoute(s, t))
  {
    var s' := AfterRoute(s, t);
    assert forall u, n | u != t && RoutedTo(s, u, n) :: RoutedTo(s', u, n);
  }

  lemma EnterRouted(s: State, t: nat)
    requires |s.chans| == |s.core.jobs| && Routed(s) && s.native == Entering(t) && t < |s.chans|
    ensures Routed(AfterEnter(s, t))
  {
    var s' := AfterEnter(s, t);
    match Lookup(s, t)
    case None => assert s' == AfterNativeFinish(s, t, Failed); SameRoutingKeeps(s, s');
    case Some(_) => assert forall u, n | RoutedTo(s, u, n) :: RoutedTo(s', u, n);
  }

  lemma ForwardRouted(s: State, t: nat)
    requires |s.chans| == |s.core.jobs| && Routed(s) && RoutedTo(s, t, false)
    ensures Routed(Forward(s, t))
  {
    var s' := Forward(s, t);
    assert forall u, n | RoutedTo(s, u, n) :: RoutedTo(s', u, n);
    forall u | u in s'.cdp.buffer ensures RoutedTo(s', u, false) {
      assert u in s.cdp.buffer || u == t;
    }
  }

  lemma ReceivedRouted(s: State)
    requires |s.chans| == |s.core.jobs| && Routed(s) && s.cdp.buffer != [] && s.pool.idle > 0
    ensures Routed(Received(s))
  {
    var s' := Received(s);
    assert forall u, n | RoutedTo(s, u, n) :: RoutedTo(s', u, n);
    assert forall u | u in s'.cdp.buffer :: u in s.cdp.buffer;
    assert s.cdp.buffer[0] in s.cdp.buffer;
  }

  lemma RoutedStays(s: State, s': State)
    requires |s.chans| == |s.core.jobs| && |s'.chans| == |s.chans| && s'.core == s.core
    requires s'.log.routedBy == s.log.routedBy
    ensures forall u, n | RoutedTo(s, u, n) :: RoutedTo(s', u, n)
  {
  }

  lemma LookupRouted(s: State, t: nat)
    requires |s.chans| == |s.core.jobs| && Routed(s) && t in s.pool.fetched && t < |s.chans|
    ensures Routed(AfterLookup(s, t))
  {
    if Lookup(s, t).None? {
      LookupFailRouted(s, t);
    } else {
      LookupRunRouted(s, t);
    }
  }

  lemma LookupFailRouted(s: State, t: nat)
    requires |s.chans| == |s.core.jobs| && Routed(s) && t < |s.chans| && Lookup(s, t).None?
    ensures Routed(AfterLookup(s, t))
  {
    RoutedStays(s, AfterLookup(s, t));
  }

  lemma LookupRunRouted(s: State, t: nat)
    requires |s.chans| == |s.core.jobs| && Routed(s) && t in s.pool.fetched && t < |s.chans| && Lookup(s, t).Some?
    ensures Routed(AfterLookup(s, t))
  {
    RoutedStays(s, AfterLookup(s, t));
    assert AfterLookup(s, t).pool.running == s.pool.running + {t};
  }

  lemma FinishRouted(s: State, t: nat, st: Status)
    requires |s.chans| == |s.core.jobs| && Routed(s) && t < |s.chans|
    ensures Routed(AfterCdpFinish(s, t, st))
  {
    var s' := AfterCdpFinish(s, t, st);
    assert forall u, n | RoutedTo(s, u, n) :: RoutedTo(s', u, n);
  }

  lemma QuietNativeRouting(s: State, n: NativeStep)
    requires WellFormed(s) && NativeEnabled(s, n) && !n.Route? && !n.Enter? && !n.Send?
    ensures SameRouting(s, AfterNative(s, n)) && SameSide(s.native, AfterNative(s, n).native)
  {
    match n
    case TakeTurn(turn) => TurnRouting(s, turn);
    case FinishRun(st) => NativeFinishRouting(s, s.native.job, st);
    case CancelForward => NativeFinishRouting(s, s.native.job, Cancelled);
    case ReadChannel =>
    case Panic =>
    case Park =>
    case CreditRun =>
  }

  lemma TurnRouting(s: State, turn: Turn)
    ensures SameRouting(s, AfterTurn(s, turn)) && SameSide(s.native, AfterTurn(s, turn).native)
  {
  }

  lemma NativeFinishRouting(s: State, t: nat, st: Status)
    requires t < |s.chans|
    ensures SameRouting(s, AfterNativeFinish(s, t, st)) && SameSide(s.native, AfterNativeFinish(s, t, st).native)
  {
  }

  lemma NativeRouted(s: State, n: NativeStep)
    requires WellFormed(s) && Routed(s) && HandIsOwn(s) && NativeEnabled(s, n)
    ensures |AfterNative(s, n).chans| == |AfterNative(s, n).core.jobs| && Routed(AfterNative(s, n))
  {
    NativeFrames(s, n);
    if n.Route? {
      RouteRouted(s, s.native.job);
    } else if n.Enter? {
      EnterRouted(s, s.native.job);
    } else if n.Send? {
      ForwardRouted(s, s.native.job);
    } else {
      QuietNativeRouting(s, n);
      SameRoutingKeeps(s, AfterNative(s, n));
    }
  }

  lemma PoolRouted(s: State, p: PoolStep)
    requires WellFormed(s) && Routed(s) && PoolEnabled(s, p)
    ensures Routed(AfterPool(s, p))
  {
    match p
    case Receive =>
      ReceivedRouted(s);
      if s.native.Parked? && s.native.ch {
        assert RoutedTo(Received(s), s.native.job, false);
        ForwardRouted(Received(s), s.native.job);
      }
    case LookUp(t) => LookupRouted(s, t);
    case Finish(t, st) => FinishRouted(s, t, st);
    case Begin => SameRoutingKeeps(s, AfterPool(s, p));
    case CreditJob(_) => SameRoutingKeeps(s, AfterPool(s, p));
    case Leave => SameRoutingKeeps(s, AfterPool(s, p));
  }

  lemma QuietCallRouting(s: State, call: Call)
    requires !call.Arrive?
    ensures SameRouting(s, AfterCall(s, call)) && SameSide(s.native, AfterCall(s, call).native)
  {
  }

  lemma QuietStopRouting(s: State, x: StopStep)
    requires WellFormed(s) && StopEnabled(s, x)
    ensures SameRouting(s, AfterStop(s, x)) && SameSide(s.native, AfterStop(s, x).native)
  {
    if x.CloseChannel? {
      assert AfterStop(s, x) == AfterClose(s);
    } else if x.CancelPending? {
      assert AfterStop(s, x) == AfterCancel(s, x.t);
    }
  }

  lemma StepRouted(s: State, step: Step)
    requires Can(s, step) && Routed(s) && HandIsOwn(s)
    ensures |Apply(s, step).chans| == |Apply(s, step).core.jobs| && Routed(Apply(s, step))
  {
    match step
    case Outside(call) =>
      if call.Arrive? {
        ArriveRouted(s, call.job);
      } else {
        QuietCallRouting(s, call);
        SameRoutingKeeps(s, Apply(s, step));
      }
    case DeliverReject(_) => SameRoutingKeeps(s, Apply(s, step));
    case OnNative(n) => NativeRouted(s, n);
    case OnPool(p) => PoolRouted(s, p);
    case OnStop(x) => QuietStopRouting(s, x); SameRoutingKeeps(s, Apply(s, step));
  }

  lemma {:induction false} RunRouted(s: State, steps: seq<Step>)
    requires Inv(s) && Routed(s) && ValidRun(s, steps)
    ensures WellFormed(Final(s, steps)) && Routed(Final(s, steps))
    decreases |steps|
  {
    AccountedWellFormed(s);
    if steps != [] {
      BooksHandIsOwn(s);
      StepRouted(s, steps[0]);
      StepInv(s, steps[0]);
      RunRouted(Apply(s, steps[0]), steps[1..]);
    }
  }

  lemma ReachableRouted(s: State)
    requires Reachable(s)
    ensures WellFormed(s) && Routed(s)
  {
    var steps :| ValidRun(NEW_STATE, steps) && Final(NEW_STATE, steps) == s;
    NewInv();
    RunRouted(NEW_STATE, steps);
  }

  // ----- the guarantee, and where it ends ------------------------------------------------

  /** Some goroutine is driving the browser of job t. */
  predicate Executing(s: State, t: nat) {
    t in s.pool.running || s.native == Running(t)
  }

  /** The handle t is executed with is native, and t drives the OS input. */
  ghost predicate NativeInput(s: State, t: nat)
    requires t < |s.core.jobs| && t in s.log.ranWith
  {
    NeedsNativeCriticalSection(s.core.jobs[t].action) && s.log.ranWith[t].native
  }

  /** The job was routed by a native handle. */
  predicate RoutedByNative(s: State, t: nat) {
    t in s.log.routedBy && s.log.routedBy[t].Some? && s.log.routedBy[t].value.native
  }

  /** The id was not registered anew between routing and execution. */
  ghost predicate SameHandle(s: State, t: nat) {
    t in s.log.routedBy && t in s.log.ranWith && s.log.routedBy[t] == Some(s.log.ranWith[t])
  }

  /** Which goroutine executes a job: the pool, exactly when the native worker found the
      guard of its routing branch false, whatever was registered since. So native
      input runs on the native worker exactly when the handle that the job was
      routed by was native, as it is when the registration has not changed. Scroll
      and Wait never run on the native worker. */
  lemma NativeInputPlacement(s: State, t: nat)
    requires Reachable(s) && Executing(s, t)
    ensures t < |s.core.jobs| && t in s.log.ranWith && t in s.log.routedBy
    ensures t in s.pool.running <==> !RoutesNatively(s.core.jobs[t].action, s.log.routedBy[t])
    ensures t in s.pool.running <==> s.native != Running(t)
    ensures NativeInput(s, t) ==> (s.native == Running(t) <==> RoutedByNative(s, t))
    ensures NativeInput(s, t) && SameHandle(s, t) ==> RoutedByNative(s, t)
    ensures !NeedsNativeCriticalSection(s.core.jobs[t].action) ==> t in s.pool.running
  {
    ReachableRouted(s);
    ReachableInv(s);
  }

  /** So no two of them overlap, unless one was routed before its browser was native. */
  lemma NativeInputSerialised(s: State, t: nat, u: nat)
    requires Reachable(s) && Executing(s, t) && Executing(s, u) && RoutedByNative(s, t) && RoutedByNative(s, u)
    requires t < |s.core.jobs| && t in s.log.ranWith && NativeInput(s, t)
    requires u < |s.core.jobs| && u in s.log.ranWith && NativeInput(s, u)
    ensures t == u
  {
    NativeInputPlacement(s, t);
    NativeInputPlacement(s, u);
  }
}
