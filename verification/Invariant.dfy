/** The inductive invariant of the protocol, kept by every step. */
module Invariant {
  import opened Jobs
  import opened DispatcherCore
  import opened PauseHistory
  import opened Protocol
  import opened Delivery
  import opened Frames

  ghost predicate StopperControl(s: State) {
    && (s.fleetStopped <==> !s.stopper.NotRequested?)
    && (s.core.stopped <==> !s.stopper.NotRequested? && !s.stopper.TearingDown?)
    && (s.core.stopped ==> s.core.queue == {})
    && (s.cdp.field <==> s.started && !s.stopper.Revoking? && !s.stopper.Finished?)
    && s.cdp.closes == (if s.started && (s.stopper.Clearing? || s.stopper.Revoking? || s.stopper.Finished?) then 1 else 0)
    && (s.stopper.Clearing? ==> s.started)
    && (s.ctxDone <==> s.stopper.Finished?)
    && (s.refused != [] ==> s.core.stopped)
  }

  ghost predicate NativeControl(s: State) {
    && (s.started <==> !s.native.NotStarted?)
    && (s.native.Asleep? <==> !s.core.cond.NoWaiter?)
    && SleepJustified(s.core)
    && |s.cdp.buffer| <= CDP_BUFFER
    && (s.native.Parked? && s.native.ch ==> s.cdp.closes == 0 && |s.cdp.buffer| == CDP_BUFFER)
    && (s.native.Doomed? ==> s.cdp.closes == 1)
    && ((s.native.Selecting? || s.native.Parked?) && !s.native.ch ==> !s.cdp.field)
    && (s.native.Exited? ==> s.core.stopped)
    && (s.crashed ==> s.cdp.closes == 1 && (s.native.Doomed? || (s.native.Selecting? && s.native.ch)))
  }

  ghost predicate PoolControl(s: State) {
    && (if s.started then s.pool.Workers() > 0 else s.pool.Workers() == 0 && s.cdp.buffer == [])
    && (s.pool.exited > 0 ==> s.cdp.closes == 1 && s.cdp.buffer == [])
    && (s.pool.stranded > 0 ==> s.started && !s.cdp.field)
  }

  ghost predicate Control(s: State) {
    StopperControl(s) && NativeControl(s) && PoolControl(s)
  }

  ghost predicate Books(s: State) {
    Accounted(s) && RefusalsAccounted(s)
  }

  ghost predicate Inv(s: State) {
    Books(s) && Control(s)
  }

  ghost predicate Can(s: State, step: Step) {
    WellFormed(s) && Enabled(s, step)
  }

  lemma NewInv()
    ensures Inv(NEW_STATE)
  {
  }

  // ----- each step keeps the books ------------------------------------------------

  lemma ArriveAccounted(s: State, j: Job)
    requires Accounted(s) && !s.core.stopped
    ensures Accounted(AfterArrive(s, j))
  {
    Accept(PlacesOf(s), s.core.inflight, s.chans);
    assert PlacesOf(AfterArrive(s, j)) == PlacesOf(s).(queue := PlacesOf(s).queue + {|s.chans|});
  }

  lemma TakeAccounted(s: State, t: nat)
    requires Accounted(s) && t in s.core.queue && HeldJobs(s.native) == {}
    ensures Accounted(AfterTurn(s, Take(t)))
  {
    QueueToHand(PlacesOf(s), t);
    assert PlacesOf(AfterTurn(s, Take(t))) == PlacesOf(s).(queue := PlacesOf(s).queue - {t}, hand := {t});
  }

  lemma NativeFinishAccounted(s: State, t: nat, st: Status)
    requires Accounted(s) && HeldJobs(s.native) == {t} && !s.native.Settling? && t < |s.chans| && st != Rejected
    ensures Accounted(AfterNativeFinish(s, t, st))
  {
    HandDelivers(PlacesOf(s), s.core.inflight, s.chans, t, st);
    assert PlacesOf(AfterNativeFinish(s, t, st)) == PlacesOf(s).(hand := {}, handDone := {t});
  }

  lemma ForwardAccounted(s: State, t: nat)
    requires Accounted(s) && HeldJobs(s.native) == {t} && !s.native.Settling?
    ensures Accounted(Forward(s, t))
  {
    HandToBuffer(PlacesOf(s), t);
    assert PlacesOf(Forward(s, t)) == PlacesOf(s).(hand := {}, buffer := PlacesOf(s).buffer + [t]);
  }

  lemma NativeCreditAccounted(s: State)
    requires Accounted(s) && s.native.Settling?
    ensures Accounted(Credit(s).(native := Checking))
  {
    Credited(PlacesOf(s), PlacesOf(s).(handDone := {}), s.core.inflight, s.chans, s.native.job);
    assert PlacesOf(Credit(s).(native := Checking)) == PlacesOf(s).(handDone := {});
  }

  lemma ReceivedAccounted(s: State)
    requires Accounted(s) && s.cdp.buffer != [] && s.pool.idle > 0
    ensures Accounted(Received(s)) && s.cdp.buffer[0] !in s.pool.fetched
  {
    var p := PlacesOf(s);
    BufferToFetched(p, s.core.inflight, s.chans);
    assert PlacesOf(Received(s)) == p.(buffer := p.buffer[1..], fetched := p.fetched + {p.buffer[0]});
  }

  lemma ReceiveAccounted(s: State)
    requires Accounted(s) && s.cdp.buffer != [] && s.pool.idle > 0
    ensures Accounted(AfterReceive(s))
  {
    ReceivedAccounted(s);
    if s.native.Parked? && s.native.ch {
      ForwardAccounted(Received(s), s.native.job);
    }
  }

  lemma LookupAccounted(s: State, t: nat)
    requires Accounted(s) && t in s.pool.fetched && t < |s.chans|
    ensures Accounted(AfterLookup(s, t)) && t !in s.pool.running && t !in s.pool.settling
  {
    var p := PlacesOf(s);
    FetchedDelivers(p, s.core.inflight, s.chans, t, Failed);
    FetchedToRunning(p, s.core.inflight, s.chans, t);
    assert PlacesOf(AfterLookup(s, t)) == if Lookup(s, t).None?
      then p.(fetched := p.fetched - {t}, settling := p.settling + {t})
      else p.(fetched := p.fetched - {t}, running := p.running + {t});
  }

  lemma CdpFinishAccounted(s: State, t: nat, st: Status)
    requires Accounted(s) && t in s.pool.running && t < |s.chans| && st != Rejected
    ensures Accounted(AfterCdpFinish(s, t, st)) && t !in s.pool.settling
  {
    var p := PlacesOf(s);
    RunningDelivers(p, s.core.inflight, s.chans, t, st);
    assert PlacesOf(AfterCdpFinish(s, t, st)) == p.(running := p.running - {t}, settling := p.settling + {t});
  }

  lemma CdpCreditAccounted(s: State, t: nat)
    requires Accounted(s) && t in s.pool.settling
    ensures Accounted(AfterCdpCredit(s, t))
  {
    var p := PlacesOf(s);
    Credited(p, p.(settling := p.settling - {t}), s.core.inflight, s.chans, t);
    assert PlacesOf(AfterCdpCredit(s, t)) == p.(settling := p.settling - {t});
  }

  lemma BeginAbortAccounted(s: State)
    requires Accounted(s) && s.stopper.TearingDown?
    ensures Accounted(s.(core := AbortCore(s.core), stopper := Cancelling(s.core.queue)))
  {
    var p := PlacesOf(s);
    var p' := p.(queue := {}, pending := p.queue);
    assert p'.Open() == p.Open();
    assert PlacesOf(s.(core := AbortCore(s.core), stopper := Cancelling(s.core.queue))) == p';
  }

  lemma CancelAccounted(s: State, t: nat)
    requires Accounted(s) && s.stopper.Cancelling? && t in s.stopper.pending && t < |s.chans|
    ensures Accounted(AfterCancel(s, t))
  {
    var p := PlacesOf(s);
    PendingDelivers(p, s.core.inflight, s.chans, t, Cancelled);
    assert PlacesOf(AfterCancel(s, t)) == p.(pending := p.pending - {t}, crediting := {t});
  }

  lemma CreditPendingAccounted(s: State)
    requires Accounted(s) && s.stopper.Crediting?
    ensures Accounted(Credit(s).(stopper := Cancelling(s.stopper.pending)))
  {
    var p := PlacesOf(s);
    Credited(p, p.(crediting := {}), s.core.inflight, s.chans, s.stopper.job);
    assert PlacesOf(Credit(s).(stopper := Cancelling(s.stopper.pending))) == p.(crediting := {});
  }

  /** The places that the steps below leave alone. */
  predicate SamePlaces(s: State, s': State) {
    PlacesOf(s') == PlacesOf(s) && s'.chans == s.chans && s'.core.inflight == s.core.inflight && s'.core.jobs == s.core.jobs
  }

  lemma SamePlacesAccounted(s: State, s': State)
    requires Accounted(s) && SamePlaces(s, s')
    ensures Accounted(s')
  {
  }

  lemma QuietCall(s: State, call: Call)
    requires CallEnabled(s, call) && (s.native.NotStarted? <==> !s.started) && (call.Arrive? ==> s.core.stopped)
    ensures SamePlaces(s, AfterCall(s, call))
  {
  }

  lemma CallAccounted(s: State, call: Call)
    requires Accounted(s) && CallEnabled(s, call) && (s.native.NotStarted? <==> !s.started)
    ensures Accounted(AfterCall(s, call))
  {
    if call.Arrive? && !s.core.stopped {
      ArriveAccounted(s, call.job);
    } else {
      QuietCall(s, call);
      SamePlacesAccounted(s, AfterCall(s, call));
    }
  }

  ghost predicate NativeMovesNoJob(s: State, n: NativeStep)
    requires WellFormed(s) && NativeEnabled(s, n)
  {
    || (n.TakeTurn? && !n.turn.Take?) || n.Route? || n.ReadChannel? || n.Panic? || n.Park?
    || (n.Enter? && Lookup(s, s.native.job).Some?)
  }

  lemma QuietTurn(s: State, turn: Turn)
    requires !turn.Take? && HeldJobs(s.native) == {}
    ensures SamePlaces(s, AfterTurn(s, turn))
  {
  }

  lemma QuietNative(s: State, n: NativeStep)
    requires WellFormed(s) && NativeEnabled(s, n) && NativeMovesNoJob(s, n)
    ensures SamePlaces(s, AfterNative(s, n))
  {
    if n.TakeTurn? {
      QuietTurn(s, n.turn);
    }
  }

  lemma NativeAccounted(s: State, n: NativeStep)
    requires Accounted(s) && WellFormed(s) && NativeEnabled(s, n)
    ensures Accounted(AfterNative(s, n))
  {
    if NativeMovesNoJob(s, n) {
      QuietNative(s, n);
      SamePlacesAccounted(s, AfterNative(s, n));
    } else if n.TakeTurn? {
      TakeAccounted(s, n.turn.job);
    } else if n.Enter? {
      NativeFinishAccounted(s, s.native.job, Failed);
    } else if n.FinishRun? {
      NativeFinishAccounted(s, s.native.job, n.status);
    } else if n.Send? {
      ForwardAccounted(s, s.native.job);
    } else if n.CancelForward? {
      NativeFinishAccounted(s, s.native.job, Cancelled);
    } else {
      NativeCreditAccounted(s);
    }
  }

  lemma PoolAccounted(s: State, p: PoolStep)
    requires Accounted(s) && WellFormed(s) && PoolEnabled(s, p)
    ensures Accounted(AfterPool(s, p))
  {
    match p
    case Begin => SamePlacesAccounted(s, AfterPool(s, p));
    case Receive => ReceiveAccounted(s);
    case LookUp(t) => LookupAccounted(s, t);
    case Finish(t, st) => CdpFinishAccounted(s, t, st);
    case CreditJob(t) => CdpCreditAccounted(s, t);
    case Leave => SamePlacesAccounted(s, AfterPool(s, p));
  }

  lemma QuietClose(s: State)
    requires s.stopper.Cancelling? && s.stopper.pending == {}
    ensures SamePlaces(s, AfterClose(s))
  {
    assert PlacesOf(AfterClose(s)).pending == PlacesOf(s).pending;
  }

  lemma QuietStop(s: State, x: StopStep)
    requires WellFormed(s) && StopEnabled(s, x) && (x.CloseChannel? || x.ClearChannel? || x.CancelContext?)
    ensures SamePlaces(s, AfterStop(s, x))
  {
    if x.CloseChannel? {
      QuietClose(s);
    }
  }

  lemma StopAccounted(s: State, x: StopStep)
    requires Accounted(s) && WellFormed(s) && StopEnabled(s, x)
    ensures Accounted(AfterStop(s, x))
  {
    if x.BeginAbort? {
      BeginAbortAccounted(s);
    } else if x.CancelPending? {
      CancelAccounted(s, x.t);
    } else if x.CreditPending? {
      CreditPendingAccounted(s);
    } else {
      QuietStop(s, x);
      SamePlacesAccounted(s, AfterStop(s, x));
    }
  }

  lemma StepAccounted(s: State, step: Step)
    requires Accounted(s) && Can(s, step) && (s.native.NotStarted? <==> !s.started)
    ensures Accounted(Apply(s, step))
  {
    match step
    case Outside(call) => CallAccounted(s, call);
    case DeliverReject(k) => SamePlacesAccounted(s, AfterReject(s, k));
    case OnNative(n) => NativeAccounted(s, n);
    case OnPool(p) => PoolAccounted(s, p);
    case OnStop(x) => StopAccounted(s, x);
  }

  lemma OthersKeepRefusals(s: State, step: Step)
    requires Can(s, step) && !step.Outside? && !step.DeliverReject?
    ensures Apply(s, step).refused == s.refused && Apply(s, step).rejecting == s.rejecting
  {
    if step.OnNative? {
      NativeFrames(s, step.n);
    } else if step.OnPool? {
      PoolFrames(s, step.p);
    }
  }

  lemma CallRefusals(s: State, call: Call)
    requires RefusalsAccounted(s)
    ensures RefusalsAccounted(AfterCall(s, call))
  {
    if call.Arrive? {
      ArriveRefusals(s, call.job);
    }
  }

  lemma ArriveRefusals(s: State, j: Job)
    requires RefusalsAccounted(s)
    ensures RefusalsAccounted(AfterArrive(s, j))
  {
  }

  lemma RejectRefusals(s: State, k: nat)
    requires RefusalsAccounted(s) && k in s.rejecting
    ensures RefusalsAccounted(AfterReject(s, k))
  {
  }

  lemma StepRefusals(s: State, step: Step)
    requires RefusalsAccounted(s) && Can(s, step)
    ensures RefusalsAccounted(Apply(s, step))
  {
    match step
    case Outside(call) => CallRefusals(s, call);
    case DeliverReject(k) => RejectRefusals(s, k);
    case OnNative(_) => OthersKeepRefusals(s, step);
    case OnPool(_) => OthersKeepRefusals(s, step);
    case OnStop(_) => OthersKeepRefusals(s, step);
  }

  // ----- the program counters -------------------------------------------------

  lemma CallControl(s: State, call: Call)
    requires Control(s) && CallEnabled(s, call) && !s.crashed
    ensures Control(AfterCall(s, call))
  {
    match call
    case Submit(_) =>
    case Arrive(j) => ArriveControl(s, j);
    case Pause(_) => PauseControl(s, call);
    case Resume(_) => PauseControl(s, call);
    case Register(_, _) =>
    case Unregister(_) =>
    case Start(_) =>
    case RequestStop =>
  }

  lemma ArriveControl(s: State, j: Job)
    requires Control(s)
    ensures Control(AfterArrive(s, j))
  {
  }

  lemma PauseControl(s: State, call: Call)
    requires Control(s) && (call.Pause? || call.Resume?)
    ensures Control(AfterCall(s, call))
  {
  }

  lemma NativeStepControl(s: State, n: NativeStep)
    requires Control(s) && WellFormed(s) && NativeEnabled(s, n) && !s.crashed
    ensures Control(AfterNative(s, n))
  {
    NativeFrames(s, n);
    NativeStepNative(s, n);
    NativeStepBuffer(s, n);
  }

  /** The native worker puts jobs in the channel only while it is open. */
  lemma NativeStepBuffer(s: State, n: NativeStep)
    requires WellFormed(s) && NativeEnabled(s, n)
    ensures n.Send? || AfterNative(s, n).cdp.buffer == s.cdp.buffer
    ensures n.Send? ==> s.cdp.closes == 0 && !s.native.NotStarted?
  {
    match n
    case TakeTurn(turn) => assert AfterNative(s, n) == AfterTurn(s, turn);
    case Route => assert AfterNative(s, n) == AfterRoute(s, s.native.job);
    case Enter => assert AfterNative(s, n) == AfterEnter(s, s.native.job);
    case _ =>
  }

  lemma NativeStepNative(s: State, n: NativeStep)
    requires Control(s) && WellFormed(s) && NativeEnabled(s, n) && !s.crashed
    ensures NativeControl(AfterNative(s, n))
  {
    match n
    case TakeTurn(turn) => assert AfterNative(s, n) == AfterTurn(s, turn);
    case Route => assert AfterNative(s, n) == AfterRoute(s, s.native.job);
    case Enter => assert AfterNative(s, n) == AfterEnter(s, s.native.job);
    case _ =>
  }

  lemma ReceiveKeepsWorkers(s: State)
    requires s.cdp.buffer != [] && s.pool.idle > 0 && s.cdp.buffer[0] !in s.pool.fetched
    ensures AfterReceive(s).pool.Workers() == s.pool.Workers()
  {
  }

  lemma LookupKeepsWorkers(s: State, t: nat)
    requires t < |s.core.jobs| == |s.chans| && t in s.pool.fetched && t !in s.pool.running && t !in s.pool.settling
    ensures AfterLookup(s, t).pool.Workers() == s.pool.Workers()
  {
  }

  lemma FinishKeepsWorkers(s: State, t: nat, st: Status)
    requires t < |s.chans| && t in s.pool.running && t !in s.pool.settling
    ensures AfterCdpFinish(s, t, st).pool.Workers() == s.pool.Workers()
  {
  }

  lemma CountsKeepWorkers(s: State, p: PoolStep)
    requires WellFormed(s) && PoolEnabled(s, p) && (p.Begin? || p.CreditJob? || p.Leave?)
    ensures AfterPool(s, p).pool.Workers() == s.pool.Workers()
  {
  }

  /** No cdp worker is ever lost or doubled. */
  lemma PoolKeepsWorkers(s: State, p: PoolStep)
    requires Accounted(s) && WellFormed(s) && PoolEnabled(s, p)
    ensures AfterPool(s, p).pool.Workers() == s.pool.Workers()
  {
    match p
    case Receive => ReceivedAccounted(s); ReceiveKeepsWorkers(s);
    case LookUp(t) => LookupAccounted(s, t); LookupKeepsWorkers(s, t);
    case Finish(t, st) => CdpFinishAccounted(s, t, st); FinishKeepsWorkers(s, t, st);
    case Begin => CountsKeepWorkers(s, p);
    case CreditJob(t) => CountsKeepWorkers(s, p);
    case Leave => CountsKeepWorkers(s, p);
  }

  lemma PoolStepControl(s: State, p: PoolStep)
    requires Control(s) && WellFormed(s) && PoolEnabled(s, p) && !s.crashed
    requires AfterPool(s, p).pool.Workers() == s.pool.Workers()
    ensures Control(AfterPool(s, p))
  {
    PoolFrames(s, p);
    if p.Receive? {
      ReceiveControl(s);
    } else {
      PoolStepPool(s, p);
    }
  }

  lemma ReceiveControl(s: State)
    requires Control(s) && s.cdp.buffer != [] && s.pool.idle > 0 && !s.crashed
    requires AfterReceive(s).pool.Workers() == s.pool.Workers()
    ensures NativeControl(AfterReceive(s)) && PoolControl(AfterReceive(s))
  {
  }

  lemma PoolStepPool(s: State, p: PoolStep)
    requires Control(s) && WellFormed(s) && PoolEnabled(s, p) && !p.Receive?
    requires AfterPool(s, p).pool.Workers() == s.pool.Workers()
    ensures PoolControl(AfterPool(s, p))
  {
    PoolFrames(s, p);
  }

  lemma StopStepControl(s: State, x: StopStep)
    requires Control(s) && WellFormed(s) && StopEnabled(s, x) && !s.crashed
    ensures Control(AfterStop(s, x))
  {
  }

  lemma StepControl(s: State, step: Step)
    requires Accounted(s) && Control(s) && Can(s, step)
    ensures Control(Apply(s, step))
  {
    match step
    case Outside(call) => CallControl(s, call);
    case DeliverReject(_) =>
    case OnNative(n) => NativeStepControl(s, n);
    case OnPool(p) => PoolKeepsWorkers(s, p); PoolStepControl(s, p);
    case OnStop(x) => StopStepControl(s, x);
  }

  lemma StepInv(s: State, step: Step)
    requires Inv(s) && Can(s, step)
    ensures Inv(Apply(s, step)) && WellFormed(Apply(s, step))
  {
    StepAccounted(s, step);
    StepRefusals(s, step);
    StepControl(s, step);
    AccountedWellFormed(Apply(s, step));
  }
}
