/** The dispatcher as a protocol: submitters, pausers, registry callers, one
    native worker, a pool of cdp workers and one stopper, interleaved step by
    step (dispatcher.go and fleet.go). A step is a stretch of one goroutine that
    touches shared state once: one locked section, one channel operation, one
    registry lookup or one delivery. */
module Protocol {
  import opened Jobs
  import opened DispatcherCore

  const CDP_BUFFER: nat := 64

  /** A registered browser; `registration` tells re-registrations apart. */
  datatype Handle = Handle(native: bool, registration: nat)

  /** Where the native worker is. `ch` is the value it read from d.cdpJobs:
      false stands for nil. */
  datatype Native =
    | NotStarted
    | Checking                          // about to take the lock
    | Asleep                            // in cond.Wait
    | Holding(job: nat)                 // popped, not routed
    | Entering(job: nat)                // routed natively, about to look the handle up again
    | Running(job: nat)                 // driving the browser
    | CdpBound(job: nat)                // routed to the pool, d.cdpJobs not read yet
    | Selecting(job: nat, ch: bool)     // about to run the select
    | Parked(job: nat, ch: bool)        // blocked in the select
    | Doomed(job: nat)                  // woken by the close: about to panic
    | Settling(job: nat)                // delivered, inflight.Done pending
    | Exited

  /** The cdp workers. `cdpWorker` ignores its index, so they are counted by
      what they are doing, or named by the job they are doing it to. */
  datatype Pool = Pool(
    starting: nat,                      // not yet at their range loop
    idle: nat,
    fetched: set<nat>,                  // received, handle not looked up
    running: set<nat>,
    settling: set<nat>,                 // delivered, inflight.Done pending
    exited: nat,
    stranded: nat)                      // ranging over a nil channel
  {
    function Workers(): nat {
      starting + idle + |fetched| + |running| + |settling| + exited + stranded
    }
  }

  /** requestStop and abortAll. */
  datatype Stopper =
    | NotRequested
    | TearingDown                                  // f.stopped is set
    | Cancelling(pending: set<nat>)                // d.stopped is set, queue drained
    | Crediting(pending: set<nat>, job: nat)       // job delivered, inflight.Done pending
    | Clearing                                     // channel closed, d.cdpJobs not yet nil
    | Revoking                                     // abortAll returned, ctx not cancelled
    | Finished

  /** One pop: the job, and how many jobs had been accepted by then. */
  datatype Pop = Pop(job: nat, accepted: nat)

  /** d.cdpJobs: whether the field is still set, and the channel it was set to. */
  datatype CdpChannel = CdpChannel(field: bool, buffer: seq<nat>, closes: nat)

  datatype Registry = Registry(handles: map<string, Handle>, registrations: nat)

  /** History: the handle each job was routed by and executed with, the pops, the
      positions of the pops that entered the channel, and how many left it. */
  datatype Log = Log(
    routedBy: map<nat, Option<Handle>>,
    ranWith: map<nat, Handle>,
    pops: seq<Pop>,
    forwarded: seq<int>,
    received: nat)

  datatype State = State(
    core: Core,
    arriving: multiset<Job>,            // let through by Submit, not at enqueue's lock yet
    chans: seq<Chan>,                   // the channel of each accepted job
    refused: seq<Chan>,                 // the channels of refused submissions
    rejecting: set<nat>,                // refused, `go deliver` not run yet
    started: bool,
    cdp: CdpChannel,
    ctxDone: bool,
    fleetStopped: bool,
    native: Native,
    pool: Pool,
    stopper: Stopper,
    registry: Registry,
    crashed: bool,
    log: Log)

  const NEW_STATE := State(
    NEW_CORE, multiset{}, [], [], {}, false, CdpChannel(false, [], 0), false, false, NotStarted,
    Pool(0, 0, {}, {}, {}, 0, 0), NotRequested, Registry(map[], 0), false, Log(map[], map[], [], [], 0))

  /** Calls from outside the fleet. */
  datatype Call =
    | Submit(job: Job)
    | Arrive(job: Job)
    | Pause(reason: string)
    | Resume(reason: string)
    | Register(id: string, isNative: bool)
    | Unregister(id: string)
    | Start(cdpWorkers: nat)
    | RequestStop

  datatype NativeStep =
    | TakeTurn(turn: Turn)
    | Route
    | Enter
    | FinishRun(status: Status)
    | ReadChannel
    | Send
    | Panic
    | Park
    | CancelForward
    | CreditRun

  datatype PoolStep =
    | Begin
    | Receive
    | LookUp(t: nat)
    | Finish(t: nat, status: Status)
    | CreditJob(t: nat)
    | Leave

  datatype StopStep =
    | BeginAbort
    | CancelPending(t: nat)
    | CreditPending
    | CloseChannel
    | ClearChannel
    | CancelContext

  datatype Step =
    | Outside(call: Call)
    | DeliverReject(k: nat)
    | OnNative(n: NativeStep)
    | OnPool(p: PoolStep)
    | OnStop(x: StopStep)

  /** The results a driver call can end in. */
  predicate RunStatus(st: Status) {
    st != Rejected
  }

  function Lookup(s: State, t: nat): Option<Handle>
    requires t < |s.core.jobs|
  {
    var id := s.core.jobs[t].browser;
    if id in s.registry.handles then Some(s.registry.handles[id]) else None
  }

  predicate RoutesNatively(a: Action, h: Option<Handle>) {
    NeedsNativeCriticalSection(a) && h.Some? && h.value.native
  }

  /** The jobs named anywhere in the state were accepted. */
  ghost predicate WellFormed(s: State) {
    && s.core.Valid()
    && |s.chans| == |s.core.jobs|
    && (forall t <- s.cdp.buffer :: t < |s.chans|)
    && (forall t <- s.pool.fetched :: t < |s.chans|)
    && (forall t <- s.pool.running :: t < |s.chans|)
    && (forall t <- s.pool.settling :: t < |s.chans|)
    && (s.stopper.Cancelling? ==> forall t <- s.stopper.pending :: t < |s.chans|)
    && (s.stopper.Crediting? ==> s.stopper.job < |s.chans| && forall t <- s.stopper.pending :: t < |s.chans|)
    && (HasJob(s.native) ==> s.native.job < |s.chans|)
    && (forall k <- s.rejecting :: k < |s.refused|)
  }

  /** The native worker has a job whose result it has not credited. */
  predicate HasJob(n: Native) {
    n.Holding? || n.Entering? || n.Running? || n.CdpBound? || n.Selecting? || n.Parked? || n.Doomed? || n.Settling?
  }

  function HeldJobs(n: Native): set<nat> {
    if HasJob(n) then {n.job} else {}
  }

  ghost predicate CallEnabled(s: State, call: Call) {
    match call
    case Submit(j) => ValidAction(j.action) && !s.fleetStopped && j.browser in s.registry.handles
    case Arrive(j) => j in s.arriving
    case Register(id, _) => id != "" && id !in s.registry.handles
    case Unregister(id) => id in s.registry.handles
    case Start(n) => !s.started && s.stopper.NotRequested? && n > 0
    case RequestStop => s.stopper.NotRequested?
    case _ => true
  }

  ghost predicate NativeEnabled(s: State, n: NativeStep)
    requires s.core.Valid()
  {
    match n
    case TakeTurn(turn) =>
      (s.native.Checking? || (s.native.Asleep? && s.core.cond.Woken?)) && TurnOf(s.core, turn)
    case Route => s.native.Holding?
    case Enter => s.native.Entering?
    case FinishRun(st) => s.native.Running? && RunStatus(st)
    case ReadChannel => s.native.CdpBound?
    case Send => s.native.Selecting? && s.native.ch && s.cdp.closes == 0 && |s.cdp.buffer| < CDP_BUFFER
    case Panic => s.native.Doomed? || (s.native.Selecting? && s.native.ch && s.cdp.closes > 0)
    case Park =>
      s.native.Selecting? && !s.ctxDone && (s.native.ch ==> s.cdp.closes == 0 && |s.cdp.buffer| >= CDP_BUFFER)
    case CancelForward => (s.native.Selecting? || s.native.Parked?) && s.ctxDone
    case CreditRun => s.native.Settling?
  }

  ghost predicate PoolEnabled(s: State, p: PoolStep) {
    match p
    case Begin => s.pool.starting > 0
    case Receive => s.pool.idle > 0 && s.cdp.buffer != []
    case LookUp(t) => t in s.pool.fetched
    case Finish(t, st) => t in s.pool.running && RunStatus(st)
    case CreditJob(t) => t in s.pool.settling
    case Leave => s.pool.idle > 0 && s.cdp.buffer == [] && s.cdp.closes > 0
  }

  ghost predicate StopEnabled(s: State, x: StopStep) {
    match x
    case BeginAbort => s.stopper.TearingDown?
    case CancelPending(t) => s.stopper.Cancelling? && t in s.stopper.pending
    case CreditPending => s.stopper.Crediting?
    case CloseChannel => s.stopper.Cancelling? && s.stopper.pending == {}
    case ClearChannel => s.stopper.Clearing?
    case CancelContext => s.stopper.Revoking?
  }

  ghost predicate Enabled(s: State, step: Step)
    requires WellFormed(s)
  {
    && !s.crashed
    && match step
       case Outside(call) => CallEnabled(s, call)
       case DeliverReject(k) => k in s.rejecting
       case OnNative(n) => NativeEnabled(s, n)
       case OnPool(p) => PoolEnabled(s, p)
       case OnStop(x) => StopEnabled(s, x)
  }

  // ----- the steps ------------------------------------------------------------

  function DeliverTo(s: State, t: nat, st: Status): State
    requires t < |s.chans|
  {
    s.(chans := s.chans[t := Deliver(s.chans[t], st)])
  }

  function Credit(s: State): State {
    s.(core := CreditCore(s.core))
  }

  /** enqueue: the submission is accepted, or refused under d.stopped. */
  function AfterArrive(s: State, j: Job): State {
    var left := s.arriving - multiset{j};
    if s.core.stopped then
      s.(arriving := left, refused := s.refused + [FRESH_CHAN], rejecting := s.rejecting + {|s.refused|})
    else s.(arriving := left, core := EnqueueCore(s.core, j), chans := s.chans + [FRESH_CHAN])
  }

  function AfterRegister(s: State, id: string, isNative: bool): State {
    var reg := s.registry;
    s.(registry := Registry(reg.handles[id := Handle(isNative, reg.registrations)], reg.registrations + 1))
  }

  function AfterTurn(s: State, turn: Turn): State {
    var s' := s.(core := TurnCore(s.core, turn));
    match turn
    case Sleep => s'.(native := Asleep)
    case Exit => s'.(native := Exited)
    case Nothing => s'.(native := Checking)
    case Take(t) => s'.(native := Holding(t), log := s.log.(pops := s.log.pops + [Pop(t, |s.core.jobs|)]))
  }

  function AfterRoute(s: State, t: nat): State
    requires t < |s.core.jobs|
  {
    var h := Lookup(s, t);
    s.(log := s.log.(routedBy := s.log.routedBy[t := h]),
       native := if RoutesNatively(s.core.jobs[t].action, h) then Entering(t) else CdpBound(t))
  }

  function AfterEnter(s: State, t: nat): State
    requires t < |s.core.jobs| == |s.chans|
  {
    match Lookup(s, t)
    case None => AfterNativeFinish(s, t, Failed)
    case Some(h) => s.(native := Running(t), log := s.log.(ranWith := s.log.ranWith[t := h]))
  }

  /** The job in the native worker's hand enters the channel. */
  function Forward(s: State, t: nat): State {
    s.(cdp := s.cdp.(buffer := s.cdp.buffer + [t]),
       native := Checking,
       log := s.log.(forwarded := s.log.forwarded + [|s.log.pops| - 1]))
  }

  function AfterBegin(s: State): State
    requires s.pool.starting > 0
  {
    var pool := s.pool.(starting := s.pool.starting - 1);
    s.(pool := if s.cdp.field then pool.(idle := pool.idle + 1) else pool.(stranded := pool.stranded + 1))
  }

  function Received(s: State): State
    requires s.cdp.buffer != [] && s.pool.idle > 0
  {
    s.(cdp := s.cdp.(buffer := s.cdp.buffer[1..]),
       log := s.log.(received := s.log.received + 1),
       pool := s.pool.(idle := s.pool.idle - 1, fetched := s.pool.fetched + {s.cdp.buffer[0]}))
  }

  /** A sender blocked on the full channel hands its job over at once. */
  function AfterReceive(s: State): State
    requires s.cdp.buffer != [] && s.pool.idle > 0
  {
    if s.native.Parked? && s.native.ch then Forward(Received(s), s.native.job) else Received(s)
  }

  function AfterLookup(s: State, t: nat): State
    requires t < |s.core.jobs| == |s.chans|
  {
    var pool := s.pool.(fetched := s.pool.fetched - {t});
    match Lookup(s, t)
    case None => DeliverTo(s, t, Failed).(pool := pool.(settling := pool.settling + {t}))
    case Some(h) =>
      s.(pool := pool.(running := pool.running + {t}), log := s.log.(ranWith := s.log.ranWith[t := h]))
  }

  function AfterCdpFinish(s: State, t: nat, st: Status): State
    requires t < |s.chans|
  {
    DeliverTo(s, t, st).(pool := s.pool.(running := s.pool.running - {t}, settling := s.pool.settling + {t}))
  }

  function AfterClose(s: State): State {
    if !s.cdp.field then s.(stopper := Revoking)
    else if s.cdp.closes > 0 then s.(crashed := true)
    else s.(cdp := s.cdp.(closes := 1), stopper := Clearing,
            native := if s.native.Parked? && s.native.ch then Doomed(s.native.job) else s.native)
  }

  function AfterNativeFinish(s: State, t: nat, st: Status): State
    requires t < |s.chans|
  {
    DeliverTo(s, t, st).(native := Settling(t))
  }

  function AfterCdpCredit(s: State, t: nat): State {
    Credit(s).(pool := s.pool.(settling := s.pool.settling - {t}, idle := s.pool.idle + 1))
  }

  function AfterCancel(s: State, t: nat): State
    requires t < |s.chans| && s.stopper.Cancelling?
  {
    DeliverTo(s, t, Cancelled).(stopper := Crediting(s.stopper.pending - {t}, t))
  }

  function AfterReject(s: State, k: nat): State
    requires k < |s.refused|
  {
    s.(rejecting := s.rejecting - {k}, refused := s.refused[k := Deliver(s.refused[k], Rejected)])
  }

  function AfterCall(s: State, call: Call): State {
    match call
    case Submit(j) => s.(arriving := s.arriving + multiset{j})
    case Arrive(j) => AfterArrive(s, j)
    case Pause(r) => s.(core := PauseCore(s.core, r))
    case Resume(r) => s.(core := ResumeCore(s.core, r))
    case Register(id, n) => AfterRegister(s, id, n)
    case Unregister(id) => s.(registry := s.registry.(handles := s.registry.handles - {id}))
    case Start(n) =>
      s.(started := true, cdp := s.cdp.(field := true), native := Checking, pool := s.pool.(starting := n))
    case RequestStop => s.(fleetStopped := true, stopper := TearingDown)
  }

  ghost function AfterNative(s: State, n: NativeStep): State
    requires WellFormed(s) && NativeEnabled(s, n)
  {
    match n
    case TakeTurn(turn) => AfterTurn(s, turn)
    case Route => AfterRoute(s, s.native.job)
    case Enter => AfterEnter(s, s.native.job)
    case FinishRun(st) => AfterNativeFinish(s, s.native.job, st)
    case ReadChannel => s.(native := Selecting(s.native.job, s.cdp.field))
    case Send => Forward(s, s.native.job)
    case Panic => s.(crashed := true)
    case Park => s.(native := Parked(s.native.job, s.native.ch))
    case CancelForward => AfterNativeFinish(s, s.native.job, Cancelled)
    case CreditRun => Credit(s).(native := Checking)
  }

  ghost function AfterPool(s: State, p: PoolStep): State
    requires WellFormed(s) && PoolEnabled(s, p)
  {
    match p
    case Begin => AfterBegin(s)
    case Receive => AfterReceive(s)
    case LookUp(t) => AfterLookup(s, t)
    case Finish(t, st) => AfterCdpFinish(s, t, st)
    case CreditJob(t) => AfterCdpCredit(s, t)
    case Leave => s.(pool := s.pool.(idle := s.pool.idle - 1, exited := s.pool.exited + 1))
  }

  ghost function AfterStop(s: State, x: StopStep): State
    requires WellFormed(s) && StopEnabled(s, x)
  {
    match x
    case BeginAbort => s.(core := AbortCore(s.core), stopper := Cancelling(s.core.queue))
    case CancelPending(t) => AfterCancel(s, t)
    case CreditPending => Credit(s).(stopper := Cancelling(s.stopper.pending))
    case CloseChannel => AfterClose(s)
    case ClearChannel => s.(cdp := s.cdp.(field := false), stopper := Revoking)
    case CancelContext => s.(ctxDone := true, stopper := Finished)
  }

  ghost function Apply(s: State, step: Step): State
    requires WellFormed(s) && Enabled(s, step)
  {
    match step
    case Outside(call) => AfterCall(s, call)
    case DeliverReject(k) => AfterReject(s, k)
    case OnNative(n) => AfterNative(s, n)
    case OnPool(p) => AfterPool(s, p)
    case OnStop(x) => AfterStop(s, x)
  }
}
