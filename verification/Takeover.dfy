/** How the fleet keeps the takeover watchdog in step with its registry, and what
    that means for the dispatcher's pause reasons (fleet.go). Registrations,
    unregistrations, the stop and their reconcile calls interleave with each
    other, with the watchdog's loop and with every other source of pauses. */
module Takeover {
  import opened Jobs
  import opened DispatcherCore
  import opened Watchdog

  const USER_TAKEOVER := "user-takeover"
  const TAKEOVER_IDLE: nat := 10_000

  /** Who holds takeoverMu and how far its reconcile has come. */
  datatype Mutex =
    | Free
    | Locked(byStopper: bool)
    | Decided(byStopper: bool, want: bool)
    | Unhooked(byStopper: bool)          // tearing down: the hook is gone
    | Joining(byStopper: bool)           // watchdog.stop() waits for the loop

  datatype Stopping = Running | Flagged | Reconciling | Reconciled | Stopped

  datatype Fleet = Fleet(
    handles: map<string, bool>,          // registered ids, and whether they are native
    nativeCount: int,
    stopped: bool,
    owed: nat,                           // callers that changed the registry and have yet to reconcile
    mutex: Mutex,
    stopping: Stopping,
    dog: Option<Dog>,
    hooked: bool,
    installFailed: bool,                 // the last attempt to install the hook failed
    core: Core)

  const NEW_FLEET := Fleet(map[], 0, false, 0, Free, Running, None, false, false, NEW_CORE)

  function Natives(handles: map<string, bool>): set<string> {
    set id | id in handles && handles[id]
  }

  predicate Want(f: Fleet) {
    f.nativeCount > 0 && !f.stopped
  }

  datatype FleetStep =
    | Register(id: string, isNative: bool)
    | Unregister(id: string)
    | RequestStop
    | LockMutex(byStopper: bool)
    | ReadCount
    | Act(installs: bool)
    | StopDog
    | JoinDog
    | DogMoves(step: DogStep)
    | OtherPause(reason: string)
    | OtherResume(reason: string)
    | StopDispatcher

  predicate Holder(m: Mutex, byStopper: bool) {
    !m.Free? && m.byStopper == byStopper
  }

  predicate FleetEnabled(f: Fleet, step: FleetStep) {
    match step
    case Register(id, _) => id !in f.handles
    case Unregister(id) => id in f.handles
    case RequestStop => f.stopping.Running?
    case LockMutex(byStopper) => f.mutex.Free? && if byStopper then f.stopping.Flagged? else f.owed > 0
    case ReadCount => f.mutex.Locked?
    case Act(_) => f.mutex.Decided?
    case StopDog => f.mutex.Unhooked?
    case JoinDog => f.mutex.Joining? && (f.dog.Some? ==> f.dog.value.exited)
    case DogMoves(step) =>
      f.dog.Some? && DogEnabled(f.dog.value, step) && !step.RequestExit? && (step.Notify? ==> f.hooked)
    case OtherPause(r) => r != USER_TAKEOVER
    case OtherResume(r) => r != USER_TAKEOVER
    case StopDispatcher => f.stopping.Reconciled?
  }

  /** What the watchdog's latest step made it call. */
  function AfterCallback(c: Core, before: Dog, after: Dog): Core {
    if |after.calls| <= |before.calls| then c
    else if after.calls[|after.calls| - 1].callback == CallPause then PauseCore(c, USER_TAKEOVER)
    else ResumeCore(c, USER_TAKEOVER)
  }

  function Unlocked(f: Fleet): Fleet
    requires !f.mutex.Free?
  {
    f.(mutex := Free, stopping := if f.mutex.byStopper then Reconciled else f.stopping)
  }

  function AfterAct(f: Fleet, installs: bool): Fleet
    requires f.mutex.Decided?
  {
    if f.mutex.want && f.dog.None? then
      if installs then Unlocked(f).(dog := Some(NewDog(TAKEOVER_IDLE, 0)), hooked := true, installFailed := false)
      else Unlocked(f).(installFailed := true)
    else if !f.mutex.want && f.dog.Some? then f.(hooked := false, mutex := Unhooked(f.mutex.byStopper))
    else Unlocked(f)
  }

  function FleetApply(f: Fleet, step: FleetStep): Fleet
    requires FleetEnabled(f, step)
  {
    match step
    case Register(id, n) =>
      f.(handles := f.handles[id := n], nativeCount := if n then f.nativeCount + 1 else f.nativeCount, owed := f.owed + 1)
    case Unregister(id) =>
      f.(handles := f.handles - {id},
         nativeCount := if f.handles[id] && f.nativeCount > 0 then f.nativeCount - 1 else f.nativeCount,
         owed := f.owed + 1)
    case RequestStop => f.(stopped := true, stopping := Flagged)
    case LockMutex(byStopper) =>
      if byStopper then f.(mutex := Locked(true), stopping := Reconciling)
      else f.(mutex := Locked(false), owed := f.owed - 1)
    case ReadCount => f.(mutex := Decided(f.mutex.byStopper, Want(f)))
    case Act(installs) => AfterAct(f, installs)
    case StopDog =>
      f.(mutex := Joining(f.mutex.byStopper),
         dog := if f.dog.Some? then Some(DogApply(f.dog.value, RequestExit)) else None)
    case JoinDog => Unlocked(f).(dog := None)
    case DogMoves(step) =>
      var dog := DogApply(f.dog.value, step);
      f.(dog := Some(dog), core := AfterCallback(f.core, f.dog.value, dog))
    case OtherPause(r) => f.(core := PauseCore(f.core, r))
    case OtherResume(r) => f.(core := ResumeCore(f.core, r))
    case StopDispatcher => f.(stopping := Stopped, core := AbortCore(f.core))
  }

  /** Some caller is still to reconcile. */
  predicate Indebted(f: Fleet) {
    f.owed > 0 || f.stopping.Flagged?
  }

  predicate TearingDown(m: Mutex) {
    m.Unhooked? || m.Joining?
  }

  ghost predicate CountInv(f: Fleet) {
    f.nativeCount == |Natives(f.handles)|
  }

  /** A reconcile that acts on a count that has changed since implies another. */
  ghost predicate HookInv(f: Fleet) {
    && (f.mutex.Free? && !Indebted(f) ==> (f.dog.Some? <==> Want(f) && !f.installFailed))
    && (f.mutex.Decided? && !Indebted(f) ==> f.mutex.want == Want(f))
    && (TearingDown(f.mutex) ==> f.dog.Some? && !f.hooked && (Indebted(f) || !Want(f)))
    && (f.dog.Some? ==> !f.installFailed)
    && (f.hooked <==> f.dog.Some? && !TearingDown(f.mutex))
  }

  ghost predicate StopInv(f: Fleet) {
    && (f.stopped <==> !f.stopping.Running?)
    && (f.core.stopped <==> f.stopping.Stopped?)
    && (f.stopping.Reconciling? <==> Holder(f.mutex, true))
    && (f.mutex.Decided? && f.mutex.byStopper ==> !f.mutex.want)
    && (f.stopping.Reconciled? || f.stopping.Stopped? ==> f.dog.None? && !(f.mutex.Decided? && f.mutex.want))
  }

  ghost predicate ReasonInv(f: Fleet) {
    && (USER_TAKEOVER in f.core.reasons <==> f.dog.Some? && Watchdog.Holding(f.dog.value))
    && (f.dog.Some? ==> DogInv(f.dog.value) && (f.dog.value.stopRequested <==> f.mutex.Joining?))
    && (f.dog.Some? && f.dog.value.exited ==> f.dog.value.stopRequested)
  }

  ghost predicate FleetInv(f: Fleet) {
    CountInv(f) && HookInv(f) && StopInv(f) && ReasonInv(f)
  }

  lemma NativesPlus(handles: map<string, bool>, id: string, isNative: bool)
    requires id !in handles
    ensures |Natives(handles[id := isNative])| == |Natives(handles)| + if isNative then 1 else 0
  {
    assert Natives(handles[id := isNative]) == if isNative then Natives(handles) + {id} else Natives(handles);
  }

  lemma NativesMinus(handles: map<string, bool>, id: string)
    requires id in handles
    ensures |Natives(handles - {id})| == |Natives(handles)| - if handles[id] then 1 else 0
  {
    assert Natives(handles - {id}) == Natives(handles) - {id};
    assert handles[id] <==> id in Natives(handles);
  }

  lemma NativesExist(handles: map<string, bool>)
    ensures |Natives(handles)| > 0 <==> exists id :: id in handles && handles[id]
  {
    if id :| id in handles && handles[id] {
      assert id in Natives(handles);
    }
    assert |Natives(handles)| > 0 ==> Natives(handles) != {};
  }

  lemma StepCount(f: Fleet, step: FleetStep)
    requires CountInv(f) && FleetEnabled(f, step)
    ensures CountInv(FleetApply(f, step))
  {
    if step.Register? {
      NativesPlus(f.handles, step.id, step.isNative);
    } else if step.Unregister? {
      NativesMinus(f.handles, step.id);
    } else {
      assert FleetApply(f, step).nativeCount == f.nativeCount && FleetApply(f, step).handles == f.handles;
    }
  }

  lemma StepHook(f: Fleet, step: FleetStep)
    requires HookInv(f) && StopInv(f) && FleetEnabled(f, step)
    ensures HookInv(FleetApply(f, step))
  {
  }

  lemma StepStop(f: Fleet, step: FleetStep)
    requires HookInv(f) && StopInv(f) && FleetEnabled(f, step)
    ensures StopInv(FleetApply(f, step))
  {
  }

  lemma StepReason(f: Fleet, step: FleetStep)
    requires HookInv(f) && StopInv(f) && ReasonInv(f) && FleetEnabled(f, step)
    ensures ReasonInv(FleetApply(f, step))
  {
    if step.DogMoves? {
      StepDogInv(f.dog.value, step.step);
    } else if step.StopDog? {
      StepDogInv(f.dog.value, RequestExit);
    }
  }

  ghost predicate FleetRun(f: Fleet, steps: seq<FleetStep>)
    decreases |steps|
  {
    steps != [] ==> FleetEnabled(f, steps[0]) && FleetRun(FleetApply(f, steps[0]), steps[1..])
  }

  ghost function FleetFinal(f: Fleet, steps: seq<FleetStep>): Fleet
    requires FleetRun(f, steps)
    decreases |steps|
  {
    if steps == [] then f else FleetFinal(FleetApply(f, steps[0]), steps[1..])
  }

  lemma {:induction false} RunFleetInv(f: Fleet, steps: seq<FleetStep>)
    requires FleetInv(f) && FleetRun(f, steps)
    ensures FleetInv(FleetFinal(f, steps))
    decreases |steps|
  {
    if steps != [] {
      StepCount(f, steps[0]);
      StepHook(f, steps[0]);
      StepStop(f, steps[0]);
      StepReason(f, steps[0]);
      RunFleetInv(FleetApply(f, steps[0]), steps[1..]);
    }
  }

  ghost predicate FleetReachable(f: Fleet) {
    exists steps :: FleetRun(NEW_FLEET, steps) && FleetFinal(NEW_FLEET, steps) == f
  }

  lemma FleetReachableInv(f: Fleet)
    requires FleetReachable(f)
    ensures FleetInv(f)
  {
    var steps :| FleetRun(NEW_FLEET, steps) && FleetFinal(NEW_FLEET, steps) == f;
    RunFleetInv(NEW_FLEET, steps);
  }

  lemma {:induction false} FleetRunThen(f: Fleet, steps: seq<FleetStep>, step: FleetStep)
    requires FleetRun(f, steps) && FleetEnabled(FleetFinal(f, steps), step)
    ensures FleetRun(f, steps + [step]) && FleetFinal(f, steps + [step]) == FleetApply(FleetFinal(f, steps), step)
    decreases |steps|
  {
    if steps == [] {
      assert [step][1..] == [] && steps + [step] == [step];
    } else {
      FleetRunThen(FleetApply(f, steps[0]), steps[1..], step);
      assert (steps + [step])[1..] == steps[1..] + [step];
    }
  }

  lemma FleetReachableStep(f: Fleet, step: FleetStep)
    requires FleetReachable(f) && FleetEnabled(f, step)
    ensures FleetReachable(FleetApply(f, step))
  {
    var steps :| FleetRun(NEW_FLEET, steps) && FleetFinal(NEW_FLEET, steps) == f;
    FleetRunThen(NEW_FLEET, steps, step);
  }

  /** The fleet's watchdog waits for ten seconds, counted in milliseconds. */
  ghost predicate IdleInv(f: Fleet) {
    f.dog.Some? ==> f.dog.value.idle == 10_000 && TimerSet(f.dog.value)
  }

  lemma StepIdle(f: Fleet, step: FleetStep)
    requires IdleInv(f) && FleetEnabled(f, step)
    ensures IdleInv(FleetApply(f, step))
  {
    if step.DogMoves? {
      DogStepIdle(f.dog.value, step.step);
    }
  }

  lemma DogStepIdle(d: Dog, step: DogStep)
    requires TimerSet(d) && DogEnabled(d, step)
    ensures TimerSet(DogApply(d, step)) && DogApply(d, step).idle == d.idle
  {
  }

  lemma {:induction false} RunIdle(f: Fleet, steps: seq<FleetStep>)
    requires IdleInv(f) && FleetRun(f, steps)
    ensures IdleInv(FleetFinal(f, steps))
    decreases |steps|
  {
    if steps != [] {
      StepIdle(f, steps[0]);
      RunIdle(FleetApply(f, steps[0]), steps[1..]);
    }
  }

  /** Over every run of the fleet: its watchdog's calls alternate, beginning with pause; a
      resume by the timer comes at least ten seconds after every move handled before it;
      and a hold with no expiry left to send or receive is younger than ten seconds. */
  lemma TenSeconds(f: Fleet, k: nat)
    requires FleetReachable(f) && f.dog.Some?
    ensures var d := f.dog.value;
      && (k < |d.calls| ==> (d.calls[k].callback == CallPause <==> k % 2 == 0))
      && (k < |d.calls| && d.calls[k].byTimer ==>
            d.calls[k].callback == CallResume && d.calls[k].moves <= |d.moves|
            && forall j :: 0 <= j < d.calls[k].moves ==> d.moves[j] + 10_000 <= d.calls[k].at)
      && (Watchdog.Holding(d) && !DogEnabled(d, Expire) && !DogEnabled(d, OnTimer) ==>
            d.moves != [] && d.now < d.moves[|d.moves| - 1] + 10_000)
  {
    FleetReachableInv(f);
    var steps :| FleetRun(NEW_FLEET, steps) && FleetFinal(NEW_FLEET, steps) == f;
    RunIdle(NEW_FLEET, steps);
    var d := f.dog.value;
    assert k < |d.calls| ==> RestedCall(d, d.calls[k]);
  }

  /** Every move that the watchdog handles leaves the dispatcher paused by it, under its
      own reason, whatever other reasons there are. */
  lemma MovePauses(f: Fleet)
    requires FleetReachable(f) && FleetEnabled(f, DogMoves(OnMove))
    ensures "user-takeover" in FleetApply(f, DogMoves(OnMove)).core.reasons
    ensures forall r :: r != "user-takeover" ==>
      (r in FleetApply(f, DogMoves(OnMove)).core.reasons <==> r in f.core.reasons)
  {
    FleetReachableInv(f);
    MoveHolds(f.dog.value);
    StepReason(f, DogMoves(OnMove));
  }

  /** A reconcile that wants the watchdog and can install the hook has it afterwards,
      fresh and hooked; one that cannot has neither. */
  lemma InstallDecides(f: Fleet, installs: bool)
    requires FleetReachable(f) && f.mutex.Decided? && f.dog.None?
    ensures FleetEnabled(f, Act(installs))
    ensures var f' := FleetApply(f, Act(installs));
      if !f.mutex.want then f'.dog == None && !f'.hooked && f'.mutex.Free?
      else if installs then f'.dog == Some(NewDog(10_000, 0)) && f'.hooked && !f'.installFailed && f'.mutex.Free?
      else f'.dog == None && !f'.hooked && f'.installFailed && f'.mutex.Free?
  {
    FleetReachableInv(f);
  }

  /** Hooked, the watchdog hears of every move; the other sources may always pause and
      resume, each under its own reason. */
  lemma FleetHears(f: Fleet, r: string)
    requires FleetReachable(f)
    ensures f.hooked ==> FleetEnabled(f, DogMoves(Notify)) && FleetApply(f, DogMoves(Notify)).dog.value.token
    ensures r != "user-takeover" ==> FleetEnabled(f, OtherPause(r)) && FleetEnabled(f, OtherResume(r))
    ensures r != "user-takeover" && !f.core.stopped ==>
      FleetApply(f, OtherPause(r)).core.reasons == f.core.reasons + {r}
      && FleetApply(f, OtherResume(r)).core.reasons == f.core.reasons - {r}
  {
    FleetReachableInv(f);
  }

  /** How much is left to reconcile and to stop. */
  function Backlog(f: Fleet): nat {
    6 * (f.owed + if f.stopping.Flagged? then 1 else 0)
    + (match f.mutex
       case Free => 0
       case Locked(_) => 5
       case Decided(_, _) => 4
       case Unhooked(_) => 3
       case Joining(_) => 2)
    + if f.stopping.Running? || f.stopping.Stopped? then 0 else 1
  }

  /** As long as a reconcile is owed or running, or a stop is under way, somebody can go
      on; going on uses up the backlog, except while a teardown waits for the loop. */
  lemma ReconcileGoesOn(f: Fleet) returns (step: FleetStep)
    requires FleetReachable(f) && (!f.mutex.Free? || Indebted(f) || !(f.stopping.Running? || f.stopping.Stopped?))
    ensures FleetEnabled(f, step)
    ensures Backlog(FleetApply(f, step)) < Backlog(f) || (f.mutex.Joining? && step == DogMoves(OnStop))
  {
    FleetReachableInv(f);
    match f.mutex
    case Free =>
      step := if f.stopping.Reconciled? then StopDispatcher else LockMutex(f.stopping.Flagged?);
    case Locked(_) => step := ReadCount;
    case Decided(_, _) => step := Act(true);
    case Unhooked(_) => step := StopDog;
    case Joining(_) => step := if f.dog.Some? && !f.dog.value.exited then DogMoves(OnStop) else JoinDog;
  }

  /** Registering and unregistering touch the browser they name, and no other. */
  lemma FleetRegisters(f: Fleet, id: string, isNative: bool)
    requires FleetEnabled(f, Register(id, isNative))
    ensures var f' := FleetApply(f, Register(id, isNative));
      && f'.handles == f.handles[id := isNative] && f'.owed == f.owed + 1
      && FleetEnabled(f', Unregister(id)) && FleetApply(f', Unregister(id)).handles == f.handles
  {
    assert f.handles[id := isNative] - {id} == f.handles;
  }

  /** Whenever no reconcile is owed or running, the watchdog is installed exactly
      when a native browser is registered and the fleet is not stopped, unless
      the last attempt to install the hook failed. */
  lemma HookConverges(f: Fleet)
    requires FleetReachable(f) && f.mutex.Free? && !Indebted(f)
    ensures f.dog.Some? <==> (exists id :: id in f.handles && f.handles[id]) && !f.stopped && !f.installFailed
    ensures f.hooked <==> f.dog.Some?
  {
    FleetReachableInv(f);
    NativesExist(f.handles);
  }

  /** The takeover reason is held exactly while a live watchdog is paused, and
      after the dispatcher has stopped there is neither. */
  lemma TakeoverReason(f: Fleet)
    requires FleetReachable(f)
    ensures "user-takeover" in f.core.reasons <==> f.dog.Some? && f.dog.value.paused && !f.dog.value.exited
    ensures f.core.stopped ==> f.dog.None? && !f.hooked && "user-takeover" !in f.core.reasons
  {
    FleetReachableInv(f);
  }

  /** No step of the watchdog or of a reconcile touches another source's reason. */
  lemma OtherReasonsUntouched(f: Fleet, step: FleetStep, r: string)
    requires FleetEnabled(f, step) && r != USER_TAKEOVER && !step.OtherPause? && !step.OtherResume?
    ensures r in FleetApply(f, step).core.reasons <==> r in f.core.reasons
  {
  }

  /** How many arms a watchdog that was told to stop may still take: the expiry, the
      last move, that move's expiry, and the stop. */
  function LoopEnergy(d: Dog): nat {
    if d.exited then 0
    else 1 + (if d.token then 2 else 0) + (if d.timer.Disarmed? then 0 else 1)
  }

  function DogEnergy(dog: Option<Dog>): nat {
    if dog.Some? then LoopEnergy(dog.value) else 0
  }

  /** The watchdog's loop takes one of its arms. */
  predicate DogActs(step: FleetStep) {
    step.DogMoves? && (step.step.OnMove? || step.step.OnTimer? || step.step.OnStop?)
  }

  function Actions(steps: seq<FleetStep>): nat {
    if steps == [] then 0 else (if DogActs(steps[0]) then 1 else 0) + Actions(steps[1..])
  }

  lemma JoiningGoesOn(f: Fleet, step: FleetStep)
    requires HookInv(f) && ReasonInv(f) && f.mutex.Joining? && FleetEnabled(f, step) && !step.JoinDog?
    ensures FleetApply(f, step).mutex == f.mutex
    ensures DogEnergy(FleetApply(f, step).dog) + (if DogActs(step) then 1 else 0) <= DogEnergy(f.dog)
  {
  }

  /** A teardown always ends: once the hook is gone and the stop requested, the loop
      takes four more arms at the most, whatever else goes on; until it has exited it
      can exit, and then it can be joined. */
  lemma {:induction false} TeardownEnds(f: Fleet, steps: seq<FleetStep>)
    requires FleetReachable(f) && f.mutex.Joining? && FleetRun(f, steps) && JoinDog !in steps
    ensures var f' := FleetFinal(f, steps);
            f'.mutex.Joining? && Actions(steps) + DogEnergy(f'.dog) <= DogEnergy(f.dog) <= 4
            && FleetEnabled(f', if DogEnergy(f'.dog) == 0 then JoinDog else DogMoves(OnStop))
    decreases |steps|
  {
    FleetReachableInv(f);
    if steps != [] {
      JoiningGoesOn(f, steps[0]);
      FleetReachableStep(f, steps[0]);
      assert steps == [steps[0]] + steps[1..];
      TeardownEnds(FleetApply(f, steps[0]), steps[1..]);
    }
  }
}
