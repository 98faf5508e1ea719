# Verification of the automation fleet

A Dafny model of a fleet that drives many browsers at once: submitters queue jobs,
one native worker owns the OS cursor and keyboard, a pool of cdp workers drives the
remote browsers, and pauses, a mouse-takeover watchdog and one stop interleave with
all of it. `dafny verify dfyconfig.toml` checks everything.

## What is proved

- **The dispatcher as a protocol** (`Protocol`, `Frames`, `Delivery`, `Invariant`, `Guarantees`,
  `Progress`, `Steering`, `Crash`, `Stranding`, `Schedule`, `Routing`, `StepLaws`,
  `Scenarios`). Every goroutine's unlocked
  gap is a step of its own; the state has the queue, the native worker's hand, the
  64-slot channel, the pool, the stopper and every result channel. Over all
  interleavings: each job is delivered at most once; `inflight` is exactly the number
  of jobs in some hand; no wake-up is lost; nothing is popped while paused; jobs are
  popped in priority order with first-in-first-out ties, and reach the pool in that
  order; there is no deadlock, every internal run is bounded, and `Wait` returns;
  native input is serialised; each step gives the submitter the result it should, and
  runs a job on the browser that the job names.
- **The objects** (`PriorityQueues`, `PopOrder`, `DispatcherCore`, `Dispatchers`,
  `FleetObjects`). The in-place heap with its back-indices, the dispatcher's locked
  sections, the watchdog's loop arms and the fleet's registry are classes, proved to do
  what the state machines say. Popping the queue until it is empty is the stable sort
  by priority.
- **Pauses and takeover** (`PauseHistory`, `Watchdog`, `Takeover`). A reason is held
  exactly when the last call naming it was a pause; the watchdog's calls alternate and
  a timed resume comes at least `idle` after every handled move and must come once that
  time has passed; however
  registrations, unregistrations and the stop race, the hook ends up installed exactly
  when it is wanted, and the takeover reason is held exactly while a live watchdog is
  paused.
- **The native critical section** (`CriticalTrace`, `CriticalSection`, `NativeTraces`,
  `NativeGuarantees`, `NativeAnswers`). Against a world that answers every call as it likes: a job
  clicks, types, clears and navigates at most once, however often it retries; it types
  only behind a successful click; it clicks only with the cursor within the threshold
  and half a pixel of its target; the keyboard layout is restored; any bad answer ends it
  and is what it reports, and without one it succeeds unless it drifted.
- **Hotkeys** (`Hotkeys`, `HotkeyLaws`, `HotkeyText`). Parsing, printing, exactly which
  hotkeys survive the round trip, and what every word, mask, key code and refusal is.

## Where the promised behaviour fails

Three things the repository promises do not hold of its code. Each has a reachable
state that shows it and the exact condition under which the promise does hold.

- *A stop does not always shut down cleanly.* `abortAll` closes the channel outside the
  lock, so a native worker that is forwarding a job can send on a closed channel, and
  the process panics (`Scenarios.StopWhileForwarding`). A started fleet can come to that
  exactly when the native worker holds a job that it can still send or, until the
  dispatcher has stopped, can still pop one: no stop has been requested, or a job is
  queued or on its way from Submit to the queue (`Crash.CrashIffExposed`). A worker that
  reads the cleared field sends nothing and its job is cancelled
  (`Crash.NilReaderIsCancelled`).
- *"Exactly one JobResult"* (fleet.go:453-455). A cdp worker goroutine that first runs
  after the stop cleared `d.cdpJobs` ranges over a nil channel for ever. If that
  happens to all of them, a job in the channel is never delivered, and `Wait` never
  returns (`Scenarios.StrandedJob`). From a started fleet this can happen exactly when
  no cdp worker has come to its range loop, the native worker is not blocked in a send,
  and there is a job to be left behind: in the channel, in a hand that can still put it
  there or, until the dispatcher has stopped, still to be popped
  (`Stranding.StrandsIffStrandable`). So a caller who stops only after some cdp worker
  came to its loop loses no result, unless the stop crashes
  (`Stranding.LiveStopDelivers`).
- *"Native input runs on the native worker only".* The handle is looked up once to
  route a job and again to execute it, so an id that is registered anew in between lets
  the pool drive a native browser (`Scenarios.ReRegistrationEscapes`), even while the
  native worker drives the same one (`Scenarios.NativeInputsOverlap`). A job that drives
  a native browser's input runs on the native worker exactly when the handle that it was
  routed by was native (`Routing.NativeInputPlacement`), as it was if the registration
  has not changed since; jobs routed so never overlap (`Routing.NativeInputSerialised`).

The code also differs from its design documents, and the model follows the code: pauses
are a set of reasons and not a flag, the channel to the pool is buffered, the drift
guard works per axis and not on the Euclidean distance, `Stop` does not wait for jobs in
flight, and `Wait` does not return early on a stopped fleet, although fleet.go:490 says so:
it waits for `inflight`, which in a stopped fleet at rest is the number of jobs left in
the channel (`Progress.RestAfterStop`) and is 1 in `Scenarios.StrandedJob`.

## Model

| member | source | states |
|---|---|---|
| `Jobs.DeliverNeverOverwrites` | dispatcher.go:332-339 | a second delivery never adds a result; one delivery settles a channel and a second one would show |
| `Jobs.ResultChannel.DeliverResult` | dispatcher.go:332-339 | deliver sends at most one result, closes the channel and swallows the panic of a closed one |
| `Jobs.NextExists` | dispatcher_queue.go:13-19 | every non-empty queue has a job that goes before all others by priority, then submission |
| `Jobs.NextUnique` | dispatcher_queue.go:13-19 | it has only one such job |
| `PriorityQueues.RootComesFirst` | dispatcher_queue.go:13-19 | no item of a heap comes before its root |
| `PriorityQueues.SiftUpStep` | dispatcher_queue.go:41-42 | one swap of the heap's `up` moves the only misplaced item to its parent |
| `PriorityQueues.SiftDownStep` | dispatcher_queue.go:44-50 | one swap of the heap's `down` moves the only misplaced item to its first child |
| `PriorityQueues.SiftDownStop` | dispatcher_queue.go:44-50 | where `down` stops, heap order is restored |
| `PriorityQueues.PriorityQueue.Swap` | dispatcher_queue.go:21-25 | exchanges two items in place and keeps every back-index equal to its position |
| `PriorityQueues.PriorityQueue.Append` | dispatcher_queue.go:27-31 | appends an item with the right back-index |
| `PriorityQueues.PriorityQueue.RemoveLast` | dispatcher_queue.go:33-39 | cuts the last item off |
| `PriorityQueues.PriorityQueue.PushJob` | dispatcher_queue.go:41-42 | keeps heap order and back-indices; the contents gain exactly the job |
| `PriorityQueues.PriorityQueue.PopJob` | dispatcher_queue.go:44-50 | returns a job of the highest priority, the earliest submitted of those, and removes exactly it; nil exactly when empty |
| `PriorityQueues.PriorityQueue.Drain` | dispatcher_queue.go:52-57 | hands out all items and leaves the queue empty |
| `PopOrder.StableSortSorts` | dispatcher_queue.go:5-19 | insertion by priority yields priority descending, submission ascending |
| `Dispatchers.Dispatcher.PopAll` | dispatcher_queue.go:41-50 | popping the heap itself until it is empty returns the stable priority sort of what it held |
| `PopOrder.SortPopsNext` | dispatcher_queue.go:41-50 | the stable sort begins with the job that a pop returns |
| `PopOrder.StableSortMeans` | dispatcher_queue.go:5-19 | the stable sort holds each queued job, higher priority first and equal ones in submission order |
| `PopOrder.PopsAreStableSort` | dispatcher_queue.go:41-50 | popping a queue of any size until it is empty yields its stable priority sort, and nothing else does |
| `DispatcherCore.TurnExists` | dispatcher.go:172-189 | every state of the lock gives the native worker exactly one thing to do, and the `qj == nil` branch is dead |
| `PauseHistory.LastCallDecides` | dispatcher.go:133-168 | a reason is held exactly when the last call naming it was a pause, so no source releases another's hold |
| `PauseHistory.TransitionsAlternate` | dispatcher.go:133-168 | the calls that return true alternate pause, resume; one more pause than resume exactly while paused |
| `PauseHistory.FrozenAfterStop` | dispatcher.go:138-158 | after stop no call changes the set or returns true |
| `PauseHistory.CallsKeepSleepJustified` | dispatcher.go:153-168 | resume may skip the broadcast while another reason is held |
| `Dispatchers.Dispatcher.Enqueue` | dispatcher.go:80-105 | a job is queued under the next sequence number with a fresh channel and one more in flight; once stopped it is left to a goroutine to reject, and nothing changes |
| `Dispatchers.Dispatcher.DeliverRejection` | dispatcher.go:86-90 | that goroutine delivers Rejected and touches nothing else |
| `Dispatchers.Dispatcher.Pause` | dispatcher.go:133-147 | adds the reason unless stopped; true exactly when the set was empty |
| `Dispatchers.Dispatcher.Resume` | dispatcher.go:149-168 | removes the reason unless stopped; true, with a wake-up, exactly when it was the last |
| `Dispatchers.Dispatcher.NextTurn` | dispatcher.go:174-189 | one pass of the wait loop and the pop: sleeps, exits or takes exactly the next job in queue order |
| `Dispatchers.Dispatcher.PopNext` | dispatcher.go:184-185 | the heap's pop is the queue order's next job |
| `Dispatchers.Dispatcher.BeginAbort` | dispatcher.go:109-113 | stops, empties the queue into `pending` and wakes the worker |
| `Dispatchers.Dispatcher.CancelAll` | dispatcher.go:115-123 | every drained job gets one Cancelled on its own channel and leaves inflight |
| `Dispatchers.Dispatcher.AbortAll` | dispatcher.go:107-128 | the queue is empty, its jobs are cancelled, the channel is closed and forgotten |
| `Dispatchers.Dispatcher.CompleteJob` | dispatcher.go:322-330 | delivers a result and takes the job out of inflight |
| `Dispatchers.TakenIsNext` | dispatcher_queue.go:13-19 | an item that no item of the heap precedes is the one next job of the queue order |
| `Delivery.HandDelivers` | dispatcher.go:197-203 | what the native worker delivers, nobody else holds; the books stay balanced |
| `Delivery.RunningDelivers` | dispatcher.go:216-247 | the same for a job that a cdp worker has executed |
| `Delivery.PendingDelivers` | dispatcher.go:115-123 | the same for a job that the stop drained |
| `Delivery.QueueToHand` | dispatcher.go:184-185 | a pop moves a job from the queue to the native worker's hand and loses or doubles none |
| `Delivery.HandToBuffer` | dispatcher.go:199-203 | a send moves a job from the hand into the channel |
| `Invariant.StepAccounted` | dispatcher.go:80-130 | every step of every goroutine keeps each job in one place, with a fresh channel, or delivered once |
| `Invariant.StepControl` | dispatcher.go:60-214 | every step keeps the joint control states of stopper, native worker and pool consistent |
| `Invariant.PoolKeepsWorkers` | dispatcher.go:208-214 | no cdp worker is lost or doubled |
| `Invariant.StepInv` | dispatcher.go:60-339 | the whole invariant is inductive |
| `Frames.NativeFrames` | dispatcher.go:172-206 | no step of the native worker touches the pool, the stopper, the registry, the reasons or the set of accepted and refused jobs |
| `Frames.PoolFrames` | dispatcher.go:208-247 | no step of a cdp worker touches the queue, the condition variable, the stopper, the registry or the reasons |
| `Guarantees.RunInv` | dispatcher.go:60-339 | it holds after every run, of any length and interleaving |
| `Guarantees.AtMostOnce` | dispatcher.go:332-339 | in every reachable state, crashed or not, a channel is fresh or closed with the one result of one delivery; Rejected exactly for refused jobs |
| `Guarantees.Conservation` | dispatcher.go:101-130 | inflight = queued + held + buffered + fetched + running + drained + delivered-but-uncredited, and is never negative |
| `Guarantees.WaitMeansDelivered` | dispatcher.go:130-131 | when `Wait` sees zero, every job accepted so far has its one result |
| `Guarantees.NoLostWakeup` | dispatcher.go:175-183 | a worker asleep with no wake pending is not stopped, and has an empty queue or a held reason |
| `Guarantees.ShutdownState` | dispatcher.go:107-128 | stopped implies an empty queue and a stopped fleet, the worker's next turn is its last, and the channel is closed at most once |
| `Guarantees.NoPopWhilePaused` | dispatcher.go:177-184 | a pop happens only with no reason held |
| `Progress.InternalDescends` | dispatcher.go:172-247 | every step of the fleet's own goroutines lowers one energy |
| `Progress.InternalRunsEnd` | dispatcher.go:172-247 | so every run of them is bounded by the energy it starts with |
| `Progress.NoDeadlock` | dispatcher.go:172-214 | started, unpaused, not asked to stop, with a job in flight: some internal step can be taken, even with the channel full |
| `Progress.WaitReturns` | dispatcher.go:130-131 | so without outside calls every run ends, and where it ends nothing is in flight |
| `Progress.StopMakesProgress` | dispatcher.go:107-128 | after stop some step can be taken until every goroutine is at its end |
| `Progress.StopComesToRest` | fleet.go:495-517 | a stopped fleet can go no further exactly when it has crashed or is at rest |
| `Progress.RestAfterStop` | dispatcher.go:107-128 | at rest, every refused job is rejected, and an accepted one has its one result exactly unless it is still in the channel |
| `Progress.StopDeliversAllIff` | dispatcher.go:124-127 | at rest, everything is delivered exactly when the channel is empty, which one cdp worker that left its loop has seen to |
| `Stranding.SecuredNeverStrands` | dispatcher.go:107-128 | from a state that is not strandable no run comes to rest with a job undelivered |
| `Stranding.LeavingStrands` | dispatcher.go:208-214 | with a job in the channel of a stopped fleet and no live cdp worker, some run does |
| `Stranding.StrandsIffStrandable` | fleet.go:453-455 | from any started state, stopped or not, a stop can leave a job undelivered exactly when no cdp worker has come to its loop, the native worker is not blocked in a send, and a job is in the channel, can still be sent, or may yet be popped |
| `Stranding.LiveStopDelivers` | fleet.go:453-455 | once some cdp worker has come to its loop, every later rest of the stopped fleet, short of a crash, has delivered every accepted job |
| `Steering.BusyHolds` | fleet.go:456-478 | until the dispatcher has stopped, a busy or idle native worker can be led to pop a job, by calls that the code lets through, if no stop was requested or a job is queued or arriving; pool and channel stay untouched |
| `Crash.HarmlessNeverCrashes` | dispatcher.go:124-127 | with nothing left to send and nothing left to pop, no run crashes |
| `Crash.ExposedCanCrash` | dispatcher.go:199-203 | from every exposed state some run does |
| `Crash.CrashIffExposed` | dispatcher.go:124-127 | a started fleet can still crash exactly when the native worker holds a job that it can still send, or may yet pop one |
| `Crash.CrashPassesWindow` | dispatcher.go:124-127 | every crashing run closes the channel between a pop and the end of its forward |
| `Crash.NilReaderIsCancelled` | dispatcher.go:199-203 | a worker that read the cleared field never sends: it parks, and its job is cancelled once the context is |
| `Schedule.PopOrder` | dispatcher.go:93-103 | of two pops of a run, the first precedes the second in queue order or the second was enqueued after it; equal priorities pop in submission order |
| `Schedule.ReceiveOrder` | dispatcher.go:184-203 | jobs leave the cdp channel in the order of their pops: each is a later pop than all received before it |
| `Routing.NativeInputPlacement` | dispatcher.go:191-204 | an executing job is on the pool exactly when the guard of its routing was false; native input runs on the native worker exactly when the routing handle was native, as an unchanged one is; Scroll and Wait never run there |
| `Routing.NativeInputSerialised` | action.go:108-117 | so no two executions of native input that were routed by native handles overlap in any run |
| `StepLaws.TakeDecides` | dispatcher.go:177-185 | the native worker takes a job only while no reason is held, and it is the first submitted of those with the highest priority |
| `StepLaws.RouteDecides` | dispatcher.go:195-204 | the native worker keeps a job exactly when it is a click, a text or a navigation and the browser that it names is registered as native |
| `StepLaws.EnterDecides` | dispatcher.go:217-226 | the native worker executes its job with the handle of the browser that the job names; if that is gone the submitter gets Failed |
| `StepLaws.LookUpDecides` | dispatcher.go:217-226 | and so does a cdp worker |
| `StepLaws.FinishRunDelivers` | dispatcher.go:235-246 | the submitter gets the result of the execution on the native worker, and no other channel is touched |
| `StepLaws.FinishDelivers` | dispatcher.go:235-246 | the same on a cdp worker |
| `StepLaws.AnyResult` | dispatcher.go:235-242 | an execution may end in Done, Failed and Cancelled, and in nothing else |
| `StepLaws.CancelPendingDelivers` | dispatcher.go:115-123 | the submitter of a drained job gets Cancelled |
| `StepLaws.CancelForwardDelivers` | dispatcher.go:199-203 | the submitter of a job that could not be forwarded gets Cancelled, and only once the stop has cancelled the context |
| `StepLaws.RejectDelivers` | dispatcher.go:86-90 | the submitter of a refused job gets Rejected |
| `StepLaws.SubmitGuard` | fleet.go:456-472 | a submission is let through exactly when its action is complete, the fleet runs and the browser is registered |
| `StepLaws.SubmitArrives` | fleet.go:474-478 | and then it reaches the queue's lock |
| `StepLaws.ArriveDecides` | dispatcher.go:81-105 | there it is queued as it was submitted, with a fresh channel and one more in flight, or refused once the dispatcher has stopped |
| `StepLaws.CallGuards` | fleet.go:252-256 | pausing and resuming are always let through, a registration with a free id, an unregistration with a taken one, and one stop |
| `StepLaws.PauseNames` | dispatcher.go:138-168 | a pause or resume changes exactly the reason that it names, until the stop |
| `StepLaws.RegisterNames` | fleet.go:252-261 | a browser is registered as what it is said to be, under the next number, and no other id is touched |
| `StepLaws.UnregisterNames` | fleet.go:299-312 | exactly the named browser is gone |
| `StepLaws.StartSpawns` | dispatcher.go:60-78 | Start works once and not after a stop was requested; it makes one native worker and as many cdp workers as configured, on an open channel |
| `StepLaws.ChannelHolds64` | dispatcher.go:69 | the channel holds at most 64 jobs; a send is possible exactly below that |
| `Scenarios.StopWhileForwarding` | dispatcher.go:124-127 | a reachable stop that can crash |
| `Scenarios.StrandedJob` | dispatcher.go:208-214 | a reachable state at rest with an accepted job undelivered |
| `Scenarios.ReRegistrationEscapes` | dispatcher.go:195-222 | a reachable state in which the pool drives a native browser |
| `Scenarios.NativeInputsOverlap` | dispatcher.go:195-222 | a reachable state in which the pool and the native worker click on one native browser at once |
| `Watchdog.StepDogInv` | takeover_watchdog.go:74-114 | every step keeps the calls alternating and the timer at least idle after the last handled move |
| `Watchdog.CallsOverRuns` | takeover_watchdog.go:74-114 | over every timed run calls alternate from pause on, a timed resume comes at least idle after every handled move, and after the exit resumes equal pauses |
| `Watchdog.TokenNotLost` | takeover_watchdog.go:49-57 | after a notification the token stays until a move is handled |
| `Watchdog.ArmsReady` | takeover_watchdog.go:85-112 | each arm of the select is ready exactly when its channel is and the loop runs; the timer expires when its time has come |
| `Watchdog.MoveHolds` | takeover_watchdog.go:87-100 | a handled move pauses the fleet and leaves it held |
| `Watchdog.HoldEndsOnly` | takeover_watchdog.go:101-112 | only the timer and the stop end a hold, each with a resume |
| `Watchdog.MovesAreNotified` | takeover_watchdog.go:49-57 | no move is handled without a notification, and the loop exits only when asked to |
| `Watchdog.HoldEnds` | takeover_watchdog.go:101-105 | from every reachable hold, time alone can lead to the resume |
| `Watchdog.HoldMustEnd` | takeover_watchdog.go:87-105 | in every run a hold outlasts idle after the last handled move only while an expiry is still to be sent or received |
| `Takeover.RunFleetInv` | fleet.go:318-379 | the count, the hook, the stop and the reason stay consistent over every interleaving |
| `Takeover.TenSeconds` | takeover_watchdog.go:8-11 | over every run of the fleet a timed resume comes at least 10,000 ms after each move handled before it, and a hold with no expiry left to send or receive is younger than that |
| `Takeover.MovePauses` | fleet.go:344-357 | every handled move leaves the dispatcher paused under "user-takeover", and no other reason touched |
| `Takeover.InstallDecides` | fleet.go:344-358 | a reconcile that wants the watchdog installs a fresh one with its hook, or neither when the hook fails |
| `Takeover.FleetHears` | fleet.go:349-357 | hooked, every move is heard; other sources pause and resume their own reasons |
| `Takeover.ReconcileGoesOn` | fleet.go:318-338 | while a reconcile is owed or running or a stop is under way somebody can go on, and going on uses up a bounded backlog |
| `Takeover.FleetRegisters` | fleet.go:248-316 | registering and unregistering touch the browser that they name and owe a reconcile |
| `Takeover.HookConverges` | fleet.go:318-338 | with no reconcile owed or running, the watchdog is installed exactly when a native browser is registered and the fleet runs, unless the install failed |
| `Takeover.TakeoverReason` | fleet.go:340-379 | the takeover reason is held exactly while a live watchdog is paused, and neither outlives the stop |
| `Takeover.OtherReasonsUntouched` | fleet.go:340-379 | the watchdog and the reconciles never touch another source's reason |
| `Takeover.TeardownEnds` | takeover_watchdog.go:64-72 | while `stop` waits, in every run, the loop takes at most four more arms; until it exits it can exit, and then it can be joined |
| `FleetObjects.TakeoverWatchdog.HandleMove` | takeover_watchdog.go:87-100 | the move arm: at most one pause, and the timer rearmed from now whatever it was doing |
| `FleetObjects.TakeoverWatchdog.Rearm` | takeover_watchdog.go:92-100 | stop, drain, reset leaves no earlier expiry behind |
| `FleetObjects.TakeoverWatchdog.HandleTimer` | takeover_watchdog.go:101-105 | the timer arm resumes exactly when paused |
| `FleetObjects.TakeoverWatchdog.HandleStop` | takeover_watchdog.go:106-112 | the stop arm releases the hold and exits |
| `FleetObjects.TakeoverWatchdog.Turn` | takeover_watchdog.go:85-113 | one pass of the select after the stop was asked for: exits, or leaves fewer arms ready, and touches no other reason |
| `FleetObjects.TakeoverWatchdog.Stop` | takeover_watchdog.go:64-72 | the loop exits whatever the select picks first, and exactly the takeover reason is gone |
| `FleetObjects.TakeoverWatchdog.NotifyMove` | takeover_watchdog.go:49-57 | drops a token unless one is there |
| `FleetObjects.Fleet.Register` | fleet.go:246-265 | refuses an invalid handle and a taken id, in that order; otherwise adds the handle, keeps the count exact, and converges the hook |
| `FleetObjects.Fleet.Unregister` | fleet.go:293-316 | removes the handle, keeps the count exact, and converges the hook |
| `FleetObjects.Fleet.Reconcile` | fleet.go:318-338 | the watchdog exists exactly when wanted, and no other reason changes |
| `FleetObjects.Fleet.StartTakeover` | fleet.go:340-358 | the watchdog waits 10,000 ms and starts unpaused with its timer stopped; a failed hook leaves no watchdog and no hold behind |
| `FleetObjects.Fleet.StopTakeover` | fleet.go:360-379 | no watchdog, no hook, and exactly the takeover reason released |
| `FleetObjects.Fleet.Submit` | fleet.go:453-478 | the four refusals in their order; otherwise exactly what enqueue does |
| `FleetObjects.Fleet.RequestStop` | fleet.go:495-517 | the first call releases the takeover reason, which it can only while the dispatcher has not stopped, stops it, cancels the queue and cancels the context; later calls do nothing |
| `CriticalSection.Rig.Guard` | dispatcher_critical_windows.go:102-117 | reads offset and cursor and trips exactly when an axis is over the threshold |
| `CriticalSection.Rig.ClickGuarded` | dispatcher_critical_windows.go:94-126 | clickAt makes exactly the calls of `ClickedAt`, in its order |
| `CriticalSection.Rig.TypeText` | dispatcher_critical_windows.go:69-87 | typing between forcing and restoring the layout |
| `CriticalSection.Rig.ExecuteCritical` | dispatcher_critical_windows.go:22-92 | one attempt is `Attempted`: the same calls, answers and error |
| `CriticalSection.Rig.ExecuteWithRetry` | dispatcher.go:249-265 | the retry loop is `Retried` |
| `NativeTraces.AttemptSound` | dispatcher_critical_windows.go:22-126 | every attempt follows its action's script up to the first failing call or the drift, and not a call further |
| `NativeTraces.RunSound` | dispatcher.go:249-265 | every job is at most 1 + driftRetries attempts, all but the last drifted, with one wait in between |
| `NativeAnswers.BadDecides` | dispatcher_critical_windows.go:22-126 | a call that answers that it failed, that there is no page or that the context is done ends the job: only the layout's restoration follows, and the error is that call's |
| `NativeAnswers.NoneBadDecides` | dispatcher_critical_windows.go:36-91 | without such an answer a click or text succeeds or drifts, a navigation succeeds, and scrolling and waiting are unsupported |
| `NativeAnswers.SuccessAccomplishes` | dispatcher_critical_windows.go:22-126 | a job without an error had no such answer, and its last attempt made, call by call, all that the action asks for |
| `NativeAnswers.SmoothSucceeds` | dispatcher_critical_windows.go:22-126 | where nothing fails, a job succeeds exactly unless the cursor was off its target in every try |
| `NativeAnswers.UnreadableNeverDrifts` | dispatcher_critical_windows.go:111-117 | an unreadable cursor never trips the guard |
| `NativeGuarantees.DriftedActsOnNothing` | dispatcher_critical_windows.go:94-117 | an attempt that drifted made eight calls and neither clicked nor typed |
| `NativeGuarantees.ActsAtMostOnce` | dispatcher.go:249-265 | a job clicks, navigates, clears and types at most once each |
| `NativeGuarantees.SuccessActs` | dispatcher_critical_windows.go:36-91 | a job without an error has made its click, text or navigation succeed exactly once |
| `NativeGuarantees.DriftIsAllTries` | dispatcher.go:249-265 | errCursorDrift is returned exactly when the cursor was read in all 1 + driftRetries attempts and was off the found element's expected pixel every time |
| `NativeGuarantees.DriftActsOnNothing` | dispatcher.go:249-265 | and then nothing was clicked, typed or navigated |
| `NativeGuarantees.TriesBounded` | dispatcher.go:249-265 | at most driftRetries waits between attempts, and so at most 1 + driftRetries attempts, focus calls and cursor reads |
| `NativeGuarantees.JobTypesProperly` | dispatcher_critical_windows.go:58-87 | text is typed only behind a successful click at the element found in the same attempt, cleared if and only if asked for |
| `NativeGuarantees.JobRestoresLayout` | dispatcher_critical_windows.go:72-76 | a forced layout is restored by the last call |
| `NativeGuarantees.RoundNearest` | dispatcher_critical_windows.go:102-103 | rounding is to nearest, symmetric, away from zero from the middle |
| `NativeGuarantees.GuardBound` | dispatcher_critical_windows.go:102-117 | for all real coordinates and scales, threshold + 1/2 pixel per axis separates what passes from what trips |
| `NativeGuarantees.JobClicksNear` | dispatcher_critical_windows.go:107-122 | a click with a readable cursor is within threshold + 1/2 pixel per axis of origin + css·scale + offset |
| `NativeGuarantees.FarCursorDrifts` | dispatcher_critical_windows.go:111-117 | a cursor farther away than that ends the attempt in drift |
| `Hotkeys.ParseHotkey` | hotkey.go:103-150 | the token loop computes `Parsed`: first bad token, else missing key, else missing modifier, else modifiers and last key |
| `Hotkeys.ParseToken` | hotkey.go:111-141 | one token's meaning, whatever its case and padding |
| `Hotkeys.Print` | hotkey.go:77-101 | the parts in their fixed order, joined by "+" |
| `HotkeyLaws.ModsAreNamed` | hotkey.go:117-124 | a modifier is in the result exactly when a token names it |
| `HotkeyLaws.LastKeyIsLast` | hotkey.go:125-141 | the key is the one named last |
| `HotkeyLaws.AcceptedIff` | hotkey.go:103-150 | a text is accepted exactly when all its tokens mean something and they name a key and a modifier |
| `HotkeyLaws.AcceptedIsNormal` | hotkey.go:103-150 | results have a non-zero mask within the four bits and a key in A to Z or F1 to F12 |
| `HotkeyLaws.PrintThenParse` | hotkey.go:77-150 | what parsing makes of every printed hotkey, named or not |
| `HotkeyLaws.RoundTripIff` | hotkey.go:77-150 | the round trip holds exactly for hotkeys in normal form |
| `HotkeyLaws.ParsePrintParse` | hotkey.go:77-150 | parsing, printing and parsing again gives the first result |
| `HotkeyText.MaskMeans` | hotkey.go:14-19 | mask 0x1 is set exactly when some piece says alt, 0x2 for ctrl or control, 0x4 for shift, 0x8 for win, super or meta, and no other bit is |
| `HotkeyText.KeyMeans` | hotkey.go:126-139 | the key is what the last key word stands for: A to Z are 0x41 to 0x5A, f1 to f12 (with any zeros before the number) are 0x70 to 0x7B |
| `HotkeyText.FunctionNumberMeans` | hotkey.go:134-138 | the numbers understood are 1 to 12, with any zeros before |
| `HotkeyText.FirstBadRefused` | hotkey.go:111-141 | the first piece that says nothing is refused, a blank one by its position and any other as it is written |
| `HotkeyText.MeaningfulDecides` | hotkey.go:143-149 | otherwise a missing key is noticed before a missing modifier, and all else is accepted |
| `HotkeyText.TrimMeans` | hotkey.go:112 | trimming removes blanks at the two ends, and all of them |
| `HotkeyText.LowerMeans` | hotkey.go:116 | lower-casing turns A to Z into a to z and leaves all else alone |
| `HotkeyText.JoinSplit` | hotkey.go:107 | the pieces are what stands between the plus signs |
| `HotkeyText.PrintMeans` | hotkey.go:77-101 | masks 0x2, 0x1, 0x4 and 0x8 are printed as Ctrl, Alt, Shift and Win, in this order, before the key |
| `HotkeyText.KeyTextMeans` | hotkey.go:92-99 | 0x41 to 0x5A print as their letter, 0x70 to 0x7B as F1 to F12, any other code as VK_0x and its hexadecimal numeral |
| `HotkeyText.HexMeans` | hotkey.go:98 | the numeral is in base sixteen, upper case, without leading zeros |
| `HotkeyText.DefaultStopHotkey` | hotkey.go:73-75 | the default stop hotkey prints as Ctrl+Alt+Shift+S and parses back |
| `HotkeyLaws.SplitJoin` | hotkey.go:100-107 | splitting undoes joining |
| `HotkeyLaws.SameReading` | hotkey.go:103-136 | case and padding do not matter |
| `HotkeyLaws.SameTokens` | hotkey.go:111-141 | with one key named, neither order nor repetition matters |

## Left out

- Browser adapters and driver bodies: a driver call may return any result but errCursorDrift, and does not panic.
- The bodies of `executeCDPOnly` and `scrollViewport`, and how `runJob` maps an error to a status: in the protocol an execution ends in any of Done, Failed and Cancelled.
- Win32 hooks, message pumps and syscalls: an install succeeds or fails, a cursor read gives a position or an error.
- The hotkey listener; a hotkey is a call of Pause, Resume or RequestStop like any other.
- User callbacks and logging, beyond the true-returning calls that fire them; callbacks run outside the lock, so their own order is not claimed.
- `Start` called twice, racing a stop or following one: the protocol has one Start, before any stop request.
- Fewer than one cdp worker: the configuration does not allow it, and Start requires one.
- Clocks and timeouts: a context may be done at any poll; the time a job took and its deadline are not modelled.
- Wrap-around of insertSeq and job ids: they are natural numbers.
- The consumer of a result channel: results stay in the model's channel.
- Snapshot, configuration options, JobStatus.String and the non-Windows fallback: easy or I/O only.
- Progress.WaitReturns: a submission on its way from Submit's checks to the queue counts as a call from outside.
- Dispatchers.Dispatcher.AbortAll: the method is one sequential call; its interleaving with the workers is in Protocol.
- The methods of the class Fleet are sequential calls; how they interleave is in Takeover.
- NativeGuarantees.GuardBound: coordinates and scales are reals, so floating-point rounding and infinities are not modelled.
- Hotkeys.ParseHotkey: ASCII only; Go's case mapping and blanks outside ASCII are not modelled.
- Watchdog.HoldEnds: shows a run that resumes; what every run must do is HoldMustEnd, short of a fair select, which Go does not promise.
- FleetObjects.Fleet.Register: a nil handle and the default for a scale that is not positive are not modelled.
- FleetObjects.Fleet.Submit: the default for a job's timeout is not modelled.
- FleetObjects.Fleet.RequestStop: the OnStop callback is not modelled.
- The misuse panics of sync.WaitGroup: `inflight.Add` from zero (dispatcher.go:102) may race the release of a waiter (dispatcher.go:131), since the Done of completeJob is outside the lock; the model's counter has no such panic.
- cdp workers are anonymous, since `cdpWorker` ignores its index: the pool is counted, not indexed.
