/** The watchdog and the fleet as objects (takeover_watchdog.go, fleet.go), proved
    against the state machines of Watchdog and Takeover. */
module FleetObjects {
  import opened Jobs
  import opened DispatcherCore
  import opened Dispatchers
  import opened Watchdog
  import T = Takeover

  class TakeoverWatchdog {
    const dispatcher: Dispatcher
    const idle: nat
    var now: nat
    var token: bool
    var deadline: Option<nat>     // the armed timer
    var expired: bool             // timer.C holds the expiry
    var paused: bool
    var stopCh: bool              // closed
    var done: bool                // closed
    ghost var moves: seq<nat>
    ghost var calls: seq<CallRecord>

    ghost predicate Valid()
      reads this
    {
      !(expired && deadline.Some?)
    }

    ghost function View(): Dog
      reads this
    {
      var timer := if expired then Fired else if deadline.Some? then Armed(deadline.value) else Disarmed;
      Dog(idle, now, token, timer, paused, stopCh, done, moves, calls)
    }

    constructor (dispatcher: Dispatcher, idle: nat, now: nat)
      ensures Valid() && View() == NewDog(idle, now) && this.dispatcher == dispatcher
    {
      this.dispatcher, this.idle, this.now := dispatcher, idle, now;
      token, deadline, expired, paused, stopCh, done := false, None, false, false, false, false;
      moves, calls := [], [];
    }

    /** Called by the mouse hook: drops a token unless one is there. */
    method NotifyMove()
      requires Valid()
      modifies this`token
      ensures Valid() && View() == DogApply(old(View()), Notify)
    {
      if !token {
        token := true;
      }
    }

    /** timer.Stop: true when it stopped a running timer. */
    method StopTimer() returns (active: bool)
      modifies this`deadline
      ensures active == old(deadline).Some? && deadline == None
    {
      active := deadline.Some?;
      deadline := None;
    }

    /** The loop's `<-w.moves` arm. */
    method HandleMove()
      requires Valid() && dispatcher.Valid() && DogEnabled(View(), OnMove)
      modifies this, dispatcher`pauseReasons
      ensures Valid() && dispatcher.Valid() && View() == AfterMove(old(View()))
      ensures dispatcher.View() == T.AfterCallback(old(dispatcher.View()), old(View()), View())
    {
      token := false;
      moves := moves + [now];
      if !paused {
        var transition := dispatcher.Pause(T.USER_TAKEOVER);
        calls := calls + [CallRecord(CallPause, now, false, |moves|)];
        paused := true;
      }
      Rearm();
    }

    /** Stop, drain, reset: no earlier expiry is left behind. */
    method Rearm()
      requires Valid()
      modifies this`deadline, this`expired
      ensures deadline == Some(now + idle) && !expired
    {
      var active := StopTimer();
      if !active && expired {
        expired := false;
      }
      deadline := Some(now + idle);
    }

    /** The loop's `<-timer.C` arm. */
    method HandleTimer()
      requires Valid() && dispatcher.Valid() && DogEnabled(View(), OnTimer)
      modifies this, dispatcher`pauseReasons, dispatcher`cond
      ensures Valid() && dispatcher.Valid() && View() == AfterTimer(old(View()))
      ensures dispatcher.View() == T.AfterCallback(old(dispatcher.View()), old(View()), View())
    {
      expired := false;
      if paused {
        var transition := dispatcher.Resume(T.USER_TAKEOVER);
        calls := calls + [CallRecord(CallResume, now, true, |moves|)];
        paused := false;
      }
    }

    /** The loop's `<-w.stopCh` arm, and the close of `done` behind it. */
    method HandleStop()
      requires Valid() && dispatcher.Valid() && DogEnabled(View(), OnStop)
      modifies this, dispatcher`pauseReasons, dispatcher`cond
      ensures Valid() && dispatcher.Valid() && View() == AfterExit(old(View()))
      ensures dispatcher.View() == T.AfterCallback(old(dispatcher.View()), old(View()), View())
    {
      var active := StopTimer();
      expired := false;
      if paused {
        var transition := dispatcher.Resume(T.USER_TAKEOVER);
        calls := calls + [CallRecord(CallResume, now, false, |moves|)];
      }
      done := true;
    }

    /** The loop is running, and the dispatcher is held exactly while it is paused. */
    ghost predicate InStep()
      reads this, dispatcher, dispatcher.queue, dispatcher.queue.items
    {
      && Valid() && dispatcher.Valid() && DogInv(View())
      && (T.USER_TAKEOVER in dispatcher.pauseReasons <==> paused && !done)
    }

    /** Whatever the select picks, once stopCh is closed: the loop exits, or it has
        fewer things left to pick. */
    method Turn()
      requires InStep() && stopCh && !done && !dispatcher.stopped
      modifies this, dispatcher`pauseReasons, dispatcher`cond
      ensures InStep() && stopCh
      ensures done || (old(token) && !token) || (token == old(token) && old(expired) && !expired)
      ensures dispatcher.pauseReasons - {T.USER_TAKEOVER} == old(dispatcher.pauseReasons) - {T.USER_TAKEOVER}
      ensures old(!paused && !token) ==> (done || (!paused && !token)) && dispatcher.cond == old(dispatcher.cond)
    {
      if {
        case token => StepDogInv(View(), OnMove); HandleMove();
        case expired => StepDogInv(View(), OnTimer); HandleTimer();
        case true => StepDogInv(View(), OnStop); HandleStop();
      }
    }

    /** Closes stopCh and lets the loop run until it exits; the select may still
        pick a pending move first. Afterwards the takeover reason is not held. */
    method Stop()
      requires Valid() && dispatcher.Valid() && !done && DogInv(View()) && !dispatcher.stopped
      requires T.USER_TAKEOVER in dispatcher.pauseReasons <==> paused
      modifies this, dispatcher`pauseReasons, dispatcher`cond
      ensures Valid() && dispatcher.Valid() && done && DogInv(View())
      ensures dispatcher.pauseReasons == old(dispatcher.pauseReasons) - {T.USER_TAKEOVER}
      ensures dispatcher.View() == old(dispatcher.View()).(reasons := dispatcher.pauseReasons, cond := dispatcher.cond)
      ensures old(T.USER_TAKEOVER !in dispatcher.pauseReasons && !token) ==> dispatcher.cond == old(dispatcher.cond)
    {
      StepDogInv(View(), RequestExit);
      stopCh := true;
      while !done
        invariant InStep() && stopCh
        invariant dispatcher.pauseReasons - {T.USER_TAKEOVER} == old(dispatcher.pauseReasons) - {T.USER_TAKEOVER}
        invariant old(!paused && !token) ==> (done || (!paused && !token)) && dispatcher.cond == old(dispatcher.cond)
        decreases !done, token, expired
      {
        Turn();
      }
    }
  }

  /** `backend` says whether the driver was launched with native input; None when
      there is no driver. */
  datatype BrowserHandle = BrowserHandle(id: string, native: bool, backend: Option<bool>)

  predicate ValidHandle(h: BrowserHandle) {
    h.id != "" && h.backend == Some(h.native)
  }

  /** Some argument that the action needs is missing. */
  predicate Incomplete(a: Action) {
    || ((a.Click? || a.Type? || a.Wait?) && a.selector == "")
    || (a.Type? && a.text == "") || (a.Navigate? && a.url == "") || (a.Wait? && a.timeout <= 0)
  }

  datatype RegisterError = InvalidHandle | AlreadyRegistered

  datatype SubmitError = ActionRequired | InvalidAction | FleetStopped | UnknownBrowser

  class Fleet {
    const dispatcher: Dispatcher
    var handles: map<string, BrowserHandle>
    var nativeCount: int
    var stopped: bool
    var stopRan: bool             // stopOnce
    var watchdog: TakeoverWatchdog?
    var hookInstalled: bool
    var cancelled: bool           // ctx

    /** The registry as Takeover sees it. */
    ghost function Registered(): map<string, bool>
      reads this
    {
      map id | id in handles :: handles[id].native
    }

    ghost predicate Wanted()
      reads this
    {
      (exists id :: id in handles && handles[id].native) && !stopped
    }

    /** The books between calls: the count is exact, a watchdog runs only when it is
        wanted, and the takeover reason is held exactly while it is paused. */
    ghost predicate Valid()
      reads this, dispatcher, dispatcher.queue, dispatcher.queue.items, watchdog
    {
      && nativeCount == |T.Natives(Registered())|
      && dispatcher.Valid()
      && WatchdogSound()
      && (watchdog != null ==> Wanted())
      && (dispatcher.stopped ==> stopped && stopRan)
      && (stopRan <==> stopped)
      && (cancelled ==> dispatcher.stopped)
    }

    ghost predicate WatchdogSound()
      reads this, dispatcher, watchdog
    {
      && (hookInstalled <==> watchdog != null)
      && (watchdog == null ==> T.USER_TAKEOVER !in dispatcher.pauseReasons)
      && (watchdog != null ==>
            && watchdog.dispatcher == dispatcher && watchdog.Valid() && !watchdog.done && DogInv(watchdog.View())
            && !dispatcher.stopped && watchdog.idle == 10_000
            && (T.USER_TAKEOVER in dispatcher.pauseReasons <==> watchdog.paused))
    }

    constructor ()
      ensures Valid() && fresh(dispatcher) && fresh(dispatcher.queue) && handles == map[] && !stopped && watchdog == null
    {
      dispatcher := new Dispatcher();
      handles, nativeCount, stopped, stopRan, watchdog, hookInstalled := map[], 0, false, false, null, false;
      cancelled := false;
    }

    /** Adds a browser. `hookOk` says whether the OS accepts the mouse hook, should it
        be wanted. */
    method Register(h: BrowserHandle, hookOk: bool) returns (error: Option<RegisterError>)
      requires Valid()
      modifies this, watchdog, dispatcher`pauseReasons, dispatcher`cond
      ensures Valid() && stopped == old(stopped) && cancelled == old(cancelled)
      ensures error == Some(InvalidHandle) <==> h.id == "" || h.backend == None || h.backend == Some(!h.native)
      ensures error == if !ValidHandle(h) then Some(InvalidHandle)
                       else if h.id in old(handles) then Some(AlreadyRegistered) else None
      ensures handles == if error.None? then old(handles)[h.id := h] else old(handles)
      ensures error.None? && hookOk ==> (watchdog != null <==> Wanted())
      ensures error.Some? ==> watchdog == old(watchdog) && dispatcher.View() == old(dispatcher.View())
      ensures dispatcher.pauseReasons - {T.USER_TAKEOVER} == old(dispatcher.pauseReasons) - {T.USER_TAKEOVER}
    {
      if h.id == "" || h.backend.None? || h.backend.value != h.native {
        return Some(InvalidHandle);
      }
      if h.id in handles {
        return Some(AlreadyRegistered);
      }
      ghost var before := Registered();
      handles := handles[h.id := h];
      assert Registered() == before[h.id := h.native];
      T.NativesPlus(before, h.id, h.native);
      if h.native {
        nativeCount := nativeCount + 1;
      }
      Reconcile(hookOk);
      return None;
    }

    /** Removes a browser; false when the id is unknown. */
    method Unregister(id: string, hookOk: bool) returns (ok: bool)
      requires Valid()
      modifies this, watchdog, dispatcher`pauseReasons, dispatcher`cond
      ensures Valid() && stopped == old(stopped) && cancelled == old(cancelled)
      ensures ok <==> id in old(handles)
      ensures handles == old(handles) - {id}
      ensures ok && hookOk ==> (watchdog != null <==> Wanted())
      ensures dispatcher.pauseReasons - {T.USER_TAKEOVER} == old(dispatcher.pauseReasons) - {T.USER_TAKEOVER}
    {
      if id !in handles {
        assert handles - {id} == handles;
        return false;
      }
      var h := handles[id];
      ghost var before := Registered();
      handles := handles - {id};
      assert Registered() == before - {id};
      T.NativesMinus(before, id);
      if h.native && nativeCount > 0 {
        nativeCount := nativeCount - 1;
      }
      Reconcile(hookOk);
      return true;
    }

    /** Installs or removes the watchdog to match the count. */
    method Reconcile(hookOk: bool)
      requires nativeCount == |T.Natives(Registered())| && dispatcher.Valid() && WatchdogSound()
      requires (dispatcher.stopped ==> stopped && stopRan) && (stopRan <==> stopped) && (cancelled ==> dispatcher.stopped)
      modifies this`watchdog, this`hookInstalled, watchdog, dispatcher`pauseReasons, dispatcher`cond
      ensures Valid() && (hookOk ==> (watchdog != null <==> Wanted()))
      ensures dispatcher.pauseReasons - {T.USER_TAKEOVER} == old(dispatcher.pauseReasons) - {T.USER_TAKEOVER}
      ensures dispatcher.View() == old(dispatcher.View()).(reasons := dispatcher.pauseReasons, cond := dispatcher.cond)
    {
      var want := nativeCount > 0 && !stopped;
      T.NativesExist(Registered());
      assert forall id :: id in Registered() && Registered()[id] <==> id in handles && handles[id].native;
      assert want <==> Wanted();
      if want && watchdog == null {
        StartTakeover(hookOk);
      } else if !want && watchdog != null {
        StopTakeover();
      }
    }

    method StartTakeover(hookOk: bool)
      requires watchdog == null && dispatcher.Valid() && WatchdogSound() && !dispatcher.stopped
      modifies this`watchdog, this`hookInstalled, dispatcher`pauseReasons, dispatcher`cond
      ensures WatchdogSound() && dispatcher.Valid() && (watchdog != null <==> hookOk)
      ensures watchdog != null ==> fresh(watchdog) && watchdog.idle == 10_000 && !watchdog.paused && watchdog.deadline == None
      ensures dispatcher.View() == old(dispatcher.View())
    {
      var w := new TakeoverWatchdog(dispatcher, T.TAKEOVER_IDLE, 0);
      if !hookOk {
        w.Stop();
        return;
      }
      watchdog := w;
      hookInstalled := true;
    }

    /** Removes the hook, then waits for the watchdog's loop to exit. */
    method StopTakeover()
      requires watchdog != null && dispatcher.Valid() && WatchdogSound()
      modifies this`watchdog, this`hookInstalled, watchdog, dispatcher`pauseReasons, dispatcher`cond
      ensures WatchdogSound() && dispatcher.Valid() && watchdog == null
      ensures dispatcher.pauseReasons == old(dispatcher.pauseReasons) - {T.USER_TAKEOVER}
      ensures dispatcher.View() == old(dispatcher.View()).(reasons := dispatcher.pauseReasons, cond := dispatcher.cond)
    {
      hookInstalled := false;
      watchdog.Stop();
      watchdog := null;
    }

    /** Queues a job with a valid action for a registered browser, unless the fleet is
        stopped. */
    method Submit(browser: string, action: Option<Action>, priority: int)
      returns (res: ResultChannel?, error: Option<SubmitError>)
      requires Valid()
      modifies dispatcher, dispatcher.queue, dispatcher.queue.items
      ensures Valid() && (res == null <==> error.Some?)
      ensures error == if action.None? then Some(ActionRequired)
                       else if !ValidAction(action.value) then Some(InvalidAction)
                       else if stopped then Some(FleetStopped)
                       else if browser !in handles then Some(UnknownBrowser) else None
      ensures error == Some(InvalidAction) <==> action.Some? && Incomplete(action.value)
      ensures error.Some? ==> dispatcher.View() == old(dispatcher.View())
      ensures error.None? ==>
        dispatcher.View() == EnqueueCore(old(dispatcher.View()), Job(browser, action.value, priority))
      ensures res != null ==> fresh(res) && res.View() == FRESH_CHAN
    {
      if action.None? {
        return null, Some(ActionRequired);
      }
      if !ValidAction(action.value) {
        return null, Some(InvalidAction);
      }
      if stopped {
        return null, Some(FleetStopped);
      }
      if browser !in handles {
        return null, Some(UnknownBrowser);
      }
      var rejecting;
      res, rejecting := dispatcher.Enqueue(Job(browser, action.value, priority));
      assert !rejecting;
      error := None;
    }

    /** The one way down. Whoever comes first tears the watchdog down and only then
        stops the dispatcher, so the takeover reason cannot outlive the stop. */
    method RequestStop()
      requires Valid() && (dispatcher.cdpJobs != null ==> !dispatcher.cdpJobs.closed)
      modifies this, watchdog, dispatcher, dispatcher.queue, dispatcher.cdpJobs,
               set q | q in dispatcher.queue.items :: q.result
      ensures Valid() && stopped && watchdog == null && !hookInstalled && handles == old(handles)
      ensures T.USER_TAKEOVER !in dispatcher.pauseReasons
      ensures old(stopRan) ==> dispatcher.View() == old(dispatcher.View()) && cancelled == old(cancelled)
      ensures !old(stopRan) ==>
        && cancelled && dispatcher.stopped && dispatcher.queue.items == [] && dispatcher.cdpJobs == null
        && dispatcher.pauseReasons == old(dispatcher.pauseReasons) - {T.USER_TAKEOVER}
        && forall q <- old(dispatcher.queue.items) :: q.result.View() == Deliver(old(q.result.View()), Cancelled)
    {
      if !stopRan {
        StopOnce();
      }
    }

    /** What stopOnce guards. */
    method StopOnce()
      requires Valid() && !stopRan && (dispatcher.cdpJobs != null ==> !dispatcher.cdpJobs.closed)
      modifies this, watchdog, dispatcher, dispatcher.queue, dispatcher.cdpJobs,
               set q | q in dispatcher.queue.items :: q.result
      ensures Valid() && stopped && watchdog == null && handles == old(handles)
      ensures cancelled && dispatcher.stopped && dispatcher.queue.items == [] && dispatcher.cdpJobs == null
      ensures dispatcher.pauseReasons == old(dispatcher.pauseReasons) - {T.USER_TAKEOVER}
      ensures forall q <- old(dispatcher.queue.items) :: q.result.View() == Deliver(old(q.result.View()), Cancelled)
    {
      stopRan := true;
      stopped := true;
      Reconcile(true);
      dispatcher.AbortAll();
      cancelled := true;
    }
  }
}
