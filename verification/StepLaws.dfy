/** What single steps of the protocol mean for a job, for its submitter and for the
    callers, in terms of the browser it names and the result it gets. */
module StepLaws {
  import opened Jobs
  import opened DispatcherCore
  import opened Protocol
  import opened Delivery
  import opened Invariant
  import opened Guarantees

  /** The submitter of job t gets exactly this result, and the channel is closed. */
  predicate Gets(s: State, t: nat, st: Status) {
    t < |s.chans| && s.chans[t].sent == [st] && s.chans[t].closed
  }

  /** No other channel is touched. */
  predicate OnlyChannel(s: State, s': State, t: nat) {
    |s'.chans| == |s.chans| && forall u :: 0 <= u < |s.chans| && u != t ==> s'.chans[u] == s.chans[u]
  }

  /** A job in some hand has had no result yet. */
  lemma OpenIsFresh(s: State, t: nat)
    requires Accounted(s) && t in PlacesOf(s).Open()
    ensures t < |s.chans| == |s.core.jobs| && s.chans[t] == FRESH_CHAN
  {
  }

  lemma HeldIsFresh(s: State)
    requires Reachable(s) && HasJob(s.native) && !s.native.Settling?
    ensures s.native.job < |s.chans| == |s.core.jobs| && s.chans[s.native.job] == FRESH_CHAN
  {
    ReachableInv(s);
    assert s.native.job in PlacesOf(s).hand;
    OpenIsFresh(s, s.native.job);
  }

  lemma PooledIsFresh(s: State, t: nat)
    requires Reachable(s) && (t in s.pool.fetched || t in s.pool.running)
    ensures t < |s.chans| == |s.core.jobs| && s.chans[t] == FRESH_CHAN
  {
    ReachableInv(s);
    OpenIsFresh(s, t);
  }

  lemma PendingIsFresh(s: State, t: nat)
    requires Reachable(s) && s.stopper.Cancelling? && t in s.stopper.pending
    ensures t < |s.chans| == |s.core.jobs| && s.chans[t] == FRESH_CHAN
  {
    ReachableInv(s);
    assert t in PlacesOf(s).pending;
    OpenIsFresh(s, t);
  }

  // ----- routing -----------------------------------------------------------------------

  /** A job is taken by the native worker exactly when it is a click, a text or a
      navigation and the browser it names is registered as native; every other job is
      bound for the pool. */
  lemma RouteDecides(s: State)
    requires Reachable(s) && Can(s, OnNative(Route))
    ensures s.native.Holding? && s.native.job < |s.core.jobs|
    ensures var job, handles := s.core.jobs[s.native.job], s.registry.handles;
      var native := (job.action.Click? || job.action.Type? || job.action.Navigate?)
                    && job.browser in handles && handles[job.browser].native;
      Apply(s, OnNative(Route)).native == if native then Entering(s.native.job) else CdpBound(s.native.job)
    ensures var id, handles := s.core.jobs[s.native.job].browser, s.registry.handles;
      Apply(s, OnNative(Route)).log.routedBy
      == s.log.routedBy[s.native.job := if id in handles then Some(handles[id]) else None]
  {
    assert WellFormed(s) by { ReachableInv(s); }
    assert Apply(s, OnNative(Route)) == AfterRoute(s, s.native.job);
  }

  /** The native worker executes its job with the handle of the browser that the job
      names, or fails the job if that is gone. */
  lemma EnterDecides(s: State)
    requires Reachable(s) && Can(s, OnNative(Enter))
    ensures s.native.Entering? && s.native.job < |s.core.jobs|
    ensures var t, s' := s.native.job, Apply(s, OnNative(Enter));
      var id := s.core.jobs[t].browser;
      OnlyChannel(s, s', t)
      && if id in s.registry.handles
         then s'.native == Running(t) && s'.log.ranWith == s.log.ranWith[t := s.registry.handles[id]] && s'.chans == s.chans
         else s'.native == Settling(t) && s'.log.ranWith == s.log.ranWith && Gets(s', t, Failed)
  {
    HeldIsFresh(s);
    assert Apply(s, OnNative(Enter)) == AfterEnter(s, s.native.job);
  }

  /** And so does a cdp worker. */
  lemma LookUpDecides(s: State, t: nat)
    requires Reachable(s) && Can(s, OnPool(LookUp(t)))
    ensures t in s.pool.fetched && t < |s.core.jobs|
    ensures var s' := Apply(s, OnPool(LookUp(t)));
      var id := s.core.jobs[t].browser;
      OnlyChannel(s, s', t) && s'.pool.fetched == s.pool.fetched - {t}
      && if id in s.registry.handles
         then s'.pool.running == s.pool.running + {t} && s'.log.ranWith == s.log.ranWith[t := s.registry.handles[id]]
              && s'.chans == s.chans
         else s'.pool.running == s.pool.running && s'.log.ranWith == s.log.ranWith && Gets(s', t, Failed)
  {
    PooledIsFresh(s, t);
    assert Apply(s, OnPool(LookUp(t))) == AfterLookup(s, t);
  }

  /** The native worker takes a job while nothing holds the fleet paused: the one of the
      highest priority, and among those the one submitted first. */
  lemma TakeDecides(s: State, t: nat)
    requires Reachable(s) && Can(s, OnNative(TakeTurn(Take(t))))
    ensures s.core.reasons == {} && t in s.core.queue && t < |s.core.jobs|
    ensures forall u <- s.core.queue :: u < |s.core.jobs| && s.core.jobs[u].priority <= s.core.jobs[t].priority
    ensures forall u <- s.core.queue :: s.core.jobs[u].priority == s.core.jobs[t].priority ==> t <= u
    ensures var s' := Apply(s, OnNative(TakeTurn(Take(t))));
      && s'.native == Holding(t) && s'.core.queue == s.core.queue - {t}
      && s'.log.pops == s.log.pops + [Pop(t, |s.core.jobs|)] && s'.core.jobs == s.core.jobs
  {
    NoPopWhilePaused(s, t);
    assert IsNext(s.core.jobs, s.core.queue, t);
    assert Apply(s, OnNative(TakeTurn(Take(t)))) == AfterTurn(s, Take(t));
  }

  // ----- results -----------------------------------------------------------------------

  /** The result of an execution is what the submitter gets: from the native worker ... */
  lemma FinishRunDelivers(s: State, st: Status)
    requires Reachable(s) && Can(s, OnNative(FinishRun(st)))
    ensures s.native.Running? && st in {Done, Failed, Cancelled}
    ensures var s' := Apply(s, OnNative(FinishRun(st))); Gets(s', s.native.job, st) && OnlyChannel(s, s', s.native.job)
  {
    HeldIsFresh(s);
  }

  /** ... and from a cdp worker. */
  lemma FinishDelivers(s: State, t: nat, st: Status)
    requires Reachable(s) && Can(s, OnPool(Finish(t, st)))
    ensures t in s.pool.running && st in {Done, Failed, Cancelled}
    ensures var s' := Apply(s, OnPool(Finish(t, st))); Gets(s', t, st) && OnlyChannel(s, s', t)
  {
    PooledIsFresh(s, t);
  }

  /** A job that the stop drained is cancelled. */
  lemma CancelPendingDelivers(s: State, t: nat)
    requires Reachable(s) && Can(s, OnStop(CancelPending(t)))
    ensures s.core.stopped
    ensures var s' := Apply(s, OnStop(CancelPending(t))); Gets(s', t, Cancelled) && OnlyChannel(s, s', t)
  {
    assert s.core.stopped by { ReachableInv(s); }
    PendingIsFresh(s, t);
    assert Apply(s, OnStop(CancelPending(t))) == AfterCancel(s, t);
  }

  /** A job that the native worker could not forward is cancelled, and only once the
      stop has cancelled the context. */
  lemma CancelForwardDelivers(s: State)
    requires Reachable(s) && Can(s, OnNative(CancelForward))
    ensures s.native.Selecting? || s.native.Parked?
    ensures s.stopper.Finished?
    ensures var s' := Apply(s, OnNative(CancelForward));
      Gets(s', s.native.job, Cancelled) && OnlyChannel(s, s', s.native.job)
  {
    assert s.stopper.Finished? by { ReachableInv(s); }
    HeldIsFresh(s);
    assert Apply(s, OnNative(CancelForward)) == AfterNativeFinish(s, s.native.job, Cancelled);
    NativeFinishGets(s, s.native.job, Cancelled);
  }

  lemma NativeFinishGets(s: State, t: nat, st: Status)
    requires t < |s.chans| && s.chans[t] == FRESH_CHAN
    ensures Gets(AfterNativeFinish(s, t, st), t, st) && OnlyChannel(s, AfterNativeFinish(s, t, st), t)
  {
  }

  /** A refused submission is rejected. */
  lemma RejectDelivers(s: State, k: nat)
    requires Reachable(s) && Can(s, DeliverReject(k))
    ensures k < |s.refused| && s.core.stopped
    ensures var s' := Apply(s, DeliverReject(k));
      k < |s'.refused| && s'.refused[k].sent == [Rejected] && s'.refused[k].closed && s'.chans == s.chans
  {
    ReachableInv(s);
  }

  // ----- calls -------------------------------------------------------------------------

  /** An action that a submission may carry. */
  predicate Complete(a: Action) {
    && (a.Click? ==> a.selector != "") && (a.Type? ==> a.selector != "" && a.text != "")
    && (a.Navigate? ==> a.url != "") && (a.Wait? ==> a.selector != "" && a.timeout > 0)
  }

  /** Which submissions are let through. */
  lemma SubmitGuard(s: State, j: Job)
    requires Reachable(s) && !s.crashed
    ensures Can(s, Outside(Submit(j))) <==> Complete(j.action) && !s.fleetStopped && j.browser in s.registry.handles
  {
    ReachableInv(s);
  }

  /** Which other calls are let through: pausing and resuming always, a registration of a
      free id, an unregistration of a taken one, and one request to stop. */
  lemma CallGuards(s: State, id: string, isNative: bool, r: string)
    requires Reachable(s) && !s.crashed
    ensures Can(s, Outside(Pause(r))) && Can(s, Outside(Resume(r)))
    ensures Can(s, Outside(Register(id, isNative))) <==> id != "" && id !in s.registry.handles
    ensures Can(s, Outside(Unregister(id))) <==> id in s.registry.handles
    ensures Can(s, Outside(RequestStop)) <==> !s.fleetStopped
    ensures Can(s, Outside(RequestStop)) ==> Apply(s, Outside(RequestStop)).fleetStopped
  {
    assert WellFormed(s) && StopperControl(s) by { ReachableInv(s); }
  }

  /** An execution may end in any result but Rejected, on either side. */
  lemma AnyResult(s: State, t: nat, st: Status)
    requires Reachable(s) && !s.crashed
    ensures Can(s, OnNative(FinishRun(st))) <==> s.native.Running? && st in {Done, Failed, Cancelled}
    ensures Can(s, OnPool(Finish(t, st))) <==> t in s.pool.running && st in {Done, Failed, Cancelled}
  {
    assert WellFormed(s) by { ReachableInv(s); }
  }

  /** An arrival is queued as it was submitted, behind all earlier ones of its priority,
      or it is refused once the dispatcher has stopped. */
  lemma ArriveDecides(s: State, j: Job)
    requires Reachable(s) && Can(s, Outside(Arrive(j)))
    ensures var s', n := Apply(s, Outside(Arrive(j))), |s.core.jobs|;
      s'.arriving == s.arriving - multiset{j} &&
      if s.core.stopped
      then s'.core == s.core && s'.chans == s.chans && s'.refused == s.refused + [Chan([], false, 0)]
           && s'.rejecting == s.rejecting + {|s.refused|}
      else s'.core.jobs == s.core.jobs + [j] && s'.core.queue == s.core.queue + {n} && s'.core.reasons == s.core.reasons
           && s'.chans == s.chans + [Chan([], false, 0)] && s'.core.inflight == s.core.inflight + 1
           && s'.refused == s.refused
  {
  }

  /** A submission that is let through reaches the queue's lock. */
  lemma SubmitArrives(s: State, j: Job)
    requires Can(s, Outside(Submit(j)))
    ensures Can(Apply(s, Outside(Submit(j))), Outside(Arrive(j)))
    ensures Apply(s, Outside(Submit(j))) == s.(arriving := s.arriving + multiset{j})
  {
  }

  /** Pausing and resuming change exactly the reason they name, until the stop. */
  lemma PauseNames(s: State, r: string)
    requires Can(s, Outside(Pause(r))) && Can(s, Outside(Resume(r)))
    ensures Apply(s, Outside(Pause(r))).core.reasons == if s.core.stopped then s.core.reasons else s.core.reasons + {r}
    ensures Apply(s, Outside(Resume(r))).core.reasons == if s.core.stopped then s.core.reasons else s.core.reasons - {r}
  {
  }

  /** A registered browser is what it was registered as, under the next number; no
      other id is touched. */
  lemma RegisterNames(s: State, id: string, isNative: bool)
    requires Reachable(s) && Can(s, Outside(Register(id, isNative)))
    ensures id != "" && id !in s.registry.handles
    ensures var handles := Apply(s, Outside(Register(id, isNative))).registry.handles;
      && Apply(s, Outside(Register(id, isNative))).registry.registrations == s.registry.registrations + 1
      && handles.Keys == s.registry.handles.Keys + {id} && handles[id] == Handle(isNative, s.registry.registrations)
      && forall other <- s.registry.handles :: handles[other] == s.registry.handles[other]
  {
  }

  lemma UnregisterNames(s: State, id: string)
    requires Reachable(s) && Can(s, Outside(Unregister(id)))
    ensures Apply(s, Outside(Unregister(id))).registry.handles.Keys == s.registry.handles.Keys - {id}
    ensures forall other <- Apply(s, Outside(Unregister(id))).registry.handles ::
      Apply(s, Outside(Unregister(id))).registry.handles[other] == s.registry.handles[other]
  {
  }

  /** Start makes one native worker and as many cdp workers as were configured, on an
      open channel; it works once, and not after a stop was requested. */
  lemma StartSpawns(s: State, n: nat)
    requires Reachable(s) && !s.crashed && n > 0
    ensures Can(s, Outside(Start(n))) <==> !s.started && !s.fleetStopped
    ensures Can(s, Outside(Start(n))) ==>
      var s' := Apply(s, Outside(Start(n)));
      s'.started && s'.native == Checking && s'.pool == Pool(n, 0, {}, {}, {}, 0, 0) && s'.cdp == CdpChannel(true, [], 0)
  {
    ReachableInv(s);
    assert s.pool.Workers() == 0 ==> |s.pool.fetched| == |s.pool.running| == |s.pool.settling| == 0;
  }

  /** The channel holds at most 64 jobs, and a worker blocked in a send finds it full. */
  lemma ChannelHolds64(s: State)
    requires Reachable(s)
    ensures |s.cdp.buffer| <= 64
    ensures s.native.Parked? && s.native.ch ==> |s.cdp.buffer| == 64 && s.cdp.closes == 0
    ensures !s.crashed && s.native.Selecting? && s.native.ch && s.cdp.closes == 0 ==>
      (Can(s, OnNative(Send)) <==> |s.cdp.buffer| < 64)
  {
    assert WellFormed(s) && NativeControl(s) by { ReachableInv(s); }
  }
}
