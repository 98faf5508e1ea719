/** Reachable states that show what the protocol does not guarantee. */
module Scenarios {
  import opened Jobs
  import opened DispatcherCore
  import opened Protocol
  import opened Delivery
  import opened Invariant
  import opened Guarantees
  import opened Progress
  import opened Crash
  import opened Routing

  const ID := "a"
  const CLICK := Job(ID, Click("#go"), 0)
  const REMOTE := Handle(false, 0)
  const NATIVE := Handle(true, 1)

  lemma NewReachable()
    ensures Reachable(NEW_STATE)
  {
    assert ValidRun(NEW_STATE, []) && Final(NEW_STATE, []) == NEW_STATE;
  }

  lemma Go(s: State, step: Step, s': State)
    requires Reachable(s) && Can(s, step) && s' == Apply(s, step)
    ensures Reachable(s')
  {
    ReachableStep(s, step);
  }

  lemma StartedWithBrowser() returns (s: State)
    ensures Reachable(s)
    ensures s == NEW_STATE.(
      started := true, cdp := CdpChannel(true, [], 0), native := Checking, pool := Pool(1, 0, {}, {}, {}, 0, 0),
      registry := Registry(map[ID := REMOTE], 1))
  {
    NewReachable();
    var s1 := NEW_STATE.(registry := Registry(map[ID := REMOTE], 1));
    Go(NEW_STATE, Outside(Register(ID, false)), s1);
    s := s1.(started := true, cdp := CdpChannel(true, [], 0), native := Checking, pool := Pool(1, 0, {}, {}, {}, 0, 0));
    Go(s1, Outside(Start(1)), s);
  }

  /** One cdp worker, not at its range loop yet, and a click on a remote browser. */
  lemma ClickSubmitted() returns (s: State)
    ensures Reachable(s)
    ensures s == NEW_STATE.(
      core := Core([CLICK], {0}, false, {}, 1, NoWaiter), chans := [FRESH_CHAN], started := true,
      cdp := CdpChannel(true, [], 0), native := Checking, pool := Pool(1, 0, {}, {}, {}, 0, 0),
      registry := Registry(map[ID := REMOTE], 1))
  {
    var s2 := StartedWithBrowser();
    var arriving := s2.(arriving := multiset{CLICK});
    Go(s2, Outside(Submit(CLICK)), arriving);
    s := s2.(core := Core([CLICK], {0}, false, {}, 1, NoWaiter), chans := [FRESH_CHAN]);
    assert {} + {|s2.core.jobs|} == {0} && multiset{CLICK} - multiset{CLICK} == multiset{};
    Go(arriving, Outside(Arrive(CLICK)), s);
  }

  /** The native worker has just popped it. */
  lemma ClickPopped() returns (s: State)
    ensures Reachable(s)
    ensures s == NEW_STATE.(
      core := Core([CLICK], {}, false, {}, 1, NoWaiter), chans := [FRESH_CHAN], started := true,
      cdp := CdpChannel(true, [], 0), native := Holding(0), pool := Pool(1, 0, {}, {}, {}, 0, 0),
      registry := Registry(map[ID := REMOTE], 1), log := Log(map[], map[], [Pop(0, 1)], [], 0))
  {
    var s3 := ClickSubmitted();
    s := s3.(core := s3.core.(queue := {}), native := Holding(0), log := Log(map[], map[], [Pop(0, 1)], [], 0));
    assert {0} - {0} == {};
    Go(s3, OnNative(TakeTurn(Take(0))), s);
  }

  /** The same, routed to the pool. */
  lemma ClickRouted() returns (s: State)
    ensures Reachable(s)
    ensures s == NEW_STATE.(
      core := Core([CLICK], {}, false, {}, 1, NoWaiter), chans := [FRESH_CHAN], started := true,
      cdp := CdpChannel(true, [], 0), native := CdpBound(0), pool := Pool(1, 0, {}, {}, {}, 0, 0),
      registry := Registry(map[ID := REMOTE], 1), log := Log(map[0 := Some(REMOTE)], map[], [Pop(0, 1)], [], 0))
  {
    var s0 := ClickPopped();
    s := s0.(native := CdpBound(0), log := s0.log.(routedBy := map[0 := Some(REMOTE)]));
    Go(s0, OnNative(Route), s);
  }

  /** And waiting in the channel. */
  lemma ClickInChannel() returns (s: State)
    ensures Reachable(s)
    ensures s == NEW_STATE.(
      core := Core([CLICK], {}, false, {}, 1, NoWaiter), chans := [FRESH_CHAN], started := true,
      cdp := CdpChannel(true, [0], 0), native := Checking, pool := Pool(1, 0, {}, {}, {}, 0, 0),
      registry := Registry(map[ID := REMOTE], 1), log := Log(map[0 := Some(REMOTE)], map[], [Pop(0, 1)], [0], 0))
  {
    var s1 := ClickRouted();
    var s2 := s1.(native := Selecting(0, true));
    Go(s1, OnNative(ReadChannel), s2);
    s := s2.(cdp := CdpChannel(true, [0], 0), native := Checking, log := s2.log.(forwarded := [0]));
    Go(s2, OnNative(Send), s);
  }

  /** A cdp worker has received the click, and not looked its handle up yet. */
  lemma ClickReceived() returns (s: State)
    ensures Reachable(s)
    ensures s == NEW_STATE.(
      core := Core([CLICK], {}, false, {}, 1, NoWaiter), chans := [FRESH_CHAN], started := true,
      cdp := CdpChannel(true, [], 0), native := Checking, pool := Pool(0, 0, {0}, {}, {}, 0, 0),
      registry := Registry(map[ID := REMOTE], 1), log := Log(map[0 := Some(REMOTE)], map[], [Pop(0, 1)], [0], 1))
  {
    var s0 := ClickInChannel();
    var s1 := s0.(pool := Pool(0, 1, {}, {}, {}, 0, 0));
    Go(s0, OnPool(Begin), s1);
    s := s1.(cdp := CdpChannel(true, [], 0), pool := Pool(0, 0, {0}, {}, {}, 0, 0), log := s1.log.(received := 1));
    assert {} + {s1.cdp.buffer[0]} == {0};
    Go(s1, OnPool(Receive), s);
  }

  /** Meanwhile its id is registered anew, for a native browser. */
  lemma IdRegisteredAnew() returns (s: State)
    ensures Reachable(s)
    ensures s == NEW_STATE.(
      core := Core([CLICK], {}, false, {}, 1, NoWaiter), chans := [FRESH_CHAN], started := true,
      cdp := CdpChannel(true, [], 0), native := Checking, pool := Pool(0, 0, {0}, {}, {}, 0, 0),
      registry := Registry(map[ID := NATIVE], 2), log := Log(map[0 := Some(REMOTE)], map[], [Pop(0, 1)], [0], 1))
  {
    var s2 := ClickReceived();
    var s3 := s2.(registry := Registry(map[], 1));
    assert s2.registry.handles - {ID} == map[];
    Go(s2, Outside(Unregister(ID)), s3);
    s := s3.(registry := Registry(map[ID := NATIVE], 2));
    Go(s3, Outside(Register(ID, true)), s);
  }

  /** And the cdp worker looks it up: it drives a native browser. */
  lemma ClickOnPool() returns (s: State)
    ensures Reachable(s)
    ensures s == NEW_STATE.(
      core := Core([CLICK], {}, false, {}, 1, NoWaiter), chans := [FRESH_CHAN], started := true,
      cdp := CdpChannel(true, [], 0), native := Checking, pool := Pool(0, 0, {}, {0}, {}, 0, 0),
      registry := Registry(map[ID := NATIVE], 2),
      log := Log(map[0 := Some(REMOTE)], map[0 := NATIVE], [Pop(0, 1)], [0], 1))
  {
    var s4 := IdRegisteredAnew();
    s := s4.(pool := Pool(0, 0, {}, {0}, {}, 0, 0), log := s4.log.(ranWith := map[0 := NATIVE]));
    assert {0} - {0} == {} && {} + {0} == {0};
    Go(s4, OnPool(LookUp(0)), s);
  }

  /** Re-registering an id between routing and execution lets a native click run
      on the pool, outside the native worker. */
  lemma ReRegistrationEscapes() returns (s: State)
    ensures Reachable(s) && 0 in s.pool.running && |s.core.jobs| == 1 && 0 in s.log.ranWith && NativeInput(s, 0)
  {
    s := ClickOnPool();
  }

  /** A second click on the same browser meanwhile. */
  lemma SecondSubmitted() returns (s: State)
    ensures Reachable(s)
    ensures s == NEW_STATE.(
      core := Core([CLICK, CLICK], {1}, false, {}, 2, NoWaiter), chans := [FRESH_CHAN, FRESH_CHAN], started := true,
      cdp := CdpChannel(true, [], 0), native := Checking, pool := Pool(0, 0, {}, {0}, {}, 0, 0),
      registry := Registry(map[ID := NATIVE], 2),
      log := Log(map[0 := Some(REMOTE)], map[0 := NATIVE], [Pop(0, 1)], [0], 1))
  {
    var s0 := ClickOnPool();
    var arriving := s0.(arriving := multiset{CLICK});
    Go(s0, Outside(Submit(CLICK)), arriving);
    s := s0.(core := Core([CLICK, CLICK], {1}, false, {}, 2, NoWaiter), chans := [FRESH_CHAN, FRESH_CHAN]);
    assert {} + {|s0.core.jobs|} == {1} && multiset{CLICK} - multiset{CLICK} == multiset{};
    assert [CLICK] + [CLICK] == [CLICK, CLICK] && [FRESH_CHAN] + [FRESH_CHAN] == [FRESH_CHAN, FRESH_CHAN];
    Go(arriving, Outside(Arrive(CLICK)), s);
  }

  lemma SecondPopped() returns (s: State)
    ensures Reachable(s)
    ensures s == NEW_STATE.(
      core := Core([CLICK, CLICK], {}, false, {}, 2, NoWaiter), chans := [FRESH_CHAN, FRESH_CHAN], started := true,
      cdp := CdpChannel(true, [], 0), native := Holding(1), pool := Pool(0, 0, {}, {0}, {}, 0, 0),
      registry := Registry(map[ID := NATIVE], 2),
      log := Log(map[0 := Some(REMOTE)], map[0 := NATIVE], [Pop(0, 1), Pop(1, 2)], [0], 1))
  {
    var s0 := SecondSubmitted();
    s := s0.(core := s0.core.(queue := {}), native := Holding(1), log := s0.log.(pops := [Pop(0, 1), Pop(1, 2)]));
    assert {1} - {1} == {} && [Pop(0, 1)] + [Pop(1, 2)] == [Pop(0, 1), Pop(1, 2)];
    Go(s0, OnNative(TakeTurn(Take(1))), s);
  }

  /** The native worker executes the second click, which it routed by the native handle,
      while the pool executes the first: two clicks on one native browser at once. */
  lemma NativeInputsOverlap() returns (s: State)
    ensures Reachable(s) && |s.core.jobs| == 2 && 0 in s.log.ranWith && 1 in s.log.ranWith
    ensures Executing(s, 0) && NativeInput(s, 0) && Executing(s, 1) && NativeInput(s, 1)
    ensures RoutedByNative(s, 1) && !RoutedByNative(s, 0) && s.log.ranWith[0] == s.log.ranWith[1]
  {
    var s0 := SecondPopped();
    var s1 := s0.(native := Entering(1), log := s0.log.(routedBy := s0.log.routedBy[1 := Some(NATIVE)]));
    Go(s0, OnNative(Route), s1);
    s := s1.(native := Running(1), log := s1.log.(ranWith := s1.log.ranWith[1 := NATIVE]));
    Go(s1, OnNative(Enter), s);
  }

  lemma StopRequestedIdle() returns (s: State)
    ensures Reachable(s)
    ensures s == NEW_STATE.(
      core := Core([CLICK], {}, false, {}, 1, Waiting), chans := [FRESH_CHAN], started := true,
      cdp := CdpChannel(true, [0], 0), fleetStopped := true, stopper := TearingDown,
      native := Asleep, pool := Pool(1, 0, {}, {}, {}, 0, 0),
      registry := Registry(map[ID := REMOTE], 1), log := Log(map[0 := Some(REMOTE)], map[], [Pop(0, 1)], [0], 0))
  {
    var s0 := ClickInChannel();
    var s1 := s0.(core := s0.core.(cond := Waiting), native := Asleep);
    Go(s0, OnNative(TakeTurn(Sleep)), s1);
    s := s1.(fleetStopped := true, stopper := TearingDown);
    Go(s1, Outside(RequestStop), s);
  }

  lemma StopClearedEarly() returns (s: State)
    ensures Reachable(s)
    ensures s == NEW_STATE.(
      core := Core([CLICK], {}, true, {}, 1, Woken), chans := [FRESH_CHAN], started := true,
      cdp := CdpChannel(false, [0], 1), fleetStopped := true, stopper := Revoking,
      native := Asleep, pool := Pool(1, 0, {}, {}, {}, 0, 0),
      registry := Registry(map[ID := REMOTE], 1), log := Log(map[0 := Some(REMOTE)], map[], [Pop(0, 1)], [0], 0))
  {
    var s2 := StopRequestedIdle();
    var s3 := s2.(core := s2.core.(stopped := true, cond := Woken), stopper := Stopper.Cancelling({}));
    Go(s2, OnStop(BeginAbort), s3);
    var s4 := s3.(cdp := CdpChannel(true, [0], 1), stopper := Clearing);
    Go(s3, OnStop(CloseChannel), s4);
    s := s4.(cdp := CdpChannel(false, [0], 1), stopper := Revoking);
    Go(s4, OnStop(ClearChannel), s);
  }

  /** The context is cancelled, and the cdp worker ranges over nil. */
  lemma WorkerStranded() returns (s: State)
    ensures Reachable(s)
    ensures s == NEW_STATE.(
      core := Core([CLICK], {}, true, {}, 1, Woken), chans := [FRESH_CHAN], started := true,
      cdp := CdpChannel(false, [0], 1), fleetStopped := true, ctxDone := true, stopper := Finished,
      native := Asleep, pool := Pool(0, 0, {}, {}, {}, 0, 1),
      registry := Registry(map[ID := REMOTE], 1), log := Log(map[0 := Some(REMOTE)], map[], [Pop(0, 1)], [0], 0))
  {
    var s5 := StopClearedEarly();
    var s6 := s5.(ctxDone := true, stopper := Finished);
    Go(s5, OnStop(CancelContext), s6);
    s := s6.(pool := Pool(0, 0, {}, {}, {}, 0, 1));
    Go(s6, OnPool(Begin), s);
  }

  /** A stop that clears d.cdpJobs before any cdp worker has reached its range loop
      comes to rest with a job undelivered: no goroutine is left to deliver it. */
  lemma StrandedJob() returns (s: State)
    ensures Reachable(s) && AtRest(s) && s.fleetStopped && !s.crashed && Quiet(s)
    ensures s.chans == [FRESH_CHAN] && s.core.inflight == 1
  {
    var s7 := WorkerStranded();
    s := s7.(core := s7.core.(cond := NoWaiter), native := Exited);
    Go(s7, OnNative(TakeTurn(Exit)), s);
    RestIsQuiet(s);
  }

  /** And a stop that closes the channel while the click is being forwarded crashes. */
  lemma StopWhileForwarding() returns (s: State)
    ensures Reachable(s) && s.core.stopped && !s.crashed && CanCrash(s)
  {
    var s0 := ClickPopped();
    var s1 := s0.(fleetStopped := true, stopper := TearingDown);
    Go(s0, Outside(RequestStop), s1);
    s := s1.(core := s1.core.(stopped := true), stopper := Stopper.Cancelling({}));
    Go(s1, OnStop(BeginAbort), s);
    CrashIffExposed(s);
  }
}
