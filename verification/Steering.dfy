/** How submitters and pausers can steer the native worker. */
module Steering {
  import opened Jobs
  import opened DispatcherCore
  import opened Protocol
  import opened Delivery
  import opened Invariant
  import opened Guarantees
  import opened Progress

  /** Neither the pool nor the channel has changed, and nothing crashed. */
  predicate SameJobs(s: State, s': State) {
    && s'.started == s.started && s'.core.stopped == s.core.stopped && s'.crashed == s.crashed
    && s'.pool == s.pool && s'.cdp == s.cdp.(field := s'.cdp.field, closes := s'.cdp.closes)
  }

  /** A started fleet that nobody has stopped yet. */
  ghost predicate Open(s: State) {
    Reachable(s) && s.started && !s.crashed && !s.core.stopped
  }

  /** The native worker has popped a job, with pool and channel as they were in s. */
  predicate Held(s: State, s': State) {
    s'.native.Holding? && s'.started && !s'.crashed && !s'.core.stopped && s'.pool == s.pool && s'.cdp == s.cdp
  }

  ghost predicate CanHold(s: State) {
    exists steps :: ValidRun(s, steps) && Held(s, Final(s, steps))
  }

  lemma {:induction false} ReachableRun(s: State, steps: seq<Step>)
    requires Reachable(s) && ValidRun(s, steps)
    ensures Reachable(Final(s, steps))
    decreases |steps|
  {
    if steps != [] {
      ReachableStep(s, steps[0]);
      ReachableRun(Apply(s, steps[0]), steps[1..]);
    }
  }

  lemma HolderSteps(s: State, step: Step)
    requires Can(s, step) && CanHold(Apply(s, step))
    requires Apply(s, step).pool == s.pool && Apply(s, step).cdp == s.cdp
    ensures CanHold(s)
  {
    var s' := Apply(s, step);
    var steps :| ValidRun(s', steps) && Held(s', Final(s', steps));
    assert ([step] + steps)[1..] == steps;
    assert ValidRun(s, [step] + steps);
  }

  /** Jobs are queued or on their way, or may still be submitted. */
  predicate Supplied(s: State) {
    s.stopper.NotRequested? || s.core.queue != {} || s.arriving != multiset{}
  }

  /** With a job queued and no reason held, the native worker takes one. */
  lemma QueuedHolds(s: State)
    requires Open(s) && s.core.reasons == {} && s.core.queue != {} && (s.native.Checking? || s.native.Asleep?)
    ensures CanHold(s)
  {
    assert WellFormed(s) && NativeControl(s) by { ReachableInv(s); }
    var turn := TurnExists(s.core);
    var step := OnNative(TakeTurn(turn));
    assert Apply(s, step) == AfterTurn(s, turn);
    ReachableStep(s, step);
    assert ValidRun(Apply(s, step), []) && Held(Apply(s, step), Final(Apply(s, step), []));
    HolderSteps(s, step);
  }

  lemma ArrivingHolds(s: State)
    requires Open(s) && s.core.reasons == {} && s.arriving != multiset{} && (s.native.Checking? || s.native.Asleep?)
    ensures CanHold(s)
  {
    assert WellFormed(s) by { ReachableInv(s); }
    var j :| j in s.arriving;
    var step := Outside(Arrive(j));
    ReachableStep(s, step);
    assert |s.core.jobs| in Apply(s, step).core.queue;
    QueuedHolds(Apply(s, step));
    HolderSteps(s, step);
  }

  lemma RegisteredHolds(s: State, id: string)
    requires Open(s) && s.stopper.NotRequested? && id in s.registry.handles
    requires s.core.reasons == {} && (s.native.Checking? || s.native.Asleep?)
    ensures CanHold(s)
  {
    assert WellFormed(s) && StopperControl(s) by { ReachableInv(s); }
    var j := Job(id, Wait("#go", 1), 0);
    var step := Outside(Submit(j));
    ReachableStep(s, step);
    assert j in Apply(s, step).arriving;
    ArrivingHolds(Apply(s, step));
    HolderSteps(s, step);
  }

  /** Before a stop is requested anyone may register a browser and submit a job. */
  lemma UnstoppedHolds(s: State)
    requires Open(s) && s.stopper.NotRequested? && s.core.reasons == {} && (s.native.Checking? || s.native.Asleep?)
    ensures CanHold(s)
  {
    assert WellFormed(s) by { ReachableInv(s); }
    if s.registry.handles != map[] {
      var id :| id in s.registry.handles;
      RegisteredHolds(s, id);
    } else {
      var step := Outside(Register("a", false));
      ReachableStep(s, step);
      RegisteredHolds(Apply(s, step), "a");
      HolderSteps(s, step);
    }
  }

  /** Whoever holds the fleet paused may resume it. */
  lemma {:induction false} IdleHolds(s: State)
    requires Open(s) && Supplied(s) && (s.native.Checking? || s.native.Asleep?)
    ensures CanHold(s)
    decreases |s.core.reasons|
  {
    assert WellFormed(s) by { ReachableInv(s); }
    if s.core.reasons != {} {
      var r :| r in s.core.reasons;
      var step := Outside(Resume(r));
      ReachableStep(s, step);
      assert Apply(s, step).core.reasons == s.core.reasons - {r};
      IdleHolds(Apply(s, step));
      HolderSteps(s, step);
    } else if s.core.queue != {} {
      QueuedHolds(s);
    } else if s.arriving != multiset{} {
      ArrivingHolds(s);
    } else {
      UnstoppedHolds(s);
    }
  }

  lemma BusyMoves(s: State) returns (n: NativeStep)
    requires WellFormed(s) && !s.crashed && (s.native.Entering? || s.native.Running? || s.native.Settling?)
    ensures NativeEnabled(s, n) && SameJobs(s, AfterNative(s, n)) && AfterNative(s, n).cdp == s.cdp
    ensures Supplied(s) ==> Supplied(AfterNative(s, n))
    ensures AfterNative(s, n).native.Checking? || AfterNative(s, n).native.Running? || AfterNative(s, n).native.Settling?
    ensures AfterNative(s, n).native.Running? ==> s.native.Entering?
    ensures s.native.Settling? ==> AfterNative(s, n).native.Checking?
  {
    match s.native
    case Entering(t) => n := Enter; assert AfterNative(s, n) == AfterEnter(s, t);
    case Running(_) => n := FinishRun(Done);
    case Settling(_) => n := CreditRun;
  }

  /** The native worker finishes the job that it executes and takes another. */
  lemma {:induction false} BusyHolds(s: State)
    requires Open(s) && Supplied(s)
    requires s.native.Checking? || s.native.Asleep? || s.native.Entering? || s.native.Running? || s.native.Settling?
    ensures CanHold(s)
    decreases if s.native.Entering? then 3 else if s.native.Running? then 2 else if s.native.Settling? then 1 else 0
  {
    assert WellFormed(s) by { ReachableInv(s); }
    if s.native.Checking? || s.native.Asleep? {
      IdleHolds(s);
    } else {
      var n := BusyMoves(s);
      ReachableStep(s, OnNative(n));
      BusyHolds(Apply(s, OnNative(n)));
      HolderSteps(s, OnNative(n));
    }
  }
}
