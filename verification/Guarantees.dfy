/** What every run of the protocol guarantees. */
module Guarantees {
  import opened Jobs
  import opened DispatcherCore
  import opened Protocol
  import opened Delivery
  import opened Invariant

  ghost predicate ValidRun(s: State, steps: seq<Step>)
    decreases |steps|
  {
    steps != [] ==> Can(s, steps[0]) && ValidRun(Apply(s, steps[0]), steps[1..])
  }

  ghost function Final(s: State, steps: seq<Step>): State
    requires ValidRun(s, steps)
    decreases |steps|
  {
    if steps == [] then s else Final(Apply(s, steps[0]), steps[1..])
  }

  ghost predicate Reachable(s: State) {
    exists steps :: ValidRun(NEW_STATE, steps) && Final(NEW_STATE, steps) == s
  }

  lemma {:induction false} RunInv(s: State, steps: seq<Step>)
    requires Inv(s) && ValidRun(s, steps)
    ensures Inv(Final(s, steps))
    decreases |steps|
  {
    if steps != [] {
      StepInv(s, steps[0]);
      RunInv(Apply(s, steps[0]), steps[1..]);
    }
  }

  lemma ReachableInv(s: State)
    requires Reachable(s)
    ensures Inv(s) && WellFormed(s)
  {
    var steps :| ValidRun(NEW_STATE, steps) && Final(NEW_STATE, steps) == s;
    NewInv();
    RunInv(NEW_STATE, steps);
    AccountedWellFormed(s);
  }

  /** In every run, crashing or not, no job is delivered twice: a channel is
      fresh, or closed with the one result of its one delivery. Refused
      submissions are rejected, accepted ones never are. */
  lemma AtMostOnce(s: State, t: nat)
    requires Reachable(s)
    ensures t < |s.chans| ==> s.chans[t] == FRESH_CHAN || (Settled(s.chans[t]) && s.chans[t].sent[0] != Rejected)
    ensures t < |s.refused| ==> s.refused[t] == FRESH_CHAN || (Settled(s.refused[t]) && s.refused[t].sent == [Rejected])
  {
    ReachableInv(s);
  }

  /** inflight counts the jobs in every place one can be. */
  lemma Conservation(s: State)
    requires Reachable(s)
    ensures s.core.inflight == |s.core.queue| + |HeldJobs(s.native)| + |s.cdp.buffer|
                               + |s.pool.fetched| + |s.pool.running| + |s.pool.settling|
                               + (if s.stopper.Cancelling? || s.stopper.Crediting? then |s.stopper.pending| else 0)
                               + (if s.stopper.Crediting? then 1 else 0)
    ensures s.core.inflight >= 0
  {
    ReachableInv(s);
    var p := PlacesOf(s);
    assert |p.Open()| == |p.queue| + |p.hand| + |p.buffer| + |p.fetched| + |p.running| + |p.pending|;
    assert |p.Done()| == |p.handDone| + |p.settling| + |p.crediting|;
    assert |p.hand| + |p.handDone| == |HeldJobs(s.native)|;
  }

  /** When `Wait` returns, every job accepted so far has its result. */
  lemma WaitMeansDelivered(s: State, t: nat)
    requires Reachable(s) && s.core.inflight == 0 && t < |s.chans|
    ensures Settled(s.chans[t])
  {
    ReachableInv(s);
    var p := PlacesOf(s);
    assert |p.Open()| == 0;
    assert p.Open() == multiset{};
    assert t !in p.Open();
  }

  /** No wake-up is lost: a native worker that sleeps unwoken has reason to. */
  lemma NoLostWakeup(s: State)
    requires Reachable(s) && s.native.Asleep? && !s.core.cond.Woken?
    ensures !s.core.stopped && (s.core.queue == {} || s.core.reasons != {})
  {
    ReachableInv(s);
  }

  /** Once stopped the queue is empty for good, the fleet flag is up, and the
      native worker's next turn is its last; it never pops nothing. */
  lemma ShutdownState(s: State)
    requires Reachable(s)
    ensures WellFormed(s)
    ensures s.core.stopped ==> s.core.queue == {} && s.fleetStopped && TurnOf(s.core, Exit)
    ensures !TurnOf(s.core, Nothing)
    ensures s.cdp.closes <= 1
  {
    ReachableInv(s);
  }

  /** No job is popped while a reason is held. */
  lemma NoPopWhilePaused(s: State, t: nat)
    requires Reachable(s) && Can(s, OnNative(TakeTurn(Take(t))))
    ensures s.core.reasons == {} && !s.core.stopped && t in s.core.queue
  {
    ReachableInv(s);
  }
}
