/** The order in which whole runs pop jobs and pass them on to the pool. */
module Schedule {
  import opened Jobs
  import opened DispatcherCore
  import opened Protocol
  import opened Delivery
  import opened Invariant
  import opened Guarantees

  /** Job t may come after pop p: it was accepted after p, or p goes first. */
  ghost predicate Follows(jobs: seq<Job>, p: Pop, t: nat)
    requires t < |jobs|
  {
    p.job < p.accepted <= |jobs| && (p.accepted <= t || Before(jobs, p.job, t))
  }

  ghost predicate PopsOrdered(c: Core, pops: seq<Pop>)
    requires c.Valid()
  {
    && (forall i :: 0 <= i < |pops| ==> pops[i].job < pops[i].accepted <= |c.jobs|)
    && (forall i, j :: 0 <= i < j < |pops| ==> Follows(c.jobs, pops[i], pops[j].job))
    && (forall i, t :: 0 <= i < |pops| && t in c.queue ==> Follows(c.jobs, pops[i], t))
  }

  /** The channel carries the forwarded pops, in the order they were popped, and
      the native worker's job is the latest pop, not forwarded yet. */
  ghost predicate ChannelOrdered(log: Log, buffer: seq<nat>, held: set<nat>) {
    && (forall i, j :: 0 <= i < j < |log.forwarded| ==> log.forwarded[i] < log.forwarded[j])
    && (forall i :: 0 <= i < |log.forwarded| ==> 0 <= log.forwarded[i] < |log.pops|)
    && log.received + |buffer| == |log.forwarded|
    && (forall k: nat :: k < |buffer| ==> buffer[k] == log.pops[log.forwarded[log.received + k]].job)
    && (held != {} ==>
          && log.pops != [] && held == {log.pops[|log.pops| - 1].job}
          && forall i :: 0 <= i < |log.forwarded| ==> log.forwarded[i] < |log.pops| - 1)
  }

  ghost predicate Ordered(s: State) {
    s.core.Valid() && PopsOrdered(s.core, s.log.pops) && ChannelOrdered(s.log, s.cdp.buffer, HeldJobs(s.native))
  }

  lemma ArriveOrdered(c: Core, pops: seq<Pop>, j: Job)
    requires c.Valid() && PopsOrdered(c, pops) && !c.stopped
    ensures PopsOrdered(EnqueueCore(c, j), pops)
  {
    var c' := EnqueueCore(c, j);
    forall i, t | 0 <= i < |pops| && t in c'.queue ensures Follows(c'.jobs, pops[i], t) {
      assert t in c.queue ==> Follows(c.jobs, pops[i], t);
    }
    forall i, k | 0 <= i < k < |pops| ensures Follows(c'.jobs, pops[i], pops[k].job) {
      assert Follows(c.jobs, pops[i], pops[k].job);
    }
  }

  lemma TakeOrdered(c: Core, pops: seq<Pop>, t: nat)
    requires c.Valid() && PopsOrdered(c, pops) && IsNext(c.jobs, c.queue, t)
    ensures PopsOrdered(TurnCore(c, Take(t)), pops + [Pop(t, |c.jobs|)])
  {
    var c' := TurnCore(c, Take(t));
    var pops' := pops + [Pop(t, |c.jobs|)];
    forall i, k | 0 <= i < k < |pops'| ensures Follows(c'.jobs, pops'[i], pops'[k].job) {
      if k == |pops| {
        assert Follows(c.jobs, pops[i], t);
      }
    }
  }

  lemma TakeChannelOrdered(log: Log, buffer: seq<nat>, p: Pop)
    requires ChannelOrdered(log, buffer, {})
    ensures ChannelOrdered(log.(pops := log.pops + [p]), buffer, {p.job})
  {
  }

  lemma SendChannelOrdered(log: Log, buffer: seq<nat>, t: nat)
    requires ChannelOrdered(log, buffer, {t})
    ensures ChannelOrdered(log.(forwarded := log.forwarded + [|log.pops| - 1]), buffer + [t], {})
  {
    assert t in {log.pops[|log.pops| - 1].job};
  }

  lemma ReceiveChannelOrdered(log: Log, buffer: seq<nat>, held: set<nat>)
    requires ChannelOrdered(log, buffer, held) && buffer != []
    ensures ChannelOrdered(log.(received := log.received + 1), buffer[1..], held)
    ensures buffer[0] == log.pops[log.forwarded[log.received]].job
  {
    forall k: nat | k < |buffer| - 1 ensures buffer[1..][k] == log.pops[log.forwarded[log.received + 1 + k]].job {
      assert buffer[k + 1] == log.pops[log.forwarded[log.received + (k + 1)]].job;
    }
  }

  /** A step that touches neither the queue nor the channel nor the order of pops. */
  ghost predicate SameOrder(s: State, s': State) {
    && s'.core.jobs == s.core.jobs && s'.core.queue <= s.core.queue
    && s'.log.pops == s.log.pops && s'.log.forwarded == s.log.forwarded && s'.log.received == s.log.received
    && s'.cdp.buffer == s.cdp.buffer
    && (HeldJobs(s'.native) == HeldJobs(s.native) || HeldJobs(s'.native) == {})
  }

  lemma SameOrderKeeps(s: State, s': State)
    requires Ordered(s) && SameOrder(s, s')
    ensures Ordered(s')
  {
  }

  lemma EnterSameOrder(s: State, t: nat)
    requires t < |s.core.jobs| == |s.chans| && s.native == Entering(t)
    ensures SameOrder(s, AfterEnter(s, t))
  {
  }

  lemma FinishSameOrder(s: State, t: nat, st: Status)
    requires t < |s.chans| && HeldJobs(s.native) == {t}
    ensures SameOrder(s, AfterNativeFinish(s, t, st))
  {
  }

  lemma TurnSameOrder(s: State, turn: Turn)
    requires !turn.Take?
    ensures SameOrder(s, AfterTurn(s, turn))
  {
  }

  lemma NativeSameOrder(s: State, n: NativeStep)
    requires WellFormed(s) && NativeEnabled(s, n) && !n.Send? && !(n.TakeTurn? && n.turn.Take?)
    ensures SameOrder(s, AfterNative(s, n))
  {
    match n
    case TakeTurn(turn) => TurnSameOrder(s, turn);
    case Route => assert AfterNative(s, n) == AfterRoute(s, s.native.job);
    case Enter => EnterSameOrder(s, s.native.job);
    case FinishRun(st) => FinishSameOrder(s, s.native.job, st);
    case CancelForward => FinishSameOrder(s, s.native.job, Cancelled);
    case ReadChannel =>
    case Panic =>
    case Park =>
    case CreditRun =>
  }

  lemma PopOrdered(s: State, t: nat)
    requires Ordered(s) && HeldJobs(s.native) == {} && IsNext(s.core.jobs, s.core.queue, t)
    ensures Ordered(AfterTurn(s, Take(t)))
  {
    TakeOrdered(s.core, s.log.pops, t);
    TakeChannelOrdered(s.log, s.cdp.buffer, Pop(t, |s.core.jobs|));
  }

  lemma NativeOrdered(s: State, n: NativeStep)
    requires Ordered(s) && WellFormed(s) && NativeEnabled(s, n)
    ensures Ordered(AfterNative(s, n))
  {
    if n.Send? {
      ForwardOrdered(s, s.native.job);
    } else if n.TakeTurn? && n.turn.Take? {
      PopOrdered(s, n.turn.job);
    } else {
      NativeSameOrder(s, n);
      SameOrderKeeps(s, AfterNative(s, n));
    }
  }

  lemma ReceivedOrdered(s: State)
    requires Ordered(s) && s.cdp.buffer != [] && s.pool.idle > 0
    ensures Ordered(Received(s))
  {
    ReceiveChannelOrdered(s.log, s.cdp.buffer, HeldJobs(s.native));
  }

  lemma ForwardOrdered(s: State, t: nat)
    requires Ordered(s) && HeldJobs(s.native) == {t}
    ensures Ordered(Forward(s, t))
  {
    SendChannelOrdered(s.log, s.cdp.buffer, t);
  }

  lemma PoolSameOrder(s: State, p: PoolStep)
    requires WellFormed(s) && PoolEnabled(s, p) && !p.Receive?
    ensures SameOrder(s, AfterPool(s, p))
  {
    match p
    case LookUp(t) => LookupSameOrder(s, t);
    case Finish(t, st) => assert AfterPool(s, p) == AfterCdpFinish(s, t, st);
    case CreditJob(t) => assert AfterPool(s, p) == AfterCdpCredit(s, t);
    case Begin =>
    case Leave =>
  }

  lemma LookupSameOrder(s: State, t: nat)
    requires t < |s.core.jobs| == |s.chans|
    ensures SameOrder(s, AfterLookup(s, t))
  {
  }

  lemma PoolOrdered(s: State, p: PoolStep)
    requires Ordered(s) && WellFormed(s) && PoolEnabled(s, p)
    ensures Ordered(AfterPool(s, p))
  {
    if p.Receive? {
      ReceivedOrdered(s);
      if s.native.Parked? && s.native.ch {
        ForwardOrdered(Received(s), s.native.job);
      }
    } else {
      PoolSameOrder(s, p);
      SameOrderKeeps(s, AfterPool(s, p));
    }
  }

  lemma CallSameOrder(s: State, call: Call)
    requires CallEnabled(s, call) && (s.native.NotStarted? <==> !s.started) && (call.Arrive? ==> s.core.stopped)
    ensures SameOrder(s, AfterCall(s, call))
  {
  }

  lemma StopSameOrder(s: State, x: StopStep)
    requires WellFormed(s) && StopEnabled(s, x)
    ensures SameOrder(s, AfterStop(s, x))
  {
    if x.CloseChannel? {
      CloseSameOrder(s);
    } else if x.CancelPending? {
      assert AfterStop(s, x) == AfterCancel(s, x.t);
    }
  }

  lemma CloseSameOrder(s: State)
    ensures SameOrder(s, AfterClose(s))
  {
  }

  lemma StepOrdered(s: State, step: Step)
    requires Ordered(s) && Can(s, step) && (s.native.NotStarted? <==> !s.started)
    ensures Ordered(Apply(s, step))
  {
    match step
    case Outside(call) =>
      if call.Arrive? && !s.core.stopped {
        ArriveOrdered(s.core, s.log.pops, call.job);
      } else {
        CallSameOrder(s, call);
        SameOrderKeeps(s, Apply(s, step));
      }
    case DeliverReject(_) => SameOrderKeeps(s, Apply(s, step));
    case OnNative(n) => NativeOrdered(s, n);
    case OnPool(p) => PoolOrdered(s, p);
    case OnStop(x) =>
      StopSameOrder(s, x);
      SameOrderKeeps(s, Apply(s, step));
  }

  lemma {:induction false} RunOrdered(s: State, steps: seq<Step>)
    requires Inv(s) && Ordered(s) && ValidRun(s, steps)
    ensures Ordered(Final(s, steps))
    decreases |steps|
  {
    if steps != [] {
      StepInv(s, steps[0]);
      StepOrdered(s, steps[0]);
      RunOrdered(Apply(s, steps[0]), steps[1..]);
    }
  }

  lemma ReachableOrdered(s: State)
    requires Reachable(s)
    ensures Ordered(s)
  {
    var steps :| ValidRun(NEW_STATE, steps) && Final(NEW_STATE, steps) == s;
    NewInv();
    RunOrdered(NEW_STATE, steps);
  }

  /** Of two jobs popped in a run, the first goes before the second in queue order
      unless the second was accepted only after the first was popped; so equal
      priorities are popped in submission order, and nothing is popped twice. */
  lemma PopOrder(s: State, i: nat, j: nat)
    requires Reachable(s) && i < j < |s.log.pops|
    ensures s.log.pops[j].job < |s.core.jobs| && Follows(s.core.jobs, s.log.pops[i], s.log.pops[j].job)
    ensures s.log.pops[i].job != s.log.pops[j].job
    ensures s.log.pops[j].job < s.log.pops[i].accepted ==>
      s.core.jobs[s.log.pops[i].job].priority >= s.core.jobs[s.log.pops[j].job].priority
    ensures s.core.jobs[s.log.pops[i].job].priority == s.core.jobs[s.log.pops[j].job].priority ==>
      s.log.pops[i].job < s.log.pops[j].job
  {
    ReachableOrdered(s);
    assert Follows(s.core.jobs, s.log.pops[i], s.log.pops[j].job);
  }

  /** The pool receives jobs in the order in which they were popped: the next one it
      gets was popped after all that it got before. */
  lemma ReceiveOrder(s: State)
    requires Reachable(s) && Can(s, OnPool(Receive))
    ensures s.log.received < |s.log.forwarded| && 0 <= s.log.forwarded[s.log.received] < |s.log.pops|
    ensures s.cdp.buffer[0] == s.log.pops[s.log.forwarded[s.log.received]].job
    ensures forall i :: 0 <= i < s.log.received ==> 0 <= s.log.forwarded[i] < s.log.forwarded[s.log.received]
  {
    ReachableOrdered(s);
  }
}
