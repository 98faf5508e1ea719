/** What the dispatcher's mutex guards, and the effect of each locked section of
    dispatcher.go on it. Jobs are named by their position in submission order:
    job t is the one whose insertSeq is t + 1. */
module DispatcherCore {
  import opened Jobs

  /** The condition variable; only the native worker ever waits on it. */
  datatype CondVar = NoWaiter | Waiting | Woken

  datatype Core = Core(
    jobs: seq<Job>,       // every accepted job, in submission order
    queue: set<nat>,
    stopped: bool,
    reasons: set<string>,
    inflight: int,
    cond: CondVar)
  {
    ghost predicate Valid() {
      forall t <- queue :: t < |jobs|
    }
  }

  const NEW_CORE := Core([], {}, false, {}, 0, NoWaiter)

  function Signal(c: CondVar): CondVar {
    if c.Waiting? then Woken else c
  }

  function EnqueueCore(c: Core, j: Job): Core {
    if c.stopped then c
    else c.(jobs := c.jobs + [j], queue := c.queue + {|c.jobs|}, inflight := c.inflight + 1, cond := Signal(c.cond))
  }

  /** The locked part of `abortAll`; it hands out c.queue. */
  function AbortCore(c: Core): Core {
    c.(stopped := true, queue := {}, cond := Signal(c.cond))
  }

  function PauseCore(c: Core, r: string): Core {
    if c.stopped then c else c.(reasons := c.reasons + {r})
  }

  /** What `pause` returns. */
  predicate PauseStarts(c: Core, r: string) {
    !c.stopped && c.reasons == {}
  }

  function ResumeCore(c: Core, r: string): Core {
    if c.stopped || r !in c.reasons then c
    else
      var reasons := c.reasons - {r};
      c.(reasons := reasons, cond := if reasons == {} then Signal(c.cond) else c.cond)
  }

  /** What `resume` returns. */
  predicate ResumeEnds(c: Core, r: string) {
    !c.stopped && r in c.reasons && c.reasons - {r} == {}
  }

  function CreditCore(c: Core): Core {
    c.(inflight := c.inflight - 1)
  }

  /** How one evaluation of the native worker's wait loop can end. */
  datatype Turn = Sleep | Exit | Nothing | Take(job: nat)

  ghost predicate TurnOf(c: Core, turn: Turn)
    requires c.Valid()
  {
    if !c.stopped && (c.queue == {} || c.reasons != {}) then turn == Sleep
    else if c.stopped && c.queue == {} then turn == Exit
    else if c.queue == {} then turn == Nothing
    else turn.Take? && IsNext(c.jobs, c.queue, turn.job)
  }

  function TurnCore(c: Core, turn: Turn): Core {
    match turn
    case Sleep => c.(cond := Waiting)
    case Exit => c.(cond := NoWaiter)
    case Nothing => c.(cond := NoWaiter)
    case Take(t) => c.(cond := NoWaiter, queue := c.queue - {t})
  }

  /** Every state of the lock gives the worker exactly one thing to do; it never
      finds nothing to pop, and it takes a job only when no reason is held or
      the dispatcher has stopped with jobs left in the queue. */
  lemma TurnExists(c: Core) returns (turn: Turn)
    requires c.Valid()
    ensures TurnOf(c, turn) && forall other | TurnOf(c, other) :: other == turn
    ensures turn != Nothing
    ensures turn.Take? ==> c.reasons == {} || (c.stopped && c.queue != {})
  {
    if !c.stopped && (c.queue == {} || c.reasons != {}) {
      turn := Sleep;
    } else if c.stopped && c.queue == {} {
      turn := Exit;
    } else {
      var t := NextExists(c.jobs, c.queue);
      turn := Take(t);
      forall other | TurnOf(c, other) ensures other == turn {
        NextUnique(c.jobs, c.queue, t, other.job);
      }
    }
  }
}

/** The pause-reason set as the outcome of a history of calls. */
module PauseHistory {
  import opened DispatcherCore

  datatype PauseCall = Pausing(reason: string) | Resuming(reason: string)

  function AfterPauseCall(c: Core, call: PauseCall): Core {
    match call
    case Pausing(r) => PauseCore(c, r)
    case Resuming(r) => ResumeCore(c, r)
  }

  function AfterCalls(c: Core, calls: seq<PauseCall>): Core {
    if calls == [] then c else AfterPauseCall(AfterCalls(c, calls[..|calls| - 1]), calls[|calls| - 1])
  }

  /** The calls that returned true, as the callbacks see them. */
  function Transitions(c: Core, calls: seq<PauseCall>): seq<PauseCall> {
    if calls == [] then []
    else
      var before := AfterCalls(c, calls[..|calls| - 1]);
      var last := calls[|calls| - 1];
      var fired := if last.Pausing? then PauseStarts(before, last.reason) else ResumeEnds(before, last.reason);
      Transitions(c, calls[..|calls| - 1]) + if fired then [last] else []
  }

  /** The last call naming r was a pause; `held` says how things stood at first. */
  predicate HeldByLast(calls: seq<PauseCall>, r: string, held: bool) {
    if calls == [] then held
    else if calls[|calls| - 1].reason == r then calls[|calls| - 1].Pausing?
    else HeldByLast(calls[..|calls| - 1], r, held)
  }

  /** r is held exactly when the last call naming r was a pause, whatever the
      other sources did. */
  lemma {:induction false} LastCallDecides(c: Core, calls: seq<PauseCall>, r: string)
    requires !c.stopped
    ensures r in AfterCalls(c, calls).reasons <==> HeldByLast(calls, r, r in c.reasons)
    ensures !AfterCalls(c, calls).stopped
  {
    if calls != [] {
      LastCallDecides(c, calls[..|calls| - 1], r);
    }
  }

  /** Callbacks fire in strict alternation, beginning with a pause, and one more
      pause than resume has fired exactly while some reason is held. */
  lemma {:induction false} TransitionsAlternate(c: Core, calls: seq<PauseCall>)
    requires !c.stopped && c.reasons == {}
    ensures var fired := Transitions(c, calls);
      && (forall k :: 0 <= k < |fired| ==> (fired[k].Pausing? <==> k % 2 == 0))
      && (AfterCalls(c, calls).reasons != {} <==> |fired| % 2 == 1)
    ensures !AfterCalls(c, calls).stopped
  {
    if calls != [] {
      TransitionsAlternate(c, calls[..|calls| - 1]);
    }
  }

  /** After stop the set is frozen and no callback fires. */
  lemma {:induction false} FrozenAfterStop(c: Core, calls: seq<PauseCall>)
    requires c.stopped
    ensures AfterCalls(c, calls) == c && Transitions(c, calls) == []
  {
    if calls != [] {
      FrozenAfterStop(c, calls[..|calls| - 1]);
    }
  }

  /** A worker asleep with no wake pending still has a reason to sleep. */
  predicate SleepJustified(c: Core) {
    c.cond.Waiting? ==> !c.stopped && (c.queue == {} || c.reasons != {})
  }

  /** `resume` may skip the broadcast while another reason is held. */
  lemma {:induction false} CallsKeepSleepJustified(c: Core, calls: seq<PauseCall>)
    requires SleepJustified(c)
    ensures SleepJustified(AfterCalls(c, calls))
  {
    if calls != [] {
      CallsKeepSleepJustified(c, calls[..|calls| - 1]);
    }
  }
}
