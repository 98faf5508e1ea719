/** The dispatcher as the object its goroutines share (dispatcher.go). Every
    method that runs under the mutex is proved to do to the fields exactly what
    DispatcherCore says. */
module Dispatchers {
  import opened Jobs
  import opened PriorityQueues
  import opened PopOrder
  import opened DispatcherCore

  /** The number a queued job goes by in DispatcherCore. */
  function Ticket(q: QueuedJob): nat {
    if q.insertSeq == 0 then 0 else q.insertSeq - 1
  }

  function Tickets(items: seq<QueuedJob>): set<nat> {
    set q | q in items :: Ticket(q)
  }

  lemma TicketsPlus(items: seq<QueuedJob>, items': seq<QueuedJob>, qj: QueuedJob)
    requires multiset(items') == multiset(items) + multiset{qj}
    ensures Tickets(items') == Tickets(items) + {Ticket(qj)}
    ensures forall q :: q in items' <==> q in items || q == qj
  {
    assert forall q :: q in items' <==> q in multiset(items');
    assert forall q :: q in items <==> q in multiset(items);
  }

  lemma TicketsMinus(items: seq<QueuedJob>, items': seq<QueuedJob>, qj: QueuedJob)
    requires qj in items && multiset(items') == multiset(items) - multiset{qj}
    requires forall i, j :: 0 <= i < j < |items| ==> items[i] != items[j]
    requires forall q <- items :: Ticket(q) == Ticket(qj) ==> q == qj
    ensures Tickets(items') == Tickets(items) - {Ticket(qj)}
    ensures forall q :: q in items' <==> q in items && q != qj
  {
    NoRepeats(items, qj);
    assert forall q :: q in items' <==> q in multiset(items');
    assert forall q :: q in items <==> q in multiset(items);
  }

  lemma {:induction false} NoRepeats(items: seq<QueuedJob>, qj: QueuedJob)
    requires forall i, j :: 0 <= i < j < |items| ==> items[i] != items[j]
    ensures multiset(items)[qj] <= 1
  {
    if items != [] {
      NoRepeats(items[1..], qj);
      assert items == [items[0]] + items[1..];
      assert items[0] !in items[1..];
    }
  }

  /** The channel that feeds the cdp workers. */
  class CdpJobs {
    var buffer: seq<QueuedJob>
    var closed: bool

    constructor ()
      ensures buffer == [] && !closed
    {
      buffer, closed := [], false;
    }
  }

  class Dispatcher {
    const queue: PriorityQueue
    var insertSeq: nat
    var started: bool
    var stopped: bool
    var pauseReasons: set<string>
    var inflight: int
    var cond: CondVar
    var cdpJobs: CdpJobs?
    ghost var jobs: seq<Job>

    ghost predicate Valid()
      reads this, queue, queue.items
    {
      && queue.Valid()
      && insertSeq == |jobs|
      && (forall q <- queue.items :: 1 <= q.insertSeq <= |jobs| && q.job == jobs[q.insertSeq - 1])
      && (forall q <- queue.items, r <- queue.items :: q != r ==> q.insertSeq != r.insertSeq && q.result != r.result)
    }

    ghost function View(): Core
      reads this, queue
    {
      Core(jobs, Tickets(queue.items), stopped, pauseReasons, inflight, cond)
    }

    constructor ()
      ensures Valid() && fresh(queue) && View() == NEW_CORE && !started && cdpJobs == null
    {
      queue := new PriorityQueue();
      insertSeq, started, stopped, pauseReasons, inflight := 0, false, false, {}, 0;
      cond, cdpJobs, jobs := NoWaiter, null, [];
    }

    predicate IsPaused()
      reads this
    {
      |pauseReasons| > 0
    }

    /** Accepts a job, or has it rejected once stopped: `rejecting` says that a goroutine
        of its own, DeliverRejection, is left to deliver that. */
    method Enqueue(j: Job) returns (res: ResultChannel, rejecting: bool)
      requires Valid()
      modifies this, queue, queue.items
      ensures Valid() && fresh(res) && View() == EnqueueCore(old(View()), j)
      ensures res.View() == FRESH_CHAN && (rejecting <==> stopped)
      ensures !stopped ==> exists q <- queue.items :: Ticket(q) == old(|jobs|) && q.job == j && q.result == res
      ensures forall q <- old(queue.items) :: q in queue.items
    {
      res := new ResultChannel();
      rejecting := stopped;
      if stopped {
        return;
      }
      insertSeq := insertSeq + 1;
      var qj := new QueuedJob(insertSeq, j, res);
      ghost var before := queue.items;
      queue.PushJob(qj);
      TicketsPlus(before, queue.items, qj);
      jobs := jobs + [j];
      inflight := inflight + 1;
      cond := Signal(cond);
    }

    /** What `go deliver` does for a refused submission, whenever it runs. */
    method DeliverRejection(res: ResultChannel)
      requires Valid()
      modifies res
      ensures Valid() && View() == old(View()) && res.View() == Deliver(old(res.View()), Rejected)
    {
      res.DeliverResult(Rejected);
    }

    /** Adds a pause reason; true when the dispatcher was running until now. */
    method Pause(reason: string) returns (transition: bool)
      requires Valid()
      modifies this`pauseReasons
      ensures Valid() && View() == PauseCore(old(View()), reason)
      ensures transition <==> PauseStarts(old(View()), reason)
    {
      if stopped {
        return false;
      }
      var was := IsPaused();
      pauseReasons := pauseReasons + {reason};
      return !was;
    }

    /** Removes a pause reason; true when it was the last one. */
    method Resume(reason: string) returns (transition: bool)
      requires Valid()
      modifies this`pauseReasons, this`cond
      ensures Valid() && View() == ResumeCore(old(View()), reason)
      ensures transition <==> ResumeEnds(old(View()), reason)
    {
      if stopped || reason !in pauseReasons {
        return false;
      }
      pauseReasons := pauseReasons - {reason};
      if IsPaused() {
        return false;
      }
      cond := Signal(cond);
      return true;
    }

    /** One evaluation of the native worker's wait loop and the pop behind it. */
    method NextTurn() returns (turn: Turn, qj: QueuedJob?)
      requires Valid()
      modifies this`cond, queue, queue.items
      ensures Valid() && old(View()).Valid() && TurnOf(old(View()), turn) && View() == TurnCore(old(View()), turn)
      ensures turn.Take? <==> qj != null
      ensures turn.Take? ==> qj in old(queue.items) && Ticket(qj) == turn.job && qj.job == jobs[turn.job]
    {
      qj := null;
      if !stopped && (|queue.items| == 0 || IsPaused()) {
        assert queue.items != [] ==> Ticket(queue.items[0]) in Tickets(queue.items);
        assert IsPaused() ==> pauseReasons != {};
        cond := Waiting;
        return Sleep, null;
      }
      assert pauseReasons == {} || stopped;
      cond := NoWaiter;
      if stopped && |queue.items| == 0 {
        return Exit, null;
      }
      qj := PopNext();
      turn := if qj == null then Nothing else Take(Ticket(qj));
    }

    /** The worker's pop, under the lock. */
    method PopNext() returns (qj: QueuedJob?)
      requires Valid()
      modifies queue, queue.items
      ensures Valid() && (forall t <- old(Tickets(queue.items)) :: t < |jobs|)
      ensures qj == null <==> old(queue.items) == []
      ensures qj == null ==> queue.items == [] && Tickets(queue.items) == old(Tickets(queue.items)) == {}
      ensures qj != null ==> qj in old(queue.items) && 1 <= qj.insertSeq <= |jobs| && qj.job == jobs[qj.insertSeq - 1]
      ensures qj != null ==> IsNext(jobs, old(Tickets(queue.items)), Ticket(qj))
      ensures qj != null ==> Tickets(queue.items) == old(Tickets(queue.items)) - {Ticket(qj)}
      ensures forall k :: 0 <= k < |queue.items| ==> queue.items[k] in old(queue.items)
    {
      ghost var before := queue.items;
      assert forall i, j :: 0 <= i < j < |before| ==> before[i].heapIdx != before[j].heapIdx;
      qj := queue.PopJob();
      if qj != null {
        TakenIsNext(jobs, before, qj);
        TicketsMinus(before, queue.items, qj);
      }
    }

    /** Pops until the queue is empty: the jobs come in stable priority order. */
    method PopAll() returns (out: seq<nat>)
      requires Valid()
      modifies queue, queue.items
      ensures Valid() && queue.items == []
      ensures out == StableSort(jobs, old(Tickets(queue.items)), |jobs|)
    {
      ghost var all := Tickets(queue.items);
      out := [];
      while true
        invariant Valid() && (forall k :: 0 <= k < |queue.items| ==> queue.items[k] in old(queue.items))
        invariant forall t <- Tickets(queue.items) :: t < |jobs|
        invariant StableSort(jobs, all, |jobs|) == out + StableSort(jobs, Tickets(queue.items), |jobs|)
        decreases |Tickets(queue.items)|
      {
        ghost var left := Tickets(queue.items);
        var qj := PopNext();
        if qj == null {
          NothingToSort(jobs, |jobs|);
          break;
        }
        SortPopsNext(jobs, left, Ticket(qj));
        ghost var rest := StableSort(jobs, Tickets(queue.items), |jobs|);
        assert out + ([Ticket(qj)] + rest) == out + [Ticket(qj)] + rest;
        out := out + [Ticket(qj)];
      }
    }

    /** The locked part of abortAll. */
    method BeginAbort() returns (pending: seq<QueuedJob>)
      requires Valid()
      modifies this`stopped, this`cond, queue
      ensures Valid() && View() == AbortCore(old(View())) && pending == old(queue.items) && queue.items == []
    {
      stopped := true;
      pending := queue.Drain();
      cond := Signal(cond);
    }

    /** Delivers a result and reports the job done. */
    method CompleteJob(qj: QueuedJob, st: Status)
      requires Valid()
      modifies this`inflight, qj.result
      ensures Valid() && View() == CreditCore(old(View()))
      ensures qj.result.View() == Deliver(old(qj.result.View()), st)
    {
      qj.result.DeliverResult(st);
      inflight := inflight - 1;
    }

    /** Cancels the drained jobs, each with its own channel. */
    method CancelAll(pending: seq<QueuedJob>)
      requires Valid()
      requires forall i, j :: 0 <= i < j < |pending| ==> pending[i].result != pending[j].result
      modifies this`inflight, set q | q in pending :: q.result
      ensures Valid() && View() == old(View()).(inflight := old(inflight) - |pending|)
      ensures forall q <- pending :: q.result.View() == Deliver(old(q.result.View()), Cancelled)
    {
      for k := 0 to |pending|
        invariant Valid() && View() == old(View()).(inflight := old(inflight) - k)
        invariant forall i :: 0 <= i < k ==> pending[i].result.View() == Deliver(old(pending[i].result.View()), Cancelled)
        invariant forall i :: k <= i < |pending| ==> pending[i].result.View() == old(pending[i].result.View())
      {
        CompleteJob(pending[k], Cancelled);
      }
    }

    /** Stops the dispatcher when nothing else runs: the queued jobs are cancelled,
        the channel is closed and forgotten. */
    method AbortAll()
      requires Valid() && (cdpJobs != null ==> !cdpJobs.closed)
      modifies this, queue, cdpJobs, set q | q in queue.items :: q.result
      ensures Valid() && View() == AbortCore(old(View())).(inflight := old(inflight) - |old(queue.items)|)
      ensures queue.items == []
      ensures forall q <- old(queue.items) :: q.result.View() == Deliver(old(q.result.View()), Cancelled)
      ensures cdpJobs == null && (old(cdpJobs) != null ==> old(cdpJobs).closed)
    {
      assert forall i, j :: 0 <= i < j < |queue.items| ==> queue.items[i].heapIdx != queue.items[j].heapIdx;
      var pending := BeginAbort();
      CancelAll(pending);
      if cdpJobs != null {
        cdpJobs.closed := true;
        cdpJobs := null;
      }
    }
  }

  /** What the heap pops is the next job of the queue order. */
  lemma TakenIsNext(jobs: seq<Job>, items: seq<QueuedJob>, qj: QueuedJob)
    requires forall q <- items :: 1 <= q.insertSeq <= |jobs| && q.job == jobs[q.insertSeq - 1]
    requires forall q <- items, r <- items :: q != r ==> q.insertSeq != r.insertSeq
    requires qj in items && forall q <- items :: !Less(q, qj)
    ensures forall t <- Tickets(items) :: t < |jobs|
    ensures IsNext(jobs, Tickets(items), Ticket(qj))
    ensures forall q <- items :: Ticket(q) == Ticket(qj) ==> q == qj
  {
    forall t | t in Tickets(items) ensures t == Ticket(qj) || Before(jobs, Ticket(qj), t) {
      var q :| q in items && Ticket(q) == t;
      assert !Less(q, qj);
    }
  }
}
