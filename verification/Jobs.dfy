/** Jobs, their results and the channel each result is delivered on
    (action.go, job.go and the tail of dispatcher.go). */
module Jobs {

  datatype Option<+T> = None | Some(value: T)

  datatype Action =
    | Click(selector: string)
    | Type(selector: string, text: string, clearFirst: bool)
    | Navigate(url: string)
    | Scroll(selector: string)
    | Wait(selector: string, timeout: int)

  /** The actions that drive the OS cursor or keyboard. */
  predicate NeedsNativeCriticalSection(a: Action) {
    a.Click? || a.Type? || a.Navigate?
  }

  /** The arguments that an action must come with. */
  predicate ValidAction(a: Action) {
    match a
    case Click(sel) => sel != ""
    case Type(sel, text, _) => sel != "" && text != ""
    case Navigate(url) => url != ""
    case Scroll(_) => true
    case Wait(sel, timeout) => sel != "" && timeout > 0
  }

  datatype Job = Job(browser: string, action: Action, priority: int)

  datatype Status = Done | Failed | Cancelled | Rejected

  /** The buffered result channel of one submission. `sent` holds every result
      that was put in the channel and `calls` counts the calls of `deliver`. */
  datatype Chan = Chan(sent: seq<Status>, closed: bool, calls: nat)

  const FRESH_CHAN := Chan([], false, 0)

  /** What `deliver` does to a channel: a send on a closed channel panics, and
      the panic is swallowed before the close is tried again. */
  function Deliver(c: Chan, st: Status): Chan {
    if c.closed then c.(calls := c.calls + 1)
    else Chan(if |c.sent| < 1 then c.sent + [st] else c.sent, true, c.calls + 1)
  }

  /** Exactly one result, from exactly one delivery, on a closed channel. */
  predicate Settled(c: Chan) {
    c.closed && c.calls == 1 && |c.sent| == 1
  }

  /** A closed channel keeps the results it has, whatever is delivered later. */
  lemma DeliverNeverOverwrites(c: Chan, first: Status, second: Status)
    requires !c.closed && c.sent == []
    ensures Deliver(Deliver(c, first), second).sent == [first]
    ensures c.calls == 0 ==> Settled(Deliver(c, first)) && !Settled(Deliver(Deliver(c, first), second))
  {
    assert |Deliver(c, first).sent| == 1;
  }

  /** The result channel as the object that submitters and workers share. */
  class ResultChannel {
    var sent: seq<Status>
    var closed: bool
    ghost var calls: nat

    ghost function View(): Chan
      reads this
    {
      Chan(sent, closed, calls)
    }

    constructor ()
      ensures View() == FRESH_CHAN
    {
      sent, closed, calls := [], false, 0;
    }

    method DeliverResult(st: Status)
      modifies this
      ensures View() == Deliver(old(View()), st)
    {
      calls := calls + 1;
      if !closed {
        if |sent| < 1 {
          sent := sent + [st];
        }
        closed := true;
      }
    }
  }

  /** Queue order: higher priority first, earlier submission first on a tie.
      Jobs are named by their position in submission order. */
  predicate Before(jobs: seq<Job>, i: nat, j: nat)
    requires i < |jobs| && j < |jobs|
  {
    if jobs[i].priority != jobs[j].priority then jobs[i].priority > jobs[j].priority else i < j
  }

  ghost predicate IsNext(jobs: seq<Job>, queue: set<nat>, t: nat)
    requires forall u <- queue :: u < |jobs|
  {
    t in queue && forall u <- queue :: u == t || Before(jobs, t, u)
  }

  /** A queue that is not empty has a next job ... */
  lemma {:induction false} NextExists(jobs: seq<Job>, queue: set<nat>) returns (t: nat)
    requires queue != {} && forall u <- queue :: u < |jobs|
    ensures IsNext(jobs, queue, t)
    decreases |queue|
  {
    var u: nat :| u in queue;
    var rest := queue - {u};
    assert queue == rest + {u};
    if rest == {} {
      t := u;
    } else {
      var v := NextExists(jobs, rest);
      t := if Before(jobs, u, v) then u else v;
    }
  }

  /** ... and only one. */
  lemma NextUnique(jobs: seq<Job>, queue: set<nat>, t: nat, u: nat)
    requires forall w <- queue :: w < |jobs|
    requires IsNext(jobs, queue, t) && IsNext(jobs, queue, u)
    ensures t == u
  {
  }
}
