/** The mouse-takeover watchdog (takeover_watchdog.go) as a timed state machine:
    the hook's notifications, the clock, the timer and the arms of the run
    loop's select, in any order in which they are ready. */
module Watchdog {

  /** Fired: the expiry is in the timer's channel, not received yet. */
  datatype Timer = Disarmed | Armed(deadline: nat) | Fired

  datatype Callback = CallPause | CallResume

  /** One call of pause or resume; `moves` moves had been handled by then. */
  datatype CallRecord = CallRecord(callback: Callback, at: nat, byTimer: bool, moves: nat)

  datatype Dog = Dog(
    idle: nat,
    now: nat,
    token: bool,              // the moves channel holds its one token
    timer: Timer,
    paused: bool,
    stopRequested: bool,
    exited: bool,
    // history: the times of the handled moves, and the calls made
    moves: seq<nat>,
    calls: seq<CallRecord>)

  function NewDog(idle: nat, now: nat): Dog {
    Dog(idle, now, false, Disarmed, false, false, false, [], [])
  }

  datatype DogStep =
    | Notify
    | Elapse(dt: nat)
    | Expire
    | RequestExit
    | OnMove
    | OnTimer
    | OnStop

  predicate DogEnabled(d: Dog, step: DogStep) {
    match step
    case Notify => true
    case Elapse(_) => true
    case Expire => d.timer.Armed? && d.timer.deadline <= d.now
    case RequestExit => true
    case OnMove => !d.exited && d.token
    case OnTimer => !d.exited && d.timer.Fired?
    case OnStop => !d.exited && d.stopRequested
  }

  function Record(d: Dog, callback: Callback, byTimer: bool, moves: nat): seq<CallRecord> {
    d.calls + [CallRecord(callback, d.now, byTimer, moves)]
  }

  /** Whatever the timer was doing, stop-drain-reset arms it afresh. */
  function AfterMove(d: Dog): Dog {
    d.(token := false,
       moves := d.moves + [d.now],
       calls := if d.paused then d.calls else Record(d, CallPause, false, |d.moves| + 1),
       paused := true,
       timer := Armed(d.now + d.idle))
  }

  function AfterTimer(d: Dog): Dog {
    d.(timer := Disarmed, calls := if d.paused then Record(d, CallResume, true, |d.moves|) else d.calls, paused := false)
  }

  function AfterExit(d: Dog): Dog {
    d.(timer := Disarmed, calls := if d.paused then Record(d, CallResume, false, |d.moves|) else d.calls, exited := true)
  }

  function DogApply(d: Dog, step: DogStep): Dog
    requires DogEnabled(d, step)
  {
    match step
    case Notify => d.(token := true)
    case Elapse(dt) => d.(now := d.now + dt)
    case Expire => d.(timer := Fired)
    case RequestExit => d.(stopRequested := true)
    case OnMove => AfterMove(d)
    case OnTimer => AfterTimer(d)
    case OnStop => AfterExit(d)
  }

  /** The watchdog holds the fleet paused. */
  predicate Holding(d: Dog) {
    d.paused && !d.exited
  }

  ghost predicate DogInv(d: Dog) {
    // calls alternate, beginning with pause
    && (forall k :: 0 <= k < |d.calls| ==> (d.calls[k].callback == CallPause <==> k % 2 == 0))
    && (|d.calls| % 2 == 1 <==> Holding(d))
    // the timer runs from the last handled move
    && (forall j :: 0 <= j < |d.moves| ==> d.moves[j] <= d.now)
    && (d.timer.Armed? ==> forall j :: 0 <= j < |d.moves| ==> d.moves[j] + d.idle <= d.timer.deadline)
    && (d.timer.Fired? ==> forall j :: 0 <= j < |d.moves| ==> d.moves[j] + d.idle <= d.now)
    && (Holding(d) ==> !d.timer.Disarmed?)
    && (forall k :: 0 <= k < |d.calls| ==> d.calls[k].moves <= |d.moves| && RestedCall(d, d.calls[k]))
  }

  /** A resume by the timer comes at least `idle` after every move handled before. */
  ghost predicate RestedCall(d: Dog, c: CallRecord) {
    c.byTimer ==> c.callback == CallResume && forall j :: 0 <= j < c.moves && j < |d.moves| ==> d.moves[j] + d.idle <= c.at
  }

  lemma StepDogInv(d: Dog, step: DogStep)
    requires DogInv(d) && DogEnabled(d, step)
    ensures DogInv(DogApply(d, step))
  {
    var d' := DogApply(d, step);
    forall k | 0 <= k < |d'.calls| ensures d'.calls[k].moves <= |d'.moves| && RestedCall(d', d'.calls[k]) {
      if k < |d.calls| { assert RestedCall(d, d.calls[k]); }
    }
  }

  ghost predicate DogRun(d: Dog, steps: seq<DogStep>)
    decreases |steps|
  {
    steps != [] ==> DogEnabled(d, steps[0]) && DogRun(DogApply(d, steps[0]), steps[1..])
  }

  ghost function DogFinal(d: Dog, steps: seq<DogStep>): Dog
    requires DogRun(d, steps)
    decreases |steps|
  {
    if steps == [] then d else DogFinal(DogApply(d, steps[0]), steps[1..])
  }

  lemma {:induction false} RunDogInv(d: Dog, steps: seq<DogStep>)
    requires DogInv(d) && DogRun(d, steps)
    ensures DogInv(DogFinal(d, steps))
    decreases |steps|
  {
    if steps != [] {
      StepDogInv(d, steps[0]);
      RunDogInv(DogApply(d, steps[0]), steps[1..]);
    }
  }

  /** Over every timed run: pause and resume calls alternate, beginning with pause;
      a resume by the timer comes at least `idle` after every move the loop had
      handled; and once the loop has exited there are as many resumes as pauses. */
  lemma CallsOverRuns(idle: nat, start: nat, steps: seq<DogStep>, k: nat)
    requires DogRun(NewDog(idle, start), steps)
    ensures var d := DogFinal(NewDog(idle, start), steps);
      && (k < |d.calls| ==> (d.calls[k].callback == CallPause <==> k % 2 == 0))
      && (k < |d.calls| && d.calls[k].byTimer ==>
            d.calls[k].moves <= |d.moves| && forall j :: 0 <= j < d.calls[k].moves ==> d.moves[j] + idle <= d.calls[k].at)
      && (d.exited ==> |d.calls| % 2 == 0)
  {
    RunDogInv(NewDog(idle, start), steps);
    SameIdle(NewDog(idle, start), steps);
    var d := DogFinal(NewDog(idle, start), steps);
    assert k < |d.calls| ==> RestedCall(d, d.calls[k]);
  }

  lemma {:induction false} SameIdle(d: Dog, steps: seq<DogStep>)
    requires DogRun(d, steps)
    ensures DogFinal(d, steps).idle == d.idle
    decreases |steps|
  {
    if steps != [] {
      SameIdle(DogApply(d, steps[0]), steps[1..]);
    }
  }

  /** A coalesced token is never lost: after a notification, the channel stays
      full until a move is handled. */
  lemma {:induction false} TokenNotLost(d: Dog, steps: seq<DogStep>)
    requires DogRun(d, [Notify] + steps)
    ensures DogFinal(d, [Notify] + steps).token || OnMove in steps
    decreases |steps|
  {
    assert ([Notify] + steps)[1..] == steps;
    TokenStays(DogApply(d, Notify), steps);
  }

  lemma {:induction false} TokenStays(d: Dog, steps: seq<DogStep>)
    requires d.token && DogRun(d, steps)
    ensures DogFinal(d, steps).token || OnMove in steps
    decreases |steps|
  {
    if steps != [] && steps[0] != OnMove {
      TokenStays(DogApply(d, steps[0]), steps[1..]);
      assert steps == [steps[0]] + steps[1..];
    }
  }

  /** While the watchdog holds the fleet, the clock alone brings the resume: the
      timer is running or has expired, so letting time pass, expiring and
      receiving is a run that resumes. */
  lemma HoldEnds(idle: nat, start: nat, steps: seq<DogStep>) returns (more: seq<DogStep>)
    requires DogRun(NewDog(idle, start), steps) && Holding(DogFinal(NewDog(idle, start), steps))
    ensures OnMove !in more && Notify !in more
    ensures DogRun(DogFinal(NewDog(idle, start), steps), more)
    ensures !DogFinal(DogFinal(NewDog(idle, start), steps), more).paused
  {
    RunDogInv(NewDog(idle, start), steps);
    var d := DogFinal(NewDog(idle, start), steps);
    if d.timer.Fired? {
      more := [OnTimer];
      assert more[1..] == [];
    } else {
      var dt := if d.timer.deadline > d.now then d.timer.deadline - d.now else 0;
      var d1 := DogApply(d, Elapse(dt));
      var d2 := DogApply(d1, Expire);
      assert [OnTimer][1..] == [];
      assert DogRun(d2, [OnTimer]);
      assert [Expire, OnTimer][1..] == [OnTimer];
      assert DogRun(d1, [Expire, OnTimer]);
      more := [Elapse(dt), Expire, OnTimer];
      assert more[1..] == [Expire, OnTimer];
    }
  }

  /** A handled move holds the fleet from then on ... */
  lemma MoveHolds(d: Dog)
    requires DogEnabled(d, OnMove)
    ensures Holding(DogApply(d, OnMove)) && DogApply(d, OnMove).moves == d.moves + [d.now]
    ensures !d.paused ==> DogApply(d, OnMove).calls == d.calls + [CallRecord(CallPause, d.now, false, |d.moves| + 1)]
  {
  }

  /** ... and only the timer's expiry and the stop end the hold, each with a resume. */
  lemma HoldEndsOnly(d: Dog, step: DogStep)
    requires DogEnabled(d, step) && Holding(d) && !Holding(DogApply(d, step))
    ensures step == OnTimer || step == OnStop
    ensures DogApply(d, step).calls == d.calls + [CallRecord(CallResume, d.now, step == OnTimer, |d.moves|)]
  {
  }

  /** Each arm of the select is ready when its channel is, until the loop has exited; the
      timer expires when its time has come, and not before. */
  lemma ArmsReady(d: Dog)
    ensures DogEnabled(d, OnMove) <==> d.token && !d.exited
    ensures DogEnabled(d, OnTimer) <==> d.timer == Fired && !d.exited
    ensures DogEnabled(d, OnStop) <==> d.stopRequested && !d.exited
    ensures DogEnabled(d, Expire) <==> d.timer.Armed? && d.timer.deadline <= d.now
    ensures DogEnabled(d, Notify) && DogApply(d, Notify).token
    ensures DogEnabled(d, RequestExit) && DogApply(d, RequestExit).stopRequested
    ensures DogEnabled(d, OnStop) ==> DogApply(d, OnStop).exited
  {
  }

  function Occurrences(steps: seq<DogStep>, step: DogStep): nat {
    if steps == [] then 0 else (if steps[0] == step then 1 else 0) + Occurrences(steps[1..], step)
  }

  /** No move is handled without a notification, and the loop exits only when asked to. */
  lemma {:induction false} MovesAreNotified(d: Dog, steps: seq<DogStep>)
    requires DogRun(d, steps)
    ensures var d' := DogFinal(d, steps);
      && |d'.moves| - |d.moves| + (if d'.token then 1 else 0) <= Occurrences(steps, Notify) + (if d.token then 1 else 0)
      && (d'.exited && !d.exited && !d.stopRequested ==> RequestExit in steps)
    decreases |steps|
  {
    if steps != [] {
      MovesAreNotified(DogApply(d, steps[0]), steps[1..]);
      assert steps == [steps[0]] + steps[1..];
    }
  }

  /** The timer runs from the last handled move. */
  predicate TimerSet(d: Dog) {
    d.timer.Armed? ==> d.moves != [] && d.timer.deadline == d.moves[|d.moves| - 1] + d.idle
  }

  lemma {:induction false} RunTimerSet(d: Dog, steps: seq<DogStep>)
    requires TimerSet(d) && DogRun(d, steps)
    ensures TimerSet(DogFinal(d, steps))
    decreases |steps|
  {
    if steps != [] {
      RunTimerSet(DogApply(d, steps[0]), steps[1..]);
    }
  }

  /** And in every run it must: whenever a hold has lasted for idle since the last
      handled move, the timer can expire or its expiry can be received, and once
      neither can, the hold is over. */
  lemma HoldMustEnd(idle: nat, start: nat, steps: seq<DogStep>)
    requires DogRun(NewDog(idle, start), steps)
    ensures var d := DogFinal(NewDog(idle, start), steps);
      Holding(d) && !DogEnabled(d, Expire) && !DogEnabled(d, OnTimer)
      ==> d.moves != [] && d.now < d.moves[|d.moves| - 1] + idle
  {
    RunDogInv(NewDog(idle, start), steps);
    RunTimerSet(NewDog(idle, start), steps);
    SameIdle(NewDog(idle, start), steps);
  }
}
