/** The native critical section and its retry loop, call by call
    (dispatcher_critical_windows.go, executeCriticalWithRetry). */
module CriticalSection {
  import opened Jobs
  import opened CriticalTrace

  /** The machine as one native job sees it: every call is logged with its answer. */
  class Rig {
    const world: World
    const window: Window
    var log: seq<Event>

    constructor (world: World, window: Window)
      ensures this.world == world && this.window == window && log == []
    {
      this.world, this.window, log := world, window, [];
    }

    /** Makes a call; err is what its answer ends the attempt with. */
    method Do(call: Event) returns (err: Option<Error>, e: Event)
      modifies this
      ensures e == Answer(world, old(log), call) && err == Failure(e)
      ensures log == old(log) + [e]
    {
      e := Answer(world, log, call);
      err := Failure(e);
      log := log + [e];
    }

    /** Measures how far the cursor is from where it is expected. */
    method Guard(p: Target) returns (drift: bool)
      modifies this
      ensures var offset := Answer(world, old(log), Offset(0, 0, false));
              var cursor := Answer(world, old(log) + [offset], Cursor(0, 0, false));
              log == old(log) + [offset] + [cursor]
              && (drift <==> OffTarget(window.threshold, p, offset, cursor))
    {
      var expectedX, expectedY := p.screenX, p.screenY;
      var _, offset := Do(Offset(0, 0, false));
      if !offset.failed {
        expectedX := expectedX + offset.ox;
        expectedY := expectedY + offset.oy;
      }
      var _, cursor := Do(Cursor(0, 0, false));
      drift := false;
      if !cursor.failed {
        drift := Abs(cursor.cx - expectedX) > window.threshold || Abs(cursor.cy - expectedY) > window.threshold;
      }
    }

    /** clickAt. */
    method ClickGuarded(p: Target) returns (err: Option<Error>)
      modifies this
      ensures Outcome(log, err) == ClickedAt(world, window.threshold, p, old(log))
    {
      var e, drift;
      PlayNext(world, log, [MoveTo(p.x, p.y, false)]);
      err, e := Do(MoveTo(p.x, p.y, false));
      if err.Some? {
        return;
      }
      drift := Guard(p);
      if drift {
        return Some(CursorDrift);
      }
      PlayPair(world, log, Poll(false), ClickAt(p.x, p.y, false));
      err, e := Do(Poll(false));
      if err.Some? {
        return;
      }
      err, e := Do(ClickAt(p.x, p.y, false));
    }

    /** The calls before the action, common to all actions. */
    method Open() returns (err: Option<Error>)
      modifies this
      ensures Outcome(log, err) == Play(world, old(log), OPEN_SCRIPT)
    {
      var e;
      PlayNext(world, log, OPEN_SCRIPT);
      err, e := Do(Poll(false));
      if err.Some? {
        return;
      }
      PlayPair(world, log, Focus(false), Current(false));
      err, e := Do(Focus(false));
      if err.Some? {
        return;
      }
      err, e := Do(Current(false));
    }

    /** The click of a click or type action. */
    method Aim(sel: string) returns (err: Option<Error>)
      modifies this
      ensures Outcome(log, err) == Clicked(world, window, sel, old(log))
    {
      var e;
      PlayPair(world, log, Poll(false), Center(sel, 0.0, 0.0, false));
      err, e := Do(Poll(false));
      if err.Some? {
        return;
      }
      err, e := Do(Center(sel, 0.0, 0.0, false));
      if err.Some? {
        return;
      }
      err := ClickGuarded(Expected(window, e.x, e.y));
    }

    /** Typing, once the element has the focus. */
    method TypeText(text: string, clear: bool) returns (err: Option<Error>)
      modifies this
      ensures Outcome(log, err) == Typed(world, text, clear, old(log))
    {
      var e, layout;
      ghost var script := TypeScript(text, clear);
      PlayNext(world, log, script);
      err, layout := Do(ForceLayout(0));
      if clear {
        assert script[1..] == [ClearInput(false), TypeHuman(text, false)];
        PlayPair(world, log, ClearInput(false), TypeHuman(text, false));
        err, e := Do(ClearInput(false));
        if err.Some? {
          var _, restored := Do(RestoreLayout(layout.prev));
          return;
        }
      } else {
        assert script[1..] == [TypeHuman(text, false)];
        PlayNext(world, log, [TypeHuman(text, false)]);
      }
      err, e := Do(TypeHuman(text, false));
      var _, restored := Do(RestoreLayout(layout.prev));
    }

    /** executeCritical: one attempt. */
    method ExecuteCritical(a: Action) returns (err: Option<Error>)
      modifies this
      ensures Outcome(log, err) == Attempted(world, window, a, old(log))
    {
      err := Open();
      if err.Some? {
        return;
      }
      match a
      case Navigate(url) =>
        var e;
        PlayNext(world, log, [NavigateTo(url, false)]);
        err, e := Do(NavigateTo(url, false));
      case Click(sel) =>
        err := Aim(sel);
      case Type(sel, text, clear) =>
        err := Aim(sel);
        if err.None? {
          err := TypeText(text, clear);
        }
      case Scroll(_) =>
        err := Some(Unsupported);
      case Wait(_, _) =>
        err := Some(Unsupported);
    }

    /** executeCriticalWithRetry. */
    method ExecuteWithRetry(a: Action, driftRetries: nat) returns (err: Option<Error>)
      modifies this
      ensures Outcome(log, err) == Retried(world, window, a, driftRetries, old(log))
    {
      err := ExecuteCritical(a);
      var attempt := 1;
      while attempt <= driftRetries && err == Some(CursorDrift)
        invariant 1 <= attempt <= driftRetries + 1
        invariant Retried(world, window, a, driftRetries, old(log))
               == Resumed(world, Attempts(world, window, a), driftRetries + 1 - attempt, Outcome(log, err))
      {
        var _, wait := Do(Backoff(false));
        if wait.cancelled {
          return Some(ContextDone);
        }
        err := ExecuteCritical(a);
        attempt := attempt + 1;
      }
    }
  }

  /** Making a call and then, if it succeeds, the rest. */
  function After(world: World, log: seq<Event>, call: Event, rest: seq<Event>): Outcome {
    var e := Answer(world, log, call);
    if Failure(e).Some? || rest == [] then Outcome(log + [e], Failure(e)) else Play(world, log + [e], rest)
  }

  lemma PlayNext(world: World, log: seq<Event>, script: seq<Event>)
    requires script != []
    ensures Play(world, log, script) == After(world, log, script[0], script[1..])
  {
  }

  lemma PlayPair(world: World, log: seq<Event>, first: Event, second: Event)
    ensures Play(world, log, [first, second]) == After(world, log, first, [second])
    ensures forall l :: Play(world, l, [second]) == After(world, l, second, [])
  {
    assert [first, second][1..] == [second];
  }
}
