/** What every trace of a native job looks like, whatever the driver answers. */
module NativeTraces {
  import opened Jobs
  import opened CriticalTrace

  const CENTER_AT := 4
  const CURSOR_AT := 7
  const CLICK_AT := 9
  const LAYOUT_AT := 10

  /** The calls an attempt makes if nothing goes wrong, the layout's restoration aside. */
  function Script(a: Action, p: Target): seq<Event> {
    match a
    case Click(sel) => OPEN_SCRIPT + ClickSteps(sel, p)
    case Type(sel, text, clear) => OPEN_SCRIPT + ClickSteps(sel, p) + TypeScript(text, clear)
    case Navigate(url) => OPEN_SCRIPT + [NavigateTo(url, false)]
    case Scroll(_) => OPEN_SCRIPT
    case Wait(_, _) => OPEN_SCRIPT
  }

  function ClickSteps(sel: string, p: Target): seq<Event> {
    FindScript(sel) + GuardedScript(p)
  }

  function GuardedScript(p: Target): seq<Event> {
    [MoveTo(p.x, p.y, false), Offset(0, 0, false), Cursor(0, 0, false)] + ClickScript(p.x, p.y)
  }

  /** t follows the script, and no call before its last one failed. */
  ghost predicate Prefix(t: seq<Event>, script: seq<Event>) {
    && 0 < |t| <= |script|
    && (forall i :: 0 <= i < |t| ==> Performs(t[i], script[i]))
    && (forall i :: 0 <= i < |t| - 1 ==> Failure(t[i]).None?)
  }

  ghost predicate DriftedAt(threshold: nat, p: Target, t: seq<Event>, at: nat) {
    0 < at < |t| && OffTarget(threshold, p, t[at - 1], t[at])
  }

  /** t stops where a call fails, where the guard trips at `at`, or at its full length. */
  ghost predicate Stops(threshold: nat, p: Target, t: seq<Event>, at: nat, full: nat, err: Option<Error>)
    requires t != []
  {
    var last := Failure(t[|t| - 1]);
    && (DriftedAt(threshold, p, t, at) ==> |t| == at + 1)
    && (if last.Some? then err == last
        else if DriftedAt(threshold, p, t, at) then err == Some(CursorDrift)
        else err == None && |t| == full)
  }

  /** An attempt follows the script until a call fails or the cursor has drifted,
      and not a call further. */
  ghost predicate Follows(threshold: nat, a: Action, p: Target, t: seq<Event>, err: Option<Error>) {
    var script := Script(a, p);
    && Prefix(t, script)
    && if Clicks(a) then Stops(threshold, p, t, CURSOR_AT, |script|, err)
       else if Failure(t[|t| - 1]).Some? then err == Failure(t[|t| - 1])
       else |t| == |script| && err == if a.Navigate? then None else Some(Unsupported)
  }

  /** A whole attempt: the point it clicks, the calls it followed, and the layout. */
  datatype Attempt = Attempt(target: Target, calls: seq<Event>, err: Option<Error>) {
    function Trace(): seq<Event> {
      if |calls| > LAYOUT_AT && calls[LAYOUT_AT].ForceLayout?
      then calls + [RestoreLayout(calls[LAYOUT_AT].prev)] else calls
    }
  }

  ghost predicate Sound(w: Window, a: Action, t: Attempt) {
    && t.target == Expected(w, t.target.x, t.target.y)
    && Follows(w.threshold, a, t.target, t.calls, t.err)
    && (Clicks(a) && |t.calls| > CENTER_AT ==> t.calls[CENTER_AT].x == t.target.x && t.calls[CENTER_AT].y == t.target.y)
  }

  // ----- every attempt is sound ------------------------------------------------------

  /** The calls that were played, as a sequence of their own. */
  lemma {:induction false} PlayFollows(world: World, log: seq<Event>, script: seq<Event>) returns (t: seq<Event>)
    requires script != []
    ensures Play(world, log, script).log == log + t && Prefix(t, script) && t[0] == Answer(world, log, script[0])
    ensures Play(world, log, script).err == Failure(t[|t| - 1])
    ensures Failure(t[|t| - 1]).None? ==> |t| == |script|
    ensures |t| > 1 ==> t[1] == Answer(world, log + [t[0]], script[1])
    decreases |script|
  {
    var e := Answer(world, log, script[0]);
    if Failure(e).Some? || |script| == 1 {
      t := [e];
    } else {
      var rest := PlayFollows(world, log + [e], script[1..]);
      t := [e] + rest;
      assert log + t == log + [e] + rest;
    }
  }

  /** Two stretches of a script, the first of them completed. */
  lemma PrefixPlus(t: seq<Event>, u: seq<Event>, first: seq<Event>, second: seq<Event>, third: seq<Event>)
    requires Prefix(t, first) && |t| == |first| && Failure(t[|t| - 1]).None? && Prefix(u, second)
    ensures Prefix(t + u, first + second + third)
  {
    forall i | 0 <= i < |t + u| ensures Performs((t + u)[i], (first + second + third)[i]) {
      if i >= |t| {
        assert (t + u)[i] == u[i - |t|] && (first + second + third)[i] == second[i - |t|];
      }
    }
  }

  lemma PrefixLonger(t: seq<Event>, first: seq<Event>, more: seq<Event>)
    requires Prefix(t, first)
    ensures Prefix(t, first + more)
  {
  }

  /** Where a stretch stops does not depend on the calls made before it. */
  lemma StopsPlus(threshold: nat, p: Target, t: seq<Event>, u: seq<Event>, at: nat, full: nat, err: Option<Error>)
    requires u != [] && 0 < at && Stops(threshold, p, u, at, full, err)
    ensures Stops(threshold, p, t + u, |t| + at, |t| + full, err)
  {
    var all := t + u;
    assert all[|all| - 1] == u[|u| - 1];
    assert at < |u| ==> all[|t| + at] == u[at] && all[|t| + at - 1] == u[at - 1];
  }

  /** The guard trips, or the click is tried. */
  lemma ClickFollows(world: World, threshold: nat, p: Target, log: seq<Event>) returns (t: seq<Event>)
    ensures ClickedAt(world, threshold, p, log).log == log + t && Prefix(t, GuardedScript(p))
    ensures Stops(threshold, p, t, 2, 5, ClickedAt(world, threshold, p, log).err)
  {
    var move := [MoveTo(p.x, p.y, false)];
    var r := ClickedAt(world, threshold, p, log);
    t := PlayFollows(world, log, move);
    if Failure(t[0]).Some? {
      PrefixLonger(t, move, GuardedScript(p)[1..]);
      assert move + GuardedScript(p)[1..] == GuardedScript(p);
    } else {
      t := SeenFollows(world, threshold, p, log, t[0]);
    }
  }

  lemma SeenFollows(world: World, threshold: nat, p: Target, log: seq<Event>, move: Event) returns (t: seq<Event>)
    requires move == Answer(world, log, MoveTo(p.x, p.y, false)) && Failure(move).None?
    ensures ClickedAt(world, threshold, p, log).log == log + t && Prefix(t, GuardedScript(p))
    ensures Stops(threshold, p, t, 2, 5, ClickedAt(world, threshold, p, log).err)
  {
    var offset := Answer(world, log + [move], Offset(0, 0, false));
    var cursor := Answer(world, log + [move] + [offset], Cursor(0, 0, false));
    t := [move, offset, cursor];
    var script := [MoveTo(p.x, p.y, false), Offset(0, 0, false), Cursor(0, 0, false)];
    assert log + [move] + [offset] + [cursor] == log + t;
    assert Play(world, log, [script[0]]) == Outcome(log + [move], None);
    if OffTarget(threshold, p, offset, cursor) {
      PrefixLonger(t, script, ClickScript(p.x, p.y));
    } else {
      var click := PlayFollows(world, log + t, ClickScript(p.x, p.y));
      PrefixPlus(t, click, script, ClickScript(p.x, p.y), []);
      assert script + ClickScript(p.x, p.y) + [] == GuardedScript(p);
      assert log + t + click == log + (t + click);
      StopsLater(threshold, p, t, click, Play(world, log + t, ClickScript(p.x, p.y)).err);
      t := t + click;
    }
  }

  /** Past a guard that did not trip, an attempt stops where its calls do. */
  lemma StopsLater(threshold: nat, p: Target, t: seq<Event>, u: seq<Event>, err: Option<Error>)
    requires |t| == 3 && u != [] && !DriftedAt(threshold, p, t, 2)
    requires err == Failure(u[|u| - 1]) && (err.None? ==> |u| == 2)
    ensures Stops(threshold, p, t + u, 2, 5, err)
  {
    assert (t + u)[|t + u| - 1] == u[|u| - 1];
  }

  /** The click of an action, from the second poll on. */
  lemma AimFollows(world: World, w: Window, sel: string, log: seq<Event>) returns (p: Target, t: seq<Event>)
    ensures Clicked(world, w, sel, log).log == log + t && Prefix(t, ClickSteps(sel, p))
    ensures Stops(w.threshold, p, t, 4, 7, Clicked(world, w, sel, log).err)
    ensures p == Expected(w, p.x, p.y) && (|t| > 1 ==> t[1].x == p.x && t[1].y == p.y)
  {
    p := FoundAt(world, w, log);
    var find := FindScript(sel);
    t := PlayFollows(world, log, find);
    if Failure(t[|t| - 1]).Some? {
      PrefixLonger(t, find, GuardedScript(p));
    } else {
      var click := ClickFollows(world, w.threshold, p, log + t);
      PrefixPlus(t, click, find, GuardedScript(p), []);
      assert find + GuardedScript(p) + [] == ClickSteps(sel, p);
      StopsPlus(w.threshold, p, t, click, 2, 5, Clicked(world, w, sel, log).err);
      assert log + t + click == log + (t + click);
      t := t + click;
    }
  }

  lemma TypingFollows(world: World, w: Window, a: Action, p: Target, log: seq<Event>, before: seq<Event>)
    returns (t: Attempt)
    requires a.Type? && Prefix(before, OPEN_SCRIPT + ClickSteps(a.selector, p)) && |before| == LAYOUT_AT
    requires Failure(before[9]).None? && Stops(w.threshold, p, before, CURSOR_AT, LAYOUT_AT, None)
    requires p == Expected(w, p.x, p.y) && before[CENTER_AT].x == p.x && before[CENTER_AT].y == p.y
    ensures Typed(world, a.text, a.clearFirst, log + before) == Outcome(log + t.Trace(), t.err) && Sound(w, a, t)
  {
    var typed := TypeScript(a.text, a.clearFirst);
    var typing := PlayFollows(world, log + before, typed);
    var click := OPEN_SCRIPT + ClickSteps(a.selector, p);
    PrefixPlus(before, typing, click, typed, []);
    assert Script(a, p) == click + typed + [];
    var all := before + typing;
    t := Attempt(p, all, Failure(typing[|typing| - 1]));
    assert all[|all| - 1] == typing[|typing| - 1] && all[LAYOUT_AT] == typing[0];
    assert all[CURSOR_AT] == before[CURSOR_AT] && all[CURSOR_AT - 1] == before[CURSOR_AT - 1];
    assert log + before + typing + [RestoreLayout(typing[0].prev)] == log + t.Trace();
  }

  lemma InteractFollows(world: World, w: Window, a: Action, log: seq<Event>, open: seq<Event>) returns (t: Attempt)
    requires Clicks(a) && Prefix(open, OPEN_SCRIPT) && |open| == 3 && Failure(open[2]).None?
    ensures Interacted(world, w, a, log + open) == Outcome(log + t.Trace(), t.err) && Sound(w, a, t)
  {
    var clicked := Clicked(world, w, a.selector, log + open);
    var p, before := OpenedAim(world, w, a.selector, log, open);
    if a.Click? || clicked.err.Some? {
      t := AimOnly(w, a, p, before, clicked.err);
    } else {
      t := TypingFollows(world, w, a, p, log, before);
    }
  }

  lemma OpenedAim(world: World, w: Window, sel: string, log: seq<Event>, open: seq<Event>)
    returns (p: Target, t: seq<Event>)
    requires Prefix(open, OPEN_SCRIPT) && |open| == 3 && Failure(open[2]).None?
    ensures Clicked(world, w, sel, log + open).log == log + t && Prefix(t, OPEN_SCRIPT + ClickSteps(sel, p))
    ensures Stops(w.threshold, p, t, CURSOR_AT, LAYOUT_AT, Clicked(world, w, sel, log + open).err)
    ensures p == Expected(w, p.x, p.y)
    ensures |t| > CENTER_AT ==> t[CENTER_AT].Center? && t[CENTER_AT].x == p.x && t[CENTER_AT].y == p.y
  {
    var aim;
    p, aim := AimFollows(world, w, sel, log + open);
    t := OpenThenAim(w, sel, p, open, aim, Clicked(world, w, sel, log + open).err);
    assert log + open + aim == log + t;
  }

  lemma OpenThenAim(w: Window, sel: string, p: Target, open: seq<Event>, aim: seq<Event>, err: Option<Error>)
    returns (t: seq<Event>)
    requires Prefix(open, OPEN_SCRIPT) && |open| == 3 && Failure(open[2]).None?
    requires Prefix(aim, ClickSteps(sel, p)) && Stops(w.threshold, p, aim, 4, 7, err)
    requires |aim| > 1 ==> aim[1].x == p.x && aim[1].y == p.y
    ensures t == open + aim && Prefix(t, OPEN_SCRIPT + ClickSteps(sel, p))
    ensures Stops(w.threshold, p, t, CURSOR_AT, LAYOUT_AT, err)
    ensures |t| > CENTER_AT ==> t[CENTER_AT].Center? && t[CENTER_AT].x == p.x && t[CENTER_AT].y == p.y
  {
    var steps := ClickSteps(sel, p);
    t := open + aim;
    PrefixPlus(open, aim, OPEN_SCRIPT, steps, []);
    assert OPEN_SCRIPT + steps + [] == OPEN_SCRIPT + steps;
    StopsPlus(w.threshold, p, open, aim, 4, 7, err);
  }

  /** An attempt that only clicks, or that fails to. */
  lemma AimOnly(w: Window, a: Action, p: Target, before: seq<Event>, err: Option<Error>) returns (t: Attempt)
    requires Clicks(a) && (a.Click? || err.Some?)
    requires Prefix(before, OPEN_SCRIPT + ClickSteps(a.selector, p))
    requires Stops(w.threshold, p, before, CURSOR_AT, LAYOUT_AT, err) && p == Expected(w, p.x, p.y)
    requires |before| > CENTER_AT ==> before[CENTER_AT].Center? && before[CENTER_AT].x == p.x && before[CENTER_AT].y == p.y
    ensures t.Trace() == before && t.err == err && Sound(w, a, t)
  {
    t := Attempt(p, before, err);
    var rest := if a.Click? then [] else TypeScript(a.text, a.clearFirst);
    PrefixLonger(before, OPEN_SCRIPT + ClickSteps(a.selector, p), rest);
    assert Script(a, p) == OPEN_SCRIPT + ClickSteps(a.selector, p) + rest;
  }

  /** Every attempt is sound. */
  lemma AttemptSound(world: World, w: Window, a: Action, log: seq<Event>) returns (t: Attempt)
    ensures Attempted(world, w, a, log) == Outcome(log + t.Trace(), t.err) && Sound(w, a, t)
  {
    var p := Expected(w, 0.0, 0.0);
    var open := PlayFollows(world, log, OPEN_SCRIPT);
    if Failure(open[|open| - 1]).Some? {
      t := Attempt(p, open, Failure(open[|open| - 1]));
      PrefixLonger(open, OPEN_SCRIPT, Script(a, p)[3..]);
      assert Script(a, p) == OPEN_SCRIPT + Script(a, p)[3..];
    } else if a.Navigate? {
      var go := PlayFollows(world, log + open, [NavigateTo(a.url, false)]);
      t := Attempt(p, open + go, Failure(go[0]));
      assert log + open + go == log + (open + go);
    } else if Clicks(a) {
      t := InteractFollows(world, w, a, log, open);
    } else {
      t := Attempt(p, open, Some(Unsupported));
    }
  }

  // ----- a job -----------------------------------------------------------------------

  /** A job: attempts that drifted, each followed by a wait, and a last one. The wait
      behind the last attempt is there only if the context was cancelled in it. */
  datatype JobRun = JobRun(attempts: seq<Attempt>, cutShort: bool, err: Option<Error>) {
    function Trace(): seq<Event> {
      Flatten(attempts, cutShort)
    }
  }

  function Flatten(attempts: seq<Attempt>, cutShort: bool): seq<Event> {
    if attempts == [] then []
    else if |attempts| == 1 then attempts[0].Trace() + if cutShort then [Backoff(true)] else []
    else attempts[0].Trace() + [Backoff(false)] + Flatten(attempts[1..], cutShort)
  }

  /** Attempts of which all but the last drifted. */
  ghost predicate Tried(w: Window, a: Action, attempts: seq<Attempt>) {
    && attempts != []
    && (forall i :: 0 <= i < |attempts| ==> Sound(w, a, attempts[i]))
    && (forall i :: 0 <= i < |attempts| - 1 ==> attempts[i].err == Some(CursorDrift))
  }

  /** What a whole job may look like. */
  ghost predicate SoundRun(w: Window, a: Action, retries: nat, r: JobRun) {
    && Tried(w, a, r.attempts) && |r.attempts| <= 1 + retries
    && var last := r.attempts[|r.attempts| - 1].err;
       if r.cutShort then last == Some(CursorDrift) && |r.attempts| <= retries && r.err == Some(ContextDone)
       else r.err == last && (r.err == Some(CursorDrift) ==> |r.attempts| == 1 + retries)
  }

  /** out is what a sound attempt makes of log. */
  ghost predicate Came(w: Window, a: Action, log: seq<Event>, out: Outcome) {
    exists t: Attempt :: out == Outcome(log + t.Trace(), t.err) && Sound(w, a, t)
  }

  /** out is what a sound run makes of log. */
  ghost predicate Ran(w: Window, a: Action, retries: nat, log: seq<Event>, out: Outcome) {
    exists r: JobRun :: out == Outcome(log + r.Trace(), r.err) && SoundRun(w, a, retries, r)
  }

  /** What holds of every attempt, and passes on from an attempt to a run, holds of
      every run. */
  lemma {:induction false} ResumedInduct(world: World, attempt: seq<Event> -> Outcome,
                                         came: (seq<Event>, Outcome) -> bool, ran: (nat, seq<Event>, Outcome) -> bool,
                                         left: nat, log: seq<Event>, out: Outcome)
    requires forall l :: came(l, attempt(l))
    requires forall n: nat, l, o :: came(l, o) && (n == 0 || o.err != Some(CursorDrift)) ==> ran(n, l, o)
    requires forall n: nat, l, o :: n > 0 && came(l, o) && o.err == Some(CursorDrift)
               ==> ran(n, l, Outcome(o.log + [Backoff(true)], Some(ContextDone)))
    requires forall n: nat, l, o, end ::
               (n > 0 && came(l, o) && o.err == Some(CursorDrift) && ran(n - 1, o.log + [Backoff(false)], end))
               ==> ran(n, l, end)
    requires came(log, out)
    ensures ran(left, log, Resumed(world, attempt, left, out))
    decreases left
  {
    if left > 0 && out.err == Some(CursorDrift) && Answer(world, out.log, Backoff(false)) == Backoff(false) {
      var waited := out.log + [Backoff(false)];
      ResumedInduct(world, attempt, came, ran, left - 1, waited, attempt(waited));
    }
  }

  /** Every job is sound: what Rig.ExecuteWithRetry does is a run of this shape. */
  lemma RunSound(world: World, w: Window, a: Action, retries: nat, log: seq<Event>)
    ensures Ran(w, a, retries, log, Retried(world, w, a, retries, log))
  {
    forall l ensures Came(w, a, l, Attempts(world, w, a)(l)) {
      var t := AttemptSound(world, w, a, l);
    }
    forall n: nat, l, o | Came(w, a, l, o) && (n == 0 || o.err != Some(CursorDrift)) ensures Ran(w, a, n, l, o) {
      RanOnce(w, a, n, l, o);
    }
    forall n: nat, l, o | n > 0 && Came(w, a, l, o) && o.err == Some(CursorDrift)
      ensures Ran(w, a, n, l, Outcome(o.log + [Backoff(true)], Some(ContextDone)))
    {
      RanCut(w, a, n, l, o);
    }
    forall n: nat, l, o, end | n > 0 && Came(w, a, l, o) && o.err == Some(CursorDrift)
                             && Ran(w, a, n - 1, o.log + [Backoff(false)], end)
      ensures Ran(w, a, n, l, end)
    {
      RanLater(w, a, n, l, o, end);
    }
    ResumedInduct(world, Attempts(world, w, a), (l, o) => Came(w, a, l, o), (n: nat, l, o) => Ran(w, a, n, l, o),
                  retries, log, Attempts(world, w, a)(log));
  }

  lemma RanOnce(w: Window, a: Action, left: nat, log: seq<Event>, out: Outcome)
    requires Came(w, a, log, out) && (left == 0 || out.err != Some(CursorDrift))
    ensures Ran(w, a, left, log, out)
  {
    var t: Attempt :| out == Outcome(log + t.Trace(), t.err) && Sound(w, a, t);
    var r := JobRun([t], false, t.err);
    RanBy(w, a, left, log, out, r);
  }

  lemma RanCut(w: Window, a: Action, left: nat, log: seq<Event>, out: Outcome)
    requires left > 0 && Came(w, a, log, out) && out.err == Some(CursorDrift)
    ensures Ran(w, a, left, log, Outcome(out.log + [Backoff(true)], Some(ContextDone)))
  {
    var t: Attempt :| out == Outcome(log + t.Trace(), t.err) && Sound(w, a, t);
    RanCutBy(w, a, left, log, t);
  }

  lemma RanCutBy(w: Window, a: Action, left: nat, log: seq<Event>, t: Attempt)
    requires left > 0 && Sound(w, a, t) && t.err == Some(CursorDrift)
    ensures Ran(w, a, left, log, Outcome(log + t.Trace() + [Backoff(true)], Some(ContextDone)))
  {
    var r := CutRun(w, a, left, t);
    Regroup(log, t.Trace(), Backoff(true), []);
    RanBy(w, a, left, log, Outcome(log + r.Trace(), r.err), r);
  }

  lemma CutRun(w: Window, a: Action, left: nat, t: Attempt) returns (r: JobRun)
    requires Sound(w, a, t) && left > 0 && t.err == Some(CursorDrift)
    ensures r.Trace() == t.Trace() + [Backoff(true)] && r.err == Some(ContextDone) && SoundRun(w, a, left, r)
  {
    r := JobRun([t], true, Some(ContextDone));
  }

  lemma RanLater(w: Window, a: Action, left: nat, log: seq<Event>, out: Outcome, end: Outcome)
    requires left > 0 && Came(w, a, log, out) && out.err == Some(CursorDrift)
    requires Ran(w, a, left - 1, out.log + [Backoff(false)], end)
    ensures Ran(w, a, left, log, end)
  {
    var t: Attempt :| out == Outcome(log + t.Trace(), t.err) && Sound(w, a, t);
    var rest: JobRun :| end == Outcome(out.log + [Backoff(false)] + rest.Trace(), rest.err) && SoundRun(w, a, left - 1, rest);
    var r := LaterRun(w, a, left, t, rest);
    Regroup(log, t.Trace(), Backoff(false), rest.Trace());
    RanBy(w, a, left, log, end, r);
  }

  lemma RanBy(w: Window, a: Action, retries: nat, log: seq<Event>, out: Outcome, r: JobRun)
    requires out == Outcome(log + r.Trace(), r.err) && SoundRun(w, a, retries, r)
    ensures Ran(w, a, retries, log, out)
  {
  }

  lemma Regroup(log: seq<Event>, t: seq<Event>, e: Event, u: seq<Event>)
    ensures log + t + [e] + u == log + (t + [e] + u)
    ensures log + t + [e] == log + (t + [e])
  {
  }

  lemma LaterRun(w: Window, a: Action, left: nat, t: Attempt, rest: JobRun) returns (r: JobRun)
    requires left > 0 && Sound(w, a, t) && t.err == Some(CursorDrift) && SoundRun(w, a, left - 1, rest)
    ensures r.Trace() == t.Trace() + [Backoff(false)] + rest.Trace() && r.err == rest.err
    ensures SoundRun(w, a, left, r)
  {
    r := JobRun([t] + rest.attempts, rest.cutShort, rest.err);
    assert r.attempts[1..] == rest.attempts;
  }
}
