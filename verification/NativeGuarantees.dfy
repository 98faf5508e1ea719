/** What holds of every native job, whatever the driver answers: what it does at most
    once, in which order, and how far from its target it may click. */
module NativeGuarantees {
  import opened Jobs
  import opened CriticalTrace
  import opened NativeTraces

  /** The calls that change the page or the keyboard, and the cursor's click. */
  predicate Acts(e: Event) {
    e.ClickAt? || e.NavigateTo? || e.ForceLayout? || e.ClearInput? || e.TypeHuman? || e.RestoreLayout?
  }

  function Count(t: seq<Event>, which: Event -> bool): nat {
    if t == [] then 0 else (if which(t[0]) then 1 else 0) + Count(t[1..], which)
  }

  lemma {:induction false} CountPlus(t: seq<Event>, u: seq<Event>, which: Event -> bool)
    ensures Count(t + u, which) == Count(t, which) + Count(u, which)
  {
    if t == [] {
      assert t + u == u;
    } else {
      assert (t + u)[1..] == t[1..] + u;
      CountPlus(t[1..], u, which);
    }
  }

  lemma {:induction false} CountNone(t: seq<Event>, which: Event -> bool)
    requires forall i :: 0 <= i < |t| ==> !which(t[i])
    ensures Count(t, which) == 0
  {
    if t != [] {
      CountNone(t[1..], which);
    }
  }

  lemma CountOnlyAt(t: seq<Event>, which: Event -> bool, at: nat)
    requires forall i :: 0 <= i < |t| && which(t[i]) ==> i == at
    ensures Count(t, which) == if at < |t| && which(t[at]) then 1 else 0
  {
    if at < |t| {
      assert t == t[..at] + ([t[at]] + t[at + 1..]);
      CountPlus(t[..at], [t[at]] + t[at + 1..], which);
      CountNone(t[..at], which);
      CountNone(t[at + 1..], which);
    } else {
      CountNone(t, which);
    }
  }

  predicate Succeeded(e: Event) { Failure(e).None? }

  // ----- one attempt -------------------------------------------------------------------

  /** An attempt that drifted made eight calls and acted on nothing. */
  lemma DriftedActsOnNothing(w: Window, a: Action, t: Attempt)
    requires Sound(w, a, t) && t.err == Some(CursorDrift)
    ensures Clicks(a) && |t.Trace()| == CURSOR_AT + 1
    ensures forall i :: 0 <= i < |t.Trace()| ==> !Acts(t.Trace()[i])
  {
    assert Script(a, t.target)[..CURSOR_AT + 1]
        == OPEN_SCRIPT + FindScript(a.selector) + GuardedScript(t.target)[..3];
    assert forall i :: 0 <= i <= CURSOR_AT ==> Script(a, t.target)[i] == Script(a, t.target)[..CURSOR_AT + 1][i];
  }

  /** Where TypeHuman comes in a typing attempt. */
  function TypeAt(a: Action): nat {
    if a.Type? && a.clearFirst then LAYOUT_AT + 2 else LAYOUT_AT + 1
  }

  /** The script of a clicking attempt, call by call. */
  lemma ClickingScript(a: Action, p: Target)
    requires Clicks(a)
    ensures var s := Script(a, p);
      && |s| == (if a.Click? then LAYOUT_AT else TypeAt(a) + 1)
      && s[..CLICK_AT + 1] == [Poll(false), Focus(false), Current(false), Poll(false), Center(a.selector, 0.0, 0.0, false),
           MoveTo(p.x, p.y, false), Offset(0, 0, false), Cursor(0, 0, false), Poll(false), ClickAt(p.x, p.y, false)]
      && (a.Type? ==> s[LAYOUT_AT] == ForceLayout(0) && s[TypeAt(a)] == TypeHuman(a.text, false))
      && (a.Type? && a.clearFirst ==> s[LAYOUT_AT + 1] == ClearInput(false))
  {
  }

  /** Which call of an attempt can be where. */
  predicate InPlace(a: Action, e: Event, i: nat, n: nat) {
    && (e.ClickAt? ==> Clicks(a) && i == CLICK_AT)
    && (e.NavigateTo? ==> a.Navigate? && i == 3)
    && (e.TypeHuman? ==> a.Type? && i == TypeAt(a) && e.text == a.text)
    && (e.ClearInput? ==> a.Type? && a.clearFirst && i == LAYOUT_AT + 1)
    && (e.ForceLayout? ==> a.Type? && i == LAYOUT_AT)
    && (e.RestoreLayout? ==> a.Type? && i == n - 1 && i > LAYOUT_AT)
    && (e.Focus? ==> i == 1)
    && !e.Backoff?
    && (e.Cursor? ==> Clicks(a) && i == CURSOR_AT)
  }

  lemma CallsInPlace(w: Window, a: Action, t: Attempt, i: nat)
    requires Sound(w, a, t) && i < |t.Trace()|
    ensures InPlace(a, t.Trace()[i], i, |t.Trace()|)
  {
    var s := Script(a, t.target);
    if Clicks(a) {
      ClickingScript(a, t.target);
      assert i <= CLICK_AT ==> s[i] == s[..CLICK_AT + 1][i];
    }
    assert i < |t.calls| ==> Performs(t.calls[i], s[i]);
  }

  /** Typing comes after a click at the point where the element was found, after the
      input was cleared if and only if that was asked for, and before the layout that
      it found is restored. */
  predicate TypedProperly(a: Action, t: seq<Event>, at: nat) {
    a.Type? && at < |t| && t[at] in {TypeHuman(a.text, true), TypeHuman(a.text, false)}
    && var k := at - (if a.clearFirst then 3 else 2);
    && k >= 5 && at + 1 < |t|
    && t[k].ClickAt? && t[k - 5] == Center(a.selector, t[k].x, t[k].y, false) && !t[k].failed
    && t[k + 1].ForceLayout? && t[at + 1] == RestoreLayout(t[k + 1].prev)
    && (a.clearFirst ==> t[k + 2] == ClearInput(false))
  }

  /** The calls of a clicking attempt, as far as it got. */
  predicate ClickingCalls(a: Action, p: Target, t: seq<Event>)
    requires Clicks(a)
  {
    AimingCalls(a, p, t) && TypingCalls(a, t)
  }

  predicate AimingCalls(a: Action, p: Target, t: seq<Event>)
    requires Clicks(a)
  {
    && (forall i :: 0 <= i < |t| - 1 ==> Succeeded(t[i]))
    && (|t| > 1 ==> t[1].Focus?)
    && (|t| > CENTER_AT ==> t[CENTER_AT].Center? && t[CENTER_AT].selector == a.selector)
    && (|t| > CENTER_AT ==> t[CENTER_AT].x == p.x && t[CENTER_AT].y == p.y)
    && (|t| > CURSOR_AT ==> t[CURSOR_AT - 1].Offset? && t[CURSOR_AT].Cursor?)
    && (|t| > CLICK_AT ==> t[CLICK_AT].ClickAt? && t[CLICK_AT].x == p.x && t[CLICK_AT].y == p.y)
  }

  predicate TypingCalls(a: Action, t: seq<Event>) {
    && (|t| > LAYOUT_AT ==> a.Type? && t[LAYOUT_AT].ForceLayout?)
    && (|t| > LAYOUT_AT + 1 && a.Type? && a.clearFirst ==> t[LAYOUT_AT + 1].ClearInput?)
    && (|t| > TypeAt(a) ==> |t| == TypeAt(a) + 1 && a.Type? && t[TypeAt(a)].TypeHuman? && t[TypeAt(a)].text == a.text)
  }

  lemma AttemptCalls(w: Window, a: Action, t: Attempt)
    requires Sound(w, a, t) && Clicks(a)
    ensures ClickingCalls(a, t.target, t.calls)
  {
    if |t.calls| > CENTER_AT {
      assert Performs(t.calls[CENTER_AT], Script(a, t.target)[CENTER_AT]);
    }
    PrefixCalls(a, t.target, t.calls);
  }

  lemma PrefixCalls(a: Action, p: Target, t: seq<Event>)
    requires Clicks(a) && Prefix(t, Script(a, p))
    requires |t| > CENTER_AT && t[CENTER_AT].Center? ==> t[CENTER_AT].x == p.x && t[CENTER_AT].y == p.y
    ensures ClickingCalls(a, p, t)
  {
    PrefixAims(a, p, t);
    PrefixTypes(a, p, t);
  }

  lemma PrefixAims(a: Action, p: Target, t: seq<Event>)
    requires Clicks(a) && Prefix(t, Script(a, p))
    requires |t| > CENTER_AT && t[CENTER_AT].Center? ==> t[CENTER_AT].x == p.x && t[CENTER_AT].y == p.y
    ensures AimingCalls(a, p, t)
  {
    FirstCalls(a, p);
    var s := Script(a, p);
    assert forall k :: 0 <= k < |t| ==> Performs(t[k], s[k]);
  }

  lemma PrefixTypes(a: Action, p: Target, t: seq<Event>)
    requires Clicks(a) && Prefix(t, Script(a, p))
    ensures TypingCalls(a, t)
  {
    ClickingScript(a, p);
    var s := Script(a, p);
    assert forall k :: 0 <= k < |t| ==> Performs(t[k], s[k]);
  }

  lemma FirstCalls(a: Action, p: Target)
    requires Clicks(a)
    ensures var s := Script(a, p);
      && |s| > CLICK_AT && s[1] == Focus(false) && s[CENTER_AT] == Center(a.selector, 0.0, 0.0, false)
      && s[CURSOR_AT - 1] == Offset(0, 0, false) && s[CURSOR_AT] == Cursor(0, 0, false)
      && s[CLICK_AT] == ClickAt(p.x, p.y, false)
  {
  }

  lemma AttemptTypesProperly(w: Window, a: Action, t: Attempt, i: nat)
    requires Sound(w, a, t) && i < |t.Trace()| && t.Trace()[i].TypeHuman?
    ensures i == TypeAt(a) && TypedProperly(a, t.Trace(), i)
  {
    CallsInPlace(w, a, t, i);
    AttemptCalls(w, a, t);
    CallsTypeProperly(a, t);
  }

  lemma CallsTypeProperly(a: Action, t: Attempt)
    requires a.Type? && ClickingCalls(a, t.target, t.calls) && |t.calls| > TypeAt(a)
    ensures TypedProperly(a, t.Trace(), TypeAt(a))
  {
  }

  /** A layout that was forced is restored by the attempt's last call. */
  lemma AttemptRestoresLayout(w: Window, a: Action, t: Attempt)
    requires Sound(w, a, t)
    ensures forall i :: 0 <= i < |t.Trace()| && t.Trace()[i].ForceLayout?
              ==> t.Trace()[|t.Trace()| - 1] == RestoreLayout(t.Trace()[i].prev)
    ensures (exists i :: 0 <= i < |t.Trace()| && t.Trace()[i].RestoreLayout?)
        ==> exists i :: 0 <= i < |t.Trace()| && t.Trace()[i].ForceLayout?
  {
    AttemptInPlace(w, a, t);
    assert |t.calls| > LAYOUT_AT ==> t.Trace()[LAYOUT_AT] == t.calls[LAYOUT_AT];
  }

  // ----- how far from the target -------------------------------------------------------

  /** Rounding goes to a nearest integer, away from zero from the middle. */
  lemma RoundNearest(r: real, n: int)
    ensures -0.5 <= Round(r) as real - r <= 0.5
    ensures Round(-r) == -Round(r)
    ensures n >= 0 ==> Round(n as real + 0.5) == n + 1
  {
    var up, down := r + 0.5, -r + 0.5;
    assert up.Floor as real <= up < (up.Floor + 1) as real;
    assert down.Floor as real <= down < (down.Floor + 1) as real;
    assert n >= 0 ==> (n as real + 0.5 + 0.5).Floor == n + 1;
  }

  function Distance(a: real, b: real): real {
    if a < b then b - a else a - b
  }

  /** The farthest of the two axes between the cursor and where page point (x, y)
      really is: the window's origin, the scaled point and the content offset. */
  function CursorError(w: Window, x: real, y: real, offset: Event, cursor: Event): real
    requires offset.Offset? && cursor.Cursor?
  {
    var offX, offY := if offset.failed then 0 else offset.ox, if offset.failed then 0 else offset.oy;
    var dx := Distance(cursor.cx as real, w.x as real + x * w.scale + offX as real);
    var dy := Distance(cursor.cy as real, w.y as real + y * w.scale + offY as real);
    if dx < dy then dy else dx
  }

  /** One axis of the guard: rounding costs at most half a pixel. */
  lemma AxisError(threshold: nat, origin: int, css: real, offset: int, got: int)
    ensures var error := Distance(got as real, origin as real + css + offset as real);
            var off := Abs(got - (origin + Round(css) + offset)) > threshold;
            && (!off ==> error <= threshold as real + 0.5)
            && (off ==> error >= threshold as real + 0.5)
  {
    RoundNearest(css, 0);
  }

  /** The guard against the real distance: a cursor nearer than the threshold and half
      a pixel passes, and a farther one does not. */
  lemma GuardBound(w: Window, x: real, y: real, offset: Event, cursor: Event)
    requires offset.Offset? && cursor.Cursor? && !cursor.failed
    ensures var error := CursorError(w, x, y, offset, cursor);
            var off := OffTarget(w.threshold, Expected(w, x, y), offset, cursor);
            && (!off ==> error <= w.threshold as real + 0.5)
            && (off ==> error >= w.threshold as real + 0.5)
  {
    AxisError(w.threshold, w.x, x * w.scale, if offset.failed then 0 else offset.ox, cursor.cx);
    AxisError(w.threshold, w.y, y * w.scale, if offset.failed then 0 else offset.oy, cursor.cy);
  }

  /** An attempt clicks only with the cursor on its target, as far as it can tell. */
  predicate ClickedNear(w: Window, t: seq<Event>, at: nat) {
    && 3 <= at < |t| && t[at].ClickAt? && t[at - 2].Cursor? && t[at - 3].Offset?
    && (t[at - 2].failed || CursorError(w, t[at].x, t[at].y, t[at - 3], t[at - 2]) <= w.threshold as real + 0.5)
  }

  lemma AttemptClicksNear(w: Window, a: Action, t: Attempt, i: nat)
    requires Sound(w, a, t) && i < |t.Trace()| && t.Trace()[i].ClickAt?
    ensures i == CLICK_AT && ClickedNear(w, t.Trace(), i)
  {
    CallsInPlace(w, a, t, i);
    AttemptCalls(w, a, t);
    if !t.calls[CURSOR_AT].failed {
      GuardBound(w, t.target.x, t.target.y, t.calls[6], t.calls[CURSOR_AT]);
    }
  }

  /** A cursor that is too far away ends the attempt in drift, with nothing clicked. */
  lemma FarCursorDrifts(w: Window, a: Action, t: Attempt)
    requires Sound(w, a, t) && Clicks(a) && |t.calls| > CURSOR_AT && !t.calls[CURSOR_AT].failed
    requires CursorError(w, t.calls[4].x, t.calls[4].y, t.calls[6], t.calls[CURSOR_AT]) > w.threshold as real + 0.5
    ensures t.err == Some(CursorDrift) && forall i :: 0 <= i < |t.Trace()| ==> !Acts(t.Trace()[i])
  {
    GuardBound(w, t.target.x, t.target.y, t.calls[6], t.calls[CURSOR_AT]);
    DriftedActsOnNothing(w, a, t);
  }

  // ----- a whole job -------------------------------------------------------------------

  /** All that comes before the last attempt. */
  function EarlierTries(attempts: seq<Attempt>): seq<Event> {
    if |attempts| <= 1 then [] else attempts[0].Trace() + [Backoff(false)] + EarlierTries(attempts[1..])
  }

  lemma {:induction false} LastInTrace(attempts: seq<Attempt>, cut: bool)
    requires attempts != []
    ensures Flatten(attempts, cut)
         == EarlierTries(attempts) + attempts[|attempts| - 1].Trace() + if cut then [Backoff(true)] else []
  {
    if |attempts| > 1 {
      LastInTrace(attempts[1..], cut);
    }
  }

  predicate Idle(t: seq<Event>) {
    forall i :: 0 <= i < |t| ==> !Acts(t[i])
  }

  lemma {:induction false} IdleBefore(attempts: seq<Attempt>)
    requires forall k :: 0 <= k < |attempts| - 1 ==> Idle(attempts[k].Trace())
    ensures Idle(EarlierTries(attempts))
  {
    if |attempts| > 1 {
      IdleBefore(attempts[1..]);
    }
  }

  lemma IdleTries(w: Window, a: Action, attempts: seq<Attempt>)
    requires Tried(w, a, attempts)
    ensures Idle(EarlierTries(attempts))
  {
    forall k | 0 <= k < |attempts| - 1 ensures Idle(attempts[k].Trace()) {
      DriftedActsOnNothing(w, a, attempts[k]);
    }
    IdleBefore(attempts);
  }

  /** Whatever a job acts on, it does in its last attempt. */
  lemma ActsLast(w: Window, a: Action, retries: nat, r: JobRun) returns (before: seq<Event>, last: Attempt, tail: seq<Event>)
    requires SoundRun(w, a, retries, r)
    ensures r.Trace() == before + last.Trace() + tail && Idle(before) && Idle(tail) && Sound(w, a, last)
    ensures tail != [] || r.err == last.err
    ensures tail != [] ==> last.err == Some(CursorDrift) && r.err == Some(ContextDone)
  {
    LastInTrace(r.attempts, r.cutShort);
    IdleTries(w, a, r.attempts);
    before, last, tail := EarlierTries(r.attempts), r.attempts[|r.attempts| - 1], if r.cutShort then [Backoff(true)] else [];
  }

  /** t is all that a job calls, from log on, and err is what comes of it. */
  ghost predicate Makes(world: World, w: Window, a: Action, retries: nat, log: seq<Event>, t: seq<Event>, err: Option<Error>) {
    Retried(world, w, a, retries, log) == Outcome(log + t, err)
  }

  /** A job only adds to the log, and what it adds is one sound run. */
  lemma MakesSoundRun(world: World, w: Window, a: Action, retries: nat, log: seq<Event>) returns (r: JobRun)
    ensures Makes(world, w, a, retries, log, r.Trace(), r.err) && SoundRun(w, a, retries, r)
    ensures forall t, err :: Makes(world, w, a, retries, log, t, err) ==> t == r.Trace() && err == r.err
  {
    RunSound(world, w, a, retries, log);
    var out := Retried(world, w, a, retries, log);
    r :| out == Outcome(log + r.Trace(), r.err) && SoundRun(w, a, retries, r);
    forall t, err | Makes(world, w, a, retries, log, t, err) ensures t == r.Trace() && err == r.err {
      assert t == (log + t)[|log|..] && r.Trace() == (log + r.Trace())[|log|..];
    }
  }

  predicate IsClick(e: Event) { e.ClickAt? }
  predicate IsNavigate(e: Event) { e.NavigateTo? }
  predicate IsClear(e: Event) { e.ClearInput? }
  predicate IsType(e: Event) { e.TypeHuman? }
  predicate IsFocus(e: Event) { e.Focus? }
  predicate IsCursor(e: Event) { e.Cursor? }
  predicate IsBackoff(e: Event) { e.Backoff? }

  /** A job clicks, navigates, clears and types at most once each, however often it retries. */
  lemma ActsAtMostOnce(world: World, w: Window, a: Action, retries: nat, log: seq<Event>, t: seq<Event>, err: Option<Error>)
    requires Makes(world, w, a, retries, log, t, err)
    ensures Count(t, IsClick) <= 1 && Count(t, IsNavigate) <= 1
    ensures Count(t, IsClear) <= 1 && Count(t, IsType) <= 1
  {
    var before, last, tail := JobShape(world, w, a, retries, log, t, err);
    AttemptInPlace(w, a, last);
    OneAct(before, last.Trace(), tail, IsClick, CLICK_AT);
    OneAct(before, last.Trace(), tail, IsNavigate, 3);
    OneAct(before, last.Trace(), tail, IsClear, LAYOUT_AT + 1);
    OneAct(before, last.Trace(), tail, IsType, TypeAt(a));
  }

  /** Tries that acted on nothing, the last attempt, and perhaps a wait that was cut short. */
  lemma JobShape(world: World, w: Window, a: Action, retries: nat, log: seq<Event>, t: seq<Event>, err: Option<Error>)
    returns (before: seq<Event>, last: Attempt, tail: seq<Event>)
    requires Makes(world, w, a, retries, log, t, err)
    ensures t == before + last.Trace() + tail && Idle(before) && Idle(tail) && Sound(w, a, last)
    ensures tail != [] || err == last.err
    ensures tail != [] ==> err == Some(ContextDone) && Idle(last.Trace())
  {
    var r := MakesSoundRun(world, w, a, retries, log);
    before, last, tail := ActsLast(w, a, retries, r);
    if tail != [] {
      DriftedActsOnNothing(w, a, last);
    }
  }

  lemma OneAct(before: seq<Event>, last: seq<Event>, tail: seq<Event>, which: Event -> bool, at: nat)
    requires Idle(before) && Idle(tail) && OnlyAt(last, which, at)
    requires forall e :: which(e) ==> Acts(e)
    ensures Count(before + last + tail, which) == if at < |last| && which(last[at]) then 1 else 0
  {
    CountOnlyAt(last, which, at);
    CountNone(before, which);
    CountNone(tail, which);
    CountPlus(before, last, which);
    CountPlus(before + last, tail, which);
  }

  predicate OnlyAt(t: seq<Event>, which: Event -> bool, at: nat) {
    forall i :: 0 <= i < |t| && which(t[i]) ==> i == at
  }

  predicate AllInPlace(a: Action, t: seq<Event>) {
    forall i :: 0 <= i < |t| ==> InPlace(a, t[i], i, |t|)
  }

  lemma AttemptInPlace(w: Window, a: Action, t: Attempt)
    requires Sound(w, a, t)
    ensures AllInPlace(a, t.Trace())
  {
    forall i | 0 <= i < |t.Trace()| ensures InPlace(a, t.Trace()[i], i, |t.Trace()|) {
      CallsInPlace(w, a, t, i);
    }
  }

  /** A job that reports success has clicked, typed or navigated exactly once, and that
      call succeeded; nothing but clicking, typing and navigating succeeds. */
  lemma SuccessActs(world: World, w: Window, a: Action, retries: nat, log: seq<Event>, t: seq<Event>)
    requires Makes(world, w, a, retries, log, t, None)
    ensures NeedsNativeCriticalSection(a)
    ensures Clicks(a) ==> Count(t, e => IsClick(e) && Succeeded(e)) == 1
    ensures a.Type? ==> Count(t, e => IsType(e) && Succeeded(e)) == 1
    ensures a.Navigate? ==> Count(t, e => IsNavigate(e) && Succeeded(e)) == 1
  {
    var before, last, tail := JobShape(world, w, a, retries, log, t, None);
    SuccessfulAttempt(w, a, last);
    AttemptInPlace(w, a, last);
    ActsOnce(a, before, last.Trace(), tail);
  }

  /** Which successful calls a whole trace holds, by where its last attempt has them. */
  lemma ActsOnce(a: Action, before: seq<Event>, last: seq<Event>, tail: seq<Event>)
    requires Idle(before) && Idle(tail) && AllInPlace(a, last)
    ensures Achieved(last, CLICK_AT, IsClick) ==> Count(before + last + tail, e => IsClick(e) && Succeeded(e)) == 1
    ensures Achieved(last, TypeAt(a), IsType) ==> Count(before + last + tail, e => IsType(e) && Succeeded(e)) == 1
    ensures Achieved(last, 3, IsNavigate) ==> Count(before + last + tail, e => IsNavigate(e) && Succeeded(e)) == 1
  {
    OneAct(before, last, tail, e => IsClick(e) && Succeeded(e), CLICK_AT);
    OneAct(before, last, tail, e => IsType(e) && Succeeded(e), TypeAt(a));
    OneAct(before, last, tail, e => IsNavigate(e) && Succeeded(e), 3);
  }

  predicate Achieved(t: seq<Event>, at: nat, which: Event -> bool) {
    at < |t| && which(t[at]) && Succeeded(t[at])
  }

  lemma SuccessfulAttempt(w: Window, a: Action, t: Attempt)
    requires Sound(w, a, t) && t.err.None?
    ensures NeedsNativeCriticalSection(a)
    ensures Clicks(a) ==> Achieved(t.Trace(), CLICK_AT, IsClick)
    ensures a.Type? ==> Achieved(t.Trace(), TypeAt(a), IsType)
    ensures a.Navigate? ==> Achieved(t.Trace(), 3, IsNavigate)
  {
    if Clicks(a) {
      AttemptCalls(w, a, t);
      ClickingScript(a, t.target);
    }
  }

  /** The cursor read at `at` was off the point found three calls before. */
  predicate OffAt(w: Window, t: seq<Event>, at: nat) {
    && 3 <= at < |t| && t[at - 3].Center?
    && OffTarget(w.threshold, Expected(w, t[at - 3].x, t[at - 3].y), t[at - 1], t[at])
  }

  lemma AttemptOffIff(w: Window, a: Action, t: Attempt)
    requires Sound(w, a, t) && |t.Trace()| > CURSOR_AT && t.Trace()[CURSOR_AT].Cursor?
    ensures t.err == Some(CursorDrift) <==> OffAt(w, t.Trace(), CURSOR_AT)
  {
    CallsInPlace(w, a, t, CURSOR_AT);
    AttemptCalls(w, a, t);
  }

  /** Every cursor that was read was off its target. */
  predicate AllOff(w: Window, t: seq<Event>) {
    forall i :: 0 <= i < |t| && t[i].Cursor? ==> OffAt(w, t, i)
  }

  lemma OffPlus(w: Window, t: seq<Event>, u: seq<Event>)
    requires AllOff(w, t) && AllOff(w, u)
    ensures AllOff(w, t + u)
  {
    forall i | 0 <= i < |t + u| && (t + u)[i].Cursor? ensures OffAt(w, t + u, i) {
      if i < |t| {
        assert OffAt(w, t, i);
      } else {
        assert OffAt(w, u, i - |t|);
      }
    }
  }

  lemma DriftedAllOff(w: Window, a: Action, t: Attempt)
    requires Sound(w, a, t) && t.err == Some(CursorDrift)
    ensures AllOff(w, t.Trace())
  {
    AttemptInPlace(w, a, t);
    DriftedWatched(w, a, t);
    AttemptOffIff(w, a, t);
  }

  lemma {:induction false} FlattenAllOff(w: Window, attempts: seq<Attempt>)
    requires forall i :: 0 <= i < |attempts| ==> AllOff(w, attempts[i].Trace())
    ensures AllOff(w, Flatten(attempts, false))
  {
    if |attempts| > 1 {
      FlattenAllOff(w, attempts[1..]);
      OffPlus(w, attempts[0].Trace(), [Backoff(false)]);
      OffPlus(w, attempts[0].Trace() + [Backoff(false)], Flatten(attempts[1..], false));
    }
  }

  lemma AllDriftedOff(w: Window, a: Action, retries: nat, r: JobRun)
    requires SoundRun(w, a, retries, r) && r.err == Some(CursorDrift)
    ensures AllOff(w, r.Trace())
  {
    forall i | 0 <= i < |r.attempts| ensures AllOff(w, r.attempts[i].Trace()) {
      DriftedAllOff(w, a, r.attempts[i]);
    }
    FlattenAllOff(w, r.attempts);
  }

  lemma LastOffDrifts(w: Window, a: Action, before: seq<Event>, last: Attempt)
    requires Sound(w, a, last) && AllOff(w, before + last.Trace())
    requires |last.Trace()| > CURSOR_AT && last.Trace()[CURSOR_AT].Cursor?
    ensures last.err == Some(CursorDrift)
  {
    var t := before + last.Trace();
    assert t[|before| + CURSOR_AT] == last.Trace()[CURSOR_AT];
    assert OffAt(w, t, |before| + CURSOR_AT);
    assert t[|before| + CURSOR_AT - 1] == last.Trace()[CURSOR_AT - 1];
    assert t[|before| + CURSOR_AT - 3] == last.Trace()[CURSOR_AT - 3];
    AttemptOffIff(w, a, last);
  }

  /** A job that read the cursor 1 + retries times read it in its last attempt. */
  lemma EveryTryRead(w: Window, a: Action, retries: nat, r: JobRun)
    requires SoundRun(w, a, retries, r) && Count(r.Trace(), IsCursor) == 1 + retries
    ensures !r.cutShort && Watched(r.attempts[|r.attempts| - 1].Trace())
  {
    AttemptsInPlace(w, a, r.attempts);
    CountTries(r.attempts, r.cutShort, IsCursor, CURSOR_AT);
  }

  lemma AllOffDrifts(w: Window, a: Action, retries: nat, r: JobRun)
    requires SoundRun(w, a, retries, r) && AllOff(w, r.Trace()) && Count(r.Trace(), IsCursor) == 1 + retries
    ensures r.err == Some(CursorDrift)
  {
    EveryTryRead(w, a, retries, r);
    LastInTrace(r.attempts, false);
    var last := r.attempts[|r.attempts| - 1];
    assert EarlierTries(r.attempts) + last.Trace() + [] == EarlierTries(r.attempts) + last.Trace();
    LastOffDrifts(w, a, EarlierTries(r.attempts), last);
  }

  /** Drift is reported exactly when the cursor was read in all 1 + retries tries, and
      was off its target every time. */
  lemma DriftIsAllTries(world: World, w: Window, a: Action, retries: nat, log: seq<Event>, t: seq<Event>, err: Option<Error>)
    requires Makes(world, w, a, retries, log, t, err)
    ensures err == Some(CursorDrift) <==> Count(t, IsCursor) == 1 + retries && AllOff(w, t)
    ensures err == Some(CursorDrift) ==> Count(t, IsBackoff) == retries
  {
    var r := MakesSoundRun(world, w, a, retries, log);
    if err == Some(CursorDrift) {
      AllDrifted(w, a, retries, r);
      AttemptsInPlace(w, a, r.attempts);
      CountTries(r.attempts, false, IsCursor, CURSOR_AT);
      CountWaits(r.attempts, false);
      AllDriftedOff(w, a, retries, r);
    } else if Count(t, IsCursor) == 1 + retries && AllOff(w, t) {
      AllOffDrifts(w, a, retries, r);
    }
  }

  /** A job that reports drift has acted on nothing. */
  lemma DriftActsOnNothing(world: World, w: Window, a: Action, retries: nat, log: seq<Event>, t: seq<Event>)
    requires Makes(world, w, a, retries, log, t, Some(CursorDrift))
    ensures Idle(t)
  {
    var before, last, tail := JobShape(world, w, a, retries, log, t, Some(CursorDrift));
    DriftedActsOnNothing(w, a, last);
  }

  lemma AllDrifted(w: Window, a: Action, retries: nat, r: JobRun)
    requires SoundRun(w, a, retries, r) && r.err == Some(CursorDrift)
    ensures !r.cutShort && |r.attempts| == 1 + retries
    ensures forall i :: 0 <= i < |r.attempts| ==> Sound(w, a, r.attempts[i]) && Watched(r.attempts[i].Trace())
  {
    forall i | 0 <= i < |r.attempts| ensures Watched(r.attempts[i].Trace()) {
      DriftedWatched(w, a, r.attempts[i]);
    }
  }

  predicate Watched(t: seq<Event>) {
    |t| > CURSOR_AT && IsCursor(t[CURSOR_AT])
  }

  lemma DriftedWatched(w: Window, a: Action, t: Attempt)
    requires Sound(w, a, t) && t.err == Some(CursorDrift)
    ensures Watched(t.Trace())
  {
    AttemptCalls(w, a, t);
  }

  /** A job tries 1 + retries times at most. */
  lemma TriesBounded(world: World, w: Window, a: Action, retries: nat, log: seq<Event>, t: seq<Event>, err: Option<Error>)
    requires Makes(world, w, a, retries, log, t, err)
    ensures Count(t, IsBackoff) <= retries
    ensures Count(t, IsFocus) <= 1 + retries && Count(t, IsCursor) <= 1 + retries
  {
    var r := MakesSoundRun(world, w, a, retries, log);
    AttemptsInPlace(w, a, r.attempts);
    CountTries(r.attempts, r.cutShort, IsCursor, CURSOR_AT);
    CountTries(r.attempts, r.cutShort, IsFocus, 1);
    CountWaits(r.attempts, r.cutShort);
  }

  predicate Waitless(t: seq<Event>) {
    forall i :: 0 <= i < |t| ==> !IsBackoff(t[i])
  }

  lemma AttemptsInPlace(w: Window, a: Action, attempts: seq<Attempt>)
    requires Tried(w, a, attempts)
    ensures forall i :: 0 <= i < |attempts| ==> OnlyAt(attempts[i].Trace(), IsCursor, CURSOR_AT)
    ensures forall i :: 0 <= i < |attempts| ==> OnlyAt(attempts[i].Trace(), IsFocus, 1) && Waitless(attempts[i].Trace())
  {
    forall i | 0 <= i < |attempts| ensures AllInPlace(a, attempts[i].Trace()) {
      AttemptInPlace(w, a, attempts[i]);
    }
  }

  /** One wait between two attempts, and one more when the last of them was cancelled. */
  lemma {:induction false} CountWaits(attempts: seq<Attempt>, cut: bool)
    requires attempts != [] && forall i :: 0 <= i < |attempts| ==> Waitless(attempts[i].Trace())
    ensures Count(Flatten(attempts, cut), IsBackoff) == |attempts| - 1 + if cut then 1 else 0
  {
    var first := attempts[0].Trace();
    CountNone(first, IsBackoff);
    if |attempts| == 1 {
      CountPlus(first, if cut then [Backoff(true)] else [], IsBackoff);
    } else {
      CountWaits(attempts[1..], cut);
      CountPlus(first, [Backoff(false)], IsBackoff);
      CountPlus(first + [Backoff(false)], Flatten(attempts[1..], cut), IsBackoff);
    }
  }

  /** A call that an attempt makes once, at a fixed place. */
  lemma {:induction false} CountTries(attempts: seq<Attempt>, cut: bool, which: Event -> bool, at: nat)
    requires forall i :: 0 <= i < |attempts| ==> OnlyAt(attempts[i].Trace(), which, at)
    requires !which(Backoff(false)) && !which(Backoff(true))
    ensures Count(Flatten(attempts, cut), which) <= |attempts|
    ensures (forall i :: 0 <= i < |attempts| ==> at < |attempts[i].Trace()| && which(attempts[i].Trace()[at]))
        <==> Count(Flatten(attempts, cut), which) == |attempts|
  {
    if attempts != [] {
      var first := attempts[0].Trace();
      CountOnlyAt(first, which, at);
      if |attempts| == 1 {
        CountPlus(first, if cut then [Backoff(true)] else [], which);
      } else {
        CountTries(attempts[1..], cut, which, at);
        CountPlus(first, [Backoff(false)], which);
        CountPlus(first + [Backoff(false)], Flatten(attempts[1..], cut), which);
      }
    }
  }

  /** Text is typed only behind a successful click in the same attempt. */
  lemma JobTypesProperly(world: World, w: Window, a: Action, retries: nat, log: seq<Event>, t: seq<Event>, err: Option<Error>, i: nat)
    requires Makes(world, w, a, retries, log, t, err) && i < |t| && t[i].TypeHuman?
    ensures TypedProperly(a, t, i)
  {
    var before, last, k := ActInLast(world, w, a, retries, log, t, err, i);
    AttemptTypesProperly(w, a, last, k);
    TypedLater(a, before, last.Trace(), k, t, i);
  }

  lemma TypedLater(a: Action, before: seq<Event>, last: seq<Event>, k: nat, t: seq<Event>, i: nat)
    requires TypedProperly(a, last, k) && t == before + last && i == |before| + k
    ensures TypedProperly(a, t, i)
  {
  }

  /** Nothing is clicked while the cursor is known to be elsewhere. */
  lemma JobClicksNear(world: World, w: Window, a: Action, retries: nat, log: seq<Event>, t: seq<Event>, err: Option<Error>, i: nat)
    requires Makes(world, w, a, retries, log, t, err) && i < |t| && t[i].ClickAt?
    ensures ClickedNear(w, t, i)
  {
    var before, last, k := ActInLast(world, w, a, retries, log, t, err, i);
    AttemptClicksNear(w, a, last, k);
  }

  /** The keyboard layout is left as it was found. */
  lemma JobRestoresLayout(world: World, w: Window, a: Action, retries: nat, log: seq<Event>, t: seq<Event>, err: Option<Error>, i: nat)
    requires Makes(world, w, a, retries, log, t, err) && i < |t| && t[i].ForceLayout?
    ensures t[|t| - 1] == RestoreLayout(t[i].prev)
  {
    var before, last, k := ActInLast(world, w, a, retries, log, t, err, i);
    AttemptRestoresLayout(w, a, last);
  }

  /** What a job acts on is in its last attempt, which then nothing follows. */
  lemma ActInLast(world: World, w: Window, a: Action, retries: nat, log: seq<Event>, t: seq<Event>, err: Option<Error>, i: nat)
    returns (before: seq<Event>, last: Attempt, k: nat)
    requires Makes(world, w, a, retries, log, t, err) && i < |t| && Acts(t[i])
    ensures t == before + last.Trace() && Sound(w, a, last)
    ensures i == |before| + k && k < |last.Trace()| && last.Trace()[k] == t[i]
  {
    var tail;
    before, last, tail := JobShape(world, w, a, retries, log, t, err);
    k := Located(before, last.Trace(), tail, i);
  }

  lemma Located(before: seq<Event>, last: seq<Event>, tail: seq<Event>, i: nat) returns (k: nat)
    requires Idle(before) && Idle(tail) && (tail != [] ==> Idle(last))
    requires i < |before + last + tail| && Acts((before + last + tail)[i])
    ensures i == |before| + k && k < |last| && last[k] == (before + last + tail)[i]
    ensures before + last + tail == before + last
  {
    assert before + last + tail == before + (last + tail);
    k := i - |before|;
  }
}
