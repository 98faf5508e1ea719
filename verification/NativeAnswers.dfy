/** How the answers of the calls decide what comes of a native job. */
module NativeAnswers {
  import opened Jobs
  import opened CriticalTrace
  import opened NativeTraces
  import opened NativeGuarantees

  /** The call answered that it failed, that the context is done or that there is no page. */
  predicate Bad(e: Event) {
    || ((e.Poll? || e.Backoff?) && e.cancelled)
    || (e.Current? && e.missing)
    || ((e.Focus? || e.NavigateTo? || e.Center? || e.MoveTo? || e.ClickAt? || e.ClearInput? || e.TypeHuman?) && e.failed)
  }

  /** What a bad answer is reported as. */
  function Report(e: Event): Error {
    if e.Poll? || e.Backoff? then ContextDone else if e.Current? then NoPage else DriverError
  }

  lemma FailureIsBad(e: Event)
    ensures !e.Backoff? ==> Failure(e) == if Bad(e) then Some(Report(e)) else None
  {
  }

  predicate NoneBad(t: seq<Event>) {
    forall i :: 0 <= i < |t| ==> !Bad(t[i])
  }

  /** The layout's restoration is the one call that follows a bad answer. */
  predicate EndsAt(t: seq<Event>, i: int) {
    0 <= i < |t| && (i == |t| - 1 || (i == |t| - 2 && t[|t| - 1].RestoreLayout?))
  }

  // ----- one attempt -------------------------------------------------------------------

  /** Only an attempt's last call has a bad answer, and it decides the error. */
  lemma AttemptAnswers(w: Window, a: Action, t: Attempt)
    requires Sound(w, a, t)
    ensures t.calls != [] && NoneBad(t.calls[..|t.calls| - 1])
    ensures var last := t.calls[|t.calls| - 1]; Bad(last) && !last.Backoff? ==> t.err == Some(Report(last))
    ensures !Bad(t.calls[|t.calls| - 1]) ==>
      t.err == None || t.err == Some(CursorDrift) || (t.err == Some(Unsupported) && (a.Scroll? || a.Wait?))
    ensures !t.calls[|t.calls| - 1].Backoff?
    ensures t.err.None? ==> a.Click? || a.Type? || a.Navigate?
  {
    AttemptInPlace(w, a, t);
    forall i | 0 <= i < |t.calls| ensures !t.calls[i].Backoff? {
      assert InPlace(a, t.Trace()[i], i, |t.Trace()|);
    }
    forall i | 0 <= i < |t.calls| - 1 ensures !Bad(t.calls[i]) {
      FailureIsBad(t.calls[i]);
    }
    FailureIsBad(t.calls[|t.calls| - 1]);
  }

  /** The same of the whole trace, the restored layout included. */
  lemma TraceAnswers(w: Window, a: Action, t: Attempt)
    requires Sound(w, a, t)
    ensures forall i :: 0 <= i < |t.Trace()| && Bad(t.Trace()[i]) ==> EndsAt(t.Trace(), i) && t.err == Some(Report(t.Trace()[i]))
    ensures NoneBad(t.Trace()) ==> Undisturbed(a, t.err)
    ensures t.err == Some(CursorDrift) ==> NoneBad(t.Trace())
  {
    AttemptAnswers(w, a, t);
    var n := |t.calls| - 1;
    assert t.Trace()[n] == t.calls[n];
    forall i | 0 <= i < n ensures !Bad(t.Trace()[i]) {
      assert t.calls[..n][i] == t.Trace()[i];
    }
  }

  /** What comes of an action when no call answers badly. */
  predicate Undisturbed(a: Action, err: Option<Error>) {
    if a.Click? || a.Type? then err == None || err == Some(CursorDrift)
    else if a.Navigate? then err == None
    else err == Some(Unsupported)
  }

  // ----- a whole job -------------------------------------------------------------------

  lemma {:induction false} BeforeNoneBad(attempts: seq<Attempt>)
    requires forall k :: 0 <= k < |attempts| - 1 ==> NoneBad(attempts[k].Trace())
    ensures NoneBad(EarlierTries(attempts))
  {
    if |attempts| > 1 {
      BeforeNoneBad(attempts[1..]);
    }
  }

  lemma TriesNoneBad(w: Window, a: Action, attempts: seq<Attempt>)
    requires Tried(w, a, attempts)
    ensures NoneBad(EarlierTries(attempts))
  {
    forall k | 0 <= k < |attempts| - 1 ensures NoneBad(attempts[k].Trace()) {
      TraceAnswers(w, a, attempts[k]);
    }
    BeforeNoneBad(attempts);
  }

  /** A job's trace: tries that nothing disturbed, the last attempt, and perhaps the wait
      in which the context was cancelled. */
  lemma JobAnswers(world: World, w: Window, a: Action, retries: nat, log: seq<Event>, t: seq<Event>, err: Option<Error>)
    returns (before: seq<Event>, last: Attempt, cut: bool)
    requires Makes(world, w, a, retries, log, t, err)
    ensures t == before + last.Trace() + (if cut then [Backoff(true)] else []) && NoneBad(before) && Sound(w, a, last)
    ensures if cut then NoneBad(last.Trace()) && err == Some(ContextDone) else err == last.err
  {
    var r := MakesSoundRun(world, w, a, retries, log);
    LastInTrace(r.attempts, r.cutShort);
    TriesNoneBad(w, a, r.attempts);
    before, last, cut := EarlierTries(r.attempts), r.attempts[|r.attempts| - 1], r.cutShort;
    if cut {
      TraceAnswers(w, a, last);
    }
  }

  /** A bad answer ends the job: nothing but the layout's restoration follows, and it is
      what the job reports. */
  lemma BadDecides(world: World, w: Window, a: Action, retries: nat, log: seq<Event>, t: seq<Event>, err: Option<Error>, i: nat)
    requires Makes(world, w, a, retries, log, t, err) && i < |t| && Bad(t[i])
    ensures EndsAt(t, i) && err == Some(Report(t[i]))
  {
    var before, last, cut := JobAnswers(world, w, a, retries, log, t, err);
    TraceAnswers(w, a, last);
    BadInParts(before, last.Trace(), cut, i);
  }

  lemma BadInParts(before: seq<Event>, last: seq<Event>, cut: bool, i: nat)
    requires last != [] && NoneBad(before) && (cut ==> NoneBad(last))
    requires i < |before + last + if cut then [Backoff(true)] else []|
    requires Bad((before + last + if cut then [Backoff(true)] else [])[i])
    ensures var t := before + last + if cut then [Backoff(true)] else [];
            if cut then i == |t| - 1 && t[i] == Backoff(true)
            else |before| <= i && last[i - |before|] == t[i] && (EndsAt(last, i - |before|) ==> EndsAt(t, i))
  {
    var t := before + last + if cut then [Backoff(true)] else [];
    assert forall k :: 0 <= k < |before| ==> t[k] == before[k];
  }

  lemma CutIsBad(before: seq<Event>, last: seq<Event>)
    ensures !NoneBad(before + last + [Backoff(true)])
  {
    assert Bad((before + last + [Backoff(true)])[|before + last|]);
  }

  /** A job without a bad answer succeeds, unless it drifted; scrolling and waiting are
      not native. */
  lemma NoneBadDecides(world: World, w: Window, a: Action, retries: nat, log: seq<Event>, t: seq<Event>, err: Option<Error>)
    requires Makes(world, w, a, retries, log, t, err) && NoneBad(t)
    ensures Undisturbed(a, err)
  {
    var before, last, cut := JobAnswers(world, w, a, retries, log, t, err);
    TraceAnswers(w, a, last);
    if cut {
      CutIsBad(before, last.Trace());
    }
    forall i | 0 <= i < |last.Trace()| ensures !Bad(last.Trace()[i]) {
      assert t[|before| + i] == last.Trace()[i];
    }
  }

  /** What the calls of an attempt that succeeds are, one by one. */
  predicate Accomplishes(a: Action, t: seq<Event>) {
    match a
    case Click(sel) => |t| == 10 && Clicks10(sel, t)
    case Type(sel, text, clear) =>
      if clear then |t| == 14 && Clicks10(sel, t[..10]) && t[10].ForceLayout?
                    && t[11..] == [ClearInput(false), TypeHuman(text, false), RestoreLayout(t[10].prev)]
      else |t| == 13 && Clicks10(sel, t[..10]) && t[10].ForceLayout?
           && t[11..] == [TypeHuman(text, false), RestoreLayout(t[10].prev)]
    case Navigate(url) => t == [Poll(false), Focus(false), Current(false), NavigateTo(url, false)]
    case Scroll(_) => false
    case Wait(_, _) => false
  }

  /** Focus, find the element, move there, look where the cursor is, and click there. */
  predicate Clicks10(sel: string, t: seq<Event>) {
    && |t| == 10 && t[..4] == [Poll(false), Focus(false), Current(false), Poll(false)]
    && t[4].Center? && t[4] == Center(sel, t[4].x, t[4].y, false) && t[5] == MoveTo(t[4].x, t[4].y, false)
    && t[6].Offset? && t[7].Cursor? && t[8] == Poll(false) && t[9] == ClickAt(t[4].x, t[4].y, false)
  }

  /** The first ten calls of a clicking attempt that failed nowhere. */
  lemma AttemptClicks10(w: Window, a: Action, t: Attempt)
    requires Sound(w, a, t) && Clicks(a) && |t.calls| >= 10 && NoneBad(t.calls[..10])
    ensures Clicks10(a.selector, t.calls[..10])
  {
    AttemptCalls(w, a, t);
    FirstTen(a, t.target, t.calls);
  }

  lemma FirstTen(a: Action, p: Target, t: seq<Event>)
    requires Clicks(a) && Prefix(t, Script(a, p)) && |t| >= 10 && NoneBad(t[..10]) && AimingCalls(a, p, t)
    ensures Clicks10(a.selector, t[..10])
  {
    ClickingScript(a, p);
    var s := Script(a, p)[..CLICK_AT + 1];
    forall i | 0 <= i < 10 ensures Performs(t[..10][i], s[i]) && !Bad(t[..10][i]) {
      assert Performs(t[i], Script(a, p)[i]);
    }
  }

  /** The rest of a typing attempt that failed nowhere. */
  lemma AttemptTypes(w: Window, a: Action, t: Attempt)
    requires Sound(w, a, t) && a.Type? && t.err.None? && NoneBad(t.Trace()) && |t.calls| >= 10 && Clicks10(a.selector, t.calls[..10])
    ensures Accomplishes(a, t.Trace())
  {
    AttemptCalls(w, a, t);
    ClickingScript(a, t.target);
    var trace := t.Trace();
    assert |t.calls| == TypeAt(a) + 1 && trace == t.calls + [RestoreLayout(t.calls[10].prev)];
    assert trace[..10] == t.calls[..10];
    assert a.clearFirst ==> trace[11] == ClearInput(false) && trace[12] == TypeHuman(a.text, false);
    assert !a.clearFirst ==> trace[11] == TypeHuman(a.text, false);
  }

  lemma AttemptAccomplishes(w: Window, a: Action, t: Attempt)
    requires Sound(w, a, t) && t.err.None?
    ensures Accomplishes(a, t.Trace())
  {
    TraceAnswers(w, a, t);
    assert NoneBad(t.Trace());
    if Clicks(a) {
      ClickingScript(a, t.target);
      assert |t.calls| == |Script(a, t.target)|;
      assert NoneBad(t.calls[..10]) by {
        assert forall i :: 0 <= i < 10 ==> t.calls[..10][i] == t.Trace()[i];
      }
      AttemptClicks10(w, a, t);
      if a.Type? {
        AttemptTypes(w, a, t);
      } else {
        assert t.Trace()[..10] == t.Trace() == t.calls[..10];
      }
    } else {
      AttemptNavigates(w, a, t);
    }
  }

  lemma AttemptNavigates(w: Window, a: Action, t: Attempt)
    requires Sound(w, a, t) && a.Navigate? && t.err.None? && NoneBad(t.Trace())
    ensures t.Trace() == [Poll(false), Focus(false), Current(false), NavigateTo(a.url, false)]
  {
    var s := Script(a, t.target);
    assert s == [Poll(false), Focus(false), Current(false), NavigateTo(a.url, false)];
    forall i | 0 <= i < 4 ensures Performs(t.Trace()[i], s[i]) && !Bad(t.Trace()[i]) {
      assert Performs(t.calls[i], s[i]);
    }
  }

  /** A job that reports success ends in an attempt that did all that the action asks
      for, call by call; before it nothing answered badly and nothing was acted on. */
  lemma SuccessAccomplishes(world: World, w: Window, a: Action, retries: nat, log: seq<Event>, t: seq<Event>)
    returns (before: seq<Event>, last: seq<Event>)
    requires Makes(world, w, a, retries, log, t, None)
    ensures t == before + last && Accomplishes(a, last) && NoneBad(t)
    ensures Count(t, IsCursor) <= 1 + retries
  {
    TriesBounded(world, w, a, retries, log, t, None);
    var attempt, cut;
    before, attempt, cut := JobAnswers(world, w, a, retries, log, t, None);
    last := attempt.Trace();
    AttemptAccomplishes(w, a, attempt);
    forall i | 0 <= i < |t| ensures !Bad(t[i]) {
      if Bad(t[i]) {
        BadDecides(world, w, a, retries, log, t, None, i);
      }
    }
  }

  // ----- a machine on which nothing fails ------------------------------------------------

  ghost predicate Smooth(world: World) {
    forall log :: !world.fails(log)
  }

  /** No bad answer from position n on. */
  predicate NoneBadFrom(n: nat, log: seq<Event>) {
    n <= |log| && forall i :: n <= i < |log| ==> !Bad(log[i])
  }

  lemma {:induction false} PlaySmooth(n: nat, world: World, log: seq<Event>, script: seq<Event>)
    requires Smooth(world) && NoneBadFrom(n, log)
    ensures NoneBadFrom(n, Play(world, log, script).log)
    decreases |script|
  {
    if script != [] {
      PlaySmooth(n, world, log + [Answer(world, log, script[0])], script[1..]);
    }
  }

  lemma ClickedSmooth(n: nat, world: World, threshold: nat, p: Target, log: seq<Event>)
    requires Smooth(world) && NoneBadFrom(n, log)
    ensures NoneBadFrom(n, ClickedAt(world, threshold, p, log).log)
  {
    var moved := Play(world, log, [MoveTo(p.x, p.y, false)]);
    PlaySmooth(n, world, log, [MoveTo(p.x, p.y, false)]);
    var offset := Answer(world, moved.log, Offset(0, 0, false));
    var cursor := Answer(world, moved.log + [offset], Cursor(0, 0, false));
    assert NoneBadFrom(n, moved.log + [offset] + [cursor]);
    PlaySmooth(n, world, moved.log + [offset] + [cursor], ClickScript(p.x, p.y));
  }

  lemma InteractedSmooth(n: nat, world: World, w: Window, a: Action, log: seq<Event>)
    requires Smooth(world) && NoneBadFrom(n, log) && Clicks(a)
    ensures NoneBadFrom(n, Interacted(world, w, a, log).log)
  {
    var found := Play(world, log, FindScript(a.selector));
    PlaySmooth(n, world, log, FindScript(a.selector));
    ClickedSmooth(n, world, w.threshold, FoundAt(world, w, log), found.log);
    if a.Type? {
      PlaySmooth(n, world, Clicked(world, w, a.selector, log).log, TypeScript(a.text, a.clearFirst));
    }
  }

  lemma AttemptedSmooth(n: nat, world: World, w: Window, a: Action, log: seq<Event>)
    requires Smooth(world) && NoneBadFrom(n, log)
    ensures NoneBadFrom(n, Attempted(world, w, a, log).log)
  {
    var open := Play(world, log, OPEN_SCRIPT);
    PlaySmooth(n, world, log, OPEN_SCRIPT);
    if a.Navigate? {
      PlaySmooth(n, world, open.log, [NavigateTo(a.url, false)]);
    }
    if Clicks(a) {
      InteractedSmooth(n, world, w, a, open.log);
    }
  }

  lemma {:induction false} ResumedSmooth(n: nat, world: World, w: Window, a: Action, left: nat, r: Outcome)
    requires Smooth(world) && NoneBadFrom(n, r.log)
    ensures NoneBadFrom(n, Resumed(world, Attempts(world, w, a), left, r).log)
    decreases left
  {
    if left > 0 && r.err == Some(CursorDrift) {
      var waited := r.log + [Backoff(false)];
      AttemptedSmooth(n, world, w, a, waited);
      ResumedSmooth(n, world, w, a, left - 1, Attempts(world, w, a)(waited));
    }
  }

  /** Where no call fails and the context stays alive, a click or a text succeeds unless
      the cursor was off its target in every try, and a navigation always succeeds. */
  lemma SmoothSucceeds(world: World, w: Window, a: Action, retries: nat, log: seq<Event>, t: seq<Event>, err: Option<Error>)
    requires Smooth(world) && Makes(world, w, a, retries, log, t, err)
    ensures NoneBad(t) && Undisturbed(a, err)
    ensures a.Click? || a.Type? ==>
      (err == None <==> !(Count(t, IsCursor) == 1 + retries && AllOff(w, t)))
  {
    AttemptedSmooth(|log|, world, w, a, log);
    ResumedSmooth(|log|, world, w, a, retries, Attempted(world, w, a, log));
    assert forall i :: 0 <= i < |t| ==> (log + t)[|log| + i] == t[i];
    NoneBadDecides(world, w, a, retries, log, t, err);
    DriftIsAllTries(world, w, a, retries, log, t, err);
  }

  /** An unreadable cursor stops nothing: an attempt never drifts on it. */
  lemma UnreadableNeverDrifts(w: Window, a: Action, t: Attempt)
    requires Sound(w, a, t) && |t.calls| > 7 && t.calls[7].Cursor? && t.calls[7].failed
    ensures t.err != Some(CursorDrift)
    ensures |t.calls| > 8
  {
    CallsInPlace(w, a, t, 7);
    AttemptCalls(w, a, t);
  }
}
