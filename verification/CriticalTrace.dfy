/** What the native critical section and its retry loop do
    (dispatcher_critical_windows.go, executeCriticalWithRetry), in a world that
    may answer every call in any way it likes. */
module CriticalTrace {
  import opened Jobs

  /** One call and its answer. The answers of Offset, Cursor and ForceLayout do not
      fail the attempt. */
  datatype Event =
    | Poll(cancelled: bool)                                       // ctx.Err()
    | Focus(failed: bool)
    | Current(missing: bool)
    | NavigateTo(url: string, failed: bool)
    | Center(selector: string, x: real, y: real, failed: bool)    // ElementCenter
    | MoveTo(x: real, y: real, failed: bool)
    | Offset(ox: int, oy: int, failed: bool)                      // ContentOffset
    | Cursor(cx: int, cy: int, failed: bool)                      // GetCursorPos
    | ClickAt(x: real, y: real, failed: bool)
    | ForceLayout(prev: int)
    | ClearInput(failed: bool)
    | TypeHuman(text: string, failed: bool)
    | RestoreLayout(prev: int)
    | Backoff(cancelled: bool)                                    // the wait between attempts

  datatype Error = CursorDrift | ContextDone | DriverError | NoPage | Unsupported

  /** What answers the calls, as functions of everything that happened so far. */
  datatype World = World(
    fails: seq<Event> -> bool,
    point: seq<Event> -> (real, real),
    pixel: seq<Event> -> (int, int))

  /** A call, given with any answer, as the world answers it after log. */
  function Answer(world: World, log: seq<Event>, call: Event): (e: Event)
    ensures Performs(e, call)
  {
    match call
    case Poll(_) => Poll(world.fails(log))
    case Focus(_) => Focus(world.fails(log))
    case Current(_) => Current(world.fails(log))
    case NavigateTo(url, _) => NavigateTo(url, world.fails(log))
    case Center(sel, _, _, _) => Center(sel, world.point(log).0, world.point(log).1, world.fails(log))
    case MoveTo(x, y, _) => MoveTo(x, y, world.fails(log))
    case Offset(_, _, _) => Offset(world.pixel(log).0, world.pixel(log).1, world.fails(log))
    case Cursor(_, _, _) => Cursor(world.pixel(log).0, world.pixel(log).1, world.fails(log))
    case ClickAt(x, y, _) => ClickAt(x, y, world.fails(log))
    case ForceLayout(_) => ForceLayout(world.pixel(log).0)
    case ClearInput(_) => ClearInput(world.fails(log))
    case TypeHuman(text, _) => TypeHuman(text, world.fails(log))
    case RestoreLayout(prev) => RestoreLayout(prev)
    case Backoff(_) => Backoff(world.fails(log))
  }

  /** e is the call asked for, whatever it answers. */
  predicate Performs(e: Event, call: Event) {
    match call
    case Poll(_) => e.Poll?
    case Focus(_) => e.Focus?
    case Current(_) => e.Current?
    case NavigateTo(url, _) => e.NavigateTo? && e.url == url
    case Center(sel, _, _, _) => e.Center? && e.selector == sel
    case MoveTo(x, y, _) => e.MoveTo? && e.x == x && e.y == y
    case Offset(_, _, _) => e.Offset?
    case Cursor(_, _, _) => e.Cursor?
    case ClickAt(x, y, _) => e.ClickAt? && e.x == x && e.y == y
    case ForceLayout(_) => e.ForceLayout?
    case ClearInput(_) => e.ClearInput?
    case TypeHuman(text, _) => e.TypeHuman? && e.text == text
    case RestoreLayout(prev) => e == call
    case Backoff(_) => e.Backoff?
  }

  /** The answer that ends an attempt, and the error it ends in. */
  function Failure(e: Event): Option<Error> {
    match e
    case Poll(true) => Some(ContextDone)
    case Focus(true) => Some(DriverError)
    case Current(true) => Some(NoPage)
    case NavigateTo(_, true) => Some(DriverError)
    case Center(_, _, _, true) => Some(DriverError)
    case MoveTo(_, _, true) => Some(DriverError)
    case ClickAt(_, _, true) => Some(DriverError)
    case ClearInput(true) => Some(DriverError)
    case TypeHuman(_, true) => Some(DriverError)
    case _ => None
  }

  datatype Outcome = Outcome(log: seq<Event>, err: Option<Error>)

  /** Makes the calls of a script in turn, up to the first that fails. */
  function Play(world: World, log: seq<Event>, script: seq<Event>): Outcome
    decreases |script|
  {
    if script == [] then Outcome(log, None)
    else
      var e := Answer(world, log, script[0]);
      if Failure(e).Some? then Outcome(log + [e], Failure(e)) else Play(world, log + [e], script[1..])
  }

  // ----- the drift guard -----------------------------------------------------------

  /** The window of a browser and the drift the fleet tolerates. */
  datatype Window = Window(x: int, y: int, scale: real, threshold: nat)

  /** math.Round: half away from zero. */
  function Round(r: real): int {
    if r >= 0.0 then (r + 0.5).Floor else -((-r + 0.5).Floor)
  }

  function Abs(n: int): int {
    if n < 0 then -n else n
  }

  /** A point of the page and the screen pixel it is expected at, the content
      offset aside. */
  datatype Target = Target(x: real, y: real, screenX: int, screenY: int)

  function Expected(w: Window, x: real, y: real): Target {
    Target(x, y, w.x + Round(x * w.scale), w.y + Round(y * w.scale))
  }

  /** The guard trips: the cursor could be read and is too far from the expected
      pixel on some axis. */
  predicate OffTarget(threshold: nat, p: Target, offset: Event, cursor: Event) {
    && offset.Offset? && cursor.Cursor? && !cursor.failed
    && (Abs(cursor.cx - (p.screenX + if offset.failed then 0 else offset.ox)) > threshold
        || Abs(cursor.cy - (p.screenY + if offset.failed then 0 else offset.oy)) > threshold)
  }

  // ----- an attempt ------------------------------------------------------------------

  /** Clicking, whether to click or to type. */
  predicate Clicks(a: Action) {
    a.Click? || a.Type?
  }

  const OPEN_SCRIPT := [Poll(false), Focus(false), Current(false)]

  function FindScript(sel: string): seq<Event> {
    [Poll(false), Center(sel, 0.0, 0.0, false)]
  }

  function ClickScript(x: real, y: real): seq<Event> {
    [Poll(false), ClickAt(x, y, false)]
  }

  function TypeScript(text: string, clear: bool): seq<Event> {
    [ForceLayout(0)] + (if clear then [ClearInput(false)] else []) + [TypeHuman(text, false)]
  }

  /** MoveTo, the guard and ClickAt. */
  function ClickedAt(world: World, threshold: nat, p: Target, log: seq<Event>): Outcome {
    var moved := Play(world, log, [MoveTo(p.x, p.y, false)]);
    if moved.err.Some? then moved
    else
      var offset := Answer(world, moved.log, Offset(0, 0, false));
      var cursor := Answer(world, moved.log + [offset], Cursor(0, 0, false));
      var seen := moved.log + [offset] + [cursor];
      if OffTarget(threshold, p, offset, cursor) then Outcome(seen, Some(CursorDrift))
      else Play(world, seen, ClickScript(p.x, p.y))
  }

  /** Where the second call of FindScript finds the element. */
  function FoundAt(world: World, w: Window, log: seq<Event>): Target {
    var p := world.point(log + [Poll(false)]);
    Expected(w, p.0, p.1)
  }

  function Clicked(world: World, w: Window, sel: string, log: seq<Event>): Outcome {
    var found := Play(world, log, FindScript(sel));
    if found.err.Some? then found
    else ClickedAt(world, w.threshold, FoundAt(world, w, log), found.log)
  }

  /** Typing, with the layout restored on every path. */
  function Typed(world: World, text: string, clear: bool, log: seq<Event>): Outcome {
    var typed := Play(world, log, TypeScript(text, clear));
    Outcome(typed.log + [RestoreLayout(world.pixel(log).0)], typed.err)
  }

  function Interacted(world: World, w: Window, a: Action, log: seq<Event>): Outcome
    requires Clicks(a)
  {
    var clicked := Clicked(world, w, a.selector, log);
    if a.Click? || clicked.err.Some? then clicked else Typed(world, a.text, a.clearFirst, clicked.log)
  }

  function Attempted(world: World, w: Window, a: Action, log: seq<Event>): Outcome {
    var open := Play(world, log, OPEN_SCRIPT);
    if open.err.Some? then open
    else if a.Navigate? then Play(world, open.log, [NavigateTo(a.url, false)])
    else if Clicks(a) then Interacted(world, w, a, open.log)
    else Outcome(open.log, Some(Unsupported))
  }

  /** What becomes of a job whose attempt came out as r, with `left` retries left. */
  function Resumed(world: World, attempt: seq<Event> -> Outcome, left: nat, r: Outcome): Outcome {
    if left == 0 || r.err != Some(CursorDrift) then r
    else
      var wait := Answer(world, r.log, Backoff(false));
      if wait == Backoff(true) then Outcome(r.log + [wait], Some(ContextDone))
      else Resumed(world, attempt, left - 1, attempt(r.log + [wait]))
  }

  function Attempts(world: World, w: Window, a: Action): seq<Event> -> Outcome {
    log => Attempted(world, w, a, log)
  }

  function Retried(world: World, w: Window, a: Action, retries: nat, log: seq<Event>): Outcome {
    Resumed(world, Attempts(world, w, a), retries, Attempted(world, w, a, log))
  }
}
