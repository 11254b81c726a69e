/**
 * What a single move and a drained command queue command, as pure values:
 * the sequence of percentages sent through `set_position`, and the trace of
 * those commands together with the completion callbacks that follow them.
 */
module Motion {
  import opened Wrappers
  import opened Easing

  /** One observable step of a servo: a position commanded, or a callback fired. */
  datatype Event = Commanded(percent: real) | Completed(callback: nat)

  /** A queued move; the callback is named by an identity, or absent. */
  datatype Command = Command(target: real, duration: real, easing: EasingKind, onComplete: Option<nat>)

  /** The step count every queued move is executed with. */
  const QueueSteps: int := 100

  /**
   * The positions of the interpolation loop: for i = 0..steps, the start plus
   * the change scaled by the eased progress i / steps. There is no loop when
   * the target equals the start, and none when `range(steps + 1)` is empty.
   */
  function Interpolated(start: real, target: real, steps: int, k: EasingKind): (ps: seq<real>)
    requires !(target != start && steps == 0)
    ensures |ps| == if target != start && steps > 0 then steps + 1 else 0
  {
    var change := target - start;
    if change != 0.0 && steps > 0 then Waypoints(start, target, steps, k, steps + 1) else []
  }

  /** The positions of the first n steps of the interpolation loop, in order. */
  function Waypoints(start: real, target: real, steps: int, k: EasingKind, n: nat): (ps: seq<real>)
    requires steps != 0
    ensures |ps| == n
  {
    if n == 0 then [] else Waypoints(start, target, steps, k, n - 1) + [Waypoint(start, target, steps, k, n - 1)]
  }

  /** The position of step i of the interpolation loop. */
  function Waypoint(start: real, target: real, steps: int, k: EasingKind, i: int): real
    requires steps != 0
  {
    start + (target - start) * Ease(k, i as real / steps as real)
  }

  /** Every position one move commands: the interpolated ones, then the exact target. */
  function MovePercents(start: real, target: real, steps: int, k: EasingKind): seq<real>
    requires !(target != start && steps == 0)
  {
    Interpolated(start, target, steps, k) + [target]
  }

  /** The trace events that command the positions ps, in order. */
  function Commands(ps: seq<real>): seq<Event> {
    seq(|ps|, i requires 0 <= i < |ps| => Commanded(ps[i]))
  }

  lemma CommandsSnoc(ps: seq<real>, p: real)
    ensures Commands(ps + [p]) == Commands(ps) + [Commanded(p)]
  {
  }

  /** The callback event of a move, if it has a callback. */
  function Notice(cb: Option<nat>): seq<Event> {
    if cb.Some? then [Completed(cb.value)] else []
  }

  /** The trace of one move: its commanded positions, then its callback. */
  function MoveTrace(start: real, target: real, steps: int, k: EasingKind, cb: Option<nat>): seq<Event>
    requires !(target != start && steps == 0)
  {
    Commands(MovePercents(start, target, steps, k)) + Notice(cb)
  }

  /** Where the servo stands after the commands have run from start. */
  function FinalPosition(start: real, cmds: seq<Command>): real {
    if cmds == [] then start else cmds[|cmds| - 1].target
  }

  /** Every position commanded by running the queued commands in order from start. */
  function QueuePercents(start: real, cmds: seq<Command>): seq<real> {
    if cmds == [] then []
    else
      var init, last := cmds[..|cmds| - 1], cmds[|cmds| - 1];
      QueuePercents(start, init) + MovePercents(FinalPosition(start, init), last.target, QueueSteps, last.easing)
  }

  /** The trace of running the queued commands in order from start. */
  function QueueTrace(start: real, cmds: seq<Command>): seq<Event> {
    if cmds == [] then []
    else
      var init, last := cmds[..|cmds| - 1], cmds[|cmds| - 1];
      QueueTrace(start, init) + MoveTrace(FinalPosition(start, init), last.target, QueueSteps, last.easing, last.onComplete)
  }

  /** The callbacks fired in a trace, in order. */
  function Callbacks(t: seq<Event>): seq<nat> {
    if t == [] then []
    else
      var last := t[|t| - 1];
      Callbacks(t[..|t| - 1]) + (if last.Completed? then [last.callback] else [])
  }

  /** The positions commanded in a trace, in order. */
  function Percents(t: seq<Event>): seq<real> {
    if t == [] then []
    else
      var last := t[|t| - 1];
      Percents(t[..|t| - 1]) + (if last.Commanded? then [last.percent] else [])
  }

  /** The callbacks supplied with the commands, in queue order. */
  function CommandCallbacks(cmds: seq<Command>): seq<nat> {
    if cmds == [] then []
    else
      var last := cmds[|cmds| - 1];
      CommandCallbacks(cmds[..|cmds| - 1]) + (if last.onComplete.Some? then [last.onComplete.value] else [])
  }

  /**
   * The interpolation starts where the servo stands and its last position
   * is the target, because every curve maps 0 to 0 and 1 to 1.
   */
  lemma InterpolatedEnds(start: real, target: real, steps: int, k: EasingKind)
    requires target != start && steps > 0
    ensures Interpolated(start, target, steps, k)[0] == start
    ensures Interpolated(start, target, steps, k)[steps] == target
  {
    WaypointsIndex(start, target, steps, k, steps + 1, 0);
    WaypointsIndex(start, target, steps, k, steps + 1, steps);
    WaypointFirst(start, target, steps, k);
    WaypointLast(start, target, steps, k);
  }

  /** Step i of the interpolation commands start + change * eased(i / steps). */
  lemma {:induction false} WaypointsIndex(start: real, target: real, steps: int, k: EasingKind, n: nat, i: int)
    requires steps != 0 && 0 <= i < n
    ensures Waypoints(start, target, steps, k, n)[i] == Waypoint(start, target, steps, k, i)
  {
    if i < n - 1 {
      WaypointsIndex(start, target, steps, k, n - 1, i);
    }
  }

  lemma WaypointFirst(start: real, target: real, steps: int, k: EasingKind)
    requires steps > 0
    ensures Waypoint(start, target, steps, k, 0) == start
  {
    assert 0 as real / steps as real == 0.0;
    assert Ease(k, 0.0) == 0.0;
  }

  lemma WaypointLast(start: real, target: real, steps: int, k: EasingKind)
    requires steps > 0
    ensures Waypoint(start, target, steps, k, steps) == target
  {
    assert steps as real / steps as real == 1.0;
    assert Ease(k, 1.0) == 1.0;
  }

  /**
   * The last position a move commands is the exact target; a move with
   * steps > 0 and a real change commands steps + 2 positions starting with
   * the start, and any other move commands the target alone.
   */
  lemma MovePercentsShape(start: real, target: real, steps: int, k: EasingKind)
    requires !(target != start && steps == 0)
    ensures var ps := MovePercents(start, target, steps, k);
      && ps[|ps| - 1] == target
      && (target == start || steps < 0 ==> ps == [target])
      && (target != start && steps > 0 ==>
            |ps| == steps + 2 && ps[0] == start && ps[steps] == target)
  {
    if target != start && steps > 0 {
      InterpolatedEnds(start, target, steps, k);
    }
  }

  /** The percentages of a trace and of a concatenation of traces. */
  lemma {:induction false} PercentsAppend(a: seq<Event>, b: seq<Event>)
    ensures Percents(a + b) == Percents(a) + Percents(b)
    decreases |b|
  {
    if b == [] {
      assert a + b == a;
    } else {
      var init := b[..|b| - 1];
      assert (a + b)[..|a + b| - 1] == a + init;
      PercentsAppend(a, init);
    }
  }

  lemma {:induction false} CallbacksAppend(a: seq<Event>, b: seq<Event>)
    ensures Callbacks(a + b) == Callbacks(a) + Callbacks(b)
    decreases |b|
  {
    if b == [] {
      assert a + b == a;
    } else {
      var init := b[..|b| - 1];
      assert (a + b)[..|a + b| - 1] == a + init;
      CallbacksAppend(a, init);
    }
  }

  /** Commands carry their percentages and no callbacks. */
  lemma {:induction false} CommandsContents(ps: seq<real>)
    ensures Percents(Commands(ps)) == ps
    ensures Callbacks(Commands(ps)) == []
    decreases |ps|
  {
    if ps != [] {
      var init := ps[..|ps| - 1];
      assert Commands(ps)[..|ps| - 1] == Commands(init);
      CommandsContents(init);
    }
  }

  /**
   * In the trace of one move the callback fires exactly once if supplied, and
   * after the last position, which is the target; the positions of the trace
   * are exactly the move's percentages.
   */
  lemma MoveTraceOrder(start: real, target: real, steps: int, k: EasingKind, cb: Option<nat>)
    requires !(target != start && steps == 0)
    ensures var t := MoveTrace(start, target, steps, k, cb);
      && Percents(t) == MovePercents(start, target, steps, k)
      && Callbacks(t) == (if cb.Some? then [cb.value] else [])
      && (cb.None? ==> t[|t| - 1] == Commanded(target))
      && (cb.Some? ==> |t| >= 2 && t[|t| - 1] == Completed(cb.value) && t[|t| - 2] == Commanded(target))
  {
    var ps := MovePercents(start, target, steps, k);
    CommandsContents(ps);
    PercentsAppend(Commands(ps), Notice(cb));
    CallbacksAppend(Commands(ps), Notice(cb));
    assert Percents(Notice(cb)) == [] by {
      if cb.Some? { assert Notice(cb)[..0] == []; }
    }
    assert Callbacks(Notice(cb)) == (if cb.Some? then [cb.value] else []) by {
      if cb.Some? { assert Notice(cb)[..0] == []; }
    }
  }

  /**
   * Draining a queue fires the commands' callbacks exactly once each, in the
   * order the commands were queued, and commands exactly the queue's positions.
   */
  lemma {:induction false} QueueTraceContents(start: real, cmds: seq<Command>)
    ensures Callbacks(QueueTrace(start, cmds)) == CommandCallbacks(cmds)
    ensures Percents(QueueTrace(start, cmds)) == QueuePercents(start, cmds)
    decreases |cmds|
  {
    if cmds != [] {
      var init, last := cmds[..|cmds| - 1], cmds[|cmds| - 1];
      QueueTraceContents(start, init);
      var m := MoveTrace(FinalPosition(start, init), last.target, QueueSteps, last.easing, last.onComplete);
      MoveTraceOrder(FinalPosition(start, init), last.target, QueueSteps, last.easing, last.onComplete);
      CallbacksAppend(QueueTrace(start, init), m);
      PercentsAppend(QueueTrace(start, init), m);
    }
  }

  /** Queuing one more command extends the positions and the trace by that command's move. */
  lemma QueueSnoc(start: real, cmds: seq<Command>, c: Command)
    ensures QueueTrace(start, cmds + [c])
         == QueueTrace(start, cmds) + MoveTrace(FinalPosition(start, cmds), c.target, QueueSteps, c.easing, c.onComplete)
    ensures QueuePercents(start, cmds + [c])
         == QueuePercents(start, cmds) + MovePercents(FinalPosition(start, cmds), c.target, QueueSteps, c.easing)
    ensures FinalPosition(start, cmds + [c]) == c.target
  {
    assert (cmds + [c])[..|cmds + [c]| - 1] == cmds;
  }

  /** One more drained command, seen from a trace that already holds the earlier ones. */
  lemma QueueTraceStep(prefix: seq<Event>, start: real, done: seq<Command>, c: Command)
    ensures prefix + QueueTrace(start, done)
              + MoveTrace(FinalPosition(start, done), c.target, QueueSteps, c.easing, c.onComplete)
         == prefix + QueueTrace(start, done + [c])
  {
    QueueSnoc(start, done, c);
    AppendAssoc(prefix, QueueTrace(start, done),
      MoveTrace(FinalPosition(start, done), c.target, QueueSteps, c.easing, c.onComplete));
  }

  /** One more commanded position, seen from a trace that already holds the earlier ones. */
  lemma CommandsStep(prefix: seq<Event>, ps: seq<real>, p: real)
    ensures prefix + Commands(ps) + [Commanded(p)] == prefix + Commands(ps + [p])
  {
    CommandsSnoc(ps, p);
    AppendAssoc(prefix, Commands(ps), [Commanded(p)]);
  }
}
