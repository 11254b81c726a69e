/**
 * The controller of the servo board and the per-servo handles.
 *
 * The I2C bus is replaced by a log of the writes the controller issues; a
 * controller whose bus could not be opened issues none. Threads are run as
 * synchronous calls. A handle also records, in `trace`, every position it
 * commands through `SetPosition` and every completion callback it fires, so
 * that the order of the two can be stated.
 */
module Servo {
  import opened Wrappers
  import opened Easing
  import opened PositionMapping
  import opened Motion

  /** The exceptions the core raises on its own. */
  datatype Error =
    | UnknownServo(servoNum: int)  // KeyError: the servo was never set up
    | ZeroMaxAngle                 // ZeroDivisionError: the angle divided by a max_angle of 0
    | ZeroSteps                    // ZeroDivisionError: i / steps with steps == 0

  /** How a call ended: normally, or by raising. */
  datatype Outcome = Ok | Raised(error: Error)

  function Raises(e: Option<Error>): Outcome {
    if e.Some? then Raised(e.value) else Ok
  }

  /** One `write_byte_data(address, register, value)` on the bus. */
  datatype Write = Write(address: int, register: int, value: int)

  /** The board address a controller uses unless told otherwise. */
  const DefaultBoardAddress: int := 0x2D

  /** The step count of a blocking or background move unless told otherwise. */
  const DefaultSteps: int := 100

  /** Where a new handle believes its servo stands. */
  const InitialPosition: real := 50.0

  /** The writes that command the positions ps of one servo, in order. */
  function WritesOf(address: int, register: int, c: ServoConfig, ps: seq<real>): (ws: seq<Write>)
    requires MaxAngle(c) != 0.0
  {
    seq(|ps|, i requires 0 <= i < |ps| => Write(address, register, ScaledValue(c, ps[i])))
  }

  lemma WritesOfAppend(address: int, register: int, c: ServoConfig, a: seq<real>, b: seq<real>)
    requires MaxAngle(c) != 0.0
    ensures WritesOf(address, register, c, a + b) == WritesOf(address, register, c, a) + WritesOf(address, register, c, b)
  {
    var l, r := WritesOf(address, register, c, a + b), WritesOf(address, register, c, a) + WritesOf(address, register, c, b);
    assert forall i :: 0 <= i < |l| ==> l[i] == r[i];
  }

  /**
   * The exception writing a position of servoNum raises on a board with the
   * given bus and servo configurations: none without a bus, then a missing
   * configuration, then a zero maximum angle.
   */
  function RefusalOf(busPresent: bool, configs: map<int, ServoConfig>, servoNum: int): (e: Option<Error>)
    ensures e.Some? ==> busPresent
    ensures e == Some(UnknownServo(servoNum)) <==> busPresent && servoNum !in configs
    ensures e == Some(ZeroMaxAngle) <==> busPresent && servoNum in configs && MaxAngle(configs[servoNum]) == 0.0
    ensures e.None? <==> !busPresent || (servoNum in configs && MaxAngle(configs[servoNum]) != 0.0)
  {
    if !busPresent then None
    else if servoNum !in configs then Some(UnknownServo(servoNum))
    else if MaxAngle(configs[servoNum]) == 0.0 then Some(ZeroMaxAngle)
    else None
  }

  /**
   * The bus writes that commanding the positions ps of servoNum issues on a
   * board with the given bus, address and servo configurations: none without
   * a bus or when the write raises.
   */
  function Sent(busPresent: bool, address: int, configs: map<int, ServoConfig>, servoNum: int, ps: seq<real>)
    : seq<Write>
  {
    if busPresent && servoNum in configs && MaxAngle(configs[servoNum]) != 0.0
    then WritesOf(address, servoNum, configs[servoNum], ps)
    else []
  }

  /** Under a sane configuration every value written to the bus is within 0..180. */
  lemma WritesOfInRange(address: int, register: int, c: ServoConfig, ps: seq<real>)
    requires SaneConfig(c)
    ensures forall w :: w in WritesOf(address, register, c, ps) ==> 0 <= w.value <= 180
  {
    var ws := WritesOf(address, register, c, ps);
    forall w | w in ws ensures 0 <= w.value <= 180 {
      var i :| 0 <= i < |ws| && ws[i] == w;
      ScaledValueBounds(c, ps[i]);
    }
  }

  /** The board: an optional bus, its address, and the configuration of each servo set up. */
  class ServoController {
    const boardAddress: int
    const busPresent: bool
    var servos: map<int, ServoConfig>
    var writes: seq<Write>

    /** `busOpened` says whether opening the I2C bus succeeded. */
    constructor (busOpened: bool, boardAddress: int := DefaultBoardAddress)
      ensures this.boardAddress == boardAddress && busPresent == busOpened
      ensures servos == map[] && writes == []
    {
      this.boardAddress := boardAddress;
      busPresent := busOpened;
      servos := map[];
      writes := [];
    }

    /** The exception writing a position of servoNum raises, if any; there is none without a bus. */
    function Refusal(servoNum: int): Option<Error>
      reads this`servos
    {
      RefusalOf(busPresent, servos, servoNum)
    }

    /** The bus writes that commanding the positions ps of servoNum issues. */
    function Transmits(servoNum: int, ps: seq<real>): seq<Write>
      reads this`servos
    {
      Sent(busPresent, boardAddress, servos, servoNum, ps)
    }

    lemma TransmitsAppend(servoNum: int, a: seq<real>, b: seq<real>)
      ensures Transmits(servoNum, a + b) == Transmits(servoNum, a) + Transmits(servoNum, b)
    {
      if busPresent && servoNum in servos && MaxAngle(servos[servoNum]) != 0.0 {
        WritesOfAppend(boardAddress, servoNum, servos[servoNum], a, b);
      }
    }

    /** One more written position, seen from a write log that already holds the earlier ones. */
    lemma TransmitsStep(servoNum: int, prefix: seq<Write>, ps: seq<real>, p: real)
      ensures prefix + Transmits(servoNum, ps) + Transmits(servoNum, [p])
           == prefix + Transmits(servoNum, ps + [p])
    {
      TransmitsAppend(servoNum, ps, [p]);
      AppendAssoc(prefix, Transmits(servoNum, ps), Transmits(servoNum, [p]));
    }

    /** One more drained command, seen from a write log that already holds the earlier ones. */
    lemma TransmitsQueueStep(servoNum: int, prefix: seq<Write>, start: real, done: seq<Command>, c: Command)
      ensures prefix + Transmits(servoNum, QueuePercents(start, done))
                + Transmits(servoNum, MovePercents(FinalPosition(start, done), c.target, QueueSteps, c.easing))
           == prefix + Transmits(servoNum, QueuePercents(start, done + [c]))
    {
      QueueSnoc(start, done, c);
      var moved := MovePercents(FinalPosition(start, done), c.target, QueueSteps, c.easing);
      TransmitsAppend(servoNum, QueuePercents(start, done), moved);
      AppendAssoc(prefix, Transmits(servoNum, QueuePercents(start, done)), Transmits(servoNum, moved));
    }

    /** Records (or replaces) the configuration of servoNum and hands out a fresh handle for it. */
    method SetupServo(servoNum: int, config: ServoConfig) returns (h: ServoHandle)
      modifies this`servos
      ensures servos == old(servos)[servoNum := config]
      ensures fresh(h) && h.controller == this && h.servoNum == servoNum
      ensures h.currentPosition == InitialPosition && !h.isMoving
      ensures h.commandQueue == [] && !h.drainerAlive && h.trace == []
    {
      servos := servos[servoNum := config];
      h := new ServoHandle(this, servoNum);
    }

    /**
     * Writes the byte for percent to servoNum: nothing happens without a bus;
     * an unknown servo and a zero maximum angle raise before anything is
     * written; otherwise exactly one write of the mapped byte is issued.
     */
    method SetPositionPercent(servoNum: int, percent: real) returns (r: Outcome)
      modifies this`writes
      ensures r == Raises(Refusal(servoNum))
      ensures !busPresent ==> writes == old(writes)
      ensures r.Raised? ==> writes == old(writes)
      ensures r.Ok? && busPresent ==>
        writes == old(writes) + [Write(boardAddress, servoNum, ScaledValue(servos[servoNum], percent))]
      ensures writes == old(writes) + Transmits(servoNum, [percent])
    {
      if !busPresent {
        return Ok;
      }
      if servoNum !in servos {
        return Raised(UnknownServo(servoNum));
      }
      var config := servos[servoNum];
      if MaxAngle(config) == 0.0 {
        return Raised(ZeroMaxAngle);
      }
      var value := ScaledValue(config, percent);
      // A transport error of the write is swallowed, so the write always counts as issued.
      writes := writes + [Write(boardAddress, servoNum, value)];
      r := Ok;
    }
  }

  /** The handle of one servo: its believed position, its moving flag and its command queue. */
  class ServoHandle {
    const controller: ServoController
    const servoNum: int
    var currentPosition: real
    var isMoving: bool
    var commandQueue: seq<Command>
    /** Whether a sequence thread has been started and has not yet finished. */
    var drainerAlive: bool
    var trace: seq<Event>

    constructor (controller: ServoController, servoNum: int)
      ensures this.controller == controller && this.servoNum == servoNum
      ensures currentPosition == InitialPosition && !isMoving
      ensures commandQueue == [] && !drainerAlive && trace == []
    {
      this.controller := controller;
      this.servoNum := servoNum;
      currentPosition := InitialPosition;
      isMoving := false;
      commandQueue := [];
      drainerAlive := false;
      trace := [];
    }

    /**
     * Writes percent at once and records it, unclamped, as the current
     * position; if the write raises, the position is left as it was.
     */
    method SetPosition(percent: real) returns (r: Outcome)
      modifies this`currentPosition, this`trace, controller`writes
      ensures r == Raises(controller.Refusal(servoNum))
      ensures r.Raised? ==> currentPosition == old(currentPosition) && trace == old(trace)
      ensures r.Ok? ==> currentPosition == percent && trace == old(trace) + [Commanded(percent)]
      ensures controller.writes == old(controller.writes) + controller.Transmits(servoNum, [percent])
    {
      r := controller.SetPositionPercent(servoNum, percent);
      if r.Raised? {
        return;
      }
      currentPosition := percent;
      trace := trace + [Commanded(percent)];
    }

    /** One step of the interpolation loop: writes the position of step i. */
    method WriteWaypoint(start: real, target: real, steps: int, easing: EasingKind, i: int) returns (r: Outcome)
      requires steps != 0
      modifies this`currentPosition, this`trace, controller`writes
      ensures r == Raises(controller.Refusal(servoNum))
      ensures r.Raised? ==> currentPosition == old(currentPosition) && trace == old(trace)
      ensures r.Ok? ==>
        && currentPosition == Waypoint(start, target, steps, easing, i)
        && trace == old(trace) + [Commanded(Waypoint(start, target, steps, easing, i))]
      ensures controller.writes
           == old(controller.writes) + controller.Transmits(servoNum, [Waypoint(start, target, steps, easing, i)])
    {
      var change := target - start;
      var progress := i as real / steps as real;
      var eased := Ease(easing, progress);
      var newPos := start + change * eased;
      r := SetPosition(newPos);
    }

    /**
     * The interpolation loop of a move: for i = 0..steps (none when steps is
     * negative), the position start + change * eased(i / steps) is written.
     */
    method Interpolate(start: real, target: real, steps: int, easing: EasingKind) returns (r: Outcome)
      requires target != start && steps != 0
      requires currentPosition == start
      modifies this`currentPosition, this`trace, controller`writes
      ensures r == if steps > 0 then Raises(controller.Refusal(servoNum)) else Ok
      ensures r.Raised? ==>
        currentPosition == start && trace == old(trace) && controller.writes == old(controller.writes)
      ensures r.Ok? ==>
        && (steps > 0 ==> currentPosition == target)
        && (steps < 0 ==> currentPosition == start)
        && trace == old(trace) + Commands(Interpolated(start, target, steps, easing))
        && controller.writes == old(controller.writes)
                                + controller.Transmits(servoNum, Interpolated(start, target, steps, easing))
    {
      ghost var trace0, writes0 := trace, controller.writes;
      var i := 0;
      r := Ok;
      while i < steps + 1
        invariant 0 <= i && (steps > 0 ==> i <= steps + 1) && (steps < 0 ==> i == 0)
        invariant r == Ok
        invariant controller.Refusal(servoNum).Some? ==> i == 0
        invariant i == 0 ==> currentPosition == start
        invariant 0 < i ==> currentPosition == Waypoint(start, target, steps, easing, i - 1)
        invariant trace == trace0 + Commands(Waypoints(start, target, steps, easing, i))
        invariant controller.writes == writes0 + controller.Transmits(servoNum, Waypoints(start, target, steps, easing, i))
      {
        r := WriteWaypoint(start, target, steps, easing, i);
        if r.Raised? {
          return;
        }
        CommandsStep(trace0, Waypoints(start, target, steps, easing, i), Waypoint(start, target, steps, easing, i));
        controller.TransmitsStep(servoNum, writes0, Waypoints(start, target, steps, easing, i),
                                 Waypoint(start, target, steps, easing, i));
        i := i + 1;
      }
      if steps > 0 {
        WaypointLast(start, target, steps, easing);
      }
    }

    /**
     * One move: unless the target is where the servo stands, steps + 1
     * interpolated positions i / steps along the easing curve, then one
     * final write of the exact target, after which the servo is no longer
     * moving and the callback, if any, fires. A zero step count with a real
     * change divides by zero before anything is written; a servo whose
     * writes raise fails on its first write, still marked as moving.
     */
    method ExecuteMove(target: real, duration: real, steps: int, easing: EasingKind, onComplete: Option<nat>)
      returns (r: Outcome)
      modifies this`currentPosition, this`isMoving, this`trace, controller`writes
      ensures r == if target != old(currentPosition) && steps == 0 then Raised(ZeroSteps)
                   else Raises(controller.Refusal(servoNum))
      ensures r.Raised? ==>
        && isMoving && currentPosition == old(currentPosition)
        && trace == old(trace) && controller.writes == old(controller.writes)
      ensures r.Ok? ==> !isMoving && currentPosition == target
      ensures r.Ok? ==>
        trace == old(trace) + MoveTrace(old(currentPosition), target, steps, easing, onComplete)
      ensures r.Ok? ==>
        controller.writes == old(controller.writes)
                             + controller.Transmits(servoNum, MovePercents(old(currentPosition), target, steps, easing))
    {
      ghost var trace0, writes0 := trace, controller.writes;
      isMoving := true;
      var start := currentPosition;
      var change := target - start;
      if change != 0.0 {
        if steps == 0 {
          return Raised(ZeroSteps);
        }
        r := Interpolate(start, target, steps, easing);
        if r.Raised? {
          return;
        }
      }
      ghost var ps := Interpolated(start, target, steps, easing);
      r := SetPosition(target);
      if r.Raised? {
        return;
      }
      CommandsStep(trace0, ps, target);
      controller.TransmitsStep(servoNum, writes0, ps, target);
      isMoving := false;
      if onComplete.Some? {
        // The callback is invoked; the model records that it fired.
        trace := trace + [Completed(onComplete.value)];
      }
      AppendAssoc(trace0, Commands(ps + [target]), Notice(onComplete));
    }

    /** The blocking move: a move with no callback. */
    method MoveTo(target: real, duration: real, steps: int := DefaultSteps, easing: EasingKind := InOutQuad)
      returns (r: Outcome)
      modifies this`currentPosition, this`isMoving, this`trace, controller`writes
      ensures r == if target != old(currentPosition) && steps == 0 then Raised(ZeroSteps)
                   else Raises(controller.Refusal(servoNum))
      ensures r.Raised? ==>
        && isMoving && currentPosition == old(currentPosition)
        && trace == old(trace) && controller.writes == old(controller.writes)
      ensures r.Ok? ==> !isMoving && currentPosition == target
      ensures r.Ok? ==>
        trace == old(trace) + Commands(MovePercents(old(currentPosition), target, steps, easing))
      ensures r.Ok? ==>
        controller.writes == old(controller.writes)
                             + controller.Transmits(servoNum, MovePercents(old(currentPosition), target, steps, easing))
    {
      r := ExecuteMove(target, duration, steps, easing, None);
      assert r.Ok? ==> Notice(None) == [];
    }

    /**
     * The background move, run here to completion on the caller's behalf;
     * the result is how the move's thread ends.
     */
    method MoveToAsync(target: real, duration: real, steps: int := DefaultSteps, easing: EasingKind := InOutQuad,
                       onComplete: Option<nat> := None)
      returns (r: Outcome)
      modifies this`currentPosition, this`isMoving, this`trace, controller`writes
      ensures r == if target != old(currentPosition) && steps == 0 then Raised(ZeroSteps)
                   else Raises(controller.Refusal(servoNum))
      ensures r.Raised? ==>
        && isMoving && currentPosition == old(currentPosition)
        && trace == old(trace) && controller.writes == old(controller.writes)
      ensures r.Ok? ==> !isMoving && currentPosition == target
      ensures r.Ok? ==>
        trace == old(trace) + MoveTrace(old(currentPosition), target, steps, easing, onComplete)
      ensures r.Ok? ==>
        controller.writes == old(controller.writes)
                             + controller.Transmits(servoNum, MovePercents(old(currentPosition), target, steps, easing))
    {
      r := ExecuteMove(target, duration, steps, easing, onComplete);
    }

    /** Appends one command at the back of the queue and returns the handle itself. */
    method QueueMove(target: real, duration: real, easing: EasingKind := InOutQuad, onComplete: Option<nat> := None)
      returns (h: ServoHandle)
      modifies this`commandQueue
      ensures h == this
      ensures commandQueue == old(commandQueue) + [Command(target, duration, easing, onComplete)]
    {
      commandQueue := commandQueue + [Command(target, duration, easing, onComplete)];
      h := this;
    }

    /** One turn of the drain loop: pop the oldest command and run it with 100 steps. */
    method DrainOne(ghost start: real, ghost done: seq<Command>, ghost trace0: seq<Event>, ghost writes0: seq<Write>)
      returns (r: Outcome)
      requires commandQueue != []
      requires currentPosition == FinalPosition(start, done)
      requires trace == trace0 + QueueTrace(start, done)
      requires controller.writes == writes0 + controller.Transmits(servoNum, QueuePercents(start, done))
      modifies this`currentPosition, this`isMoving, this`trace, this`commandQueue, controller`writes
      ensures commandQueue == old(commandQueue)[1..]
      ensures r == Raises(controller.Refusal(servoNum))
      ensures r.Raised? ==>
        && isMoving && currentPosition == old(currentPosition)
        && trace == old(trace) && controller.writes == old(controller.writes)
      ensures r.Ok? ==>
        && !isMoving
        && currentPosition == FinalPosition(start, done + [old(commandQueue)[0]])
        && trace == trace0 + QueueTrace(start, done + [old(commandQueue)[0]])
        && controller.writes == writes0 + controller.Transmits(servoNum, QueuePercents(start, done + [old(commandQueue)[0]]))
    {
      var command := commandQueue[0];
      commandQueue := commandQueue[1..];
      r := ExecuteMove(command.target, command.duration, QueueSteps, command.easing, command.onComplete);
      if r.Raised? {
        return;
      }
      QueueSnoc(start, done, command);
      QueueTraceStep(trace0, start, done, command);
      controller.TransmitsQueueStep(servoNum, writes0, start, done, command);
    }

    /**
     * Drains the queue front to back, running each command to completion
     * with 100 steps before taking the next. A servo whose writes raise
     * stops at its first command, which has already been taken off.
     */
    method ProcessQueue() returns (r: Outcome)
      modifies this`currentPosition, this`isMoving, this`trace, this`commandQueue, controller`writes
      ensures r == if old(commandQueue) == [] then Ok else Raises(controller.Refusal(servoNum))
      ensures r.Raised? ==>
        && commandQueue == old(commandQueue)[1..]
        && isMoving && currentPosition == old(currentPosition)
        && trace == old(trace) && controller.writes == old(controller.writes)
      ensures r.Ok? ==>
        && commandQueue == []
        && currentPosition == FinalPosition(old(currentPosition), old(commandQueue))
        && isMoving == (old(isMoving) && old(commandQueue) == [])
        && trace == old(trace) + QueueTrace(old(currentPosition), old(commandQueue))
        && controller.writes == old(controller.writes)
                                + controller.Transmits(servoNum, QueuePercents(old(currentPosition), old(commandQueue)))
    {
      ghost var queue, start := commandQueue, currentPosition;
      ghost var done: seq<Command> := [];
      ghost var trace0, writes0 := trace, controller.writes;
      r := Ok;
      while commandQueue != []
        invariant done + commandQueue == queue
        invariant r == Ok
        invariant done != [] ==> controller.Refusal(servoNum).None?
        invariant currentPosition == FinalPosition(start, done)
        invariant isMoving == (old(isMoving) && done == [])
        invariant trace == trace0 + QueueTrace(start, done)
        invariant controller.writes == writes0 + controller.Transmits(servoNum, QueuePercents(start, done))
        decreases |commandQueue|
      {
        ghost var rest := commandQueue;
        r := DrainOne(start, done, trace0, writes0);
        if r.Raised? {
          return;
        }
        assert [rest[0]] + commandQueue == rest;
        AppendAssoc(done, [rest[0]], commandQueue);
        done := done + [rest[0]];
      }
      assert done == queue;
    }

    /**
     * Starts the sequence thread unless one is still alive, in which case
     * nothing happens and no thread is returned.
     */
    method StartSequence() returns (started: bool)
      modifies this`drainerAlive
      ensures started == !old(drainerAlive)
      ensures drainerAlive
    {
      if drainerAlive {
        return false;
      }
      drainerAlive := true;
      started := true;
    }

    /** The life of a started sequence thread: it drains the queue, then ends. */
    method RunSequence() returns (r: Outcome)
      requires drainerAlive
      modifies this`currentPosition, this`isMoving, this`trace, this`commandQueue, this`drainerAlive
      modifies controller`writes
      ensures !drainerAlive
      ensures r == if old(commandQueue) == [] then Ok else Raises(controller.Refusal(servoNum))
      ensures r.Raised? ==>
        && commandQueue == old(commandQueue)[1..]
        && isMoving && currentPosition == old(currentPosition)
        && trace == old(trace) && controller.writes == old(controller.writes)
      ensures r.Ok? ==>
        && commandQueue == []
        && currentPosition == FinalPosition(old(currentPosition), old(commandQueue))
        && isMoving == (old(isMoving) && old(commandQueue) == [])
        && trace == old(trace) + QueueTrace(old(currentPosition), old(commandQueue))
        && controller.writes == old(controller.writes)
                                + controller.Transmits(servoNum, QueuePercents(old(currentPosition), old(commandQueue)))
    {
      r := ProcessQueue();
      drainerAlive := false;
    }
  }

  /**
   * Starting the sequence twice before its thread has run gives one thread:
   * the second start is refused, and the one drain ends as writing to the
   * servo raises. A drain that ends normally fires each queued callback
   * exactly once, in queue order; one that raises fires none.
   */
  method StartSequenceTwice(h: ServoHandle) returns (first: bool, second: bool, r: Outcome)
    requires !h.drainerAlive
    modifies h, h.controller`writes
    ensures first && !second && !h.drainerAlive
    ensures r == if old(h.commandQueue) == [] then Ok else Raises(h.controller.Refusal(h.servoNum))
    ensures r.Raised? ==>
      && h.trace == old(h.trace) && h.commandQueue == old(h.commandQueue)[1..]
      && h.isMoving && h.currentPosition == old(h.currentPosition)
      && h.controller.writes == old(h.controller.writes)
    ensures r.Ok? ==>
      && h.currentPosition == FinalPosition(old(h.currentPosition), old(h.commandQueue))
      && h.isMoving == (old(h.isMoving) && old(h.commandQueue) == [])
      && h.trace == old(h.trace) + QueueTrace(old(h.currentPosition), old(h.commandQueue))
      && h.controller.writes
         == old(h.controller.writes) + h.controller.Transmits(h.servoNum, QueuePercents(old(h.currentPosition), old(h.commandQueue)))
    ensures r.Ok? ==> h.commandQueue == []
    ensures r.Ok? ==> Callbacks(h.trace) == Callbacks(old(h.trace)) + CommandCallbacks(old(h.commandQueue))
  {
    first := h.StartSequence();
    second := h.StartSequence();
    ghost var t0, q0, p0 := h.trace, h.commandQueue, h.currentPosition;
    r := h.RunSequence();
    if r.Ok? {
      QueueTraceContents(p0, q0);
      CallbacksAppend(t0, QueueTrace(p0, q0));
    }
  }
}
