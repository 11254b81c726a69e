# Servo controller core, modelled in Dafny

This project models the motion core of a small Python library that drives
hobby servos through a servo driver board on an I2C bus
(`servo_controller_library.py`). The model covers four parts:

- the four **easing curves** (`Easing`): linear, quadratic and cubic
  ease-in-out, and bounce ease-out;
- the **position-to-byte mapping** of `ServoController.set_position_percent`:
  clamp the percentage to [0, 100], remap it into the servo's safe
  sub-range, convert it to an angle, and scale that angle to a byte in 0..180;
- the **per-servo handle** (`ServoHandle`): immediate writes, the
  interpolating move with its final exact write and completion callback, the
  FIFO command queue and its sequence thread;
- the **group coordinator** (`ServoGroup`): fanning a pose out to the named
  servos, and waiting for the pose.

Modules, leaf first:

| file | module | contents |
|---|---|---|
| `wrappers.dfy` | `Wrappers` | `Option`, and a sequence regrouping lemma |
| `easing.dfy` | `Easing` | `EasingKind`, the curves, `Ease`, and their bounds, endpoints, continuity and symmetry |
| `mapping.dfy` | `PositionMapping` | `ServoConfig` with its defaults, `Clamp`, `Trunc`, `ScaledValue`, and the mapping's properties |
| `motion.dfy` | `Motion` | pure specification of what a move and a drained queue command: positions, trace of positions and callbacks |
| `servo.dfy` | `Servo` | classes `ServoController` and `ServoHandle` |
| `group.dfy` | `Group` | the pose filter `Tracked`, the snapshot `GroupView` with `Moved` and `Logged`, and class `ServoGroup` with `Step` and `Effect` |

How the system's parts are represented:

- Numbers are `real`. Python's `int()` on the scaled angle is `Trunc`,
  truncation toward zero.
- `setup_servo`'s keyword arguments are a `ServoConfig` whose three fields
  are optional. A missing field takes its default (0, 100 and 180) at the
  moment a position is written, as `config.get(..., default)` does.
- The bus is replaced by `ServoController.writes`, the log of
  `write_byte_data(address, register, value)` calls. Whether opening the bus
  succeeded is the constructor parameter `busOpened`. Without a bus nothing is
  ever written.
- Exceptions the core raises itself become `Outcome = Ok | Raised(Error)`:
  - `UnknownServo` is the `KeyError` of `self.servos[servo_num]` for a servo
    that was never set up. It is raised only when a bus exists.
  - `ZeroMaxAngle` is the `ZeroDivisionError` of `angle / max_angle` when
    `max_angle` is 0.
  - `ZeroSteps` is the `ZeroDivisionError` of `i / steps` when `steps` is 0
    and the target differs from the current position.
  The configuration cannot change during a move, so when writes raise, the
  first write of the move raises. The move then stops with `is_moving` still
  true and nothing written.
- A negative `steps` makes `range(steps + 1)` empty. Such a move issues only
  its final write.
- Completion callbacks are identified by a number. Calling one is recorded as
  a `Completed` event. Each handle keeps a `trace` of the positions it
  commanded through `set_position` and of the callbacks it fired, so that the
  order of the two can be stated.
- Threads run as synchronous calls. `move_to_async` runs its move to the end
  and returns how it ended. `start_sequence` is split into two methods:
  - `StartSequence` spawns the drainer thread: it marks the thread alive, or
    refuses when a live one exists.
  - `RunSequence` is that thread's life: it drains the queue and then ends.
  With that split, starting a sequence twice before its thread has run shows
  the guard at work.
- A pose is the list of its `(name, target)` items in dictionary order.
- The library's default arguments are kept as Dafny default parameters:
  100 steps and the quadratic ease-in-out curve for `move_to` and
  `move_to_async`, the same curve for `queue_move` and `move_to_pose`, and
  board address 0x2D for the controller.
- The group's effect on its servos and controllers is stated over a
  snapshot, `GroupView`: per handle its position, moving flag, trace, queue
  and sequence-thread flag, per controller its configurations and write log.
  `Step` is what one background move of a pose does to that snapshot and
  `Effect` applies the moves of a pose one after the other. `Step` is built
  from two definitions: `Moved`, how a move leaves its servo (on the target,
  at rest, its trace extended, when it ends normally; marked as moving and
  otherwise unchanged when it raises), and `Logged`, how it leaves its
  controller (the move's writes appended on success, nothing on a raise).
  That a background move of the library does this is `StartMove`'s contract.

The model follows the code where it may surprise a reader:

- `set_position` stores the raw, unclamped percentage in `current_position`.
  Only the byte mapping clamps.
- Between two queued segments `is_moving` drops back to false, because each
  `_execute_move` clears it at its end.
- `start_sequence` on a live sequence returns nothing and changes nothing.

## Model

| member | source | states |
|---|---|---|
| Easing.Ease | servo_controller_library.py:12-45 | every curve maps 0 to 0 and 1 to 1; the quadratic and cubic curves give 0.5 at t = 0.5 |
| Easing.EaseBounded | servo_controller_library.py:8-45 | for t in [0, 1] every curve stays within [0, 1], as the class documentation says |
| Easing.BounceContinuous | servo_controller_library.py:34-45 | at each break point 1/2.75, 2/2.75 and 2.5/2.75 the bounce branch on the left and the branch that takes over give the same value, and the curve takes that value |
| Easing.InOutSymmetric | servo_controller_library.py:17-31 | the quadratic and cubic in-out curves are point-symmetric about (0.5, 0.5): f(1 - t) = 1 - f(t) on [0, 1] |
| PositionMapping.Clamp | servo_controller_library.py:214 | the result is in [0, 100]; it is the input inside that range, 0 below it and 100 above it |
| PositionMapping.Trunc | servo_controller_library.py:222 | the integer is the real truncated toward zero, as Python's `int()` of a float |
| PositionMapping.ScaledValueClamps | servo_controller_library.py:214 | the byte for any percentage is the byte for its clamped value, so -10 writes as 0 and 130 as 100 |
| PositionMapping.ScaledValue | servo_controller_library.py:219-222 | for any nonzero max_angle the angle conversion cancels: the byte is the truncation of the remapped percentage times 1.8 |
| PositionMapping.ActualPercentMonotone | servo_controller_library.py:215-220 | with safe_min <= safe_max the remapped percentage lies in [safe_min, safe_max] and never decreases as the percentage grows |
| PositionMapping.ScaledValueBounds | servo_controller_library.py:215-222 | with 0 <= safe_min <= safe_max <= 100 and max_angle > 0 the byte is within 0..180 |
| PositionMapping.ScaledValueMonotone | servo_controller_library.py:215-222 | under the same configuration the byte never decreases as the percentage grows |
| PositionMapping.ScaledValueEnds | servo_controller_library.py:215-222 | percentage 0 writes the truncation of 1.8 * safe_min, and percentage 100 writes the truncation of 1.8 * safe_max |
| PositionMapping.DefaultScaledValue | servo_controller_library.py:215-222 | with the default configuration the byte is floor(1.8 * clamped percent), and floor(1.8 * percent) for a percent in [0, 100] |
| Motion.Interpolated | servo_controller_library.py:73-77 | the interpolation has steps + 1 positions when the target differs from the start and steps > 0, and none otherwise |
| Motion.WaypointsIndex | servo_controller_library.py:74-77 | step i of the interpolation commands start + change * easing(i / steps) |
| Motion.InterpolatedEnds | servo_controller_library.py:74-77 | the first interpolated position is the start and the last is the target |
| Motion.MovePercentsShape | servo_controller_library.py:73-85 | a move's last position is the exact target; a real move with steps > 0 commands steps + 2 positions starting at the start; any other move commands only the target |
| Motion.MoveTraceOrder | servo_controller_library.py:77-88 | a move's trace commands exactly its positions; the callback, if supplied, fires exactly once, right after the final write of the target |
| Motion.QueueTraceContents | servo_controller_library.py:111-118 | draining a queue fires every supplied callback exactly once, in queue order, and commands exactly the queue's positions |
| Group.Tracked | servo_controller_library.py:141-145 | the pose filter keeps no more items than the pose has, and every item it keeps names a servo of the group |
| Group.TrackedAppend | servo_controller_library.py:140-145 | the pose filter keeps the order of the pose: filtering a concatenation concatenates the filtered parts |
| Group.TrackedMembers | servo_controller_library.py:140-145 | an item is tracked exactly when it is in the pose and its name is a servo of the group; no more items are tracked than the pose has |
| Group.TrackedExtremes | servo_controller_library.py:140-145 | when every name is known the whole pose is tracked, and when none is known nothing is |
| Group.TrackedDistinct | servo_controller_library.py:141-145 | filtering a pose whose names are distinct, as a dictionary's are, keeps them distinct |
| Servo.RefusalOf | servo_controller_library.py:212-222 | nothing is refused without a bus; with a bus, an unknown servo raises the KeyError and a zero max angle the ZeroDivisionError, each exactly when its condition holds; a present bus, a known servo and a nonzero max angle refuse nothing, so the write goes out |
| Servo.WritesOfInRange | servo_controller_library.py:215-226 | under a sane configuration every byte written for any list of positions is within 0..180 |
| Servo.ServoController.constructor | servo_controller_library.py:159-168 | a new controller has no servos and no writes; its bus exists exactly when opening it succeeded |
| Servo.ServoController.SetupServo | servo_controller_library.py:170-173 | the servo's configuration is recorded or replaced, and a fresh idle handle at 50 % with an empty queue is returned for it |
| Servo.ServoController.SetPositionPercent | servo_controller_library.py:211-227 | without a bus nothing is written and nothing raised; an unknown servo and a zero max angle raise before any write; otherwise exactly one write of the mapped byte goes to the board address and servo register |
| Servo.ServoHandle.constructor | servo_controller_library.py:51-58 | a new handle stands at 50 %, is not moving, has an empty queue and no live sequence thread |
| Servo.ServoHandle.SetPosition | servo_controller_library.py:60-64 | the percentage is written and then stored unclamped as the current position; if the write raises, the position is unchanged |
| Servo.ServoHandle.WriteWaypoint | servo_controller_library.py:75-78 | step i writes start + change * easing(i / steps) and makes it the current position |
| Servo.ServoHandle.Interpolate | servo_controller_library.py:73-83 | the loop writes the interpolated positions in order, for i = 0..steps, and stops at the target |
| Servo.ServoHandle.ExecuteMove | servo_controller_library.py:66-88 | a zero step count with a real change raises; otherwise the interpolated positions and then the exact target are written, the servo ends on the target and not moving, and the callback fires after the final write; a raising servo stops at its first write, still moving |
| Servo.ServoHandle.MoveTo | servo_controller_library.py:90-92 | the blocking move is a move without a callback |
| Servo.ServoHandle.MoveToAsync | servo_controller_library.py:94-98 | the background move performs the same move, callback included |
| Servo.ServoHandle.QueueMove | servo_controller_library.py:100-109 | one command is appended at the back of the queue and the handle itself is returned |
| Servo.ServoHandle.ProcessQueue | servo_controller_library.py:111-119 | the queued commands run in insertion order with 100 steps each; the queue ends empty, the servo on the last target, and the trace and writes are those of the commands in order; a raising servo stops at its first command, which is already dequeued |
| Servo.ServoHandle.DrainOne | servo_controller_library.py:113-118 | one turn of the drain loop removes the front command and runs it with 100 steps; on success the position, trace and writes are those of the commands drained so far plus this one; a raising move leaves it dequeued and the servo still moving |
| Servo.ServoHandle.StartSequence | servo_controller_library.py:121-128 | a thread is started exactly when no earlier one is alive; afterwards one is alive |
| Servo.ServoHandle.RunSequence | servo_controller_library.py:111-128 | the started thread drains the queue as ProcessQueue does, then is no longer alive |
| Servo.StartSequenceTwice | servo_controller_library.py:111-128 | two starts before the thread runs give one drain: the second start is refused; the drain ends normally for an empty queue and otherwise exactly as writing to the servo raises; when it ends normally the servo's position, moving flag, trace and write log are exactly those of one drain of the queue, so every queued callback fires exactly once, in queue order, and no position is commanded twice; when it raises none fires, nothing is written and the first command is dequeued |
| Group.ServoGroup.constructor | servo_controller_library.py:132-134 | a new group holds the given servos and tracks no moves |
| Group.ServoGroup.EffectKeeps | servo_controller_library.py:140-146 | a pose changes no queue, no sequence-thread flag and no servo configuration of the group |
| Group.ServoGroup.EffectUntouched | servo_controller_library.py:140-146 | a servo that no move of the pose names ends the pose exactly as it was |
| Group.ServoGroup.EffectSingle | servo_controller_library.py:140-146 | a servo that exactly one move of the pose names ends as that one move, started from the state before the pose, leaves it |
| Group.ServoGroup.PoseEnds | servo_controller_library.py:140-146 | when no two names of the group share a handle, every servo the pose names ends as its own move leaves it: on its target when the move ended normally, marked as moving where it stood when the move raised |
| Group.ServoGroup.Extend | servo_controller_library.py:144-145 | appending a move that ended as writing to its servo raises keeps every tracked outcome matched to its servo, adds the move's (name, target) entry, and applies the move after the earlier ones |
| Group.ServoGroup.StartMove | servo_controller_library.py:143-144 | the background move of one item runs with the default 100 steps and the pose's easing; it ends as writing to its servo raises, and the group ends as Step says: only that servo and its controller change |
| Group.ServoGroup.Launch | servo_controller_library.py:143-145 | starting one more item's move after earlier ones appends its (name, target) entry, keeps every outcome that of its servo, and leaves the group as all those moves in order leave it |
| Group.ServoGroup.StartAll | servo_controller_library.py:141-145 | one move per pose item whose name is a servo of the group, in pose order, unknown names skipped; each ends as writing to its servo raises under the configurations before the pose, and the group ends as those moves in pose order leave it |
| Group.ServoGroup.MoveToPose | servo_controller_library.py:136-146 | the tracked moves are replaced by exactly one per pose item naming a servo of the group, in pose order; each move's outcome is the one writing to its servo gives, and the group's handles and controllers end exactly as those moves, with 100 steps and the pose's easing, applied in pose order leave them |
| Group.ServoGroup.WaitForMove | servo_controller_library.py:148-153 | waiting returns the group itself at once, since every tracked move has finished |

## Left out

- The I2C transport is replaced by the write log: opening `smbus.SMBus`, `write_byte_data`, the swallowed `IOError` and `cleanup`. A write is logged whether or not the transport would have failed, which is what the swallowed error makes visible to callers.
- A caller's own easing function is not modelled: the library accepts any callable as `easing_func`, while the model takes only its four curves, named by `EasingKind`.
- Bytes outside 0..255 that a configuration outside the sane range could produce are logged as computed. What the transport would do with them is not modelled.
- Threads, the per-handle and bus locks, `join` and `is_alive` are not modelled. Moves run synchronously, and "a sequence thread is alive" is the flag `drainerAlive`. Races between concurrent moves of one servo, and between the moves of an old and a new pose, are concurrency and out of scope.
- Wall-clock pacing is not modelled: `time.time`, `time.sleep` and the expected-time computation. `duration` is carried but affects only timing, not the positions written.
- All `print` output, and `run_initialization_sequence`, which only orchestrates poses with sleeps and prints.
- IEEE-754 rounding is not modelled: curves and percentages are exact reals, so the endpoint, midpoint and continuity facts hold exactly, while in floating point they may be off by rounding.
- Completion callbacks are recorded, not run: a callback that raises, or calls back into the handle, is not modelled.
- Configuration values of a non-numeric type, which would make Python raise a `TypeError`, are not modelled; the configuration fields are reals.
- Group.ServoGroup.PoseEnds: states each servo's end state only when the names of the group map to distinct handles; when two names share one handle the later move starts where the earlier one stopped, which `Effect` still states exactly.
- The controller's `bus_number` argument is not modelled, because the bus itself is replaced by the write log.
- Group.ServoGroup.WaitForMove: states only that the group itself is returned; with moves run synchronously there is nothing left to wait for.
