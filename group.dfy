/**
 * The coordinator that moves a named set of servos to a pose together.
 * Each servo's background move is run to completion in turn, so waiting for
 * the pose has nothing left to wait for.
 */
module Group {
  import opened Wrappers
  import opened Easing
  import opened Motion
  import opened Servo
  import opened PositionMapping

  /** The (name, target percent) items of a pose, in the order the pose lists them. */
  type Pose = seq<(string, real)>

  /** A pose is a dictionary: no name occurs twice. */
  predicate DistinctNames(pose: Pose) {
    forall a, b :: 0 <= a < b < |pose| ==> pose[a].0 != pose[b].0
  }

  /** The items of pose whose names are known, in pose order. */
  function Tracked(pose: Pose, known: set<string>): (kept: seq<(string, real)>)
    ensures |kept| <= |pose|
    ensures forall i :: 0 <= i < |kept| ==> kept[i].0 in known
  {
    if pose == [] then []
    else
      var last := pose[|pose| - 1];
      Tracked(pose[..|pose| - 1], known) + (if last.0 in known then [last] else [])
  }

  /** Filtering a concatenation filters each part: the kept items stay in pose order. */
  lemma {:induction false} TrackedAppend(a: Pose, b: Pose, known: set<string>)
    ensures Tracked(a + b, known) == Tracked(a, known) + Tracked(b, known)
    decreases |b|
  {
    if b == [] {
      assert a + b == a;
    } else {
      var init := b[..|b| - 1];
      assert (a + b)[..|a + b| - 1] == a + init;
      TrackedAppend(a, init, known);
    }
  }

  /** An item is tracked exactly when it is in the pose and its name is known. */
  lemma {:induction false} TrackedMembers(pose: Pose, known: set<string>)
    ensures forall e :: e in Tracked(pose, known) <==> e in pose && e.0 in known
    ensures |Tracked(pose, known)| <= |pose|
    decreases |pose|
  {
    if pose != [] {
      var init := pose[..|pose| - 1];
      TrackedMembers(init, known);
      assert pose == init + [pose[|pose| - 1]];
    }
  }

  /** With every name known the whole pose is tracked; with none known, nothing is. */
  lemma {:induction false} TrackedExtremes(pose: Pose, known: set<string>)
    ensures (forall i :: 0 <= i < |pose| ==> pose[i].0 in known) ==> Tracked(pose, known) == pose
    ensures (forall i :: 0 <= i < |pose| ==> pose[i].0 !in known) ==> Tracked(pose, known) == []
    decreases |pose|
  {
    if pose != [] {
      var init, last := pose[..|pose| - 1], pose[|pose| - 1];
      TrackedExtremes(init, known);
      assert Tracked(pose, known) == Tracked(init, known) + (if last.0 in known then [last] else []);
      if forall i :: 0 <= i < |pose| ==> pose[i].0 in known {
        assert forall i :: 0 <= i < |init| ==> init[i] == pose[i];
        assert pose == init + [last];
      }
    }
  }

  /** Filtering a dictionary keeps it a dictionary. */
  lemma {:induction false} TrackedDistinct(pose: Pose, known: set<string>)
    requires DistinctNames(pose)
    ensures DistinctNames(Tracked(pose, known))
    decreases |pose|
  {
    if pose != [] {
      var init, last := pose[..|pose| - 1], pose[|pose| - 1];
      TrackedDistinct(init, known);
      TrackedMembers(init, known);
      var kept := Tracked(init, known);
      forall i | 0 <= i < |kept| ensures kept[i].0 != last.0 {
        var k :| 0 <= k < |init| && init[k] == kept[i];
      }
    }
  }

  /** A started move: the servo's name, its target, and how its thread ended. */
  datatype MoveTask = MoveTask(name: string, target: real, outcome: Outcome)

  function Entries(tasks: seq<MoveTask>): seq<(string, real)> {
    seq(|tasks|, i requires 0 <= i < |tasks| => (tasks[i].name, tasks[i].target))
  }

  lemma EntriesSnoc(tasks: seq<MoveTask>, t: MoveTask)
    ensures Entries(tasks + [t]) == Entries(tasks) + [(t.name, t.target)]
  {
    var l, r := Entries(tasks + [t]), Entries(tasks) + [(t.name, t.target)];
    assert forall i :: 0 <= i < |l| ==> l[i] == r[i];
  }

  /** The state of one servo handle. */
  datatype HandleState = HandleState(position: real, moving: bool, trace: seq<Event>, queue: seq<Command>, alive: bool)

  /** The state of one controller: the configurations of its servos and its write log. */
  datatype BoardState = BoardState(configs: map<int, ServoConfig>, writes: seq<Write>)

  /** The state of every handle and every controller a group reaches. */
  datatype GroupView = GroupView(handles: map<ServoHandle, HandleState>, boards: map<ServoController, BoardState>)

  /**
   * How a background move of the pose leaves its servo: a move that ends
   * normally leaves the servo at rest on the target with its trace extended
   * by the move's trace; a move that raises leaves it marked as moving.
   * Either way its queue and its sequence thread are untouched.
   */
  function Moved(st: HandleState, t: MoveTask, easing: EasingKind): (after: HandleState)
    ensures after.queue == st.queue && after.alive == st.alive
    ensures after.moving <==> t.outcome.Raised?
    ensures t.outcome.Raised? ==> after.position == st.position && after.trace == st.trace
    ensures t.outcome.Ok? ==> after.position == t.target
    ensures t.outcome.Ok? ==> after.trace == st.trace + MoveTrace(st.position, t.target, DefaultSteps, easing, None)
  {
    if t.outcome.Ok? then
      st.(position := t.target, moving := false,
          trace := st.trace + MoveTrace(st.position, t.target, DefaultSteps, easing, None))
    else
      st.(moving := true)
  }

  /**
   * How a background move of the pose, started from percent `from`, leaves
   * its servo's controller: a move that ends normally appends what writing its
   * positions sends; a move that raises sends nothing. The configurations
   * never change.
   */
  function Logged(b: BoardState, busPresent: bool, address: int, servoNum: int, from: real,
                  t: MoveTask, easing: EasingKind): (after: BoardState)
    ensures after.configs == b.configs
    ensures t.outcome.Raised? ==> after == b
    ensures t.outcome.Ok? ==>
      after.writes == b.writes + Sent(busPresent, address, b.configs, servoNum, MovePercents(from, t.target, DefaultSteps, easing))
  {
    if t.outcome.Ok? then
      b.(writes := b.writes + Sent(busPresent, address, b.configs, servoNum, MovePercents(from, t.target, DefaultSteps, easing)))
    else
      b
  }

  /** The current state of handle h. */
  ghost function StateOf(h: ServoHandle): HandleState
    reads h
  {
    HandleState(h.currentPosition, h.isMoving, h.trace, h.commandQueue, h.drainerAlive)
  }

  /** The current state of controller c. */
  ghost function BoardOf(c: ServoController): BoardState
    reads c
  {
    BoardState(c.servos, c.writes)
  }

  /** A group of named servo handles and the moves of its latest pose. */
  class ServoGroup {
    const servos: map<string, ServoHandle>
    var activeTasks: seq<MoveTask>

    constructor (servos: map<string, ServoHandle>)
      ensures this.servos == servos && activeTasks == []
    {
      this.servos := servos;
      activeTasks := [];
    }

    ghost function Handles(): set<ServoHandle> {
      servos.Values
    }

    ghost function Controllers(): set<ServoController> {
      set h | h in servos.Values :: h.controller
    }

    /** No two names of the group share a handle. */
    ghost predicate Separate() {
      forall a, b :: a in servos && b in servos && a != b ==> servos[a] != servos[b]
    }

    /** A view of exactly this group's handles and controllers. */
    ghost predicate Covers(v: GroupView) {
      v.handles.Keys == Handles() && v.boards.Keys == Controllers()
    }

    /** The current state of the group's handles and controllers. */
    ghost function View(): (v: GroupView)
      reads Handles(), Controllers()
      ensures Covers(v)
    {
      GroupView(
        map h | h in Handles() :: StateOf(h),
        map c | c in Controllers() :: BoardOf(c))
    }

    /** Every task names a servo of the group. */
    ghost predicate Known(tasks: seq<MoveTask>) {
      forall j :: 0 <= j < |tasks| ==> tasks[j].name in servos
    }

    /**
     * Each task names a servo of the group and ended as writing to that servo
     * raises under the configurations of view v.
     */
    ghost predicate Reported(tasks: seq<MoveTask>, v: GroupView)
      requires Covers(v)
    {
      forall j :: 0 <= j < |tasks| ==>
        && tasks[j].name in servos
        && var h := servos[tasks[j].name];
           tasks[j].outcome == Raises(RefusalOf(h.controller.busPresent, v.boards[h.controller].configs, h.servoNum))
    }

    /**
     * What one background move of a pose does to the group: the move changes
     * its servo as Moved says and its controller's log as Logged says, and
     * nothing else.
     */
    ghost function Step(v: GroupView, t: MoveTask, easing: EasingKind): (w: GroupView)
      requires Covers(v) && t.name in servos
      ensures Covers(w)
    {
      var h := servos[t.name];
      var c := h.controller;
      var st := v.handles[h];
      GroupView(v.handles[h := Moved(st, t, easing)],
                v.boards[c := Logged(v.boards[c], c.busPresent, c.boardAddress, h.servoNum, st.position, t, easing)])
    }

    /** A step changes its own servo as Moved says and no other servo. */
    lemma StepAt(u: GroupView, t: MoveTask, easing: EasingKind, h: ServoHandle)
      requires Covers(u) && t.name in servos && h in u.handles
      ensures Step(u, t, easing).handles[h] == if h == servos[t.name] then Moved(u.handles[h], t, easing) else u.handles[h]
    {
    }

    /** The moves of the tasks, one after the other, in task order. */
    ghost function Effect(v: GroupView, tasks: seq<MoveTask>, easing: EasingKind): (w: GroupView)
      requires Covers(v) && Known(tasks)
      ensures Covers(w)
      decreases |tasks|
    {
      if tasks == [] then v
      else Step(Effect(v, tasks[..|tasks| - 1], easing), tasks[|tasks| - 1], easing)
    }

    /** A pose changes no queue, no sequence thread and no servo configuration. */
    lemma {:induction false} EffectKeeps(v: GroupView, tasks: seq<MoveTask>, easing: EasingKind)
      requires Covers(v) && Known(tasks)
      ensures forall h :: h in v.handles ==>
        && Effect(v, tasks, easing).handles[h].queue == v.handles[h].queue
        && Effect(v, tasks, easing).handles[h].alive == v.handles[h].alive
      ensures forall c :: c in v.boards ==> Effect(v, tasks, easing).boards[c].configs == v.boards[c].configs
    {
      forall h | h in v.handles
        ensures Effect(v, tasks, easing).handles[h].queue == v.handles[h].queue
        ensures Effect(v, tasks, easing).handles[h].alive == v.handles[h].alive
      {
        EffectKeepsHandle(v, tasks, easing, h);
      }
      forall c | c in v.boards ensures Effect(v, tasks, easing).boards[c].configs == v.boards[c].configs {
        EffectKeepsBoard(v, tasks, easing, c);
      }
    }

    lemma {:induction false} EffectKeepsHandle(v: GroupView, tasks: seq<MoveTask>, easing: EasingKind, h: ServoHandle)
      requires Covers(v) && Known(tasks) && h in v.handles
      ensures Effect(v, tasks, easing).handles[h].queue == v.handles[h].queue
      ensures Effect(v, tasks, easing).handles[h].alive == v.handles[h].alive
      decreases |tasks|
    {
      if tasks != [] {
        EffectKeepsHandle(v, tasks[..|tasks| - 1], easing, h);
      }
    }

    lemma {:induction false} EffectKeepsBoard(v: GroupView, tasks: seq<MoveTask>, easing: EasingKind, c: ServoController)
      requires Covers(v) && Known(tasks) && c in v.boards
      ensures Effect(v, tasks, easing).boards[c].configs == v.boards[c].configs
      decreases |tasks|
    {
      if tasks != [] {
        EffectKeepsBoard(v, tasks[..|tasks| - 1], easing, c);
      }
    }

    /**
     * Appending a move that ended as writing to its servo raises under the
     * configurations the earlier moves left keeps the tasks reported against
     * the starting view, and applies that move after the earlier ones.
     */
    lemma Extend(v: GroupView, tasks: seq<MoveTask>, t: MoveTask, easing: EasingKind)
      requires Covers(v) && Reported(tasks, v) && t.name in servos
      requires var h := servos[t.name];
        t.outcome == Raises(RefusalOf(h.controller.busPresent, Effect(v, tasks, easing).boards[h.controller].configs, h.servoNum))
      ensures Reported(tasks + [t], v)
      ensures Entries(tasks + [t]) == Entries(tasks) + [(t.name, t.target)]
      ensures Effect(v, tasks + [t], easing) == Step(Effect(v, tasks, easing), t, easing)
    {
      EffectKeepsBoard(v, tasks, easing, servos[t.name].controller);
      EntriesSnoc(tasks, t);
      EffectSnoc(v, tasks, t, easing);
    }

    lemma EffectSnoc(v: GroupView, tasks: seq<MoveTask>, t: MoveTask, easing: EasingKind)
      requires Covers(v) && Known(tasks) && t.name in servos
      ensures Known(tasks + [t])
      ensures Effect(v, tasks + [t], easing) == Step(Effect(v, tasks, easing), t, easing)
    {
      assert (tasks + [t])[..|tasks|] == tasks;
    }

    /** A servo that no task names is left exactly as it was. */
    lemma {:induction false} EffectUntouched(v: GroupView, tasks: seq<MoveTask>, easing: EasingKind, h: ServoHandle)
      requires Covers(v) && Known(tasks) && h in v.handles
      requires forall j :: 0 <= j < |tasks| ==> servos[tasks[j].name] != h
      ensures Effect(v, tasks, easing).handles[h] == v.handles[h]
      decreases |tasks|
    {
      if tasks != [] {
        EffectUntouched(v, tasks[..|tasks| - 1], easing, h);
      }
    }

    /**
     * A servo that exactly one task names ends as that one move leaves it,
     * started from where the servo stood before the pose.
     */
    lemma {:induction false} EffectSingle(v: GroupView, tasks: seq<MoveTask>, easing: EasingKind, j: int)
      requires Covers(v) && Known(tasks) && 0 <= j < |tasks|
      requires forall k :: 0 <= k < |tasks| && k != j ==> servos[tasks[k].name] != servos[tasks[j].name]
      ensures var h, t := servos[tasks[j].name], tasks[j];
        Effect(v, tasks, easing).handles[h] == Step(v, t, easing).handles[h]
      decreases |tasks|
    {
      var h, init := servos[tasks[j].name], tasks[..|tasks| - 1];
      StepAt(Effect(v, init, easing), tasks[|tasks| - 1], easing, h);
      StepAt(v, tasks[j], easing, h);
      if j < |tasks| - 1 {
        EffectSingle(v, init, easing, j);
      } else {
        EffectUntouched(v, init, easing, h);
      }
    }

    /**
     * A view that differs from v only in the servo of t, changed as Moved
     * says, and in that servo's controller, changed as Logged says, is the
     * view Step gives.
     */
    lemma StepView(v: GroupView, now: GroupView, t: MoveTask, easing: EasingKind)
      requires Covers(v) && Covers(now) && t.name in servos
      requires forall h :: h in now.handles && h != servos[t.name] ==> now.handles[h] == v.handles[h]
      requires forall c :: c in now.boards && c != servos[t.name].controller ==> now.boards[c] == v.boards[c]
      requires now.handles[servos[t.name]] == Moved(v.handles[servos[t.name]], t, easing)
      requires now.boards[servos[t.name].controller]
               == Logged(v.boards[servos[t.name].controller], servos[t.name].controller.busPresent,
                         servos[t.name].controller.boardAddress, servos[t.name].servoNum,
                         v.handles[servos[t.name]].position, t, easing)
      ensures now == Step(v, t, easing)
    {
      var w := Step(v, t, easing);
      assert now.handles == w.handles;
      assert now.boards == w.boards;
    }

    /**
     * When no two names of the group share a handle and the pose names each
     * servo once, every tracked servo ends the pose as its own move alone
     * leaves it: on its target when the move ended normally, marked as moving
     * where it stood when the move raised.
     */
    lemma PoseEnds(v: GroupView, tasks: seq<MoveTask>, pose: Pose, easing: EasingKind, j: int)
      requires Covers(v) && Separate() && DistinctNames(pose) && Known(tasks)
      requires Entries(tasks) == Tracked(pose, servos.Keys) && 0 <= j < |tasks|
      ensures var h := servos[tasks[j].name];
        Effect(v, tasks, easing).handles[h] == Moved(v.handles[h], tasks[j], easing)
    {
      TrackedDistinct(pose, servos.Keys);
      var es := Entries(tasks);
      forall k | 0 <= k < |tasks| && k != j ensures servos[tasks[k].name] != servos[tasks[j].name] {
        assert es[k].0 == tasks[k].name && es[j].0 == tasks[j].name;
      }
      EffectSingle(v, tasks, easing, j);
      StepAt(v, tasks[j], easing, servos[tasks[j].name]);
    }

    /** Starts the background move of one pose item. */
    method StartMove(name: string, target: real, duration: real, easing: EasingKind) returns (task: MoveTask)
      requires name in servos
      modifies servos[name], servos[name].controller
      ensures task.name == name && task.target == target
      ensures var h := servos[name];
        task.outcome == Raises(RefusalOf(h.controller.busPresent, old(View()).boards[h.controller].configs, h.servoNum))
      ensures View() == Step(old(View()), task, easing)
    {
      ghost var v := View();
      var servo := servos[name];
      var r := servo.MoveToAsync(target, duration, easing := easing);
      task := MoveTask(name, target, r);
      ghost var now := View();
      forall h | h in now.handles && h != servo ensures now.handles[h] == v.handles[h] {
        assert StateOf(h) == old(StateOf(h));
      }
      forall c | c in now.boards && c != servo.controller ensures now.boards[c] == v.boards[c] {
        assert BoardOf(c) == old(BoardOf(c));
      }
      StepView(v, now, task, easing);
    }

    /**
     * Starts the background move of one pose item after the moves of tasks,
     * which started from view v.
     */
    method Launch(name: string, target: real, duration: real, easing: EasingKind,
                  ghost v: GroupView, ghost tasks: seq<MoveTask>)
      returns (task: MoveTask)
      requires name in servos && Covers(v) && Reported(tasks, v)
      requires View() == Effect(v, tasks, easing)
      modifies servos[name], servos[name].controller
      ensures Entries(tasks + [task]) == Entries(tasks) + [(name, target)]
      ensures Reported(tasks + [task], v)
      ensures View() == Effect(v, tasks + [task], easing)
    {
      task := StartMove(name, target, duration, easing);
      Extend(v, tasks, task, easing);
    }

    /**
     * Starts one background move with the default step count per pose item
     * whose name is in the group, in pose order; unknown names are skipped.
     * Each move ends as writing to its servo raises, and the group ends as
     * the moves, applied one after the other in pose order, leave it.
     */
    method StartAll(pose: Pose, duration: real, easing: EasingKind) returns (tasks: seq<MoveTask>)
      modifies Handles(), Controllers()
      ensures Entries(tasks) == Tracked(pose, servos.Keys)
      ensures Reported(tasks, old(View()))
      ensures View() == Effect(old(View()), tasks, easing)
    {
      ghost var v := View();
      tasks := [];
      var i := 0;
      while i < |pose|
        invariant 0 <= i <= |pose|
        invariant Entries(tasks) == Tracked(pose[..i], servos.Keys)
        invariant Reported(tasks, v)
        invariant View() == Effect(v, tasks, easing)
      {
        var (name, target) := pose[i];
        assert pose[..i + 1][..i] == pose[..i];
        if name in servos {
          var task := Launch(name, target, duration, easing, v, tasks);
          tasks := tasks + [task];
        }
        i := i + 1;
      }
      assert pose[..i] == pose;
    }

    /** Forgets the previous moves and tracks the moves StartAll starts for the pose. */
    method MoveToPose(pose: Pose, duration: real, easing: EasingKind := InOutQuad) returns (g: ServoGroup)
      modifies this`activeTasks, Handles(), Controllers()
      ensures g == this
      ensures Entries(activeTasks) == Tracked(pose, servos.Keys)
      ensures Reported(activeTasks, old(View()))
      ensures View() == Effect(old(View()), activeTasks, easing)
    {
      var tasks := StartAll(pose, duration, easing);
      activeTasks := tasks;
      g := this;
    }

    /** Joins every tracked move; each has already run to its end, so this returns at once. */
    method WaitForMove() returns (g: ServoGroup)
      ensures g == this
    {
      g := this;
    }
  }
}
