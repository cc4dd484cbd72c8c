/** Monitoring one mission until it ends or is cancelled (src/isar/robot/robot_monitor_mission.py). */
module MonitorMission {
  import opened Missions
  import opened RobotCalls

  /** REQUEST_STATUS_FAILURE_COUNTER_LIMIT, should_report_task_status and UPLOAD_INSPECTIONS_ASYNC. */
  datatype Settings = Settings(limit: nat, report: bool, uploadAsync: bool)

  /** The tasks of a return home are not reported. */
  function SettingsFor(cfg: Settings, mission: Mission): Settings {
    cfg.(report := !mission.IsReturnToHome())
  }

  /** The answers of the robot to the calls for the mission status and for a task status, in order of the calls. */
  datatype Robot = Robot(mission: nat -> StatusReply<MissionStatus>, task: nat -> StatusReply<TaskStatus>)

  datatype TaskReport = TaskReport(task: nat, status: TaskStatus)

  /**
   The monitor at the top of its loop.  `done` tasks have been gone through; `active` says that the next one is the
   current task, otherwise there is none.  The monitor is cancelled at the suspension for which no patience is left.
   */
  datatype Mon = Mon(
    tasks: seq<Task>,
    done: nat,
    active: bool,
    status: MissionStatus,
    failed: bool,                   // an error message has been set
    readFailed: bool,               // a task status could not be read
    missionCalls: nat,
    taskCalls: nat,
    patience: nat,
    uploads: seq<nat>,              // tasks whose inspections were requested to be uploaded
    published: seq<TaskReport>,
    polled: seq<TaskReport>,
    closing: Option<TaskStatus>)    // the status that the monitor itself gave to the current task at the end

  datatype End = Returned(error: bool) | CancelledByStop

  datatype Turn = Again(mon: Mon) | Over(mon: Mon, end: End)

  function TurnFrom(m: Mon, end: Option<End>): Turn { if end.Some? then Over(m, end.value) else Again(m) }

  predicate IsRunning(s: MissionStatus) { s.NotStarted? || s.InProgress? || s.Paused? }

  predicate ShouldUpload(cfg: Settings, t: Task) { !cfg.uploadAsync && t.status.Successful? && t.IsInspection() }

  function SetStatus(tasks: seq<Task>, i: nat, s: TaskStatus): seq<Task>
    requires i < |tasks|
  {
    tasks[i := tasks[i].(status := s)]
  }

  predicate MonOk(m: Mon) { m.done <= |m.tasks| && (m.active ==> m.done < |m.tasks|) }

  /** The monitor gives the current task a status of its own and publishes it. */
  function Close(m: Mon, s: TaskStatus): Mon
    requires MonOk(m) && m.active
  {
    m.(tasks := SetStatus(m.tasks, m.done, s), published := m.published + [TaskReport(m.done, s)], active := false,
       closing := Some(s))
  }

  function Rest(m: Mon): nat { if m.active then 1 else 0 }

  /** The loop ends: a turn that is not the last one takes a suspension, or gives up the current task. */
  predicate Descends(m: Mon, turn: Turn) {
    && MonOk(turn.mon)
    && turn.mon.patience <= m.patience
    && (turn.Again? ==> turn.mon.patience < m.patience || Rest(turn.mon) < Rest(m))
  }

  /** The except clause. */
  function CancelledAt(cfg: Settings, m: Mon): (turn: Turn)
    requires MonOk(m)
    ensures Descends(m, turn)
  {
    Over(if cfg.report && m.active then Close(m, TaskStatus.Cancelled) else m, CancelledByStop)
  }

  function Sleep(cfg: Settings, m: Mon): (turn: Turn)
    requires MonOk(m)
    ensures Descends(m, turn)
  {
    if m.patience == 0 then CancelledAt(cfg, m) else Again(m.(patience := m.patience - 1))
  }

  /** A status of the current task has been read: a change is published. */
  function Reported(m: Mon, s: TaskStatus): (m': Mon)
    requires MonOk(m) && m.active
    ensures MonOk(m') && m'.active && m'.patience == m.patience && m'.done == m.done
  {
    m.(polled := m.polled + [TaskReport(m.done, s)],
       tasks := SetStatus(m.tasks, m.done, s),
       published := if m.tasks[m.done].status == s then m.published else m.published + [TaskReport(m.done, s)])
  }

  /** The current task has finished: its inspection is uploaded, and the next task becomes the current one. */
  function Advanced(cfg: Settings, m: Mon): (m': Mon)
    requires MonOk(m) && m.active
    ensures MonOk(m') && m'.patience == m.patience
  {
    m.(done := m.done + 1, active := m.done + 1 < |m.tasks|,
       uploads := if ShouldUpload(cfg, m.tasks[m.done]) then m.uploads + [m.done] else m.uploads)
  }

  function TaskPolled(cfg: Settings, m: Mon, s: TaskStatus): (m': Mon)
    requires MonOk(m) && m.active
    ensures MonOk(m') && m'.patience == m.patience
  {
    if IsFinished(s) then Advanced(cfg, Reported(m, s)) else Reported(m, s)
  }

  /** Ask for the status of the current task; the second component says that the monitor was cancelled meanwhile. */
  function PollTask(cfg: Settings, robot: Robot, m: Mon): (r: (Mon, bool))
    requires MonOk(m) && m.active && cfg.limit > 0
    ensures MonOk(r.0) && r.0.patience <= m.patience
  {
    var r := ReadStatus(robot.task, m.taskCalls, 0, cfg.limit, m.patience);
    var m1 := m.(taskCalls := m.taskCalls + r.calls, patience := r.patience);
    match r.result
    case Got(s) => (TaskPolled(cfg, m1, s), false)
    case Raised(_) => (m1.(active := false, readFailed := true), false)
    case Interrupted => (m1, true)
  }

  function SleepUnless(cfg: Settings, m: Mon, cancelled: bool): (turn: Turn)
    requires MonOk(m)
    ensures Descends(m, turn)
  {
    if cancelled then CancelledAt(cfg, m) else Sleep(cfg, m)
  }

  /** The mission status is known: leave, close the current task, or report it. */
  function AfterMissionStatus(cfg: Settings, robot: Robot, m: Mon): (turn: Turn)
    requires MonOk(m) && cfg.limit > 0
    ensures Descends(m, turn)
  {
    var wait := cfg.report && m.active && (m.status.Successful? || m.status.Failed?);
    if !wait && !IsRunning(m.status) then Over(m, Returned(m.failed || m.status.Failed? || m.status.Cancelled?))
    else if cfg.report && m.active then
      if m.status.Failed? then Again(Close(m, TaskStatus.Failed))
      else var (m1, cancelled) := PollTask(cfg, robot, m); SleepUnless(cfg, m1, cancelled)
    else Sleep(cfg, m)
  }

  /** The first statement of the loop body. */
  function PollMission(cfg: Settings, robot: Robot, m: Mon): (r: (Mon, bool))
    requires MonOk(m) && cfg.limit > 0
    ensures MonOk(r.0) && r.0.patience <= m.patience && r.0.active == m.active
  {
    if !IsRunning(m.status) then (m, false)
    else
      var r := ReadStatus(robot.mission, m.missionCalls, 0, cfg.limit, m.patience);
      var m1 := m.(missionCalls := m.missionCalls + r.calls, patience := r.patience);
      match r.result
      case Got(s) => (m1.(status := s), false)
      case Raised(_) => (m1.(status := MissionStatus.Failed, failed := true), false)
      case Interrupted => (m1, true)
  }

  /** One turn of the loop. */
  function Iterate(cfg: Settings, robot: Robot, m: Mon): (turn: Turn)
    requires MonOk(m) && cfg.limit > 0
    ensures Descends(m, turn)
  {
    var (m1, cancelled) := PollMission(cfg, robot, m);
    if cancelled then CancelledAt(cfg, m1) else AfterMissionStatus(cfg, robot, m1)
  }

  function MonRun(cfg: Settings, robot: Robot, m: Mon): (turn: Turn)
    requires MonOk(m) && cfg.limit > 0
    ensures turn.Over?
    decreases m.patience, Rest(m)
  {
    var turn := Iterate(cfg, robot, m);
    if turn.Over? then turn else MonRun(cfg, robot, turn.mon)
  }

  /** The first task is set back to not started; the mission is taken to be in progress. */
  function StartMonitor(tasks: seq<Task>, patience: nat): (m: Mon)
    requires tasks != []
    ensures MonOk(m)
  {
    Mon(SetStatus(tasks, 0, TaskStatus.NotStarted), 0, true, MissionStatus.InProgress, false, false, 0, 0, patience,
        [], [], [], None)
  }

  function Monitored(cfg: Settings, robot: Robot, tasks: seq<Task>, patience: nat): (turn: Turn)
    requires tasks != [] && cfg.limit > 0
    ensures turn.Over?
  {
    MonRun(cfg, robot, StartMonitor(tasks, patience))
  }

  /** The running coroutine: what `robot_monitor_mission` keeps in its local variables, and the tasks it changes. */
  class Monitor {
    const cfg: Settings
    const robot: Robot
    const tasks: array<Task>
    var current: Option<nat>
    var next: nat                   // the position of the task iterator
    var status: MissionStatus
    var failed: bool
    var missionCalls: nat
    var taskCalls: nat
    var patience: nat
    var uploads: seq<nat>
    var published: seq<TaskReport>
    ghost var done: nat
    ghost var readFailed: bool
    ghost var polled: seq<TaskReport>
    ghost var closing: Option<TaskStatus>

    ghost predicate Valid()
      reads this
    {
      && cfg.limit > 0
      && done <= tasks.Length
      && (current == None || (current == Some(done) && done < tasks.Length && next == done + 1))
    }

    ghost function State(): (m: Mon)
      requires Valid()
      reads this, tasks
      ensures MonOk(m)
    {
      Mon(tasks[..], done, current.Some?, status, failed, readFailed, missionCalls, taskCalls, patience, uploads,
          published, polled, closing)
    }

    constructor (cfg: Settings, robot: Robot, tasks: array<Task>, patience: nat)
      requires tasks.Length > 0 && cfg.limit > 0
      modifies tasks
      ensures Valid() && this.tasks == tasks && this.cfg == cfg && this.robot == robot
      ensures State() == StartMonitor(old(tasks[..]), patience)
    {
      this.cfg, this.robot, this.tasks, this.patience := cfg, robot, tasks, patience;
      current, next, status := Some(0), 1, MissionStatus.InProgress;
      failed, readFailed, missionCalls, taskCalls := false, false, 0, 0;
      uploads, published, polled, closing, done := [], [], [], None, 0;
      new;
      tasks[0] := tasks[0].(status := TaskStatus.NotStarted);
    }

    method GetMissionStatus() returns (cancelled: bool)
      requires Valid()
      modifies this
      ensures Valid() && (State(), cancelled) == PollMission(cfg, robot, old(State()))
    {
      if !IsRunning(status) {
        return false;
      }
      var read := GetStatus(robot.mission, missionCalls, cfg.limit, patience);
      missionCalls, patience := missionCalls + read.calls, read.patience;
      match read.result {
        case Got(s) => status := s;
        case Raised(_) => failed, status := true, MissionStatus.Failed;
        case Interrupted =>
      }
      cancelled := read.result.Interrupted?;
    }

    method CloseCurrentTask(s: TaskStatus)
      requires Valid() && current.Some?
      modifies this, tasks
      ensures Valid() && State() == Close(old(State()), s)
    {
      tasks[current.value] := tasks[current.value].(status := s);
      published := published + [TaskReport(current.value, s)];
      current, closing := None, Some(s);
    }

    /** `get_and_report_task_status`, once the robot has given a status. */
    method Report(s: TaskStatus)
      requires Valid() && current.Some?
      modifies this, tasks
      ensures Valid() && State() == Reported(old(State()), s)
    {
      polled := polled + [TaskReport(current.value, s)];
      if tasks[current.value].status != s {
        tasks[current.value] := tasks[current.value].(status := s);
        published := published + [TaskReport(current.value, s)];
      }
      assert tasks[..] == SetStatus(old(tasks[..]), done, s);
    }

    method Advance()
      requires Valid() && current.Some?
      modifies this
      ensures Valid() && State() == Advanced(cfg, old(State()))
    {
      if ShouldUpload(cfg, tasks[current.value]) {
        uploads := uploads + [current.value];
      }
      current, next, done := if next < tasks.Length then Some(next) else None, next + 1, done + 1;
    }

    method GetTaskStatus() returns (cancelled: bool)
      requires Valid() && current.Some?
      modifies this, tasks
      ensures Valid() && (State(), cancelled) == PollTask(cfg, robot, old(State()))
    {
      var read := GetStatus(robot.task, taskCalls, cfg.limit, patience);
      taskCalls, patience := taskCalls + read.calls, read.patience;
      match read.result {
        case Got(s) =>
          Report(s);
          if IsFinished(s) {
            Advance();
          }
        case Raised(_) =>
          current, readFailed := None, true;
        case Interrupted =>
      }
      cancelled := read.result.Interrupted?;
    }

    /** The except clause. */
    method Cancel()
      requires Valid()
      modifies this, tasks
      ensures Valid() && Over(State(), CancelledByStop) == CancelledAt(cfg, old(State()))
    {
      if cfg.report && current.Some? {
        CloseCurrentTask(TaskStatus.Cancelled);
      }
    }

    /** Sleep, unless the monitor has been cancelled before. */
    method EndTurn(cancelled: bool) returns (end: Option<End>)
      requires Valid()
      modifies this, tasks
      ensures Valid() && SleepUnless(cfg, old(State()), cancelled) == TurnFrom(State(), end)
    {
      if cancelled || patience == 0 {
        Cancel();
        return Some(CancelledByStop);
      }
      patience := patience - 1;
      end := None;
    }

    method FollowMission() returns (end: Option<End>)
      requires Valid()
      modifies this, tasks
      ensures Valid() && AfterMissionStatus(cfg, robot, old(State())) == TurnFrom(State(), end)
    {
      var wait := cfg.report && current.Some? && (status.Successful? || status.Failed?);
      if !wait && !IsRunning(status) {
        return Some(Returned(failed || status.Failed? || status.Cancelled?));
      }
      var cancelled := false;
      if cfg.report && current.Some? {
        if status.Failed? {
          CloseCurrentTask(TaskStatus.Failed);
          return None;
        }
        cancelled := GetTaskStatus();
      }
      end := EndTurn(cancelled);
    }

    method Run() returns (end: End)
      requires Valid()
      modifies this, tasks
      ensures Valid() && MonRun(cfg, robot, old(State())) == Over(State(), end)
    {
      while true
        invariant Valid() && MonRun(cfg, robot, State()) == MonRun(cfg, robot, old(State()))
        decreases patience, Rest(State())
      {
        var cancelled := GetMissionStatus();
        if cancelled {
          Cancel();
          return CancelledByStop;
        }
        var over := FollowMission();
        if over.Some? {
          return over.value;
        }
      }
    }
  }

  /** `robot_monitor_mission`. */
  method RobotMonitorMission(cfg: Settings, robot: Robot, tasks: array<Task>, patience: nat)
    returns (end: End, uploads: seq<nat>, published: seq<TaskReport>)
    requires tasks.Length > 0 && cfg.limit > 0
    modifies tasks
    ensures var over := Monitored(cfg, robot, old(tasks[..]), patience);
            && tasks[..] == over.mon.tasks
            && uploads == over.mon.uploads
            && published == over.mon.published
            && over.end == end
  {
    var monitor := new Monitor(cfg, robot, tasks, patience);
    end := monitor.Run();
    uploads, published := monitor.uploads, monitor.published;
  }
}
