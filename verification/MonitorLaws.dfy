/** What monitoring a mission comes to, whatever the robot answers and whenever the monitor is cancelled. */
module MonitorLaws {
  import opened Missions
  import opened RobotCalls
  import opened MonitorMission

  /** The statuses reported for task `i`, in order. */
  function Of(i: nat, reports: seq<TaskReport>): seq<TaskStatus> {
    if reports == [] then []
    else
      var r := reports[|reports| - 1];
      Of(i, reports[..|reports| - 1]) + (if r.task == i then [r.status] else [])
  }

  function Latest(initial: TaskStatus, s: seq<TaskStatus>): TaskStatus {
    if s == [] then initial else s[|s| - 1]
  }

  /** The entries of `s` that differ from the one before; the first is compared with the initial status. */
  function Changes(initial: TaskStatus, s: seq<TaskStatus>): seq<TaskStatus> {
    if s == [] then []
    else
      var before := s[..|s| - 1];
      Changes(initial, before) + (if Latest(initial, before) == s[|s| - 1] then [] else [s[|s| - 1]])
  }

  /** The tasks among the first `n` whose inspections are to be uploaded, in order. */
  function Uploads(cfg: Settings, tasks: seq<Task>, n: nat): seq<nat>
    requires n <= |tasks|
  {
    if n == 0 then [] else Uploads(cfg, tasks, n - 1) + (if ShouldUpload(cfg, tasks[n - 1]) then [n - 1] else [])
  }

  lemma {:induction false} OfAppend(i: nat, reports: seq<TaskReport>, r: TaskReport)
    ensures Of(i, reports + [r]) == Of(i, reports) + (if r.task == i then [r.status] else [])
  {
    assert (reports + [r])[..|reports|] == reports;
  }

  lemma {:induction false} ChangesAppend(initial: TaskStatus, s: seq<TaskStatus>, x: TaskStatus)
    ensures Changes(initial, s + [x]) == Changes(initial, s) + (if Latest(initial, s) == x then [] else [x])
  {
    assert (s + [x])[..|s|] == s;
  }

  lemma {:induction false} UploadsSame(cfg: Settings, a: seq<Task>, b: seq<Task>, n: nat)
    requires n <= |a| && n <= |b| && a[..n] == b[..n]
    ensures Uploads(cfg, a, n) == Uploads(cfg, b, n)
  {
    if n == 0 {
    } else {
      assert a[n - 1] == a[..n][n - 1] == b[..n][n - 1];
      assert a[..n - 1] == a[..n][..n - 1] == b[..n - 1];
      UploadsSame(cfg, a, b, n - 1);
    }
  }

  // ---------------------------------------------------------------- the loop invariant

  predicate ClosedByMonitor(m: Mon, i: nat) { m.closing.Some? && i == m.done }

  function ClosingOf(m: Mon, i: nat): seq<TaskStatus> {
    if ClosedByMonitor(m, i) then [m.closing.value] else []
  }

  /** Tasks before the current one have finished; tasks after it are untouched. */
  ghost predicate InOrder(start: seq<Task>, m: Mon, i: nat)
    requires i < |start| == |m.tasks|
  {
    && (i < m.done ==> IsFinished(m.tasks[i].status))
    && (i > m.done ==> m.tasks[i] == start[i] && Of(i, m.polled) == [])
    && m.tasks[i].id == start[i].id && m.tasks[i].kind == start[i].kind
  }

  /** The status of a task is the latest that was polled or the one that the monitor gave it at the end. */
  ghost predicate FollowsRobot(start: seq<Task>, m: Mon, i: nat)
    requires i < |start| == |m.tasks|
  {
    var latest := Latest(start[i].status, Of(i, m.polled));
    && m.tasks[i].status == (if ClosedByMonitor(m, i) then m.closing.value else latest)
    && (i == m.done ==> Of(i, m.polled) == [] || !IsFinished(latest))
  }

  ghost predicate PublishesChanges(start: seq<Task>, m: Mon, i: nat)
    requires i < |start| == |m.tasks|
  {
    Of(i, m.published) == Changes(start[i].status, Of(i, m.polled)) + ClosingOf(m, i)
  }

  ghost predicate TaskInv(start: seq<Task>, m: Mon, i: nat)
    requires i < |start| == |m.tasks|
  {
    InOrder(start, m, i) && FollowsRobot(start, m, i) && PublishesChanges(start, m, i)
  }

  ghost predicate MonInv(cfg: Settings, start: seq<Task>, m: Mon) {
    && MonOk(m) && |m.tasks| == |start|
    && (forall i: nat :: i < |start| ==> TaskInv(start, m, i))
    && m.uploads == Uploads(cfg, m.tasks, m.done)
    && Bookkeeping(cfg, m)
  }

  /** A task that is not followed to its end has been given up for one of two reasons. */
  ghost predicate Bookkeeping(cfg: Settings, m: Mon) {
    && (m.closing.Some? ==> cfg.report && !m.active && m.done < |m.tasks| && !m.readFailed)
    && (m.closing.Some? ==> (m.closing.value.Failed? && m.status.Failed?) || m.closing.value.Cancelled?)
    && (!m.active ==> m.done == |m.tasks| || m.readFailed || m.closing.Some?)
    && (m.readFailed ==> !m.active && m.done < |m.tasks|)
    && (m.failed ==> m.status.Failed?)
  }

  /**
   What holds after a turn: a returned monitor reports success exactly for a successful mission, and a monitor that was
   cancelled, or that returned from a failed mission, has no current task left.
   */
  ghost predicate TurnInv(cfg: Settings, start: seq<Task>, turn: Turn) {
    && MonInv(cfg, start, turn.mon)
    && (turn.Again? || turn.end.Returned? ==> turn.mon.closing != Some(TaskStatus.Cancelled))
    && (turn.Over? && turn.end.Returned? ==>
          && !IsRunning(turn.mon.status)
          && (turn.end.error <==> !Succeeded(turn.mon.status))
          && (cfg.report && (turn.mon.status.Successful? || turn.mon.status.Failed?) ==> !turn.mon.active))
    && (turn.Over? && turn.end.CancelledByStop? ==>
          && turn.mon.closing != Some(TaskStatus.Failed)
          && (cfg.report ==> !turn.mon.active))
  }

  predicate Succeeded(s: MissionStatus) { s.Successful? || s.PartiallySuccessful? }

  lemma StartInv(cfg: Settings, tasks: seq<Task>, patience: nat)
    requires tasks != []
    ensures MonInv(cfg, SetStatus(tasks, 0, TaskStatus.NotStarted), StartMonitor(tasks, patience))
  {}

  /** Nothing about the tasks depends on the other fields. */
  lemma FrameInv(cfg: Settings, start: seq<Task>, m: Mon, m': Mon)
    requires MonInv(cfg, start, m) && MonOk(m') && Bookkeeping(cfg, m')
    requires m'.tasks == m.tasks && m'.done == m.done && m'.closing == m.closing
    requires m'.polled == m.polled && m'.published == m.published && m'.uploads == m.uploads
    ensures MonInv(cfg, start, m')
  {
    forall i: nat | i < |start| ensures TaskInv(start, m', i) {
      assert TaskInv(start, m, i);
    }
  }

  lemma CloseInv(cfg: Settings, start: seq<Task>, m: Mon, s: TaskStatus)
    requires MonInv(cfg, start, m) && m.active && cfg.report && ((s.Failed? && m.status.Failed?) || s.Cancelled?)
    ensures MonInv(cfg, start, Close(m, s))
  {
    var m' := Close(m, s);
    forall i: nat | i < |start| ensures TaskInv(start, m', i) {
      assert TaskInv(start, m, i);
      OfAppend(i, m.published, TaskReport(m.done, s));
    }
    UploadsSame(cfg, m.tasks, m'.tasks, m.done);
  }

  lemma ReportLeavesOthers(start: seq<Task>, m: Mon, s: TaskStatus, i: nat)
    requires MonOk(m) && m.active && m.closing.None? && i < |start| == |m.tasks|
    requires TaskInv(start, m, i) && i != m.done
    ensures TaskInv(start, Reported(m, s), i)
  {
    OfAppend(i, m.published, TaskReport(m.done, s));
    OfAppend(i, m.polled, TaskReport(m.done, s));
    var m' := Reported(m, s);
    assert Of(i, m'.polled) == Of(i, m.polled);
    assert Of(i, m'.published) == Of(i, m.published);
  }

  /** The new status of the current task has been noted, but not yet acted on. */
  lemma ReportFollows(start: seq<Task>, m: Mon, s: TaskStatus)
    requires MonOk(m) && m.active && m.closing.None? && |start| == |m.tasks|
    requires TaskInv(start, m, m.done)
    ensures InOrder(start, Reported(m, s), m.done) && PublishesChanges(start, Reported(m, s), m.done)
    ensures Latest(start[m.done].status, Of(m.done, Reported(m, s).polled)) == s
  {
    var i, r := m.done, TaskReport(m.done, s);
    var before := Of(i, m.polled);
    OfAppend(i, m.polled, r);
    OfAppend(i, m.published, r);
    ChangesAppend(start[i].status, before, s);
    assert Of(i, m.published) == Changes(start[i].status, before);
    assert m.tasks[i].status == Latest(start[i].status, before);
  }

  lemma TaskPolledInv(cfg: Settings, start: seq<Task>, m: Mon, s: TaskStatus)
    requires MonInv(cfg, start, m) && m.active
    ensures MonInv(cfg, start, TaskPolled(cfg, m, s))
  {
    var m1, m' := Reported(m, s), TaskPolled(cfg, m, s);
    forall i: nat | i < |start| ensures TaskInv(start, m', i) {
      assert TaskInv(start, m, i);
      if i == m.done {
        ReportFollows(start, m, s);
      } else {
        ReportLeavesOthers(start, m, s, i);
      }
    }
    UploadsSame(cfg, m.tasks, m1.tasks, m.done);
  }

  lemma CancelledInv(cfg: Settings, start: seq<Task>, m: Mon)
    requires MonInv(cfg, start, m) && m.closing.None?
    ensures TurnInv(cfg, start, CancelledAt(cfg, m))
  {
    if cfg.report && m.active {
      CloseInv(cfg, start, m, TaskStatus.Cancelled);
    }
  }

  lemma SleepInv(cfg: Settings, start: seq<Task>, m: Mon, cancelled: bool)
    requires MonInv(cfg, start, m) && m.closing.None?
    ensures TurnInv(cfg, start, SleepUnless(cfg, m, cancelled))
  {
    CancelledInv(cfg, start, m);
    if !cancelled && m.patience > 0 {
      FrameInv(cfg, start, m, m.(patience := m.patience - 1));
    }
  }

  lemma PollTaskInv(cfg: Settings, robot: Robot, start: seq<Task>, m: Mon)
    requires MonInv(cfg, start, m) && m.active && cfg.limit > 0
    ensures MonInv(cfg, start, PollTask(cfg, robot, m).0)
    ensures PollTask(cfg, robot, m).0.closing.None?
  {
    var r := ReadStatus(robot.task, m.taskCalls, 0, cfg.limit, m.patience);
    var m1 := m.(taskCalls := m.taskCalls + r.calls, patience := r.patience);
    FrameInv(cfg, start, m, m1);
    match r.result
    case Got(s) => TaskPolledInv(cfg, start, m1, s);
    case Raised(_) => FrameInv(cfg, start, m1, m1.(active := false, readFailed := true));
    case Interrupted =>
  }

  lemma AfterMissionStatusInv(cfg: Settings, robot: Robot, start: seq<Task>, m: Mon)
    requires MonInv(cfg, start, m) && m.closing != Some(TaskStatus.Cancelled) && cfg.limit > 0
    ensures TurnInv(cfg, start, AfterMissionStatus(cfg, robot, m))
  {
    if cfg.report && m.active && m.status.Failed? {
      CloseInv(cfg, start, m, TaskStatus.Failed);
    } else if cfg.report && m.active {
      PollTaskInv(cfg, robot, start, m);
      var (m1, cancelled) := PollTask(cfg, robot, m);
      SleepInv(cfg, start, m1, cancelled);
    } else if IsRunning(m.status) {
      SleepInv(cfg, start, m, false);
    }
  }

  lemma PollMissionInv(cfg: Settings, robot: Robot, start: seq<Task>, m: Mon)
    requires MonInv(cfg, start, m) && m.closing != Some(TaskStatus.Cancelled) && cfg.limit > 0
    ensures MonInv(cfg, start, PollMission(cfg, robot, m).0)
    ensures PollMission(cfg, robot, m).0.closing != Some(TaskStatus.Cancelled)
  {
    FrameInv(cfg, start, m, PollMission(cfg, robot, m).0);
  }

  lemma IterateInv(cfg: Settings, robot: Robot, start: seq<Task>, m: Mon)
    requires MonInv(cfg, start, m) && m.closing != Some(TaskStatus.Cancelled) && cfg.limit > 0
    ensures TurnInv(cfg, start, Iterate(cfg, robot, m))
  {
    PollMissionInv(cfg, robot, start, m);
    var (m1, cancelled) := PollMission(cfg, robot, m);
    if cancelled {
      CancelledInv(cfg, start, m1);
    } else {
      AfterMissionStatusInv(cfg, robot, start, m1);
    }
  }

  lemma {:induction false} MonRunInv(cfg: Settings, robot: Robot, start: seq<Task>, m: Mon)
    requires MonInv(cfg, start, m) && m.closing != Some(TaskStatus.Cancelled) && cfg.limit > 0
    ensures TurnInv(cfg, start, MonRun(cfg, robot, m))
    decreases m.patience, Rest(m)
  {
    IterateInv(cfg, robot, start, m);
    var turn := Iterate(cfg, robot, m);
    if turn.Again? {
      MonRunInv(cfg, robot, start, turn.mon);
    }
  }

  // ---------------------------------------------------------------- the answers of the robot

  /** The statuses among the first `n` answers. */
  function Answers<S>(robot: nat -> StatusReply<S>, n: nat): seq<S> {
    if n == 0 then []
    else Answers(robot, n - 1) + (if robot(n - 1).Status? then [robot(n - 1).value] else [])
  }

  function Statuses(reports: seq<TaskReport>): (s: seq<TaskStatus>)
    ensures |s| == |reports|
  {
    seq(|reports|, i requires 0 <= i < |reports| => reports[i].status)
  }

  lemma {:induction false} NoAnswers<S>(robot: nat -> StatusReply<S>, from: nat, n: nat)
    requires from <= n && forall i :: from <= i < n ==> !robot(i).Status?
    ensures Answers(robot, n) == Answers(robot, from)
  {
    if from == n {
    } else {
      NoAnswers(robot, from, n - 1);
    }
  }

  /** A read passes over answers without a status and yields the first one with a status, if it yields any. */
  lemma ReadTakesAnswer<S>(robot: nat -> StatusReply<S>, from: nat, limit: nat, patience: nat)
    requires limit > 0
    ensures var r := ReadStatus(robot, from, 0, limit, patience);
            Answers(robot, from + r.calls) == Answers(robot, from) + (if r.result.Got? then [r.result.status] else [])
  {
    ReadIsBounded(robot, from, 0, limit, patience);
    ReadIsScan(robot, from, 0, limit, patience);
    var r := ReadStatus(robot, from, 0, limit, patience);
    NoAnswers(robot, from, from + r.calls - 1);
  }

  ghost predicate TasksFollowRobot(robot: Robot, m: Mon) {
    Statuses(m.polled) == Answers(robot.task, m.taskCalls)
  }

  /** The mission status is the last one that the robot gave, and the only one that is not of a running mission. */
  ghost predicate StatusFollowsRobot(robot: Robot, m: Mon) {
    var given := Answers(robot.mission, m.missionCalls);
    && (forall k :: 0 <= k < |given| - 1 ==> IsRunning(given[k]))
    && (m.failed ==> m.status.Failed? && (given != [] ==> IsRunning(given[|given| - 1])))
    && (!m.failed ==> m.status == if given == [] then MissionStatus.InProgress else given[|given| - 1])
  }

  /** One more status has been given while the mission was running. */
  lemma NextStatus(robot: Robot, m: Mon, calls: nat, s: MissionStatus)
    requires StatusFollowsRobot(robot, m) && IsRunning(m.status)
    requires Answers(robot.mission, calls) == Answers(robot.mission, m.missionCalls) + [s]
    ensures StatusFollowsRobot(robot, m.(missionCalls := calls, status := s))
  {
    var given := Answers(robot.mission, m.missionCalls);
    assert given != [] ==> IsRunning(given[|given| - 1]);
  }

  lemma PollMissionFollows(cfg: Settings, robot: Robot, m: Mon)
    requires MonOk(m) && cfg.limit > 0 && StatusFollowsRobot(robot, m)
    ensures StatusFollowsRobot(robot, PollMission(cfg, robot, m).0)
  {
    if IsRunning(m.status) {
      ReadTakesAnswer(robot.mission, m.missionCalls, cfg.limit, m.patience);
      var r := ReadStatus(robot.mission, m.missionCalls, 0, cfg.limit, m.patience);
      if r.result.Got? {
        NextStatus(robot, m, m.missionCalls + r.calls, r.result.status);
      }
    }
  }

  lemma PollTaskFollows(cfg: Settings, robot: Robot, m: Mon)
    requires MonOk(m) && m.active && cfg.limit > 0 && TasksFollowRobot(robot, m)
    ensures TasksFollowRobot(robot, PollTask(cfg, robot, m).0)
  {
    ReadTakesAnswer(robot.task, m.taskCalls, cfg.limit, m.patience);
  }

  lemma AfterMissionStatusFollows(cfg: Settings, robot: Robot, m: Mon)
    requires MonOk(m) && cfg.limit > 0 && TasksFollowRobot(robot, m)
    ensures TasksFollowRobot(robot, AfterMissionStatus(cfg, robot, m).mon)
  {
    if cfg.report && m.active && !m.status.Failed? {
      PollTaskFollows(cfg, robot, m);
    }
  }

  lemma PollTaskKeepsMission(cfg: Settings, robot: Robot, m: Mon)
    requires MonOk(m) && m.active && cfg.limit > 0
    ensures var m' := PollTask(cfg, robot, m).0;
            m'.status == m.status && m'.failed == m.failed && m'.missionCalls == m.missionCalls
  {}

  lemma AfterMissionStatusKeepsMission(cfg: Settings, robot: Robot, m: Mon)
    requires MonOk(m) && cfg.limit > 0
    ensures var m' := AfterMissionStatus(cfg, robot, m).mon;
            m'.status == m.status && m'.failed == m.failed && m'.missionCalls == m.missionCalls
  {
    if cfg.report && m.active && !m.status.Failed? {
      PollTaskKeepsMission(cfg, robot, m);
    }
  }

  lemma {:induction false} MonRunFollows(cfg: Settings, robot: Robot, m: Mon)
    requires MonOk(m) && cfg.limit > 0 && TasksFollowRobot(robot, m) && StatusFollowsRobot(robot, m)
    ensures TasksFollowRobot(robot, MonRun(cfg, robot, m).mon) && StatusFollowsRobot(robot, MonRun(cfg, robot, m).mon)
    decreases m.patience, Rest(m)
  {
    PollMissionFollows(cfg, robot, m);
    var (m1, cancelled) := PollMission(cfg, robot, m);
    if !cancelled {
      AfterMissionStatusFollows(cfg, robot, m1);
      AfterMissionStatusKeepsMission(cfg, robot, m1);
    }
    var turn := Iterate(cfg, robot, m);
    assert TasksFollowRobot(robot, turn.mon) && StatusFollowsRobot(robot, turn.mon);
    if turn.Again? {
      MonRunFollows(cfg, robot, turn.mon);
    }
  }

  // ---------------------------------------------------------------- main results

  ghost function Start(tasks: seq<Task>): seq<Task>
    requires tasks != []
  {
    SetStatus(tasks, 0, TaskStatus.NotStarted)
  }

  lemma MonitoredInv(cfg: Settings, robot: Robot, tasks: seq<Task>, patience: nat)
    requires tasks != [] && cfg.limit > 0
    ensures TurnInv(cfg, Start(tasks), Monitored(cfg, robot, tasks, patience))
  {
    StartInv(cfg, tasks, patience);
    MonRunInv(cfg, robot, Start(tasks), StartMonitor(tasks, patience));
  }

  /** Tasks are followed in order; at any end, those before some task have finished and those after it are untouched. */
  lemma TasksAreFollowedInOrder(cfg: Settings, robot: Robot, tasks: seq<Task>, patience: nat)
    requires tasks != [] && cfg.limit > 0
    ensures var m := Monitored(cfg, robot, tasks, patience).mon;
            && SameTasks(tasks, m.tasks) && m.done <= |tasks|
            && (forall i :: 0 <= i < m.done ==> IsFinished(m.tasks[i].status))
            && (forall i :: m.done < i < |tasks| ==> m.tasks[i] == tasks[i])
  {
    MonitoredInv(cfg, robot, tasks, patience);
    var m := Monitored(cfg, robot, tasks, patience).mon;
    forall i | 0 <= i < |tasks|
      ensures m.tasks[i].id == tasks[i].id && m.tasks[i].kind == tasks[i].kind
      ensures i < m.done ==> IsFinished(m.tasks[i].status)
      ensures m.done < i ==> m.tasks[i] == tasks[i]
    {
      assert TaskInv(Start(tasks), m, i);
    }
  }

  lemma {:induction false} UploadsAreIncreasing(cfg: Settings, tasks: seq<Task>, n: nat)
    requires n <= |tasks|
    ensures forall j, k :: 0 <= j < k < |Uploads(cfg, tasks, n)| ==>
              Uploads(cfg, tasks, n)[j] < Uploads(cfg, tasks, n)[k]
    ensures forall i: nat :: i in Uploads(cfg, tasks, n) <==> i < n && ShouldUpload(cfg, tasks[i])
  {
    if n == 0 {
    } else {
      UploadsAreIncreasing(cfg, tasks, n - 1);
      var before := Uploads(cfg, tasks, n - 1);
      forall j | 0 <= j < |before| ensures before[j] < n - 1 {
        assert before[j] in before;
      }
    }
  }

  /** Uploads are requested for the tasks that ended successfully and inspect something, each once and in task order. */
  lemma UploadsAreTheSuccessfulInspections(cfg: Settings, robot: Robot, tasks: seq<Task>, patience: nat)
    requires tasks != [] && cfg.limit > 0
    ensures var m := Monitored(cfg, robot, tasks, patience).mon;
            && m.done <= |tasks| == |m.tasks|
            && (forall j, k :: 0 <= j < k < |m.uploads| ==> m.uploads[j] < m.uploads[k])
            && (forall i: nat :: i in m.uploads <==>
                  i < m.done && m.tasks[i].status.Successful? && m.tasks[i].IsInspection() && !cfg.uploadAsync)
  {
    MonitoredInv(cfg, robot, tasks, patience);
    var m := Monitored(cfg, robot, tasks, patience).mon;
    UploadsAreIncreasing(cfg, m.tasks, m.done);
  }

  /** The status that ends the mission is asked for once: it is not polled again while the current task is followed. */
  lemma {:induction false} EndedMissionIsNotPolledAgain(cfg: Settings, robot: Robot, m: Mon)
    requires MonOk(m) && cfg.limit > 0 && !IsRunning(m.status)
    ensures MonRun(cfg, robot, m).mon.missionCalls == m.missionCalls
    ensures MonRun(cfg, robot, m).mon.status == m.status
    decreases m.patience, Rest(m)
  {
    var turn := Iterate(cfg, robot, m);
    assert turn.mon.missionCalls == m.missionCalls && turn.mon.status == m.status;
    if turn.Again? {
      EndedMissionIsNotPolledAgain(cfg, robot, turn.mon);
    }
  }

  /** The monitor returns without an error message exactly if the mission ended as a success, be it a partial one. */
  lemma SuccessIsReportedIff(cfg: Settings, robot: Robot, tasks: seq<Task>, patience: nat)
    requires tasks != [] && cfg.limit > 0
    ensures var over := Monitored(cfg, robot, tasks, patience);
            over.end.Returned? ==>
              !IsRunning(over.mon.status) && (over.end.error <==> !Succeeded(over.mon.status))
  {
    MonitoredInv(cfg, robot, tasks, patience);
  }

  /** A fully successful mission is followed to the end of every task, unless the status of a task could not be read. */
  lemma SuccessfulMissionHasFinishedTasks(cfg: Settings, robot: Robot, tasks: seq<Task>, patience: nat)
    requires tasks != [] && cfg.limit > 0 && cfg.report
    ensures var over := Monitored(cfg, robot, tasks, patience);
            over.end.Returned? && over.mon.status.Successful? && !over.mon.readFailed ==>
              over.mon.done == |tasks| && forall t :: t in over.mon.tasks ==> IsFinished(t.status)
  {
    MonitoredInv(cfg, robot, tasks, patience);
    TasksAreFollowedInOrder(cfg, robot, tasks, patience);
  }

  /** The tasks from the current one on are as they were at the start, and were finished then already. */
  ghost predicate RestWasFinished(start: seq<Task>, m: Mon) {
    Of(m.done, m.polled) == [] && forall i :: m.done <= i < |start| ==> IsFinished(start[i].status)
  }

  lemma RestIsAsAtStart(cfg: Settings, robot: Robot, tasks: seq<Task>, patience: nat)
    requires tasks != [] && cfg.limit > 0
    requires Monitored(cfg, robot, tasks, patience).end == Returned(false)
    requires Monitored(cfg, robot, tasks, patience).mon.done < |tasks|
    ensures var m := Monitored(cfg, robot, tasks, patience).mon;
            && |m.tasks| == |tasks|
            && (IsFinished(m.tasks[m.done].status)
                <==> Of(m.done, m.polled) == [] && IsFinished(Start(tasks)[m.done].status))
            && (forall i :: m.done < i < |tasks| ==> m.tasks[i] == Start(tasks)[i])
  {
    MonitoredInv(cfg, robot, tasks, patience);
    var m := Monitored(cfg, robot, tasks, patience).mon;
    assert TaskInv(Start(tasks), m, m.done);
    forall i | m.done < i < |tasks| ensures m.tasks[i] == Start(tasks)[i] {
      assert TaskInv(Start(tasks), m, i);
    }
  }

  /**
   When the monitor returns without an error, every task has finished exactly if there is no current task left and none
   was given up because its status could not be read, unless the tasks that are left were finished to begin with.
   */
  lemma TasksAreFinishedIff(cfg: Settings, robot: Robot, tasks: seq<Task>, patience: nat)
    requires tasks != [] && cfg.limit > 0
    ensures var over := Monitored(cfg, robot, tasks, patience);
            over.end == Returned(false) ==>
              ((forall t :: t in over.mon.tasks ==> IsFinished(t.status))
               <==> (!over.mon.active && !over.mon.readFailed) || RestWasFinished(Start(tasks), over.mon))
  {
    MonitoredInv(cfg, robot, tasks, patience);
    TasksAreFollowedInOrder(cfg, robot, tasks, patience);
    var over := Monitored(cfg, robot, tasks, patience);
    var m := over.mon;
    if over.end == Returned(false) && m.done < |tasks| {
      RestIsAsAtStart(cfg, robot, tasks, patience);
      forall i | m.done <= i < |tasks| ensures m.tasks[i] in m.tasks {}
    }
  }

  /**
   So for a mission from the API, whose tasks have not been started: a fully successful mission is waited for until no
   task is current, and a partially successful one is not.
   */
  lemma FreshTasksAreFinishedIff(cfg: Settings, robot: Robot, tasks: seq<Task>, patience: nat)
    requires tasks != [] && cfg.limit > 0 && cfg.report
    requires forall t :: t in tasks ==> !IsFinished(t.status)
    ensures var over := Monitored(cfg, robot, tasks, patience);
            over.end == Returned(false) ==>
              ((forall t :: t in over.mon.tasks ==> IsFinished(t.status))
               <==> !over.mon.readFailed && (over.mon.status.Successful? || !over.mon.active))
  {
    MonitoredInv(cfg, robot, tasks, patience);
    TasksAreFinishedIff(cfg, robot, tasks, patience);
    var m := Monitored(cfg, robot, tasks, patience).mon;
    if m.done < |tasks| {
      assert tasks[m.done] in tasks;
      assert !IsFinished(Start(tasks)[m.done].status);
    }
  }

  /**
   A partial success is not waited for: in whatever turn it is told, the monitor is over, and every task keeps the
   status that it had.
   */
  lemma PartialSuccessAbandonsTasks(cfg: Settings, robot: Robot, m: Mon)
    requires MonOk(m) && cfg.limit > 0
    ensures var (m1, cancelled) := PollMission(cfg, robot, m);
            !cancelled && m1.status.PartiallySuccessful? ==>
              && MonRun(cfg, robot, m) == Over(m1, Returned(m.failed))
              && m1.tasks == m.tasks && m1.taskCalls == m.taskCalls && m1.published == m.published
  {
    var (m1, cancelled) := PollMission(cfg, robot, m);
    if !cancelled && m1.status.PartiallySuccessful? {
      assert AfterMissionStatus(cfg, robot, m1) == Over(m1, Returned(m1.failed));
    }
  }

  /** For instance when it is the first thing that the robot says of the mission: no task is asked about at all. */
  lemma PartialSuccessAtOnce(cfg: Settings, robot: Robot, tasks: seq<Task>, patience: nat)
    requires tasks != [] && cfg.limit > 0
    requires robot.mission(0) == Status(MissionStatus.PartiallySuccessful)
    ensures var over := Monitored(cfg, robot, tasks, patience);
            over.end == Returned(false) && over.mon.tasks == Start(tasks) && over.mon.taskCalls == 0
    ensures !IsFinished(Monitored(cfg, robot, tasks, patience).mon.tasks[0].status)
  {
    PartialSuccessAbandonsTasks(cfg, robot, StartMonitor(tasks, patience));
  }

  /** Every status that the robot gave was used, and no other: for the tasks in turn, and for the mission. */
  lemma MonitorFollowsRobot(cfg: Settings, robot: Robot, tasks: seq<Task>, patience: nat)
    requires tasks != [] && cfg.limit > 0
    ensures var m := Monitored(cfg, robot, tasks, patience).mon;
            TasksFollowRobot(robot, m) && StatusFollowsRobot(robot, m)
  {
    MonRunFollows(cfg, robot, StartMonitor(tasks, patience));
  }

  lemma {:induction false} ChangesDiffer(initial: TaskStatus, s: seq<TaskStatus>)
    ensures Latest(initial, Changes(initial, s)) == Latest(initial, s)
    ensures forall k :: 0 < k < |Changes(initial, s)| ==> Changes(initial, s)[k - 1] != Changes(initial, s)[k]
    ensures Changes(initial, s) != [] ==> Changes(initial, s)[0] != initial
  {
    if s == [] {
    } else {
      ChangesDiffer(initial, s[..|s| - 1]);
    }
  }

  /**
   What the monitor itself publishes for task `i`: a final Cancelled when it is cancelled, or a final Failed when the
   mission has failed, for the task that it has not got past, if it has not given that one up.
   */
  function FinalWord(cfg: Settings, over: Turn, i: nat): seq<TaskStatus>
    requires over.Over?
  {
    if !cfg.report || i != over.mon.done || over.mon.readFailed then []
    else if over.end.CancelledByStop? then [TaskStatus.Cancelled]
    else if over.mon.status.Failed? then [TaskStatus.Failed]
    else []
  }

  lemma ClosingIsFinalWord(cfg: Settings, start: seq<Task>, over: Turn, i: nat)
    requires over.Over? && TurnInv(cfg, start, over) && i < |start|
    ensures ClosingOf(over.mon, i) == FinalWord(cfg, over, i)
  {}

  /** The monitor gives the current task a last status exactly in these cases. */
  lemma ClosedIff(cfg: Settings, robot: Robot, tasks: seq<Task>, patience: nat)
    requires tasks != [] && cfg.limit > 0
    ensures var over := Monitored(cfg, robot, tasks, patience);
            var left := cfg.report && over.mon.done < |tasks| && !over.mon.readFailed;
            && (over.mon.closing == Some(TaskStatus.Cancelled) <==> over.end.CancelledByStop? && left)
            && (over.mon.closing == Some(TaskStatus.Failed) <==> over.end.Returned? && over.mon.status.Failed? && left)
  {
    MonitoredInv(cfg, robot, tasks, patience);
  }

  /**
   What is published for a task is what was polled for it with repetitions removed, followed by one final Cancelled or
   Failed exactly if the monitor was cancelled, or the mission failed, during that task.
   */
  lemma PublishedAreTheChanges(cfg: Settings, robot: Robot, tasks: seq<Task>, patience: nat, i: nat)
    requires tasks != [] && cfg.limit > 0 && i < |tasks|
    ensures var over := Monitored(cfg, robot, tasks, patience);
            Of(i, over.mon.published)
            == Changes(Start(tasks)[i].status, Of(i, over.mon.polled)) + FinalWord(cfg, over, i)
  {
    MonitoredInv(cfg, robot, tasks, patience);
    var over := Monitored(cfg, robot, tasks, patience);
    assert TaskInv(Start(tasks), over.mon, i);
    ClosingIsFinalWord(cfg, Start(tasks), over, i);
  }

  /** The same status is never published twice in a row for a task. */
  lemma PublicationsDiffer(cfg: Settings, robot: Robot, tasks: seq<Task>, patience: nat, i: nat, k: nat)
    requires tasks != [] && cfg.limit > 0 && i < |tasks|
    requires 0 < k < |Of(i, Monitored(cfg, robot, tasks, patience).mon.published)|
    ensures var p := Of(i, Monitored(cfg, robot, tasks, patience).mon.published); p[k - 1] != p[k]
  {
    MonitoredInv(cfg, robot, tasks, patience);
    var m := Monitored(cfg, robot, tasks, patience).mon;
    assert TaskInv(Start(tasks), m, i);
    ChangesDiffer(Start(tasks)[i].status, Of(i, m.polled));
  }
}
