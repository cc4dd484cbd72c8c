/**
 How far a monitor has got, told by the answers that it took from the robot: the task that it is at, and whether it has
 given that one up.
 */
module MonitorAnswers {
  import opened Missions
  import opened RobotCalls
  import opened MonitorMission
  import opened MonitorLaws

  predicate IsEnd(s: TaskStatus) { s.Successful? || s.PartiallySuccessful? || s.Cancelled? || s.Failed? }

  /** How many of the statuses are those of a finished task. */
  function FinishedAmong(s: seq<TaskStatus>): nat {
    if s == [] then 0 else FinishedAmong(s[..|s| - 1]) + if IsEnd(s[|s| - 1]) then 1 else 0
  }

  /** After `n` answers a read has failed: on another error than of communication, or on `limit` of those in a row. */
  ghost predicate GaveUp<S>(robot: nat -> StatusReply<S>, n: nat, limit: nat) {
    n > 0 && (robot(n - 1).OtherFailure?
              || (n >= limit && forall i :: n - limit <= i < n ==> robot(i).CommunicationFailure?))
  }

  predicate Counted(robot: Robot, m: Mon) { m.done == FinishedAmong(Answers(robot.task, m.taskCalls)) }

  ghost predicate GivenUp(cfg: Settings, robot: Robot, m: Mon) {
    && (m.readFailed <==> GaveUp(robot.task, m.taskCalls, cfg.limit))
    && (m.active ==> !m.readFailed && (m.taskCalls == 0 || robot.task(m.taskCalls - 1).Status?))
  }

  lemma FinishedOneMore(s: seq<TaskStatus>, x: TaskStatus)
    ensures FinishedAmong(s + [x]) == FinishedAmong(s) + if IsFinished(x) then 1 else 0
  {
    assert (s + [x])[..|s|] == s;
  }

  /** A read that follows a status, or nothing, fails exactly if the answers up to its last say so. */
  lemma ReadFailsIff<S>(robot: nat -> StatusReply<S>, from: nat, limit: nat, patience: nat)
    requires limit > 0 && (from == 0 || robot(from - 1).Status?)
    ensures var r := ReadStatus(robot, from, 0, limit, patience);
            && r.calls > 0
            && (r.result.Raised? <==> GaveUp(robot, from + r.calls, limit))
            && (r.result.Got? <==> robot(from + r.calls - 1).Status?)
  {
    ReadIsBounded(robot, from, 0, limit, patience);
    ReadIsScan(robot, from, 0, limit, patience);
    var r := ReadStatus(robot, from, 0, limit, patience);
    var n := from + r.calls;
    if r.result.Interrupted? && n >= limit {
      assert n - limit <= from - 1 < n && !robot(from - 1).CommunicationFailure?;
    }
  }

  lemma PolledMoves(cfg: Settings, m: Mon, s: TaskStatus)
    requires MonOk(m) && m.active
    ensures var m' := TaskPolled(cfg, m, s);
            && m'.done == m.done + (if IsFinished(s) then 1 else 0)
            && m'.taskCalls == m.taskCalls && m'.readFailed == m.readFailed
  {}

  /** The task is given up, or the status that was read decides whether it is done with. */
  lemma PollMoves(cfg: Settings, robot: Robot, m: Mon)
    requires MonOk(m) && m.active && cfg.limit > 0 && !m.readFailed
    ensures var r := ReadStatus(robot.task, m.taskCalls, 0, cfg.limit, m.patience);
            var (m', cancelled) := PollTask(cfg, robot, m);
            && m'.taskCalls == m.taskCalls + r.calls && m'.readFailed == r.result.Raised?
            && m'.done == m.done + (if r.result.Got? && IsFinished(r.result.status) then 1 else 0)
            && (!cancelled && m'.active ==> r.result.Got?)
  {
    var r := ReadStatus(robot.task, m.taskCalls, 0, cfg.limit, m.patience);
    if r.result.Got? {
      PolledMoves(cfg, m.(taskCalls := m.taskCalls + r.calls, patience := r.patience), r.result.status);
    }
  }

  lemma PollCounts(cfg: Settings, robot: Robot, m: Mon)
    requires MonOk(m) && m.active && cfg.limit > 0 && !m.readFailed && Counted(robot, m)
    ensures Counted(robot, PollTask(cfg, robot, m).0)
  {
    ReadTakesAnswer(robot.task, m.taskCalls, cfg.limit, m.patience);
    PollMoves(cfg, robot, m);
    var r := ReadStatus(robot.task, m.taskCalls, 0, cfg.limit, m.patience);
    if r.result.Got? {
      FinishedOneMore(Answers(robot.task, m.taskCalls), r.result.status);
    } else {
      assert Answers(robot.task, m.taskCalls + r.calls) == Answers(robot.task, m.taskCalls);
    }
  }

  lemma PollGivesUp(cfg: Settings, robot: Robot, m: Mon)
    requires MonOk(m) && m.active && cfg.limit > 0 && !m.readFailed && GivenUp(cfg, robot, m)
    ensures var (m', cancelled) := PollTask(cfg, robot, m);
            && (m'.readFailed <==> GaveUp(robot.task, m'.taskCalls, cfg.limit))
            && (!cancelled ==> GivenUp(cfg, robot, m'))
  {
    ReadFailsIff(robot.task, m.taskCalls, cfg.limit, m.patience);
    PollMoves(cfg, robot, m);
  }

  /** Sleeping, or closing the task after a cancellation, moves none of this. */
  lemma SleepMovesNothing(cfg: Settings, m: Mon, cancelled: bool)
    requires MonOk(m)
    ensures var m' := SleepUnless(cfg, m, cancelled).mon;
            && m'.done == m.done && m'.taskCalls == m.taskCalls && m'.readFailed == m.readFailed
            && (m'.active ==> m.active && (cancelled ==> !cfg.report))
  {}

  predicate Polls(cfg: Settings, m: Mon) {
    cfg.report && m.active && !m.status.Failed? && (IsRunning(m.status) || m.status.Successful?)
  }

  /** Nothing but a poll of the task moves any of it. */
  lemma OnlyPollsMove(cfg: Settings, robot: Robot, m: Mon)
    requires MonOk(m) && cfg.limit > 0 && !Polls(cfg, m)
    ensures var m' := AfterMissionStatus(cfg, robot, m).mon;
            && m'.done == m.done && m'.taskCalls == m.taskCalls && m'.readFailed == m.readFailed
            && (m'.active ==> m.active)
  {}

  lemma PollsKeepAnswers(cfg: Settings, robot: Robot, m: Mon)
    requires MonOk(m) && cfg.limit > 0 && Polls(cfg, m) && Counted(robot, m) && GivenUp(cfg, robot, m)
    ensures var (m1, cancelled) := PollTask(cfg, robot, m);
            var m' := SleepUnless(cfg, m1, cancelled).mon;
            Counted(robot, m') && GivenUp(cfg, robot, m')
  {
    PollCounts(cfg, robot, m);
    PollGivesUp(cfg, robot, m);
    var (m1, cancelled) := PollTask(cfg, robot, m);
    SleepMovesNothing(cfg, m1, cancelled);
  }

  lemma AfterMissionStatusAnswers(cfg: Settings, robot: Robot, m: Mon)
    requires MonOk(m) && cfg.limit > 0 && Counted(robot, m) && GivenUp(cfg, robot, m)
    ensures var m' := AfterMissionStatus(cfg, robot, m).mon;
            Counted(robot, m') && GivenUp(cfg, robot, m')
  {
    if Polls(cfg, m) {
      PollsKeepAnswers(cfg, robot, m);
    } else {
      OnlyPollsMove(cfg, robot, m);
    }
  }

  lemma {:induction false} MonRunAnswers(cfg: Settings, robot: Robot, m: Mon)
    requires MonOk(m) && cfg.limit > 0 && Counted(robot, m) && GivenUp(cfg, robot, m)
    ensures Counted(robot, MonRun(cfg, robot, m).mon) && GivenUp(cfg, robot, MonRun(cfg, robot, m).mon)
    decreases m.patience, Rest(m)
  {
    var (m1, cancelled) := PollMission(cfg, robot, m);
    if !cancelled {
      AfterMissionStatusAnswers(cfg, robot, m1);
    }
    var turn := Iterate(cfg, robot, m);
    assert Counted(robot, turn.mon) && GivenUp(cfg, robot, turn.mon);
    if turn.Again? {
      MonRunAnswers(cfg, robot, turn.mon);
    }
  }

  /**
   The monitor has got past as many tasks as the robot has given finished statuses, and it has given up a task exactly
   if its last read of a task status failed.
   */
  lemma ProgressIsGivenByAnswers(cfg: Settings, robot: Robot, tasks: seq<Task>, patience: nat)
    requires tasks != [] && cfg.limit > 0
    ensures var m := Monitored(cfg, robot, tasks, patience).mon;
            && m.done == FinishedAmong(Answers(robot.task, m.taskCalls))
            && (m.readFailed <==> GaveUp(robot.task, m.taskCalls, cfg.limit))
  {
    MonRunAnswers(cfg, robot, StartMonitor(tasks, patience));
  }

  /**
   When the monitor of a mission of fresh tasks returns without an error, every task has finished exactly if the robot
   has given as many finished statuses as there are tasks; after a full success that is, exactly if no read has failed.
   */
  lemma FinishedTasksByAnswers(cfg: Settings, robot: Robot, tasks: seq<Task>, patience: nat)
    requires tasks != [] && cfg.limit > 0 && cfg.report
    requires forall t :: t in tasks ==> !IsFinished(t.status)
    ensures var over := Monitored(cfg, robot, tasks, patience);
            var allFinished := forall t :: t in over.mon.tasks ==> IsFinished(t.status);
            over.end == Returned(false) ==>
              && (allFinished <==> FinishedAmong(Answers(robot.task, over.mon.taskCalls)) == |tasks|)
              && (over.mon.status.Successful? ==>
                    (allFinished <==> !GaveUp(robot.task, over.mon.taskCalls, cfg.limit)))
  {
    MonitoredInv(cfg, robot, tasks, patience);
    ProgressIsGivenByAnswers(cfg, robot, tasks, patience);
    FreshTasksAreFinishedIff(cfg, robot, tasks, patience);
  }

  /** A task whose status cannot be read is given up: the mission succeeds without it. */
  lemma FailedReadAbandonsTask(cfg: Settings, robot: Robot, tasks: seq<Task>, patience: nat)
    requires tasks != [] && cfg.limit > 0 && cfg.report && patience > 0
    requires robot.mission(0) == Status(MissionStatus.Successful) && robot.task(0).OtherFailure?
    ensures var over := Monitored(cfg, robot, tasks, patience);
            over.end == Returned(false) && over.mon.status.Successful? && over.mon.tasks == Start(tasks)
    ensures !IsFinished(Start(tasks)[0].status)
  {
    var m := StartMonitor(tasks, patience);
    var m1 := m.(missionCalls := 1, status := MissionStatus.Successful);
    assert PollMission(cfg, robot, m) == (m1, false);
    var m2 := m1.(taskCalls := 1, active := false, readFailed := true);
    assert PollTask(cfg, robot, m1) == (m2, false);
    var m3 := m2.(patience := patience - 1);
    assert Iterate(cfg, robot, m) == Again(m3);
    assert Iterate(cfg, robot, m3) == Over(m3, Returned(false));
    assert MonRun(cfg, robot, m3) == Over(m3, Returned(false));
  }
}
