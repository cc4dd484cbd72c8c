/** The monitor task: what the end of the monitoring tells the state machine (`_monitor_mission_handler`). */
module MonitorHandler {
  import opened Missions
  import opened Events
  import opened Protocol
  import opened RobotCalls
  import opened MonitorMission
  import opened MonitorLaws

  /** The mission as the monitor leaves it. */
  function Remaining(mission: Mission, over: Turn): Mission {
    Mission(mission.id, mission.name, over.mon.tasks)
  }

  function MonitoredMission(settings: Settings, robot: Robot, mission: Mission, patience: nat): (over: Turn)
    requires mission.tasks != [] && settings.limit > 0
    ensures over.Over?
  {
    Monitored(SettingsFor(settings, mission), robot, mission.tasks, patience)
  }

  /** The mailboxes that the handler leaves: the result of one that returned, nothing after a cancellation. */
  function MailAfter(mail: Mail, over: Turn): Mail
    requires over.Over?
  {
    if over.end.CancelledByStop? then mail
    else Trigger(mail, if over.end.error then MissionFailed else MissionSucceeded, Empty)
  }

  /**
   `_monitor_mission_handler` on the mission with the given id, name and tasks.  Success is signalled exactly for a
   mission that ended as a success, be it a partial one, failure for any other end, and nothing after a cancellation.
   */
  method MonitorMissionHandler(
    settings: Settings, robot: Robot, id: string, name: string, tasks: array<Task>, patience: nat, mailboxes: Mailboxes)
    returns (remaining: Mission)
    requires tasks.Length > 0 && settings.limit > 0
    modifies tasks, mailboxes
    ensures var mission := Mission(id, name, old(tasks[..]));
            var over := MonitoredMission(settings, robot, mission, patience);
            && remaining == Remaining(mission, over) == Mission(id, name, tasks[..])
            && SameMission(mission, remaining)
            && mailboxes.mail == MailAfter(old(mailboxes.mail), over)
            && (over.end.Returned? && (over.mon.status.Successful? || over.mon.status.PartiallySuccessful?) ==>
                  mailboxes.mail == Trigger(old(mailboxes.mail), MissionSucceeded, Empty))
            && (over.end.Returned? && !over.mon.status.Successful? && !over.mon.status.PartiallySuccessful? ==>
                  mailboxes.mail == Trigger(old(mailboxes.mail), MissionFailed, Empty))
            && (over.end.CancelledByStop? ==> mailboxes.mail == old(mailboxes.mail))
  {
    ghost var mission := Mission(id, name, tasks[..]);
    ghost var before := tasks[..];
    var report := !(tasks.Length == 1 && tasks[0].kind.ReturnToHome?);
    var end, _, _ := RobotMonitorMission(settings.(report := report), robot, tasks, patience);
    SuccessIsReportedIff(SettingsFor(settings, mission), robot, before, patience);
    TasksAreFollowedInOrder(SettingsFor(settings, mission), robot, before, patience);
    if end.Returned? {
      mailboxes.TriggerEvent(if end.error then MissionFailed else MissionSucceeded, Empty);
    }
    remaining := Mission(id, name, tasks[..]);
  }

  /** The tasks of a mission are reported unless it is a single task of returning home. */
  lemma FailureIsReportedIff(settings: Settings, robot: Robot, mission: Mission, patience: nat)
    requires mission.tasks != [] && settings.limit > 0 && robot.mission(0) == Status(MissionStatus.Failed)
    ensures MonitoredMission(settings, robot, mission, patience).mon.published
            == if |mission.tasks| == 1 && mission.tasks[0].kind.ReturnToHome? then []
               else [TaskReport(0, TaskStatus.Failed)]
  {
    var cfg := SettingsFor(settings, mission);
    var m := StartMonitor(mission.tasks, patience);
    var m1 := m.(missionCalls := 1, status := MissionStatus.Failed);
    assert PollMission(cfg, robot, m) == (m1, false);
    if cfg.report {
      var m2 := Close(m1, TaskStatus.Failed);
      assert Iterate(cfg, robot, m) == Again(m2);
      assert Iterate(cfg, robot, m2) == Over(m2, Returned(true));
      assert MonRun(cfg, robot, m2) == Over(m2, Returned(true));
    } else {
      assert Iterate(cfg, robot, m) == Over(m1, Returned(true));
    }
  }

  lemma {:induction false} NothingIsReported(cfg: Settings, robot: Robot, m: Mon)
    requires MonOk(m) && cfg.limit > 0 && !cfg.report
    ensures MonRun(cfg, robot, m).mon.published == m.published && MonRun(cfg, robot, m).mon.tasks == m.tasks
    decreases m.patience, Rest(m)
  {
    var turn := Iterate(cfg, robot, m);
    assert turn.mon.published == m.published && turn.mon.tasks == m.tasks;
    if turn.Again? {
      NothingIsReported(cfg, robot, turn.mon);
    }
  }

  /** Whatever the robot answers, nothing is published about the task of a return home. */
  lemma ReturnHomeIsNotReported(settings: Settings, robot: Robot, patience: nat)
    requires settings.limit > 0
    ensures MonitoredMission(settings, robot, ReturnHomeMission(), patience).mon.published == []
  {
    NothingIsReported(SettingsFor(settings, ReturnHomeMission()), robot,
                      StartMonitor(ReturnHomeMission().tasks, patience));
  }

  /**
   A monitor that returns takes the step in which a start command is signalled, and the step leaves the mailboxes that
   the handler leaves.
   */
  lemma MonitorEndIsAStep(s: Sys, cfg: Config, i: nat, settings: Settings, robot: Robot, patience: nat)
    requires MonitorsMayRun(s.rs) && i < |s.rs.starts| && s.rs.starts[i].Monitoring?
    requires s.rs.starts[i].mission.tasks != [] && settings.limit > 0
    requires MonitoredMission(settings, robot, s.rs.starts[i].mission, patience).end.Returned?
    ensures var mission := s.rs.starts[i].mission;
            var over := MonitoredMission(settings, robot, mission, patience);
            var a := MonitorSignal(i, Succeeded(over.mon.status), Remaining(mission, over));
            && Enabled(s, a)
            && Step(s, cfg, a).mail == MailAfter(s.mail, over)
            && Step(s, cfg, a).rs.starts[i] == Signalled(Remaining(mission, over))
  {
    var mission := s.rs.starts[i].mission;
    SuccessIsReportedIff(SettingsFor(settings, mission), robot, mission.tasks, patience);
    TasksAreFollowedInOrder(SettingsFor(settings, mission), robot, mission.tasks, patience);
  }

  /** A monitor that is cancelled takes the step that hands its mission back and signals nothing, like the handler. */
  lemma MonitorCancelIsAStep(s: Sys, cfg: Config, i: nat, settings: Settings, robot: Robot, patience: nat)
    requires MonitorsMayRun(s.rs) && i < |s.rs.starts| && s.rs.starts[i].CancelRequested? && s.rs.starts[i].entered
    requires s.rs.starts[i].mission.tasks != [] && settings.limit > 0
    requires MonitoredMission(settings, robot, s.rs.starts[i].mission, patience).end.CancelledByStop?
    ensures var mission := s.rs.starts[i].mission;
            var over := MonitoredMission(settings, robot, mission, patience);
            var a := MonitorAbort(i, Remaining(mission, over));
            && Enabled(s, a)
            && Step(s, cfg, a).mail == MailAfter(s.mail, over)
            && Step(s, cfg, a).rs.starts[i] == Aborted(Remaining(mission, over))
  {
    var mission := s.rs.starts[i].mission;
    TasksAreFollowedInOrder(SettingsFor(settings, mission), robot, mission.tasks, patience);
  }
}
