/**
 The robot service as it is written: the handlers and one pass of the main loop (src/isar/robot/robot_service.py).
 With no other thread in between, a pass is a run of the step relation.
 */
module RobotService {
  import opened Missions
  import opened Events
  import opened Protocol
  import opened Runs
  import opened RobotCalls
  import opened Tokens
  import opened Service
  import opened CarriedTasks

  /** How `initiate_mission` ends: it returns or raises one of these exceptions. */
  datatype StartReply = Started | AlreadyHome | Infeasible | OtherException

  /** A robot that is home already has nothing to do, whatever the mission is; this passes for a success. */
  function AnswerTo(reply: StartReply): Protocol.Answer {
    match reply
    case Started => Accepts
    case AlreadyHome => NothingToDo
    case _ => Fails
  }

  /** What awaiting the monitor task yields after a stop; `after` tells how a cancelled monitor leaves its mission. */
  function Awaited(starts: seq<Start>, monitor: Option<nat>, after: Mission -> Mission): Option<Mission>
    requires monitor.Some? ==> monitor.value < |starts|
  {
    if monitor.None? then None
    else if starts[monitor.value].Monitoring? then Some(after(starts[monitor.value].mission))
    else ResultOf(starts[monitor.value])
  }

  /** The mailboxes after a stop that has succeeded, and after any stop. */
  function MailAfterStop(mail: Mail, aborted: Option<Mission>): Mail {
    if aborted.Some? && aborted.value.UnfinishedTasks() != []
    then Trigger(mail, MissionSuccessfullyStopped, OfMission(aborted.value.Continued()))
    else Trigger(mail - {MissionSucceeded} - {MissionFailed}, StoppedMissionAlreadyDone, Empty)
  }

  /** What becomes of a start command. */
  function Begun(command: Message, reply: StartReply): Start {
    if reply.Started? && command.OfMission? then Scheduled(command.mission) else Refused
  }

  /** What becomes of the monitor task that a stop awaits. */
  function Stopped(s: Start, after: Mission -> Mission): Start {
    match s
    case Monitoring(m) => Aborted(after(m))
    case Scheduled(_) => NeverEntered
    case _ => s
  }

  /**
   After a successful stop: the rest of the mission is handed back if a task of it is still to be run.  If not, or if no
   monitor has handed a mission back, both results are cleared and the stop is said to have come too late.
   */
  lemma StopHandsBackIff(mail: Mail, aborted: Option<Mission>, ch: Channel)
    ensures var after := MailAfterStop(mail, aborted);
            if aborted.Some? && exists t :: t in aborted.value.tasks && IsToBeRun(t) then
              after == Trigger(mail, MissionSuccessfullyStopped, OfMission(aborted.value.Continued()))
            else
              && MissionSucceeded !in after && MissionFailed !in after && StoppedMissionAlreadyDone in after
              && (ch in after && !ch.StoppedMissionAlreadyDone? ==> ch in mail && after[ch] == mail[ch])
              && (ch in mail && !ch.MissionSucceeded? && !ch.MissionFailed? ==> ch in after && after[ch] == mail[ch])
  {
    if aborted.Some? {
      var m := aborted.value;
      if m.UnfinishedTasks() != [] {
        CarriedOnIff(m, m.UnfinishedTasks()[0]);
      } else {
        forall t | t in m.tasks ensures !IsToBeRun(t) {
          CarriedOnIff(m, t);
        }
      }
    }
  }

  class RobotService {
    const mailboxes: Mailboxes
    const cfg: Config
    var starts: seq<Start>          // the monitor tasks, among the start commands consumed so far
    var monitor: Option<nat>        // monitor_mission_task
    ghost var origin: Sys           // where the run began
    ghost var now: Sys              // where it is

    /** The mailboxes and the fields are those of `now`, which a run from `origin` has reached. */
    ghost predicate Valid()
      reads this, mailboxes
    {
      && now.mail == mailboxes.mail && now.rs.starts == starts && now.rs.monitor == monitor
      && Reaches(origin, cfg, now)
      && Typed(now.mail) && TaskInv(now.rs) && cfg.attempts > 0
    }

    constructor (mailboxes: Mailboxes, cfg: Config, ghost s: Sys)
      requires cfg.attempts > 0 && s.mail == mailboxes.mail && Typed(s.mail)
      requires s.rs.starts == [] && s.rs.monitor == None && TaskInv(s.rs)
      ensures Valid() && this.mailboxes == mailboxes && this.cfg == cfg && now == s && origin == s
    {
      this.mailboxes := mailboxes;
      this.cfg := cfg;
      starts, monitor := [], None;
      origin, now := s, s;
      new;
      ReachesSelf(s, cfg);
    }

    /** Advance the ghost run by a step of the main loop. */
    ghost method Advance(a: Action)
      requires Reaches(origin, cfg, now) && Enabled(now, a) && TaskInv(now.rs)
      modifies `now
      ensures now == Step(old(now), cfg, a) && Reaches(origin, cfg, now) && TaskInv(now.rs)
    {
      ReachesNext(origin, cfg, now, a);
      StepKeepsTasks(now, cfg, a);
      now := Step(now, cfg, a);
    }

    /** `_start_mission_handler`; the result says whether the mission is to be monitored. */
    method StartMissionHandler(mission: Mission, reply: StartReply) returns (success: bool)
      modifies mailboxes
      ensures success <==> reply.Started?
      ensures reply.AlreadyHome? ==> mailboxes.mail == Trigger(old(mailboxes.mail), MissionSucceeded, Empty)
      ensures reply.Infeasible? || reply.OtherException? ==>
                mailboxes.mail == Trigger(old(mailboxes.mail), MissionFailed, Empty)
      ensures reply.Started? ==>
                mailboxes.mail == if |mission.tasks| == 1 && mission.tasks[0].kind.ReturnToHome?
                                  then old(mailboxes.mail)
                                  else Trigger(old(mailboxes.mail), MissionStartedSuccessfully, Empty)
      ensures forall ch :: ch in old(mailboxes.mail) ==> ch in mailboxes.mail
      ensures forall ch :: ch in mailboxes.mail && ch !in old(mailboxes.mail) ==>
                ch.MissionSucceeded? || ch.MissionFailed? || ch.MissionStartedSuccessfully?
    {
      match reply {
        case AlreadyHome =>
          mailboxes.TriggerEvent(MissionSucceeded, Empty);
          return false;
        case Infeasible =>
          mailboxes.TriggerEvent(MissionFailed, Empty);
          return false;
        case OtherException =>
          mailboxes.TriggerEvent(MissionFailed, Empty);
          return false;
        case Started =>
          if !mission.IsReturnToHome() {
            mailboxes.TriggerEvent(MissionStartedSuccessfully, Empty);
          }
          return true;
      }
    }

    /** A start command is taken and the robot is asked; a monitor task is created exactly if it starts the mission. */
    method PollStart(reply: StartReply)
      requires Valid() && now.rs.pc.PollStart?
      modifies this`starts, this`monitor, this`now, mailboxes
      ensures Valid() && now.rs.pc.PollPause? && StartCommand !in mailboxes.mail
      ensures forall ch :: ch !in old(mailboxes.mail) && ch in mailboxes.mail ==>
                ch.MissionSucceeded? || ch.MissionFailed? || ch.MissionStartedSuccessfully?
      ensures forall ch :: ch in old(mailboxes.mail) && ch !in mailboxes.mail ==> ch.StartCommand?
      ensures StartCommand !in old(mailboxes.mail) ==>
                mailboxes.mail == old(mailboxes.mail) && starts == old(starts) && monitor == old(monitor)
      ensures StartCommand in old(mailboxes.mail) ==>
                && starts == old(starts) + [Begun(old(mailboxes.mail)[StartCommand], reply)]
                && monitor == if reply.Started? then Some(|old(starts)|) else old(monitor)
    {
      var request := mailboxes.ConsumeEvent(StartCommand);
      Advance(RsMain(AnswerTo(reply)));
      if request.Some? {
        starts := starts + [Initiating(request.value.mission)];
        StartMission(request.value.mission, reply);
      }
    }

    method StartMission(mission: Mission, reply: StartReply)
      requires Valid() && now.rs.pc.InitiateMission? && starts != [] && starts[|starts| - 1] == Initiating(mission)
      modifies this`starts, this`monitor, this`now, mailboxes
      ensures Valid() && now.rs.pc.PollPause?
      ensures forall ch :: ch in old(mailboxes.mail) ==> ch in mailboxes.mail
      ensures forall ch :: ch in mailboxes.mail && ch !in old(mailboxes.mail) ==>
                ch.MissionSucceeded? || ch.MissionFailed? || ch.MissionStartedSuccessfully?
      ensures starts == old(starts)[|old(starts)| - 1 := if reply.Started? then Scheduled(mission) else Refused]
      ensures monitor == if reply.Started? then Some(|old(starts)| - 1) else old(monitor)
    {
      var success := StartMissionHandler(mission, reply);
      Advance(RsMain(AnswerTo(reply)));
      starts := starts[|starts| - 1 := if success then Scheduled(mission) else Refused];
      if success {
        monitor := Some(|starts| - 1);
      }
    }

    method PauseMissionHandler(robot: nat -> ActionReply)
      requires Valid() && now.rs.pc.PauseRobot?
      modifies this`now, mailboxes
      ensures Valid() && now.rs.pc.PollResume?
      ensures mailboxes.mail == Trigger(old(mailboxes.mail),
                                        if Succeeds(robot, cfg.attempts, false) then MissionSuccessfullyPaused
                                        else MissionFailedToPause, Empty)
    {
      var error, _ := TryAction(robot, cfg.attempts, false);
      if error.Some? {
        mailboxes.TriggerEvent(MissionFailedToPause, Empty);
      } else {
        mailboxes.TriggerEvent(MissionSuccessfullyPaused, Empty);
      }
      Advance(RsMain(if error.Some? then Fails else Accepts));
    }

    method ResumeMissionHandler(robot: nat -> ActionReply)
      requires Valid() && now.rs.pc.ResumeRobot?
      modifies this`now, mailboxes
      ensures Valid() && now.rs.pc.PollStop?
      ensures mailboxes.mail == Trigger(old(mailboxes.mail),
                                        if Succeeds(robot, cfg.attempts, false) then MissionSuccessfullyResumed
                                        else MissionFailedToResume, Empty)
    {
      var error, _ := TryAction(robot, cfg.attempts, false);
      if error.Some? {
        mailboxes.TriggerEvent(MissionFailedToResume, Empty);
      } else {
        mailboxes.TriggerEvent(MissionSuccessfullyResumed, Empty);
      }
      Advance(RsMain(if error.Some? then Fails else Accepts));
    }

    method PollPause(robot: nat -> ActionReply)
      requires Valid() && now.rs.pc.PollPause?
      modifies this`now, mailboxes
      ensures Valid() && now.rs.pc.PollResume?
      ensures mailboxes.mail ==
              if PauseCommand !in old(mailboxes.mail) then old(mailboxes.mail)
              else Trigger(old(mailboxes.mail) - {PauseCommand},
                           if Succeeds(robot, cfg.attempts, false) then MissionSuccessfullyPaused
                           else MissionFailedToPause, Empty)
    {
      var request := mailboxes.ConsumeEvent(PauseCommand);
      Advance(RsMain(Accepts));
      if request.Some? {
        PauseMissionHandler(robot);
      }
    }

    method PollResume(robot: nat -> ActionReply)
      requires Valid() && now.rs.pc.PollResume?
      modifies this`now, mailboxes
      ensures Valid() && now.rs.pc.PollStop?
      ensures mailboxes.mail ==
              if ResumeCommand !in old(mailboxes.mail) then old(mailboxes.mail)
              else Trigger(old(mailboxes.mail) - {ResumeCommand},
                           if Succeeds(robot, cfg.attempts, false) then MissionSuccessfullyResumed
                           else MissionFailedToResume, Empty)
    {
      var request := mailboxes.ConsumeEvent(ResumeCommand);
      Advance(RsMain(Accepts));
      if request.Some? {
        ResumeMissionHandler(robot);
      }
    }

    /** The loop of `robot_stop_mission`, with every call a step: true if the robot has stopped. */
    method StopRobot(robot: nat -> ActionReply) returns (stopped: bool)
      requires Valid() && now.rs.pc == Pc.StopRobot(0)
      modifies this`now
      ensures mailboxes.mail == now.mail && starts == old(starts) && monitor == old(monitor)
      ensures Reaches(origin, cfg, now) && TaskInv(now.rs) && now.mail == old(now.mail)
      ensures stopped <==> Succeeds(robot, cfg.attempts, true)
      ensures stopped ==> now.rs == CancelKnownMonitor(Rs(Pc.StopRobot(0), starts, monitor))
      ensures !stopped ==> now.rs == Rs(SignalFailedToStop, starts, monitor)
    {
      var retries := 0;
      while retries < cfg.attempts
        invariant 0 <= retries <= cfg.attempts
        invariant Reaches(origin, cfg, now) && TaskInv(now.rs) && now.mail == old(now.mail) == mailboxes.mail
        invariant now.rs.pc == if retries < cfg.attempts then Pc.StopRobot(retries) else SignalFailedToStop
        invariant now.rs == Rs(now.rs.pc, starts, monitor)
        invariant forall i :: 0 <= i < retries ==> !Settles(robot(i))
      {
        if robot(retries).Error? {
          Advance(RsMain(Fails));
          retries := retries + 1;
        } else {
          assert Settles(robot(retries));
          Advance(RsMain(Accepts));
          return true;
        }
      }
      return false;
    }

    /** Cancel the known monitor if it is still at work, and await it. */
    method CancelAndAwait(i: nat, after: Mission -> Mission) returns (aborted: Option<Mission>)
      requires now.mail == mailboxes.mail && Reaches(origin, cfg, now) && Typed(now.mail) && TaskInv(now.rs)
      requires i < |starts| && monitor == Some(i)
      requires forall m :: SameMission(m, after(m))
      requires !starts[i].CancelRequested?
      requires now.rs == CancelKnownMonitor(Rs(Pc.StopRobot(0), starts, monitor))
      modifies this`starts, this`now
      ensures now.mail == mailboxes.mail && now.rs.starts == starts && now.rs.monitor == monitor
      ensures Reaches(origin, cfg, now) && Typed(now.mail) && TaskInv(now.rs)
      ensures now.rs.pc == AfterMonitor(aborted) && aborted == Awaited(old(starts), monitor, after)
      ensures starts == old(starts)[i := Stopped(old(starts)[i], after)]
      ensures aborted == match old(starts)[i]
                         case Monitoring(m) => Some(after(m))
                         case Signalled(m) => Some(m)
                         case Aborted(m) => Some(m)
                         case _ => None
    {
      if !IsDone(starts[i]) {
        var mission := after(starts[i].mission);
        Advance(MonitorAbort(i, mission));
        starts := starts[i := if starts[i].Monitoring? then Aborted(mission) else NeverEntered];
      }
      Advance(RsMain(Accepts));
      aborted := ResultOf(starts[i]);
    }

    /** What the handler does when there is nothing to continue: clear both results, then signal. */
    method SignalNothingLeft()
      requires Valid() && now.rs.pc.ClearSucceeded?
      modifies this`now, this`monitor, mailboxes
      ensures Valid() && now.rs.pc.CheckMonitor? && monitor == None
      ensures mailboxes.mail == MailAfterStop(old(mailboxes.mail), None)
    {
      ClearResult(MissionSucceeded);
      ClearResult(MissionFailed);
      mailboxes.TriggerEvent(StoppedMissionAlreadyDone, Empty);
      Advance(RsMain(Accepts));
      monitor := None;
    }

    method ClearResult(ch: Channel)
      requires Valid()
      requires (now.rs.pc.ClearSucceeded? && ch.MissionSucceeded?) || (now.rs.pc.ClearFailed? && ch.MissionFailed?)
      modifies this`now, mailboxes
      ensures Valid() && now.rs.pc == if ch.MissionSucceeded? then ClearFailed else SignalAlreadyDone
      ensures mailboxes.mail == old(mailboxes.mail) - {ch}
    {
      var _ := mailboxes.ClearEvent(ch);
      Advance(RsMain(Accepts));
    }

    method SignalContinuedMission(continued: Mission)
      requires Valid() && now.rs.pc == SignalContinued(continued)
      modifies this`now, this`monitor, mailboxes
      ensures Valid() && now.rs.pc.CheckMonitor? && monitor == None
      ensures mailboxes.mail == Trigger(old(mailboxes.mail), MissionSuccessfullyStopped, OfMission(continued))
    {
      mailboxes.TriggerEvent(MissionSuccessfullyStopped, OfMission(continued));
      Advance(RsMain(Accepts));
      monitor := None;
    }

    method SignalFailure()
      requires Valid() && now.rs.pc.SignalFailedToStop?
      modifies this`now, this`monitor, mailboxes
      ensures Valid() && now.rs.pc.CheckMonitor? && monitor == None
      ensures mailboxes.mail == Trigger(old(mailboxes.mail), MissionFailedToStop, Empty)
    {
      mailboxes.TriggerEvent(MissionFailedToStop, Empty);
      Advance(RsMain(Accepts));
      monitor := None;
    }

    method SignalStopped(aborted: Option<Mission>)
      requires Valid() && now.rs.pc == AfterMonitor(aborted)
      modifies this`now, this`monitor, mailboxes
      ensures Valid() && now.rs.pc.CheckMonitor? && monitor == None
      ensures mailboxes.mail == MailAfterStop(old(mailboxes.mail), aborted)
    {
      if aborted.Some? {
        var unfinished := aborted.value.UnfinishedTasks();
        if |unfinished| > 0 {
          SignalContinuedMission(Mission(aborted.value.id, aborted.value.name, unfinished));
          return;
        }
      }
      SignalNothingLeft();
    }

    /**
     `_stop_mission_handler`: the outcome says that the robot would not stop, or else which part of the mission is left,
     or else that nothing is.
     */
    method StopMissionHandler(robot: nat -> ActionReply, after: Mission -> Mission)
      requires Valid() && now.rs.pc == Pc.StopRobot(0)
      requires forall m :: SameMission(m, after(m))
      modifies this`starts, this`monitor, this`now, mailboxes
      ensures Valid() && now.rs.pc.CheckMonitor? && monitor == None
      ensures old(monitor).Some? ==> old(monitor).value < |old(starts)|
      ensures starts == if Succeeds(robot, cfg.attempts, true) && old(monitor).Some?
                        then old(starts)[old(monitor).value := Stopped(old(starts)[old(monitor).value], after)]
                        else old(starts)
      ensures mailboxes.mail == if Succeeds(robot, cfg.attempts, true)
                                then MailAfterStop(old(mailboxes.mail), Awaited(old(starts), old(monitor), after))
                                else Trigger(old(mailboxes.mail), MissionFailedToStop, Empty)
    {
      var stopped := StopRobot(robot);
      if !stopped {
        SignalFailure();
        return;
      }
      var aborted := None;
      if monitor.Some? {
        aborted := CancelAndAwait(monitor.value, after);
      }
      SignalStopped(aborted);
    }

    method PollStop(robot: nat -> ActionReply, after: Mission -> Mission)
      requires Valid() && now.rs.pc.PollStop?
      requires forall m :: SameMission(m, after(m))
      modifies this`starts, this`monitor, this`now, mailboxes
      ensures Valid() && now.rs.pc.CheckMonitor? && StopCommand !in mailboxes.mail
      ensures forall ch :: ch !in old(mailboxes.mail) && ch in mailboxes.mail ==>
                ch.MissionSuccessfullyStopped? || ch.StoppedMissionAlreadyDone? || ch.MissionFailedToStop?
      ensures if StopCommand in old(mailboxes.mail) then monitor == None
              else starts == old(starts) && monitor == old(monitor)
    {
      var request := mailboxes.ConsumeEvent(StopCommand);
      Advance(RsMain(Accepts));
      if request.Some? {
        StopMissionHandler(robot, after);
      }
    }

    /** The three other commands, in the order in which they are polled. */
    method PollCommands(start: StartReply, pause: nat -> ActionReply, resume: nat -> ActionReply)
      requires Valid() && now.rs.pc.PollStart?
      modifies this`starts, this`monitor, this`now, mailboxes
      ensures Valid() && now.rs.pc.PollStop?
      ensures StartCommand !in mailboxes.mail && PauseCommand !in mailboxes.mail && ResumeCommand !in mailboxes.mail
      ensures StopCommand in mailboxes.mail <==> StopCommand in old(mailboxes.mail)
      ensures starts == if StartCommand in old(mailboxes.mail)
                        then old(starts) + [Begun(old(mailboxes.mail)[StartCommand], start)] else old(starts)
      ensures monitor == if StartCommand in old(mailboxes.mail) && start.Started? then Some(|old(starts)|)
                         else old(monitor)
    {
      PollStart(start);
      PollPause(pause);
      PollResume(resume);
    }

    /** One pass of the loop, from the poll of the start mailbox to the yield: a run from where the pass begins. */
    method RunPass(start: StartReply, pause: nat -> ActionReply, resume: nat -> ActionReply,
                   stop: nat -> ActionReply, after: Mission -> Mission)
      requires Valid() && now.rs.pc.PollStart?
      requires forall m :: SameMission(m, after(m))
      modifies this`starts, this`monitor, this`now, this`origin, mailboxes
      ensures Valid() && now.rs.pc.Yielded? && origin == old(origin)
      ensures Reaches(old(now), cfg, now)
      ensures StartCommand !in mailboxes.mail && PauseCommand !in mailboxes.mail
              && ResumeCommand !in mailboxes.mail && StopCommand !in mailboxes.mail
      ensures old(monitor).Some? ==> old(monitor).value < |old(starts)|
      ensures StopCommand !in old(mailboxes.mail) ==>
                starts == if StartCommand in old(mailboxes.mail)
                          then old(starts) + [Begun(old(mailboxes.mail)[StartCommand], start)] else old(starts)
      ensures monitor == if StopCommand in old(mailboxes.mail) then None
                         else if StartCommand in old(mailboxes.mail) && start.Started? then Some(|old(starts)|)
                         else if old(monitor).Some? && IsDone(old(starts)[old(monitor).value]) then None
                         else old(monitor)
      ensures monitor.Some? ==> monitor.value < |starts| && !IsDone(starts[monitor.value])
    {
      origin := now;
      ReachesSelf(now, cfg);
      PollCommands(start, pause, resume);
      PollStop(stop, after);
      EndPass();
      ReachesThrough(old(origin), cfg, old(now), now);
      origin := old(origin);
    }

    /** Forget a monitor task that is done, and no other. */
    method EndPass()
      requires Valid() && now.rs.pc.CheckMonitor?
      modifies this`monitor, this`now
      ensures Valid() && now.rs.pc.Yielded?
      ensures old(monitor).Some? ==> old(monitor).value < |starts|
      ensures monitor == if old(monitor).Some? && IsDone(starts[old(monitor).value]) then None else old(monitor)
      ensures monitor.Some? ==> monitor.value < |starts| && !IsDone(starts[monitor.value])
    {
      if monitor.Some? && IsDone(starts[monitor.value]) {
        monitor := None;
      }
      Advance(RsMain(Accepts));
    }
  }
}
