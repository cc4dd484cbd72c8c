/**
 Why the state machine is where it is: for each of the 28 states, the events that lead to it, told from the state
 that is entered and not from the handlers; and what is done to the mailboxes on the way.
 */
module Entries {
  import opened Missions
  import opened Events
  import opened Scripts
  import opened States

  predicate IsStatus(ch: Channel, msg: Message, status: RobotStatus) {
    ch.RobotStatusUpdate? && msg == OfStatus(status)
  }

  predicate HasStopped(ch: Channel) { ch.MissionSuccessfullyStopped? || ch.StoppedMissionAlreadyDone? }

  /** A mission or a return home is under way, so that it has to be stopped first. */
  predicate IsBusy(st: SmState) { st.Monitor? || st.Paused? || st.ReturningHome? || st.ReturnHomePaused? }

  /** The robot stands still somewhere in the plant or at home, ready for a mission. */
  predicate IsReady(st: SmState) { st.AwaitNextMission? || st.Home? }

  predicate StopsMission(ch: Channel, msg: Message, id: string) {
    ch == Request(StopMission) && msg.OfId? && (msg.id == id || msg.id == "")
  }

  predicate StartsMission(ch: Channel, msg: Message, mission: Mission) {
    ch == Request(StartMission) && msg == OfMission(mission)
  }

  // ---------------------------------------------------------------- the events that lead to a state, by state

  /** The robot is known to be at home. */
  predicate EntersHome(st: SmState, ch: Channel, msg: Message) {
    || (st.ReturningHome? && ch.MissionSucceeded?)
    || ((st.Offline? || st.UnknownStatus? || st.InterventionNeeded?) && IsStatus(ch, msg, RobotStatus.Home))
    || (st.Recharging? && ch.BatteryAboveRechargeThreshold?)
    || (st.Lockdown? && ch == Request(ReleaseFromLockdown))
  }

  /** A mission is over, however it ended, or a robot that nobody expected there is available. */
  predicate EntersAwaitNextMission(st: SmState, ch: Channel, msg: Message) {
    || (st.Monitor? && (ch.MissionFailed? || ch.MissionSucceeded?))
    || ((st.Stopping? || st.StoppingPausedMission? || st.StoppingUnknownMission?) && HasStopped(ch))
    || ((st.Home? || st.UnknownStatus?) && IsStatus(ch, msg, Available))
  }

  predicate EntersOffline(st: SmState, ch: Channel, msg: Message) {
    (st.Home? || st.UnknownStatus? || st.Recharging? || st.RechargingWithMission?)
    && IsStatus(ch, msg, RobotStatus.Offline)
  }

  predicate EntersUnknownStatus(st: SmState, ch: Channel, msg: Message) {
    || ((st.Home? || st.Offline?) && IsStatus(ch, msg, Busy))
    || (st.InterventionNeeded? && ch == Request(ReleaseInterventionNeeded))
    || (st.Maintenance? && ch == Request(ReleaseFromMaintenanceMode))
  }

  /** Maintenance is requested of an idle robot, or what had to be stopped has stopped, or the robot is being driven. */
  predicate EntersMaintenance(st: SmState, ch: Channel, msg: Message) {
    || ((st.Home? || st.Offline? || st.UnknownStatus?) && IsStatus(ch, msg, TeleOperation))
    || ((IsReady(st) || st.Offline? || st.UnknownStatus? || st.InterventionNeeded? || st.Recharging?
         || st.RechargingWithMission?) && ch == Request(SetMaintenanceMode))
    || (st.StoppingDueToMaintenance? && HasStopped(ch))
  }

  /** The robot does not get home, does not stop, or turns up away from home. */
  predicate EntersIntervention(st: SmState, ch: Channel, msg: Message) {
    || (ch.MissionFailed? && (st.GoingToLockdown? || st.GoingToRecharging? || st.GoingToRechargingWithMission?
                              || (st.ReturningHome? && st.retries < 1)))
    || (ch.MissionFailedToResume? && st.GoingToLockdown?)
    || (ch.MissionFailedToStop?
        && (st.StoppingUnknownMission? || st.StoppingDueToMaintenance? || st.StoppingGoToRecharge?))
    || (st.Offline? && IsStatus(ch, msg, Available))
  }

  predicate EntersRecharging(st: SmState, ch: Channel, msg: Message) {
    || (st.Home? && ch.BatteryBelowMissionThreshold?)
    || (st.GoingToRecharging? && ch.MissionSucceeded?)
    || (st.RechargingWithMission? && StopsMission(ch, msg, st.mission.id))
  }

  predicate EntersGoingToRecharging(st: SmState, ch: Channel, msg: Message) {
    || ((st.AwaitNextMission? || st.ReturningHome?) && ch.BatteryBelowMissionThreshold?)
    || (st.StoppingGoToRecharge? && ch.StoppedMissionAlreadyDone?)
    || (st.GoingToRechargingWithMission? && StopsMission(ch, msg, st.mission.id))
  }

  predicate EntersLockdown(st: SmState, ch: Channel) {
    || ((st.Home? || st.Recharging? || st.RechargingWithMission?) && ch == Request(SendToLockdown))
    || (st.GoingToLockdown? && ch.MissionSucceeded?)
  }

  predicate EntersGoingToLockdown(st: SmState, ch: Channel) {
    || ((st.AwaitNextMission? || st.ReturningHome? || st.ReturnHomePaused? || st.GoingToRecharging?
         || st.GoingToRechargingWithMission?) && ch == Request(SendToLockdown))
    || (st.StoppingGoToLockdown? && HasStopped(ch))
  }

  /** A mission is launched, or a mission that runs already goes on. */
  predicate EntersMonitor(st: SmState, ch: Channel, msg: Message, id: string) {
    || (IsReady(st) && ch == Request(StartMission) && msg.OfMission? && msg.mission.id == id)
    || ((st.StoppingReturnHome? || st.StoppingPausedReturnHome?) && HasStopped(ch) && st.mission.id == id)
    || (st.RechargingWithMission? && ch.BatteryAboveRechargeThreshold? && st.mission.id == id)
    || (st == Resuming(id) && ch.MissionSuccessfullyResumed?)
    || (st == Pausing(id) && ch.MissionFailedToPause?)
    || ((st == Stopping(id) || st == StoppingGoToLockdown(id)) && ch.MissionFailedToStop?)
  }

  /** A return home is requested, or goes on, with all retries but one left; or it is tried again. */
  predicate EntersReturningHome(st: SmState, limit: int, ch: Channel, retries: int) {
    if st.ReturningHome? then ch.MissionFailed? && retries == st.retries - 1 >= 0
    else
      && retries == limit - 1
      && (|| ((IsReady(st) || st.InterventionNeeded?) && ch == Request(ReturnHome))
          || (st.ReturnHomePaused? && ch.BatteryBelowMissionThreshold?)
          || (st.ResumingReturnHome? && ch.MissionSuccessfullyResumed?)
          || (st.PausingReturnHome? && ch.MissionFailedToPause?)
          || (st.StoppingReturnHome? && ch.MissionFailedToStop?))
  }

  predicate EntersStopping(st: SmState, ch: Channel, msg: Message, id: string) {
    || (st == Monitor(id) && StopsMission(ch, msg, id))
    || ((IsReady(st) || st.UnknownStatus?) && ch == Request(StopMission) && msg == OfId(id))
  }

  predicate EntersPaused(st: SmState, ch: Channel, id: string) {
    || (st == Pausing(id) && ch.MissionSuccessfullyPaused?)
    || (st == Resuming(id) && ch.MissionFailedToResume?)
    || (st == StoppingPausedMission(id) && ch.MissionFailedToStop?)
  }

  predicate EntersReturnHomePaused(st: SmState, ch: Channel) {
    || (st.PausingReturnHome? && ch.MissionSuccessfullyPaused?)
    || (st.ResumingReturnHome? && ch.MissionFailedToResume?)
    || (st.StoppingPausedReturnHome? && ch.MissionFailedToStop?)
  }

  /** The events that lead from `st` to `to`, for every `to`. */
  predicate Enters(st: SmState, limit: int, ch: Channel, msg: Message, to: SmState) {
    match to
    case Home => EntersHome(st, ch, msg)
    case AwaitNextMission => EntersAwaitNextMission(st, ch, msg)
    case Offline => EntersOffline(st, ch, msg)
    case UnknownStatus => EntersUnknownStatus(st, ch, msg)
    case Maintenance => EntersMaintenance(st, ch, msg)
    case InterventionNeeded => EntersIntervention(st, ch, msg)
    case Recharging => EntersRecharging(st, ch, msg)
    case RechargingWithMission(m) => st == GoingToRechargingWithMission(m) && ch.MissionSucceeded?
    case GoingToRecharging => EntersGoingToRecharging(st, ch, msg)
    case GoingToRechargingWithMission(m) =>
      st.StoppingGoToRecharge? && ch.MissionSuccessfullyStopped? && msg == OfMission(m)
    case Lockdown => EntersLockdown(st, ch)
    case GoingToLockdown => EntersGoingToLockdown(st, ch)
    case Monitor(id) => EntersMonitor(st, ch, msg, id)
    case ReturningHome(retries) => EntersReturningHome(st, limit, ch, retries)
    case Paused(id) => EntersPaused(st, ch, id)
    case ReturnHomePaused => EntersReturnHomePaused(st, ch)
    case Pausing(id) => st == Monitor(id) && ch == Request(PauseMission)
    case PausingReturnHome => st.ReturningHome? && ch == Request(PauseMission)
    case Resuming(id) => st == SmState.Paused(id) && ch == Request(ResumeMission)
    case ResumingReturnHome => st.ReturnHomePaused? && ch == Request(ResumeMission)
    case Stopping(id) => EntersStopping(st, ch, msg, id)
    case StoppingPausedMission(id) => st == SmState.Paused(id) && StopsMission(ch, msg, id)
    case StoppingUnknownMission => st.UnknownStatus? && IsStatus(ch, msg, Busy)
    case StoppingReturnHome(m) => st.ReturningHome? && StartsMission(ch, msg, m)
    case StoppingPausedReturnHome(m) => st.ReturnHomePaused? && StartsMission(ch, msg, m)
    case StoppingGoToLockdown(id) =>
      (st == Monitor(id) || st == SmState.Paused(id)) && ch == Request(SendToLockdown)
    case StoppingGoToRecharge => (st.Monitor? || st.Paused?) && ch.BatteryBelowMissionThreshold?
    case StoppingDueToMaintenance(id) =>
      IsBusy(st) && ch == Request(SetMaintenanceMode)
      && id == if st.Monitor? || st.Paused? then Some(st.missionId) else None
  }

  // ---------------------------------------------------------------- what is done to the mailboxes on the way

  /** The robot has been commanded home and has not arrived. */
  predicate IsOnWayHome(st: SmState) {
    st.ReturningHome? || st.PausingReturnHome? || st.ReturnHomePaused? || st.ResumingReturnHome? ||
    st.StoppingReturnHome? || st.StoppingPausedReturnHome? || st.GoingToLockdown? || st.GoingToRecharging? ||
    st.GoingToRechargingWithMission?
  }

  predicate HeadsHome(st: SmState) {
    st.ReturningHome? || st.GoingToLockdown? || st.GoingToRecharging? || st.GoingToRechargingWithMission?
  }

  predicate Launches(r: Reaction) {
    r.script.command.Some? && (r.script.command.value.Start? || r.script.command.value.GoHome?)
  }

  /** The caller hears of it before the robot does. */
  predicate AnswersFirst(st: SmState, ch: Channel) {
    || ch == Request(PauseMission) || ch == Request(ResumeMission) || ch == Request(ReleaseFromLockdown)
    || (st.AwaitNextMission? && ch == Request(SendToLockdown))
    || (st.StoppingGoToLockdown? && HasStopped(ch))
  }

  /**
   The robot is sent home exactly when the state machine begins to wait for that, or tries again.  What was signalled
   about earlier missions is cleared exactly before a launch, and the robot status exactly on coming home.  A reply says
   yes exactly if the state machine moves, unless the robot would not stop.
   */
  ghost predicate Prepared(st: SmState, ch: Channel, r: Reaction) {
    var next := r.next;
    && (r.script.command == Some(GoHome) <==>
          next.Some? && HeadsHome(next.value) && (!IsOnWayHome(st) || (st.ReturningHome? && ch.MissionFailed?)))
    && (r.script.command == Some(Resume) <==>
          next.Some? && (next.value.Resuming? || next.value.ResumingReturnHome?
                         || (st.ReturnHomePaused? && next.value.GoingToLockdown?)))
    && (MissionFailed in r.script.wipes <==> Launches(r))
    && (MissionSucceeded in r.script.wipes <==> Launches(r))
    && (MissionStartedSuccessfully in r.script.wipes <==> Launches(r) && r.script.command.value.Start?)
    && (RobotStatusUpdate in r.script.wipes <==> next == Some(SmState.Home))
    && (r.script.reply.Some? ==> (r.script.reply.value.ok <==> next.Some? && !ch.MissionFailedToStop?))
    && (r.script.reply.Some? && (r.script.wipes != [] || r.script.command.Some?) ==>
          (r.script.eager <==> AnswersFirst(st, ch)))
  }

  // ---------------------------------------------------------------- the reactions of a state are as they should be

  /** Whatever the reaction leads to, this is one of the events that do. */
  predicate IsEntry(st: SmState, limit: int, ch: Channel, msg: Message, r: Reaction) {
    r.next.Some? ==> Enters(st, limit, ch, msg, r.next.value)
  }

  lemma EntryMonitor(id: string, limit: int, ch: Channel, msg: Message)
    requires ch in Table(Monitor(id)) && Carries(ch, msg)
    ensures IsEntry(Monitor(id), limit, ch, msg, MonitorHandler(id, ch, msg))
  {}

  lemma EntryReturningHome(n: int, limit: int, ch: Channel, msg: Message)
    requires ch in Table(ReturningHome(n)) && Carries(ch, msg)
    ensures IsEntry(ReturningHome(n), limit, ch, msg, ReturningHomeHandler(n, limit, ch, msg))
  {}

  lemma EntryPaused(id: string, limit: int, ch: Channel, msg: Message)
    requires ch in Table(SmState.Paused(id)) && Carries(ch, msg)
    ensures IsEntry(SmState.Paused(id), limit, ch, msg, PausedHandler(id, ch, msg))
  {}

  lemma EntryReturnHomePaused(limit: int, ch: Channel, msg: Message)
    requires ch in Table(ReturnHomePaused) && Carries(ch, msg)
    ensures IsEntry(ReturnHomePaused, limit, ch, msg, ReturnHomePausedHandler(limit, ch, msg))
  {}

  lemma EntryAwaitNextMission(limit: int, ch: Channel, msg: Message)
    requires ch in Table(AwaitNextMission) && Carries(ch, msg)
    ensures IsEntry(AwaitNextMission, limit, ch, msg, AwaitNextMissionHandler(limit, ch, msg))
  {}

  lemma EntryHome(limit: int, ch: Channel, msg: Message)
    requires ch in Table(SmState.Home) && Carries(ch, msg)
    ensures IsEntry(SmState.Home, limit, ch, msg, HomeHandler(limit, ch, msg))
  {}

  lemma EntryOffline(limit: int, ch: Channel, msg: Message)
    requires ch in Table(SmState.Offline) && Carries(ch, msg)
    ensures IsEntry(SmState.Offline, limit, ch, msg, OfflineHandler(ch, msg))
  {}

  lemma EntryUnknownStatus(limit: int, ch: Channel, msg: Message)
    requires ch in Table(UnknownStatus) && Carries(ch, msg)
    ensures IsEntry(UnknownStatus, limit, ch, msg, UnknownStatusHandler(ch, msg))
  {}

  lemma EntryInterventionNeeded(limit: int, ch: Channel, msg: Message)
    requires ch in Table(InterventionNeeded) && Carries(ch, msg)
    ensures IsEntry(InterventionNeeded, limit, ch, msg, InterventionNeededHandler(limit, ch, msg))
  {}

  lemma EntryRecharging(limit: int, ch: Channel, msg: Message)
    requires ch in Table(Recharging) && Carries(ch, msg)
    ensures IsEntry(Recharging, limit, ch, msg, RechargingHandler(ch, msg))
  {}

  lemma EntryRechargingWithMission(m: Mission, limit: int, ch: Channel, msg: Message)
    requires ch in Table(RechargingWithMission(m)) && Carries(ch, msg)
    ensures IsEntry(RechargingWithMission(m), limit, ch, msg, RechargingWithMissionHandler(m, ch, msg))
  {}

  lemma EntryGoingToLockdown(limit: int, ch: Channel, msg: Message)
    requires ch in Table(GoingToLockdown) && Carries(ch, msg)
    ensures IsEntry(GoingToLockdown, limit, ch, msg, GoingToLockdownHandler(ch, msg))
  {}

  lemma EntryGoingToRecharging(limit: int, ch: Channel, msg: Message)
    requires ch in Table(GoingToRecharging) && Carries(ch, msg)
    ensures IsEntry(GoingToRecharging, limit, ch, msg, GoingToRechargingHandler(ch, msg))
  {}

  lemma EntryGoingToRechargingWithMission(m: Mission, limit: int, ch: Channel, msg: Message)
    requires ch in Table(GoingToRechargingWithMission(m)) && Carries(ch, msg)
    ensures IsEntry(GoingToRechargingWithMission(m), limit, ch, msg, GoingToRechargingWithMissionHandler(m, ch, msg))
  {}

  lemma EntryStopped(st: SmState, limit: int, ch: Channel, msg: Message)
    requires st.Stopping? || st.StoppingPausedMission? || st.StoppingUnknownMission? || st.StoppingDueToMaintenance?
    requires ch in STOP_OUTCOMES && Carries(ch, msg)
    ensures IsEntry(st, limit, ch, msg, StoppingHandler(st, limit, ch, msg))
  {}

  lemma EntryStoppedFirst(st: SmState, limit: int, ch: Channel, msg: Message)
    requires st.StoppingReturnHome? || st.StoppingPausedReturnHome? || st.StoppingGoToLockdown? ||
             st.StoppingGoToRecharge?
    requires ch in STOP_OUTCOMES && Carries(ch, msg)
    ensures IsEntry(st, limit, ch, msg, StoppingHandler(st, limit, ch, msg))
  {}

  lemma EntryPauseOrResume(st: SmState, limit: int, ch: Channel, msg: Message)
    requires st.Pausing? || st.PausingReturnHome? || st.Resuming? || st.ResumingReturnHome?
    requires ch in Table(st) && Carries(ch, msg)
    ensures IsEntry(st, limit, ch, msg, React(st, limit, ch, msg))
  {}

  lemma EntryRelease(st: SmState, limit: int, ch: Channel, msg: Message)
    requires (st.Lockdown? || st.Maintenance?) && ch in Table(st) && Carries(ch, msg)
    ensures IsEntry(st, limit, ch, msg, React(st, limit, ch, msg))
  {}

  // ---------------------------------------------------------------- whatever should lead to a state does

  lemma HomeIsReported(st: SmState, limit: int, ch: Channel, msg: Message)
    requires Carries(ch, msg) && EntersHome(st, ch, msg) && ch.RobotStatusUpdate?
    ensures ch in Table(st) && React(st, limit, ch, msg).next == Some(SmState.Home)
  {}

  lemma HomeIsReached(st: SmState, limit: int, ch: Channel, msg: Message)
    requires Carries(ch, msg) && EntersHome(st, ch, msg) && !ch.RobotStatusUpdate?
    ensures ch in Table(st) && React(st, limit, ch, msg).next == Some(SmState.Home)
  {}

  lemma AwaitNextMissionIsEntered(st: SmState, limit: int, ch: Channel, msg: Message)
    requires Carries(ch, msg) && EntersAwaitNextMission(st, ch, msg)
    ensures ch in Table(st) && React(st, limit, ch, msg).next == Some(AwaitNextMission)
  {}

  lemma OfflineIsEntered(st: SmState, limit: int, ch: Channel, msg: Message)
    requires Carries(ch, msg) && EntersOffline(st, ch, msg)
    ensures ch in Table(st) && React(st, limit, ch, msg).next == Some(SmState.Offline)
  {}

  lemma UnknownStatusIsEntered(st: SmState, limit: int, ch: Channel, msg: Message)
    requires Carries(ch, msg) && EntersUnknownStatus(st, ch, msg)
    ensures ch in Table(st) && React(st, limit, ch, msg).next == Some(UnknownStatus)
  {}

  lemma MaintenanceIsGranted(st: SmState, limit: int, ch: Channel, msg: Message)
    requires Carries(ch, msg) && EntersMaintenance(st, ch, msg) && ch.Request?
    ensures ch in Table(st) && React(st, limit, ch, msg).next == Some(Maintenance)
  {}

  lemma MaintenanceIsReached(st: SmState, limit: int, ch: Channel, msg: Message)
    requires Carries(ch, msg) && EntersMaintenance(st, ch, msg) && !ch.Request?
    ensures ch in Table(st) && React(st, limit, ch, msg).next == Some(Maintenance)
  {}

  lemma HomecomingFails(st: SmState, limit: int, ch: Channel, msg: Message)
    requires Carries(ch, msg) && EntersIntervention(st, ch, msg) && (ch.MissionFailed? || ch.MissionFailedToResume?)
    ensures ch in Table(st) && React(st, limit, ch, msg).next == Some(InterventionNeeded)
  {}

  lemma StopFails(st: SmState, limit: int, ch: Channel, msg: Message)
    requires Carries(ch, msg) && EntersIntervention(st, ch, msg) && !ch.MissionFailed? && !ch.MissionFailedToResume?
    ensures ch in Table(st) && React(st, limit, ch, msg).next == Some(InterventionNeeded)
  {}

  lemma RechargingIsEntered(st: SmState, limit: int, ch: Channel, msg: Message)
    requires Carries(ch, msg) && EntersRecharging(st, ch, msg)
    ensures ch in Table(st) && React(st, limit, ch, msg).next == Some(Recharging)
  {}

  lemma GoingToRechargingIsEntered(st: SmState, limit: int, ch: Channel, msg: Message)
    requires Carries(ch, msg) && EntersGoingToRecharging(st, ch, msg)
    ensures ch in Table(st) && React(st, limit, ch, msg).next == Some(GoingToRecharging)
  {}

  lemma LockdownIsEntered(st: SmState, limit: int, ch: Channel, msg: Message)
    requires Carries(ch, msg) && EntersLockdown(st, ch)
    ensures ch in Table(st) && React(st, limit, ch, msg).next == Some(Lockdown)
  {}

  lemma GoingToLockdownIsEntered(st: SmState, limit: int, ch: Channel, msg: Message)
    requires Carries(ch, msg) && EntersGoingToLockdown(st, ch)
    ensures ch in Table(st) && React(st, limit, ch, msg).next == Some(GoingToLockdown)
  {}

  lemma MissionIsLaunched(st: SmState, limit: int, ch: Channel, msg: Message, id: string)
    requires Carries(ch, msg) && EntersMonitor(st, ch, msg, id)
    requires IsReady(st) || st.RechargingWithMission?
    ensures ch in Table(st) && React(st, limit, ch, msg).next == Some(Monitor(id))
  {}

  lemma MissionIsHandedOver(st: SmState, limit: int, ch: Channel, msg: Message, id: string)
    requires Carries(ch, msg) && EntersMonitor(st, ch, msg, id)
    requires st.StoppingReturnHome? || st.StoppingPausedReturnHome?
    ensures ch in Table(st) && React(st, limit, ch, msg).next == Some(Monitor(id))
  {}

  lemma MissionGoesOn(st: SmState, limit: int, ch: Channel, msg: Message, id: string)
    requires Carries(ch, msg) && EntersMonitor(st, ch, msg, id)
    requires st.Resuming? || st.Pausing? || st.Stopping? || st.StoppingGoToLockdown?
    ensures ch in Table(st) && React(st, limit, ch, msg).next == Some(Monitor(id))
  {}

  lemma ReturningHomeIsEntered(st: SmState, limit: int, ch: Channel, msg: Message, n: int)
    requires Carries(ch, msg) && EntersReturningHome(st, limit, ch, n)
    ensures ch in Table(st) && React(st, limit, ch, msg).next == Some(ReturningHome(n))
  {}

  lemma StoppingIsEntered(st: SmState, limit: int, ch: Channel, msg: Message, id: string)
    requires Carries(ch, msg) && EntersStopping(st, ch, msg, id)
    ensures ch in Table(st) && React(st, limit, ch, msg).next == Some(Stopping(id))
  {}

  lemma PausedIsEntered(st: SmState, limit: int, ch: Channel, msg: Message, id: string)
    requires Carries(ch, msg) && EntersPaused(st, ch, id)
    ensures ch in Table(st) && React(st, limit, ch, msg).next == Some(SmState.Paused(id))
  {}

  lemma ReturnHomePausedIsEntered(st: SmState, limit: int, ch: Channel, msg: Message)
    requires Carries(ch, msg) && EntersReturnHomePaused(st, ch)
    ensures ch in Table(st) && React(st, limit, ch, msg).next == Some(ReturnHomePaused)
  {}

  lemma HoldIsEntered(st: SmState, limit: int, ch: Channel, msg: Message, to: SmState)
    requires to.RechargingWithMission? || to.GoingToRechargingWithMission?
    requires Carries(ch, msg) && Enters(st, limit, ch, msg, to)
    ensures ch in Table(st) && React(st, limit, ch, msg).next == Some(to)
  {}

  lemma PauseOrResumeIsEntered(st: SmState, limit: int, ch: Channel, msg: Message, to: SmState)
    requires to.Pausing? || to.PausingReturnHome? || to.Resuming? || to.ResumingReturnHome?
    requires Carries(ch, msg) && Enters(st, limit, ch, msg, to)
    ensures ch in Table(st) && React(st, limit, ch, msg).next == Some(to)
  {}

  lemma StopReturnHomeIsEntered(st: SmState, limit: int, ch: Channel, msg: Message, to: SmState)
    requires to.StoppingReturnHome? || to.StoppingPausedReturnHome?
    requires Carries(ch, msg) && Enters(st, limit, ch, msg, to)
    ensures ch in Table(st) && React(st, limit, ch, msg).next == Some(to)
  {}

  lemma StopOtherIsEntered(st: SmState, limit: int, ch: Channel, msg: Message, to: SmState)
    requires to.StoppingPausedMission? || to.StoppingUnknownMission?
    requires Carries(ch, msg) && Enters(st, limit, ch, msg, to)
    ensures ch in Table(st) && React(st, limit, ch, msg).next == Some(to)
  {}

  lemma StopForModeIsEntered(st: SmState, limit: int, ch: Channel, msg: Message, to: SmState)
    requires to.StoppingGoToLockdown? || to.StoppingGoToRecharge? || to.StoppingDueToMaintenance?
    requires Carries(ch, msg) && Enters(st, limit, ch, msg, to)
    ensures ch in Table(st) && React(st, limit, ch, msg).next == Some(to)
  {}

  // ---------------------------------------------------------------- the mailboxes are prepared

  lemma PreparedMonitor(id: string, limit: int, ch: Channel, msg: Message)
    requires ch in Table(Monitor(id)) && Carries(ch, msg)
    ensures Prepared(Monitor(id), ch, MonitorHandler(id, ch, msg))
  {}

  lemma PreparedReturningHome(n: int, limit: int, ch: Channel, msg: Message)
    requires ch in Table(ReturningHome(n)) && Carries(ch, msg)
    ensures Prepared(ReturningHome(n), ch, ReturningHomeHandler(n, limit, ch, msg))
  {}

  lemma PreparedPaused(id: string, limit: int, ch: Channel, msg: Message)
    requires ch in Table(SmState.Paused(id)) && Carries(ch, msg)
    ensures Prepared(SmState.Paused(id), ch, PausedHandler(id, ch, msg))
  {}

  lemma PreparedReturnHomePaused(limit: int, ch: Channel, msg: Message)
    requires ch in Table(ReturnHomePaused) && Carries(ch, msg)
    ensures Prepared(ReturnHomePaused, ch, ReturnHomePausedHandler(limit, ch, msg))
  {}

  lemma PreparedAwaitNextMission(limit: int, ch: Channel, msg: Message)
    requires ch in Table(AwaitNextMission) && Carries(ch, msg)
    ensures Prepared(AwaitNextMission, ch, AwaitNextMissionHandler(limit, ch, msg))
  {}

  lemma PreparedHomeEvent(limit: int, ch: Channel, msg: Message)
    requires ch in Table(SmState.Home) && Carries(ch, msg) && !ch.Request?
    ensures Prepared(SmState.Home, ch, HomeHandler(limit, ch, msg))
  {}

  lemma PreparedHomeRequest(limit: int, ch: Channel, msg: Message)
    requires ch in Table(SmState.Home) && Carries(ch, msg) && ch.Request?
    ensures Prepared(SmState.Home, ch, HomeHandler(limit, ch, msg))
  {}

  lemma PreparedOffline(limit: int, ch: Channel, msg: Message)
    requires ch in Table(SmState.Offline) && Carries(ch, msg)
    ensures Prepared(SmState.Offline, ch, OfflineHandler(ch, msg))
  {}

  lemma PreparedUnknownStatus(limit: int, ch: Channel, msg: Message)
    requires ch in Table(UnknownStatus) && Carries(ch, msg)
    ensures Prepared(UnknownStatus, ch, UnknownStatusHandler(ch, msg))
  {}

  lemma PreparedInterventionNeeded(limit: int, ch: Channel, msg: Message)
    requires ch in Table(InterventionNeeded) && Carries(ch, msg)
    ensures Prepared(InterventionNeeded, ch, InterventionNeededHandler(limit, ch, msg))
  {}

  lemma PreparedRecharging(limit: int, ch: Channel, msg: Message)
    requires ch in Table(Recharging) && Carries(ch, msg)
    ensures Prepared(Recharging, ch, RechargingHandler(ch, msg))
  {}

  lemma PreparedRechargingWithMission(m: Mission, limit: int, ch: Channel, msg: Message)
    requires ch in Table(RechargingWithMission(m)) && Carries(ch, msg)
    ensures Prepared(RechargingWithMission(m), ch, RechargingWithMissionHandler(m, ch, msg))
  {}

  lemma PreparedGoingToLockdown(limit: int, ch: Channel, msg: Message)
    requires ch in Table(GoingToLockdown) && Carries(ch, msg)
    ensures Prepared(GoingToLockdown, ch, GoingToLockdownHandler(ch, msg))
  {}

  lemma PreparedGoingToRecharging(limit: int, ch: Channel, msg: Message)
    requires ch in Table(GoingToRecharging) && Carries(ch, msg)
    ensures Prepared(GoingToRecharging, ch, GoingToRechargingHandler(ch, msg))
  {}

  lemma PreparedGoingToRechargingWithMission(m: Mission, limit: int, ch: Channel, msg: Message)
    requires ch in Table(GoingToRechargingWithMission(m)) && Carries(ch, msg)
    ensures Prepared(GoingToRechargingWithMission(m), ch, GoingToRechargingWithMissionHandler(m, ch, msg))
  {}

  lemma PreparedStopping(st: SmState, limit: int, ch: Channel, msg: Message)
    requires IsStopping(st) && ch in STOP_OUTCOMES && Carries(ch, msg)
    ensures Prepared(st, ch, StoppingHandler(st, limit, ch, msg))
  {}

  lemma PreparedPauseOrResume(st: SmState, limit: int, ch: Channel, msg: Message)
    requires st.Pausing? || st.PausingReturnHome? || st.Resuming? || st.ResumingReturnHome?
    requires ch in Table(st) && Carries(ch, msg)
    ensures Prepared(st, ch, React(st, limit, ch, msg))
  {}

  lemma PreparedRelease(st: SmState, limit: int, ch: Channel, msg: Message)
    requires (st.Lockdown? || st.Maintenance?) && ch in Table(st) && Carries(ch, msg)
    ensures Prepared(st, ch, React(st, limit, ch, msg))
  {}

  // ---------------------------------------------------------------- all states together

  lemma HandshakeIsAnEntry(st: SmState, limit: int, ch: Channel, msg: Message)
    requires IsStopping(st) || st.Pausing? || st.PausingReturnHome? || st.Resuming? || st.ResumingReturnHome?
    requires ch in Table(st) && Carries(ch, msg)
    ensures IsEntry(st, limit, ch, msg, React(st, limit, ch, msg))
  {
    if st.Stopping? || st.StoppingPausedMission? || st.StoppingUnknownMission? || st.StoppingDueToMaintenance? {
      EntryStopped(st, limit, ch, msg);
    } else if IsStopping(st) {
      EntryStoppedFirst(st, limit, ch, msg);
    } else {
      EntryPauseOrResume(st, limit, ch, msg);
    }
  }

  lemma EveryReactionIsAnEntry(st: SmState, limit: int, ch: Channel, msg: Message)
    requires ch in Table(st) && Carries(ch, msg)
    ensures IsEntry(st, limit, ch, msg, React(st, limit, ch, msg))
  {
    match st
    case Monitor(id) => EntryMonitor(id, limit, ch, msg);
    case ReturningHome(n) => EntryReturningHome(n, limit, ch, msg);
    case Paused(id) => EntryPaused(id, limit, ch, msg);
    case ReturnHomePaused => EntryReturnHomePaused(limit, ch, msg);
    case AwaitNextMission => EntryAwaitNextMission(limit, ch, msg);
    case Home => EntryHome(limit, ch, msg);
    case Offline => EntryOffline(limit, ch, msg);
    case UnknownStatus => EntryUnknownStatus(limit, ch, msg);
    case InterventionNeeded => EntryInterventionNeeded(limit, ch, msg);
    case Recharging => EntryRecharging(limit, ch, msg);
    case RechargingWithMission(m) => EntryRechargingWithMission(m, limit, ch, msg);
    case GoingToLockdown => EntryGoingToLockdown(limit, ch, msg);
    case GoingToRecharging => EntryGoingToRecharging(limit, ch, msg);
    case GoingToRechargingWithMission(m) => EntryGoingToRechargingWithMission(m, limit, ch, msg);
    case Lockdown => EntryRelease(st, limit, ch, msg);
    case Maintenance => EntryRelease(st, limit, ch, msg);
    case _ => HandshakeIsAnEntry(st, limit, ch, msg);
  }

  lemma EveryEntryIsFollowed(st: SmState, limit: int, ch: Channel, msg: Message, to: SmState)
    requires Carries(ch, msg) && Enters(st, limit, ch, msg, to)
    ensures ch in Table(st) && React(st, limit, ch, msg).next == Some(to)
  {
    match to
    case Home =>
      if ch.RobotStatusUpdate? { HomeIsReported(st, limit, ch, msg); } else { HomeIsReached(st, limit, ch, msg); }
    case AwaitNextMission => AwaitNextMissionIsEntered(st, limit, ch, msg);
    case Offline => OfflineIsEntered(st, limit, ch, msg);
    case UnknownStatus => UnknownStatusIsEntered(st, limit, ch, msg);
    case Maintenance =>
      if ch.Request? { MaintenanceIsGranted(st, limit, ch, msg); } else { MaintenanceIsReached(st, limit, ch, msg); }
    case InterventionNeeded =>
      if ch.MissionFailed? || ch.MissionFailedToResume? { HomecomingFails(st, limit, ch, msg); }
      else { StopFails(st, limit, ch, msg); }
    case Recharging => RechargingIsEntered(st, limit, ch, msg);
    case RechargingWithMission(_) => HoldIsEntered(st, limit, ch, msg, to);
    case GoingToRecharging => GoingToRechargingIsEntered(st, limit, ch, msg);
    case GoingToRechargingWithMission(_) => HoldIsEntered(st, limit, ch, msg, to);
    case Lockdown => LockdownIsEntered(st, limit, ch, msg);
    case GoingToLockdown => GoingToLockdownIsEntered(st, limit, ch, msg);
    case Monitor(id) =>
      if IsReady(st) || st.RechargingWithMission? { MissionIsLaunched(st, limit, ch, msg, id); }
      else if st.StoppingReturnHome? || st.StoppingPausedReturnHome? { MissionIsHandedOver(st, limit, ch, msg, id); }
      else { MissionGoesOn(st, limit, ch, msg, id); }
    case ReturningHome(retries) => ReturningHomeIsEntered(st, limit, ch, msg, retries);
    case Paused(id) => PausedIsEntered(st, limit, ch, msg, id);
    case ReturnHomePaused => ReturnHomePausedIsEntered(st, limit, ch, msg);
    case Stopping(id) => StoppingIsEntered(st, limit, ch, msg, id);
    case StoppingPausedMission(_) => StopOtherIsEntered(st, limit, ch, msg, to);
    case StoppingUnknownMission => StopOtherIsEntered(st, limit, ch, msg, to);
    case StoppingReturnHome(_) => StopReturnHomeIsEntered(st, limit, ch, msg, to);
    case StoppingPausedReturnHome(_) => StopReturnHomeIsEntered(st, limit, ch, msg, to);
    case StoppingGoToLockdown(_) => StopForModeIsEntered(st, limit, ch, msg, to);
    case StoppingGoToRecharge => StopForModeIsEntered(st, limit, ch, msg, to);
    case StoppingDueToMaintenance(_) => StopForModeIsEntered(st, limit, ch, msg, to);
    case _ => PauseOrResumeIsEntered(st, limit, ch, msg, to);
  }

  /** A state polls an event and is led by it to another one exactly if it is one of the events that lead there. */
  lemma EntriesAreExplained(st: SmState, limit: int, ch: Channel, msg: Message, to: SmState)
    requires Carries(ch, msg)
    ensures ch in Table(st) && React(st, limit, ch, msg).next == Some(to) <==> Enters(st, limit, ch, msg, to)
  {
    if ch in Table(st) {
      EveryReactionIsAnEntry(st, limit, ch, msg);
    }
    if Enters(st, limit, ch, msg, to) {
      EveryEntryIsFollowed(st, limit, ch, msg, to);
    }
  }

  /** In every state: the mailboxes are prepared for what the state machine then waits for. */
  lemma EntriesArePrepared(st: SmState, limit: int, ch: Channel, msg: Message)
    requires ch in Table(st) && Carries(ch, msg)
    ensures Prepared(st, ch, React(st, limit, ch, msg))
  {
    match st
    case Monitor(id) => PreparedMonitor(id, limit, ch, msg);
    case ReturningHome(n) => PreparedReturningHome(n, limit, ch, msg);
    case Paused(id) => PreparedPaused(id, limit, ch, msg);
    case ReturnHomePaused => PreparedReturnHomePaused(limit, ch, msg);
    case AwaitNextMission => PreparedAwaitNextMission(limit, ch, msg);
    case Home => if ch.Request? { PreparedHomeRequest(limit, ch, msg); } else { PreparedHomeEvent(limit, ch, msg); }
    case Offline => PreparedOffline(limit, ch, msg);
    case UnknownStatus => PreparedUnknownStatus(limit, ch, msg);
    case InterventionNeeded => PreparedInterventionNeeded(limit, ch, msg);
    case Recharging => PreparedRecharging(limit, ch, msg);
    case RechargingWithMission(m) => PreparedRechargingWithMission(m, limit, ch, msg);
    case GoingToLockdown => PreparedGoingToLockdown(limit, ch, msg);
    case GoingToRecharging => PreparedGoingToRecharging(limit, ch, msg);
    case GoingToRechargingWithMission(m) => PreparedGoingToRechargingWithMission(m, limit, ch, msg);
    case Lockdown => PreparedRelease(st, limit, ch, msg);
    case Maintenance => PreparedRelease(st, limit, ch, msg);
    case Pausing(_) => PreparedPauseOrResume(st, limit, ch, msg);
    case PausingReturnHome => PreparedPauseOrResume(st, limit, ch, msg);
    case Resuming(_) => PreparedPauseOrResume(st, limit, ch, msg);
    case ResumingReturnHome => PreparedPauseOrResume(st, limit, ch, msg);
    case _ => PreparedStopping(st, limit, ch, msg);
  }

  /** The state machine waits for a robot that moves. */
  predicate IsMoving(st: SmState) { st.Monitor? || HeadsHome(st) }

  /**
   Out of a pause, the state machine begins to wait for the robot to move without telling it to exactly in one case:
   the battery runs low while a return home is paused.
   */
  lemma HaltedIsTakenToMoveIff(st: SmState, limit: int, ch: Channel, msg: Message)
    requires (st.Paused? || st.ReturnHomePaused?) && ch in Table(st) && Carries(ch, msg)
    ensures var r := React(st, limit, ch, msg);
            r.next.Some? && IsMoving(r.next.value) && r.script.command.None?
            <==> st.ReturnHomePaused? && ch.BatteryBelowMissionThreshold?
  {}

  /** The timer of AwaitNextMission sends the robot home, with all retries but one left. */
  lemma TimerGoesHome(limit: int)
    ensures var r := TimerReaction(limit);
            && r.next == Some(ReturningHome(limit - 1)) && r.script.command == Some(GoHome) && r.script.reply == None
            && MissionFailed in r.script.wipes && MissionSucceeded in r.script.wipes && r.reports == []
  {}

  // ---------------------------------------------------------------- in which order a state polls

  /**
   The smaller, the earlier.  Failures are polled before successes.  The order is the same in all states, except for a
   start request during a return home, a low battery of a robot that is ready, the status of a robot that needs an
   intervention, and a request to stop a mission that is held.
   */
  function Rank(st: SmState, ch: Channel): nat {
    match ch
    case MissionStartedSuccessfully => 0
    case BatteryAboveRechargeThreshold => 0
    case Request(StartMission) => if st.ReturningHome? then 8 else if st.ReturnHomePaused? then 13 else 1
    case Request(ReturnHome) => 2
    case Request(ReleaseInterventionNeeded) => 3
    case Request(StopMission) => if st.RechargingWithMission? || st.GoingToRechargingWithMission? then 18 else 4
    case Request(PauseMission) => 5
    case Request(ResumeMission) => 5
    case MissionFailed => 6
    case MissionFailedToStop => 6
    case MissionFailedToPause => 6
    case MissionFailedToResume => 7
    case MissionSucceeded => 9
    case MissionSuccessfullyStopped => 9
    case MissionSuccessfullyPaused => 9
    case MissionSuccessfullyResumed => 9
    case StoppedMissionAlreadyDone => 10
    case RobotStatusUpdate => if st.InterventionNeeded? then 18 else 11
    case BatteryBelowMissionThreshold => if IsReady(st) then 15 else 12
    case Request(SendToLockdown) => 14
    case Request(SetMaintenanceMode) => 16
    case _ => 17
  }

  lemma BusyTablesAreOrdered(st: SmState, i: nat, j: nat)
    requires (IsBusy(st) || IsReady(st)) && i < j < |Table(st)|
    ensures Rank(st, Table(st)[i]) < Rank(st, Table(st)[j])
  {}

  lemma OtherTablesAreOrdered(st: SmState, i: nat, j: nat)
    requires !IsBusy(st) && !IsReady(st) && i < j < |Table(st)|
    ensures Rank(st, Table(st)[i]) < Rank(st, Table(st)[j])
  {}

  lemma TablesAreOrdered(st: SmState, i: nat, j: nat)
    requires i < j < |Table(st)|
    ensures Rank(st, Table(st)[i]) < Rank(st, Table(st)[j])
  {
    if IsBusy(st) || IsReady(st) {
      BusyTablesAreOrdered(st, i, j);
    } else {
      OtherTablesAreOrdered(st, i, j);
    }
  }
}
