/**
 The 28 states of the state machine (src/isar/state_machine/states): which mailboxes each one polls, in which
 order, and what its handlers and the transitions they return do. What a handler and its transition do to the
 mailboxes is a list of primitive effects, in the order in which the code performs them.
 */
module States {
  import opened Missions
  import opened Events
  import opened Scripts

  datatype SmState =
    | Monitor(missionId: string)
    | ReturningHome(retries: int)
    | Stopping(missionId: string)
    | StoppingUnknownMission
    | StoppingReturnHome(mission: Mission)
    | Paused(missionId: string)
    | Pausing(missionId: string)
    | Resuming(missionId: string)
    | PausingReturnHome
    | ResumingReturnHome
    | ReturnHomePaused
    | AwaitNextMission
    | Home
    | Offline
    | UnknownStatus
    | InterventionNeeded
    | Recharging
    | RechargingWithMission(mission: Mission)
    | StoppingGoToLockdown(missionId: string)
    | GoingToLockdown
    | Lockdown
    | GoingToRecharging
    | GoingToRechargingWithMission(mission: Mission)
    | StoppingGoToRecharge
    | Maintenance
    | StoppingDueToMaintenance(abortedId: Option<string>)
    | StoppingPausedMission(missionId: string)
    | StoppingPausedReturnHome(mission: Mission)

  /**
   What one handled event causes: what the handler and then the transition that it returns do to the mailboxes, what
   they publish, and the state to go to, if any.
   */
  datatype AnyReaction = Reaction(script: Script, reports: seq<Publication>, next: Option<SmState>)

  /** A handler that returns no transition does nothing to the mailboxes but reply. */
  type Reaction = r: AnyReaction | r.next.None? ==> r.script.wipes == [] && r.script.command.None?
    witness Reaction(NOTHING, [], None)

  function Ignore(): Reaction { Reaction(NOTHING, [], None) }
  function Plain(next: SmState): Reaction { Reaction(NOTHING, [], Some(next)) }

  /** The handler publishes before its transition does. */
  function Reporting(report: Publication, r: Reaction): Reaction { r.(reports := [report] + r.reports) }

  /** The handler replies before its transition does anything. */
  function Replying(api: Api, ok: bool, r: Reaction): Reaction {
    r.(script := r.script.(eager := true, reply := Some(Reply(api, ok))))
  }

  function Report(id: string, status: MissionStatus): Publication { MissionStatusMessage(id, status) }

  predicate IsStopping(st: SmState) {
    st.Stopping? || st.StoppingUnknownMission? || st.StoppingReturnHome? || st.StoppingGoToLockdown? ||
    st.StoppingGoToRecharge? || st.StoppingDueToMaintenance? || st.StoppingPausedMission? ||
    st.StoppingPausedReturnHome?
  }

  predicate IsPausing(st: SmState) { st.Pausing? || st.PausingReturnHome? }

  // ---------------------------------------------------------------- transitions, named after the source's

  function ToMonitorStarting(mission: Mission, respond: bool, origin: Origin): Reaction {
    Reaction(Script(false, [MissionFailed, MissionSucceeded, MissionStartedSuccessfully], Some(Start(mission, origin)),
                    if respond then Some(Reply(StartMission, true)) else None),
             [Report(mission.id, MissionStatus.NotStarted)],
             Some(Monitor(mission.id)))
  }

  function ToReturningHomeStarting(respond: bool, retries: int): Reaction {
    Reaction(Script(false, [MissionFailed, MissionSucceeded], Some(GoHome),
                    if respond then Some(Reply(ReturnHome, true)) else None),
             [],
             Some(ReturningHome(retries)))
  }

  function ToReturningHomeExisting(limit: int): Reaction {
    Plain(ReturningHome(limit - 1))
  }

  function ToGoingToLockdownStarting(): Reaction {
    Reaction(Script(true, [MissionFailed, MissionSucceeded], Some(GoHome),
                    Some(Reply(SendToLockdown, true))),
             [],
             Some(GoingToLockdown))
  }

  function ToGoingToLockdownExisting(): Reaction {
    Reaction(NOTHING.(reply := Some(Reply(SendToLockdown, true))), [], Some(GoingToLockdown))
  }

  function ToGoingHome(next: SmState): Reaction {
    Reaction(Script(false, [MissionFailed, MissionSucceeded], Some(GoHome), None), [], Some(next))
  }

  function ToLockdownResponding(): Reaction {
    Reaction(NOTHING.(reply := Some(Reply(SendToLockdown, true))), [], Some(Lockdown))
  }

  function ToMaintenanceReplying(): Reaction {
    Reaction(NOTHING.(reply := Some(Reply(SetMaintenanceMode, true))), [], Some(Maintenance))
  }

  function ToHome(): Reaction {
    Reaction(NOTHING.(wipes := [RobotStatusUpdate]), [], Some(SmState.Home))
  }

  function ToIntervention(): Reaction {
    Reaction(NOTHING, [InterventionNeededMessage], Some(InterventionNeeded))
  }

  function StopThen(reply: Option<Reply>, next: SmState): Reaction {
    Reaction(NOTHING.(command := Some(Stop), reply := reply), [], Some(next))
  }

  function ToStopping(id: string): Reaction { StopThen(Some(Reply(StopMission, true)), Stopping(id)) }

  function ToStoppingReturnHome(mission: Mission): Reaction {
    StopThen(Some(Reply(StartMission, true)), StoppingReturnHome(mission))
  }

  function ToStoppingPausedReturnHome(mission: Mission): Reaction {
    StopThen(Some(Reply(StartMission, true)), StoppingPausedReturnHome(mission))
  }

  function ToStoppingPausedMission(id: string): Reaction {
    StopThen(Some(Reply(StopMission, true)), StoppingPausedMission(id))
  }

  function ToStoppingGoToLockdown(id: string): Reaction { StopThen(None, StoppingGoToLockdown(id)) }
  function ToStoppingGoToRecharge(): Reaction { StopThen(None, StoppingGoToRecharge) }
  function ToStoppingUnknownMission(): Reaction { StopThen(None, StoppingUnknownMission) }
  function ToStoppingDueToMaintenance(id: Option<string>): Reaction { StopThen(None, StoppingDueToMaintenance(id)) }

  function ToPausing(id: string): Reaction {
    Reaction(NOTHING.(eager := true, reply := Some(Reply(PauseMission, true)), command := Some(Pause)), [],
             Some(Pausing(id)))
  }

  function ToPausingReturnHome(): Reaction {
    Reaction(NOTHING.(eager := true, reply := Some(Reply(PauseMission, true)), command := Some(Pause)), [],
             Some(PausingReturnHome))
  }

  function ToResuming(id: string): Reaction {
    Reaction(NOTHING.(eager := true, reply := Some(Reply(ResumeMission, true)), command := Some(Resume)), [],
             Some(Resuming(id)))
  }

  function ToResumingReturnHome(): Reaction {
    Reaction(NOTHING.(eager := true, reply := Some(Reply(ResumeMission, true)), command := Some(Resume)), [],
             Some(ResumingReturnHome))
  }

  // ---------------------------------------------------------------- handler tables, in polling order

  const STOP_OUTCOMES: seq<Channel> := [MissionFailedToStop, MissionSuccessfullyStopped, StoppedMissionAlreadyDone]

  function Table(st: SmState): seq<Channel> {
    match st
    case Monitor(_) =>
      [MissionStartedSuccessfully, Request(StopMission), Request(PauseMission), MissionFailed, MissionSucceeded,
       BatteryBelowMissionThreshold, Request(SendToLockdown), Request(SetMaintenanceMode)]
    case ReturningHome(_) =>
      [Request(PauseMission), MissionFailed, Request(StartMission), MissionSucceeded,
       BatteryBelowMissionThreshold, Request(SendToLockdown), Request(SetMaintenanceMode)]
    case Stopping(_) => STOP_OUTCOMES
    case StoppingUnknownMission => STOP_OUTCOMES
    case StoppingReturnHome(_) => STOP_OUTCOMES
    case StoppingGoToLockdown(_) => STOP_OUTCOMES
    case StoppingGoToRecharge => STOP_OUTCOMES
    case StoppingDueToMaintenance(_) => STOP_OUTCOMES
    case StoppingPausedMission(_) => STOP_OUTCOMES
    case StoppingPausedReturnHome(_) => STOP_OUTCOMES
    case Paused(_) =>
      [Request(StopMission), Request(ResumeMission), BatteryBelowMissionThreshold, Request(SendToLockdown),
       Request(SetMaintenanceMode)]
    case Pausing(_) => [MissionFailedToPause, MissionSuccessfullyPaused]
    case PausingReturnHome => [MissionFailedToPause, MissionSuccessfullyPaused]
    case Resuming(_) => [MissionFailedToResume, MissionSuccessfullyResumed]
    case ResumingReturnHome => [MissionFailedToResume, MissionSuccessfullyResumed]
    case ReturnHomePaused =>
      [Request(ResumeMission), BatteryBelowMissionThreshold, Request(StartMission), Request(SendToLockdown),
       Request(SetMaintenanceMode)]
    case AwaitNextMission =>
      [Request(StartMission), Request(ReturnHome), Request(StopMission), Request(SendToLockdown),
       BatteryBelowMissionThreshold, Request(SetMaintenanceMode)]
    case Home =>
      [Request(StartMission), Request(ReturnHome), Request(StopMission), RobotStatusUpdate,
       Request(SendToLockdown), BatteryBelowMissionThreshold, Request(SetMaintenanceMode)]
    case Offline => [RobotStatusUpdate, Request(SetMaintenanceMode)]
    case UnknownStatus => [Request(StopMission), RobotStatusUpdate, Request(SetMaintenanceMode)]
    case InterventionNeeded =>
      [Request(ReturnHome), Request(ReleaseInterventionNeeded), Request(SetMaintenanceMode), RobotStatusUpdate]
    case Recharging =>
      [BatteryAboveRechargeThreshold, RobotStatusUpdate, Request(SendToLockdown), Request(SetMaintenanceMode)]
    case RechargingWithMission(_) =>
      [BatteryAboveRechargeThreshold, RobotStatusUpdate, Request(SendToLockdown), Request(SetMaintenanceMode),
       Request(StopMission)]
    case GoingToLockdown => [MissionFailed, MissionFailedToResume, MissionSucceeded]
    case Lockdown => [Request(ReleaseFromLockdown)]
    case GoingToRecharging => [MissionFailed, MissionSucceeded, Request(SendToLockdown)]
    case GoingToRechargingWithMission(_) =>
      [MissionFailed, MissionSucceeded, Request(SendToLockdown), Request(StopMission)]
    case Maintenance => [Request(ReleaseFromMaintenanceMode)]
  }

  // ---------------------------------------------------------------- handlers

  /** A stop request names the mission or is empty, which means "whatever is running". */
  predicate StopMatches(missionId: string, requested: string) { missionId == requested || requested == "" }

  function MonitorHandler(id: string, ch: Channel, msg: Message): Reaction
    requires ch in Table(Monitor(id)) && Carries(ch, msg)
  {
    match ch
    case MissionStartedSuccessfully => Reporting(Report(id, MissionStatus.InProgress), Ignore())
    case Request(StopMission) =>
      if StopMatches(id, msg.id) then ToStopping(id) else Replying(StopMission, false, Ignore())
    case Request(PauseMission) => ToPausing(id)
    case MissionFailed => Reporting(Report(id, MissionStatus.Failed), Plain(AwaitNextMission))
    case MissionSucceeded => Reporting(Report(id, MissionStatus.Successful), Plain(AwaitNextMission))
    case BatteryBelowMissionThreshold => ToStoppingGoToRecharge()
    case Request(SendToLockdown) => ToStoppingGoToLockdown(id)
    case Request(SetMaintenanceMode) => ToStoppingDueToMaintenance(Some(id))
  }

  function ReturningHomeHandler(retries: int, limit: int, ch: Channel, msg: Message): Reaction
    requires ch in Table(ReturningHome(retries)) && Carries(ch, msg)
  {
    match ch
    case Request(PauseMission) => ToPausingReturnHome()
    case MissionFailed => if retries < 1 then ToIntervention() else ToReturningHomeStarting(false, retries - 1)
    case Request(StartMission) => ToStoppingReturnHome(msg.mission)
    case MissionSucceeded => ToHome()
    case BatteryBelowMissionThreshold => Plain(GoingToRecharging)
    case Request(SendToLockdown) => ToGoingToLockdownExisting()
    case Request(SetMaintenanceMode) => ToStoppingDueToMaintenance(None)
  }

  function PausedHandler(id: string, ch: Channel, msg: Message): Reaction
    requires ch in Table(SmState.Paused(id)) && Carries(ch, msg)
  {
    match ch
    case Request(StopMission) =>
      if StopMatches(id, msg.id) then ToStoppingPausedMission(id) else Replying(StopMission, false, Ignore())
    case Request(ResumeMission) => ToResuming(id)
    case BatteryBelowMissionThreshold => ToStoppingGoToRecharge()
    case Request(SendToLockdown) => ToStoppingGoToLockdown(id)
    case Request(SetMaintenanceMode) => ToStoppingDueToMaintenance(Some(id))
  }

  function ReturnHomePausedHandler(limit: int, ch: Channel, msg: Message): Reaction
    requires ch in Table(ReturnHomePaused) && Carries(ch, msg)
  {
    match ch
    case Request(ResumeMission) => ToResumingReturnHome()
    case BatteryBelowMissionThreshold => ToReturningHomeExisting(limit)
    case Request(StartMission) => ToStoppingPausedReturnHome(msg.mission)
    case Request(SendToLockdown) =>
      Reaction(NOTHING.(command := Some(Resume), reply := Some(Reply(SendToLockdown, true))), [], Some(GoingToLockdown))
    case Request(SetMaintenanceMode) => ToStoppingDueToMaintenance(None)
  }

  function AwaitNextMissionHandler(limit: int, ch: Channel, msg: Message): Reaction
    requires ch in Table(AwaitNextMission) && Carries(ch, msg)
  {
    match ch
    case Request(StartMission) => ToMonitorStarting(msg.mission, true, FreshFromApi)
    case Request(ReturnHome) => ToReturningHomeStarting(true, limit - 1)
    case Request(StopMission) => ToStopping(msg.id)
    case Request(SendToLockdown) => ToGoingToLockdownStarting()
    case BatteryBelowMissionThreshold => ToGoingHome(GoingToRecharging)
    case Request(SetMaintenanceMode) => ToMaintenanceReplying()
  }

  function HomeHandler(limit: int, ch: Channel, msg: Message): Reaction
    requires ch in Table(SmState.Home) && Carries(ch, msg)
  {
    match ch
    case Request(StartMission) => ToMonitorStarting(msg.mission, true, FreshFromApi)
    case Request(ReturnHome) => ToReturningHomeStarting(true, limit - 1)
    case Request(StopMission) => ToStopping(msg.id)
    case RobotStatusUpdate =>
      (match msg.status
       case Home => Ignore()
       case Available => Plain(AwaitNextMission)
       case Offline => Plain(SmState.Offline)
       case TeleOperation => Plain(Maintenance)
       case Busy => Plain(UnknownStatus))
    case Request(SendToLockdown) => ToLockdownResponding()
    case BatteryBelowMissionThreshold => Plain(Recharging)
    case Request(SetMaintenanceMode) => ToMaintenanceReplying()
  }

  function OfflineHandler(ch: Channel, msg: Message): Reaction
    requires ch in Table(SmState.Offline) && Carries(ch, msg)
  {
    match ch
    case RobotStatusUpdate =>
      (match msg.status
       case Offline => Ignore()
       case Home => ToHome()
       case Available => ToIntervention()
       case TeleOperation => Plain(Maintenance)
       case Busy => Plain(UnknownStatus))
    case Request(SetMaintenanceMode) => ToMaintenanceReplying()
  }

  function UnknownStatusHandler(ch: Channel, msg: Message): Reaction
    requires ch in Table(UnknownStatus) && Carries(ch, msg)
  {
    match ch
    case Request(StopMission) => ToStopping(msg.id)
    case RobotStatusUpdate =>
      (match msg.status
       case Home => ToHome()
       case Available => Plain(AwaitNextMission)
       case Offline => Plain(SmState.Offline)
       case TeleOperation => Plain(Maintenance)
       case Busy => ToStoppingUnknownMission())
    case Request(SetMaintenanceMode) => ToMaintenanceReplying()
  }

  function InterventionNeededHandler(limit: int, ch: Channel, msg: Message): Reaction
    requires ch in Table(InterventionNeeded) && Carries(ch, msg)
  {
    match ch
    case Request(ReturnHome) => ToReturningHomeStarting(true, limit - 1)
    case Request(ReleaseInterventionNeeded) =>
      Replying(ReleaseInterventionNeeded, true, Plain(UnknownStatus))
    case Request(SetMaintenanceMode) => ToMaintenanceReplying()
    case RobotStatusUpdate => if msg.status.Home? then ToHome() else Ignore()
  }

  function RechargingHandler(ch: Channel, msg: Message): Reaction
    requires ch in Table(Recharging) && Carries(ch, msg)
  {
    match ch
    case BatteryAboveRechargeThreshold => ToHome()
    case RobotStatusUpdate => if msg.status.Offline? then Plain(SmState.Offline) else Ignore()
    case Request(SendToLockdown) => ToLockdownResponding()
    case Request(SetMaintenanceMode) => ToMaintenanceReplying()
  }

  function RechargingWithMissionHandler(mission: Mission, ch: Channel, msg: Message): Reaction
    requires ch in Table(RechargingWithMission(mission)) && Carries(ch, msg)
  {
    match ch
    case BatteryAboveRechargeThreshold => ToMonitorStarting(mission, false, Relaunch)
    case RobotStatusUpdate => if msg.status.Offline? then Plain(SmState.Offline) else Ignore()
    case Request(SendToLockdown) => ToLockdownResponding()
    case Request(SetMaintenanceMode) => ToMaintenanceReplying()
    case Request(StopMission) =>
      if StopMatches(mission.id, msg.id)
      then Replying(StopMission, true, Plain(Recharging))
      else Replying(StopMission, false, Ignore())
  }

  function GoingToLockdownHandler(ch: Channel, msg: Message): Reaction
    requires ch in Table(GoingToLockdown) && Carries(ch, msg)
  {
    match ch
    case MissionFailed => ToIntervention()
    case MissionFailedToResume => ToIntervention()
    case MissionSucceeded => Plain(Lockdown)
  }

  function GoingToRechargingHandler(ch: Channel, msg: Message): Reaction
    requires ch in Table(GoingToRecharging) && Carries(ch, msg)
  {
    match ch
    case MissionFailed => ToIntervention()
    case MissionSucceeded => Plain(Recharging)
    case Request(SendToLockdown) => ToGoingToLockdownExisting()
  }

  function GoingToRechargingWithMissionHandler(mission: Mission, ch: Channel, msg: Message): Reaction
    requires ch in Table(GoingToRechargingWithMission(mission)) && Carries(ch, msg)
  {
    match ch
    case MissionFailed => Reporting(Report(mission.id, MissionStatus.Failed), ToIntervention())
    case MissionSucceeded => Plain(RechargingWithMission(mission))
    case Request(SendToLockdown) => ToGoingToLockdownExisting()
    case Request(StopMission) =>
      if StopMatches(mission.id, msg.id)
      then Replying(StopMission, true, Plain(GoingToRecharging))
      else Replying(StopMission, false, Ignore())
  }

  /** The eight states that wait for one of the three stop outcomes. */
  function StoppingHandler(st: SmState, limit: int, ch: Channel, msg: Message): Reaction
    requires IsStopping(st) && ch in STOP_OUTCOMES && Carries(ch, msg)
  {
    var failed := ch.MissionFailedToStop?;
    match st
    case Stopping(id) =>
      if failed then Plain(Monitor(id))
      else Reporting(Report(id, MissionStatus.Cancelled), Plain(AwaitNextMission))
    case StoppingPausedMission(id) =>
      if failed then Plain(SmState.Paused(id))
      else Reporting(Report(id, MissionStatus.Cancelled), Plain(AwaitNextMission))
    case StoppingUnknownMission =>
      if failed then ToIntervention() else Plain(AwaitNextMission)
    case StoppingReturnHome(mission) =>
      if failed then ToReturningHomeExisting(limit) else ToMonitorStarting(mission, true, FreshFromApi)
    case StoppingPausedReturnHome(mission) =>
      if failed then Plain(ReturnHomePaused) else ToMonitorStarting(mission, true, FreshFromApi)
    case StoppingGoToLockdown(id) =>
      if failed then Replying(SendToLockdown, false, Plain(Monitor(id)))
      else Reporting(MissionAbortedMessage(id), ToGoingToLockdownStarting())
    case StoppingDueToMaintenance(abortedId) =>
      if failed then Replying(SetMaintenanceMode, false, ToIntervention())
      else if abortedId.Some? && abortedId.value != ""
      then Reporting(MissionAbortedMessage(abortedId.value), ToMaintenanceReplying())
      else ToMaintenanceReplying()
    case StoppingGoToRecharge =>
      if failed then ToIntervention()
      else if ch.MissionSuccessfullyStopped? then ToGoingHome(GoingToRechargingWithMission(msg.mission))
      else ToGoingHome(GoingToRecharging)
  }

  /** The reaction of state `st` to the value `msg` consumed from mailbox `ch`. */
  function React(st: SmState, limit: int, ch: Channel, msg: Message): Reaction
    requires ch in Table(st) && Carries(ch, msg)
  {
    match st
    case Monitor(id) => MonitorHandler(id, ch, msg)
    case ReturningHome(retries) => ReturningHomeHandler(retries, limit, ch, msg)
    case Paused(id) => PausedHandler(id, ch, msg)
    case Pausing(id) =>
      if ch.MissionFailedToPause? then Plain(Monitor(id))
      else Reporting(Report(id, MissionStatus.Paused), Plain(SmState.Paused(id)))
    case PausingReturnHome =>
      if ch.MissionFailedToPause? then ToReturningHomeExisting(limit) else Plain(ReturnHomePaused)
    case Resuming(id) =>
      if ch.MissionFailedToResume? then Plain(SmState.Paused(id))
      else Reporting(Report(id, MissionStatus.InProgress), Plain(Monitor(id)))
    case ResumingReturnHome =>
      if ch.MissionFailedToResume? then Plain(ReturnHomePaused) else ToReturningHomeExisting(limit)
    case ReturnHomePaused => ReturnHomePausedHandler(limit, ch, msg)
    case AwaitNextMission => AwaitNextMissionHandler(limit, ch, msg)
    case Home => HomeHandler(limit, ch, msg)
    case Offline => OfflineHandler(ch, msg)
    case UnknownStatus => UnknownStatusHandler(ch, msg)
    case InterventionNeeded => InterventionNeededHandler(limit, ch, msg)
    case Recharging => RechargingHandler(ch, msg)
    case RechargingWithMission(mission) => RechargingWithMissionHandler(mission, ch, msg)
    case GoingToLockdown => GoingToLockdownHandler(ch, msg)
    case Lockdown => Replying(ReleaseFromLockdown, true, ToHome())
    case GoingToRecharging => GoingToRechargingHandler(ch, msg)
    case GoingToRechargingWithMission(mission) => GoingToRechargingWithMissionHandler(mission, ch, msg)
    case Maintenance => Replying(ReleaseFromMaintenanceMode, true, Plain(UnknownStatus))
    case _ => StoppingHandler(st, limit, ch, msg)
  }

  /** Only `AwaitNextMission` has a timer. */
  predicate HasTimer(st: SmState) { st.AwaitNextMission? }

  function TimerReaction(limit: int): Reaction { ToReturningHomeStarting(false, limit - 1) }
}
