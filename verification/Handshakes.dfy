/** Which states and events enter a stop, a pause or a resume, and where its outcomes lead. */
module Handshakes {
  import opened Missions
  import opened Events
  import opened Scripts
  import opened States
  import opened Reactions

  predicate IsResuming(st: SmState) { st.Resuming? || st.ResumingReturnHome? }

  predicate IsHandshake(st: SmState) { IsStopping(st) || IsPausing(st) || IsResuming(st) }

  /** The outcome by which the robot service says that the robot did not do as it was told. */
  function FailureOf(st: SmState): Channel {
    if IsPausing(st) then MissionFailedToPause
    else if IsResuming(st) then MissionFailedToResume
    else MissionFailedToStop
  }

  predicate IsRefusal(ch: Channel) { ch.MissionFailedToStop? || ch.MissionFailedToPause? || ch.MissionFailedToResume? }

  lemma RefusalIsItsFailure(st: SmState, ch: Channel)
    requires IsHandshake(st) && ch in Table(st) && IsRefusal(ch)
    ensures ch == FailureOf(st)
  {}

  /** The number of retries that a return home has left does not matter. */
  predicate SameActivity(a: SmState, b: SmState) { a == b || (a.ReturningHome? && b.ReturningHome?) }

  predicate EntersHandshake(r: Reaction) { r.next.Some? && IsHandshake(r.next.value) }

  /** Where the state machine is when handshake `hs` has failed. */
  function AfterFailure(hs: SmState, limit: int): SmState
    requires IsHandshake(hs)
  {
    After(hs, React(hs, limit, FailureOf(hs), Empty))
  }

  /** The same, case by case. */
  function BackTo(hs: SmState, limit: int): SmState
    requires IsHandshake(hs)
  {
    match hs
    case Pausing(id) => Monitor(id)
    case PausingReturnHome => ReturningHome(limit - 1)
    case Resuming(id) => SmState.Paused(id)
    case ResumingReturnHome => ReturnHomePaused
    case Stopping(id) => Monitor(id)
    case StoppingPausedMission(id) => SmState.Paused(id)
    case StoppingReturnHome(_) => ReturningHome(limit - 1)
    case StoppingPausedReturnHome(_) => ReturnHomePaused
    case StoppingGoToLockdown(id) => Monitor(id)
    case _ => InterventionNeeded
  }

  lemma FailureLeadsBack(hs: SmState, limit: int)
    requires IsHandshake(hs)
    ensures AfterFailure(hs, limit) == BackTo(hs, limit)
  {
    if IsStopping(hs) {
      StopFailureLeadsBack(hs, limit);
    }
  }

  lemma StopFailureLeadsBack(hs: SmState, limit: int)
    requires IsStopping(hs)
    ensures After(hs, StoppingHandler(hs, limit, MissionFailedToStop, Empty)) == BackTo(hs, limit)
  {}

  /** A mission or a return home is on, and it is interrupted neither for maintenance nor for the battery. */
  predicate GoesBack(st: SmState, ch: Channel) {
    && (st.Monitor? || st.Paused? || st.ReturningHome? || st.ReturnHomePaused?)
    && ch != Request(SetMaintenanceMode) && !ch.BatteryBelowMissionThreshold?
    && !(st.Paused? && ch == Request(SendToLockdown))
  }

  predicate UndoneIf(st: SmState, limit: int, ch: Channel, r: Reaction) {
    EntersHandshake(r) ==>
      && (SameActivity(BackTo(r.next.value, limit), st) <==> GoesBack(st, ch))
      && (IsResuming(r.next.value) ==> r.script.command == Some(Resume))
  }

  // ---------------------------------------------------------------- one lemma for each file of states

  lemma UndoneMonitor(id: string, limit: int, ch: Channel, msg: Message)
    requires ch in Table(Monitor(id)) && Carries(ch, msg)
    ensures UndoneIf(Monitor(id), limit, ch, MonitorHandler(id, ch, msg))
  {}

  lemma UndoneReturningHome(n: int, limit: int, ch: Channel, msg: Message)
    requires ch in Table(ReturningHome(n)) && Carries(ch, msg)
    ensures UndoneIf(ReturningHome(n), limit, ch, ReturningHomeHandler(n, limit, ch, msg))
  {}

  lemma UndonePaused(id: string, limit: int, ch: Channel, msg: Message)
    requires ch in Table(SmState.Paused(id)) && Carries(ch, msg)
    ensures UndoneIf(SmState.Paused(id), limit, ch, PausedHandler(id, ch, msg))
  {}

  lemma UndoneReturnHomePaused(limit: int, ch: Channel, msg: Message)
    requires ch in Table(ReturnHomePaused) && Carries(ch, msg)
    ensures UndoneIf(ReturnHomePaused, limit, ch, ReturnHomePausedHandler(limit, ch, msg))
  {}

  lemma UndoneAwaitNextMission(limit: int, ch: Channel, msg: Message)
    requires ch in Table(AwaitNextMission) && Carries(ch, msg)
    ensures UndoneIf(AwaitNextMission, limit, ch, AwaitNextMissionHandler(limit, ch, msg))
  {}

  lemma UndoneHome(limit: int, ch: Channel, msg: Message)
    requires ch in Table(SmState.Home) && Carries(ch, msg)
    ensures UndoneIf(SmState.Home, limit, ch, HomeHandler(limit, ch, msg))
  {}

  lemma UndoneUnknownStatus(limit: int, ch: Channel, msg: Message)
    requires ch in Table(UnknownStatus) && Carries(ch, msg)
    ensures UndoneIf(UnknownStatus, limit, ch, UnknownStatusHandler(ch, msg))
  {}

  lemma NoneOffline(ch: Channel, msg: Message)
    requires ch in Table(SmState.Offline) && Carries(ch, msg)
    ensures !EntersHandshake(OfflineHandler(ch, msg))
  {}

  lemma NoneInterventionNeeded(limit: int, ch: Channel, msg: Message)
    requires ch in Table(InterventionNeeded) && Carries(ch, msg)
    ensures !EntersHandshake(InterventionNeededHandler(limit, ch, msg))
  {}

  lemma NoneRecharging(ch: Channel, msg: Message)
    requires ch in Table(Recharging) && Carries(ch, msg)
    ensures !EntersHandshake(RechargingHandler(ch, msg))
  {}

  lemma NoneRechargingWithMission(m: Mission, ch: Channel, msg: Message)
    requires ch in Table(RechargingWithMission(m)) && Carries(ch, msg)
    ensures !EntersHandshake(RechargingWithMissionHandler(m, ch, msg))
  {}

  lemma NoneGoingToLockdown(ch: Channel, msg: Message)
    requires ch in Table(GoingToLockdown) && Carries(ch, msg)
    ensures !EntersHandshake(GoingToLockdownHandler(ch, msg))
  {}

  lemma NoneGoingToRecharging(ch: Channel, msg: Message)
    requires ch in Table(GoingToRecharging) && Carries(ch, msg)
    ensures !EntersHandshake(GoingToRechargingHandler(ch, msg))
  {}

  lemma NoneGoingToRechargingWithMission(m: Mission, ch: Channel, msg: Message)
    requires ch in Table(GoingToRechargingWithMission(m)) && Carries(ch, msg)
    ensures !EntersHandshake(GoingToRechargingWithMissionHandler(m, ch, msg))
  {}

  lemma NoneStopping(st: SmState, limit: int, ch: Channel, msg: Message)
    requires IsStopping(st) && ch in STOP_OUTCOMES && Carries(ch, msg)
    ensures !EntersHandshake(StoppingHandler(st, limit, ch, msg))
  {}

  lemma NonePauseOrResume(st: SmState, limit: int, ch: Channel, msg: Message)
    requires (IsPausing(st) || IsResuming(st)) && ch in Table(st) && Carries(ch, msg)
    ensures !EntersHandshake(React(st, limit, ch, msg))
  {}

  /** The states that interrupt something by a stop, a pause or a resume. */
  predicate MayInterrupt(st: SmState) {
    st.Monitor? || st.ReturningHome? || st.Paused? || st.ReturnHomePaused? ||
    st.AwaitNextMission? || st.Home? || st.UnknownStatus?
  }

  lemma HandshakesInterruptNothing(st: SmState, limit: int, ch: Channel, msg: Message)
    requires ch in Table(st) && Carries(ch, msg) && IsHandshake(st)
    ensures !EntersHandshake(React(st, limit, ch, msg))
  {
    if IsStopping(st) {
      StoppingTable(st);
      NoneStopping(st, limit, ch, msg);
    } else {
      NonePauseOrResume(st, limit, ch, msg);
    }
  }

  lemma StoppingTable(st: SmState)
    requires IsStopping(st)
    ensures Table(st) == STOP_OUTCOMES
  {}

  lemma OthersInterruptNothing(st: SmState, limit: int, ch: Channel, msg: Message)
    requires ch in Table(st) && Carries(ch, msg) && !MayInterrupt(st)
    ensures !EntersHandshake(React(st, limit, ch, msg))
  {
    if IsHandshake(st) {
      HandshakesInterruptNothing(st, limit, ch, msg);
    } else {
      match st
      case Offline => NoneOffline(ch, msg);
      case InterventionNeeded => NoneInterventionNeeded(limit, ch, msg);
      case Recharging => NoneRecharging(ch, msg);
      case RechargingWithMission(m) => NoneRechargingWithMission(m, ch, msg);
      case GoingToLockdown => NoneGoingToLockdown(ch, msg);
      case GoingToRecharging => NoneGoingToRecharging(ch, msg);
      case GoingToRechargingWithMission(m) => NoneGoingToRechargingWithMission(m, ch, msg);
      case _ =>
    }
  }

  lemma EntryIsUndoneIf(st: SmState, limit: int, ch: Channel, msg: Message)
    requires ch in Table(st) && Carries(ch, msg)
    ensures UndoneIf(st, limit, ch, React(st, limit, ch, msg))
  {
    match st
    case Monitor(id) => UndoneMonitor(id, limit, ch, msg);
    case ReturningHome(n) => UndoneReturningHome(n, limit, ch, msg);
    case Paused(id) => UndonePaused(id, limit, ch, msg);
    case ReturnHomePaused => UndoneReturnHomePaused(limit, ch, msg);
    case AwaitNextMission => UndoneAwaitNextMission(limit, ch, msg);
    case Home => UndoneHome(limit, ch, msg);
    case UnknownStatus => UndoneUnknownStatus(limit, ch, msg);
    case _ => OthersInterruptNothing(st, limit, ch, msg);
  }

  // ---------------------------------------------------------------- both halves

  /** What entering a handshake and the failure that ends it come to. HandshakeRuns is about the runs in between. */
  lemma FailureUndoesIff(st: SmState, limit: int, ch: Channel, msg: Message)
    requires ch in Table(st) && Carries(ch, msg)
    requires EntersHandshake(React(st, limit, ch, msg))
    ensures SameActivity(AfterFailure(React(st, limit, ch, msg).next.value, limit), st) <==> GoesBack(st, ch)
  {
    EntryIsUndoneIf(st, limit, ch, msg);
    FailureLeadsBack(React(st, limit, ch, msg).next.value, limit);
  }

  /** The paused counterpart of a mission or a return home that is running. */
  function PausedOf(st: SmState): SmState
    requires st.Monitor? || st.ReturningHome?
  {
    if st.Monitor? then SmState.Paused(st.missionId) else ReturnHomePaused
  }

  function PausingOf(st: SmState): SmState
    requires st.Monitor? || st.ReturningHome?
  {
    if st.Monitor? then Pausing(st.missionId) else PausingReturnHome
  }

  lemma PauseReactions(st: SmState, limit: int)
    requires st.Monitor? || st.ReturningHome?
    ensures Request(PauseMission) in Table(st) && MissionSuccessfullyPaused in Table(PausingOf(st))
    ensures React(st, limit, Request(PauseMission), Empty).next == Some(PausingOf(st))
    ensures React(PausingOf(st), limit, MissionSuccessfullyPaused, Empty).next == Some(PausedOf(st))
    ensures React(PausingOf(st), limit, MissionSuccessfullyPaused, Empty).reports
            == if st.Monitor? then [Report(st.missionId, MissionStatus.Paused)] else []
  {}

  /** The running counterpart of a mission or a return home that is paused. */
  function RunningOf(st: SmState): SmState
    requires st.Paused? || st.ReturnHomePaused?
  {
    if st.Paused? then Monitor(st.missionId) else ReturningHome(0)
  }

  function ResumingOf(st: SmState): SmState
    requires st.Paused? || st.ReturnHomePaused?
  {
    if st.Paused? then Resuming(st.missionId) else ResumingReturnHome
  }

  lemma ResumeReactions(st: SmState, limit: int)
    requires st.Paused? || st.ReturnHomePaused?
    ensures Request(ResumeMission) in Table(st) && MissionSuccessfullyResumed in Table(ResumingOf(st))
    ensures React(st, limit, Request(ResumeMission), Empty).next == Some(ResumingOf(st))
    ensures var back := React(ResumingOf(st), limit, MissionSuccessfullyResumed, Empty);
            back.next.Some? && SameActivity(back.next.value, RunningOf(st))
            && back.reports == if st.Paused? then [Report(st.missionId, MissionStatus.InProgress)] else []
  {}
}
