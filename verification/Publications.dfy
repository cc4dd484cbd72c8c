/** What the state machine publishes about missions, and when a mission ends without a word. */
module Publications {
  import opened Missions
  import opened Events
  import opened Scripts
  import opened States
  import opened Reactions
  import opened Entries

  /** The user mission that the state machine can name. */
  function Tracked(st: SmState): Option<string> {
    match st
    case Monitor(id) => Some(id)
    case Pausing(id) => Some(id)
    case Paused(id) => Some(id)
    case Resuming(id) => Some(id)
    case Stopping(id) => Some(id)
    case StoppingPausedMission(id) => Some(id)
    case StoppingGoToLockdown(id) => Some(id)
    case StoppingDueToMaintenance(id) => id
    case GoingToRechargingWithMission(m) => Some(m.id)
    case RechargingWithMission(m) => Some(m.id)
    case _ => None
  }

  /** What is published, and when: a status exactly after the event that it tells of. */
  ghost predicate Published(st: SmState, ch: Channel, r: Reaction, p: Publication) {
    match p
    case MissionStatusMessage(id, NotStarted) => r.next == Some(Monitor(id)) && r.script.command.Some?
    case MissionStatusMessage(id, InProgress) =>
      (st == Monitor(id) && ch.MissionStartedSuccessfully?) || (st == Resuming(id) && ch.MissionSuccessfullyResumed?)
    case MissionStatusMessage(id, Paused) => st == Pausing(id) && ch.MissionSuccessfullyPaused?
    case MissionStatusMessage(id, Failed) => Tracked(st) == Some(id) && ch.MissionFailed?
    case MissionStatusMessage(id, Successful) => st == Monitor(id) && ch.MissionSucceeded?
    case MissionStatusMessage(id, Cancelled) =>
      (st == Stopping(id) || st == StoppingPausedMission(id)) && HasStopped(ch)
    case MissionStatusMessage(id, PartiallySuccessful) => false
    case MissionAbortedMessage(id) =>
      (st == StoppingGoToLockdown(id) || (st == StoppingDueToMaintenance(Some(id)) && id != "")) && HasStopped(ch)
    case InterventionNeededMessage => r.next == Some(InterventionNeeded)
  }

  /** The publication says how the mission ended. */
  predicate IsFinal(p: Publication, id: string) {
    match p
    case MissionStatusMessage(i, s) => i == id && (s.Failed? || s.Successful? || s.Cancelled?)
    case MissionAbortedMessage(i) => i == id
    case InterventionNeededMessage => false
  }

  /**
   The ways in which the state machine loses track of a mission without a final word: it is being stopped to recharge,
   it is held for after the recharge and something else comes in between, or it has the empty id.
   */
  predicate IsSilent(st: SmState, ch: Channel) {
    match st
    case Monitor(_) => ch.BatteryBelowMissionThreshold?
    case Paused(_) => ch.BatteryBelowMissionThreshold?
    case GoingToRechargingWithMission(_) => ch.Request?
    case RechargingWithMission(_) => true
    case StoppingDueToMaintenance(id) => ch.MissionFailedToStop? || id == Some("")
    case _ => false
  }

  ghost predicate IsAnnounced(st: SmState, ch: Channel, r: Reaction) {
    var id := Tracked(st);
    id.Some? && Tracked(After(st, r)) != id ==>
      (r.reports != [] && IsFinal(r.reports[0], id.value) <==> !IsSilent(st, ch))
  }

  ghost predicate Accounted(st: SmState, ch: Channel, r: Reaction) {
    && (forall p :: p in r.reports <==> Published(st, ch, r, p))
    && (forall i, j :: 0 <= i < j < |r.reports| ==> r.reports[i] != r.reports[j])
    && IsAnnounced(st, ch, r)
  }

  lemma AccountedMonitor(id: string, ch: Channel, msg: Message)
    requires ch in Table(Monitor(id)) && Carries(ch, msg)
    ensures Accounted(Monitor(id), ch, MonitorHandler(id, ch, msg))
  {}

  lemma AccountedReturningHome(n: int, limit: int, ch: Channel, msg: Message)
    requires ch in Table(ReturningHome(n)) && Carries(ch, msg)
    ensures Accounted(ReturningHome(n), ch, ReturningHomeHandler(n, limit, ch, msg))
  {}

  lemma AccountedPaused(id: string, ch: Channel, msg: Message)
    requires ch in Table(SmState.Paused(id)) && Carries(ch, msg)
    ensures Accounted(SmState.Paused(id), ch, PausedHandler(id, ch, msg))
  {}

  lemma AccountedReturnHomePaused(limit: int, ch: Channel, msg: Message)
    requires ch in Table(ReturnHomePaused) && Carries(ch, msg)
    ensures Accounted(ReturnHomePaused, ch, ReturnHomePausedHandler(limit, ch, msg))
  {}

  lemma AccountedAwaitNextMission(limit: int, ch: Channel, msg: Message)
    requires ch in Table(AwaitNextMission) && Carries(ch, msg)
    ensures Accounted(AwaitNextMission, ch, AwaitNextMissionHandler(limit, ch, msg))
  {}

  lemma AccountedHome(limit: int, ch: Channel, msg: Message)
    requires ch in Table(SmState.Home) && Carries(ch, msg)
    ensures Accounted(SmState.Home, ch, HomeHandler(limit, ch, msg))
  {}

  lemma AccountedOffline(ch: Channel, msg: Message)
    requires ch in Table(SmState.Offline) && Carries(ch, msg)
    ensures Accounted(SmState.Offline, ch, OfflineHandler(ch, msg))
  {}

  lemma AccountedUnknownStatus(ch: Channel, msg: Message)
    requires ch in Table(UnknownStatus) && Carries(ch, msg)
    ensures Accounted(UnknownStatus, ch, UnknownStatusHandler(ch, msg))
  {}

  lemma AccountedInterventionNeeded(limit: int, ch: Channel, msg: Message)
    requires ch in Table(InterventionNeeded) && Carries(ch, msg)
    ensures Accounted(InterventionNeeded, ch, InterventionNeededHandler(limit, ch, msg))
  {}

  lemma AccountedRecharging(ch: Channel, msg: Message)
    requires ch in Table(Recharging) && Carries(ch, msg)
    ensures Accounted(Recharging, ch, RechargingHandler(ch, msg))
  {}

  lemma AccountedRechargingWithMission(m: Mission, ch: Channel, msg: Message)
    requires ch in Table(RechargingWithMission(m)) && Carries(ch, msg)
    ensures Accounted(RechargingWithMission(m), ch, RechargingWithMissionHandler(m, ch, msg))
  {}

  lemma AccountedGoingToLockdown(ch: Channel, msg: Message)
    requires ch in Table(GoingToLockdown) && Carries(ch, msg)
    ensures Accounted(GoingToLockdown, ch, GoingToLockdownHandler(ch, msg))
  {}

  lemma AccountedGoingToRecharging(ch: Channel, msg: Message)
    requires ch in Table(GoingToRecharging) && Carries(ch, msg)
    ensures Accounted(GoingToRecharging, ch, GoingToRechargingHandler(ch, msg))
  {}

  lemma AccountedGoingToRechargingWithMission(m: Mission, ch: Channel, msg: Message)
    requires ch in Table(GoingToRechargingWithMission(m)) && Carries(ch, msg)
    ensures Accounted(GoingToRechargingWithMission(m), ch, GoingToRechargingWithMissionHandler(m, ch, msg))
  {}

  lemma AccountedMissionStop(st: SmState, limit: int, ch: Channel, msg: Message)
    requires st.Stopping? || st.StoppingPausedMission? || st.StoppingUnknownMission?
    requires ch in STOP_OUTCOMES && Carries(ch, msg)
    ensures Accounted(st, ch, StoppingHandler(st, limit, ch, msg))
  {}

  lemma AccountedReturnHomeStop(st: SmState, limit: int, ch: Channel, msg: Message)
    requires st.StoppingReturnHome? || st.StoppingPausedReturnHome?
    requires ch in STOP_OUTCOMES && Carries(ch, msg)
    ensures Accounted(st, ch, StoppingHandler(st, limit, ch, msg))
  {}

  lemma AccountedOtherStop(st: SmState, limit: int, ch: Channel, msg: Message)
    requires st.StoppingGoToLockdown? || st.StoppingGoToRecharge? || st.StoppingDueToMaintenance?
    requires ch in STOP_OUTCOMES && Carries(ch, msg)
    ensures Accounted(st, ch, StoppingHandler(st, limit, ch, msg))
  {}

  lemma AccountedStopping(st: SmState, limit: int, ch: Channel, msg: Message)
    requires IsStopping(st) && ch in STOP_OUTCOMES && Carries(ch, msg)
    ensures Accounted(st, ch, StoppingHandler(st, limit, ch, msg))
  {
    if st.Stopping? || st.StoppingPausedMission? || st.StoppingUnknownMission? {
      AccountedMissionStop(st, limit, ch, msg);
    } else if st.StoppingReturnHome? || st.StoppingPausedReturnHome? {
      AccountedReturnHomeStop(st, limit, ch, msg);
    } else {
      AccountedOtherStop(st, limit, ch, msg);
    }
  }

  lemma AccountedPauseOrResume(st: SmState, limit: int, ch: Channel, msg: Message)
    requires st.Pausing? || st.PausingReturnHome? || st.Resuming? || st.ResumingReturnHome?
    requires ch in Table(st) && Carries(ch, msg)
    ensures Accounted(st, ch, React(st, limit, ch, msg))
  {}

  /**
   In every state: exactly what has happened to the mission that is being tracked is published, once, and when the state
   machine loses track of a mission it publishes first how that ended, except in the listed cases and in all of those.
   */
  lemma EveryReactionIsAccounted(st: SmState, limit: int, ch: Channel, msg: Message)
    requires ch in Table(st) && Carries(ch, msg)
    ensures Accounted(st, ch, React(st, limit, ch, msg))
  {
    match st
    case Monitor(id) => AccountedMonitor(id, ch, msg);
    case ReturningHome(n) => AccountedReturningHome(n, limit, ch, msg);
    case Paused(id) => AccountedPaused(id, ch, msg);
    case ReturnHomePaused => AccountedReturnHomePaused(limit, ch, msg);
    case AwaitNextMission => AccountedAwaitNextMission(limit, ch, msg);
    case Home => AccountedHome(limit, ch, msg);
    case Offline => AccountedOffline(ch, msg);
    case UnknownStatus => AccountedUnknownStatus(ch, msg);
    case InterventionNeeded => AccountedInterventionNeeded(limit, ch, msg);
    case Recharging => AccountedRecharging(ch, msg);
    case RechargingWithMission(m) => AccountedRechargingWithMission(m, ch, msg);
    case GoingToLockdown => AccountedGoingToLockdown(ch, msg);
    case GoingToRecharging => AccountedGoingToRecharging(ch, msg);
    case GoingToRechargingWithMission(m) => AccountedGoingToRechargingWithMission(m, ch, msg);
    case Pausing(_) => AccountedPauseOrResume(st, limit, ch, msg);
    case PausingReturnHome => AccountedPauseOrResume(st, limit, ch, msg);
    case Resuming(_) => AccountedPauseOrResume(st, limit, ch, msg);
    case ResumingReturnHome => AccountedPauseOrResume(st, limit, ch, msg);
    case Lockdown =>
    case Maintenance =>
    case _ => AccountedStopping(st, limit, ch, msg);
  }

  /** A mission that is held for after the recharge is stopped: the request is answered, but nothing is published. */
  lemma SilentStop(m: Mission, limit: int)
    ensures var st := RechargingWithMission(m);
            && Request(StopMission) in Table(st)
            && var r := React(st, limit, Request(StopMission), OfId(m.id));
               && Tracked(st) == Some(m.id) && Tracked(After(st, r)) == None
               && r.script.reply == Some(Reply(StopMission, true)) && r.reports == []
  {}
}
