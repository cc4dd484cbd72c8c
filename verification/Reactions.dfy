/** What every reaction of the state machine conserves, state by state. */
module Reactions {
  import opened Missions
  import opened Events
  import opened Scripts
  import opened States

  /** The state after a reaction. */
  function After(st: SmState, r: Reaction): SmState { if r.next.Some? then r.next.value else st }

  /** The API event whose reply is put off until the stop has been answered. */
  function Owed(st: SmState): Option<Api> {
    if st.StoppingGoToLockdown? then Some(SendToLockdown)
    else if st.StoppingDueToMaintenance? then Some(SetMaintenanceMode)
    else None
  }

  predicate HoldsFresh(st: SmState) { st.StoppingReturnHome? || st.StoppingPausedReturnHome? }
  predicate HoldsAborted(st: SmState) { st.GoingToRechargingWithMission? || st.RechargingWithMission? }

  /** The mission that a state carries: accepted and waiting for a stop, or aborted and waiting for the battery. */
  function Held(st: SmState, origin: Origin): Option<Mission> {
    match origin
    case FreshFromApi => if HoldsFresh(st) then Some(st.mission) else None
    case Relaunch => if HoldsAborted(st) then Some(st.mission) else None
  }

  /** The mission that an event brings in. */
  function Arriving(st: SmState, ch: Channel, msg: Message, origin: Origin): Option<Mission>
    requires Carries(ch, msg)
  {
    match origin
    case FreshFromApi => if ch == Request(StartMission) then Some(msg.mission) else None
    case Relaunch => if ch.MissionSuccessfullyStopped? && st.StoppingGoToRecharge? then Some(msg.mission) else None
  }

  /** A start request accepted during a return home is lost when that return home cannot be stopped. */
  predicate LosesFresh(st: SmState, ch: Channel) { HoldsFresh(st) && ch.MissionFailedToStop? }

  /** The ways in which a mission held for after the recharge is given up. */
  predicate GivesUp(st: SmState, ch: Channel, msg: Message)
    requires Carries(ch, msg)
  {
    HoldsAborted(st) &&
    match ch
    case MissionFailed => true
    case Request(SendToLockdown) => true
    case Request(SetMaintenanceMode) => true
    case RobotStatusUpdate => msg.status.Offline?
    case Request(StopMission) => StopMatches(st.mission.id, msg.id)
    case _ => false
  }

  predicate Leaves(st: SmState, ch: Channel, msg: Message, origin: Origin)
    requires Carries(ch, msg)
  {
    (origin.FreshFromApi? && LosesFresh(st, ch)) || (origin.Relaunch? && GivesUp(st, ch, msg))
  }

  /** A mission handed to the monitor out of a stopped return home gets a second reply. */
  predicate HandsOver(st: SmState, ch: Channel) { HoldsFresh(st) && !ch.MissionFailedToStop? }

  function Launched(r: Reaction, origin: Origin): Option<Mission> {
    if r.script.command.Some? && r.script.command.value.Start? && r.script.command.value.origin == origin
    then Some(r.script.command.value.mission) else None
  }

  function Replied(r: Reaction): Option<Api> {
    if r.script.reply.Some? then Some(r.script.reply.value.api) else None
  }

  /** A stop or pause command is put exactly when a stopping or pausing state is entered; those are left at once. */
  ghost predicate CommandsBalanced(st: SmState, r: Reaction) {
    var after := After(st, r);
    && (r.script.command == Some(Stop) <==> IsStopping(after))
    && (r.script.command == Some(Pause) <==> IsPausing(after))
    && (IsStopping(st) ==> !IsStopping(after))
    && (IsPausing(st) ==> !IsPausing(after))
  }

  /** An owed reply is sent on leaving; a request is answered at once unless the next state owes the answer. */
  ghost predicate RepliesBalanced(st: SmState, ch: Channel, r: Reaction) {
    var owed := Owed(After(st, r));
    && (owed.Some? ==> ch == Request(owed.value))
    && Replied(r) ==
       if Owed(st).Some? then Owed(st)
       else if HandsOver(st, ch) then Some(StartMission)
       else if ch.Request? && owed.None? then Some(ch.api)
       else None
  }

  /** What is held or arrives is launched, still held, or lost in a named way; nothing else is launched or held. */
  ghost predicate MissionsBalanced(st: SmState, ch: Channel, msg: Message, r: Reaction, origin: Origin)
    requires Carries(ch, msg)
  {
    var coming := if Held(st, origin).Some? then Held(st, origin) else Arriving(st, ch, msg, origin);
    var kept := Held(After(st, r), origin);
    && (kept.Some? ==> kept == coming && !Leaves(st, ch, msg, origin))
    && Launched(r, origin) == if kept.Some? || Leaves(st, ch, msg, origin) then None else coming
  }

  ghost predicate Balanced(st: SmState, ch: Channel, msg: Message, r: Reaction)
    requires Carries(ch, msg)
  {
    && CommandsBalanced(st, r)
    && RepliesBalanced(st, ch, r)
    && MissionsBalanced(st, ch, msg, r, FreshFromApi)
    && MissionsBalanced(st, ch, msg, r, Relaunch)
  }

  // ---------------------------------------------------------------- one lemma for each file of states

  lemma BalancedMonitor(id: string, ch: Channel, msg: Message)
    requires ch in Table(Monitor(id)) && Carries(ch, msg)
    ensures Balanced(Monitor(id), ch, msg, MonitorHandler(id, ch, msg))
  {}

  lemma BalancedReturningHomeEvent(n: int, limit: int, ch: Channel, msg: Message)
    requires ch in Table(ReturningHome(n)) && Carries(ch, msg) && !ch.Request?
    ensures Balanced(ReturningHome(n), ch, msg, ReturningHomeHandler(n, limit, ch, msg))
  {}

  lemma BalancedReturningHomeRequest(n: int, limit: int, ch: Channel, msg: Message)
    requires ch in Table(ReturningHome(n)) && Carries(ch, msg) && ch.Request?
    ensures Balanced(ReturningHome(n), ch, msg, ReturningHomeHandler(n, limit, ch, msg))
  {}

  lemma BalancedPaused(id: string, ch: Channel, msg: Message)
    requires ch in Table(SmState.Paused(id)) && Carries(ch, msg)
    ensures Balanced(SmState.Paused(id), ch, msg, PausedHandler(id, ch, msg))
  {}

  lemma BalancedReturnHomePaused(limit: int, ch: Channel, msg: Message)
    requires ch in Table(ReturnHomePaused) && Carries(ch, msg)
    ensures Balanced(ReturnHomePaused, ch, msg, ReturnHomePausedHandler(limit, ch, msg))
  {}

  lemma BalancedAwaitNextMissionEvent(limit: int, ch: Channel, msg: Message)
    requires ch in Table(AwaitNextMission) && Carries(ch, msg) && !ch.Request?
    ensures Balanced(AwaitNextMission, ch, msg, AwaitNextMissionHandler(limit, ch, msg))
  {}

  lemma BalancedAwaitNextMissionRequest(limit: int, ch: Channel, msg: Message)
    requires ch in Table(AwaitNextMission) && Carries(ch, msg) && ch.Request?
    ensures Balanced(AwaitNextMission, ch, msg, AwaitNextMissionHandler(limit, ch, msg))
  {}

  lemma BalancedHomeEvent(limit: int, ch: Channel, msg: Message)
    requires ch in Table(SmState.Home) && Carries(ch, msg) && !ch.Request?
    ensures Balanced(SmState.Home, ch, msg, HomeHandler(limit, ch, msg))
  {
    assert ch == RobotStatusUpdate || ch == BatteryBelowMissionThreshold;
  }

  lemma BalancedHomeRequest(limit: int, ch: Channel, msg: Message)
    requires ch in Table(SmState.Home) && Carries(ch, msg) && ch.Request?
    ensures Balanced(SmState.Home, ch, msg, HomeHandler(limit, ch, msg))
  {}

  lemma BalancedOfflineEvent(ch: Channel, msg: Message)
    requires ch in Table(SmState.Offline) && Carries(ch, msg) && !ch.Request?
    ensures Balanced(SmState.Offline, ch, msg, OfflineHandler(ch, msg))
  {
    assert ch == RobotStatusUpdate;
  }

  lemma BalancedOfflineRequest(ch: Channel, msg: Message)
    requires ch in Table(SmState.Offline) && Carries(ch, msg) && ch.Request?
    ensures Balanced(SmState.Offline, ch, msg, OfflineHandler(ch, msg))
  {}

  lemma BalancedUnknownStatusEvent(ch: Channel, msg: Message)
    requires ch in Table(UnknownStatus) && Carries(ch, msg) && !ch.Request?
    ensures Balanced(UnknownStatus, ch, msg, UnknownStatusHandler(ch, msg))
  {
    assert ch == RobotStatusUpdate;
  }

  lemma BalancedUnknownStatusRequest(ch: Channel, msg: Message)
    requires ch in Table(UnknownStatus) && Carries(ch, msg) && ch.Request?
    ensures Balanced(UnknownStatus, ch, msg, UnknownStatusHandler(ch, msg))
  {}

  lemma BalancedInterventionNeededEvent(limit: int, ch: Channel, msg: Message)
    requires ch in Table(InterventionNeeded) && Carries(ch, msg) && !ch.Request?
    ensures Balanced(InterventionNeeded, ch, msg, InterventionNeededHandler(limit, ch, msg))
  {
    assert ch == RobotStatusUpdate;
  }

  lemma BalancedInterventionNeededRequest(limit: int, ch: Channel, msg: Message)
    requires ch in Table(InterventionNeeded) && Carries(ch, msg) && ch.Request?
    ensures Balanced(InterventionNeeded, ch, msg, InterventionNeededHandler(limit, ch, msg))
  {}

  lemma BalancedRecharging(ch: Channel, msg: Message)
    requires ch in Table(Recharging) && Carries(ch, msg)
    ensures Balanced(Recharging, ch, msg, RechargingHandler(ch, msg))
  {
    assert ch == BatteryAboveRechargeThreshold || ch == RobotStatusUpdate || ch == Request(SendToLockdown)
           || ch == Request(SetMaintenanceMode);
  }

  lemma BalancedRechargingWithMissionEvent(held: Mission, ch: Channel, msg: Message)
    requires ch in Table(RechargingWithMission(held)) && Carries(ch, msg) && !ch.Request?
    ensures Balanced(RechargingWithMission(held), ch, msg, RechargingWithMissionHandler(held, ch, msg))
  {
    assert ch == BatteryAboveRechargeThreshold || ch == RobotStatusUpdate;
  }

  lemma BalancedRechargingWithMissionRequest(held: Mission, ch: Channel, msg: Message)
    requires ch in Table(RechargingWithMission(held)) && Carries(ch, msg) && ch.Request?
    ensures Balanced(RechargingWithMission(held), ch, msg, RechargingWithMissionHandler(held, ch, msg))
  {
    assert ch == Request(SendToLockdown) || ch == Request(SetMaintenanceMode) || ch == Request(StopMission);
  }

  lemma BalancedGoingToLockdown(ch: Channel, msg: Message)
    requires ch in Table(GoingToLockdown) && Carries(ch, msg)
    ensures Balanced(GoingToLockdown, ch, msg, GoingToLockdownHandler(ch, msg))
  {}

  lemma BalancedGoingToRecharging(ch: Channel, msg: Message)
    requires ch in Table(GoingToRecharging) && Carries(ch, msg)
    ensures Balanced(GoingToRecharging, ch, msg, GoingToRechargingHandler(ch, msg))
  {}

  lemma BalancedGoingToRechargingWithMissionEvent(held: Mission, ch: Channel, msg: Message)
    requires ch in Table(GoingToRechargingWithMission(held)) && Carries(ch, msg) && !ch.Request?
    ensures Balanced(GoingToRechargingWithMission(held), ch, msg, GoingToRechargingWithMissionHandler(held, ch, msg))
  {}

  lemma BalancedGoingToRechargingWithMissionRequest(held: Mission, ch: Channel, msg: Message)
    requires ch in Table(GoingToRechargingWithMission(held)) && Carries(ch, msg) && ch.Request?
    ensures Balanced(GoingToRechargingWithMission(held), ch, msg, GoingToRechargingWithMissionHandler(held, ch, msg))
  {}

  lemma BalancedMissionStops(st: SmState, limit: int, ch: Channel, msg: Message)
    requires ch in STOP_OUTCOMES && Carries(ch, msg) && (st.Stopping? || st.StoppingPausedMission?)
    ensures Balanced(st, ch, msg, StoppingHandler(st, limit, ch, msg))
  {}

  lemma BalancedUnknownStop(st: SmState, limit: int, ch: Channel, msg: Message)
    requires ch in STOP_OUTCOMES && Carries(ch, msg) && st.StoppingUnknownMission?
    ensures Balanced(st, ch, msg, StoppingHandler(st, limit, ch, msg))
  {}

  lemma BalancedHoldingStops(st: SmState, limit: int, ch: Channel, msg: Message)
    requires ch in STOP_OUTCOMES && Carries(ch, msg) && (st.StoppingReturnHome? || st.StoppingPausedReturnHome?)
    ensures Balanced(st, ch, msg, StoppingHandler(st, limit, ch, msg))
  {}

  lemma BalancedLockdownStop(st: SmState, limit: int, ch: Channel, msg: Message)
    requires ch in STOP_OUTCOMES && Carries(ch, msg) && st.StoppingGoToLockdown?
    ensures Balanced(st, ch, msg, StoppingHandler(st, limit, ch, msg))
  {}

  lemma BalancedMaintenanceStop(st: SmState, limit: int, ch: Channel, msg: Message)
    requires ch in STOP_OUTCOMES && Carries(ch, msg) && st.StoppingDueToMaintenance?
    ensures Balanced(st, ch, msg, StoppingHandler(st, limit, ch, msg))
  {}

  lemma BalancedRechargeStop(st: SmState, limit: int, ch: Channel, msg: Message)
    requires ch in STOP_OUTCOMES && Carries(ch, msg) && (st.StoppingGoToRecharge?)
    ensures Balanced(st, ch, msg, StoppingHandler(st, limit, ch, msg))
  {}

  lemma BalancedPauses(st: SmState, limit: int, ch: Channel, msg: Message)
    requires ch in Table(st) && Carries(ch, msg) && (IsPausing(st))
    ensures Balanced(st, ch, msg, React(st, limit, ch, msg))
  {}

  lemma BalancedResumes(st: SmState, limit: int, ch: Channel, msg: Message)
    requires ch in Table(st) && Carries(ch, msg) && (st.Resuming? || st.ResumingReturnHome?)
    ensures Balanced(st, ch, msg, React(st, limit, ch, msg))
  {}

  lemma BalancedReleases(st: SmState, limit: int, ch: Channel, msg: Message)
    requires ch in Table(st) && Carries(ch, msg) && (st.Lockdown? || st.Maintenance?)
    ensures Balanced(st, ch, msg, React(st, limit, ch, msg))
  {}

  /** Every reaction of every state is balanced. */
  lemma ReactionBalanced(st: SmState, limit: int, ch: Channel, msg: Message)
    requires ch in Table(st) && Carries(ch, msg)
    ensures Balanced(st, ch, msg, React(st, limit, ch, msg))
  {
    match st
    case Monitor(id) => BalancedMonitor(id, ch, msg);
    case ReturningHome(n) =>
      if ch.Request? {
        BalancedReturningHomeRequest(n, limit, ch, msg);
      } else {
        BalancedReturningHomeEvent(n, limit, ch, msg);
      }
    case Paused(id) => BalancedPaused(id, ch, msg);
    case ReturnHomePaused => BalancedReturnHomePaused(limit, ch, msg);
    case AwaitNextMission =>
      if ch.Request? {
        BalancedAwaitNextMissionRequest(limit, ch, msg);
      } else {
        BalancedAwaitNextMissionEvent(limit, ch, msg);
      }
    case Home =>
      if ch.Request? {
        BalancedHomeRequest(limit, ch, msg);
      } else {
        BalancedHomeEvent(limit, ch, msg);
      }
    case Offline =>
      if ch.Request? {
        BalancedOfflineRequest(ch, msg);
      } else {
        BalancedOfflineEvent(ch, msg);
      }
    case UnknownStatus =>
      if ch.Request? {
        BalancedUnknownStatusRequest(ch, msg);
      } else {
        BalancedUnknownStatusEvent(ch, msg);
      }
    case InterventionNeeded =>
      if ch.Request? {
        BalancedInterventionNeededRequest(limit, ch, msg);
      } else {
        BalancedInterventionNeededEvent(limit, ch, msg);
      }
    case Recharging => BalancedRecharging(ch, msg);
    case RechargingWithMission(held) =>
      if ch.Request? {
        BalancedRechargingWithMissionRequest(held, ch, msg);
      } else {
        BalancedRechargingWithMissionEvent(held, ch, msg);
      }
    case GoingToLockdown => BalancedGoingToLockdown(ch, msg);
    case GoingToRecharging => BalancedGoingToRecharging(ch, msg);
    case GoingToRechargingWithMission(held) =>
      if ch.Request? {
        BalancedGoingToRechargingWithMissionRequest(held, ch, msg);
      } else {
        BalancedGoingToRechargingWithMissionEvent(held, ch, msg);
      }
    case Stopping(_) => BalancedMissionStops(st, limit, ch, msg);
    case StoppingPausedMission(_) => BalancedMissionStops(st, limit, ch, msg);
    case StoppingUnknownMission => BalancedUnknownStop(st, limit, ch, msg);
    case StoppingReturnHome(_) => BalancedHoldingStops(st, limit, ch, msg);
    case StoppingPausedReturnHome(_) => BalancedHoldingStops(st, limit, ch, msg);
    case StoppingGoToLockdown(_) => BalancedLockdownStop(st, limit, ch, msg);
    case StoppingDueToMaintenance(_) => BalancedMaintenanceStop(st, limit, ch, msg);
    case StoppingGoToRecharge => BalancedRechargeStop(st, limit, ch, msg);
    case Pausing(_) => BalancedPauses(st, limit, ch, msg);
    case PausingReturnHome => BalancedPauses(st, limit, ch, msg);
    case Resuming(_) => BalancedResumes(st, limit, ch, msg);
    case ResumingReturnHome => BalancedResumes(st, limit, ch, msg);
    case Lockdown => BalancedReleases(st, limit, ch, msg);
    case Maintenance => BalancedReleases(st, limit, ch, msg);
  }
}
