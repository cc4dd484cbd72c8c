/**
 The stored operating mode: `update_state` writes it after every transition, the constructor of the state machine
 recovers from it (src/isar/state_machine/state_machine.py), with the database in use.
 */
module Persistence {
  import opened Missions
  import opened Events
  import opened Scripts
  import opened States
  import opened Reactions

  datatype StartupMode = NormalMode | MaintenanceMode | LockdownMode

  /** The mode that `update_state` stores for a state. */
  function ModeOf(st: SmState): StartupMode {
    if st.StoppingGoToLockdown? || st.GoingToLockdown? || st.Lockdown? then LockdownMode
    else if st.Maintenance? then MaintenanceMode
    else NormalMode
  }

  /** A robot that has no row yet gets one in maintenance mode. */
  function ReadOrCreate(row: Option<StartupMode>): StartupMode {
    if row.Some? then row.value else MaintenanceMode
  }

  function StartState(mode: StartupMode): SmState {
    match mode
    case MaintenanceMode => Maintenance
    case LockdownMode => GoingToLockdown
    case NormalMode => UnknownStatus
  }

  /** Why the state machine is in its current state. */
  datatype Cause = Started | Event(from: SmState, ch: Channel, msg: Message) | Timer(from: SmState)

  /**
   The process and its row in the database.  `updated` says whether `update_state` has run since the last transition;
   `settled` is the state in which it last ran, or in which the process started.
   */
  datatype Node = Node(current: SmState, updated: bool, row: Option<StartupMode>, settled: SmState, cause: Cause)

  datatype NodeAction = Update | Handle(ch: Channel, msg: Message) | TimeUp | Crash

  function Boot(row: Option<StartupMode>): Node {
    var mode := ReadOrCreate(row);
    Node(StartState(mode), false, Some(mode), StartState(mode), Started)
  }

  /** A crash can come at any time; handlers and the timer run only after `update_state`. */
  predicate NodeEnabled(n: Node, a: NodeAction) {
    match a
    case Update => !n.updated
    case Handle(ch, msg) => n.updated && ch in Table(n.current) && Carries(ch, msg)
    case TimeUp => n.updated && HasTimer(n.current)
    case Crash => true
  }

  function Moved(n: Node, r: Reaction, cause: Cause): Node {
    if r.next.Some? then n.(current := r.next.value, updated := false, cause := cause) else n
  }

  function NodeStep(n: Node, limit: int, a: NodeAction): Node
    requires NodeEnabled(n, a)
  {
    match a
    case Update => n.(row := Some(ModeOf(n.current)), updated := true, settled := n.current)
    case Handle(ch, msg) => Moved(n, React(n.current, limit, ch, msg), Event(n.current, ch, msg))
    case TimeUp => Moved(n, TimerReaction(limit), Timer(n.current))
    case Crash => Boot(n.row)
  }

  ghost predicate NodeCanRun(n: Node, limit: int, run: seq<NodeAction>)
    decreases |run|
  {
    run == [] || (NodeEnabled(n, run[0]) && NodeCanRun(NodeStep(n, limit, run[0]), limit, run[1..]))
  }

  ghost function NodeRun(n: Node, limit: int, run: seq<NodeAction>): Node
    requires NodeCanRun(n, limit, run)
    decreases |run|
  {
    if run == [] then n else NodeRun(NodeStep(n, limit, run[0]), limit, run[1..])
  }

  /** The current state is what its cause leads to from the settled one. */
  ghost predicate Follows(n: Node, limit: int) {
    match n.cause
    case Started => n.current == n.settled
    case Event(from, ch, msg) =>
      ch in Table(from) && Carries(ch, msg) && React(from, limit, ch, msg).next == Some(n.current)
      && (!n.updated ==> from == n.settled)
    case Timer(from) =>
      HasTimer(from) && TimerReaction(limit).next == Some(n.current) && (!n.updated ==> from == n.settled)
  }

  ghost predicate NodeInv(n: Node, limit: int) {
    && n.row == Some(ModeOf(n.settled))
    && (n.updated ==> n.current == n.settled)
    && Follows(n, limit)
  }

  lemma BootInv(row: Option<StartupMode>, limit: int)
    ensures NodeInv(Boot(row), limit)
  {}

  lemma NodeStepKeepsInv(n: Node, limit: int, a: NodeAction)
    requires NodeInv(n, limit) && NodeEnabled(n, a)
    ensures NodeInv(NodeStep(n, limit, a), limit)
  {}

  lemma {:induction false} NodeRunKeepsInv(n: Node, limit: int, run: seq<NodeAction>)
    requires NodeInv(n, limit) && NodeCanRun(n, limit, run)
    ensures NodeInv(NodeRun(n, limit, run), limit)
    decreases |run|
  {
    if run == [] {
    } else {
      NodeStepKeepsInv(n, limit, run[0]);
      NodeRunKeepsInv(NodeStep(n, limit, run[0]), limit, run[1..]);
    }
  }

  /**
   After any run with any number of crashes: the row holds the mode of the current state once `update_state` has run,
   and until then the mode of the state before the last transition.
   */
  lemma RowLagsByOneTransition(row: Option<StartupMode>, limit: int, run: seq<NodeAction>)
    requires NodeCanRun(Boot(row), limit, run)
    ensures var n := NodeRun(Boot(row), limit, run);
            && (n.updated ==> n.row == Some(ModeOf(n.current)))
            && (!n.updated && n.cause.Started? ==> n.row == Some(ModeOf(n.current)))
            && (!n.updated && !n.cause.Started? ==> n.row == Some(ModeOf(n.cause.from)))
  {
    BootInv(row, limit);
    NodeRunKeepsInv(Boot(row), limit, run);
  }

  /** A restart enters a state of the stored mode. */
  lemma RestartHasTheStoredMode(row: Option<StartupMode>)
    ensures var n := Boot(row);
            && ModeOf(n.current) == ReadOrCreate(row)
            && n.row == Some(ReadOrCreate(row))
  {}

  // ---------------------------------------------------------------- how the restricted modes end

  /** An event that is allowed to end lockdown: a release, a failed stop, a failed return home or a failed resume. */
  predicate EndsLockdown(from: SmState, ch: Channel) {
    (from.Lockdown? && ch == Request(ReleaseFromLockdown)) ||
    (from.StoppingGoToLockdown? && ch.MissionFailedToStop?) ||
    (from.GoingToLockdown? && (ch.MissionFailed? || ch.MissionFailedToResume?))
  }

  predicate EndsMaintenance(from: SmState, ch: Channel) {
    from.Maintenance? && ch == Request(ReleaseFromMaintenanceMode)
  }

  /** The reaction launches nothing and leaves the mode only by an event that may end it. */
  predicate IsRestricted(st: SmState, ch: Channel, r: Reaction) {
    && Launched(r, FreshFromApi) == None && Launched(r, Relaunch) == None
    && (ModeOf(st).MaintenanceMode? && ModeOf(After(st, r)) != ModeOf(st) ==> EndsMaintenance(st, ch))
    && (ModeOf(st).LockdownMode? && ModeOf(After(st, r)) != ModeOf(st) ==> EndsLockdown(st, ch))
  }

  lemma RestrictedGoingToLockdown(ch: Channel, msg: Message)
    requires ch in Table(GoingToLockdown) && Carries(ch, msg)
    ensures IsRestricted(GoingToLockdown, ch, GoingToLockdownHandler(ch, msg))
  {}

  lemma RestrictedStoppingGoToLockdown(id: string, limit: int, ch: Channel, msg: Message)
    requires ch in STOP_OUTCOMES && Carries(ch, msg)
    ensures IsRestricted(StoppingGoToLockdown(id), ch, StoppingHandler(StoppingGoToLockdown(id), limit, ch, msg))
  {}

  lemma RestrictedReactions(st: SmState, limit: int, ch: Channel, msg: Message)
    requires ch in Table(st) && Carries(ch, msg) && !ModeOf(st).NormalMode?
    ensures IsRestricted(st, ch, React(st, limit, ch, msg))
  {
    match st
    case GoingToLockdown => RestrictedGoingToLockdown(ch, msg);
    case StoppingGoToLockdown(id) => RestrictedStoppingGoToLockdown(id, limit, ch, msg);
    case _ =>
  }

  /**
   Over any run with crashes anywhere: when an update takes the stored mode out of maintenance, a release request was
   consumed in maintenance; when it takes it out of lockdown, one of the events that may end lockdown was.
   */
  lemma RestrictedModesEndAsAllowed(row: Option<StartupMode>, limit: int, run: seq<NodeAction>)
    requires NodeCanRun(Boot(row), limit, run)
    requires NodeEnabled(NodeRun(Boot(row), limit, run), Update)
    ensures var n := NodeRun(Boot(row), limit, run);
            var after := NodeStep(n, limit, Update);
            && (n.row == Some(MaintenanceMode) && after.row != n.row ==>
                  n.cause.Event? && EndsMaintenance(n.cause.from, n.cause.ch))
            && (n.row == Some(LockdownMode) && after.row != n.row ==>
                  n.cause.Event? && EndsLockdown(n.cause.from, n.cause.ch))
  {
    BootInv(row, limit);
    NodeRunKeepsInv(Boot(row), limit, run);
    var n := NodeRun(Boot(row), limit, run);
    if n.cause.Event? && !ModeOf(n.cause.from).NormalMode? {
      RestrictedReactions(n.cause.from, limit, n.cause.ch, n.cause.msg);
    }
  }

  /** A user mission is launched only while the stored mode is the normal one. */
  lemma MissionsStartInNormalModeOnly(
    row: Option<StartupMode>, limit: int, run: seq<NodeAction>, ch: Channel, msg: Message)
    requires NodeCanRun(Boot(row), limit, run)
    requires NodeEnabled(NodeRun(Boot(row), limit, run), Handle(ch, msg))
    ensures var n := NodeRun(Boot(row), limit, run);
            var r := React(n.current, limit, ch, msg);
            Launched(r, FreshFromApi).Some? || Launched(r, Relaunch).Some? ==> n.row == Some(NormalMode)
  {
    BootInv(row, limit);
    NodeRunKeepsInv(Boot(row), limit, run);
    var n := NodeRun(Boot(row), limit, run);
    if !ModeOf(n.current).NormalMode? { RestrictedReactions(n.current, limit, ch, msg); }
  }

  // ---------------------------------------------------------------- what a crash can undo

  /** A crash keeps the mode exactly when the transition has been stored, or has not changed the mode. */
  lemma CrashKeepsModeIff(row: Option<StartupMode>, limit: int, run: seq<NodeAction>)
    requires NodeCanRun(Boot(row), limit, run)
    ensures var n := NodeRun(Boot(row), limit, run);
            ModeOf(NodeStep(n, limit, Crash).current) == ModeOf(n.current)
            <==> n.updated || n.cause.Started? || ModeOf(n.cause.from) == ModeOf(n.current)
  {
    BootInv(row, limit);
    NodeRunKeepsInv(Boot(row), limit, run);
  }

  /** So a maintenance request that has already been answered with success can be forgotten. */
  lemma AcknowledgedMaintenanceCanBeLost(limit: int) returns (run: seq<NodeAction>)
    ensures NodeCanRun(Boot(Some(NormalMode)), limit, run)
    ensures var n := NodeRun(Boot(Some(NormalMode)), limit, run);
            && n.current.Maintenance?
            && n.cause == Event(UnknownStatus, Request(SetMaintenanceMode), Empty)
            && React(UnknownStatus, limit, Request(SetMaintenanceMode), Empty).script.reply
               == Some(Reply(SetMaintenanceMode, true))
            && NodeStep(n, limit, Crash).current.UnknownStatus?
  {
    var n0 := Boot(Some(NormalMode));
    var ask := Handle(Request(SetMaintenanceMode), Empty);
    var n1 := NodeStep(n0, limit, Update);
    assert Table(UnknownStatus)[2] == Request(SetMaintenanceMode);
    var n2 := NodeStep(n1, limit, ask);
    run := [Update, ask];
    assert run[1..] == [ask] && [ask][1..] == [];
    assert NodeCanRun(n2, limit, []);
    assert NodeCanRun(n1, limit, [ask]);
    assert NodeRun(n1, limit, [ask]) == n2;
  }
}
