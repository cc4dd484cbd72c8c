/**
 Which operating mode is in the database, told by the events of the run alone: a mode begins with the request for it and
 ends with the events that end it, an update stores it, and a crash brings back what was stored.
 */
module StoredMode {
  import opened Missions
  import opened Events
  import opened Scripts
  import opened States
  import opened Entries
  import opened Persistence

  /** The mode that the robot is in by what has happened, and the one that was stored last. */
  datatype Modes = Modes(now: StartupMode, stored: StartupMode)

  /** Lockdown begins with every request for it that is taken, before anything has been stopped. */
  predicate BeginsLockdown(ch: Channel) { ch == Request(SendToLockdown) }

  /** The robot is released, would not stop, does not get home, or cannot be made to move on. */
  predicate BreaksLockdown(ch: Channel) {
    ch == Request(ReleaseFromLockdown) || ch.MissionFailedToStop? || ch.MissionFailed? || ch.MissionFailedToResume?
  }

  /** Maintenance begins when it is granted, and only after a stop where something is under way. */
  predicate BeginsMaintenance(st: SmState, ch: Channel, msg: Message) {
    || (ch == Request(SetMaintenanceMode) && !IsBusy(st))
    || (st.StoppingDueToMaintenance? && HasStopped(ch))
    || (IsStatus(ch, msg, TeleOperation) && (st.Home? || st.Offline? || st.UnknownStatus?))
  }

  function ModeAfter(mode: StartupMode, st: SmState, ch: Channel, msg: Message): StartupMode {
    if BeginsLockdown(ch) then LockdownMode
    else if BeginsMaintenance(st, ch, msg) then MaintenanceMode
    else if mode.LockdownMode? && BreaksLockdown(ch) then NormalMode
    else if mode.MaintenanceMode? && ch == Request(ReleaseFromMaintenanceMode) then NormalMode
    else mode
  }

  function Noted(modes: Modes, st: SmState, a: NodeAction): Modes {
    match a
    case Update => Modes(modes.now, modes.now)
    case Handle(ch, msg) => modes.(now := ModeAfter(modes.now, st, ch, msg))
    case TimeUp => modes
    case Crash => Modes(modes.stored, modes.stored)
  }

  ghost function ModesAfter(modes: Modes, n: Node, limit: int, run: seq<NodeAction>): Modes
    requires NodeCanRun(n, limit, run)
    decreases |run|
  {
    if run == [] then modes
    else ModesAfter(Noted(modes, n.current, run[0]), NodeStep(n, limit, run[0]), limit, run[1..])
  }

  function FirstMode(row: Option<StartupMode>): StartupMode { if row.Some? then row.value else MaintenanceMode }

  predicate IsLocked(st: SmState) { st.StoppingGoToLockdown? || st.GoingToLockdown? || st.Lockdown? }

  predicate Agrees(st: SmState, mode: StartupMode) {
    (IsLocked(st) <==> mode.LockdownMode?) && (st.Maintenance? <==> mode.MaintenanceMode?)
  }

  ghost predicate Tells(n: Node, modes: Modes) { Agrees(n.current, modes.now) && n.row == Some(modes.stored) }

  // ---------------------------------------------------------------- an event changes the state as it changes the mode

  lemma LockdownBegins(st: SmState, limit: int, ch: Channel, msg: Message, to: SmState)
    requires Carries(ch, msg) && Enters(st, limit, ch, msg, to) && !IsLocked(st)
    ensures IsLocked(to) <==> BeginsLockdown(ch)
  {}

  lemma LockdownEnds(st: SmState, limit: int, ch: Channel, msg: Message, to: SmState)
    requires Carries(ch, msg) && Enters(st, limit, ch, msg, to) && IsLocked(st)
    ensures !BeginsLockdown(ch) && (IsLocked(to) <==> !BreaksLockdown(ch))
  {}

  lemma MaintenanceBegins(st: SmState, limit: int, ch: Channel, msg: Message, to: SmState)
    requires Carries(ch, msg) && Enters(st, limit, ch, msg, to)
    ensures to.Maintenance? <==> BeginsMaintenance(st, ch, msg)
  {
    EntriesAreExplained(st, limit, ch, msg, to);
    if BeginsMaintenance(st, ch, msg) {
      MaintenanceIsEntered(st, limit, ch, msg);
      EntriesAreExplained(st, limit, ch, msg, Maintenance);
    }
  }

  lemma MaintenanceEnds(limit: int, ch: Channel, msg: Message, to: SmState)
    requires Carries(ch, msg) && Enters(Maintenance, limit, ch, msg, to)
    ensures ch == Request(ReleaseFromMaintenanceMode)
  {}

  /** Every such event moves the state machine. */
  lemma LockdownMoves(st: SmState, limit: int)
    requires Request(SendToLockdown) in Table(st)
    ensures React(st, limit, Request(SendToLockdown), Empty).next.Some?
  {}

  lemma MaintenanceMoves(st: SmState, limit: int, ch: Channel, msg: Message)
    requires ch in Table(st) && Carries(ch, msg) && BeginsMaintenance(st, ch, msg)
    ensures React(st, limit, ch, msg).next.Some?
  {
    EntriesAreExplained(st, limit, ch, msg, Maintenance);
    MaintenanceIsEntered(st, limit, ch, msg);
  }

  lemma MaintenanceIsEntered(st: SmState, limit: int, ch: Channel, msg: Message)
    requires ch in Table(st) && Carries(ch, msg) && BeginsMaintenance(st, ch, msg)
    ensures Enters(st, limit, ch, msg, Maintenance)
  {}

  lemma LockedAlwaysMoves(st: SmState, limit: int, ch: Channel, msg: Message)
    requires (IsLocked(st) || st.Maintenance?) && ch in Table(st) && Carries(ch, msg)
    ensures React(st, limit, ch, msg).next.Some?
  {}

  lemma HandleIsNoted(n: Node, limit: int, ch: Channel, msg: Message, modes: Modes)
    requires Tells(n, modes) && NodeEnabled(n, Handle(ch, msg))
    ensures Tells(NodeStep(n, limit, Handle(ch, msg)), Noted(modes, n.current, Handle(ch, msg)))
  {
    var st := n.current;
    var next := React(st, limit, ch, msg).next;
    if next.Some? {
      EntriesAreExplained(st, limit, ch, msg, next.value);
      if IsLocked(st) { LockdownEnds(st, limit, ch, msg, next.value); }
      else { LockdownBegins(st, limit, ch, msg, next.value); }
      MaintenanceBegins(st, limit, ch, msg, next.value);
      if st.Maintenance? { MaintenanceEnds(limit, ch, msg, next.value); }
    } else {
      if BeginsLockdown(ch) { LockdownMoves(st, limit); }
      if BeginsMaintenance(st, ch, msg) { MaintenanceMoves(st, limit, ch, msg); }
      if IsLocked(st) || st.Maintenance? { LockedAlwaysMoves(st, limit, ch, msg); }
    }
  }

  lemma StepIsNoted(n: Node, limit: int, a: NodeAction, modes: Modes)
    requires Tells(n, modes) && NodeEnabled(n, a)
    ensures Tells(NodeStep(n, limit, a), Noted(modes, n.current, a))
  {
    match a
    case Handle(ch, msg) => HandleIsNoted(n, limit, ch, msg, modes);
    case _ =>
  }

  lemma {:induction false} RunIsNoted(n: Node, limit: int, run: seq<NodeAction>, modes: Modes)
    requires Tells(n, modes) && NodeCanRun(n, limit, run)
    ensures Tells(NodeRun(n, limit, run), ModesAfter(modes, n, limit, run))
    decreases |run|
  {
    if run == [] {
    } else {
      StepIsNoted(n, limit, run[0], modes);
      RunIsNoted(NodeStep(n, limit, run[0]), limit, run[1..], Noted(modes, n.current, run[0]));
    }
  }

  // ---------------------------------------------------------------- main results

  /**
   Over any run with crashes anywhere, the row holds the mode that the events of the run have led to up to the last
   update, and the state machine is in a state of lockdown or maintenance exactly if they have led to that mode.
   */
  lemma StoredModeFollowsTheEvents(row: Option<StartupMode>, limit: int, run: seq<NodeAction>)
    requires NodeCanRun(Boot(row), limit, run)
    ensures var n := NodeRun(Boot(row), limit, run);
            var modes := ModesAfter(Modes(FirstMode(row), FirstMode(row)), Boot(row), limit, run);
            && n.row == Some(modes.stored)
            && (n.current.StoppingGoToLockdown? || n.current.GoingToLockdown? || n.current.Lockdown?
                <==> modes.now == LockdownMode)
            && (n.current.Maintenance? <==> modes.now == MaintenanceMode)
  {
    RunIsNoted(Boot(row), limit, run, Modes(FirstMode(row), FirstMode(row)));
  }

  /** So a crash restarts the program in the state that stands for the mode of the last update. */
  lemma CrashRestartsInTheStoredMode(row: Option<StartupMode>, limit: int, run: seq<NodeAction>)
    requires NodeCanRun(Boot(row), limit, run)
    ensures var modes := ModesAfter(Modes(FirstMode(row), FirstMode(row)), Boot(row), limit, run);
            NodeStep(NodeRun(Boot(row), limit, run), limit, Crash).current ==
            match modes.stored
            case LockdownMode => GoingToLockdown
            case MaintenanceMode => Maintenance
            case NormalMode => UnknownStatus
  {
    StoredModeFollowsTheEvents(row, limit, run);
  }

  /** The run takes no event that may end the mode. */
  ghost predicate Keeps(mode: StartupMode, run: seq<NodeAction>) {
    forall i :: 0 <= i < |run| && run[i].Handle? ==>
      if mode.LockdownMode? then !BreaksLockdown(run[i].ch) else run[i].ch != Request(ReleaseFromMaintenanceMode)
  }

  /** What a restricted state polls. */
  lemma RestrictedTables(st: SmState, ch: Channel, msg: Message)
    requires (IsLocked(st) || st.Maintenance?) && ch in Table(st) && Carries(ch, msg)
    ensures !BeginsLockdown(ch) && !BeginsMaintenance(st, ch, msg)
  {}

  lemma {:induction false} ModeLasts(n: Node, limit: int, run: seq<NodeAction>, mode: StartupMode)
    requires !mode.NormalMode? && Tells(n, Modes(mode, mode)) && NodeCanRun(n, limit, run) && Keeps(mode, run)
    ensures Tells(NodeRun(n, limit, run), Modes(mode, mode))
    decreases |run|
  {
    if run == [] {
    } else {
      if run[0].Handle? {
        RestrictedTables(n.current, run[0].ch, run[0].msg);
      }
      StepIsNoted(n, limit, run[0], Modes(mode, mode));
      assert Keeps(mode, run[1..]);
      ModeLasts(NodeStep(n, limit, run[0]), limit, run[1..], mode);
    }
  }

  /** The event begins the mode in the node that the run leads to. */
  ghost predicate Begins(mode: StartupMode, row: Option<StartupMode>, limit: int, run: seq<NodeAction>, a: NodeAction) {
    && NodeCanRun(Boot(row), limit, run) && a.Handle? && NodeEnabled(NodeRun(Boot(row), limit, run), a)
    && match mode
       case LockdownMode => BeginsLockdown(a.ch)
       case MaintenanceMode => BeginsMaintenance(NodeRun(Boot(row), limit, run).current, a.ch, a.msg)
       case NormalMode => false
  }

  /**
   A lockdown that was requested in any state, and a maintenance that was granted, is in the row from the next update
   on, after whatever does not end it, crashes included; and a crash restarts the program in it.
   */
  lemma RestrictedModeIsStored(
    mode: StartupMode, row: Option<StartupMode>, limit: int, run: seq<NodeAction>, a: NodeAction,
    after: seq<NodeAction>)
    requires Begins(mode, row, limit, run, a)
    requires NodeCanRun(NodeStep(NodeRun(Boot(row), limit, run), limit, a), limit, [Update] + after)
    requires Keeps(mode, after)
    ensures var end := NodeRun(NodeStep(NodeRun(Boot(row), limit, run), limit, a), limit, [Update] + after);
            && end.row == Some(mode)
            && (if mode.LockdownMode? then IsLocked(end.current) else end.current.Maintenance?)
            && NodeStep(end, limit, Crash).current == if mode.LockdownMode? then GoingToLockdown else Maintenance
  {
    var start := Modes(FirstMode(row), FirstMode(row));
    var n := NodeRun(Boot(row), limit, run);
    RunIsNoted(Boot(row), limit, run, start);
    var modes := ModesAfter(start, Boot(row), limit, run);
    StepIsNoted(n, limit, a, modes);
    var begun := NodeStep(n, limit, a);
    StepIsNoted(begun, limit, Update, Noted(modes, n.current, a));
    assert ([Update] + after)[1..] == after;
    ModeLasts(NodeStep(begun, limit, Update), limit, after, mode);
  }
}
