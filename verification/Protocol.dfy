/**
 The whole program as a step relation: the state machine thread, the robot service thread with its main loop and
 monitor tasks, and everything else that writes to a mailbox (API callers, the status and battery pollers).

 A step is one operation on one mailbox, so that steps of different threads interleave freely between any two of them.
 Inside the robot service, monitor tasks run only while the main loop is suspended.
 */
module Protocol {
  import opened Missions
  import opened Events
  import opened Scripts
  import opened States
  import opened Reactions

  /** RETURN_HOME_RETRY_LIMIT and ROBOT_REQUEST_ATTEMPTS_LIMIT. */
  datatype Config = Config(retryLimit: int, attempts: nat)

  /** The state machine thread: its state, and what it still has to do before it polls again. */
  datatype Sm = Sm(state: SmState, script: Script)

  /** What became of a start command after the robot service consumed it. */
  datatype Start =
    | Initiating(mission: Mission)    // the robot is being asked
    | Refused                         // the robot did not start it; this has been signalled
    | Scheduled(mission: Mission)     // the monitor task exists, its code has not been entered
    | Monitoring(mission: Mission)
    | CancelRequested(mission: Mission, entered: bool)
    | Signalled(mission: Mission)     // the monitor signalled success or failure and returned the mission
    | Aborted(mission: Mission)       // the monitor was cancelled and returned the mission
    | NeverEntered                    // the monitor was cancelled before it was entered: nothing to return

  /** Where the main loop of the robot service is. */
  datatype Pc =
    | PollStart
    | InitiateMission
    | PollPause
    | PauseRobot
    | PollResume
    | ResumeRobot
    | PollStop
    | StopRobot(failures: nat)
    | AwaitMonitor
    | SignalContinued(mission: Mission)
    | ClearSucceeded
    | ClearFailed
    | SignalAlreadyDone
    | SignalFailedToStop
    | CheckMonitor
    | Yielded

  /** `starts` lists the consumed start commands; `monitor` is the one that the main loop knows about. */
  datatype Rs = Rs(pc: Pc, starts: seq<Start>, monitor: Option<nat>)

  /** A record of the run, which no thread reads. */
  datatype Ledger = Ledger(
    consumed: multiset<Api>,       // API requests that the state machine consumed
    replied: multiset<Api>,        // replies that it issued
    handovers: nat,                // missions that it passed on out of a stopped return home
    accepted: multiset<Mission>,   // missions in the start requests that it consumed
    launched: multiset<Mission>,   // those that it put on the start mailbox, or tried to
    lost: multiset<Mission>,       // those that it forgot after a failed stop
    carried: multiset<Mission>,    // aborted missions that it kept for after a recharge
    relaunched: multiset<Mission>, // those that it put on the start mailbox again, or tried to
    givenUp: multiset<Mission>,    // those that it gave up
    signals: multiset<nat>)        // mission_succeeded and mission_failed signals, by start command

  datatype Sys = Sys(mail: Mail, sm: Sm, rs: Rs, ledger: Ledger)

  /**
   The answer of the robot to a call, where the step makes one.  `NothingToDo` is RobotAlreadyHomeException for a start
   and RobotNoMissionRunningException for a stop, pause or resume.
   */
  datatype Answer = Accepts | NothingToDo | Fails

  datatype Action =
    | SmConsume(ch: Channel)
    | SmTimer
    | SmEffect
    | RsMain(answer: Answer)
    | MonitorEnter(i: nat)
    | MonitorSignal(i: nat, success: bool, after: Mission)
    | MonitorAbort(i: nat, after: Mission)
    | EnvPut(ch: Channel, msg: Message)
    | EnvClear(ch: Channel)

  predicate IsDone(s: Start) { s.Signalled? || s.Aborted? || s.NeverEntered? }

  /** The mission that awaiting a finished monitor task yields. */
  function ResultOf(s: Start): Option<Mission> {
    if s.Signalled? || s.Aborted? then Some(s.mission) else None
  }

  /** Mailboxes that threads outside the state machine and the robot service main loop write to. */
  predicate EnvWrites(ch: Channel) {
    ch.Request? || ch.RobotStatusUpdate? || ch.BatteryBelowMissionThreshold? || ch.BatteryAboveRechargeThreshold?
  }

  predicate MonitorsMayRun(rs: Rs) { rs.pc.Yielded? || rs.pc.AwaitMonitor? }

  predicate HasWork(s: Script) { s.wipes != [] || s.command.Some? || s.reply.Some? }

  // ---------------------------------------------------------------- the state machine thread

  function Bag<T>(o: Option<T>): multiset<T> { if o.Some? then multiset{o.value} else multiset{} }

  /** The value in `ch` is consumed and `r` is what it causes. */
  function ConsumedWith(s: Sys, ch: Channel, r: Reaction): Sys
    requires ch in s.mail && Carries(ch, s.mail[ch])
  {
    var st, msg := s.sm.state, s.mail[ch];
    var l := s.ledger;
    Sys(s.mail - {ch}, Sm(After(st, r), r.script), s.rs,
        l.(consumed := l.consumed + (if ch.Request? then multiset{ch.api} else multiset{}),
           handovers := l.handovers + Bit(HandsOver(st, ch)),
           accepted := l.accepted + Bag(Arriving(st, ch, msg, FreshFromApi)),
           carried := l.carried + Bag(Arriving(st, ch, msg, Relaunch)),
           lost := l.lost + (if LosesFresh(st, ch) then Bag(Held(st, FreshFromApi)) else multiset{}),
           givenUp := l.givenUp + (if GivesUp(st, ch, msg) then Bag(Held(st, Relaunch)) else multiset{})))
  }

  function Consumed(s: Sys, cfg: Config, ch: Channel): Sys
    requires ch in Table(s.sm.state) && ch in s.mail && Carries(ch, s.mail[ch])
  {
    ConsumedWith(s, ch, React(s.sm.state, cfg.retryLimit, ch, s.mail[ch]))
  }

  function SendReply(s: Sys): Sys
    requires s.sm.script.reply.Some?
  {
    var Reply(api, ok) := s.sm.script.reply.value;
    s.(mail := Trigger(s.mail, Response(api), OfReply(ok)),
       sm := s.sm.(script := s.sm.script.(reply := None)),
       ledger := s.ledger.(replied := s.ledger.replied + multiset{api}))
  }

  function SendCommand(s: Sys): Sys
    requires s.sm.script.command.Some?
  {
    var c := s.sm.script.command.value;
    s.(mail := Trigger(s.mail, ChannelOf(c), MessageOf(c)),
       sm := s.sm.(script := s.sm.script.(command := None)),
       ledger := s.ledger.(
         launched := s.ledger.launched +
                     (if c.Start? && c.origin.FreshFromApi? then multiset{c.mission} else multiset{}),
         relaunched := s.ledger.relaunched +
                       (if c.Start? && c.origin.Relaunch? then multiset{c.mission} else multiset{})))
  }

  function WipeNext(s: Sys): Sys
    requires s.sm.script.wipes != []
  {
    var sc := s.sm.script;
    s.(mail := s.mail - {sc.wipes[0]}, sm := s.sm.(script := sc.(wipes := sc.wipes[1..])))
  }

  /** The next operation of the script: an eager reply first, then the wipes, the command and a late reply. */
  function Effected(s: Sys): Sys
    requires HasWork(s.sm.script)
  {
    var sc := s.sm.script;
    if sc.eager && sc.reply.Some? then SendReply(s)
    else if sc.wipes != [] then WipeNext(s)
    else if sc.command.Some? then SendCommand(s)
    else SendReply(s)
  }

  // ---------------------------------------------------------------- the robot service main loop

  /** After a successful stop: cancel the known monitor task, if it is still at work, and await it. */
  function CancelKnownMonitor(rs: Rs): Rs
    requires rs.monitor.Some? ==> rs.monitor.value < |rs.starts|
  {
    if rs.monitor.None? then rs.(pc := ClearSucceeded)
    else
      var i := rs.monitor.value;
      match rs.starts[i]
      case Scheduled(m) => rs.(pc := AwaitMonitor, starts := rs.starts[i := CancelRequested(m, false)])
      case Monitoring(m) => rs.(pc := AwaitMonitor, starts := rs.starts[i := CancelRequested(m, true)])
      case _ => rs.(pc := AwaitMonitor)
  }

  /** What the stop handler does with the mission that the awaited task returned. */
  function AfterMonitor(result: Option<Mission>): Pc {
    if result.Some? && result.value.UnfinishedTasks() != [] then SignalContinued(result.value.Continued())
    else ClearSucceeded
  }

  /** The stop handler is over: the main loop forgets its monitor task, whatever the outcome was. */
  function StopHandled(s: Sys, ch: Channel, msg: Message): Sys {
    s.(mail := Trigger(s.mail, ch, msg), rs := s.rs.(pc := CheckMonitor, monitor := None))
  }

  function Signal(s: Sys, i: nat, success: bool): Sys {
    s.(mail := Trigger(s.mail, if success then MissionSucceeded else MissionFailed, Empty),
       ledger := s.ledger.(signals := s.ledger.signals + multiset{i}))
  }

  function Initiated(s: Sys, answer: Answer): Sys
    requires |s.rs.starts| > 0 && s.rs.starts[|s.rs.starts| - 1].Initiating?
  {
    var i := |s.rs.starts| - 1;
    var m := s.rs.starts[i].mission;
    var starts := s.rs.starts;
    match answer
    case NothingToDo => Signal(s, i, true).(rs := s.rs.(pc := PollPause, starts := starts[i := Refused]))
    case Fails => Signal(s, i, false).(rs := s.rs.(pc := PollPause, starts := starts[i := Refused]))
    case Accepts =>
      var s' := s.(rs := Rs(PollPause, starts[i := Scheduled(m)], Some(i)));
      if m.IsReturnToHome() then s' else s'.(mail := Trigger(s.mail, MissionStartedSuccessfully, Empty))
  }

  ghost predicate MainReady(s: Sys) {
    match s.rs.pc
    case PollStart => StartCommand in s.mail ==> s.mail[StartCommand].OfMission?
    case InitiateMission => |s.rs.starts| > 0 && s.rs.starts[|s.rs.starts| - 1].Initiating?
    case StopRobot(_) => s.rs.monitor.Some? ==> s.rs.monitor.value < |s.rs.starts|
    case AwaitMonitor =>
      s.rs.monitor.Some? && s.rs.monitor.value < |s.rs.starts| && IsDone(s.rs.starts[s.rs.monitor.value])
    case CheckMonitor => s.rs.monitor.Some? ==> s.rs.monitor.value < |s.rs.starts|
    case _ => true
  }

  function MainStep(s: Sys, cfg: Config, answer: Answer): Sys
    requires MainReady(s)
  {
    var rs := s.rs;
    match rs.pc
    case PollStart =>
      if StartCommand in s.mail
      then s.(mail := s.mail - {StartCommand},
              rs := rs.(pc := InitiateMission, starts := rs.starts + [Initiating(s.mail[StartCommand].mission)]))
      else s.(rs := rs.(pc := PollPause))
    case InitiateMission => Initiated(s, answer)
    case PollPause =>
      s.(mail := s.mail - {PauseCommand}, rs := rs.(pc := if PauseCommand in s.mail then PauseRobot else PollResume))
    case PauseRobot =>
      s.(mail := Trigger(s.mail, if answer.Accepts? then MissionSuccessfullyPaused else MissionFailedToPause, Empty),
         rs := rs.(pc := PollResume))
    case PollResume =>
      s.(mail := s.mail - {ResumeCommand}, rs := rs.(pc := if ResumeCommand in s.mail then ResumeRobot else PollStop))
    case ResumeRobot =>
      s.(mail := Trigger(s.mail, if answer.Accepts? then MissionSuccessfullyResumed else MissionFailedToResume, Empty),
         rs := rs.(pc := PollStop))
    case PollStop =>
      s.(mail := s.mail - {StopCommand}, rs := rs.(pc := if StopCommand in s.mail then StopRobot(0) else CheckMonitor))
    case StopRobot(failures) =>
      if !answer.Fails? then s.(rs := CancelKnownMonitor(rs))
      else s.(rs := rs.(pc := if failures + 1 < cfg.attempts then StopRobot(failures + 1) else SignalFailedToStop))
    case AwaitMonitor => s.(rs := rs.(pc := AfterMonitor(ResultOf(rs.starts[rs.monitor.value]))))
    case SignalContinued(mission) => StopHandled(s, MissionSuccessfullyStopped, OfMission(mission))
    case ClearSucceeded => s.(mail := s.mail - {MissionSucceeded}, rs := rs.(pc := ClearFailed))
    case ClearFailed => s.(mail := s.mail - {MissionFailed}, rs := rs.(pc := SignalAlreadyDone))
    case SignalAlreadyDone => StopHandled(s, StoppedMissionAlreadyDone, Empty)
    case SignalFailedToStop => StopHandled(s, MissionFailedToStop, Empty)
    case CheckMonitor =>
      s.(rs := Rs(Yielded, rs.starts,
                  if rs.monitor.Some? && IsDone(rs.starts[rs.monitor.value]) then None else rs.monitor))
    case Yielded => s.(rs := rs.(pc := PollStart))
  }

  // ---------------------------------------------------------------- all steps together

  ghost predicate Enabled(s: Sys, a: Action) {
    match a
    case SmConsume(ch) => !HasWork(s.sm.script) && ch in Table(s.sm.state) && ch in s.mail && Carries(ch, s.mail[ch])
    case SmTimer => !HasWork(s.sm.script) && HasTimer(s.sm.state)
    case SmEffect => HasWork(s.sm.script)
    case RsMain(_) => MainReady(s)
    case MonitorEnter(i) => MonitorsMayRun(s.rs) && i < |s.rs.starts| && s.rs.starts[i].Scheduled?
    case MonitorSignal(i, _, after) =>
      MonitorsMayRun(s.rs) && i < |s.rs.starts| && s.rs.starts[i].Monitoring?
      && SameMission(s.rs.starts[i].mission, after)
    case MonitorAbort(i, after) =>
      MonitorsMayRun(s.rs) && i < |s.rs.starts| && s.rs.starts[i].CancelRequested?
      && SameMission(s.rs.starts[i].mission, after)
    case EnvPut(ch, msg) => EnvWrites(ch) && Carries(ch, msg) && (msg.OfMission? ==> msg.mission.tasks != [])
    case EnvClear(ch) => EnvWrites(ch) || ch.Response?
  }

  function Step(s: Sys, cfg: Config, a: Action): Sys
    requires Enabled(s, a)
  {
    match a
    case SmConsume(ch) => Consumed(s, cfg, ch)
    case SmTimer =>
      var r := TimerReaction(cfg.retryLimit);
      s.(sm := Sm(After(s.sm.state, r), r.script))
    case SmEffect => Effected(s)
    case RsMain(answer) => MainStep(s, cfg, answer)
    case MonitorEnter(i) => s.(rs := s.rs.(starts := s.rs.starts[i := Monitoring(s.rs.starts[i].mission)]))
    case MonitorSignal(i, success, after) =>
      Signal(s, i, success).(rs := s.rs.(starts := s.rs.starts[i := Signalled(after)]))
    case MonitorAbort(i, after) =>
      s.(rs := s.rs.(starts := s.rs.starts[i := if s.rs.starts[i].entered then Aborted(after) else NeverEntered]))
    case EnvPut(ch, msg) => s.(mail := Trigger(s.mail, ch, msg))
    case EnvClear(ch) => s.(mail := s.mail - {ch})
  }

  /** The state machine starts in one of these three states, according to the stored mode. */
  predicate CanStartIn(st: SmState) { st.UnknownStatus? || st.Maintenance? || st.GoingToLockdown? }

  const NEW_LEDGER := Ledger(multiset{}, multiset{}, 0, multiset{}, multiset{}, multiset{}, multiset{}, multiset{},
                             multiset{}, multiset{})

  function Initial(st: SmState): Sys {
    Sys(map[], Sm(st, NOTHING), Rs(PollStart, [], None), NEW_LEDGER)
  }

  ghost predicate CanRun(s: Sys, cfg: Config, run: seq<Action>)
    decreases |run|
  {
    run == [] || (Enabled(s, run[0]) && CanRun(Step(s, cfg, run[0]), cfg, run[1..]))
  }

  ghost function Run(s: Sys, cfg: Config, run: seq<Action>): Sys
    requires CanRun(s, cfg, run)
    decreases |run|
  {
    if run == [] then s else Run(Step(s, cfg, run[0]), cfg, run[1..])
  }

  /** `s` is the state of the program after some run from its start. */
  ghost predicate Reachable(s: Sys, cfg: Config) {
    exists st, run :: CanStartIn(st) && CanRun(Initial(st), cfg, run) && s == Run(Initial(st), cfg, run)
  }
}
