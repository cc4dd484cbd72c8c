/** The stop handshake always completes: a measure that the threads concerned decrease and no other thread increases. */
module StopHandshake {
  import opened Missions
  import opened Events
  import opened Scripts
  import opened States
  import opened Reactions
  import opened Protocol
  import opened Tokens
  import opened Accounts
  import opened Service
  import opened Invariants
  import opened Handshakes

  /** How many steps of the main loop there are, at most, up to and including the next poll of the stop mailbox. */
  function StepsToPoll(pc: Pc): nat {
    match pc
    case CheckMonitor => 9
    case Yielded => 8
    case PollStart => 7
    case InitiateMission => 6
    case PollPause => 5
    case PauseRobot => 4
    case PollResume => 3
    case ResumeRobot => 2
    case _ => 1
  }

  /** How many steps there are, at most, from here to the consumption of the outcome. */
  function StepsOfHandler(rs: Rs, attempts: nat): nat {
    match rs.pc
    case StopRobot(failures) => 7 + (if failures < attempts then attempts - failures else 0)
    case AwaitMonitor =>
      if rs.monitor.Some? && rs.monitor.value < |rs.starts| && rs.starts[rs.monitor.value].CancelRequested?
      then 6 else 5
    case ClearSucceeded => 4
    case ClearFailed => 3
    case _ => 2
  }

  /** The distance from the end of the handshake. */
  function Distance(s: Sys, cfg: Config): nat {
    ScriptSize(s.sm.script)
    + if s.sm.script.command == Some(Stop) then 17 + cfg.attempts
      else if StopCommand in s.mail then 7 + cfg.attempts + StepsToPoll(s.rs.pc)
      else if HandlingStop(s.rs.pc) then StepsOfHandler(s.rs, cfg.attempts)
      else 1
  }

  /** The step whose turn it is: of the state machine, of the main loop, or of the monitor that the main loop awaits. */
  ghost predicate Helpful(s: Sys, a: Action) {
    if HasWork(s.sm.script) then a.SmEffect?
    else if StopCommand in s.mail then a.RsMain?
    else if HandlingStop(s.rs.pc) then
      (a.RsMain? || (a.MonitorAbort? && s.rs.pc.AwaitMonitor? && s.rs.monitor == Some(a.i)))
    else a.SmConsume?
  }

  ghost predicate InStop(s: Sys, cfg: Config) {
    && TokenInv(s) && TaskInv(s.rs)
    && cfg.attempts >= 1
    && IsStopping(s.sm.state)
  }

  /** The robot is asked to stop at most as often as the limit says. */
  ghost predicate AttemptInv(s: Sys, cfg: Config) {
    s.rs.pc.StopRobot? ==> s.rs.pc.failures < cfg.attempts
  }

  lemma StepKeepsAttempts(s: Sys, cfg: Config, a: Action)
    requires AttemptInv(s, cfg) && cfg.attempts >= 1 && Enabled(s, a)
    ensures AttemptInv(Step(s, cfg, a), cfg)
  {
    match a
    case RsMain(answer) =>
    case SmEffect => SmLeavesService(s);
    case _ =>
  }

  /** No deadlock: in a stopping state the step whose turn it is can be taken. */
  lemma HelpfulStepExists(s: Sys, cfg: Config) returns (a: Action)
    requires InStop(s, cfg)
    ensures Helpful(s, a) && Enabled(s, a)
  {
    if HasWork(s.sm.script) { a := SmEffect; }
    else if StopCommand in s.mail { a := RsMain(Accepts); }
    else if HandlingStop(s.rs.pc) {
      if s.rs.pc.AwaitMonitor? && s.rs.starts[s.rs.monitor.value].CancelRequested? {
        a := MonitorAbort(s.rs.monitor.value, s.rs.starts[s.rs.monitor.value].mission);
      } else {
        a := RsMain(Accepts);
      }
    } else {
      a := SmConsume(if MissionFailedToStop in s.mail then MissionFailedToStop
                     else if MissionSuccessfullyStopped in s.mail then MissionSuccessfullyStopped
                     else StoppedMissionAlreadyDone);
      StoppingTable(s.sm.state);
    }
  }

  /** Consuming an outcome ends the handshake. */
  lemma ConsumeEnds(s: Sys, cfg: Config, ch: Channel)
    requires InStop(s, cfg) && Enabled(s, SmConsume(ch))
    ensures !IsStopping(Step(s, cfg, SmConsume(ch)).sm.state)
  {
    ReactionBalanced(s.sm.state, cfg.retryLimit, ch, s.mail[ch]);
  }

  lemma EffectDescends(s: Sys, cfg: Config)
    requires InStop(s, cfg) && HasWork(s.sm.script)
    ensures Effected(s).sm.state == s.sm.state
    ensures Distance(Effected(s), cfg) < Distance(s, cfg)
  {}

  lemma PollDoesNotAscend(s: Sys, cfg: Config, answer: Answer)
    requires InStop(s, cfg) && MainReady(s) && !HandlingStop(s.rs.pc)
    ensures Distance(MainStep(s, cfg, answer), cfg) <= Distance(s, cfg)
  {}

  lemma PollDescends(s: Sys, cfg: Config, answer: Answer)
    requires InStop(s, cfg) && MainReady(s) && !HandlingStop(s.rs.pc)
    requires s.sm.script.command != Some(Stop) && StopCommand in s.mail
    ensures Distance(MainStep(s, cfg, answer), cfg) < Distance(s, cfg)
  {}

  lemma HandlerDescends(s: Sys, cfg: Config, answer: Answer)
    requires InStop(s, cfg) && MainReady(s) && HandlingStop(s.rs.pc)
    ensures Distance(MainStep(s, cfg, answer), cfg) < Distance(s, cfg)
  {}

  lemma MainDescends(s: Sys, cfg: Config, answer: Answer)
    requires InStop(s, cfg) && MainReady(s)
    ensures Distance(MainStep(s, cfg, answer), cfg) <= Distance(s, cfg)
    ensures s.sm.script.command != Some(Stop) && (StopCommand in s.mail || HandlingStop(s.rs.pc)) ==>
              Distance(MainStep(s, cfg, answer), cfg) < Distance(s, cfg)
  {
    if HandlingStop(s.rs.pc) {
      HandlerDescends(s, cfg, answer);
    } else {
      PollDoesNotAscend(s, cfg, answer);
      if s.sm.script.command != Some(Stop) && StopCommand in s.mail { PollDescends(s, cfg, answer); }
    }
  }

  lemma OthersDoNotAscend(s: Sys, cfg: Config, a: Action)
    requires InStop(s, cfg) && Enabled(s, a) && !a.SmConsume? && !a.SmEffect? && !a.RsMain?
    ensures Step(s, cfg, a).sm == s.sm
    ensures Distance(Step(s, cfg, a), cfg) <= Distance(s, cfg)
    ensures Helpful(s, a) ==> Distance(Step(s, cfg, a), cfg) < Distance(s, cfg)
  {}

  /** Every step ends the handshake or does not lengthen it, and the step whose turn it is shortens it. */
  lemma StepDescends(s: Sys, cfg: Config, a: Action)
    requires InStop(s, cfg) && Enabled(s, a)
    ensures var s' := Step(s, cfg, a);
            IsStopping(s'.sm.state) ==>
              Distance(s', cfg) <= Distance(s, cfg) && (Helpful(s, a) ==> Distance(s', cfg) < Distance(s, cfg))
  {
    match a
    case SmConsume(ch) => ConsumeEnds(s, cfg, ch);
    case SmEffect => EffectDescends(s, cfg);
    case RsMain(answer) =>
      MainDescends(s, cfg, answer);
      MainLeavesSm(s, cfg, answer);
    case _ => OthersDoNotAscend(s, cfg, a);
  }

  ghost function HelpfulSteps(s: Sys, cfg: Config, run: seq<Action>): nat
    requires CanRun(s, cfg, run)
    decreases |run|
  {
    if run == [] then 0
    else Bit(Helpful(s, run[0])) + HelpfulSteps(Step(s, cfg, run[0]), cfg, run[1..])
  }

  /** A run has left the handshake behind at the latest when it has taken `Distance` steps whose turn it was. */
  lemma {:induction false} StopCompletes(s: Sys, cfg: Config, run: seq<Action>) returns (k: nat)
    requires Inv(s) && InStop(s, cfg) && CanRun(s, cfg, run)
    requires HelpfulSteps(s, cfg, run) >= Distance(s, cfg)
    ensures k <= |run| && CanRun(s, cfg, run[..k]) && !IsStopping(Run(s, cfg, run[..k]).sm.state)
    decreases |run|
  {
    var s' := Step(s, cfg, run[0]);
    StepKeepsInv(s, cfg, run[0]);
    StepDescends(s, cfg, run[0]);
    if IsStopping(s'.sm.state) {
      k := StopCompletes(s', cfg, run[1..]);
      k := k + 1;
      assert run[..k][1..] == run[1..][..k - 1];
    } else {
      k := 1;
      assert run[..1][1..] == [];
    }
  }

  lemma {:induction false} RunKeepsAttempts(s: Sys, cfg: Config, run: seq<Action>)
    requires AttemptInv(s, cfg) && cfg.attempts >= 1 && CanRun(s, cfg, run)
    ensures AttemptInv(Run(s, cfg, run), cfg)
    decreases |run|
  {
    if run == [] {
    } else {
      StepKeepsAttempts(s, cfg, run[0]);
      RunKeepsAttempts(Step(s, cfg, run[0]), cfg, run[1..]);
    }
  }

  lemma StopIsBounded(s: Sys, cfg: Config)
    requires InStop(s, cfg)
    ensures Distance(s, cfg) <= 22 + cfg.attempts
  {}

  /**
   From every reachable state inside a stop: the step whose turn it is can be taken, and however the threads interleave,
   22 plus the attempt limit of such steps end the stop.
   */
  lemma StopAlwaysCompletes(s: Sys, cfg: Config, run: seq<Action>) returns (k: nat)
    requires Reachable(s, cfg) && cfg.attempts >= 1 && IsStopping(s.sm.state)
    requires CanRun(s, cfg, run) && HelpfulSteps(s, cfg, run) >= 22 + cfg.attempts
    ensures exists a :: Helpful(s, a) && Enabled(s, a)
    ensures k <= |run| && CanRun(s, cfg, run[..k]) && !IsStopping(Run(s, cfg, run[..k]).sm.state)
  {
    ReachableInv(s, cfg);
    StopIsBounded(s, cfg);
    var a := HelpfulStepExists(s, cfg);
    k := StopCompletes(s, cfg, run);
  }

  /** The handler asks the robot to stop at most as often as the limit says: the count of failures stays below it. */
  lemma StopAttemptsAreBounded(s: Sys, cfg: Config)
    requires Reachable(s, cfg) && cfg.attempts >= 1 && s.rs.pc.StopRobot?
    ensures s.rs.pc.failures < cfg.attempts
  {
    var st, before :| CanStartIn(st) && CanRun(Initial(st), cfg, before) && s == Run(Initial(st), cfg, before);
    RunKeepsAttempts(Initial(st), cfg, before);
  }
}
