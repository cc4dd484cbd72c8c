/** Conservation of the stop and pause commands and of their outcomes. */
module Tokens {
  import opened Missions
  import opened Events
  import opened Scripts
  import opened States
  import opened Reactions
  import opened Protocol

  ghost predicate Typed(mail: Mail) {
    forall ch :: ch in mail ==> Carries(ch, mail[ch])
  }

  /** The main loop has consumed a stop command and has not signalled the outcome yet. */
  predicate HandlingStop(pc: Pc) {
    pc.StopRobot? || pc.AwaitMonitor? || pc.SignalContinued? || pc.ClearSucceeded? || pc.ClearFailed? ||
    pc.SignalAlreadyDone? || pc.SignalFailedToStop?
  }

  function StopOutcomes(mail: Mail): nat {
    Bit(MissionFailedToStop in mail) + Bit(MissionSuccessfullyStopped in mail) + Bit(StoppedMissionAlreadyDone in mail)
  }

  /** Where a stop can be: about to be commanded, commanded, being handled, or answered. */
  function StopTokens(s: Sys): nat {
    Bit(s.sm.script.command == Some(Stop)) + Bit(StopCommand in s.mail) + Bit(HandlingStop(s.rs.pc))
    + StopOutcomes(s.mail)
  }

  function PauseTokens(s: Sys): nat {
    Bit(s.sm.script.command == Some(Pause)) + Bit(PauseCommand in s.mail) + Bit(s.rs.pc.PauseRobot?)
    + Bit(MissionFailedToPause in s.mail) + Bit(MissionSuccessfullyPaused in s.mail)
  }

  /** Exactly one stop is under way in the eight stopping states and none elsewhere; likewise for pauses. */
  ghost predicate TokenInv(s: Sys) {
    && Typed(s.mail)
    && StopTokens(s) == Bit(IsStopping(s.sm.state))
    && PauseTokens(s) == Bit(IsPausing(s.sm.state))
  }

  lemma ConsumeKeepsTokens(s: Sys, cfg: Config, ch: Channel)
    requires TokenInv(s) && Enabled(s, SmConsume(ch))
    ensures TokenInv(Step(s, cfg, SmConsume(ch)))
  {
    ReactionBalanced(s.sm.state, cfg.retryLimit, ch, s.mail[ch]);
    TableOutcomes(s.sm.state, ch);
  }

  /** The stop outcomes are polled in the stopping states only, which poll nothing else; likewise for pauses. */
  lemma TableOutcomes(st: SmState, ch: Channel)
    requires ch in Table(st)
    ensures ch in STOP_OUTCOMES <==> IsStopping(st)
    ensures ch.MissionFailedToPause? || ch.MissionSuccessfullyPaused? <==> IsPausing(st)
    ensures !ch.StopCommand? && !ch.PauseCommand? && !ch.StartCommand? && !ch.ResumeCommand? && !ch.Response?
  {}

  lemma ReplyKeepsTokens(s: Sys)
    requires TokenInv(s) && s.sm.script.reply.Some?
    ensures TokenInv(SendReply(s))
  {}

  lemma WipeKeepsTokens(s: Sys)
    requires TokenInv(s) && s.sm.script.wipes != []
    ensures TokenInv(WipeNext(s))
  {}

  lemma CommandKeepsTokens(s: Sys)
    requires TokenInv(s) && s.sm.script.command.Some?
    ensures TokenInv(SendCommand(s))
  {}

  lemma EffectKeepsTokens(s: Sys)
    requires TokenInv(s) && HasWork(s.sm.script)
    ensures TokenInv(Effected(s))
  {
    var sc := s.sm.script;
    if sc.reply.Some? { ReplyKeepsTokens(s); }
    if sc.wipes != [] { WipeKeepsTokens(s); }
    if sc.command.Some? { CommandKeepsTokens(s); }
  }

  predicate PollingPc(pc: Pc) { !HandlingStop(pc) && !pc.InitiateMission? && !pc.PauseRobot? && !pc.ResumeRobot? }

  lemma PollKeepsTokens(s: Sys, cfg: Config, answer: Answer)
    requires TokenInv(s) && MainReady(s) && PollingPc(s.rs.pc)
    ensures TokenInv(MainStep(s, cfg, answer))
  {}

  lemma InitiateKeepsTokens(s: Sys, cfg: Config, answer: Answer)
    requires TokenInv(s) && MainReady(s) && s.rs.pc.InitiateMission?
    ensures TokenInv(MainStep(s, cfg, answer))
  {}

  lemma CallKeepsTokens(s: Sys, cfg: Config, answer: Answer)
    requires TokenInv(s) && MainReady(s) && (s.rs.pc.PauseRobot? || s.rs.pc.ResumeRobot?)
    ensures TokenInv(MainStep(s, cfg, answer))
  {}

  lemma StopKeepsTokens(s: Sys, cfg: Config, answer: Answer)
    requires TokenInv(s) && MainReady(s) && HandlingStop(s.rs.pc)
    ensures TokenInv(MainStep(s, cfg, answer))
  {}

  lemma MainKeepsTokens(s: Sys, cfg: Config, answer: Answer)
    requires TokenInv(s) && MainReady(s)
    ensures TokenInv(MainStep(s, cfg, answer))
  {
    if PollingPc(s.rs.pc) { PollKeepsTokens(s, cfg, answer); }
    else if HandlingStop(s.rs.pc) { StopKeepsTokens(s, cfg, answer); }
    else if s.rs.pc.InitiateMission? { InitiateKeepsTokens(s, cfg, answer); }
    else { CallKeepsTokens(s, cfg, answer); }
  }

  lemma StepKeepsTokens(s: Sys, cfg: Config, a: Action)
    requires TokenInv(s) && Enabled(s, a)
    ensures TokenInv(Step(s, cfg, a))
  {
    match a
    case SmConsume(ch) => ConsumeKeepsTokens(s, cfg, ch);
    case SmTimer =>
    case SmEffect => EffectKeepsTokens(s);
    case RsMain(answer) => MainKeepsTokens(s, cfg, answer);
    case MonitorEnter(i) =>
    case MonitorSignal(i, success, after) =>
    case MonitorAbort(i, after) =>
    case EnvPut(ch, msg) =>
    case EnvClear(ch) =>
  }
}
