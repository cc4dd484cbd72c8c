/** Runs that show what is not guaranteed: a mission that is lost, and a stop that does not lead back. */
module Witnesses {
  import opened Missions
  import opened Events
  import opened Scripts
  import opened States
  import opened Protocol
  import opened Runs
  import opened Traces
  import opened Tokens
  import opened Invariants
  import opened Handshakes
  import opened HandshakeRuns
  import opened Outcomes
  import opened Reactions
  import opened Publications

  // ---------------------------------------------------------------- the robot refuses to stop

  /** All attempts that are left fail. */
  lemma {:induction false} FailAttempts(s: Sys, cfg: Config, failures: nat) returns (run: seq<Action>)
    requires s.rs.pc == StopRobot(failures) && failures < cfg.attempts && MainReady(s)
    ensures CanRun(s, cfg, run) && Waits(run)
    ensures Run(s, cfg, run) == s.(rs := s.rs.(pc := SignalFailedToStop))
    decreases cfg.attempts - failures
  {
    var next := MainStep(s, cfg, Fails);
    RunOne(s, cfg, RsMain(Fails));
    if failures + 1 == cfg.attempts {
      run := [RsMain(Fails)];
    } else {
      var rest := FailAttempts(next, cfg, failures + 1);
      RunAppend(s, cfg, [RsMain(Fails)], rest);
      run := [RsMain(Fails)] + rest;
    }
  }

  /** The stop command is taken. */
  lemma TakeStop(s: Sys, cfg: Config) returns (run: seq<Action>)
    requires s.rs.pc.PollResume? && ResumeCommand !in s.mail && StopCommand in s.mail
    ensures CanRun(s, cfg, run) && Waits(run)
    ensures Run(s, cfg, run) == s.(mail := s.mail - {StopCommand}, rs := s.rs.(pc := StopRobot(0)))
  {
    var s1 := MainStep(s, cfg, Fails);
    assert s1.mail == s.mail;
    RunOne(s, cfg, RsMain(Fails));
    RunOne(s1, cfg, RsMain(Fails));
    RunAppend(s, cfg, [RsMain(Fails)], [RsMain(Fails)]);
    run := [RsMain(Fails)] + [RsMain(Fails)];
  }

  /** The stop is refused, and this is signalled. */
  lemma RefuseStop(s: Sys, cfg: Config) returns (run: seq<Action>)
    requires s.rs.pc.PollResume? && ResumeCommand !in s.mail && StopCommand in s.mail && cfg.attempts >= 1
    requires s.rs.monitor.Some? ==> s.rs.monitor.value < |s.rs.starts|
    requires MissionFailedToStop !in s.mail
    ensures CanRun(s, cfg, run) && Waits(run)
    ensures Run(s, cfg, run).sm == s.sm
    ensures Run(s, cfg, run).mail == (s.mail - {StopCommand})[MissionFailedToStop := Empty]
  {
    run := TakeStop(s, cfg);
    var s1 := Run(s, cfg, run);
    var attempts := FailAttempts(s1, cfg, 0);
    RunAppend(s, cfg, run, attempts);
    run := run + attempts;
    var s2 := Run(s, cfg, run);
    RunOne(s2, cfg, RsMain(Fails));
    RunAppend(s, cfg, run, [RsMain(Fails)]);
    run := run + [RsMain(Fails)];
  }

  // ---------------------------------------------------------------- an accepted mission is lost

  /** A return home has been started by the timer, and the main loop is about to poll for a pause. */
  lemma ReturnHomeByTimer(cfg: Config) returns (s: Sys)
    ensures Reaches(Initial(UnknownStatus), cfg, s)
    ensures s.sm == Sm(ReturningHome(cfg.retryLimit - 1), NOTHING) && s.rs == Rs(PollPause, [], None)
    ensures s.mail == map[StartCommand := OfMission(ReturnHomeMission())]
  {
    var origin := Initial(UnknownStatus);
    s := Idle(cfg);
    s := GoMain(origin, cfg, s, Accepts);
    assert s.mail == map[];
    ReachesNext(origin, cfg, s, SmTimer);
    s := Step(s, cfg, SmTimer);
    s := Wipe(origin, cfg, s);
    s := Wipe(origin, cfg, s);
    s := GoEffect(origin, cfg, s);
  }

  /** A mission is accepted during the return home, and the stop command has been put. */
  lemma AcceptDuringReturnHome(cfg: Config, m: Mission) returns (s: Sys)
    requires m.tasks != []
    ensures Reaches(Initial(UnknownStatus), cfg, s) && s.rs == Rs(PollResume, [], None)
    ensures s.sm == Sm(StoppingReturnHome(m), NOTHING)
    ensures s.mail == map[StartCommand := OfMission(ReturnHomeMission()), StopCommand := Empty,
                          Response(StartMission) := OfReply(true)]
  {
    var origin := Initial(UnknownStatus);
    s := ReturnHomeByTimer(cfg);
    s := GoMain(origin, cfg, s, Accepts);
    assert s.mail == map[StartCommand := OfMission(ReturnHomeMission())];
    s := GoHandle(origin, cfg, s, Request(StartMission), OfMission(m));
    s := GoEffect(origin, cfg, s);
    s := GoEffect(origin, cfg, s);
  }

  lemma LedgerOfLoss(s: Sys, cfg: Config, m: Mission)
    requires s.sm == Sm(StoppingReturnHome(m), NOTHING) && Enabled(s, SmConsume(MissionFailedToStop))
    ensures Step(s, cfg, SmConsume(MissionFailedToStop)).ledger.lost == s.ledger.lost + multiset{m}
  {}

  lemma ForgetMission(origin: Sys, cfg: Config, s: Sys, m: Mission) returns (s': Sys)
    requires Reaches(origin, cfg, s) && s.sm == Sm(StoppingReturnHome(m), NOTHING)
    requires MissionFailedToStop in s.mail && s.mail[MissionFailedToStop] == Empty
    ensures Reaches(origin, cfg, s') && s'.mail == s.mail - {MissionFailedToStop}
    ensures m in s'.ledger.lost && s'.sm.state.ReturningHome?
  {
    assert Enabled(s, SmConsume(MissionFailedToStop));
    LedgerOfLoss(s, cfg, m);
    FailureLeadsBack(StoppingReturnHome(m), cfg.retryLimit);
    ConsumeMoves(s, cfg, MissionFailedToStop);
    ReachesNext(origin, cfg, s, SmConsume(MissionFailedToStop));
    s' := Step(s, cfg, SmConsume(MissionFailedToStop));
  }

  lemma RefusedReturnHomeStop(cfg: Config, m: Mission) returns (s: Sys)
    requires m.tasks != [] && cfg.attempts >= 1
    ensures Reaches(Initial(UnknownStatus), cfg, s) && s.sm == Sm(StoppingReturnHome(m), NOTHING)
    ensures MissionFailedToStop in s.mail && s.mail[MissionFailedToStop] == Empty
    ensures Response(StartMission) in s.mail && s.mail[Response(StartMission)] == OfReply(true)
  {
    var stopping := AcceptDuringReturnHome(cfg, m);
    var run := RefuseStop(stopping, cfg);
    s := Run(stopping, cfg, run);
    ReachesThrough(Initial(UnknownStatus), cfg, stopping, s);
  }

  /** The return home cannot be stopped: the mission, whose request has been answered with success, is forgotten. */
  lemma AcceptedMissionCanBeLost(cfg: Config, m: Mission) returns (s: Sys)
    requires m.tasks != [] && cfg.attempts >= 1
    ensures Reachable(s, cfg) && m in s.ledger.lost && s.sm.state.ReturningHome?
    ensures Response(StartMission) in s.mail && s.mail[Response(StartMission)] == OfReply(true)
  {
    s := RefusedReturnHomeStop(cfg, m);
    s := ForgetMission(Initial(UnknownStatus), cfg, s, m);
    ReachesFromStart(UnknownStatus, cfg, s);
  }

  // ---------------------------------------------------------------- a paused mission is taken to be running

  /** A mission is monitored, and the main loop is about to poll for a pause. */
  lemma Monitored(cfg: Config, m: Mission) returns (s: Sys)
    requires m.tasks != [] && !m.IsReturnToHome()
    ensures Reaches(Initial(UnknownStatus), cfg, s) && s.sm == Sm(Monitor(m.id), NOTHING)
    ensures s.rs == Rs(PollPause, [Scheduled(m)], Some(0))
    ensures s.mail == map[Response(StartMission) := OfReply(true), MissionStartedSuccessfully := Empty]
  {
    var origin := Initial(UnknownStatus);
    s := Idle(cfg);
    s := AcceptStart(origin, cfg, s, m);
    s := GoEffect(origin, cfg, s);
    s := GoEffect(origin, cfg, s);
    assert s.mail == map[StartCommand := OfMission(m), Response(StartMission) := OfReply(true)];
    s := GoMain(origin, cfg, s, Accepts);
    assert s.rs.starts == [Initiating(m)];
    s := GoMain(origin, cfg, s, Accepts);
  }

  lemma PauseIsPut(cfg: Config, m: Mission) returns (s: Sys)
    requires m.tasks != [] && !m.IsReturnToHome()
    ensures Reaches(Initial(UnknownStatus), cfg, s) && s.sm.state == Pausing(m.id) && !HasWork(s.sm.script)
    ensures s.rs == Rs(PollPause, [Scheduled(m)], Some(0))
    ensures s.mail == map[Response(StartMission) := OfReply(true), MissionStartedSuccessfully := Empty,
                          Response(PauseMission) := OfReply(true), PauseCommand := Empty]
  {
    var origin := Initial(UnknownStatus);
    s := Monitored(cfg, m);
    s := GoHandle(origin, cfg, s, Request(PauseMission), Empty);
    s := GoEffect(origin, cfg, s);
    s := GoEffect(origin, cfg, s);
  }

  lemma PauseIsObeyed(cfg: Config, m: Mission) returns (s: Sys)
    requires m.tasks != [] && !m.IsReturnToHome()
    ensures Reaches(Initial(UnknownStatus), cfg, s) && s.sm.state == Pausing(m.id) && !HasWork(s.sm.script)
    ensures s.rs == Rs(PollResume, [Scheduled(m)], Some(0))
    ensures s.mail == map[Response(StartMission) := OfReply(true), MissionStartedSuccessfully := Empty,
                          Response(PauseMission) := OfReply(true), MissionSuccessfullyPaused := Empty]
  {
    s := PauseIsPut(cfg, m);
    s := GoMain(Initial(UnknownStatus), cfg, s, Accepts);
    s := GoMain(Initial(UnknownStatus), cfg, s, Accepts);
  }

  /** It is paused, and asked to go to lockdown. */
  lemma PausedAndSentToLockdown(cfg: Config, m: Mission) returns (s: Sys)
    requires m.tasks != [] && !m.IsReturnToHome()
    ensures Reachable(s, cfg) && s.sm == Sm(SmState.Paused(m.id), NOTHING)
    ensures s.rs == Rs(PollResume, [Scheduled(m)], Some(0))
    ensures s.mail == map[Response(StartMission) := OfReply(true), MissionStartedSuccessfully := Empty,
                          Response(PauseMission) := OfReply(true), Request(SendToLockdown) := Empty]
  {
    var origin := Initial(UnknownStatus);
    s := PauseIsObeyed(cfg, m);
    s := GoConsume(origin, cfg, s, MissionSuccessfullyPaused);
    s := GoPut(origin, cfg, s, Request(SendToLockdown), Empty);
    ReachesFromStart(UnknownStatus, cfg, s);
  }

  /** What follows on the request, up to the failure of the stop. */
  lemma LockdownIsRefused(s: Sys, cfg: Config, id: string) returns (run: seq<Action>)
    requires s.sm == Sm(StoppingGoToLockdown(id), StopThen(None, StoppingGoToLockdown(id)).script)
    requires s.rs.pc.PollResume? && s.rs.monitor.Some? && s.rs.monitor.value < |s.rs.starts| && cfg.attempts >= 1
    requires ResumeCommand !in s.mail && StopCommand !in s.mail && MissionFailedToStop !in s.mail
    ensures CanRun(s, cfg, run) && Waits(run)
    ensures Run(s, cfg, run).sm == Sm(StoppingGoToLockdown(id), NOTHING)
    ensures var s' := Run(s, cfg, run); MissionFailedToStop in s'.mail && s'.mail[MissionFailedToStop] == Empty
  {
    var s1 := Effected(s);
    RunOne(s, cfg, SmEffect);
    var refused := RefuseStop(s1, cfg);
    RunAppend(s, cfg, [SmEffect], refused);
    run := [SmEffect] + refused;
  }

  /**
   A run in which the lockdown of a paused mission fails: the robot would not stop, the mission is still paused, and the
   state machine goes on as if it was running.
   */
  lemma PausedMissionIsTakenToBeRunning(cfg: Config, m: Mission) returns (s: Sys, run: seq<Action>)
    requires m.tasks != [] && !m.IsReturnToHome() && cfg.attempts >= 1
    ensures s.sm.state == SmState.Paused(m.id)
    ensures Interrupts(s, cfg, Request(SendToLockdown), run, MissionFailedToStop)
    ensures AfterOutcome(s, cfg, Request(SendToLockdown), run, MissionFailedToStop).sm.state == Monitor(m.id)
  {
    s := PausedAndSentToLockdown(cfg, m);
    run := LockdownFails(s, cfg, m.id);
  }

  lemma LockdownFails(s: Sys, cfg: Config, id: string) returns (run: seq<Action>)
    requires Reachable(s, cfg) && s.sm == Sm(SmState.Paused(id), NOTHING)
    requires Request(SendToLockdown) in s.mail && s.mail[Request(SendToLockdown)] == Empty
    requires s.rs.pc.PollResume? && s.rs.monitor.Some? && s.rs.monitor.value < |s.rs.starts| && cfg.attempts >= 1
    requires ResumeCommand !in s.mail && StopCommand !in s.mail && MissionFailedToStop !in s.mail
    ensures Interrupts(s, cfg, Request(SendToLockdown), run, MissionFailedToStop)
    ensures AfterOutcome(s, cfg, Request(SendToLockdown), run, MissionFailedToStop).sm.state == Monitor(id)
  {
    LockdownIsAccepted(s, cfg, id);
    run := LockdownIsRefused(Step(s, cfg, SmConsume(Request(SendToLockdown))), cfg, id);
    LockdownHasFailed(Run(Step(s, cfg, SmConsume(Request(SendToLockdown))), cfg, run), cfg, id);
  }

  lemma LockdownHasFailed(s: Sys, cfg: Config, id: string)
    requires s.sm.state == StoppingGoToLockdown(id) && Enabled(s, SmConsume(MissionFailedToStop))
    ensures Step(s, cfg, SmConsume(MissionFailedToStop)).sm.state == Monitor(id)
  {
    FailureLeadsBack(StoppingGoToLockdown(id), cfg.retryLimit);
    ConsumeMoves(s, cfg, MissionFailedToStop);
  }

  lemma LockdownIsAccepted(s: Sys, cfg: Config, id: string)
    requires s.sm == Sm(SmState.Paused(id), NOTHING)
    requires Request(SendToLockdown) in s.mail && s.mail[Request(SendToLockdown)] == Empty
    ensures Enabled(s, SmConsume(Request(SendToLockdown)))
    ensures React(s.sm.state, cfg.retryLimit, Request(SendToLockdown), Empty).next == Some(StoppingGoToLockdown(id))
    ensures var s' := Step(s, cfg, SmConsume(Request(SendToLockdown)));
            && s'.sm == Sm(StoppingGoToLockdown(id), StopThen(None, StoppingGoToLockdown(id)).script)
            && s'.rs == s.rs && s'.mail == s.mail - {Request(SendToLockdown)}
  {}

  // ---------------------------------------------------------------- a resume that never reaches the robot

  /** None of the mailboxes is used that a pause and what follows on it need to be empty. */
  ghost predicate IsFree(mail: Mail) {
    && Request(PauseMission) !in mail && Request(SendToLockdown) !in mail && Request(ReturnHome) !in mail
    && Request(ResumeMission) !in mail && PauseCommand !in mail && ResumeCommand !in mail && StopCommand !in mail
    && MissionFailedToPause !in mail && MissionSuccessfullyPaused !in mail && MissionFailed !in mail
    && MissionSucceeded !in mail
  }

  lemma PutPause(origin: Sys, cfg: Config, s: Sys) returns (s': Sys)
    requires Reaches(origin, cfg, s) && s.sm.state.ReturningHome? && !HasWork(s.sm.script) && IsFree(s.mail)
    ensures Reaches(origin, cfg, s') && s'.rs == s.rs && s'.sm.state.PausingReturnHome? && !HasWork(s'.sm.script)
    ensures s'.mail == Trigger(s.mail, Response(PauseMission), OfReply(true))[PauseCommand := Empty]
  {
    s' := GoHandle(origin, cfg, s, Request(PauseMission), Empty);
    s' := GoEffect(origin, cfg, s');
    s' := GoEffect(origin, cfg, s');
  }

  /** A return home is paused, and the robot obeys. */
  lemma PauseReturnHome(origin: Sys, cfg: Config, s: Sys) returns (s': Sys)
    requires Reaches(origin, cfg, s) && s.sm.state.ReturningHome? && !HasWork(s.sm.script) && IsFree(s.mail)
    requires s.rs.pc.PollPause?
    ensures Reaches(origin, cfg, s') && s'.rs == s.rs.(pc := PollResume) && s'.sm == Sm(ReturnHomePaused, NOTHING)
    ensures s'.mail == Trigger(s.mail, Response(PauseMission), OfReply(true))
  {
    s' := PutPause(origin, cfg, s);
    s' := GoMain(origin, cfg, s', Accepts);
    s' := GoMain(origin, cfg, s', Accepts);
    s' := GoConsume(origin, cfg, s', MissionSuccessfullyPaused);
    assert s'.mail == Trigger(s.mail, Response(PauseMission), OfReply(true));
  }

  /**
   A reachable state in which a return home is paused and the battery is low.  Taking the signal makes the state machine
   wait for the robot to come home, although it is paused and nothing is commanded.
   */
  lemma PausedReturnHomeIsTakenToMove(cfg: Config) returns (s: Sys)
    ensures Reachable(s, cfg) && s.sm == Sm(ReturnHomePaused, NOTHING)
    ensures Enabled(s, SmConsume(BatteryBelowMissionThreshold)) && ResumeCommand !in s.mail && !s.rs.pc.ResumeRobot?
    ensures var s' := Step(s, cfg, SmConsume(BatteryBelowMissionThreshold));
            s'.sm == Sm(ReturningHome(cfg.retryLimit - 1), NOTHING) && ResumeCommand !in s'.mail
  {
    var origin := Initial(UnknownStatus);
    s := ReturnHomeByTimer(cfg);
    s := PauseReturnHome(origin, cfg, s);
    s := GoPut(origin, cfg, s, BatteryBelowMissionThreshold, Empty);
    ReachesFromStart(UnknownStatus, cfg, s);
    LowBatteryCommandsNothing(cfg.retryLimit);
  }

  lemma LowBatteryCommandsNothing(limit: int)
    ensures BatteryBelowMissionThreshold in Table(ReturnHomePaused)
    ensures React(ReturnHomePaused, limit, BatteryBelowMissionThreshold, Empty)
            == Reaction(NOTHING, [], Some(ReturningHome(limit - 1)))
  {}

  /** It is sent to lockdown, for which it is resumed, ... */
  lemma SendToLockdownPaused(origin: Sys, cfg: Config, s: Sys) returns (s': Sys)
    requires Reaches(origin, cfg, s) && s.sm == Sm(ReturnHomePaused, NOTHING) && IsFree(s.mail)
    ensures Reaches(origin, cfg, s') && s'.rs == s.rs && s'.sm.state.GoingToLockdown? && !HasWork(s'.sm.script)
    ensures s'.mail == Trigger(s.mail[ResumeCommand := Empty], Response(SendToLockdown), OfReply(true))
  {
    s' := GoHandle(origin, cfg, s, Request(SendToLockdown), Empty);
    s' := GoEffect(origin, cfg, s');
    s' := GoEffect(origin, cfg, s');
  }

  /** ... and the robot obeys; the outcome is left. */
  lemma LeaveSuccess(origin: Sys, cfg: Config, s: Sys) returns (s': Sys)
    requires Reaches(origin, cfg, s) && s.rs.pc.PollResume? && ResumeCommand in s.mail
    requires MissionSuccessfullyResumed !in s.mail
    ensures Reaches(origin, cfg, s') && s'.rs == s.rs.(pc := PollStop) && s'.sm == s.sm
    ensures s'.mail == (s.mail - {ResumeCommand})[MissionSuccessfullyResumed := Empty]
  {
    s' := GoMain(origin, cfg, s, Accepts);
    s' := GoMain(origin, cfg, s', Accepts);
  }

  /** The main loop gets to the start command of the return home, ... */
  lemma TakeStart(origin: Sys, cfg: Config, s: Sys, m: Mission) returns (s': Sys)
    requires Reaches(origin, cfg, s) && s.rs == Rs(PollStop, [], None) && StopCommand !in s.mail
    requires StartCommand in s.mail && s.mail[StartCommand] == OfMission(m)
    ensures Reaches(origin, cfg, s') && s'.sm == s.sm && s'.mail == s.mail - {StartCommand}
    ensures s'.rs == Rs(InitiateMission, [Initiating(m)], None)
  {
    s' := GoMain(origin, cfg, s, Accepts);
    assert s'.mail == s.mail;
    s' := GoMain(origin, cfg, s', Accepts);
    s' := GoMain(origin, cfg, s', Accepts);
    s' := GoMain(origin, cfg, s', Accepts);
    assert s'.rs.starts == [Initiating(m)];
  }

  /** ... which the robot refuses, so that an intervention is needed. */
  lemma RefuseStart(origin: Sys, cfg: Config, s: Sys, m: Mission) returns (s': Sys)
    requires Reaches(origin, cfg, s) && s.rs == Rs(InitiateMission, [Initiating(m)], None)
    requires s.sm.state.GoingToLockdown? && !HasWork(s.sm.script) && MissionFailed !in s.mail
    ensures Reaches(origin, cfg, s') && s'.rs == Rs(PollPause, [Refused], None) && s'.mail == s.mail
    ensures s'.sm == Sm(InterventionNeeded, NOTHING)
  {
    s' := GoMain(origin, cfg, s, Fails);
    assert s'.rs.starts == [Refused];
    s' := GoConsume(origin, cfg, s', MissionFailed);
    assert s'.mail == s.mail;
  }

  /** A return home is requested again. */
  lemma ReturnAgain(origin: Sys, cfg: Config, s: Sys) returns (s': Sys)
    requires Reaches(origin, cfg, s) && s.sm == Sm(InterventionNeeded, NOTHING) && IsFree(s.mail)
    requires StartCommand !in s.mail
    ensures Reaches(origin, cfg, s') && s'.rs == s.rs && s'.sm.state.ReturningHome? && !HasWork(s'.sm.script)
    ensures s'.mail
            == Trigger(s.mail[StartCommand := OfMission(ReturnHomeMission())], Response(ReturnHome), OfReply(true))
  {
    s' := GoHandle(origin, cfg, s, Request(ReturnHome), Empty);
    s' := Wipe(origin, cfg, s');
    s' := Wipe(origin, cfg, s');
    s' := GoEffect(origin, cfg, s');
    s' := GoEffect(origin, cfg, s');
  }

  /** Up to the intervention. */
  lemma SuccessIsLeft(cfg: Config) returns (s: Sys)
    ensures Reaches(Initial(UnknownStatus), cfg, s)
    ensures s.sm == Sm(InterventionNeeded, NOTHING) && s.rs == Rs(PollPause, [Refused], None)
    ensures MissionSuccessfullyResumed in s.mail && StartCommand !in s.mail && IsFree(s.mail)
  {
    var origin := Initial(UnknownStatus);
    s := ReturnHomeByTimer(cfg);
    s := PauseReturnHome(origin, cfg, s);
    s := SendToLockdownPaused(origin, cfg, s);
    s := LeaveSuccess(origin, cfg, s);
    s := TakeStart(origin, cfg, s, ReturnHomeMission());
    s := RefuseStart(origin, cfg, s, ReturnHomeMission());
  }

  /** Up to the request to resume. */
  lemma ResumeIsRequested(cfg: Config) returns (s: Sys)
    ensures Reachable(s, cfg) && s.sm == Sm(ReturnHomePaused, NOTHING)
    ensures MissionSuccessfullyResumed in s.mail && Request(ResumeMission) in s.mail
    ensures s.mail[Request(ResumeMission)] == Empty
  {
    var origin := Initial(UnknownStatus);
    s := SuccessIsLeft(cfg);
    s := ReturnAgain(origin, cfg, s);
    s := PauseReturnHome(origin, cfg, s);
    s := GoPut(origin, cfg, s, Request(ResumeMission), Empty);
    ReachesFromStart(UnknownStatus, cfg, s);
  }

  /**
   A run in which a paused return home is taken to be running again: the state machine has taken the success of an
   earlier resume, the robot has not been asked, and the command is still waiting.
   */
  lemma ResumeCanBeAnsweredByAnother(cfg: Config) returns (s: Sys, run: seq<Action>)
    ensures s.sm.state.ReturnHomePaused?
    ensures Interrupts(s, cfg, Request(ResumeMission), run, MissionSuccessfullyResumed)
    ensures AnswersIn(Step(s, cfg, SmConsume(Request(ResumeMission))), cfg, run, ResumeCall) == []
    ensures var s' := AfterOutcome(s, cfg, Request(ResumeMission), run, MissionSuccessfullyResumed);
            s'.sm.state.ReturningHome? && ResumeCommand in s'.mail
  {
    s := ResumeIsRequested(cfg);
    ResumeBegins(s, cfg);
    ResumeScript(s.sm.state, cfg.retryLimit);
    var s1 := Step(s, cfg, SmConsume(Request(ResumeMission)));
    run := PutResume(s1, cfg);
    ReachableIsTyped(s, cfg, run);
    LeftSuccessIsTaken(Run(s1, cfg, run), cfg);
  }

  lemma ReachableIsTyped(s: Sys, cfg: Config, run: seq<Action>)
    requires Reachable(s, cfg) && Enabled(s, SmConsume(Request(ResumeMission)))
    requires CanRun(Step(s, cfg, SmConsume(Request(ResumeMission))), cfg, run)
    ensures Typed(Run(Step(s, cfg, SmConsume(Request(ResumeMission))), cfg, run).mail)
  {
    ReachableInv(s, cfg);
    StepKeepsInv(s, cfg, SmConsume(Request(ResumeMission)));
    RunKeepsInv(Step(s, cfg, SmConsume(Request(ResumeMission))), cfg, run);
  }

  lemma LeftSuccessIsTaken(s: Sys, cfg: Config)
    requires s.sm.state.ResumingReturnHome? && !HasWork(s.sm.script) && Typed(s.mail)
    requires MissionSuccessfullyResumed in s.mail && ResumeCommand in s.mail
    ensures Enabled(s, SmConsume(MissionSuccessfullyResumed))
    ensures Step(s, cfg, SmConsume(MissionSuccessfullyResumed)).sm.state.ReturningHome?
    ensures ResumeCommand in Step(s, cfg, SmConsume(MissionSuccessfullyResumed)).mail
  {
    assert s.mail[MissionSuccessfullyResumed] == Empty;
  }

  // ---------------------------------------------------------------- a mission that ends without a word

  /** The monitor of a mission is at work, and the main loop has yielded. */
  lemma MonitorAtWork(cfg: Config, m: Mission) returns (s: Sys)
    requires m.tasks != [] && !m.IsReturnToHome()
    ensures Reaches(Initial(UnknownStatus), cfg, s) && s.sm == Sm(Monitor(m.id), NOTHING)
    ensures s.rs == Rs(Yielded, [Monitoring(m)], Some(0))
    ensures s.mail == map[Response(StartMission) := OfReply(true), MissionStartedSuccessfully := Empty]
  {
    var origin := Initial(UnknownStatus);
    s := Monitored(cfg, m);
    s := GoMain(origin, cfg, s, Accepts);
    assert s.mail == map[Response(StartMission) := OfReply(true), MissionStartedSuccessfully := Empty];
    s := GoMain(origin, cfg, s, Accepts);
    assert s.mail == map[Response(StartMission) := OfReply(true), MissionStartedSuccessfully := Empty];
    s := GoMain(origin, cfg, s, Accepts);
    assert s.mail == map[Response(StartMission) := OfReply(true), MissionStartedSuccessfully := Empty];
    s := GoMain(origin, cfg, s, Accepts);
    ReachesNext(origin, cfg, s, MonitorEnter(0));
    s := Step(s, cfg, MonitorEnter(0));
  }

  /** The battery gets low, and the stop is put. */
  lemma StopForBattery(cfg: Config, m: Mission) returns (s: Sys)
    requires m.tasks != [] && !m.IsReturnToHome()
    ensures Reaches(Initial(UnknownStatus), cfg, s) && s.sm == Sm(StoppingGoToRecharge, NOTHING)
    ensures s.rs == Rs(Yielded, [Monitoring(m)], Some(0))
    ensures s.mail == map[Response(StartMission) := OfReply(true), MissionStartedSuccessfully := Empty,
                          StopCommand := Empty]
  {
    var origin := Initial(UnknownStatus);
    s := MonitorAtWork(cfg, m);
    s := GoHandle(origin, cfg, s, BatteryBelowMissionThreshold, Empty);
    s := GoEffect(origin, cfg, s);
  }

  /** The main loop gets to the stop. */
  lemma StopIsTaken(origin: Sys, cfg: Config, s: Sys) returns (s': Sys)
    requires Reaches(origin, cfg, s) && s.rs.pc.Yielded? && StopCommand in s.mail
    requires forall ch :: ch in s.mail ==> ch.Response? || ch.MissionStartedSuccessfully? || ch.StopCommand?
    ensures Reaches(origin, cfg, s') && s'.sm == s.sm && s'.rs == s.rs.(pc := Pc.StopRobot(0))
    ensures s'.mail == s.mail - {StopCommand}
  {
    s' := GoMain(origin, cfg, s, Accepts);
    s' := GoMain(origin, cfg, s', Accepts);
    s' := GoMain(origin, cfg, s', Accepts);
    assert s'.mail == s.mail;
    s' := GoMain(origin, cfg, s', Accepts);
    assert s'.mail == s.mail;
    s' := GoMain(origin, cfg, s', Accepts);
  }

  /** The robot stops, and the monitor hands its mission back. */
  lemma MonitorIsCancelled(origin: Sys, cfg: Config, s: Sys, m: Mission) returns (s': Sys)
    requires Reaches(origin, cfg, s) && s.rs == Rs(Pc.StopRobot(0), [Monitoring(m)], Some(0))
    requires m.UnfinishedTasks() != [] && MissionSuccessfullyStopped !in s.mail
    ensures Reaches(origin, cfg, s') && s'.sm == s.sm && s'.rs == Rs(CheckMonitor, [Aborted(m)], None)
    ensures s'.mail == s.mail[MissionSuccessfullyStopped := OfMission(m.Continued())]
  {
    s' := GoMain(origin, cfg, s, Accepts);
    assert s'.rs.starts == [CancelRequested(m, true)];
    ReachesNext(origin, cfg, s', MonitorAbort(0, m));
    s' := Step(s', cfg, MonitorAbort(0, m));
    assert s'.rs.starts == [Aborted(m)];
    s' := GoMain(origin, cfg, s', Accepts);
    s' := GoMain(origin, cfg, s', Accepts);
  }

  /** The rest of the mission is held, and a return home is commanded. */
  lemma GoHomeWithMission(origin: Sys, cfg: Config, s: Sys, held: Mission) returns (s': Sys)
    requires Reaches(origin, cfg, s) && s.sm == Sm(StoppingGoToRecharge, NOTHING)
    requires MissionSuccessfullyStopped in s.mail && s.mail[MissionSuccessfullyStopped] == OfMission(held)
    requires MissionFailed !in s.mail && MissionSucceeded !in s.mail && StartCommand !in s.mail
    ensures Reaches(origin, cfg, s') && s'.rs == s.rs && s'.sm == Sm(GoingToRechargingWithMission(held), NOTHING)
    ensures s'.mail == (s.mail - {MissionSuccessfullyStopped})[StartCommand := OfMission(ReturnHomeMission())]
  {
    s' := GoConsume(origin, cfg, s, MissionSuccessfullyStopped);
    s' := Wipe(origin, cfg, s');
    s' := Wipe(origin, cfg, s');
    s' := GoEffect(origin, cfg, s');
  }

  /** The start command of the return home is taken, ... */
  lemma TakeStartNext(origin: Sys, cfg: Config, s: Sys) returns (s': Sys)
    requires Reaches(origin, cfg, s) && s.rs.pc.CheckMonitor? && s.rs.monitor.None?
    requires StartCommand in s.mail && s.mail[StartCommand] == OfMission(ReturnHomeMission())
    ensures Reaches(origin, cfg, s') && s'.sm == s.sm && s'.mail == s.mail - {StartCommand}
    ensures s'.rs == Rs(InitiateMission, s.rs.starts + [Initiating(ReturnHomeMission())], None)
  {
    s' := GoMain(origin, cfg, s, Accepts);
    s' := GoMain(origin, cfg, s', Accepts);
    s' := GoMain(origin, cfg, s', Accepts);
  }

  /** ... but the robot is home already, and the mission is held while it recharges. */
  lemma HomeWithMission(origin: Sys, cfg: Config, s: Sys, held: Mission) returns (s': Sys)
    requires Reaches(origin, cfg, s) && s.sm == Sm(GoingToRechargingWithMission(held), NOTHING)
    requires s.rs.pc.CheckMonitor? && s.rs.monitor.None? && MissionSucceeded !in s.mail
    requires StartCommand in s.mail && s.mail[StartCommand] == OfMission(ReturnHomeMission())
    ensures Reaches(origin, cfg, s') && s'.sm == Sm(RechargingWithMission(held), NOTHING)
    ensures s'.mail == s.mail - {StartCommand}
  {
    s' := TakeStartNext(origin, cfg, s);
    s' := GoMain(origin, cfg, s', NothingToDo);
    s' := GoConsume(origin, cfg, s', MissionSucceeded);
    assert s'.mail == s.mail - {StartCommand};
  }

  /**
   A reachable state in which a mission is held for after the recharge and a request to stop it waits.  Taking the
   request answers it with success and ends the mission, and nothing is published about it.
   */
  lemma MissionCanEndSilently(cfg: Config, m: Mission) returns (s: Sys)
    requires m.tasks != [] && !m.IsReturnToHome() && m.UnfinishedTasks() != []
    ensures Reachable(s, cfg) && s.sm == Sm(RechargingWithMission(m.Continued()), NOTHING)
    ensures Enabled(s, SmConsume(Request(StopMission))) && s.mail[Request(StopMission)] == OfId(m.id)
    ensures var r := React(s.sm.state, cfg.retryLimit, Request(StopMission), OfId(m.id));
            && Tracked(s.sm.state) == Some(m.id) && Tracked(After(s.sm.state, r)) == None && r.reports == []
            && r.script.reply == Some(Reply(StopMission, true))
  {
    var origin := Initial(UnknownStatus);
    s := StopForBattery(cfg, m);
    s := StopIsTaken(origin, cfg, s);
    s := MonitorIsCancelled(origin, cfg, s, m);
    s := GoHomeWithMission(origin, cfg, s, m.Continued());
    s := HomeWithMission(origin, cfg, s, m.Continued());
    SilentStop(m.Continued(), cfg.retryLimit);
    s := GoPut(origin, cfg, s, Request(StopMission), OfId(m.id));
    ReachesFromStart(UnknownStatus, cfg, s);
  }
}
