/**
 The outcome that the state machine takes is what the robot answered to this very request: always for a stop and for a
 pause, and for a resume exactly if nothing is left from an earlier resume when it is requested.
 */
module Outcomes {
  import opened Missions
  import opened Events
  import opened Scripts
  import opened States
  import opened Reactions
  import opened Protocol
  import opened Runs
  import opened Tokens
  import opened Service
  import opened Invariants
  import opened Handshakes
  import opened HandshakeRuns
  import opened PauseHandshake

  /** The calls by which the main loop has the robot do something and then signals an outcome. */
  datatype Call = StopCall | PauseCall | ResumeCall

  predicate IsAt(pc: Pc, call: Call) {
    match call
    case StopCall => pc.StopRobot?
    case PauseCall => pc.PauseRobot?
    case ResumeCall => pc.ResumeRobot?
  }

  /** What the robot answers in a step that makes the call. */
  function Given(s: Sys, a: Action, call: Call): seq<Answer> {
    if a.RsMain? && IsAt(s.rs.pc, call) then [a.answer] else []
  }

  /** All answers to the calls that are made in the run. */
  ghost function AnswersIn(s: Sys, cfg: Config, run: seq<Action>, call: Call): seq<Answer>
    requires CanRun(s, cfg, run)
    decreases |run|
  {
    if run == [] then [] else Given(s, run[0], call) + AnswersIn(Step(s, cfg, run[0]), cfg, run[1..], call)
  }

  // ---------------------------------------------------------------- pauses and resumes

  function CommandFor(call: Call): Command { if call.PauseCall? then Pause else Resume }
  function Obeyed(call: Call): Channel {
    if call.PauseCall? then MissionSuccessfullyPaused else MissionSuccessfullyResumed
  }
  function Refused(call: Call): Channel { if call.PauseCall? then MissionFailedToPause else MissionFailedToResume }

  /** Where a pause or resume can be: about to be commanded, commanded, being handled, or answered. */
  function AskTokens(s: Sys, call: Call): nat {
    Bit(s.sm.script.command == Some(CommandFor(call))) + Bit(ChannelOf(CommandFor(call)) in s.mail)
    + Bit(IsAt(s.rs.pc, call)) + Bit(Obeyed(call) in s.mail) + Bit(Refused(call) in s.mail)
  }

  function ResumeTokens(s: Sys): nat { AskTokens(s, ResumeCall) }

  /** There is one token; the robot has been asked exactly if it is an outcome, which says what the robot answered. */
  ghost predicate OneAsk(s: Sys, call: Call, given: seq<Answer>) {
    && AskTokens(s, call) == 1
    && (Obeyed(call) in s.mail ==> |given| == 1 && given[0].Accepts?)
    && (Refused(call) in s.mail ==> |given| == 1 && !given[0].Accepts?)
    && (Obeyed(call) !in s.mail && Refused(call) !in s.mail ==> given == [])
  }

  lemma CallKeepsOneAsk(s: Sys, cfg: Config, answer: Answer, call: Call, given: seq<Answer>)
    requires !call.StopCall? && OneAsk(s, call, given) && MainReady(s) && IsAt(s.rs.pc, call)
    ensures OneAsk(MainStep(s, cfg, answer), call, [answer])
  {}

  predicate IsAskChannel(ch: Channel) {
    ch.PauseCommand? || ch.ResumeCommand? || ch.MissionFailedToPause? || ch.MissionSuccessfullyPaused? ||
    ch.MissionFailedToResume? || ch.MissionSuccessfullyResumed?
  }

  predicate IsAskPc(pc: Pc) { pc.PollPause? || pc.PauseRobot? || pc.PollResume? || pc.ResumeRobot? }

  /** The rest of the main loop has nothing to do with pauses and resumes. */
  lemma RestLeavesAsks(s: Sys, cfg: Config, answer: Answer, ch: Channel)
    requires MainReady(s) && !IsAskPc(s.rs.pc) && IsAskChannel(ch)
    ensures ch in MainStep(s, cfg, answer).mail <==> ch in s.mail
  {}

  lemma RestIsNotAtCall(s: Sys, cfg: Config, answer: Answer)
    requires MainReady(s) && !IsAskPc(s.rs.pc)
    ensures !MainStep(s, cfg, answer).rs.pc.PauseRobot? && !MainStep(s, cfg, answer).rs.pc.ResumeRobot?
    ensures MainStep(s, cfg, answer).sm == s.sm
  {}

  lemma PassKeepsOneAsk(s: Sys, cfg: Config, answer: Answer, call: Call, given: seq<Answer>)
    requires !call.StopCall? && OneAsk(s, call, given) && MainReady(s) && !IsAskPc(s.rs.pc)
    ensures OneAsk(MainStep(s, cfg, answer), call, given)
  {
    RestIsNotAtCall(s, cfg, answer);
    RestLeavesAsks(s, cfg, answer, ChannelOf(CommandFor(call)));
    RestLeavesAsks(s, cfg, answer, Obeyed(call));
    RestLeavesAsks(s, cfg, answer, Refused(call));
  }

  lemma OtherCallKeepsOneAsk(s: Sys, cfg: Config, answer: Answer, call: Call, given: seq<Answer>)
    requires !call.StopCall? && OneAsk(s, call, given) && !IsAt(s.rs.pc, call)
    requires s.rs.pc.PauseRobot? || s.rs.pc.ResumeRobot?
    ensures OneAsk(MainStep(s, cfg, answer), call, given)
  {}

  lemma PollKeepsOneAsk(s: Sys, cfg: Config, answer: Answer, call: Call, given: seq<Answer>)
    requires !call.StopCall? && OneAsk(s, call, given) && (s.rs.pc.PollPause? || s.rs.pc.PollResume?)
    ensures OneAsk(MainStep(s, cfg, answer), call, given)
  {}

  lemma MainKeepsOneAsk(s: Sys, cfg: Config, answer: Answer, call: Call, given: seq<Answer>)
    requires !call.StopCall? && OneAsk(s, call, given) && MainReady(s)
    ensures OneAsk(MainStep(s, cfg, answer), call, given + Given(s, RsMain(answer), call))
  {
    if IsAt(s.rs.pc, call) {
      assert given == [] && [] + [answer] == [answer];
      CallKeepsOneAsk(s, cfg, answer, call, given);
    } else {
      assert given + [] == given;
      if s.rs.pc.PollPause? || s.rs.pc.PollResume? {
        PollKeepsOneAsk(s, cfg, answer, call, given);
      } else if s.rs.pc.PauseRobot? || s.rs.pc.ResumeRobot? {
        OtherCallKeepsOneAsk(s, cfg, answer, call, given);
      } else {
        PassKeepsOneAsk(s, cfg, answer, call, given);
      }
    }
  }

  lemma EffectKeepsOneAsk(s: Sys, call: Call, given: seq<Answer>)
    requires !call.StopCall? && OneAsk(s, call, given) && HasWork(s.sm.script)
    ensures OneAsk(Effected(s), call, given)
  {}

  lemma StepKeepsOneAsk(s: Sys, cfg: Config, a: Action, call: Call, given: seq<Answer>)
    requires !call.StopCall? && OneAsk(s, call, given) && Enabled(s, a) && !a.SmConsume? && !a.SmTimer?
    ensures OneAsk(Step(s, cfg, a), call, given + Given(s, a, call))
  {
    assert given + [] == given;
    match a
    case RsMain(answer) => MainKeepsOneAsk(s, cfg, answer, call, given);
    case SmEffect => EffectKeepsOneAsk(s, call, given);
    case _ =>
  }

  lemma {:induction false} RunKeepsOneAsk(s: Sys, cfg: Config, run: seq<Action>, call: Call, given: seq<Answer>)
    requires !call.StopCall? && OneAsk(s, call, given) && CanRun(s, cfg, run) && Waits(run)
    requires IsHandshake(s.sm.state)
    ensures OneAsk(Run(s, cfg, run), call, given + AnswersIn(s, cfg, run, call))
    decreases |run|
  {
    if run == [] {
      assert given + [] == given;
    } else {
      assert !run[0].SmConsume?;
      StepWhileWaiting(s, cfg, run[0]);
      StepKeepsOneAsk(s, cfg, run[0], call, given);
      assert Waits(run[1..]);
      var s' := Step(s, cfg, run[0]);
      RunKeepsOneAsk(s', cfg, run[1..], call, given + Given(s, run[0], call));
      assert given + Given(s, run[0], call) + AnswersIn(s', cfg, run[1..], call)
             == given + AnswersIn(s, cfg, run, call);
    }
  }

  // ---------------------------------------------------------------- a pause is answered by its own outcome

  lemma PauseBegins(s: Sys, cfg: Config, ch: Channel)
    requires Reachable(s, cfg) && Enabled(s, SmConsume(ch)) && !IsPausing(s.sm.state)
    requires IsPausing(Step(s, cfg, SmConsume(ch)).sm.state)
    ensures OneAsk(Step(s, cfg, SmConsume(ch)), PauseCall, [])
  {
    ReachableInv(s, cfg);
    ConsumeKeepsTokens(s, cfg, ch);
    ConsumeMoves(s, cfg, ch);
    ReactionBalanced(s.sm.state, cfg.retryLimit, ch, s.mail[ch]);
    assert PauseTokens(Step(s, cfg, SmConsume(ch))) == 1;
  }

  /** No handshake is entered out of a state that waits for a pause or a resume. */
  lemma NotAskingBefore(s: Sys, cfg: Config, ch: Channel)
    requires Enabled(s, SmConsume(ch)) && EntersHandshake(React(s.sm.state, cfg.retryLimit, ch, s.mail[ch]))
    ensures !IsAsking(s.sm.state)
  {
    if IsAsking(s.sm.state) {
      NonePauseOrResume(s.sm.state, cfg.retryLimit, ch, s.mail[ch]);
    }
  }

  /** The robot is asked once to pause, and the state machine takes the outcome of this. */
  lemma PauseOutcomeIsTheAnswer(s: Sys, cfg: Config, ch: Channel, run: seq<Action>, outcome: Channel)
    requires Interrupts(s, cfg, ch, run, outcome)
    requires IsPausing(Step(s, cfg, SmConsume(ch)).sm.state)
    ensures var given := AnswersIn(Step(s, cfg, SmConsume(ch)), cfg, run, PauseCall);
            |given| == 1 && outcome == if given[0].Accepts? then MissionSuccessfullyPaused else MissionFailedToPause
  {
    var s1 := Step(s, cfg, SmConsume(ch));
    NotAskingBefore(s, cfg, ch);
    PauseBegins(s, cfg, ch);
    RunKeepsOneAsk(s1, cfg, run, PauseCall, []);
    StaysInHandshake(s1, cfg, run);
    TableOutcomes(s1.sm.state, outcome);
    assert [] + AnswersIn(s1, cfg, run, PauseCall) == AnswersIn(s1, cfg, run, PauseCall);
  }

  lemma PauseIsEntered(s: Sys, cfg: Config)
    requires Enabled(s, SmConsume(Request(PauseMission))) && (s.sm.state.Monitor? || s.sm.state.ReturningHome?)
    ensures IsPausing(Step(s, cfg, SmConsume(Request(PauseMission))).sm.state)
  {
    ConsumeMoves(s, cfg, Request(PauseMission));
    assert s.mail[Request(PauseMission)] == Empty;
    PauseReactions(s.sm.state, cfg.retryLimit);
  }

  /** So the mission or return home is paused exactly if the robot obeys. */
  lemma PauseSuspendsIffObeyed(s: Sys, cfg: Config, run: seq<Action>, outcome: Channel)
    requires Interrupts(s, cfg, Request(PauseMission), run, outcome)
    requires s.sm.state.Monitor? || s.sm.state.ReturningHome?
    ensures |AnswersIn(Step(s, cfg, SmConsume(Request(PauseMission))), cfg, run, PauseCall)| == 1
    ensures AfterOutcome(s, cfg, Request(PauseMission), run, outcome).sm.state == PausedOf(s.sm.state)
            <==> AnswersIn(Step(s, cfg, SmConsume(Request(PauseMission))), cfg, run, PauseCall)[0].Accepts?
  {
    PauseIsEntered(s, cfg);
    PauseOutcomeIsTheAnswer(s, cfg, Request(PauseMission), run, outcome);
    if outcome.MissionSuccessfullyPaused? {
      ObeyedPauseSuspends(s, cfg, run);
    } else {
      RefusedHandshakeIsUndoneIff(s, cfg, Request(PauseMission), run, outcome);
    }
  }

  // ---------------------------------------------------------------- a resume is, if nothing is left of an earlier one

  lemma ResumeTable(st: SmState, ch: Channel)
    requires IsResuming(st) && ch in Table(st)
    ensures ch.MissionFailedToResume? || ch.MissionSuccessfullyResumed?
  {}

  lemma ResumeIsPolledIn(st: SmState)
    requires Request(ResumeMission) in Table(st)
    ensures st.Paused? || st.ReturnHomePaused?
  {}

  lemma ResumeScript(st: SmState, limit: int)
    requires st.Paused? || st.ReturnHomePaused?
    ensures Request(ResumeMission) in Table(st)
    ensures React(st, limit, Request(ResumeMission), Empty)
            == Reaction(Script(true, [], Some(Resume), Some(Reply(ResumeMission, true))), [], Some(ResumingOf(st)))
  {}

  lemma OutcomePutsNothing(st: SmState, limit: int, ch: Channel)
    requires IsResuming(st) && ch in Table(st) && Carries(ch, Empty)
    ensures React(st, limit, ch, Empty).script == NOTHING
  {}

  /** What a resume request does at once. */
  lemma ResumeBegins(s: Sys, cfg: Config)
    requires Enabled(s, SmConsume(Request(ResumeMission)))
    ensures s.sm.state.Paused? || s.sm.state.ReturnHomePaused?
    ensures var s1 := Step(s, cfg, SmConsume(Request(ResumeMission)));
            && s1.sm == Sm(ResumingOf(s.sm.state), Script(true, [], Some(Resume), Some(Reply(ResumeMission, true))))
            && s1.mail == s.mail - {Request(ResumeMission)} && s1.rs == s.rs
  {
    ResumeIsPolledIn(s.sm.state);
    ResumeScript(s.sm.state, cfg.retryLimit);
  }

  /** With nothing left, the robot is asked once to resume, the outcome taken is its answer, and nothing is left. */
  lemma ResumeOutcomeIsTheAnswer(s: Sys, cfg: Config, run: seq<Action>, outcome: Channel)
    requires Interrupts(s, cfg, Request(ResumeMission), run, outcome) && ResumeTokens(s) == 0
    ensures var given := AnswersIn(Step(s, cfg, SmConsume(Request(ResumeMission))), cfg, run, ResumeCall);
            |given| == 1 && outcome == if given[0].Accepts? then MissionSuccessfullyResumed else MissionFailedToResume
    ensures ResumeTokens(AfterOutcome(s, cfg, Request(ResumeMission), run, outcome)) == 0
  {
    var s1 := Step(s, cfg, SmConsume(Request(ResumeMission)));
    ResumeBegins(s, cfg);
    assert OneAsk(s1, ResumeCall, []);
    RunKeepsOneAsk(s1, cfg, run, ResumeCall, []);
    StaysInHandshake(s1, cfg, run);
    ResumeTable(s1.sm.state, outcome);
    assert [] + AnswersIn(s1, cfg, run, ResumeCall) == AnswersIn(s1, cfg, run, ResumeCall);
    TakingLeavesNothing(AtOutcome(s, cfg, Request(ResumeMission), run, outcome), cfg, outcome);
  }

  /** So the mission or return home is taken up again exactly if the robot obeys. */
  lemma ResumeContinuesIffObeyed(s: Sys, cfg: Config, run: seq<Action>, outcome: Channel)
    requires Interrupts(s, cfg, Request(ResumeMission), run, outcome) && ResumeTokens(s) == 0
    requires s.sm.state.Paused? || s.sm.state.ReturnHomePaused?
    ensures |AnswersIn(Step(s, cfg, SmConsume(Request(ResumeMission))), cfg, run, ResumeCall)| == 1
    ensures SameActivity(AfterOutcome(s, cfg, Request(ResumeMission), run, outcome).sm.state, RunningOf(s.sm.state))
            <==> AnswersIn(Step(s, cfg, SmConsume(Request(ResumeMission))), cfg, run, ResumeCall)[0].Accepts?
  {
    ResumeOutcomeIsTheAnswer(s, cfg, run, outcome);
    if outcome.MissionSuccessfullyResumed? {
      ObeyedResumeContinues(s, cfg, run);
    } else {
      RefusedHandshakeIsUndoneIff(s, cfg, Request(ResumeMission), run, outcome);
    }
  }

  lemma TakingLeavesNothing(s: Sys, cfg: Config, outcome: Channel)
    requires IsResuming(s.sm.state) && Enabled(s, SmConsume(outcome)) && ResumeTokens(s) == 1
    ensures ResumeTokens(Step(s, cfg, SmConsume(outcome))) == 0
  {
    ResumeTable(s.sm.state, outcome);
    assert s.mail[outcome] == Empty;
    OutcomePutsNothing(s.sm.state, cfg.retryLimit, outcome);
  }

  // ---------------------------------------------------------------- and only then

  /** The main loop answers what is left of an earlier resume before the new one is commanded. */
  lemma {:induction false} AnswerOld(s: Sys, cfg: Config) returns (run: seq<Action>)
    requires TokenInv(s) && TaskInv(s.rs) && IsResuming(s.sm.state)
    requires ResumeCommand in s.mail || s.rs.pc.ResumeRobot? || HasOutcome(s.mail, s.sm.state)
    ensures CanRun(s, cfg, run) && Waits(run)
    ensures Run(s, cfg, run).sm == s.sm && HasOutcome(Run(s, cfg, run).mail, s.sm.state)
    decreases if HasOutcome(s.mail, s.sm.state) then 0
              else if s.rs.pc.ResumeRobot? then 1 else 1 + StepsToPoll(s.rs.pc, false)
  {
    if HasOutcome(s.mail, s.sm.state) {
      run := [];
    } else {
      var s' := MainStep(s, cfg, Accepts);
      RunOne(s, cfg, RsMain(Accepts));
      MainKeepsTokens(s, cfg, Accepts);
      MainKeepsTasks(s, cfg, Accepts);
      MainWhileWaiting(s, cfg, Accepts);
      OldMovesOn(s, cfg);
      var rest := AnswerOld(s', cfg);
      RunAppend(s, cfg, [RsMain(Accepts)], rest);
      run := [RsMain(Accepts)] + rest;
    }
  }

  lemma OldMovesOn(s: Sys, cfg: Config)
    requires TokenInv(s) && TaskInv(s.rs) && IsResuming(s.sm.state) && !HasOutcome(s.mail, s.sm.state)
    requires ResumeCommand in s.mail || s.rs.pc.ResumeRobot?
    ensures MainReady(s)
    ensures var s' := MainStep(s, cfg, Accepts);
            if s.rs.pc.ResumeRobot? then HasOutcome(s'.mail, s.sm.state)
            else if s.rs.pc.PollResume? then s'.rs.pc.ResumeRobot?
            else ResumeCommand in s'.mail && !s'.rs.pc.ResumeRobot?
                 && StepsToPoll(s'.rs.pc, false) < StepsToPoll(s.rs.pc, false)
  {}

  /** The request is answered and the command put, or dropped because the mailbox is still full. */
  lemma PutResume(s: Sys, cfg: Config) returns (run: seq<Action>)
    requires s.sm.script == Script(true, [], Some(Resume), Some(Reply(ResumeMission, true)))
    ensures CanRun(s, cfg, run) && Waits(run) && AnswersIn(s, cfg, run, ResumeCall) == []
    ensures var s' := Run(s, cfg, run);
            && s'.sm.state == s.sm.state && !HasWork(s'.sm.script) && ResumeCommand in s'.mail
            && (MissionFailedToResume in s.mail ==> MissionFailedToResume in s'.mail)
            && (MissionSuccessfullyResumed in s.mail ==> MissionSuccessfullyResumed in s'.mail)
  {
    var s1 := Effected(s);
    RunOne(s, cfg, SmEffect);
    RunOne(s1, cfg, SmEffect);
    RunAppend(s, cfg, [SmEffect], [SmEffect]);
    run := [SmEffect] + [SmEffect];
    NothingAsked(s, cfg, run, ResumeCall);
  }

  lemma {:induction false} NothingAsked(s: Sys, cfg: Config, run: seq<Action>, call: Call)
    requires CanRun(s, cfg, run) && forall i :: 0 <= i < |run| ==> !run[i].RsMain?
    ensures AnswersIn(s, cfg, run, call) == []
    decreases |run|
  {
    if run == [] {
    } else {
      NothingAsked(Step(s, cfg, run[0]), cfg, run[1..], call);
    }
  }

  /** What is left of an earlier resume is answered first, and then the new one is commanded. */
  lemma OldThenNew(s: Sys, cfg: Config) returns (run: seq<Action>, outcome: Channel)
    requires TokenInv(s) && TaskInv(s.rs) && IsResuming(s.sm.state)
    requires s.sm.script == Script(true, [], Some(Resume), Some(Reply(ResumeMission, true)))
    requires ResumeCommand in s.mail || s.rs.pc.ResumeRobot? || HasOutcome(s.mail, s.sm.state)
    ensures CanRun(s, cfg, run) && Waits(run)
    ensures var s' := Run(s, cfg, run);
            && s'.sm.state == s.sm.state && !HasWork(s'.sm.script) && ResumeCommand in s'.mail && outcome in s'.mail
            && (outcome.MissionFailedToResume? || outcome.MissionSuccessfullyResumed?)
  {
    var earlier := AnswerOld(s, cfg);
    var s1 := Run(s, cfg, earlier);
    var put := PutResume(s1, cfg);
    RunAppend(s, cfg, earlier, put);
    run := earlier + put;
    outcome := if MissionFailedToResume in s1.mail then MissionFailedToResume else MissionSuccessfullyResumed;
  }

  /** If something is left of an earlier resume, the outcome of that one can be taken, and the new command is left. */
  lemma LeftOverRun(s: Sys, cfg: Config) returns (run: seq<Action>, outcome: Channel)
    requires Reachable(s, cfg) && Enabled(s, SmConsume(Request(ResumeMission))) && ResumeTokens(s) > 0
    ensures Interrupts(s, cfg, Request(ResumeMission), run, outcome)
    ensures ResumeTokens(AfterOutcome(s, cfg, Request(ResumeMission), run, outcome)) > 0
  {
    ReachableInv(s, cfg);
    ResumeBegins(s, cfg);
    var s1 := Step(s, cfg, SmConsume(Request(ResumeMission)));
    StepKeepsInv(s, cfg, SmConsume(Request(ResumeMission)));
    run, outcome := OldThenNew(s1, cfg);
    RunKeepsInv(s1, cfg, run);
    LeftOverIsTaken(Run(s1, cfg, run), cfg, outcome);
    assert s.mail[Request(ResumeMission)] == Empty;
    ResumeScript(s.sm.state, cfg.retryLimit);
  }

  lemma LeftOverIsTaken(s: Sys, cfg: Config, outcome: Channel)
    requires Typed(s.mail) && IsResuming(s.sm.state) && !HasWork(s.sm.script) && ResumeCommand in s.mail
    requires outcome in s.mail && (outcome.MissionFailedToResume? || outcome.MissionSuccessfullyResumed?)
    ensures Enabled(s, SmConsume(outcome)) && ResumeTokens(Step(s, cfg, SmConsume(outcome))) > 0
  {
    assert Carries(outcome, s.mail[outcome]);
  }

  /**
   Every run answers a resume request by what the robot says to it, so that nothing is left of it, exactly if nothing
   was left of an earlier resume when it was taken.
   */
  lemma ResumeIsAnsweredIff(s: Sys, cfg: Config)
    requires Reachable(s, cfg) && Enabled(s, SmConsume(Request(ResumeMission)))
    ensures ResumeTokens(s) == 0
            <==> forall run, outcome :: Interrupts(s, cfg, Request(ResumeMission), run, outcome) ==>
                   ResumeTokens(AfterOutcome(s, cfg, Request(ResumeMission), run, outcome)) == 0
  {
    if ResumeTokens(s) == 0 {
      forall run, outcome | Interrupts(s, cfg, Request(ResumeMission), run, outcome)
        ensures ResumeTokens(AfterOutcome(s, cfg, Request(ResumeMission), run, outcome)) == 0
      {
        ResumeOutcomeIsTheAnswer(s, cfg, run, outcome);
      }
    } else {
      var run, outcome := LeftOverRun(s, cfg);
    }
  }

  // ---------------------------------------------------------------- a stop is answered by its own outcome

  predicate AllFail(given: seq<Answer>) { forall i :: 0 <= i < |given| ==> given[i].Fails? }

  /** The last answer settles the matter, all before it are failures. */
  predicate EndsWell(given: seq<Answer>) {
    given != [] && !given[|given| - 1].Fails? && AllFail(given[..|given| - 1])
  }

  predicate HasStopped(s: Sys) {
    s.rs.pc.AwaitMonitor? || s.rs.pc.SignalContinued? || s.rs.pc.ClearSucceeded? || s.rs.pc.ClearFailed? ||
    s.rs.pc.SignalAlreadyDone? || MissionSuccessfullyStopped in s.mail || StoppedMissionAlreadyDone in s.mail
  }

  predicate HasFailed(s: Sys) { s.rs.pc.SignalFailedToStop? || MissionFailedToStop in s.mail }

  /** One stop is under way, and how far it has got says what the robot has answered. */
  ghost predicate OneStop(s: Sys, cfg: Config, given: seq<Answer>) {
    && StopTokens(s) == 1
    && (s.sm.script.command == Some(Stop) || StopCommand in s.mail ==> given == [])
    && (s.rs.pc.StopRobot? ==> |given| == s.rs.pc.failures < cfg.attempts && AllFail(given))
    && (HasFailed(s) ==> |given| == cfg.attempts && AllFail(given))
    && (HasStopped(s) ==> |given| <= cfg.attempts && EndsWell(given))
  }

  lemma AttemptKeepsOneStop(s: Sys, cfg: Config, answer: Answer, given: seq<Answer>)
    requires OneStop(s, cfg, given) && MainReady(s) && s.rs.pc.StopRobot?
    ensures OneStop(MainStep(s, cfg, answer), cfg, given + [answer])
  {
    assert (given + [answer])[..|given|] == given;
  }

  lemma HandlerKeepsOneStop(s: Sys, cfg: Config, answer: Answer, given: seq<Answer>)
    requires OneStop(s, cfg, given) && MainReady(s) && HandlingStop(s.rs.pc) && !s.rs.pc.StopRobot?
    ensures OneStop(MainStep(s, cfg, answer), cfg, given)
  {}

  lemma RestKeepsOneStop(s: Sys, cfg: Config, answer: Answer, given: seq<Answer>)
    requires OneStop(s, cfg, given) && MainReady(s) && !HandlingStop(s.rs.pc) && cfg.attempts >= 1
    ensures OneStop(MainStep(s, cfg, answer), cfg, given)
  {}

  lemma EffectKeepsOneStop(s: Sys, cfg: Config, given: seq<Answer>)
    requires OneStop(s, cfg, given) && HasWork(s.sm.script)
    ensures OneStop(Effected(s), cfg, given)
  {}

  lemma StepKeepsOneStop(s: Sys, cfg: Config, a: Action, given: seq<Answer>)
    requires OneStop(s, cfg, given) && cfg.attempts >= 1 && Enabled(s, a) && !a.SmConsume? && !a.SmTimer?
    ensures OneStop(Step(s, cfg, a), cfg, given + Given(s, a, StopCall))
  {
    assert given + [] == given;
    match a
    case RsMain(answer) =>
      if s.rs.pc.StopRobot? { AttemptKeepsOneStop(s, cfg, answer, given); }
      else if HandlingStop(s.rs.pc) { HandlerKeepsOneStop(s, cfg, answer, given); }
      else { RestKeepsOneStop(s, cfg, answer, given); }
    case SmEffect => EffectKeepsOneStop(s, cfg, given);
    case _ =>
  }

  lemma {:induction false} RunKeepsOneStop(s: Sys, cfg: Config, run: seq<Action>, given: seq<Answer>)
    requires OneStop(s, cfg, given) && cfg.attempts >= 1 && CanRun(s, cfg, run) && Waits(run)
    requires IsHandshake(s.sm.state)
    ensures OneStop(Run(s, cfg, run), cfg, given + AnswersIn(s, cfg, run, StopCall))
    decreases |run|
  {
    if run == [] {
      assert given + [] == given;
    } else {
      assert !run[0].SmConsume?;
      StepWhileWaiting(s, cfg, run[0]);
      StepKeepsOneStop(s, cfg, run[0], given);
      assert Waits(run[1..]);
      var s' := Step(s, cfg, run[0]);
      RunKeepsOneStop(s', cfg, run[1..], given + Given(s, run[0], StopCall));
      assert given + Given(s, run[0], StopCall) + AnswersIn(s', cfg, run[1..], StopCall)
             == given + AnswersIn(s, cfg, run, StopCall);
    }
  }

  lemma StopBegins(s: Sys, cfg: Config, ch: Channel)
    requires Reachable(s, cfg) && Enabled(s, SmConsume(ch)) && IsStopping(Step(s, cfg, SmConsume(ch)).sm.state)
    ensures OneStop(Step(s, cfg, SmConsume(ch)), cfg, [])
  {
    ReachableInv(s, cfg);
    ConsumeKeepsTokens(s, cfg, ch);
    ConsumeMoves(s, cfg, ch);
    ReactionBalanced(s.sm.state, cfg.retryLimit, ch, s.mail[ch]);
    assert StopTokens(Step(s, cfg, SmConsume(ch))) == 1;
  }

  lemma OutcomeOfStop(s: Sys, cfg: Config, given: seq<Answer>, outcome: Channel)
    requires OneStop(s, cfg, given) && IsStopping(s.sm.state) && Enabled(s, SmConsume(outcome))
    ensures if outcome.MissionFailedToStop? then |given| == cfg.attempts && AllFail(given)
            else |given| <= cfg.attempts && EndsWell(given)
  {
    TableOutcomes(s.sm.state, outcome);
  }

  /**
   The robot is asked to stop until it answers otherwise than with a failure, and no more often than the limit says; the
   outcome taken is the failure exactly if every answer was one.
   */
  lemma StopOutcomeIsTheAnswer(s: Sys, cfg: Config, ch: Channel, run: seq<Action>, outcome: Channel)
    requires Interrupts(s, cfg, ch, run, outcome) && cfg.attempts >= 1
    requires IsStopping(Step(s, cfg, SmConsume(ch)).sm.state)
    ensures var given := AnswersIn(Step(s, cfg, SmConsume(ch)), cfg, run, StopCall);
            if outcome.MissionFailedToStop? then |given| == cfg.attempts && AllFail(given)
            else |given| <= cfg.attempts && EndsWell(given)
  {
    var s1 := Step(s, cfg, SmConsume(ch));
    var given := AnswersIn(s1, cfg, run, StopCall);
    StopBegins(s, cfg, ch);
    RunKeepsOneStop(s1, cfg, run, []);
    StaysInHandshake(s1, cfg, run);
    assert [] + given == given;
    OutcomeOfStop(Run(s1, cfg, run), cfg, given, outcome);
  }
}
