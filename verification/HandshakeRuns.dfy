/**
 Stops, pauses and resumes over whole runs: whatever the other threads do between the request and the outcome, the state
 machine waits in the state that it has entered, and the outcome that it takes then decides.
 */
module HandshakeRuns {
  import opened Missions
  import opened Events
  import opened Scripts
  import opened States
  import opened Reactions
  import opened Protocol
  import opened Runs
  import opened Tokens
  import opened Invariants
  import opened Handshakes

  /** The state machine takes nothing out of a mailbox. */
  ghost predicate Waits(run: seq<Action>) {
    forall i :: 0 <= i < |run| ==> !run[i].SmConsume?
  }

  lemma StepWhileWaiting(s: Sys, cfg: Config, a: Action)
    requires Enabled(s, a) && !a.SmConsume? && IsHandshake(s.sm.state)
    ensures Step(s, cfg, a).sm.state == s.sm.state
    ensures Step(s, cfg, a).ledger.consumed == s.ledger.consumed
  {
    match a
    case RsMain(answer) => MainWhileWaiting(s, cfg, answer);
    case _ =>
  }

  lemma MainWhileWaiting(s: Sys, cfg: Config, answer: Answer)
    requires MainReady(s)
    ensures MainStep(s, cfg, answer).sm == s.sm
    ensures MainStep(s, cfg, answer).ledger.consumed == s.ledger.consumed
  {}

  lemma {:induction false} StaysInHandshake(s: Sys, cfg: Config, run: seq<Action>)
    requires IsHandshake(s.sm.state) && CanRun(s, cfg, run) && Waits(run)
    ensures Run(s, cfg, run).sm.state == s.sm.state
    ensures Run(s, cfg, run).ledger.consumed == s.ledger.consumed
    decreases |run|
  {
    if run == [] {
    } else {
      assert !run[0].SmConsume?;
      StepWhileWaiting(s, cfg, run[0]);
      assert Waits(run[1..]);
      StaysInHandshake(Step(s, cfg, run[0]), cfg, run[1..]);
    }
  }

  /** Event `ch` makes the state machine enter a handshake, and `run` follows until it is about to take `outcome`. */
  ghost predicate Interrupts(s: Sys, cfg: Config, ch: Channel, run: seq<Action>, outcome: Channel) {
    && Reachable(s, cfg) && Enabled(s, SmConsume(ch))
    && EntersHandshake(React(s.sm.state, cfg.retryLimit, ch, s.mail[ch]))
    && CanRun(Step(s, cfg, SmConsume(ch)), cfg, run) && Waits(run)
    && Enabled(Run(Step(s, cfg, SmConsume(ch)), cfg, run), SmConsume(outcome))
  }

  /** The state in which the outcome is taken, and the one after it. */
  ghost function AtOutcome(s: Sys, cfg: Config, ch: Channel, run: seq<Action>, outcome: Channel): Sys
    requires Interrupts(s, cfg, ch, run, outcome)
  {
    Run(Step(s, cfg, SmConsume(ch)), cfg, run)
  }

  ghost function AfterOutcome(s: Sys, cfg: Config, ch: Channel, run: seq<Action>, outcome: Channel): Sys
    requires Interrupts(s, cfg, ch, run, outcome)
  {
    Step(AtOutcome(s, cfg, ch, run, outcome), cfg, SmConsume(outcome))
  }

  lemma ConsumeMoves(s: Sys, cfg: Config, ch: Channel)
    requires Enabled(s, SmConsume(ch))
    ensures Step(s, cfg, SmConsume(ch)).sm.state
            == After(s.sm.state, React(s.sm.state, cfg.retryLimit, ch, s.mail[ch]))
    ensures Step(s, cfg, SmConsume(ch)).ledger.consumed
            == s.ledger.consumed + (if ch.Request? then multiset{ch.api} else multiset{})
  {}

  lemma OutcomeIsTakenInHandshake(s: Sys, cfg: Config, ch: Channel, run: seq<Action>, outcome: Channel)
    requires Interrupts(s, cfg, ch, run, outcome)
    ensures var s2 := AtOutcome(s, cfg, ch, run, outcome);
            && Reachable(s2, cfg)
            && Some(s2.sm.state) == React(s.sm.state, cfg.retryLimit, ch, s.mail[ch]).next
            && s2.ledger.consumed == s.ledger.consumed + (if ch.Request? then multiset{ch.api} else multiset{})
  {
    var s1 := Step(s, cfg, SmConsume(ch));
    ConsumeMoves(s, cfg, ch);
    StaysInHandshake(s1, cfg, run);
    RunOne(s, cfg, SmConsume(ch));
    assert Reaches(s, cfg, s1);
    assert Reaches(s1, cfg, Run(s1, cfg, run));
    ReachesThrough(s, cfg, s1, Run(s1, cfg, run));
    ReachableThrough(s, cfg, Run(s1, cfg, run));
  }

  /**
   In every run: a stop, pause or resume whose failure is taken leaves the state machine with what it was at before
   exactly if a mission or return home was interrupted for some other reason than maintenance or the battery, and not a
   paused mission for a lockdown, which is then taken to be running.
   */
  lemma RefusedHandshakeIsUndoneIff(s: Sys, cfg: Config, ch: Channel, run: seq<Action>, outcome: Channel)
    requires Interrupts(s, cfg, ch, run, outcome)
    requires IsRefusal(outcome)
    ensures SameActivity(AfterOutcome(s, cfg, ch, run, outcome).sm.state, s.sm.state) <==> GoesBack(s.sm.state, ch)
  {
    OutcomeIsTakenInHandshake(s, cfg, ch, run, outcome);
    var s2 := AtOutcome(s, cfg, ch, run, outcome);
    ConsumeMoves(s2, cfg, outcome);
    RefusalIsItsFailure(s2.sm.state, outcome);
    assert s2.mail[outcome] == Empty;
    FailureUndoesIff(s.sm.state, cfg.retryLimit, ch, s.mail[ch]);
  }

  /** The reply to a request that enters a handshake has been sent, once, before the outcome is taken. */
  lemma RequestIsAnsweredBefore(s: Sys, cfg: Config, api: Api, run: seq<Action>, outcome: Channel)
    requires Interrupts(s, cfg, Request(api), run, outcome) && !api.StartMission?
    requires var hs := AtOutcome(s, cfg, Request(api), run, outcome).sm.state; Owed(hs).None?
    ensures AtOutcome(s, cfg, Request(api), run, outcome).ledger.replied[api] == s.ledger.replied[api] + 1
  {
    OutcomeIsTakenInHandshake(s, cfg, Request(api), run, outcome);
    RequestsWhileIdle(s, cfg, api);
    RepliesConserved(s, cfg, api);
    RepliesConserved(AtOutcome(s, cfg, Request(api), run, outcome), cfg, api);
  }

  /** No reply is owed in a state that polls requests. */
  lemma RequestsWhileIdle(s: Sys, cfg: Config, api: Api)
    requires Enabled(s, SmConsume(Request(api)))
    ensures Owed(s.sm.state).None?
  {}

  lemma TokensAfterConsume(s: Sys, cfg: Config, ch: Channel)
    requires Reachable(s, cfg) && Enabled(s, SmConsume(ch))
    ensures var s' := Step(s, cfg, SmConsume(ch)); PauseTokens(s') == Bit(IsPausing(s'.sm.state))
  {
    ReachableInv(s, cfg);
    ConsumeKeepsTokens(s, cfg, ch);
  }

  /** The state in which a pause is waited for; the request has been answered by then. */
  lemma PauseIsWaitedFor(s: Sys, cfg: Config, run: seq<Action>, outcome: Channel)
    requires Interrupts(s, cfg, Request(PauseMission), run, outcome)
    requires s.sm.state.Monitor? || s.sm.state.ReturningHome?
    ensures var s2 := AtOutcome(s, cfg, Request(PauseMission), run, outcome);
            && s2.sm.state == PausingOf(s.sm.state) && Reachable(s2, cfg)
            && s2.ledger.replied[PauseMission] == s.ledger.replied[PauseMission] + 1
  {
    OutcomeIsTakenInHandshake(s, cfg, Request(PauseMission), run, outcome);
    PauseReactions(s.sm.state, cfg.retryLimit);
    RequestIsAnsweredBefore(s, cfg, PauseMission, run, outcome);
  }

  lemma PauseOutcomeIsTaken(s: Sys, cfg: Config, st: SmState)
    requires (st.Monitor? || st.ReturningHome?) && s.sm.state == PausingOf(st)
    requires Enabled(s, SmConsume(MissionSuccessfullyPaused))
    ensures Step(s, cfg, SmConsume(MissionSuccessfullyPaused)).sm.state == PausedOf(st)
  {
    ConsumeMoves(s, cfg, MissionSuccessfullyPaused);
    PauseReactions(st, cfg.retryLimit);
  }

  /**
   A pause whose success is taken: a running mission or return home has become its paused counterpart, the request has
   been answered once, and nothing of the pause is left in any mailbox or with the main loop.
   */
  lemma ObeyedPauseSuspends(s: Sys, cfg: Config, run: seq<Action>)
    requires Interrupts(s, cfg, Request(PauseMission), run, MissionSuccessfullyPaused)
    requires s.sm.state.Monitor? || s.sm.state.ReturningHome?
    ensures AtOutcome(s, cfg, Request(PauseMission), run, MissionSuccessfullyPaused).ledger.replied[PauseMission]
            == s.ledger.replied[PauseMission] + 1
    ensures var s3 := AfterOutcome(s, cfg, Request(PauseMission), run, MissionSuccessfullyPaused);
            s3.sm.state == PausedOf(s.sm.state) && PauseTokens(s3) == 0
  {
    PauseIsWaitedFor(s, cfg, run, MissionSuccessfullyPaused);
    var s2 := AtOutcome(s, cfg, Request(PauseMission), run, MissionSuccessfullyPaused);
    PauseOutcomeIsTaken(s2, cfg, s.sm.state);
    TokensAfterConsume(s2, cfg, MissionSuccessfullyPaused);
  }

  lemma ResumeIsWaitedFor(s: Sys, cfg: Config, run: seq<Action>, outcome: Channel)
    requires Interrupts(s, cfg, Request(ResumeMission), run, outcome)
    requires s.sm.state.Paused? || s.sm.state.ReturnHomePaused?
    ensures var s2 := AtOutcome(s, cfg, Request(ResumeMission), run, outcome);
            && s2.sm.state == ResumingOf(s.sm.state) && Reachable(s2, cfg)
            && s2.ledger.replied[ResumeMission] == s.ledger.replied[ResumeMission] + 1
  {
    OutcomeIsTakenInHandshake(s, cfg, Request(ResumeMission), run, outcome);
    ResumeReactions(s.sm.state, cfg.retryLimit);
    RequestIsAnsweredBefore(s, cfg, ResumeMission, run, outcome);
  }

  lemma ResumeOutcomeIsTaken(s: Sys, cfg: Config, st: SmState)
    requires (st.Paused? || st.ReturnHomePaused?) && s.sm.state == ResumingOf(st)
    requires Enabled(s, SmConsume(MissionSuccessfullyResumed))
    ensures SameActivity(Step(s, cfg, SmConsume(MissionSuccessfullyResumed)).sm.state, RunningOf(st))
  {
    ConsumeMoves(s, cfg, MissionSuccessfullyResumed);
    ResumeReactions(st, cfg.retryLimit);
  }

  /**
   A resume whose success is taken takes up again what was paused, and is answered once.  When that success is what the
   robot answered to this resume is the subject of Outcomes.
   */
  lemma ObeyedResumeContinues(s: Sys, cfg: Config, run: seq<Action>)
    requires Interrupts(s, cfg, Request(ResumeMission), run, MissionSuccessfullyResumed)
    requires s.sm.state.Paused? || s.sm.state.ReturnHomePaused?
    ensures AtOutcome(s, cfg, Request(ResumeMission), run, MissionSuccessfullyResumed).ledger.replied[ResumeMission]
            == s.ledger.replied[ResumeMission] + 1
    ensures SameActivity(AfterOutcome(s, cfg, Request(ResumeMission), run, MissionSuccessfullyResumed).sm.state,
                         RunningOf(s.sm.state))
  {
    ResumeIsWaitedFor(s, cfg, run, MissionSuccessfullyResumed);
    ResumeOutcomeIsTaken(AtOutcome(s, cfg, Request(ResumeMission), run, MissionSuccessfullyResumed), cfg, s.sm.state);
  }
}
