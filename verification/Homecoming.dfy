/** What a return home comes to when the robot does not have to be monitored for it: it is home already, or refuses. */
module Homecoming {
  import opened Missions
  import opened Events
  import opened States
  import opened Entries
  import opened Protocol
  import opened Tokens
  import opened Invariants
  import opened HandshakeRuns

  predicate IsResult(ch: Channel) { ch.MissionSucceeded? || ch.MissionFailed? }

  /** The states that wait for a return home poll both results, and none of them has a timer or waits for a stop. */
  lemma ResultsArePolled(st: SmState, ch: Channel)
    requires HeadsHome(st) && IsResult(ch)
    ensures ch in Table(st) && !HasTimer(st) && !IsStopping(st)
  {}

  /** Nobody but the state machine takes a result, outside a stop. */
  lemma StepKeepsResult(s: Sys, cfg: Config, a: Action, ch: Channel)
    requires TokenInv(s) && HeadsHome(s.sm.state) && !HasWork(s.sm.script) && IsResult(ch) && ch in s.mail
    requires Enabled(s, a) && !a.SmConsume?
    ensures ch in Step(s, cfg, a).mail && Step(s, cfg, a).sm == s.sm
  {
    ResultsArePolled(s.sm.state, ch);
    match a
    case RsMain(answer) => MainKeepsResult(s, cfg, answer, ch);
    case _ =>
  }

  lemma MainKeepsResult(s: Sys, cfg: Config, answer: Answer, ch: Channel)
    requires TokenInv(s) && !IsStopping(s.sm.state) && IsResult(ch) && ch in s.mail && MainReady(s)
    ensures ch in MainStep(s, cfg, answer).mail && MainStep(s, cfg, answer).sm == s.sm
  {}

  lemma {:induction false} RunKeepsResult(s: Sys, cfg: Config, run: seq<Action>, ch: Channel)
    requires TokenInv(s) && HeadsHome(s.sm.state) && !HasWork(s.sm.script) && IsResult(ch) && ch in s.mail
    requires CanRun(s, cfg, run) && Waits(run)
    ensures TokenInv(Run(s, cfg, run)) && ch in Run(s, cfg, run).mail && Run(s, cfg, run).sm == s.sm
    decreases |run|
  {
    if run == [] {
    } else {
      assert !run[0].SmConsume?;
      StepKeepsResult(s, cfg, run[0], ch);
      StepKeepsTokens(s, cfg, run[0]);
      assert Waits(run[1..]);
      RunKeepsResult(Step(s, cfg, run[0]), cfg, run[1..], ch);
    }
  }

  lemma InitiatedSignals(s: Sys, cfg: Config, answer: Answer)
    requires MainReady(s) && s.rs.pc.InitiateMission? && !answer.Accepts?
    ensures var s' := Step(s, cfg, RsMain(answer));
            s'.sm == s.sm && (if answer.NothingToDo? then MissionSucceeded in s'.mail else MissionFailed in s'.mail)
  {}

  /** The result of a return home, whenever it is taken. */
  lemma ResultIsTaken(s: Sys, cfg: Config, to: SmState, ch: Channel)
    requires TokenInv(s) && HeadsHome(s.sm.state) && !HasWork(s.sm.script) && IsResult(ch) && ch in s.mail
    requires Enters(s.sm.state, cfg.retryLimit, ch, Empty, to)
    ensures Enabled(s, SmConsume(ch)) && Step(s, cfg, SmConsume(ch)).sm.state == to
  {
    ResultsArePolled(s.sm.state, ch);
    assert Carries(ch, s.mail[ch]) && s.mail[ch] == Empty;
    EntriesAreExplained(s.sm.state, cfg.retryLimit, ch, Empty, to);
    ConsumeMoves(s, cfg, ch);
  }

  /** Where the state machine is when the return home that it waits for has succeeded. */
  function Arrived(st: SmState): SmState
    requires HeadsHome(st)
  {
    match st
    case ReturningHome(_) => SmState.Home
    case GoingToLockdown => Lockdown
    case GoingToRecharging => Recharging
    case GoingToRechargingWithMission(m) => RechargingWithMission(m)
  }

  lemma ArrivedIsEntered(st: SmState, limit: int)
    requires HeadsHome(st)
    ensures Enters(st, limit, MissionSucceeded, Empty, Arrived(st))
  {}

  /**
   A robot that is home already says so when it is asked to return home.  Whatever the other threads then do before the
   state machine takes something, it can take the success, and the robot counts as having come home.
   */
  lemma AlreadyHomeCountsAsArrived(s: Sys, cfg: Config, run: seq<Action>)
    requires Reachable(s, cfg) && HeadsHome(s.sm.state) && !HasWork(s.sm.script)
    requires s.rs.pc.InitiateMission? && Enabled(s, RsMain(NothingToDo))
    requires CanRun(Step(s, cfg, RsMain(NothingToDo)), cfg, run) && Waits(run)
    ensures var s' := Run(Step(s, cfg, RsMain(NothingToDo)), cfg, run);
            && Enabled(s', SmConsume(MissionSucceeded))
            && Step(s', cfg, SmConsume(MissionSucceeded)).sm.state == Arrived(s.sm.state)
  {
    ReachableInv(s, cfg);
    InitiatedSignals(s, cfg, NothingToDo);
    StepKeepsTokens(s, cfg, RsMain(NothingToDo));
    RunKeepsResult(Step(s, cfg, RsMain(NothingToDo)), cfg, run, MissionSucceeded);
    var s' := Run(Step(s, cfg, RsMain(NothingToDo)), cfg, run);
    ArrivedIsEntered(s.sm.state, cfg.retryLimit);
    ResultIsTaken(s', cfg, Arrived(s.sm.state), MissionSucceeded);
  }

  /** A robot that refuses to return home is told again, with one retry less, or needs an intervention. */
  lemma RefusedReturnIsRetriedIff(s: Sys, cfg: Config, run: seq<Action>)
    requires Reachable(s, cfg) && HeadsHome(s.sm.state) && !HasWork(s.sm.script)
    requires s.rs.pc.InitiateMission? && Enabled(s, RsMain(Fails))
    requires CanRun(Step(s, cfg, RsMain(Fails)), cfg, run) && Waits(run)
    ensures var s' := Run(Step(s, cfg, RsMain(Fails)), cfg, run);
            && Enabled(s', SmConsume(MissionFailed))
            && Step(s', cfg, SmConsume(MissionFailed)).sm.state ==
               if s.sm.state.ReturningHome? && s.sm.state.retries >= 1 then ReturningHome(s.sm.state.retries - 1)
               else InterventionNeeded
  {
    ReachableInv(s, cfg);
    InitiatedSignals(s, cfg, Fails);
    StepKeepsTokens(s, cfg, RsMain(Fails));
    RunKeepsResult(Step(s, cfg, RsMain(Fails)), cfg, run, MissionFailed);
    var s' := Run(Step(s, cfg, RsMain(Fails)), cfg, run);
    if s.sm.state.ReturningHome? && s.sm.state.retries >= 1 {
      ResultIsTaken(s', cfg, ReturningHome(s.sm.state.retries - 1), MissionFailed);
    } else {
      ResultIsTaken(s', cfg, InterventionNeeded, MissionFailed);
    }
  }
}
