/** What holds in every reachable state of the program. */
module Invariants {
  import opened Missions
  import opened Events
  import opened Scripts
  import opened States
  import opened Reactions
  import opened Protocol
  import opened Tokens
  import opened Accounts
  import opened Service

  ghost predicate Inv(s: Sys) { TokenInv(s) && AccountInv(s) && ServiceInv(s) }

  lemma InitialInv(st: SmState)
    requires CanStartIn(st)
    ensures Inv(Initial(st))
  {}

  lemma StepKeepsInv(s: Sys, cfg: Config, a: Action)
    requires Inv(s) && Enabled(s, a)
    ensures Inv(Step(s, cfg, a))
  {
    StepKeepsTokens(s, cfg, a);
    StepKeepsAccounts(s, cfg, a);
    StepKeepsService(s, cfg, a);
  }

  lemma {:induction false} RunKeepsInv(s: Sys, cfg: Config, run: seq<Action>)
    requires Inv(s) && CanRun(s, cfg, run)
    ensures Inv(Run(s, cfg, run))
    decreases |run|
  {
    if run == [] {
    } else {
      StepKeepsInv(s, cfg, run[0]);
      RunKeepsInv(Step(s, cfg, run[0]), cfg, run[1..]);
    }
  }

  lemma ReachableInv(s: Sys, cfg: Config)
    requires Reachable(s, cfg)
    ensures Inv(s)
  {
    var st, run :| CanStartIn(st) && CanRun(Initial(st), cfg, run) && s == Run(Initial(st), cfg, run);
    InitialInv(st);
    RunKeepsInv(Initial(st), cfg, run);
  }

  // ---------------------------------------------------------------- stops and pauses

  /** One stop is under way in each of the eight stopping states, and none in any other state. */
  lemma StopConserved(s: Sys, cfg: Config)
    requires Reachable(s, cfg)
    ensures StopTokens(s) == Bit(IsStopping(s.sm.state))
    ensures PauseTokens(s) == Bit(IsPausing(s.sm.state))
  {
    ReachableInv(s, cfg);
  }

  /** A stop or pause command is never dropped: its mailbox is empty, and no old outcome is around, when it is put. */
  lemma CommandsAreNeverDropped(s: Sys, cfg: Config)
    requires Reachable(s, cfg)
    ensures s.sm.script.command == Some(Stop) ==>
              StopCommand !in s.mail && !HandlingStop(s.rs.pc) && StopOutcomes(s.mail) == 0
    ensures s.sm.script.command == Some(Pause) ==>
              PauseCommand !in s.mail && !s.rs.pc.PauseRobot?
              && MissionFailedToPause !in s.mail && MissionSuccessfullyPaused !in s.mail
  {
    ReachableInv(s, cfg);
  }

  /** An outcome is never dropped either: all three outcome mailboxes are empty as long as the stop is being handled. */
  lemma OutcomesAreNeverDropped(s: Sys, cfg: Config)
    requires Reachable(s, cfg)
    ensures HandlingStop(s.rs.pc) ==> StopOutcomes(s.mail) == 0 && IsStopping(s.sm.state)
    ensures s.rs.pc.PauseRobot? ==>
              MissionFailedToPause !in s.mail && MissionSuccessfullyPaused !in s.mail && IsPausing(s.sm.state)
  {
    ReachableInv(s, cfg);
  }

  /** An outcome that is read answers the stop that the state machine is waiting for: nothing else is under way. */
  lemma OutcomesAreNeverStale(s: Sys, cfg: Config, ch: Channel)
    requires Reachable(s, cfg) && ch in STOP_OUTCOMES && ch in s.mail
    ensures IsStopping(s.sm.state) && StopOutcomes(s.mail) == 1
    ensures s.sm.script.command != Some(Stop) && StopCommand !in s.mail && !HandlingStop(s.rs.pc)
  {
    ReachableInv(s, cfg);
  }

  /** The same for a pause. */
  lemma PauseOutcomesAreNeverStale(s: Sys, cfg: Config, ch: Channel)
    requires Reachable(s, cfg) && ch in s.mail && (ch.MissionFailedToPause? || ch.MissionSuccessfullyPaused?)
    ensures IsPausing(s.sm.state) && !(MissionFailedToPause in s.mail && MissionSuccessfullyPaused in s.mail)
    ensures s.sm.script.command != Some(Pause) && PauseCommand !in s.mail && !s.rs.pc.PauseRobot?
  {
    ReachableInv(s, cfg);
  }

  // ---------------------------------------------------------------- replies and missions

  /** All API events: one reply for each request, up to the reply being sent and the one that a stop puts off. */
  lemma RepliesConserved(s: Sys, cfg: Config, api: Api)
    requires Reachable(s, cfg) && !HasWork(s.sm.script)
    ensures !api.StartMission? ==>
              s.ledger.consumed[api] == s.ledger.replied[api]
                + Bit((api.SendToLockdown? && s.sm.state.StoppingGoToLockdown?)
                      || (api.SetMaintenanceMode? && s.sm.state.StoppingDueToMaintenance?))
    ensures api.StartMission? ==> s.ledger.replied[api] == s.ledger.consumed[api] + s.ledger.handovers
  {
    ReachableInv(s, cfg);
    assert ReplyInv(s, api);
  }

  /** The user missions accepted so far: each was launched, is held while a return home stops, or was lost. */
  lemma LaunchesConserved(s: Sys, cfg: Config)
    requires Reachable(s, cfg) && !HasWork(s.sm.script)
    ensures s.ledger.accepted == s.ledger.launched + Bag(Held(s.sm.state, FreshFromApi)) + s.ledger.lost
  {
    ReachableInv(s, cfg);
    var parts := s.ledger.launched + Bag(Held(s.sm.state, FreshFromApi)) + s.ledger.lost;
    forall m ensures s.ledger.accepted[m] == parts[m] { FreshSum(s, m); }
  }

  lemma FreshSum(s: Sys, m: Mission)
    requires FreshInv(s, m) && !HasWork(s.sm.script)
    ensures s.ledger.accepted[m] == (s.ledger.launched + Bag(Held(s.sm.state, FreshFromApi)) + s.ledger.lost)[m]
  {}

  /** The aborted missions kept so far: each was relaunched, is still held, or was given up. */
  lemma RelaunchesConserved(s: Sys, cfg: Config)
    requires Reachable(s, cfg) && !HasWork(s.sm.script)
    ensures s.ledger.carried == s.ledger.relaunched + Bag(Held(s.sm.state, Relaunch)) + s.ledger.givenUp
  {
    ReachableInv(s, cfg);
    var parts := s.ledger.relaunched + Bag(Held(s.sm.state, Relaunch)) + s.ledger.givenUp;
    forall m ensures s.ledger.carried[m] == parts[m] { AbortedSum(s, m); }
  }

  lemma AbortedSum(s: Sys, m: Mission)
    requires AbortedInv(s, m) && !HasWork(s.sm.script)
    ensures s.ledger.carried[m] == (s.ledger.relaunched + Bag(Held(s.sm.state, Relaunch)) + s.ledger.givenUp)[m]
  {}

  /** At any moment: no mission is launched more often than it was accepted, or relaunched more often than kept. */
  lemma NoMissionIsLaunchedTwice(s: Sys, cfg: Config)
    requires Reachable(s, cfg)
    ensures s.ledger.launched <= s.ledger.accepted
    ensures s.ledger.relaunched <= s.ledger.carried
  {
    ReachableInv(s, cfg);
    forall m ensures s.ledger.launched[m] <= s.ledger.accepted[m] { assert FreshInv(s, m); }
    forall m ensures s.ledger.relaunched[m] <= s.ledger.carried[m] { assert AbortedInv(s, m); }
  }

  // ---------------------------------------------------------------- start commands and their signals

  /**
   A start command is signalled as succeeded or failed at most once: once when it is over, and never when a stop
   cancelled its monitor.
   */
  lemma StartsAreSignalledOnce(s: Sys, cfg: Config, i: nat)
    requires Reachable(s, cfg)
    ensures s.ledger.signals[i] <= 1
    ensures i < |s.rs.starts| && (s.rs.starts[i].Refused? || s.rs.starts[i].Signalled?) ==> s.ledger.signals[i] == 1
    ensures i < |s.rs.starts| && (s.rs.starts[i].Aborted? || s.rs.starts[i].NeverEntered?) ==> s.ledger.signals[i] == 0
    ensures s.ledger.signals[i] == 1 ==> i < |s.rs.starts|
  {
    ReachableInv(s, cfg);
    assert SignalInv(s, i);
  }

  /** When stopped_mission_already_done is signalled, no result of the stopped mission is left to be misread. */
  lemma ResultsAreClearedBeforeAlreadyDone(s: Sys, cfg: Config)
    requires Reachable(s, cfg) && s.rs.pc.SignalAlreadyDone?
    ensures MissionSucceeded !in s.mail && MissionFailed !in s.mail
  {
    ReachableInv(s, cfg);
  }

  /** The monitor may take the first task of its mission without looking: there is one in every mission it is given. */
  lemma MonitoredMissionsHaveTasks(s: Sys, cfg: Config, i: nat)
    requires Reachable(s, cfg) && Enabled(s, MonitorEnter(i))
    ensures |s.rs.starts[i].mission.tasks| > 0
  {
    ReachableInv(s, cfg);
    assert StartHasTasks(s.rs.starts[i]);
  }

  /** The main loop is never stuck: it can go on unless it awaits a cancelled monitor, which then can end. */
  lemma ServiceIsNeverStuck(s: Sys, cfg: Config, answer: Answer)
    requires Reachable(s, cfg)
    ensures Enabled(s, RsMain(answer))
            || (s.rs.monitor.Some? && s.rs.monitor.value < |s.rs.starts|
                && s.rs.starts[s.rs.monitor.value].CancelRequested?
                && Enabled(s, MonitorAbort(s.rs.monitor.value, s.rs.starts[s.rs.monitor.value].mission)))
  {
    ReachableInv(s, cfg);
  }
}
