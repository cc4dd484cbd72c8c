/**
 What becomes of the start commands that the state machine puts: over every run, each is taken by the main loop, waits
 in the mailbox, or has been dropped because another one was waiting there.
 */
module StartCommands {
  import opened Missions
  import opened Events
  import opened Scripts
  import opened States
  import opened Protocol
  import opened Tokens
  import opened Accounts
  import opened Invariants

  /** The mission of the start command that the next operation of the script puts, if it puts one. */
  function NextStart(sc: Script): Option<Mission> {
    if (sc.eager && sc.reply.Some?) || sc.wipes != [] || sc.command.None? then None
    else
      match sc.command.value
      case Start(mission, _) => Some(mission)
      case GoHome => Some(ReturnHomeMission())
      case _ => None
  }

  predicate Puts(s: Sys, a: Action, m: Mission) { a.SmEffect? && NextStart(s.sm.script) == Some(m) }

  predicate Drops(s: Sys, a: Action, m: Mission) { Puts(s, a, m) && StartCommand in s.mail }

  predicate Takes(s: Sys, a: Action, m: Mission) {
    a.RsMain? && s.rs.pc.PollStart? && StartCommand in s.mail && s.mail[StartCommand] == OfMission(m)
  }

  predicate Waits(mail: Mail, m: Mission) { StartCommand in mail && mail[StartCommand] == OfMission(m) }

  // How often these happen in a run.

  ghost function PutIn(s: Sys, cfg: Config, run: seq<Action>, m: Mission): nat
    requires CanRun(s, cfg, run)
    decreases |run|
  {
    if run == [] then 0 else Bit(Puts(s, run[0], m)) + PutIn(Step(s, cfg, run[0]), cfg, run[1..], m)
  }

  ghost function DroppedIn(s: Sys, cfg: Config, run: seq<Action>, m: Mission): nat
    requires CanRun(s, cfg, run)
    decreases |run|
  {
    if run == [] then 0 else Bit(Drops(s, run[0], m)) + DroppedIn(Step(s, cfg, run[0]), cfg, run[1..], m)
  }

  ghost function TakenIn(s: Sys, cfg: Config, run: seq<Action>, m: Mission): nat
    requires CanRun(s, cfg, run)
    decreases |run|
  {
    if run == [] then 0 else Bit(Takes(s, run[0], m)) + TakenIn(Step(s, cfg, run[0]), cfg, run[1..], m)
  }

  /** The state machine neither takes nor clears a start command. */
  lemma ConsumeLeavesStart(s: Sys, cfg: Config, ch: Channel, m: Mission)
    requires Enabled(s, SmConsume(ch))
    ensures Waits(Step(s, cfg, SmConsume(ch)).mail, m) == Waits(s.mail, m)
  {
    TableOutcomes(s.sm.state, ch);
  }

  lemma EffectMovesStart(s: Sys, m: Mission)
    requires HasWork(s.sm.script)
    ensures Bit(Waits(s.mail, m)) + Bit(Puts(s, SmEffect, m))
            == Bit(Drops(s, SmEffect, m)) + Bit(Waits(Effected(s).mail, m))
  {}

  lemma MainMovesStart(s: Sys, cfg: Config, answer: Answer, m: Mission)
    requires MainReady(s)
    ensures Bit(Waits(s.mail, m)) == Bit(Takes(s, RsMain(answer), m)) + Bit(Waits(MainStep(s, cfg, answer).mail, m))
  {}

  lemma StepConservesStart(s: Sys, cfg: Config, a: Action, m: Mission)
    requires Enabled(s, a)
    ensures Bit(Waits(s.mail, m)) + Bit(Puts(s, a, m))
            == Bit(Takes(s, a, m)) + Bit(Drops(s, a, m)) + Bit(Waits(Step(s, cfg, a).mail, m))
  {
    match a
    case SmConsume(ch) => ConsumeLeavesStart(s, cfg, ch, m);
    case SmEffect => EffectMovesStart(s, m);
    case RsMain(answer) => MainMovesStart(s, cfg, answer, m);
    case _ =>
  }

  /** For every mission, over every run: commands waiting before and put are those taken, dropped and waiting after. */
  lemma {:induction false} StartsConserved(s: Sys, cfg: Config, run: seq<Action>, m: Mission)
    requires CanRun(s, cfg, run)
    ensures Bit(Waits(s.mail, m)) + PutIn(s, cfg, run, m)
            == TakenIn(s, cfg, run, m) + DroppedIn(s, cfg, run, m) + Bit(Waits(Run(s, cfg, run).mail, m))
    decreases |run|
  {
    if run == [] {
    } else {
      StepConservesStart(s, cfg, run[0], m);
      StartsConserved(Step(s, cfg, run[0]), cfg, run[1..], m);
    }
  }

  // ---------------------------------------------------------------- how they are accounted for

  function LaunchesOf(l: Ledger, m: Mission): nat { l.launched[m] + l.relaunched[m] }

  lemma EffectCountsStart(s: Sys, m: Mission)
    requires HasWork(s.sm.script) && m != ReturnHomeMission()
    ensures LaunchesOf(Effected(s).ledger, m) == LaunchesOf(s.ledger, m) + Bit(Puts(s, SmEffect, m))
  {}

  lemma StepCountsStart(s: Sys, cfg: Config, a: Action, m: Mission)
    requires Enabled(s, a) && m != ReturnHomeMission()
    ensures LaunchesOf(Step(s, cfg, a).ledger, m) == LaunchesOf(s.ledger, m) + Bit(Puts(s, a, m))
  {
    match a
    case SmEffect => EffectCountsStart(s, m);
    case RsMain(answer) => MainLeavesSm(s, cfg, answer);
    case _ =>
  }

  lemma {:induction false} LaunchesArePuts(s: Sys, cfg: Config, run: seq<Action>, m: Mission)
    requires CanRun(s, cfg, run) && m != ReturnHomeMission()
    ensures LaunchesOf(Run(s, cfg, run).ledger, m) == LaunchesOf(s.ledger, m) + PutIn(s, cfg, run, m)
    decreases |run|
  {
    if run == [] {
    } else {
      StepCountsStart(s, cfg, run[0], m);
      LaunchesArePuts(Step(s, cfg, run[0]), cfg, run[1..], m);
    }
  }

  /**
   From the start of the program: the robot service has been given a user mission as often as it was launched, but for
   the commands that were dropped and the one that waits; so never more often than it was accepted and kept.
   */
  lemma LaunchesReachTheService(st: SmState, cfg: Config, run: seq<Action>, m: Mission)
    requires CanStartIn(st) && CanRun(Initial(st), cfg, run) && m != ReturnHomeMission()
    ensures var s := Run(Initial(st), cfg, run);
            && TakenIn(Initial(st), cfg, run, m) + DroppedIn(Initial(st), cfg, run, m) + Bit(Waits(s.mail, m))
               == s.ledger.launched[m] + s.ledger.relaunched[m]
            && TakenIn(Initial(st), cfg, run, m) <= s.ledger.accepted[m] + s.ledger.carried[m]
  {
    var s := Run(Initial(st), cfg, run);
    StartsConserved(Initial(st), cfg, run, m);
    LaunchesArePuts(Initial(st), cfg, run, m);
    InitialInv(st);
    RunKeepsInv(Initial(st), cfg, run);
    assert FreshInv(s, m) && AbortedInv(s, m);
  }
}
