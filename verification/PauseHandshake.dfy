/**
 Pauses and resumes always complete: a measure that the threads concerned decrease and no other thread increases, as for
 a stop.  That a resume is answered does not depend on what is left of an earlier one; by which outcome it is answered
 does (Outcomes).
 */
module PauseHandshake {
  import opened Missions
  import opened Events
  import opened Scripts
  import opened States
  import opened Reactions
  import opened Protocol
  import opened Tokens
  import opened Service
  import opened Invariants
  import opened Handshakes

  /** The state machine waits for the outcome of a pause or of a resume. */
  predicate IsAsking(st: SmState) { IsPausing(st) || IsResuming(st) }

  function CommandOf(st: SmState): Command { if IsPausing(st) then Pause else Resume }

  predicate IsWorking(pc: Pc, st: SmState) { if IsPausing(st) then pc.PauseRobot? else pc.ResumeRobot? }

  predicate HasOutcome(mail: Mail, st: SmState) {
    if IsPausing(st) then MissionFailedToPause in mail || MissionSuccessfullyPaused in mail
    else MissionFailedToResume in mail || MissionSuccessfullyResumed in mail
  }

  /** The command is about to be put, pending, being handled, or answered. */
  ghost predicate IsUnderWay(s: Sys) {
    var st := s.sm.state;
    IsAsking(st) ==>
      s.sm.script.command == Some(CommandOf(st)) || ChannelOf(CommandOf(st)) in s.mail || IsWorking(s.rs.pc, st)
      || HasOutcome(s.mail, st)
  }

  // ---------------------------------------------------------------- a pause or resume is never forgotten

  lemma AskingEnds(st: SmState, limit: int, ch: Channel, msg: Message)
    requires IsAsking(st) && ch in Table(st) && Carries(ch, msg)
    ensures !IsAsking(After(st, React(st, limit, ch, msg)))
  {}

  lemma AskingBegins(st: SmState, limit: int, ch: Channel, msg: Message)
    requires ch in Table(st) && Carries(ch, msg) && !IsAsking(st)
    requires IsAsking(After(st, React(st, limit, ch, msg)))
    ensures var r := React(st, limit, ch, msg); r.script.command == Some(CommandOf(After(st, r)))
  {
    ReactionBalanced(st, limit, ch, msg);
    EntryIsUndoneIf(st, limit, ch, msg);
  }

  lemma ConsumeKeepsUnderWay(s: Sys, cfg: Config, ch: Channel)
    requires Enabled(s, SmConsume(ch))
    ensures IsUnderWay(Step(s, cfg, SmConsume(ch)))
    ensures IsAsking(s.sm.state) ==> !IsAsking(Step(s, cfg, SmConsume(ch)).sm.state)
  {
    var st, msg := s.sm.state, s.mail[ch];
    var r := React(st, cfg.retryLimit, ch, msg);
    if IsAsking(st) {
      AskingEnds(st, cfg.retryLimit, ch, msg);
    } else if IsAsking(After(st, r)) {
      AskingBegins(st, cfg.retryLimit, ch, msg);
    }
  }

  lemma EffectKeepsUnderWay(s: Sys)
    requires IsUnderWay(s) && HasWork(s.sm.script)
    ensures IsUnderWay(Effected(s)) && Effected(s).sm.state == s.sm.state
  {}

  lemma MainKeepsUnderWay(s: Sys, cfg: Config, answer: Answer)
    requires IsUnderWay(s) && MainReady(s)
    ensures IsUnderWay(MainStep(s, cfg, answer))
  {}

  lemma StepKeepsUnderWay(s: Sys, cfg: Config, a: Action)
    requires IsUnderWay(s) && Enabled(s, a)
    ensures IsUnderWay(Step(s, cfg, a))
  {
    match a
    case SmConsume(ch) => ConsumeKeepsUnderWay(s, cfg, ch);
    case SmEffect => EffectKeepsUnderWay(s);
    case RsMain(answer) => MainKeepsUnderWay(s, cfg, answer);
    case _ =>
  }

  lemma {:induction false} RunKeepsUnderWay(s: Sys, cfg: Config, run: seq<Action>)
    requires IsUnderWay(s) && CanRun(s, cfg, run)
    ensures IsUnderWay(Run(s, cfg, run))
    decreases |run|
  {
    if run == [] {
    } else {
      StepKeepsUnderWay(s, cfg, run[0]);
      RunKeepsUnderWay(Step(s, cfg, run[0]), cfg, run[1..]);
    }
  }

  /** In every reachable state that waits for the outcome of a pause or resume, there is something to wait for. */
  lemma AskedIsUnderWay(s: Sys, cfg: Config)
    requires Reachable(s, cfg)
    ensures IsUnderWay(s)
  {
    var st, run :| CanStartIn(st) && CanRun(Initial(st), cfg, run) && s == Run(Initial(st), cfg, run);
    RunKeepsUnderWay(Initial(st), cfg, run);
  }

  // ---------------------------------------------------------------- the measure

  /** How many steps of the main loop there are, at most, up to and including the poll of the mailbox. */
  function StepsToPoll(pc: Pc, pause: bool): nat {
    match pc
    case PollPause => if pause then 1 else 3
    case InitiateMission => if pause then 2 else 4
    case PollStart => if pause then 3 else 5
    case Yielded => if pause then 4 else 6
    case CheckMonitor => if pause then 5 else 7
    case PollStop => if pause then 6 else 8
    case ResumeRobot => if pause then 7 else 9
    case PollResume => if pause then 8 else 1
    case PauseRobot => if pause then 9 else 2
    case _ => 9
  }

  /** The distance from the end of the handshake. */
  function Distance(s: Sys): nat {
    var st := s.sm.state;
    ScriptSize(s.sm.script)
    + if s.sm.script.command.Some? then 12
      else if HasOutcome(s.mail, st) then 1
      else if ChannelOf(CommandOf(st)) in s.mail then 2 + StepsToPoll(s.rs.pc, IsPausing(st))
      else 2
  }

  /** The step whose turn it is: of the state machine, or of the main loop. */
  ghost predicate Helpful(s: Sys, a: Action) {
    if HasWork(s.sm.script) then a.SmEffect?
    else if HasOutcome(s.mail, s.sm.state) then a.SmConsume?
    else a.RsMain?
  }

  ghost predicate InAsk(s: Sys) {
    TokenInv(s) && TaskInv(s.rs) && IsUnderWay(s) && IsAsking(s.sm.state)
  }

  /** No deadlock: the step whose turn it is can be taken. */
  lemma HelpfulStepExists(s: Sys) returns (a: Action)
    requires InAsk(s)
    ensures Helpful(s, a) && Enabled(s, a)
  {
    if HasWork(s.sm.script) { a := SmEffect; }
    else if HasOutcome(s.mail, s.sm.state) {
      a := SmConsume(if MissionFailedToPause in s.mail && IsPausing(s.sm.state) then MissionFailedToPause
                     else if IsPausing(s.sm.state) then MissionSuccessfullyPaused
                     else if MissionFailedToResume in s.mail then MissionFailedToResume
                     else MissionSuccessfullyResumed);
    } else {
      a := RsMain(Accepts);
    }
  }

  lemma EffectDescends(s: Sys)
    requires InAsk(s) && HasWork(s.sm.script)
    ensures Distance(Effected(s)) < Distance(s)
  {}

  lemma MainDoesNotAscend(s: Sys, cfg: Config, answer: Answer)
    requires InAsk(s) && MainReady(s)
    ensures Distance(MainStep(s, cfg, answer)) <= Distance(s)
  {}

  lemma MainDescends(s: Sys, cfg: Config, answer: Answer)
    requires InAsk(s) && MainReady(s) && !HasWork(s.sm.script) && !HasOutcome(s.mail, s.sm.state)
    ensures Distance(MainStep(s, cfg, answer)) < Distance(s)
  {}

  lemma OthersDoNotAscend(s: Sys, cfg: Config, a: Action)
    requires InAsk(s) && Enabled(s, a) && !a.SmConsume? && !a.SmEffect? && !a.RsMain?
    ensures Step(s, cfg, a).sm == s.sm && Distance(Step(s, cfg, a)) <= Distance(s)
  {}

  /** Every step ends the handshake or does not lengthen it, and the step whose turn it is shortens it. */
  lemma StepDescends(s: Sys, cfg: Config, a: Action)
    requires InAsk(s) && Enabled(s, a)
    ensures var s' := Step(s, cfg, a);
            IsAsking(s'.sm.state) ==>
              Distance(s') <= Distance(s) && (Helpful(s, a) ==> Distance(s') < Distance(s))
  {
    match a
    case SmConsume(ch) => ConsumeKeepsUnderWay(s, cfg, ch);
    case SmEffect => EffectDescends(s);
    case RsMain(answer) =>
      MainDoesNotAscend(s, cfg, answer);
      if Helpful(s, a) { MainDescends(s, cfg, answer); }
    case _ => OthersDoNotAscend(s, cfg, a);
  }

  lemma StepKeepsAsk(s: Sys, cfg: Config, a: Action)
    requires Inv(s) && IsUnderWay(s) && Enabled(s, a)
    ensures Inv(Step(s, cfg, a)) && IsUnderWay(Step(s, cfg, a))
  {
    StepKeepsInv(s, cfg, a);
    StepKeepsUnderWay(s, cfg, a);
  }

  ghost function HelpfulSteps(s: Sys, cfg: Config, run: seq<Action>): nat
    requires CanRun(s, cfg, run)
    decreases |run|
  {
    if run == [] then 0
    else Bit(Helpful(s, run[0])) + HelpfulSteps(Step(s, cfg, run[0]), cfg, run[1..])
  }

  /** A run has left the handshake behind at the latest when it has taken `Distance` steps whose turn it was. */
  lemma {:induction false} AskCompletes(s: Sys, cfg: Config, run: seq<Action>) returns (k: nat)
    requires Inv(s) && IsUnderWay(s) && IsAsking(s.sm.state) && CanRun(s, cfg, run)
    requires HelpfulSteps(s, cfg, run) >= Distance(s)
    ensures k <= |run| && CanRun(s, cfg, run[..k]) && !IsAsking(Run(s, cfg, run[..k]).sm.state)
    decreases |run|
  {
    assert InAsk(s);
    var s' := Step(s, cfg, run[0]);
    StepKeepsAsk(s, cfg, run[0]);
    StepDescends(s, cfg, run[0]);
    if IsAsking(s'.sm.state) {
      k := AskCompletes(s', cfg, run[1..]);
      k := k + 1;
      assert run[..k][1..] == run[1..][..k - 1];
    } else {
      k := 1;
      assert run[..1][1..] == [];
    }
  }

  lemma AskIsBounded(s: Sys)
    ensures Distance(s) <= 17
  {}

  /**
   From every reachable state inside a pause or a resume: the step whose turn it is can be taken, and however the
   threads interleave, 17 such steps end it.
   */
  lemma PauseOrResumeCompletes(s: Sys, cfg: Config, run: seq<Action>) returns (k: nat)
    requires Reachable(s, cfg) && IsAsking(s.sm.state)
    requires CanRun(s, cfg, run) && HelpfulSteps(s, cfg, run) >= 17
    ensures exists a :: Helpful(s, a) && Enabled(s, a)
    ensures k <= |run| && CanRun(s, cfg, run[..k]) && !IsAsking(Run(s, cfg, run[..k]).sm.state)
  {
    ReachableInv(s, cfg);
    AskedIsUnderWay(s, cfg);
    AskIsBounded(s);
    var a := HelpfulStepExists(s);
    k := AskCompletes(s, cfg, run);
  }
}
