/** What the robot service keeps: its tasks, its signals, the cleared mailboxes, and missions with at least one task. */
module Service {
  import opened Missions
  import opened Events
  import opened Scripts
  import opened States
  import opened Reactions
  import opened Protocol
  import opened Accounts

  predicate MayBeKnown(s: Start) { s.Scheduled? || s.Monitoring? || s.CancelRequested? || IsDone(s) }

  /** The main loop, the monitor that it knows about, and the start commands agree. */
  ghost predicate TaskInv(rs: Rs) {
    && (rs.pc.InitiateMission? ==> |rs.starts| > 0 && rs.starts[|rs.starts| - 1].Initiating?)
    && (forall i :: 0 <= i < |rs.starts| && rs.starts[i].Initiating? ==> rs.pc.InitiateMission? && i == |rs.starts| - 1)
    && (rs.monitor.Some? ==> rs.monitor.value < |rs.starts| && MayBeKnown(rs.starts[rs.monitor.value]))
    && (forall i :: 0 <= i < |rs.starts| && rs.starts[i].CancelRequested? ==>
          rs.pc.AwaitMonitor? && rs.monitor == Some(i))
    && (rs.pc.AwaitMonitor? ==>
          rs.monitor.Some?
          && (rs.starts[rs.monitor.value].CancelRequested? || IsDone(rs.starts[rs.monitor.value])))
  }

  /** A start command has been signalled exactly if it was refused or its monitor ended by itself. */
  ghost predicate SignalInv(s: Sys, i: nat) {
    s.ledger.signals[i] == Bit(i < |s.rs.starts| && (s.rs.starts[i].Refused? || s.rs.starts[i].Signalled?))
  }

  /** Nothing can refill the two result mailboxes between their clearing and the signal. */
  ghost predicate ClearedInv(s: Sys) {
    && (s.rs.pc.ClearFailed? || s.rs.pc.SignalAlreadyDone? ==> MissionSucceeded !in s.mail)
    && (s.rs.pc.SignalAlreadyDone? ==> MissionFailed !in s.mail)
  }

  predicate HasTasks(m: Mission) { m.tasks != [] }

  predicate StartHasTasks(s: Start) { s.Refused? || s.NeverEntered? || HasTasks(s.mission) }

  ghost predicate MailHasTasks(mail: Mail) {
    forall ch :: ch in mail && mail[ch].OfMission? ==> HasTasks(mail[ch].mission)
  }

  ghost predicate SmHasTasks(sm: Sm) {
    && (Held(sm.state, FreshFromApi).Some? ==> HasTasks(Held(sm.state, FreshFromApi).value))
    && (Held(sm.state, Relaunch).Some? ==> HasTasks(Held(sm.state, Relaunch).value))
    && (sm.script.command.Some? && sm.script.command.value.Start? ==> HasTasks(sm.script.command.value.mission))
  }

  ghost predicate RsHasTasks(rs: Rs) {
    && (forall i :: 0 <= i < |rs.starts| ==> StartHasTasks(rs.starts[i]))
    && (rs.pc.SignalContinued? ==> HasTasks(rs.pc.mission))
  }

  /** No mission without tasks is anywhere: in a mailbox, with the state machine or with the robot service. */
  ghost predicate NonEmptyInv(s: Sys) {
    MailHasTasks(s.mail) && SmHasTasks(s.sm) && RsHasTasks(s.rs)
  }

  ghost predicate ServiceInv(s: Sys) {
    && TaskInv(s.rs)
    && (forall i: nat :: SignalInv(s, i))
    && ClearedInv(s)
    && NonEmptyInv(s)
  }

  lemma MainKeepsTasks(s: Sys, cfg: Config, answer: Answer)
    requires TaskInv(s.rs) && MainReady(s)
    ensures TaskInv(MainStep(s, cfg, answer).rs)
  {}

  lemma StepKeepsTasks(s: Sys, cfg: Config, a: Action)
    requires TaskInv(s.rs) && Enabled(s, a)
    ensures TaskInv(Step(s, cfg, a).rs)
  {
    match a
    case RsMain(answer) => MainKeepsTasks(s, cfg, answer);
    case MonitorEnter(i) =>
    case MonitorSignal(i, success, after) =>
    case MonitorAbort(i, after) =>
    case SmEffect => SmLeavesService(s);
    case _ =>
  }

  lemma SmLeavesService(s: Sys)
    requires HasWork(s.sm.script)
    ensures Effected(s).rs == s.rs && Effected(s).ledger.signals == s.ledger.signals
  {}

  lemma MainKeepsSignals(s: Sys, cfg: Config, answer: Answer, i: nat)
    requires TaskInv(s.rs) && SignalInv(s, i) && MainReady(s)
    ensures SignalInv(MainStep(s, cfg, answer), i)
  {}

  lemma StepKeepsSignals(s: Sys, cfg: Config, a: Action, i: nat)
    requires TaskInv(s.rs) && SignalInv(s, i) && Enabled(s, a)
    ensures SignalInv(Step(s, cfg, a), i)
  {
    match a
    case RsMain(answer) => MainKeepsSignals(s, cfg, answer, i);
    case MonitorSignal(k, success, after) =>
    case MonitorAbort(k, after) =>
    case SmEffect => SmLeavesService(s);
    case _ =>
  }

  lemma StepKeepsCleared(s: Sys, cfg: Config, a: Action)
    requires ClearedInv(s) && Enabled(s, a)
    ensures ClearedInv(Step(s, cfg, a))
  {
    match a
    case RsMain(answer) =>
    case SmEffect => SmPutsNoResults(s);
    case _ =>
  }

  lemma SmPutsNoResults(s: Sys)
    requires HasWork(s.sm.script)
    ensures Effected(s).rs == s.rs
    ensures MissionSucceeded !in s.mail ==> MissionSucceeded !in Effected(s).mail
    ensures MissionFailed !in s.mail ==> MissionFailed !in Effected(s).mail
  {}

  // ---------------------------------------------------------------- missions with at least one task

  lemma ConsumeKeepsNonEmpty(s: Sys, ch: Channel, r: Reaction)
    requires NonEmptyInv(s) && Handled(s, ch, r)
    ensures NonEmptyInv(ConsumedWith(s, ch, r))
  {
    assert MissionsBalanced(s.sm.state, ch, s.mail[ch], r, FreshFromApi);
    assert MissionsBalanced(s.sm.state, ch, s.mail[ch], r, Relaunch);
    assert r.script.command.Some? && r.script.command.value.Start? ==>
             Launched(r, r.script.command.value.origin) == Some(r.script.command.value.mission);
  }

  lemma EffectKeepsNonEmpty(s: Sys)
    requires NonEmptyInv(s) && HasWork(s.sm.script)
    ensures NonEmptyInv(Effected(s))
  {}

  lemma MainKeepsMail(s: Sys, cfg: Config, answer: Answer)
    requires NonEmptyInv(s) && MainReady(s)
    ensures MailHasTasks(MainStep(s, cfg, answer).mail)
  {}

  lemma MainKeepsStarts(s: Sys, cfg: Config, answer: Answer)
    requires NonEmptyInv(s) && TaskInv(s.rs) && MainReady(s)
    ensures RsHasTasks(MainStep(s, cfg, answer).rs)
  {}

  lemma StepKeepsNonEmpty(s: Sys, cfg: Config, a: Action)
    requires NonEmptyInv(s) && TaskInv(s.rs) && Enabled(s, a)
    ensures NonEmptyInv(Step(s, cfg, a))
  {
    match a
    case SmConsume(ch) =>
      ConsumeIsHandled(s, cfg, ch);
      ConsumeKeepsNonEmpty(s, ch, React(s.sm.state, cfg.retryLimit, ch, s.mail[ch]));
    case SmTimer =>
    case SmEffect => EffectKeepsNonEmpty(s);
    case RsMain(answer) =>
      MainKeepsMail(s, cfg, answer);
      MainKeepsStarts(s, cfg, answer);
      MainLeavesSm(s, cfg, answer);
    case MonitorEnter(i) =>
    case MonitorSignal(i, success, after) =>
    case MonitorAbort(i, after) =>
    case EnvPut(ch, msg) =>
    case EnvClear(ch) =>
  }

  lemma StepKeepsService(s: Sys, cfg: Config, a: Action)
    requires ServiceInv(s) && Enabled(s, a)
    ensures ServiceInv(Step(s, cfg, a))
  {
    StepKeepsTasks(s, cfg, a);
    forall i: nat ensures SignalInv(Step(s, cfg, a), i) { StepKeepsSignals(s, cfg, a, i); }
    StepKeepsCleared(s, cfg, a);
    StepKeepsNonEmpty(s, cfg, a);
  }
}
