/**
 Where the missions in the program come from: each is the return home or what is left of a mission that the state
 machine has accepted, with its id and name, and with its tasks in their order.
 */
module Provenance {
  import opened Missions
  import opened Events
  import opened Scripts
  import opened States
  import opened Reactions
  import opened Protocol
  import opened Accounts
  import opened AbortContinue

  /** `m` is what is left of `a`. */
  ghost predicate IsLeftOf(m: Mission, a: Mission) {
    m.id == a.id && m.name == a.name && IsSubsequence(Ids(m.tasks), Ids(a.tasks))
  }

  ghost predicate Known(m: Mission, accepted: multiset<Mission>) {
    IsLeftOf(m, ReturnHomeMission()) || exists a :: a in accepted && IsLeftOf(m, a)
  }

  lemma KnownLater(m: Mission, before: multiset<Mission>, after: multiset<Mission>)
    requires Known(m, before) && before <= after
    ensures Known(m, after)
  {
    if !IsLeftOf(m, ReturnHomeMission()) {
      var a :| a in before && IsLeftOf(m, a);
      assert a in after;
    }
  }

  lemma KnownItself(m: Mission, accepted: multiset<Mission>)
    requires m in accepted || m == ReturnHomeMission()
    ensures Known(m, accepted)
  {
    SubsequenceReflexive(Ids(m.tasks));
    assert IsLeftOf(m, m);
  }

  lemma KnownLess(m: Mission, less: Mission, accepted: multiset<Mission>)
    requires Known(m, accepted) && IsLeftOf(less, m)
    ensures Known(less, accepted)
  {
    if IsLeftOf(m, ReturnHomeMission()) {
      SubsequenceTransitive(Ids(less.tasks), Ids(m.tasks), Ids(ReturnHomeMission().tasks));
    } else {
      var a :| a in accepted && IsLeftOf(m, a);
      SubsequenceTransitive(Ids(less.tasks), Ids(m.tasks), Ids(a.tasks));
      assert IsLeftOf(less, a);
    }
  }

  lemma SameIsLeft(m: Mission, after: Mission)
    requires SameMission(m, after)
    ensures IsLeftOf(after, m)
  {
    assert Ids(m.tasks) == Ids(after.tasks);
    SubsequenceReflexive(Ids(m.tasks));
  }

  lemma ContinuedIsLeft(m: Mission)
    ensures IsLeftOf(m.Continued(), m)
  {
    UnfinishedKeepsOrder(m.tasks);
  }

  // ---------------------------------------------------------------- everywhere in the program

  predicate HasMission(s: Start) { !s.Refused? && !s.NeverEntered? }

  /** Requests are not accepted yet. */
  ghost predicate MailKnown(mail: Mail, accepted: multiset<Mission>) {
    forall ch :: ch in mail && !ch.Request? && mail[ch].OfMission? ==> Known(mail[ch].mission, accepted)
  }

  ghost predicate SmKnown(sm: Sm, accepted: multiset<Mission>) {
    && (Held(sm.state, FreshFromApi).Some? ==> Known(Held(sm.state, FreshFromApi).value, accepted))
    && (Held(sm.state, Relaunch).Some? ==> Known(Held(sm.state, Relaunch).value, accepted))
    && (sm.script.command.Some? && sm.script.command.value.Start? ==> Known(sm.script.command.value.mission, accepted))
  }

  ghost predicate StartsKnown(starts: seq<Start>, accepted: multiset<Mission>) {
    forall i :: 0 <= i < |starts| && HasMission(starts[i]) ==> Known(starts[i].mission, accepted)
  }

  ghost predicate PcKnown(pc: Pc, accepted: multiset<Mission>) {
    pc.SignalContinued? ==> Known(pc.mission, accepted)
  }

  ghost predicate KnownInv(s: Sys) {
    && MailKnown(s.mail, s.ledger.accepted)
    && SmKnown(s.sm, s.ledger.accepted)
    && StartsKnown(s.rs.starts, s.ledger.accepted)
    && PcKnown(s.rs.pc, s.ledger.accepted)
  }

  lemma LaterKeepsAll(s: Sys, accepted: multiset<Mission>)
    requires KnownInv(s) && s.ledger.accepted <= accepted
    ensures KnownInv(s.(ledger := s.ledger.(accepted := accepted)))
  {
    forall m | Known(m, s.ledger.accepted) ensures Known(m, accepted) { KnownLater(m, s.ledger.accepted, accepted); }
  }

  /** What arrives with an event is known from then on. */
  lemma ArrivingIsKnown(s: Sys, ch: Channel, r: Reaction, origin: Origin)
    requires KnownInv(s) && Handled(s, ch, r)
    requires Arriving(s.sm.state, ch, s.mail[ch], origin).Some?
    ensures Known(Arriving(s.sm.state, ch, s.mail[ch], origin).value, ConsumedWith(s, ch, r).ledger.accepted)
  {
    var m := Arriving(s.sm.state, ch, s.mail[ch], origin).value;
    var after := ConsumedWith(s, ch, r).ledger.accepted;
    if origin.FreshFromApi? {
      KnownItself(m, after);
    } else {
      assert Known(m, s.ledger.accepted);
      KnownLater(m, s.ledger.accepted, after);
    }
  }

  lemma ConsumeKeepsSmKnown(s: Sys, ch: Channel, r: Reaction, origin: Origin)
    requires KnownInv(s) && Handled(s, ch, r)
    ensures var s' := ConsumedWith(s, ch, r);
            && (Held(s'.sm.state, origin).Some? ==> Known(Held(s'.sm.state, origin).value, s'.ledger.accepted))
            && (Launched(r, origin).Some? ==> Known(Launched(r, origin).value, s'.ledger.accepted))
  {
    assert MissionsBalanced(s.sm.state, ch, s.mail[ch], r, origin);
    var after := ConsumedWith(s, ch, r).ledger.accepted;
    if Held(s.sm.state, origin).Some? {
      KnownLater(Held(s.sm.state, origin).value, s.ledger.accepted, after);
    } else if Arriving(s.sm.state, ch, s.mail[ch], origin).Some? {
      ArrivingIsKnown(s, ch, r, origin);
    }
  }

  lemma ConsumeKeepsKnown(s: Sys, cfg: Config, ch: Channel)
    requires KnownInv(s) && Enabled(s, SmConsume(ch))
    ensures KnownInv(Step(s, cfg, SmConsume(ch)))
  {
    var r := React(s.sm.state, cfg.retryLimit, ch, s.mail[ch]);
    ConsumeIsHandled(s, cfg, ch);
    var s' := ConsumedWith(s, ch, r);
    LaterKeepsAll(s, s'.ledger.accepted);
    ConsumeKeepsSmKnown(s, ch, r, FreshFromApi);
    ConsumeKeepsSmKnown(s, ch, r, Relaunch);
    if r.script.command.Some? && r.script.command.value.Start? {
      CommandIsLaunched(r);
    }
  }

  lemma CommandIsLaunched(r: Reaction)
    requires r.script.command.Some? && r.script.command.value.Start?
    ensures Launched(r, r.script.command.value.origin) == Some(r.script.command.value.mission)
  {}

  lemma TimerKeepsKnown(s: Sys, cfg: Config)
    requires KnownInv(s) && Enabled(s, SmTimer)
    ensures KnownInv(Step(s, cfg, SmTimer))
  {}

  lemma EffectKeepsKnown(s: Sys)
    requires KnownInv(s) && HasWork(s.sm.script)
    ensures KnownInv(Effected(s))
  {
    KnownItself(ReturnHomeMission(), s.ledger.accepted);
  }

  lemma MainKeepsMailKnown(s: Sys, cfg: Config, answer: Answer)
    requires KnownInv(s) && MainReady(s)
    ensures MailKnown(MainStep(s, cfg, answer).mail, s.ledger.accepted)
  {}

  lemma MainKeepsStartsKnown(s: Sys, cfg: Config, answer: Answer)
    requires KnownInv(s) && MainReady(s)
    ensures StartsKnown(MainStep(s, cfg, answer).rs.starts, s.ledger.accepted)
  {}

  lemma MainKeepsPcKnown(s: Sys, cfg: Config, answer: Answer)
    requires KnownInv(s) && MainReady(s)
    ensures PcKnown(MainStep(s, cfg, answer).rs.pc, s.ledger.accepted)
  {
    if s.rs.pc.AwaitMonitor? {
      var result := ResultOf(s.rs.starts[s.rs.monitor.value]);
      if result.Some? {
        ContinuedIsLeft(result.value);
        KnownLess(result.value, result.value.Continued(), s.ledger.accepted);
      }
    }
  }

  lemma MainKeepsKnown(s: Sys, cfg: Config, answer: Answer)
    requires KnownInv(s) && MainReady(s)
    ensures KnownInv(MainStep(s, cfg, answer))
  {
    MainKeepsMailKnown(s, cfg, answer);
    MainKeepsStartsKnown(s, cfg, answer);
    MainKeepsPcKnown(s, cfg, answer);
    MainLeavesSm(s, cfg, answer);
  }

  /** A monitor hands back the same mission with other statuses. */
  lemma MonitorKeepsKnown(s: Sys, cfg: Config, i: nat, after: Mission, a: Action)
    requires KnownInv(s) && Enabled(s, a)
    requires a == MonitorAbort(i, after) || (a.MonitorSignal? && a.i == i && a.after == after)
    ensures KnownInv(Step(s, cfg, a))
  {
    SameIsLeft(s.rs.starts[i].mission, after);
    KnownLess(s.rs.starts[i].mission, after, s.ledger.accepted);
  }

  lemma StepKeepsKnown(s: Sys, cfg: Config, a: Action)
    requires KnownInv(s) && Enabled(s, a)
    ensures KnownInv(Step(s, cfg, a))
  {
    match a
    case SmConsume(ch) => ConsumeKeepsKnown(s, cfg, ch);
    case SmTimer => TimerKeepsKnown(s, cfg);
    case SmEffect => EffectKeepsKnown(s);
    case RsMain(answer) => MainKeepsKnown(s, cfg, answer);
    case MonitorSignal(i, success, after) => MonitorKeepsKnown(s, cfg, i, after, a);
    case MonitorAbort(i, after) => MonitorKeepsKnown(s, cfg, i, after, a);
    case _ =>
  }

  lemma {:induction false} RunKeepsKnown(s: Sys, cfg: Config, run: seq<Action>)
    requires KnownInv(s) && CanRun(s, cfg, run)
    ensures KnownInv(Run(s, cfg, run))
    decreases |run|
  {
    if run == [] {
    } else {
      StepKeepsKnown(s, cfg, run[0]);
      RunKeepsKnown(Step(s, cfg, run[0]), cfg, run[1..]);
    }
  }

  /**
   In every reachable state: each mission that the robot service has been given, is monitoring or hands back, that waits
   in a mailbox, or that the state machine holds is the return home or what is left of an accepted mission.
   */
  lemma MissionsAreLeftOfAccepted(s: Sys, cfg: Config)
    requires Reachable(s, cfg)
    ensures forall i :: 0 <= i < |s.rs.starts| && HasMission(s.rs.starts[i]) ==>
              Known(s.rs.starts[i].mission, s.ledger.accepted)
    ensures forall ch :: ch in s.mail && !ch.Request? && s.mail[ch].OfMission? ==>
              Known(s.mail[ch].mission, s.ledger.accepted)
    ensures forall origin :: Held(s.sm.state, origin).Some? ==> Known(Held(s.sm.state, origin).value, s.ledger.accepted)
  {
    var st, run :| CanStartIn(st) && CanRun(Initial(st), cfg, run) && s == Run(Initial(st), cfg, run);
    RunKeepsKnown(Initial(st), cfg, run);
  }
}
