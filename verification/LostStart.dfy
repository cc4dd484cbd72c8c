/**
 A start command, unlike a stop or a pause, can be dropped: the main loop polls for it once in every pass, and a stop
 that arrives later in the same pass is answered before the start is seen.
 */
module LostStart {
  import opened Missions
  import opened Events
  import opened Scripts
  import opened States
  import opened Protocol
  import opened Runs
  import opened Traces

  /** The command is put after the main loop has polled for it. */
  lemma PutStart(origin: Sys, cfg: Config, s: Sys, m: Mission) returns (s': Sys)
    requires Reaches(origin, cfg, s) && s.mail == map[] && s.rs == Rs(PollStart, [], None)
    requires s.sm == Sm(Monitor(m.id), Script(false, [], Some(Start(m, FreshFromApi)), Some(Reply(StartMission, true))))
    ensures Reaches(origin, cfg, s') && s'.rs == Rs(PollPause, [], None) && s'.sm == Sm(Monitor(m.id), NOTHING)
    ensures s'.mail == map[StartCommand := OfMission(m), Response(StartMission) := OfReply(true)]
  {
    s' := GoMain(origin, cfg, s, Accepts);
    s' := GoEffect(origin, cfg, s');
    s' := GoEffect(origin, cfg, s');
  }

  /** The mission is stopped before the pass is over. */
  lemma PutStop(origin: Sys, cfg: Config, s: Sys, id: string) returns (s': Sys)
    requires Reaches(origin, cfg, s) && s.sm == Sm(Monitor(id), NOTHING)
    requires forall ch :: ch in s.mail ==> ch.StartCommand? || ch == Response(StartMission)
    ensures Reaches(origin, cfg, s') && s'.rs == s.rs && s'.sm == Sm(Stopping(id), NOTHING)
    ensures s'.mail == s.mail[StopCommand := Empty][Response(StopMission) := OfReply(true)]
  {
    s' := GoHandle(origin, cfg, s, Request(StopMission), OfId(""));
    s' := GoEffect(origin, cfg, s');
    s' := GoEffect(origin, cfg, s');
  }

  /** The stop finds no monitor, ... */
  lemma HandleStop(origin: Sys, cfg: Config, s: Sys) returns (s': Sys)
    requires Reaches(origin, cfg, s) && s.rs == Rs(PollPause, [], None) && StopCommand in s.mail
    requires forall ch :: ch in s.mail ==> ch.StartCommand? || ch.Response? || ch.StopCommand?
    ensures Reaches(origin, cfg, s') && s'.sm == s.sm && s'.mail == s.mail - {StopCommand}
    ensures s'.rs == Rs(ClearSucceeded, [], None)
  {
    s' := GoMain(origin, cfg, s, Accepts);
    assert s'.mail == s.mail;
    s' := GoMain(origin, cfg, s', Accepts);
    assert s'.mail == s.mail;
    s' := GoMain(origin, cfg, s', Accepts);
    s' := GoMain(origin, cfg, s', Accepts);
  }

  /** ... has no result to clear, ... */
  lemma ClearResults(origin: Sys, cfg: Config, s: Sys) returns (s': Sys)
    requires Reaches(origin, cfg, s) && s.rs == Rs(ClearSucceeded, [], None)
    requires forall ch :: ch in s.mail ==> ch.StartCommand? || ch.Response?
    ensures Reaches(origin, cfg, s') && s'.sm == s.sm && s'.mail == s.mail
    ensures s'.rs == Rs(SignalAlreadyDone, [], None)
  {
    s' := GoMain(origin, cfg, s, Accepts);
    assert s'.mail == s.mail;
    s' := GoMain(origin, cfg, s', Accepts);
    assert s'.mail == s.mail;
  }

  /** ... and is answered. */
  lemma AnswerStop(origin: Sys, cfg: Config, s: Sys) returns (s': Sys)
    requires Reaches(origin, cfg, s) && s.rs == Rs(SignalAlreadyDone, [], None)
    requires s.sm.state.Stopping? && s.sm.script == NOTHING
    requires forall ch :: ch in s.mail ==> ch.StartCommand? || ch.Response?
    ensures Reaches(origin, cfg, s') && s'.sm == Sm(AwaitNextMission, NOTHING) && s'.mail == s.mail
    ensures s'.rs == Rs(CheckMonitor, [], None)
  {
    s' := GoMain(origin, cfg, s, Accepts);
    assert s'.mail == s.mail[StoppedMissionAlreadyDone := Empty];
    s' := GoConsume(origin, cfg, s', StoppedMissionAlreadyDone);
    assert s'.mail == s.mail;
  }

  /** A start command reaches its mailbox exactly if the one before has been taken from there. */
  lemma StartIsPutIff(s: Sys, m: Mission, origin: Origin)
    requires !s.sm.script.eager && s.sm.script.wipes == [] && s.sm.script.command == Some(Start(m, origin))
    ensures StartCommand in Effected(s).mail
    ensures Effected(s).mail[StartCommand] == OfMission(m)
            <==> StartCommand !in s.mail || s.mail[StartCommand] == OfMission(m)
    ensures origin.FreshFromApi? ==> m in Effected(s).ledger.launched
  {}

  /**
   Some run ends with the second of two missions accepted and monitored by the state machine, while its start command
   has been dropped in favour of that of the first mission, which had been stopped.
   */
  lemma StartCanBeDropped(cfg: Config) returns (s: Sys, stopped: Mission, started: Mission)
    ensures Reachable(s, cfg) && stopped != started
    ensures s.sm.state == Monitor(started.id) && s.sm.script.command.None?
    ensures started in s.ledger.launched
    ensures StartCommand in s.mail && s.mail[StartCommand] == OfMission(stopped)
  {
    var origin := Initial(UnknownStatus);
    stopped, started := SomeMission("a"), SomeMission("b");
    assert stopped.id[0] != started.id[0];
    s := Idle(cfg);
    s := AcceptStart(origin, cfg, s, stopped);
    s := PutStart(origin, cfg, s, stopped);
    s := PutStop(origin, cfg, s, stopped.id);
    s := HandleStop(origin, cfg, s);
    s := ClearResults(origin, cfg, s);
    s := AnswerStop(origin, cfg, s);
    s := AcceptStart(origin, cfg, s, started);
    s := GoEffect(origin, cfg, s);
    ReachesFromStart(UnknownStatus, cfg, s);
  }
}
