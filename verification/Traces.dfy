/** The steps of which runs with a particular end are made. */
module Traces {
  import opened Missions
  import opened Events
  import opened Scripts
  import opened States
  import opened Protocol
  import opened Runs

  lemma GoMain(origin: Sys, cfg: Config, s: Sys, answer: Answer) returns (s': Sys)
    requires Reaches(origin, cfg, s) && MainReady(s)
    ensures s' == MainStep(s, cfg, answer) && Reaches(origin, cfg, s')
  {
    ReachesNext(origin, cfg, s, RsMain(answer));
    s' := Step(s, cfg, RsMain(answer));
  }

  lemma GoEffect(origin: Sys, cfg: Config, s: Sys) returns (s': Sys)
    requires Reaches(origin, cfg, s) && HasWork(s.sm.script)
    ensures s' == Effected(s) && Reaches(origin, cfg, s')
  {
    ReachesNext(origin, cfg, s, SmEffect);
    s' := Step(s, cfg, SmEffect);
  }

  lemma GoConsume(origin: Sys, cfg: Config, s: Sys, ch: Channel) returns (s': Sys)
    requires Reaches(origin, cfg, s) && Enabled(s, SmConsume(ch))
    ensures Reaches(origin, cfg, s') && s'.mail == s.mail - {ch} && s'.rs == s.rs
    ensures var r := React(s.sm.state, cfg.retryLimit, ch, s.mail[ch]);
            s'.sm == Sm(if r.next.Some? then r.next.value else s.sm.state, r.script)
  {
    ReachesNext(origin, cfg, s, SmConsume(ch));
    s' := Step(s, cfg, SmConsume(ch));
  }

  lemma GoPut(origin: Sys, cfg: Config, s: Sys, ch: Channel, msg: Message) returns (s': Sys)
    requires Reaches(origin, cfg, s) && Enabled(s, EnvPut(ch, msg)) && ch !in s.mail
    ensures Reaches(origin, cfg, s') && s' == s.(mail := s.mail[ch := msg])
  {
    ReachesNext(origin, cfg, s, EnvPut(ch, msg));
    s' := Step(s, cfg, EnvPut(ch, msg));
  }

  /** A value is put into an empty mailbox from outside, and the state machine consumes it. */
  lemma GoHandle(origin: Sys, cfg: Config, s: Sys, ch: Channel, msg: Message) returns (s': Sys)
    requires Reaches(origin, cfg, s) && Enabled(s, EnvPut(ch, msg)) && ch !in s.mail
    requires !HasWork(s.sm.script) && ch in Table(s.sm.state)
    ensures Reaches(origin, cfg, s') && s'.mail == s.mail && s'.rs == s.rs
    ensures var r := React(s.sm.state, cfg.retryLimit, ch, msg);
            s'.sm == Sm(if r.next.Some? then r.next.value else s.sm.state, r.script)
  {
    var put := GoPut(origin, cfg, s, ch, msg);
    s' := GoConsume(origin, cfg, put, ch);
    assert put.mail - {ch} == s.mail;
  }

  function SomeMission(id: string): Mission {
    Mission(id, id, [Task(id, TakeImage, TaskStatus.NotStarted)])
  }

  /** The state machine is idle between missions. */
  lemma Idle(cfg: Config) returns (s: Sys)
    ensures Reaches(Initial(UnknownStatus), cfg, s)
    ensures s.mail == map[] && s.sm == Sm(AwaitNextMission, NOTHING) && s.rs == Rs(PollStart, [], None)
  {
    var origin := Initial(UnknownStatus);
    ReachesSelf(origin, cfg);
    s := GoHandle(origin, cfg, origin, RobotStatusUpdate, OfStatus(RobotStatus.Available));
  }

  /** A wipe of an empty mailbox. */
  lemma Wipe(origin: Sys, cfg: Config, s: Sys) returns (s': Sys)
    requires Reaches(origin, cfg, s)
    requires !s.sm.script.eager && s.sm.script.wipes != [] && s.sm.script.wipes[0] !in s.mail
    ensures Reaches(origin, cfg, s') && s'.rs == s.rs && s'.mail == s.mail
    ensures s'.sm == s.sm.(script := s.sm.script.(wipes := s.sm.script.wipes[1..]))
  {
    s' := GoEffect(origin, cfg, s);
    assert s.mail - {s.sm.script.wipes[0]} == s.mail;
  }

  /** A start request is accepted and everything before the command itself has been done. */
  lemma AcceptStart(origin: Sys, cfg: Config, s: Sys, m: Mission) returns (s': Sys)
    requires Reaches(origin, cfg, s) && s.sm == Sm(AwaitNextMission, NOTHING) && m.tasks != []
    requires forall ch :: ch in s.mail ==> ch.StartCommand? || ch.Response?
    ensures Reaches(origin, cfg, s') && s'.rs == s.rs && s'.mail == s.mail
    ensures s'.sm == Sm(Monitor(m.id), Script(false, [], Some(Start(m, FreshFromApi)), Some(Reply(StartMission, true))))
  {
    s' := GoHandle(origin, cfg, s, Request(StartMission), OfMission(m));
    s' := Wipe(origin, cfg, s');
    s' := Wipe(origin, cfg, s');
    s' := Wipe(origin, cfg, s');
  }
}
