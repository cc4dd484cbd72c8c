/** A pass of the state machine thread, with no other thread in between, is a run of the step relation. */
module Refinement {
  import opened Missions
  import opened Events
  import opened Scripts
  import opened States
  import opened StateRun
  import opened Reactions
  import opened Protocol
  import opened Runs
  import opened Tokens

  /** The handlers of one state as `State.run` gets them. */
  function HandlerOf(st: SmState, limit: int): Handler {
    (ch, msg) => if ch in Table(st) && Carries(ch, msg) then React(st, limit, ch, msg) else Ignore()
  }

  ghost predicate SmOnly(run: seq<Action>) {
    forall i :: 0 <= i < |run| ==> run[i].SmConsume? || run[i].SmEffect?
  }

  /** One operation of a script leaves the rest of the script to be performed. */
  lemma EffectPerforms(s: Sys)
    requires HasWork(s.sm.script)
    ensures Performed(Effected(s).mail, Effected(s).sm.script) == Performed(s.mail, s.sm.script)
  {}

  lemma EffectShortens(s: Sys)
    requires HasWork(s.sm.script)
    ensures ScriptSize(Effected(s).sm.script) < ScriptSize(s.sm.script)
    ensures Effected(s).sm.state == s.sm.state && Effected(s).rs == s.rs
  {}

  /** The single steps of a script add up to the script performed in one go. */
  lemma {:induction false} ScriptIsARun(s: Sys, cfg: Config) returns (run: seq<Action>)
    ensures CanRun(s, cfg, run) && SmOnly(run)
    ensures var s' := Run(s, cfg, run);
            && s'.mail == Performed(s.mail, s.sm.script) && !HasWork(s'.sm.script)
            && s'.sm.state == s.sm.state && s'.rs == s.rs
    decreases ScriptSize(s.sm.script)
  {
    if HasWork(s.sm.script) {
      EffectPerforms(s);
      EffectShortens(s);
      var rest := ScriptIsARun(Effected(s), cfg);
      run := [SmEffect] + rest;
      assert run[1..] == rest;
    } else {
      run := [];
    }
  }

  /** What a pass over the table does is what some run of the state machine thread alone does. */
  lemma {:induction false} PassIsARun(s: Sys, cfg: Config, t: seq<Channel>) returns (run: seq<Action>)
    requires Typed(s.mail) && !HasWork(s.sm.script)
    requires forall i :: 0 <= i < |t| ==> t[i] in Table(s.sm.state)
    ensures CanRun(s, cfg, run) && SmOnly(run)
    ensures var s' := Run(s, cfg, run);
            var p := Pass(s.mail, t, HandlerOf(s.sm.state, cfg.retryLimit));
            && s'.mail == p.mail && !HasWork(s'.sm.script) && s'.rs == s.rs
            && s'.sm.state == (if p.moved.Some? then After(s.sm.state, p.moved.value) else s.sm.state)
    decreases |t|
  {
    if t == [] {
      run := [];
    } else if t[0] !in s.mail {
      run := PassIsARun(s, cfg, t[1..]);
    } else {
      var first := Consumed(s, cfg, t[0]);
      var script := ScriptIsARun(first, cfg);
      run := [SmConsume(t[0])] + script;
      assert run[1..] == script;
      var s1 := Run(s, cfg, run);
      assert s1 == Run(first, cfg, script);
      var r := React(s.sm.state, cfg.retryLimit, t[0], s.mail[t[0]]);
      if r.next.None? {
        TypedAfterScript(s, cfg, run);
        var rest := PassIsARun(s1, cfg, t[1..]);
        RunAppend(s, cfg, run, rest);
        run := run + rest;
      }
    }
  }

  lemma {:induction false} TypedAfterScript(s: Sys, cfg: Config, run: seq<Action>)
    requires Typed(s.mail) && CanRun(s, cfg, run) && SmOnly(run)
    ensures Typed(Run(s, cfg, run).mail)
    decreases |run|
  {
    if run == [] {
    } else {
      TypedAfterScript(Step(s, cfg, run[0]), cfg, run[1..]);
    }
  }

  // ---------------------------------------------------------------- the 28 tables are proper tables

  lemma LargeTables(id: string, n: int)
    ensures GoodTable(Table(Monitor(id))) && GoodTable(Table(ReturningHome(n)))
  {}

  lemma IdleTables()
    ensures GoodTable(Table(AwaitNextMission)) && GoodTable(Table(SmState.Home))
  {}

  lemma PausedTables(id: string, m: Mission)
    ensures GoodTable(Table(SmState.Paused(id))) && GoodTable(Table(ReturnHomePaused))
    ensures GoodTable(Table(RechargingWithMission(m)))
  {}

  lemma SmallTables(st: SmState)
    requires |Table(st)| <= 4
    ensures GoodTable(Table(st))
  {}

  lemma TableIsGood(st: SmState)
    ensures GoodTable(Table(st))
  {
    match st
    case Monitor(id) => LargeTables(id, 0);
    case ReturningHome(n) => LargeTables("", n);
    case AwaitNextMission => IdleTables();
    case Home => IdleTables();
    case Paused(id) => PausedTables(id, ReturnHomeMission());
    case ReturnHomePaused => PausedTables("", ReturnHomeMission());
    case RechargingWithMission(m) => PausedTables("", m);
    case _ => SmallTables(st);
  }
}
