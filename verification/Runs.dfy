/** Runs of the step relation, put together. */
module Runs {
  import opened States
  import opened Protocol

  lemma {:induction false} RunAppend(s: Sys, cfg: Config, a: seq<Action>, b: seq<Action>)
    requires CanRun(s, cfg, a) && CanRun(Run(s, cfg, a), cfg, b)
    ensures CanRun(s, cfg, a + b) && Run(s, cfg, a + b) == Run(Run(s, cfg, a), cfg, b)
    decreases |a|
  {
    if a == [] {
      assert a + b == b;
    } else {
      assert (a + b)[1..] == a[1..] + b;
      RunAppend(Step(s, cfg, a[0]), cfg, a[1..], b);
    }
  }

  lemma RunOne(s: Sys, cfg: Config, a: Action)
    requires Enabled(s, a)
    ensures CanRun(s, cfg, [a]) && Run(s, cfg, [a]) == Step(s, cfg, a)
  {
    assert [a][1..] == [];
    assert CanRun(Step(s, cfg, a), cfg, []);
  }

  /** Some run leads from `s` to `s'`. */
  ghost predicate Reaches(s: Sys, cfg: Config, s': Sys) {
    exists run :: CanRun(s, cfg, run) && Run(s, cfg, run) == s'
  }

  lemma ReachesSelf(s: Sys, cfg: Config)
    ensures Reaches(s, cfg, s)
  {
    assert CanRun(s, cfg, []) && Run(s, cfg, []) == s;
  }

  lemma ReachesThrough(s: Sys, cfg: Config, s1: Sys, s2: Sys)
    requires Reaches(s, cfg, s1) && Reaches(s1, cfg, s2)
    ensures Reaches(s, cfg, s2)
  {
    var a :| CanRun(s, cfg, a) && Run(s, cfg, a) == s1;
    var b :| CanRun(s1, cfg, b) && Run(s1, cfg, b) == s2;
    RunAppend(s, cfg, a, b);
  }

  lemma ReachesNext(s: Sys, cfg: Config, s': Sys, a: Action)
    requires Reaches(s, cfg, s') && Enabled(s', a)
    ensures Reaches(s, cfg, Step(s', cfg, a))
  {
    RunOne(s', cfg, a);
    ReachesThrough(s, cfg, s', Step(s', cfg, a));
  }

  lemma ReachesFromStart(st: SmState, cfg: Config, s: Sys)
    requires CanStartIn(st) && Reaches(Initial(st), cfg, s)
    ensures Reachable(s, cfg)
  {
    var run :| CanRun(Initial(st), cfg, run) && Run(Initial(st), cfg, run) == s;
  }

  /** What a reachable state reaches is reachable. */
  lemma ReachableThrough(s: Sys, cfg: Config, s': Sys)
    requires Reachable(s, cfg) && Reaches(s, cfg, s')
    ensures Reachable(s', cfg)
  {
    var st, run :| CanStartIn(st) && CanRun(Initial(st), cfg, run) && s == Run(Initial(st), cfg, run);
    ReachesThrough(Initial(st), cfg, s, s');
    ReachesFromStart(st, cfg, s');
  }
}
