/**
 Which tasks an aborted mission is carried on with, told by their statuses alone (`_get_unfinished_tasks` in
 src/robot_interface/models/mission/mission.py), for one abort and over any number of aborts.
 */
module CarriedTasks {
  import opened Missions
  import opened MonitorMission
  import opened AbortContinue

  /** The task still has to be run; a cancelled task has. */
  predicate IsToBeRun(t: Task) {
    t.status.NotStarted? || t.status.InProgress? || t.status.Paused? || t.status.Cancelled?
  }

  /** The task has been run to its end; a failed task has. */
  predicate IsOver(t: Task) { t.status.Failed? || t.status.Successful? || t.status.PartiallySuccessful? }

  lemma {:induction false} UnfinishedCounted(tasks: seq<Task>, t: Task)
    ensures multiset(Unfinished(tasks))[t] == if IsToBeRun(t) then multiset(tasks)[t] else 0
  {
    if tasks == [] {
    } else {
      UnfinishedCounted(tasks[1..], t);
      assert tasks == [tasks[0]] + tasks[1..];
      assert multiset(tasks) == multiset{tasks[0]} + multiset(tasks[1..]);
    }
  }

  lemma {:induction false} UnfinishedInOrder(tasks: seq<Task>)
    ensures IsSubsequence(Unfinished(tasks), tasks)
  {
    if tasks == [] {
    } else {
      UnfinishedInOrder(tasks[1..]);
    }
  }

  /** A mission is carried on with exactly the tasks that are to be run, as often as it has them and in their order. */
  lemma CarriedOnIff(m: Mission, t: Task)
    ensures m.Continued().id == m.id && m.Continued().name == m.name
    ensures t in m.Continued().tasks <==> t in m.tasks && IsToBeRun(t)
    ensures multiset(m.Continued().tasks)[t] == if IsToBeRun(t) then multiset(m.tasks)[t] else 0
    ensures IsSubsequence(m.Continued().tasks, m.tasks)
  {
    UnfinishedCounted(m.tasks, t);
    UnfinishedInOrder(m.tasks);
    assert t in m.Continued().tasks <==> multiset(m.Continued().tasks)[t] > 0;
    assert t in m.tasks <==> multiset(m.tasks)[t] > 0;
  }

  // ---------------------------------------------------------------- over several legs

  /** The mission that leg `k` is started with. */
  function LegMission(cfg: Settings, mission: Mission, legs: seq<Leg>, k: nat): Mission
    requires cfg.limit > 0 && k <= |legs|
  {
    if k == 0 then mission
    else
      var before := LegMission(cfg, mission, legs, k - 1);
      if before.tasks == [] then before else AfterLeg(cfg, before, legs[k - 1])
  }

  /** A task with this id was over at the end of leg `j`. */
  predicate OverIn(cfg: Settings, mission: Mission, legs: seq<Leg>, j: nat, id: string)
    requires cfg.limit > 0 && j < |legs|
  {
    var m := LegMission(cfg, mission, legs, j);
    m.tasks != [] && exists t :: t in RunLeg(cfg, m, legs[j]).tasks && t.id == id && IsOver(t)
  }

  lemma IdsOfUnfinished(tasks: seq<Task>, id: string)
    requires multiset(Ids(tasks))[id] <= 1
    ensures multiset(Ids(Unfinished(tasks)))[id] <= 1
    ensures id in Ids(Unfinished(tasks)) <==> id in Ids(tasks) && !exists t :: t in tasks && t.id == id && IsOver(t)
  {
    SharedOut(tasks);
    if id in Ids(Unfinished(tasks)) {
      var i :| 0 <= i < |Unfinished(tasks)| && Ids(Unfinished(tasks))[i] == id;
      var kept := Unfinished(tasks)[i];
      UnfinishedCounted(tasks, kept);
      assert kept in tasks && kept.id == id;
      forall t | t in tasks && t.id == id ensures !IsOver(t) {
        SameIdSameTask(tasks, kept, t);
      }
    } else if id in Ids(tasks) {
      var i :| 0 <= i < |tasks| && Ids(tasks)[i] == id;
      UnfinishedCounted(tasks, tasks[i]);
      IdIsListed(Unfinished(tasks), tasks[i]);
      assert multiset(tasks)[tasks[i]] > 0;
    }
  }

  lemma IdIsListed(tasks: seq<Task>, t: Task)
    ensures multiset(tasks)[t] > 0 ==> t.id in Ids(tasks)
  {
    if t in tasks {
      var k :| 0 <= k < |tasks| && tasks[k] == t;
      assert Ids(tasks)[k] == t.id;
    }
  }

  lemma SameIdSameTask(tasks: seq<Task>, a: Task, b: Task)
    requires multiset(Ids(tasks))[a.id] <= 1 && a in tasks && b in tasks && a.id == b.id
    ensures a == b
  {
    var i :| 0 <= i < |tasks| && tasks[i] == a;
    var j :| 0 <= j < |tasks| && tasks[j] == b;
    if i < j {
      OnceOnly(Ids(tasks), i, j);
    } else if j < i {
      OnceOnly(Ids(tasks), j, i);
    }
  }

  lemma OnceOnly(ids: seq<string>, i: nat, j: nat)
    requires i < j < |ids| && ids[i] == ids[j]
    ensures multiset(ids)[ids[i]] >= 2
  {
    assert ids == ids[..j] + ids[j..];
    assert multiset(ids) == multiset(ids[..j]) + multiset(ids[j..]);
    assert ids[i] in ids[..j] && ids[j] in ids[j..];
  }

  /** One more leg. */
  lemma LegCarriesOnIff(cfg: Settings, m: Mission, leg: Leg, id: string)
    requires cfg.limit > 0 && m.tasks != [] && multiset(Ids(m.tasks))[id] <= 1
    ensures multiset(Ids(AfterLeg(cfg, m, leg).tasks))[id] <= 1
    ensures id in Ids(AfterLeg(cfg, m, leg).tasks)
            <==> id in Ids(m.tasks) && !exists t :: t in RunLeg(cfg, m, leg).tasks && t.id == id && IsOver(t)
  {
    LegKeepsTasks(cfg, m, leg);
    IdsOfUnfinished(RunLeg(cfg, m, leg).tasks, id);
  }

  /** The task was over at the end of none of the first `k` legs. */
  ghost predicate NeverOver(cfg: Settings, mission: Mission, legs: seq<Leg>, k: nat, id: string)
    requires cfg.limit > 0 && k <= |legs|
  {
    forall j :: 0 <= j < k ==> !OverIn(cfg, mission, legs, j, id)
  }

  lemma NeverOverOneMore(cfg: Settings, mission: Mission, legs: seq<Leg>, k: nat, id: string)
    requires cfg.limit > 0 && k < |legs|
    ensures NeverOver(cfg, mission, legs, k + 1, id)
            <==> NeverOver(cfg, mission, legs, k, id) && !OverIn(cfg, mission, legs, k, id)
  {}

  lemma NextLegCarriesOnIff(cfg: Settings, mission: Mission, legs: seq<Leg>, k: nat, id: string)
    requires cfg.limit > 0 && k < |legs| && multiset(Ids(LegMission(cfg, mission, legs, k).tasks))[id] <= 1
    ensures multiset(Ids(LegMission(cfg, mission, legs, k + 1).tasks))[id] <= 1
    ensures id in Ids(LegMission(cfg, mission, legs, k + 1).tasks)
            <==> id in Ids(LegMission(cfg, mission, legs, k).tasks) && !OverIn(cfg, mission, legs, k, id)
  {
    var m := LegMission(cfg, mission, legs, k);
    if m.tasks != [] {
      LegCarriesOnIff(cfg, m, legs[k], id);
    }
  }

  /**
   A task with an id of its own is part of a leg exactly if the mission had it and it was not over at the end of any
   leg before: an ended task, failed ones included, is never run again, and no other task is left behind.
   */
  lemma {:induction false} TaskIsRunAgainIff(cfg: Settings, mission: Mission, legs: seq<Leg>, k: nat, id: string)
    requires cfg.limit > 0 && k <= |legs| && multiset(Ids(mission.tasks))[id] <= 1
    ensures multiset(Ids(LegMission(cfg, mission, legs, k).tasks))[id] <= 1
    ensures id in Ids(LegMission(cfg, mission, legs, k).tasks)
            <==> id in Ids(mission.tasks) && NeverOver(cfg, mission, legs, k, id)
  {
    if k == 0 {
      assert LegMission(cfg, mission, legs, 0) == mission;
    } else {
      TaskIsRunAgainIff(cfg, mission, legs, k - 1, id);
      NextLegCarriesOnIff(cfg, mission, legs, k - 1, id);
      NeverOverOneMore(cfg, mission, legs, k - 1, id);
    }
  }

  lemma HeldWithoutTasks(cfg: Settings, mission: Mission, legs: seq<Leg>)
    requires cfg.limit > 0 && (legs == [] || mission.tasks == [])
    ensures LegMission(cfg, mission, legs, |legs|) == mission == Legs(cfg, mission, legs).held
  {
    if legs == [] {
      assert LegMission(cfg, mission, legs, 0) == mission;
    } else {
      NothingLeft(cfg, mission, legs, |legs|);
    }
  }

  lemma HeldAfterFirst(cfg: Settings, mission: Mission, legs: seq<Leg>, next: Mission, rest: seq<Leg>)
    requires cfg.limit > 0 && legs != [] && mission.tasks != []
    requires next == AfterLeg(cfg, mission, legs[0]) && rest == legs[1..]
    requires LegMission(cfg, next, rest, |rest|) == Legs(cfg, next, rest).held
    ensures LegMission(cfg, mission, legs, |legs|) == Legs(cfg, mission, legs).held
  {
    LegMissionShifts(cfg, mission, legs, |legs|);
  }

  /** The mission after all legs is the one that `Legs` holds. */
  lemma {:induction false} LegMissionIsHeld(cfg: Settings, mission: Mission, legs: seq<Leg>)
    requires cfg.limit > 0
    ensures LegMission(cfg, mission, legs, |legs|) == Legs(cfg, mission, legs).held
    decreases |legs|
  {
    if legs == [] || mission.tasks == [] {
      HeldWithoutTasks(cfg, mission, legs);
    } else {
      var next, rest := AfterLeg(cfg, mission, legs[0]), legs[1..];
      LegMissionIsHeld(cfg, next, rest);
      HeldAfterFirst(cfg, mission, legs, next, rest);
    }
  }

  lemma {:induction false} NothingLeft(cfg: Settings, mission: Mission, legs: seq<Leg>, k: nat)
    requires cfg.limit > 0 && k <= |legs| && mission.tasks == []
    ensures LegMission(cfg, mission, legs, k) == mission
  {
    if k == 0 {
    } else {
      NothingLeft(cfg, mission, legs, k - 1);
    }
  }

  lemma {:induction false} LegMissionShifts(cfg: Settings, mission: Mission, legs: seq<Leg>, k: nat)
    requires cfg.limit > 0 && 0 < k <= |legs| && mission.tasks != []
    ensures LegMission(cfg, mission, legs, k)
            == LegMission(cfg, AfterLeg(cfg, mission, legs[0]), legs[1..], k - 1)
  {
    if k == 1 {
      assert LegMission(cfg, mission, legs, 0) == mission;
    } else {
      LegMissionShifts(cfg, mission, legs, k - 1);
      assert legs[1..][k - 2] == legs[k - 1];
    }
  }
}
