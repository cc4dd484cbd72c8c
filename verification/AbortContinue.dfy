/**
 A mission that is stopped to recharge, held, and started again, any number of times
 (src/isar/robot/robot_service.py, src/isar/state_machine/states/recharging_with_mission.py).
 */
module AbortContinue {
  import opened Missions
  import opened MonitorMission
  import opened MonitorLaws

  /** One start of the mission: what the robot answers, and when the monitor is cancelled if it does not end before. */
  datatype Leg = Leg(robot: Robot, patience: nat)

  /** The monitor of a leg when it is over. */
  function RunLeg(cfg: Settings, mission: Mission, leg: Leg): Mon
    requires mission.tasks != [] && cfg.limit > 0
  {
    Monitored(SettingsFor(cfg, mission), leg.robot, mission.tasks, leg.patience).mon
  }

  /** The mission as the robot service hands it back after a stop: the same one with the unfinished tasks only. */
  function AfterLeg(cfg: Settings, mission: Mission, leg: Leg): Mission
    requires mission.tasks != [] && cfg.limit > 0
  {
    Mission(mission.id, mission.name, RunLeg(cfg, mission, leg).tasks).Continued()
  }

  /** The ids of the tasks at the given positions. */
  function IdsAt(tasks: seq<Task>, positions: seq<nat>): seq<string>
    requires forall k :: 0 <= k < |positions| ==> positions[k] < |tasks|
  {
    if positions == [] then []
    else IdsAt(tasks, positions[..|positions| - 1]) + [tasks[positions[|positions| - 1]].id]
  }

  /** The ids of the tasks whose inspections the leg requested to be uploaded. */
  function Uploaded(cfg: Settings, mission: Mission, leg: Leg): seq<string>
    requires mission.tasks != [] && cfg.limit > 0
  {
    var m := RunLeg(cfg, mission, leg);
    UploadsAreTheSuccessfulInspections(SettingsFor(cfg, mission), leg.robot, mission.tasks, leg.patience);
    assert forall k :: 0 <= k < |m.uploads| ==> m.uploads[k] in m.uploads;
    IdsAt(m.tasks, m.uploads)
  }

  /** What has happened after some legs: the mission that is held, and what all the legs finished and uploaded. */
  datatype History = History(held: Mission, ended: seq<Task>, uploaded: seq<string>)

  function Legs(cfg: Settings, mission: Mission, legs: seq<Leg>): History
    requires cfg.limit > 0
    decreases |legs|
  {
    if legs == [] || mission.tasks == [] then History(mission, [], [])
    else
      var rest := Legs(cfg, AfterLeg(cfg, mission, legs[0]), legs[1..]);
      History(rest.held, EndedTasks(RunLeg(cfg, mission, legs[0]).tasks) + rest.ended,
              Uploaded(cfg, mission, legs[0]) + rest.uploaded)
  }

  // ---------------------------------------------------------------- tasks are ended or unfinished

  /** The two selections share out the tasks. */
  lemma {:induction false} SharedOut(tasks: seq<Task>)
    ensures multiset(Ids(EndedTasks(tasks))) + multiset(Ids(Unfinished(tasks))) == multiset(Ids(tasks))
  {
    if tasks != [] {
      SharedOut(tasks[1..]);
      var first, rest := [tasks[0]], tasks[1..];
      assert tasks == first + rest;
      IdsConcat(first, rest);
      IdsConcat(first, EndedTasks(rest));
      IdsConcat(first, Unfinished(rest));
    } else {
      assert Ids(tasks) == [];
    }
  }

  lemma IdsConcat(a: seq<Task>, b: seq<Task>)
    ensures Ids(a + b) == Ids(a) + Ids(b)
  {}

  lemma {:induction false} EndedConcat(a: seq<Task>, b: seq<Task>)
    ensures EndedTasks(a + b) == EndedTasks(a) + EndedTasks(b)
  {
    if a == [] {
      assert a + b == b;
    } else {
      EndedConcat(a[1..], b);
      assert (a + b)[1..] == a[1..] + b;
    }
  }

  /** `part` can be had from `whole` by leaving elements out. */
  predicate IsSubsequence<T(==)>(part: seq<T>, whole: seq<T>) {
    if part == [] then true
    else if whole == [] then false
    else (part[0] == whole[0] && IsSubsequence(part[1..], whole[1..])) || IsSubsequence(part, whole[1..])
  }

  lemma {:induction false} SubsequenceTransitive<T>(a: seq<T>, b: seq<T>, c: seq<T>)
    requires IsSubsequence(a, b) && IsSubsequence(b, c)
    ensures IsSubsequence(a, c)
    decreases |b| + |c|
  {
    if a == [] {
    } else {
      if a[0] == b[0] && IsSubsequence(a[1..], b[1..]) && b[0] == c[0] && IsSubsequence(b[1..], c[1..]) {
        SubsequenceTransitive(a[1..], b[1..], c[1..]);
      } else if IsSubsequence(b, c[1..]) {
        SubsequenceTransitive(a, b, c[1..]);
      } else {
        SubsequenceTransitive(a, b[1..], c[1..]);
      }
    }
  }

  lemma {:induction false} UnfinishedKeepsOrder(tasks: seq<Task>)
    ensures IsSubsequence(Ids(Unfinished(tasks)), Ids(tasks))
  {
    if tasks == [] {
    } else {
      UnfinishedKeepsOrder(tasks[1..]);
      assert Ids(tasks)[1..] == Ids(tasks[1..]);
      if !Ended(tasks[0].status) {
        assert Ids(Unfinished(tasks))[1..] == Ids(Unfinished(tasks[1..]));
      }
    }
  }

  /** Monitoring changes statuses only. */
  lemma LegKeepsTasks(cfg: Settings, mission: Mission, leg: Leg)
    requires mission.tasks != [] && cfg.limit > 0
    ensures SameMission(mission, Mission(mission.id, mission.name, RunLeg(cfg, mission, leg).tasks))
    ensures Ids(RunLeg(cfg, mission, leg).tasks) == Ids(mission.tasks)
  {
    TasksAreFollowedInOrder(SettingsFor(cfg, mission), leg.robot, mission.tasks, leg.patience);
  }

  // ---------------------------------------------------------------- main results

  /** No task is lost and none appears twice: each was finished in one of the legs or is in the mission that is held. */
  lemma {:induction false} TasksArePartitioned(cfg: Settings, mission: Mission, legs: seq<Leg>)
    requires cfg.limit > 0
    ensures var h := Legs(cfg, mission, legs);
            multiset(Ids(h.ended)) + multiset(Ids(h.held.tasks)) == multiset(Ids(mission.tasks))
    decreases |legs|
  {
    if legs == [] || mission.tasks == [] {
      assert Ids([]) == [];
    } else {
      var m, next := RunLeg(cfg, mission, legs[0]), AfterLeg(cfg, mission, legs[0]);
      LegKeepsTasks(cfg, mission, legs[0]);
      SharedOut(m.tasks);
      TasksArePartitioned(cfg, next, legs[1..]);
      IdsConcat(EndedTasks(m.tasks), Legs(cfg, next, legs[1..]).ended);
    }
  }

  /** The held mission is still the mission that was started, and its tasks are in the order they had. */
  lemma {:induction false} HeldMissionKeepsIdAndOrder(cfg: Settings, mission: Mission, legs: seq<Leg>)
    requires cfg.limit > 0
    ensures var held := Legs(cfg, mission, legs).held;
            held.id == mission.id && held.name == mission.name && IsSubsequence(Ids(held.tasks), Ids(mission.tasks))
    decreases |legs|
  {
    if legs == [] || mission.tasks == [] {
      SubsequenceReflexive(Ids(mission.tasks));
    } else {
      var m, next := RunLeg(cfg, mission, legs[0]), AfterLeg(cfg, mission, legs[0]);
      LegKeepsTasks(cfg, mission, legs[0]);
      UnfinishedKeepsOrder(m.tasks);
      HeldMissionKeepsIdAndOrder(cfg, next, legs[1..]);
      SubsequenceTransitive(Ids(Legs(cfg, mission, legs).held.tasks), Ids(next.tasks), Ids(mission.tasks));
    }
  }

  lemma {:induction false} SubsequenceReflexive<T>(s: seq<T>)
    ensures IsSubsequence(s, s)
  {
    if s == [] {
    } else {
      SubsequenceReflexive(s[1..]);
    }
  }

  /** A task that was finished in some leg is not among the tasks of the next one, if its id is its own. */
  lemma EndedTaskIsNotRunAgain(cfg: Settings, mission: Mission, legs: seq<Leg>, leg: Leg, id: string)
    requires cfg.limit > 0
    requires multiset(Ids(mission.tasks))[id] <= 1
    requires id in Ids(Legs(cfg, mission, legs).ended)
    ensures var held := Legs(cfg, mission, legs).held;
            id !in Ids(held.tasks) && (held.tasks != [] ==> id !in Ids(RunLeg(cfg, held, leg).tasks))
  {
    TasksArePartitioned(cfg, mission, legs);
    var h := Legs(cfg, mission, legs);
    assert multiset(Ids(h.ended))[id] > 0;
    assert multiset(Ids(h.held.tasks))[id] == 0;
    if h.held.tasks != [] {
      LegKeepsTasks(cfg, h.held, leg);
    }
  }

  // ---------------------------------------------------------------- uploads

  /** The tasks with an inspection to be uploaded. */
  function Inspected(uploadAsync: bool, tasks: seq<Task>): seq<Task> {
    if tasks == [] then []
    else if !uploadAsync && tasks[0].status.Successful? && tasks[0].IsInspection()
    then [tasks[0]] + Inspected(uploadAsync, tasks[1..])
    else Inspected(uploadAsync, tasks[1..])
  }

  lemma {:induction false} InspectedConcat(uploadAsync: bool, a: seq<Task>, b: seq<Task>)
    ensures Inspected(uploadAsync, a + b) == Inspected(uploadAsync, a) + Inspected(uploadAsync, b)
  {
    if a == [] {
      assert a + b == b;
    } else {
      InspectedConcat(uploadAsync, a[1..], b);
      assert (a + b)[1..] == a[1..] + b && (a + b)[0] == a[0];
    }
  }

  lemma {:induction false} InspectedOfEnded(uploadAsync: bool, tasks: seq<Task>)
    ensures Inspected(uploadAsync, EndedTasks(tasks)) == Inspected(uploadAsync, tasks)
  {
    if tasks == [] {
    } else {
      InspectedOfEnded(uploadAsync, tasks[1..]);
      if Ended(tasks[0].status) {
        InspectedConcat(uploadAsync, [tasks[0]], EndedTasks(tasks[1..]));
      }
    }
  }

  lemma {:induction false} InspectedAreSome(uploadAsync: bool, tasks: seq<Task>)
    ensures multiset(Ids(Inspected(uploadAsync, tasks))) <= multiset(Ids(tasks))
  {
    if tasks == [] {
    } else {
      InspectedAreSome(uploadAsync, tasks[1..]);
      assert tasks == [tasks[0]] + tasks[1..];
      IdsConcat([tasks[0]], tasks[1..]);
      IdsConcat([tasks[0]], Inspected(uploadAsync, tasks[1..]));
    }
  }

  lemma {:induction false} InspectedNone(uploadAsync: bool, tasks: seq<Task>)
    requires forall t :: t in tasks ==> !t.status.Successful?
    ensures Inspected(uploadAsync, tasks) == []
  {
    if tasks == [] {
    } else {
      InspectedNone(uploadAsync, tasks[1..]);
    }
  }

  /** One more task: it is selected exactly if its position is collected. */
  lemma InspectedOneMore(cfg: Settings, tasks: seq<Task>, n: nat)
    requires n < |tasks|
    ensures Ids(Inspected(cfg.uploadAsync, tasks[..n + 1]))
            == Ids(Inspected(cfg.uploadAsync, tasks[..n])) + if ShouldUpload(cfg, tasks[n]) then [tasks[n].id] else []
  {
    var before, last := tasks[..n], [tasks[n]];
    assert tasks[..n + 1] == before + last;
    InspectedConcat(cfg.uploadAsync, before, last);
    assert Inspected(cfg.uploadAsync, last) == if ShouldUpload(cfg, tasks[n]) then last else [];
    IdsConcat(Inspected(cfg.uploadAsync, before), Inspected(cfg.uploadAsync, last));
  }

  lemma {:induction false} UploadsInRange(cfg: Settings, tasks: seq<Task>, n: nat)
    requires n <= |tasks|
    ensures forall k :: 0 <= k < |Uploads(cfg, tasks, n)| ==> Uploads(cfg, tasks, n)[k] < |tasks|
  {
    if n == 0 {
    } else {
      UploadsInRange(cfg, tasks, n - 1);
    }
  }

  /** What the monitor collects position by position is the selection of the inspected tasks. */
  lemma {:induction false} UploadsSelect(cfg: Settings, tasks: seq<Task>, n: nat)
    requires n <= |tasks|
    ensures forall k :: 0 <= k < |Uploads(cfg, tasks, n)| ==> Uploads(cfg, tasks, n)[k] < |tasks|
    ensures IdsAt(tasks, Uploads(cfg, tasks, n)) == Ids(Inspected(cfg.uploadAsync, tasks[..n]))
  {
    UploadsInRange(cfg, tasks, n);
    if n == 0 {
      assert tasks[..0] == [];
    } else {
      UploadsSelect(cfg, tasks, n - 1);
      InspectedOneMore(cfg, tasks, n - 1);
      if ShouldUpload(cfg, tasks[n - 1]) {
        IdsAtAppend(tasks, Uploads(cfg, tasks, n - 1), n - 1);
      } else {
        assert Uploads(cfg, tasks, n) == Uploads(cfg, tasks, n - 1);
      }
    }
  }

  lemma IdsAtAppend(tasks: seq<Task>, positions: seq<nat>, n: nat)
    requires n < |tasks| && forall k :: 0 <= k < |positions| ==> positions[k] < |tasks|
    ensures IdsAt(tasks, positions + [n]) == IdsAt(tasks, positions) + [tasks[n].id]
  {
    assert (positions + [n])[..|positions|] == positions;
  }

  lemma LegUploads(cfg: Settings, mission: Mission, leg: Leg)
    requires mission.tasks != [] && cfg.limit > 0
    ensures var m := RunLeg(cfg, mission, leg);
            m.done <= |m.tasks| && Uploaded(cfg, mission, leg) == Ids(Inspected(cfg.uploadAsync, m.tasks[..m.done]))
  {
    var settings := SettingsFor(cfg, mission);
    MonitoredInv(settings, leg.robot, mission.tasks, leg.patience);
    UploadsSelect(settings, RunLeg(cfg, mission, leg).tasks, RunLeg(cfg, mission, leg).done);
  }

  /** Nothing is successful from the current task on, if nothing was to begin with. */
  lemma RestIsNotSuccessful(cfg: Settings, mission: Mission, leg: Leg, i: nat)
    requires mission.tasks != [] && cfg.limit > 0
    requires forall t :: t in mission.tasks ==> !Ended(t.status)
    requires RunLeg(cfg, mission, leg).done <= i < |mission.tasks| == |RunLeg(cfg, mission, leg).tasks|
    ensures !RunLeg(cfg, mission, leg).tasks[i].status.Successful?
  {
    MonitoredInv(SettingsFor(cfg, mission), leg.robot, mission.tasks, leg.patience);
    var m := RunLeg(cfg, mission, leg);
    assert TaskInv(Start(mission.tasks), m, i);
    assert mission.tasks[i] in mission.tasks;
  }

  lemma InspectedUntil(uploadAsync: bool, tasks: seq<Task>, n: nat)
    requires n <= |tasks| && forall i :: n <= i < |tasks| ==> !tasks[i].status.Successful?
    ensures Inspected(uploadAsync, tasks[..n]) == Inspected(uploadAsync, EndedTasks(tasks))
  {
    assert tasks == tasks[..n] + tasks[n..];
    InspectedNone(uploadAsync, tasks[n..]);
    InspectedConcat(uploadAsync, tasks[..n], tasks[n..]);
    InspectedOfEnded(uploadAsync, tasks);
  }

  lemma LegUploadsAll(cfg: Settings, mission: Mission, leg: Leg)
    requires mission.tasks != [] && cfg.limit > 0
    requires forall t :: t in mission.tasks ==> !Ended(t.status)
    ensures var ended := EndedTasks(RunLeg(cfg, mission, leg).tasks);
            Uploaded(cfg, mission, leg) == Ids(Inspected(cfg.uploadAsync, ended))
  {
    var m := RunLeg(cfg, mission, leg);
    LegKeepsTasks(cfg, mission, leg);
    LegUploads(cfg, mission, leg);
    forall i | m.done <= i < |m.tasks| ensures !m.tasks[i].status.Successful? {
      RestIsNotSuccessful(cfg, mission, leg, i);
    }
    InspectedUntil(cfg.uploadAsync, m.tasks, m.done);
  }

  lemma {:induction false} UnfinishedAreNotEnded(tasks: seq<Task>)
    ensures forall t :: t in Unfinished(tasks) ==> !Ended(t.status)
  {
    if tasks == [] {
    } else {
      UnfinishedAreNotEnded(tasks[1..]);
    }
  }

  /**
   Over all the legs, uploads were requested for exactly the inspections that ended successfully, in the order in which
   they did, once for each.
   */
  lemma {:induction false} EachInspectionIsUploadedOnce(cfg: Settings, mission: Mission, legs: seq<Leg>)
    requires cfg.limit > 0
    requires forall t :: t in mission.tasks ==> !Ended(t.status)
    ensures var h := Legs(cfg, mission, legs); h.uploaded == Ids(Inspected(cfg.uploadAsync, h.ended))
    decreases |legs|
  {
    if legs == [] || mission.tasks == [] {
      assert Ids([]) == [];
    } else {
      var m, next := RunLeg(cfg, mission, legs[0]), AfterLeg(cfg, mission, legs[0]);
      UnfinishedAreNotEnded(m.tasks);
      LegUploadsAll(cfg, mission, legs[0]);
      EachInspectionIsUploadedOnce(cfg, next, legs[1..]);
      var ended, later := EndedTasks(m.tasks), Legs(cfg, next, legs[1..]).ended;
      InspectedConcat(cfg.uploadAsync, ended, later);
      IdsConcat(Inspected(cfg.uploadAsync, ended), Inspected(cfg.uploadAsync, later));
    }
  }

  /** So no upload is requested twice for a task, nor for one that is still to be run. */
  lemma UploadedAtMostOnce(cfg: Settings, mission: Mission, legs: seq<Leg>, id: string)
    requires cfg.limit > 0
    requires forall t :: t in mission.tasks ==> !Ended(t.status)
    requires multiset(Ids(mission.tasks))[id] <= 1
    ensures var h := Legs(cfg, mission, legs);
            multiset(h.uploaded)[id] <= 1 && (id in h.uploaded ==> id !in Ids(h.held.tasks))
  {
    var h := Legs(cfg, mission, legs);
    EachInspectionIsUploadedOnce(cfg, mission, legs);
    InspectedAreSome(cfg.uploadAsync, h.ended);
    TasksArePartitioned(cfg, mission, legs);
    assert multiset(h.uploaded)[id] <= multiset(Ids(h.ended))[id];
    assert multiset(h.uploaded)[id] + multiset(Ids(h.held.tasks))[id] <= 1;
  }
}
