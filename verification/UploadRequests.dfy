/**
 The mailbox between the monitor and the inspection service (src/isar/robot/robot_service.py,
 src/isar/robot/robot_inspection_service.py).  It has one slot, so that a request can be dropped on the way.
 */
module UploadRequests {
  import opened Missions
  import opened MonitorMission
  import opened MonitorLaws

  /** The monitor requests the upload for a task; the inspection service polls. */
  datatype UploadEvent = Ask(id: nat) | Poll

  /** The slot, and what became of the requests so far. */
  datatype Slot = Slot(waiting: Option<nat>, taken: seq<nat>, dropped: seq<nat>)

  /** A put that does not block, and a poll. */
  function Next(s: Slot, e: UploadEvent): Slot {
    match e
    case Ask(id) => if s.waiting.None? then s.(waiting := Some(id)) else s.(dropped := s.dropped + [id])
    case Poll => if s.waiting.None? then s else Slot(None, s.taken + [s.waiting.value], s.dropped)
  }

  function After(events: seq<UploadEvent>, n: nat): Slot
    requires n <= |events|
  {
    if n == 0 then Slot(None, [], []) else Next(After(events, n - 1), events[n - 1])
  }

  /** The slot is full exactly if the inspection service has not polled since the last request. */
  lemma WaitingIff(events: seq<UploadEvent>, n: nat)
    requires n <= |events|
    ensures After(events, n).waiting.Some? <==> n > 0 && events[n - 1].Ask?
  {}

  /** So a request is dropped exactly if it follows another one without a poll in between. */
  lemma RequestIsDroppedIff(events: seq<UploadEvent>, n: nat)
    requires n < |events| && events[n].Ask?
    ensures After(events, n + 1).dropped
            == After(events, n).dropped + if n > 0 && events[n - 1].Ask? then [events[n].id] else []
  {
    WaitingIff(events, n);
  }

  function Requested(events: seq<UploadEvent>, n: nat): seq<nat>
    requires n <= |events|
  {
    if n == 0 then [] else Requested(events, n - 1) + if events[n - 1].Ask? then [events[n - 1].id] else []
  }

  function Held(s: Slot): seq<nat> { if s.waiting.Some? then [s.waiting.value] else [] }

  /** Every request is taken, waits, or has been dropped. */
  lemma RequestsConserved(events: seq<UploadEvent>, n: nat)
    requires n <= |events|
    ensures var s := After(events, n);
            multiset(Requested(events, n)) == multiset(s.taken) + multiset(Held(s)) + multiset(s.dropped)
  {}

  lemma {:induction false} LengthsAddUp(events: seq<UploadEvent>, n: nat)
    requires n <= |events|
    ensures var s := After(events, n);
            |Requested(events, n)| == |s.taken| + |Held(s)| + |s.dropped|
  {
    if n == 0 {
    } else {
      LengthsAddUp(events, n - 1);
    }
  }

  /** Between any two requests the inspection service polls. */
  predicate PolledBetween(events: seq<UploadEvent>, n: nat)
    requires n <= |events|
  {
    forall k :: 0 < k < n ==> events[k].Poll? || events[k - 1].Poll?
  }

  lemma {:induction false} NothingIsDroppedIff(events: seq<UploadEvent>, n: nat)
    requires n <= |events|
    ensures After(events, n).dropped == [] <==> PolledBetween(events, n)
  {
    if n == 0 {
    } else {
      NothingIsDroppedIff(events, n - 1);
      WaitingIff(events, n - 1);
    }
  }

  /** All uploads that were requested are taken or wait to be, in the order of the requests, exactly in this case. */
  lemma {:induction false} PolledRequestsArriveInOrder(events: seq<UploadEvent>, n: nat)
    requires n <= |events|
    ensures PolledBetween(events, n) <==>
              Requested(events, n) == After(events, n).taken + Held(After(events, n))
  {
    NothingIsDroppedIff(events, n);
    LengthsAddUp(events, n);
    if After(events, n).dropped == [] {
      OrderIsKept(events, n);
    }
  }

  lemma {:induction false} OrderIsKept(events: seq<UploadEvent>, n: nat)
    requires n <= |events| && After(events, n).dropped == []
    ensures Requested(events, n) == After(events, n).taken + Held(After(events, n))
  {
    if n == 0 {
    } else {
      OrderIsKept(events, n - 1);
    }
  }

  /** Two inspections that finish before the inspection service gets to poll: the second one is never uploaded. */
  lemma SecondRequestCanBeDropped(a: nat, b: nat)
    ensures After([Ask(a), Ask(b), Poll, Poll], 4) == Slot(None, [a], [b])
  {
    var events := [Ask(a), Ask(b), Poll, Poll];
    assert After(events, 1) == Slot(Some(a), [], []);
    assert After(events, 2) == Slot(Some(a), [], [b]);
    assert After(events, 3) == Slot(None, [a], [b]);
  }

  /**
   The requests of a monitor: every inspection that ended successfully gets to the inspection service, in task order,
   exactly if the inspection service polls between any two of them.
   */
  lemma UploadsArriveIff(
    cfg: Settings, robot: Robot, tasks: seq<Task>, patience: nat, events: seq<UploadEvent>)
    requires tasks != [] && cfg.limit > 0
    requires Requested(events, |events|) == Monitored(cfg, robot, tasks, patience).mon.uploads
    ensures var m := Monitored(cfg, robot, tasks, patience).mon;
            var s := After(events, |events|);
            && m.done <= |m.tasks|
            && (PolledBetween(events, |events|) <==> s.taken + Held(s) == m.uploads)
            && (PolledBetween(events, |events|) <==>
                  forall i :: 0 <= i < m.done && ShouldUpload(cfg, m.tasks[i]) ==> i in s.taken + Held(s))
  {
    var m := Monitored(cfg, robot, tasks, patience).mon;
    var s := After(events, |events|);
    UploadsAreTheSuccessfulInspections(cfg, robot, tasks, patience);
    PolledRequestsArriveInOrder(events, |events|);
    if s.taken + Held(s) != m.uploads {
      LengthsAddUp(events, |events|);
      RequestsConserved(events, |events|);
      NothingIsDroppedIff(events, |events|);
      var lost := s.dropped[0];
      DroppedIsMissing(m.uploads, s, lost);
    }
  }

  /** Since each upload is requested once, one that was dropped has not arrived. */
  lemma DroppedIsMissing(uploads: seq<nat>, s: Slot, lost: nat)
    requires forall j, k :: 0 <= j < k < |uploads| ==> uploads[j] < uploads[k]
    requires multiset(uploads) == multiset(s.taken) + multiset(Held(s)) + multiset(s.dropped)
    requires lost in s.dropped
    ensures lost in uploads && lost !in s.taken + Held(s)
  {
    assert multiset(s.dropped)[lost] > 0;
    assert multiset(uploads)[lost] > 0;
    OccursOnce(uploads, lost);
  }

  lemma {:induction false} OccursOnce(s: seq<nat>, x: nat)
    requires forall j, k :: 0 <= j < k < |s| ==> s[j] < s[k]
    ensures multiset(s)[x] <= 1
  {
    if s == [] {
    } else {
      var before, last := s[..|s| - 1], s[|s| - 1];
      assert s == before + [last];
      OccursOnce(before, x);
      if x == last {
        assert x !in before;
      }
    }
  }
}
