/**
 Calls to the robot that are tried again: the two status readers (src/isar/robot/robot_monitor_mission.py) and the
 stop, pause and resume loops (src/isar/robot/robot_{stop,pause,resume}_mission.py).  The robot is any stream of
 answers.
 */
module RobotCalls {
  import opened Missions

  datatype StatusReply<+S> = Status(value: S) | CommunicationFailure(reason: string) | OtherFailure(reason: string)

  datatype ReadResult<+S> = Got(status: S) | Raised(description: string) | Interrupted

  /** A read: its result, the number of calls made, and how many suspensions the caller has left. */
  datatype Read<+S> = Read(result: ReadResult<S>, calls: nat, patience: nat)
  {
    function After(earlier: nat): Read<S> { this.(calls := calls + earlier) }
  }

  /**
   What reading a status from answer `from` on comes to, after some failures.  The caller sleeps before every retry,
   and is cancelled at the suspension for which it has no patience left.
   */
  function ReadStatus<S>(robot: nat -> StatusReply<S>, from: nat, failures: nat, limit: nat, patience: nat)
    : (read: Read<S>)
    requires failures < limit
    ensures read.patience <= patience
    decreases limit - failures
  {
    if failures > 0 && patience == 0 then Read(Interrupted, 0, 0)
    else
      var left := if failures > 0 then patience - 1 else patience;
      match robot(from)
      case Status(v) => Read(Got(v), 1, left)
      case OtherFailure(reason) => Read(Raised(reason), 1, left)
      case CommunicationFailure(reason) =>
        if failures + 1 == limit then Read(Raised(reason), 1, left)
        else ReadStatus(robot, from + 1, failures + 1, limit, left).After(1)
  }

  /** The last answer that was taken decides; a communication failure does only when it used up the limit. */
  ghost predicate Decides<S>(reply: StatusReply<S>, result: ReadResult<S>, exhausted: bool) {
    match reply
    case Status(v) => result == Got(v)
    case OtherFailure(reason) => result == Raised(reason)
    case CommunicationFailure(reason) => result == Raised(reason) && exhausted
  }

  /** Every call but the first takes a suspension, and the limit is never exceeded. */
  lemma {:induction false} ReadIsBounded<S>(
    robot: nat -> StatusReply<S>, from: nat, failures: nat, limit: nat, patience: nat)
    requires failures < limit
    ensures var r := ReadStatus(robot, from, failures, limit, patience);
            && r.calls <= limit - failures
            && (failures == 0 || r.result.Got? || r.result.Raised? ==> r.calls >= 1)
            && r.patience == patience + (if failures == 0 then 1 else 0) - r.calls
            && (r.result.Interrupted? ==> r.patience == 0 && r.calls < limit - failures)
    decreases limit - failures
  {
    if robot(from).CommunicationFailure? && failures + 1 < limit && (failures == 0 || patience > 0) {
      ReadIsBounded(robot, from + 1, failures + 1, limit, if failures > 0 then patience - 1 else patience);
    }
  }

  /**
   The same as a scan of the answers: every call but the last met a communication failure, and the last one decides,
   unless the read was cancelled, in which case there were communication failures only.
   */
  lemma {:induction false} ReadIsScan<S>(
    robot: nat -> StatusReply<S>, from: nat, failures: nat, limit: nat, patience: nat)
    requires failures < limit
    ensures var r := ReadStatus(robot, from, failures, limit, patience);
            && (forall i :: from <= i < from + r.calls - 1 ==> robot(i).CommunicationFailure?)
            && (r.calls > 0 ==>
                  if r.result.Interrupted? then robot(from + r.calls - 1).CommunicationFailure?
                  else Decides(robot(from + r.calls - 1), r.result, r.calls == limit - failures))
    decreases limit - failures
  {
    if robot(from).CommunicationFailure? && failures + 1 < limit && (failures == 0 || patience > 0) {
      var left := if failures > 0 then patience - 1 else patience;
      ReadIsBounded(robot, from + 1, failures + 1, limit, left);
      ReadIsScan(robot, from + 1, failures + 1, limit, left);
    }
  }

  /** A reader that is not cancelled returns a status exactly if one comes before any other failure and the limit. */
  lemma ReadSucceedsIff<S>(robot: nat -> StatusReply<S>, from: nat, limit: nat, patience: nat)
    requires 0 < limit <= patience + 1
    ensures ReadStatus(robot, from, 0, limit, patience).result.Got?
            <==> exists k :: from <= k < from + limit && robot(k).Status?
                             && forall i :: from <= i < k ==> robot(i).CommunicationFailure?
  {
    ReadIsBounded(robot, from, 0, limit, patience);
    ReadIsScan(robot, from, 0, limit, patience);
    var r := ReadStatus(robot, from, 0, limit, patience);
    var last := from + r.calls - 1;
    assert robot(last).Status? <==> r.result.Got?;
  }

  /** `get_task_status` and `get_mission_status`. */
  method GetStatus<S>(robot: nat -> StatusReply<S>, from: nat, limit: nat, patience: nat) returns (read: Read<S>)
    requires limit > 0
    ensures read == ReadStatus(robot, from, 0, limit, patience)
  {
    var error: Option<string> := None;
    var failures, left := 0, patience;
    while failures < limit
      invariant 0 <= failures <= limit
      invariant failures < limit ==>
                  ReadStatus(robot, from, 0, limit, patience)
                  == ReadStatus(robot, from + failures, failures, limit, left).After(failures)
      invariant failures == limit ==>
                  error.Some? && ReadStatus(robot, from, 0, limit, patience) == Read(Raised(error.value), limit, left)
    {
      if failures > 0 {
        if left == 0 {
          return Read(Interrupted, failures, 0);
        }
        left := left - 1;
      }
      match robot(from + failures) {
        case Status(v) =>
          return Read(Got(v), failures + 1, left);
        case CommunicationFailure(reason) =>
          failures := failures + 1;
          error := Some(reason);
        case OtherFailure(reason) =>
          return Read(Raised(reason), failures + 1, left);
      }
    }
    // the source asserts that an error has been set
    assert error.Some?;
    return Read(Raised(error.value), failures, left);
  }

  // ---------------------------------------------------------------- stop, pause and resume

  datatype ActionReply = Done | NoMissionRunning | Error(reason: string)

  /** Does this answer end the attempts? */
  predicate Settles(reply: ActionReply) { !reply.Error? }

  /** The first answer that is not an error comes within the limit and is the right one. */
  ghost predicate Succeeds(robot: nat -> ActionReply, attempts: nat, idleIsSuccess: bool) {
    exists k :: 0 <= k < attempts && (robot(k).Done? || (idleIsSuccess && robot(k).NoMissionRunning?))
                && forall i :: 0 <= i < k ==> !Settles(robot(i))
  }

  /** What the first answer that is no error says about it, if that comes within the limit. */
  lemma FirstAnswerDecides(robot: nat -> ActionReply, attempts: nat, idleIsSuccess: bool, k: nat)
    requires forall i :: 0 <= i < k ==> robot(i).Error?
    ensures k < attempts && robot(k).Done? ==> Succeeds(robot, attempts, idleIsSuccess)
    ensures k < attempts && robot(k).NoMissionRunning? ==> (Succeeds(robot, attempts, idleIsSuccess) <==> idleIsSuccess)
    ensures k >= attempts ==> !Succeeds(robot, attempts, idleIsSuccess)
  {
    if k < attempts && robot(k).NoMissionRunning? && Succeeds(robot, attempts, idleIsSuccess) {
      var n :| 0 <= n < attempts && (robot(n).Done? || (idleIsSuccess && robot(n).NoMissionRunning?))
               && forall i :: 0 <= i < n ==> !Settles(robot(i));
      assert Settles(robot(n)) && Settles(robot(k));
      assert n == k;
    }
  }

  /**
   Ask the robot until it answers otherwise than with an error, at most `attempts` times.  To stop a robot on which
   no mission is running is a success; to pause or resume it is an error.
   */
  method TryAction(robot: nat -> ActionReply, attempts: nat, idleIsSuccess: bool)
    returns (error: Option<string>, calls: nat)
    requires attempts > 0
    ensures 1 <= calls <= attempts
    ensures forall i :: 0 <= i < calls - 1 ==> !Settles(robot(i))
    ensures calls < attempts ==> Settles(robot(calls - 1))
    ensures error.None? <==> Succeeds(robot, attempts, idleIsSuccess)
    ensures robot(calls - 1).Error? ==> error == Some(robot(calls - 1).reason)
  {
    var retries := 0;
    error := None;
    while retries < attempts
      invariant 0 <= retries <= attempts
      invariant forall i :: 0 <= i < retries ==> !Settles(robot(i))
      invariant retries > 0 ==> error == Some(robot(retries - 1).reason)
    {
      match robot(retries) {
        case Done =>
          assert Settles(robot(retries));
          return None, retries + 1;
        case NoMissionRunning =>
          assert Settles(robot(retries));
          return if idleIsSuccess then None else Some("no mission running"), retries + 1;
        case Error(reason) =>
          retries := retries + 1;
          error := Some(reason);
      }
    }
    calls := retries;
  }
}
