/** Missions, tasks and their statuses (src/robot_interface/models/mission). */
module Missions {

  datatype Option<+T> = None | Some(value: T)

  datatype MissionStatus =
    NotStarted | InProgress | Paused | Failed | Cancelled | Successful | PartiallySuccessful

  datatype TaskStatus =
    NotStarted | InProgress | Paused | Failed | Cancelled | Successful | PartiallySuccessful

  datatype RobotStatus = Available | Busy | Home | Offline | TeleOperation

  datatype TaskType =
    | ReturnToHome
    | TakeImage
    | TakeThermalImage
    | TakeVideo
    | TakeThermalVideo
    | TakeCO2Measurement
    | TakeAcousticMeasurement
    | RecordAudio

  datatype Task = Task(id: string, kind: TaskType, status: TaskStatus)
  {
    /** Every task class except `ReturnToHome` derives from `InspectionTask`. */
    predicate IsInspection() { !kind.ReturnToHome? }
  }

  datatype Mission = Mission(id: string, name: string, tasks: seq<Task>)
  {
    predicate IsReturnToHome() { |tasks| == 1 && tasks[0].kind.ReturnToHome? }

    /** What `_get_unfinished_tasks` returns. */
    function UnfinishedTasks(): seq<Task> { Unfinished(tasks) }

    /** The mission that is carried on after an abort: same id, same name, unfinished tasks only. */
    function Continued(): Mission { Mission(id, name, UnfinishedTasks()) }
  }

  /** The id is drawn once per process, when the class body runs. */
  const RETURN_HOME_ID := "return-home-mission"
  const RETURN_HOME_TASK_ID := "return-to-home-task"

  function ReturnHomeMission(): Mission {
    Mission(RETURN_HOME_ID, "Return Home", [Task(RETURN_HOME_TASK_ID, ReturnToHome, TaskStatus.NotStarted)])
  }

  /** A task with one of these three statuses is never carried over an abort. A cancelled task is. */
  predicate Ended(status: TaskStatus) {
    status.Failed? || status.Successful? || status.PartiallySuccessful?
  }

  /** The monitor moves on from a task with one of these statuses. */
  predicate IsFinished(status: TaskStatus) {
    Ended(status) || status.Cancelled?
  }

  function Unfinished(tasks: seq<Task>): seq<Task> {
    if tasks == [] then []
    else if Ended(tasks[0].status) then Unfinished(tasks[1..])
    else [tasks[0]] + Unfinished(tasks[1..])
  }

  function EndedTasks(tasks: seq<Task>): seq<Task> {
    if tasks == [] then []
    else if Ended(tasks[0].status) then [tasks[0]] + EndedTasks(tasks[1..])
    else EndedTasks(tasks[1..])
  }

  function Ids(tasks: seq<Task>): (ids: seq<string>)
    ensures |ids| == |tasks|
    ensures forall i :: 0 <= i < |tasks| ==> ids[i] == tasks[i].id
  {
    seq(|tasks|, i requires 0 <= i < |tasks| => tasks[i].id)
  }

  /** `b` is the same list of tasks as `a`, except that statuses may differ. */
  ghost predicate SameTasks(a: seq<Task>, b: seq<Task>) {
    |a| == |b| && forall i :: 0 <= i < |a| ==> a[i].id == b[i].id && a[i].kind == b[i].kind
  }

  ghost predicate SameMission(a: Mission, b: Mission) {
    a.id == b.id && a.name == b.name && SameTasks(a.tasks, b.tasks)
  }
}
