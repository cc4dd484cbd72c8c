/** From the body of an API request to a mission (src/isar/apis/models/start_mission_definition.py). */
module StartMissionDefinition {
  import opened Missions

  datatype InspectionType =
    | Image
    | ThermalImage
    | Video
    | ThermalVideo
    | Audio
    | CO2Measurement
    | AcousticMeasurement

  /** A floating-point number; `NotFinite` stands for NaN and the two infinities. */
  datatype Frequency = Hertz(value: real) | NotFinite

  datatype AcousticParameters = AcousticParameters(frequencyFrom: Frequency, frequencyTo: Frequency)

  const MAX_ACOUSTIC_FREQUENCY_HZ := 100000.0

  /** Of the duration, only its presence matters here. */
  datatype InspectionDefinition =
    InspectionDefinition(kind: InspectionType, hasDuration: bool, acoustic: Option<AcousticParameters>)

  datatype TaskDefinition = TaskDefinition(id: string, inspection: Option<InspectionDefinition>)

  datatype MissionDefinition = MissionDefinition(id: string, tasks: seq<TaskDefinition>, name: Option<string>)

  /** The last one is a MissionFormatError, the others are raised as ValueError. */
  datatype Error = NoInspection | NoDuration | NoAcousticParameters | BadFrequencyRange | NoTasks

  datatype Result<+T> = Ok(value: T) | Err(error: Error)

  function TaskTypeOf(kind: InspectionType): TaskType {
    match kind
    case Image => TakeImage
    case ThermalImage => TakeThermalImage
    case Video => TakeVideo
    case ThermalVideo => TakeThermalVideo
    case Audio => RecordAudio
    case CO2Measurement => TakeCO2Measurement
    case AcousticMeasurement => TakeAcousticMeasurement
  }

  predicate NeedsDuration(kind: InspectionType) { kind.Video? || kind.ThermalVideo? || kind.Audio? }
  predicate NeedsAcoustic(kind: InspectionType) { kind.AcousticMeasurement? }

  /** The range that the validator of `TakeAcousticMeasurement` accepts; every comparison with NaN is false. */
  predicate InRange(a: AcousticParameters) {
    && a.frequencyFrom.Hertz? && a.frequencyTo.Hertz?
    && 0.0 <= a.frequencyFrom.value < a.frequencyTo.value <= MAX_ACOUSTIC_FREQUENCY_HZ
  }

  predicate IsComplete(d: TaskDefinition) {
    d.inspection.Some?
    && (NeedsDuration(d.inspection.value.kind) ==> d.inspection.value.hasDuration)
    && (NeedsAcoustic(d.inspection.value.kind) ==>
          d.inspection.value.acoustic.Some? && InRange(d.inspection.value.acoustic.value))
  }

  function ToInspectionTask(d: TaskDefinition): (r: Result<Task>)
    ensures r.Ok? <==> IsComplete(d)
    ensures r.Ok? ==> r.value.id == d.id && r.value.status.NotStarted? && r.value.IsInspection()
    ensures r == Err(NoInspection) <==> d.inspection.None?
    ensures r == Err(NoDuration) <==>
              && d.inspection.Some? && !d.inspection.value.hasDuration
              && var kind := d.inspection.value.kind; kind.Video? || kind.ThermalVideo? || kind.Audio?
    ensures r == Err(NoAcousticParameters) <==>
              d.inspection.Some? && d.inspection.value.kind.AcousticMeasurement? && d.inspection.value.acoustic.None?
    ensures r == Err(BadFrequencyRange) <==>
              && d.inspection.Some? && d.inspection.value.kind.AcousticMeasurement?
              && d.inspection.value.acoustic.Some?
              && !InRange(d.inspection.value.acoustic.value)
    ensures r != Err(NoTasks)
  {
    if d.inspection.None? then Err(NoInspection)
    else
      var i := d.inspection.value;
      if NeedsDuration(i.kind) && !i.hasDuration then Err(NoDuration)
      else if NeedsAcoustic(i.kind) && i.acoustic.None? then Err(NoAcousticParameters)
      else if NeedsAcoustic(i.kind) && !InRange(i.acoustic.value) then Err(BadFrequencyRange)
      else Ok(Task(d.id, TaskTypeOf(i.kind), TaskStatus.NotStarted))
  }

  /** Each kind of inspection gets the task that carries it out. */
  lemma TaskFitsInspection(d: TaskDefinition)
    requires ToInspectionTask(d).Ok?
    ensures var kind, task := d.inspection.value.kind, ToInspectionTask(d).value.kind;
            && (kind.Image? <==> task.TakeImage?) && (kind.ThermalImage? <==> task.TakeThermalImage?)
            && (kind.Video? <==> task.TakeVideo?) && (kind.ThermalVideo? <==> task.TakeThermalVideo?)
            && (kind.Audio? <==> task.RecordAudio?) && (kind.CO2Measurement? <==> task.TakeCO2Measurement?)
            && (kind.AcousticMeasurement? <==> task.TakeAcousticMeasurement?)
  {}

  /** A range of two numbers is accepted exactly if it is not empty and lies between zero and the maximum. */
  lemma AcceptedRangeIff(id: string, hasDuration: bool, low: real, high: real)
    ensures var a := AcousticParameters(Hertz(low), Hertz(high));
            var d := TaskDefinition(id, Some(InspectionDefinition(AcousticMeasurement, hasDuration, Some(a))));
            ToInspectionTask(d).Ok? <==> low >= 0.0 && low < high && high <= 100000.0
  {}

  lemma RejectedRange(id: string, hasDuration: bool, a: AcousticParameters)
    requires a.frequencyFrom.NotFinite? || a.frequencyTo.NotFinite? || a.frequencyFrom.value < 0.0
             || a.frequencyFrom.value >= a.frequencyTo.value || a.frequencyTo.value > MAX_ACOUSTIC_FREQUENCY_HZ
    ensures ToInspectionTask(TaskDefinition(id, Some(InspectionDefinition(AcousticMeasurement, hasDuration, Some(a)))))
            == Err(BadFrequencyRange)
  {}

  /**
   `to_isar_mission`: one task for each definition and in their order, or the error of the first incomplete one;
   `generated` stands for the name built from the plant, the robot and the time.
   */
  method ToIsarMission(d: MissionDefinition, generated: string) returns (r: Result<Mission>)
    ensures r.Ok? <==> d.tasks != [] && forall i :: 0 <= i < |d.tasks| ==> IsComplete(d.tasks[i])
    ensures r.Ok? ==>
              && r.value.id == d.id
              && r.value.name == (if d.name.Some? && d.name.value != "" then d.name.value else generated)
              && |r.value.tasks| == |d.tasks|
              && (forall i :: 0 <= i < |d.tasks| ==> ToInspectionTask(d.tasks[i]) == Ok(r.value.tasks[i]))
    ensures r.Err? ==> (d.tasks == [] && r.error.NoTasks?) ||
                       exists i :: 0 <= i < |d.tasks| && ToInspectionTask(d.tasks[i]) == Err(r.error)
                                   && forall j :: 0 <= j < i ==> IsComplete(d.tasks[j])
  {
    var tasks := [];
    for n := 0 to |d.tasks|
      invariant |tasks| == n
      invariant forall i :: 0 <= i < n ==> ToInspectionTask(d.tasks[i]) == Ok(tasks[i])
      invariant forall i :: 0 <= i < n ==> IsComplete(d.tasks[i])
    {
      var task := ToInspectionTask(d.tasks[n]);
      if task.Err? {
        return Err(task.error);
      }
      tasks := tasks + [task.value];
    }
    if |tasks| == 0 {
      return Err(NoTasks);
    }
    return Ok(Mission(d.id, if d.name.Some? && d.name.value != "" then d.name.value else generated, tasks));
  }

  /** What the monitor, the abort and the classification of return-home missions rely on. */
  lemma ApiMissionsAreFresh(definitions: seq<TaskDefinition>, mission: Mission)
    requires definitions != [] && |mission.tasks| == |definitions|
    requires forall i :: 0 <= i < |definitions| ==> ToInspectionTask(definitions[i]) == Ok(mission.tasks[i])
    ensures mission.tasks != [] && !mission.IsReturnToHome()
    ensures mission.UnfinishedTasks() == mission.tasks
  {
    assert ToInspectionTask(definitions[0]) == Ok(mission.tasks[0]);
    forall t | t in mission.tasks ensures !Ended(t.status) {
      var i :| 0 <= i < |mission.tasks| && mission.tasks[i] == t;
      assert ToInspectionTask(definitions[i]) == Ok(t);
    }
    NothingEnded(mission.tasks);
  }

  lemma {:induction false} NothingEnded(tasks: seq<Task>)
    requires forall t :: t in tasks ==> !Ended(t.status)
    ensures Unfinished(tasks) == tasks
  {
    if tasks == [] {
    } else {
      NothingEnded(tasks[1..]);
    }
  }
}
