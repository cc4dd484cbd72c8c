/** One-slot mailboxes and the groups they come in (src/isar/models/events.py). */
module Events {
  import opened Missions

  datatype Api =
    | StartMission
    | StopMission
    | PauseMission
    | ResumeMission
    | ReturnHome
    | ReleaseInterventionNeeded
    | SendToLockdown
    | ReleaseFromLockdown
    | SetMaintenanceMode
    | ReleaseFromMaintenanceMode

  datatype Channel =
    // APIRequests: one request and one response mailbox for each API event
    | Request(api: Api)
    | Response(api: Api)
    // StateMachineEvents: commands from the state machine to the robot service
    | StartCommand
    | StopCommand
    | PauseCommand
    | ResumeCommand
    // RobotServiceEvents: outcomes and readings from the robot service
    | MissionSucceeded
    | MissionFailed
    | MissionStartedSuccessfully
    | RobotStatusUpdate
    | MissionFailedToStop
    | MissionSuccessfullyStopped
    | StoppedMissionAlreadyDone
    | MissionFailedToPause
    | MissionSuccessfullyPaused
    | MissionFailedToResume
    | MissionSuccessfullyResumed
    | BatteryBelowMissionThreshold
    | BatteryAboveRechargeThreshold

  datatype Message =
    | Empty
    | OfMission(mission: Mission)
    | OfId(id: string)
    | OfStatus(status: RobotStatus)
    | OfReply(ok: bool)

  /** The type parameter of each mailbox. */
  predicate Carries(ch: Channel, msg: Message) {
    match ch
    case Request(StartMission) => msg.OfMission?
    case Request(StopMission) => msg.OfId?
    case Response(_) => msg.OfReply?
    case StartCommand => msg.OfMission?
    case MissionSuccessfullyStopped => msg.OfMission?
    case RobotStatusUpdate => msg.OfStatus?
    case _ => msg.Empty?
  }

  /** All mailboxes together: a channel is full exactly when it is a key. */
  type Mail = map<Channel, Message>

  /** A put that does not block: dropped without a trace when the mailbox is full. */
  function Trigger(mail: Mail, ch: Channel, msg: Message): Mail {
    if ch in mail then mail else mail[ch := msg]
  }

  /** The mailboxes as the threads share them. */
  class Mailboxes {
    var mail: Mail

    constructor ()
      ensures mail == map[]
    {
      mail := map[];
    }

    /** `trigger_event` without a timeout. */
    method TriggerEvent(ch: Channel, msg: Message)
      modifies this
      ensures ch !in old(mail) ==> mail == old(mail)[ch := msg]
      ensures ch in old(mail) ==> mail == old(mail)
    {
      if ch !in mail {
        mail := mail[ch := msg];
      }
    }

    /** `consume_event` without a timeout. */
    method ConsumeEvent(ch: Channel) returns (value: Option<Message>)
      modifies this
      ensures ch in old(mail) ==> value == Some(old(mail)[ch])
      ensures ch !in old(mail) ==> value == None
      ensures mail == old(mail) - {ch}
    {
      if ch in mail {
        value := Some(mail[ch]);
        mail := mail - {ch};
      } else {
        value := None;
        assert mail == mail - {ch};
      }
    }

    method ClearEvent(ch: Channel) returns (wasFull: bool)
      modifies this
      ensures wasFull <==> ch in old(mail)
      ensures mail == old(mail) - {ch}
    {
      var value := ConsumeEvent(ch);
      wasFull := value.Some?;
    }

    method HasEvent(ch: Channel) returns (full: bool)
      ensures full <==> ch in mail
    {
      full := ch in mail;
    }

    /** `check`: look at the value without removing it. */
    method Check(ch: Channel) returns (value: Option<Message>)
      ensures ch in mail ==> value == Some(mail[ch])
      ensures ch !in mail ==> value == None
    {
      value := if ch in mail then Some(mail[ch]) else None;
    }

    /** `update`: replace whatever is there. */
    method Update(ch: Channel, msg: Message)
      modifies this
      ensures mail == old(mail)[ch := msg]
    {
      mail := mail[ch := msg];
    }
  }
}
