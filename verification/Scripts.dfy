/** The mailbox operations of a state machine step, and how often they hit a mailbox. */
module Scripts {
  import opened Missions
  import opened Events

  /** Where a user mission comes from. A tag for the bookkeeping only: the code just sends the mission. */
  datatype Origin = FreshFromApi | Relaunch

  datatype Publication =
    | MissionStatusMessage(missionId: string, status: MissionStatus)
    | MissionAbortedMessage(abortedId: string)
    | InterventionNeededMessage

  /** `GoHome` puts the return-home mission on the same mailbox as `Start`. */
  datatype Command = Start(mission: Mission, origin: Origin) | GoHome | Stop | Pause | Resume

  function ChannelOf(c: Command): Channel {
    match c
    case Start(_, _) => StartCommand
    case GoHome => StartCommand
    case Stop => StopCommand
    case Pause => PauseCommand
    case Resume => ResumeCommand
  }

  function MessageOf(c: Command): (msg: Message)
    ensures Carries(ChannelOf(c), msg)
  {
    match c
    case Start(mission, _) => OfMission(mission)
    case GoHome => OfMission(ReturnHomeMission())
    case _ => Empty
  }

  /** The only mailboxes that state machine code empties without reading. */
  type Wipeable = ch: Channel |
    ch.MissionFailed? || ch.MissionSucceeded? || ch.MissionStartedSuccessfully? || ch.RobotStatusUpdate?
    witness MissionFailed

  /** No transition wipes more than three mailboxes. */
  type Wipes = w: seq<Wipeable> | |w| <= 3

  datatype Reply = Reply(api: Api, ok: bool)

  /**
   The mailbox operations still to be done, in order: mailboxes to wipe, a command, a reply.  The reply comes before
   everything else when `eager` is set.
   */
  datatype Script = Script(eager: bool, wipes: Wipes, command: Option<Command>, reply: Option<Reply>)

  const NOTHING := Script(false, [], None, None)

  function Bit(b: bool): nat { if b then 1 else 0 }

  /** The number of mailbox operations that are left. */
  function ScriptSize(sc: Script): nat { |sc.wipes| + Bit(sc.command.Some?) + Bit(sc.reply.Some?) }
}
