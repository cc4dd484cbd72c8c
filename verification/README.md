# A verified model of the ISAR supervisor

ISAR drives one inspection robot. A state machine thread with 28 states, a robot-service thread with an asyncio monitor
task per mission, any number of API caller threads and two pollers talk through one-slot mailboxes whose plain put drops
the value silently when the slot is full. This project models that program in Dafny and proves what the protocol keeps
over every interleaving, what monitoring and aborting do to a mission and its tasks, what a crash does to the stored
operating mode, and the numeric cores (retry budget, battery hysteresis, bounded reads, upload backoff).

`dafny verify dfyconfig.toml` checks the whole project.

## How it is built

Each core part comes twice: in the form the source has, and as a function or a step relation whose properties are proved.

- `Events` holds the mailboxes; `Scripts` and `States` hold the 28 handler tables and the handlers. The mailbox operations
  of a handler and of the transition it returns form a *script*: mailboxes to wipe, one command, one reply.
- `Protocol` is the step relation. A step is one operation on one mailbox by one thread, so the operations of a
  script interleave with all other threads. Monitor tasks run only while the main loop is suspended. API callers and the
  pollers are arbitrary writers there.
- `Entries` says for each state which events lead to it, what is done to the mailboxes on the way and in which order a
  state polls, and proves that the handlers do exactly this.
- `Reactions` proves, state by state, what every reaction balances. `Tokens`, `Accounts` and `Service` lift this to
  inductive invariants, `Invariants` draws the conclusions for every reachable state, and `StopHandshake` proves that a
  stop completes. `Publications` is about what is published.
- `PauseHandshake` proves that pauses and resumes complete, `Handshakes` and `HandshakeRuns` what their outcomes and those
  of stops come to over whole runs, and `Outcomes` when an outcome is what the robot answered. `Runs` and `Traces` put
  runs together; `LostStart` and `Witnesses` use them for runs in which something is lost.
- `Homecoming` follows a return home that the robot need not or will not make to its end. `StartCommands` follows every start command from its put to the robot service, and `Provenance` traces every mission in
  the program back to an accepted one.
- `StateRun`, `Refinement`, `StateMachine` and `RobotService` contain the imperative loops (`State.run`,
  `StateMachine.run`, the main loop of the robot service and its handlers) and prove that they take steps of the model.
- `ApiProtocol` is the exact protocol of `_send_command` for an unbounded number of callers on one API event, and
  `Scheduling` the method itself.
- `RobotCalls`, `MonitorMission`, `MonitorHandler`, `MonitorLaws`, `MonitorAnswers`, `AbortContinue` and
  `CarriedTasks` cover one monitored mission and any number of abort, recharge and relaunch cycles; `UploadRequests` is
  the mailbox by which its uploads are requested.
- `Persistence` is the write-behind mode cell with crashes between any two steps, and `StoredMode` tells its content from
  the events alone; `Battery`, `ReturnHomeRetries`,
  `Uploader` and `StartMissionDefinition` are the numeric and sequential cores.

Assumptions: the robot raises only subclasses of `RobotException`, attempt and failure limits are at least 1 where a loop
needs one iteration, the exit signal is not set, and the database is in use. Mission ids and names are plain strings; of
an error message only its presence is kept.

## What turned out not to hold

The code does not keep the following. For each one there is a run or an input that shows it, and a law that says exactly
when it happens: an equivalence, or for lost missions a conservation law.

- A start command can be dropped: the main loop polls for a start before it polls for a stop, so a stop that arrives in the
  same pass is answered while the start is still waiting (`LostStart.StartCanBeDropped`, `LostStart.StartIsPutIff`,
  `StartCommands.StartsConserved`).
- A resume can be answered by the outcome of an earlier one, without the robot being asked: a paused return home that is
  sent to lockdown is resumed by a command whose success nobody takes. The next resume of a paused return home takes it,
  and the state machine goes on as if the robot was moving (`Witnesses.ResumeCanBeAnsweredByAnother`,
  `Outcomes.ResumeIsAnsweredIff`).
- A paused return home is taken to be moving when the battery runs low, although nothing tells the robot to move on
  (`Witnesses.PausedReturnHomeIsTakenToMove`, `Entries.HaltedIsTakenToMoveIff`).
- A caller can be given the reply to an earlier call of the same API event that timed out
  (`ApiProtocol.ForeignReplyIsReachable`, `ApiProtocol.OwnReplyIff`).
- A maintenance request that has been answered with success is forgotten by a crash before the next update
  (`Persistence.AcknowledgedMaintenanceCanBeLost`, `Persistence.CrashKeepsModeIff`).
- A reading exactly on a battery threshold can leave a signal standing that is no longer true (`Battery.StaleFullCharge`,
  `Battery.TruthfulIff`) or swallow one (`Battery.SwallowedClimb`, `Battery.SwallowedFall`,
  `Battery.SignalsAreCrossingsIff`).
- A mission that succeeds can leave tasks unfinished: a partial success is not waited for, and a task whose status could
  not be read is given up (`MonitorLaws.PartialSuccessAtOnce`, `MonitorAnswers.FailedReadAbandonsTask`,
  `MonitorLaws.TasksAreFinishedIff`, `MonitorAnswers.FinishedTasksByAnswers`).
- The upload of an inspection can be dropped after it was requested, because the request goes through a one-slot mailbox
  (`UploadRequests.SecondRequestCanBeDropped`, `UploadRequests.NothingIsDroppedIff`).
- The state machine loses track of some missions without publishing how they ended, for instance when a mission that is
  held for after the recharge is stopped (`Witnesses.MissionCanEndSilently`, `Publications.EveryReactionIsAccounted`).
- A stop that the robot refuses does not always lead back: a paused mission sent to lockdown is then taken to be running
  (`Witnesses.PausedMissionIsTakenToBeRunning`, `HandshakeRuns.RefusedHandshakeIsUndoneIff`).
- An API mission that is accepted during a return home is lost when that return home cannot be stopped, and in no other way
  before its start command is put (`Witnesses.AcceptedMissionCanBeLost`, `Invariants.LaunchesConserved`).

## Model

| member | source | states |
|---|---|---|
| Events.Mailboxes.TriggerEvent | src/isar/models/events.py:33-41 | a put that does not block fills an empty slot and leaves a full one as it was, without telling |
| Events.Mailboxes.ConsumeEvent | src/isar/models/events.py:43-51 | takes the value out, or yields nothing; no other mailbox changes |
| Events.Mailboxes.ClearEvent | src/isar/models/events.py:53-61 | empties the slot and says whether it was full |
| Events.Mailboxes.HasEvent | src/isar/models/events.py:63-66 | says whether the slot is full |
| Events.Mailboxes.Check | src/isar/models/events.py:68-73 | looks without taking |
| Events.Mailboxes.Update | src/isar/models/events.py:75-78 | replaces whatever was there |
| Reactions.ReactionBalanced | src/isar/state_machine/states/monitor.py:17-126 | every reaction of all 28 states: a stop or pause command goes with entering a stopping or pausing state; an owed reply is sent on leaving and a request is answered at once otherwise; a mission that is held or arrives is launched, kept, or lost in a named way |
| Entries.EntriesAreExplained | src/isar/state_machine/states/await_next_mission.py:21-56 | for any two states and any event: the event is polled and leads from the one to the other exactly if it is one of the events that lead there, listed by the state that is entered (Home, for instance: a return home succeeded, the status Home was read, the charge is above the threshold, or lockdown was released) |
| Entries.EntriesArePrepared | src/isar/state_machine/states/returning_home.py:70-88 | the robot is sent home exactly when the state machine begins to wait for that or tries again, and told to move on exactly when a resume is waited for or a paused return home is sent to lockdown; old results are cleared exactly before a launch; a reply says yes exactly if the request has its effect |
| Entries.TimerGoesHome | src/isar/state_machine/states/await_next_mission.py:50-56 | the timer sends the robot home with all retries but one, without a reply |
| Entries.TablesAreOrdered | src/isar/state_machine/states/home.py:17-70 | every state polls in one common order, failures before successes, with four named exceptions |
| Entries.HaltedIsTakenToMoveIff | src/isar/state_machine/states/return_home_paused.py:26-29 | a paused robot is taken to be moving without having been told so exactly if the battery runs low during a paused return home |
| Homecoming.AlreadyHomeCountsAsArrived | src/isar/robot/robot_service.py:52-77 | over every run: when the robot says that it is home already, ReturningHome, GoingToLockdown and the two GoingToRecharging states end as after a successful return |
| Homecoming.RefusedReturnIsRetriedIff | src/isar/state_machine/states/returning_home.py:20-40 | over every run: a refused return home is tried again exactly in ReturningHome with a retry left, and else needs an intervention |
| Invariants.StopConserved | src/isar/robot/robot_service.py:79-135 | in every reachable state the stop about to be put, pending, being handled and answered together are exactly one in the eight stopping states and none elsewhere; the same for pause |
| Invariants.CommandsAreNeverDropped | src/isar/state_machine/states/stopping.py:46-56 | the mailbox of a stop or pause command is empty whenever one is put, and no outcome of an earlier one is around |
| Invariants.OutcomesAreNeverDropped | src/isar/robot/robot_service.py:86-120 | all outcome mailboxes are empty while a stop or pause is being handled |
| Invariants.OutcomesAreNeverStale | src/isar/state_machine/states/stopping.py:25-43 | an outcome that can be read answers the stop that is being waited for |
| Invariants.PauseOutcomesAreNeverStale | src/isar/state_machine/states/pausing.py:13-46 | the same for a pause |
| Invariants.RepliesConserved | src/isar/state_machine/states/stopping_go_to_lockdown.py:12-57 | replies equal consumed requests for every API event, but for one owed lockdown or maintenance reply exactly in the state that puts it off; start requests get one more reply for each mission handed over out of a stopped return home |
| Invariants.LaunchesConserved | src/isar/state_machine/states/monitor.py:100-119 | accepted API missions are those launched, the one held and those lost after a failed stop |
| Invariants.RelaunchesConserved | src/isar/state_machine/states/recharging_with_mission.py:13-68 | kept aborted missions are those relaunched, the one held and those given up |
| Invariants.NoMissionIsLaunchedTwice | src/isar/state_machine/states/monitor.py:100-119 | at every moment no mission was launched more often than accepted, or relaunched more often than kept |
| Invariants.StartsAreSignalledOnce | src/isar/robot/robot_service.py:52-77 | each start command is signalled as succeeded or failed at most once, exactly once when it was refused or its monitor ended, and never when its monitor was cancelled |
| Invariants.ResultsAreClearedBeforeAlreadyDone | src/isar/robot/robot_service.py:113-120 | both result mailboxes are empty when stopped_mission_already_done is signalled, whatever the state machine and the pollers have done meanwhile |
| Invariants.MonitoredMissionsHaveTasks | src/isar/robot/robot_monitor_mission.py:183-185 | every mission that a monitor is entered with has a task, so taking the first one is safe |
| Invariants.ServiceIsNeverStuck | src/isar/robot/robot_service.py:200-242 | the main loop can always go on, or awaits a cancelled monitor that can end |
| StopHandshake.StepDescends | src/isar/robot/robot_service.py:203-242 | no step of any thread increases the distance to the end of a stop, and every step whose turn it is decreases it |
| StopHandshake.HelpfulStepExists | src/isar/robot/robot_service.py:79-120 | inside a stop, a step whose turn it is can always be taken |
| StopHandshake.StopAlwaysCompletes | src/isar/robot/robot_stop_mission.py:19-59 | from every reachable state inside a stop, 22 plus the attempt limit of such steps end it under every interleaving |
| StopHandshake.StopAttemptsAreBounded | src/isar/robot/robot_stop_mission.py:19-45 | the robot is asked to stop no more often than the limit says |
| LostStart.StartIsPutIff | src/isar/models/events.py:33-41 | a start command reaches its mailbox exactly if the one before was taken, and counts as launched either way |
| LostStart.StartCanBeDropped | src/isar/robot/robot_service.py:203-231 | a reachable state in which the second of two missions is tracked while the robot service will be given the first, which had been stopped |
| StartCommands.StartsConserved | src/isar/models/events.py:33-51 | over every run and for every mission: the start commands put and the one that waited are those taken, dropped and still waiting |
| StartCommands.LaunchesReachTheService | src/isar/robot/robot_service.py:203-213 | from the start of the program: the commands of a user mission that were taken, dropped or wait are its launches, so it never reaches the robot service more often than it was accepted and kept |
| Provenance.MissionsAreLeftOfAccepted | src/isar/robot/robot_service.py:102-113 | in every reachable state each mission in the robot service, in a mailbox between the threads, or held by the state machine is a return home or has the id, the name and some of the tasks, in order, of an accepted one |
| Witnesses.AcceptedMissionCanBeLost | src/isar/state_machine/states/stopping_return_home.py:12-16 | a reachable state in which a mission whose request was answered with success has been forgotten |
| Witnesses.PausedMissionIsTakenToBeRunning | src/isar/state_machine/states/stopping_go_to_lockdown.py:12-21 | a run from a reachable state in which a paused mission is sent to lockdown, the robot refuses to stop, and the state machine ends up monitoring the mission as a running one |
| Witnesses.PausedReturnHomeIsTakenToMove | src/isar/state_machine/states/return_home_paused.py:26-29 | a reachable state in which this is about to happen |
| PauseHandshake.AskedIsUnderWay | src/isar/robot/robot_service.py:122-150 | in every reachable state that waits for a pause or a resume, the command is about to be put, pending, being handled or answered |
| PauseHandshake.StepDescends | src/isar/robot/robot_service.py:214-225 | no step of any thread increases the distance to the end of a pause or resume, and every step whose turn it is decreases it |
| PauseHandshake.PauseOrResumeCompletes | src/isar/state_machine/states/pausing.py:23-46 | from every reachable state that waits for a pause or a resume, 17 such steps end the wait under every interleaving |
| HandshakeRuns.OutcomeIsTakenInHandshake | src/isar/state_machine/state.py:66-95 | whatever the other threads do after an event that enters a stop, pause or resume, up to the first value that the state machine can take: it takes it in the state that was entered |
| HandshakeRuns.RefusedHandshakeIsUndoneIff | src/isar/state_machine/states/stopping_go_to_lockdown.py:12-43 | over every run from the interruption to the failure that the state machine takes: it is back at what was interrupted exactly under a condition on the interrupted state and the event |
| HandshakeRuns.RequestIsAnsweredBefore | src/isar/state_machine/states/pausing.py:38-46 | the request that entered the handshake has had exactly one reply when the outcome is taken, unless its reply is put off |
| HandshakeRuns.ObeyedPauseSuspends | src/isar/state_machine/states/pausing.py:13-46 | over every run: a pause whose success is taken turns a mission or return home into its paused counterpart, is answered once, and leaves no command, call or outcome of the pause behind |
| HandshakeRuns.ObeyedResumeContinues | src/isar/state_machine/states/resuming.py:13-48 | over every run: a resume whose success is taken, be it that of an earlier one, takes up what was paused, and is answered once |
| Outcomes.PauseOutcomeIsTheAnswer | src/isar/robot/robot_service.py:122-135 | over every run: between a pause and its outcome the robot is asked once to pause, and the outcome is success exactly if it accepts |
| Outcomes.PauseSuspendsIffObeyed | src/isar/state_machine/states/pausing.py:13-46 | so a pause request turns what runs into its paused counterpart exactly if the robot obeys |
| Outcomes.ResumeOutcomeIsTheAnswer | src/isar/robot/robot_service.py:137-150 | the same for a resume if nothing is left of an earlier one, and nothing is left of it afterwards |
| Outcomes.ResumeContinuesIffObeyed | src/isar/state_machine/states/resuming.py:13-48 | with nothing left of an earlier one, a resume request takes up what was paused exactly if the robot obeys |
| Outcomes.ResumeIsAnsweredIff | src/isar/state_machine/states/return_home_paused.py:14-25 | in every reachable state that takes a resume request: every run leaves nothing of it behind exactly if no command, call or outcome of an earlier resume is left |
| Outcomes.StopOutcomeIsTheAnswer | src/isar/robot/robot_stop_mission.py:19-59 | over every run: the failure is taken exactly if the robot failed every attempt that the limit allows, and otherwise the last attempt alone was no failure |
| Witnesses.ResumeCanBeAnsweredByAnother | src/isar/state_machine/states/return_home_paused.py:14-25 | a run from a reachable state in which a paused return home is taken to be moving again while the robot has not been asked and the command still waits |
| Publications.EveryReactionIsAccounted | src/isar/state_machine/states/monitor.py:19-52 | what is published is exactly what has happened to the tracked mission, each once; when the state machine loses track of a mission it first publishes how that ended except in exactly the listed cases |
| Publications.SilentStop | src/isar/state_machine/states/recharging_with_mission.py:15-28 | a mission held for after the recharge is stopped on request, and nothing is published about it |
| Witnesses.MissionCanEndSilently | src/isar/state_machine/states/recharging_with_mission.py:15-28 | a reachable state in which such a stop request waits |
| StateRun.PassConsumesInOrder | src/isar/state_machine/state.py:83-92 | one pass takes the waiting values in table order up to the first that moves the state machine; later mailboxes are untouched; if none moves it all are taken |
| StateRun.Machine.RunPass | src/isar/state_machine/state.py:83-92 | the loop over the table as written computes that pass, and publishes what its handlers publish in order |
| Refinement.PassIsARun | src/isar/state_machine/state.py:83-92 | what a pass does is what a run of single steps of the state machine thread does |
| Refinement.ScriptIsARun | src/isar/state_machine/states/monitor.py:103-117 | the mailbox operations of a transition done in one go are a run of single steps |
| Refinement.TableIsGood | src/isar/state_machine/state.py:83-84 | no state lists a mailbox twice or polls a response mailbox |
| StateMachine.StateMachine.constructor | src/isar/state_machine/state_machine.py:49-62 | the state entered at startup follows from the stored mode |
| StateMachine.StateMachine.UpdateState | src/isar/state_machine/state_machine.py:100-123 | the row holds lockdown exactly in the three states of lockdown, stopping included, maintenance exactly in Maintenance, and normal otherwise |
| StateMachine.RoundMovesIff | src/isar/state_machine/state.py:66-95 | what one round comes to: the timer of AwaitNextMission sends the robot home; or else the waiting value with the least rank among those that lead somewhere is handled; or else the state is kept |
| StateMachine.StateMachine.PollTable | src/isar/state_machine/state.py:83-92 | a transition comes out exactly if a value that leads somewhere was waiting when the pass began, and it is the reaction to the one of these that is polled first |
| StateMachine.StateMachine.RunState | src/isar/state_machine/state.py:66-95 | with other threads writing during every sleep: the state is left in the first round in which the timer fires or a waiting value leads somewhere, and in no round before; state and mailboxes are those that the rounds lead to |
| StateMachine.StateMachine.RunOneState | src/isar/state_machine/state_machine.py:79-94 | the body of the loop: the row gets the mode of the state before it is polled |
| StateMachine.StateMachine.Run | src/isar/state_machine/state_machine.py:79-94 | the state and the mailboxes are those that all rounds lead to one by one, the row holds the mode of the state in which the last round began, and the loop takes steps of the crash model, so its properties hold at every point of it |
| Persistence.RowLagsByOneTransition | src/isar/state_machine/state_machine.py:100-123 | after any run with any crashes the row holds the mode of the current state once it was updated, and before that the mode of the state that was just left |
| Persistence.RestartHasTheStoredMode | src/isar/state_machine/state_machine.py:50-62 | a restart enters a state of the stored mode, maintenance if there was no row |
| StoredMode.StoredModeFollowsTheEvents | src/isar/state_machine/state_machine.py:100-123 | over runs with crashes, by the events alone: the row holds the mode that the events up to the last update have led to; lockdown begins with any request for it and ends with a release, a failed stop, a failed return home or a failed resume; maintenance begins when it is granted, after a stop where one is needed, and ends with its release |
| StoredMode.CrashRestartsInTheStoredMode | src/isar/state_machine/state_machine.py:50-62 | a crash after any run restarts in GoingToLockdown, Maintenance or UnknownStatus, as that mode says |
| StoredMode.RestrictedModeIsStored | src/isar/state_machine/state_machine.py:100-123 | a lockdown that was requested in any state, or a maintenance that was granted, is in the row from the next update on after anything that does not end it, crashes included |
| Persistence.RestrictedModesEndAsAllowed | src/isar/state_machine/states/lockdown.py:10-28 | over runs with crashes, stored maintenance ends only by a release, stored lockdown only by a release, a failed stop, or a failed return home or resume |
| Persistence.MissionsStartInNormalModeOnly | src/isar/state_machine/states/maintenance.py:8-30 | a user mission is launched only while the stored mode is normal |
| Persistence.CrashKeepsModeIff | src/isar/state_machine/state_machine.py:79-94 | a crash keeps the mode exactly if the transition was stored or did not change the mode |
| Persistence.AcknowledgedMaintenanceCanBeLost | src/isar/state_machine/states/maintenance.py:33-40 | a run in which maintenance was acknowledged and a crash forgets it |
| ApiProtocol.CallsExcludeEachOther | src/isar/services/utilities/scheduling_utilities.py:389-419 | for any number of callers, one at most is between taking and releasing the lock |
| ApiProtocol.RequestPutNeverWaits | src/isar/services/utilities/scheduling_utilities.py:406-409 | the request mailbox is empty whenever a caller gets to the timed put |
| ApiProtocol.ConsumedRequestIsLive | src/isar/services/utilities/scheduling_utilities.py:409-419 | the state machine only consumes a request whose caller holds the lock and has not returned |
| ApiProtocol.AnswersAreFresh | src/isar/services/utilities/scheduling_utilities.py:407-410 | a returned reply was written after the caller's own clearing of the mailbox |
| ApiProtocol.NoRequestIsLeftBehind | src/isar/services/utilities/scheduling_utilities.py:416-419 | the request mailbox is empty whenever the lock is free |
| ApiProtocol.NoReplyIsLeftBehind | src/isar/services/utilities/scheduling_utilities.py:416-419 | an answered call has emptied the response mailbox again, and what is in it was written later |
| ApiProtocol.OwnReplyIff | src/isar/services/utilities/scheduling_utilities.py:406-410 | a caller is sure of the reply to its own request exactly if none is owed to an earlier caller when it has cleared the mailbox |
| ApiProtocol.ForeignReplyIsReachable | src/isar/services/utilities/scheduling_utilities.py:410-419 | a run from the start in which a second caller returns with the reply to a first one that timed out |
| Scheduling.ApiEvent.SendCommand | src/isar/services/utilities/scheduling_utilities.py:378-419 | the four ways to return; the state machine finds the request of this very call; and that a call that got the lock leaves both mailboxes empty and the lock free |
| RobotCalls.GetStatus | src/isar/robot/robot_monitor_mission.py:47-133 | the loop of the two status readers computes the read below; the asserted error is always set |
| RobotCalls.ReadIsBounded | src/isar/robot/robot_monitor_mission.py:55-87 | a read makes at most the limit of calls and takes one suspension for each call but the first |
| RobotCalls.ReadIsScan | src/isar/robot/robot_monitor_mission.py:55-87 | a read is a scan: communication failures only before the last answer, which decides |
| RobotCalls.ReadSucceedsIff | src/isar/robot/robot_monitor_mission.py:98-133 | an uncancelled read yields a status exactly if one comes before any other failure and within the limit |
| RobotCalls.TryAction | src/isar/robot/robot_pause_mission.py:19-58 | the stop, pause and resume loops succeed exactly if the first answer that is no error comes within the limit and is the right one |
| RobotCalls.FirstAnswerDecides | src/isar/robot/robot_stop_mission.py:19-59 | by the first answer that is no error: done succeeds, no mission running succeeds for a stop only, and errors up to the limit fail |
| RobotService.RobotService.StartMissionHandler | src/isar/robot/robot_service.py:52-77 | a robot that is home already counts as a success, an infeasible mission and any other error as a failure, a start is signalled unless it is a return home |
| RobotService.RobotService.PollStart | src/isar/robot/robot_service.py:204-212 | a waiting start command is taken, and its mission gets a monitor task exactly if the robot starts it; without one nothing changes |
| RobotService.RobotService.PauseMissionHandler | src/isar/robot/robot_service.py:122-135 | the pause outcome that is signalled is that of the bounded retry |
| RobotService.RobotService.ResumeMissionHandler | src/isar/robot/robot_service.py:137-150 | the same for resume |
| RobotService.RobotService.StopRobot | src/isar/robot/robot_stop_mission.py:19-59 | the retry loop as steps of the model; it succeeds exactly if some attempt within the limit is settled |
| RobotService.RobotService.CancelAndAwait | src/isar/robot/robot_service.py:93-101 | what awaiting the known monitor yields, for a monitor that is done, at work or was never entered |
| RobotService.RobotService.StopMissionHandler | src/isar/robot/robot_service.py:79-120 | the mailboxes afterwards: failure, or the continued mission with the unfinished tasks, or results cleared and already done |
| RobotService.StopHandsBackIff | src/isar/robot/robot_service.py:102-120 | the rest of the mission is handed back exactly if a task of it has not been run to its end; otherwise both results are cleared and nothing else |
| RobotService.RobotService.EndPass | src/isar/robot/robot_service.py:233-240 | a monitor task that is done is forgotten, and no other |
| RobotService.RobotService.RunPass | src/isar/robot/robot_service.py:200-242 | a pass of the main loop is a run of the step relation; it empties all four command mailboxes, appends the monitor task of a start, and knows afterwards the monitor that it should |
| MonitorMission.Monitor.GetMissionStatus | src/isar/robot/robot_monitor_mission.py:191-208 | polls only a mission that is running; a failed read makes the mission a failed one |
| MonitorMission.Monitor.Report | src/isar/robot/robot_monitor_mission.py:147-169 | gives the current task its new status in place, and publishes a change |
| MonitorMission.Monitor.FollowMission | src/isar/robot/robot_monitor_mission.py:211-252 | leaving, closing the current task, or reporting it |
| MonitorMission.Monitor.Run | src/isar/robot/robot_monitor_mission.py:189-257 | the loop, with a cancellation at any suspension, equals the run function; it ends |
| MonitorMission.RobotMonitorMission | src/isar/robot/robot_monitor_mission.py:172-259 | final task statuses, uploads, publications and result for every stream of robot answers |
| MonitorHandler.MonitorMissionHandler | src/isar/robot/robot_service.py:152-181 | success is signalled exactly for a final status Successful or PartiallySuccessful, failure for any other end, nothing after a cancellation; the mission handed back differs in task statuses only |
| MonitorHandler.FailureIsReportedIff | src/isar/robot/robot_service.py:152-165 | the tasks of a mission are reported unless it is a single task of returning home |
| MonitorHandler.ReturnHomeIsNotReported | src/robot_interface/models/mission/mission.py:38-41 | whatever the robot answers, nothing is published about the task of a return home |
| MonitorHandler.MonitorEndIsAStep | src/isar/robot/robot_service.py:163-180 | when the monitor returns, its protocol step is enabled and leaves the mailboxes and the mission that the handler leaves |
| MonitorHandler.MonitorCancelIsAStep | src/isar/robot/robot_service.py:170-181 | when the monitor is cancelled, its protocol step is enabled, hands the mission back and leaves the mailboxes alone, as the handler does |
| MonitorLaws.TasksAreFollowedInOrder | src/isar/robot/robot_monitor_mission.py:227-250 | at any end the tasks before some task have finished and those after it are untouched |
| MonitorLaws.UploadsAreTheSuccessfulInspections | src/isar/robot/robot_monitor_mission.py:247-250 | the upload callback is called exactly for the followed inspection tasks that ended Successful, once each, in task order |
| MonitorLaws.EndedMissionIsNotPolledAgain | src/isar/robot/robot_monitor_mission.py:192-197 | a terminal mission status is never polled again |
| MonitorLaws.SuccessIsReportedIff | src/isar/robot/robot_monitor_mission.py:211-224 | the monitor returns without an error exactly for a successful or partially successful mission |
| MonitorLaws.SuccessfulMissionHasFinishedTasks | src/isar/robot/robot_monitor_mission.py:205-215 | a successful, reported mission without a failed task read has all its tasks finished |
| MonitorLaws.PartialSuccessAbandonsTasks | src/isar/robot/robot_monitor_mission.py:205-224 | in whatever turn a partial success is told, the monitor is over and every task keeps the status it had |
| MonitorLaws.PartialSuccessAtOnce | src/isar/robot/robot_monitor_mission.py:205-224 | an input on which a successful mission ends with unfinished tasks |
| MonitorLaws.TasksAreFinishedIff | src/isar/robot/robot_monitor_mission.py:205-250 | when the monitor returns without an error, all tasks have finished exactly if no task is current any more and none was given up after a failed read, unless those left were finished to begin with |
| MonitorLaws.FreshTasksAreFinishedIff | src/isar/robot/robot_monitor_mission.py:205-224 | for a mission of fresh tasks: exactly if no task read failed and the mission was fully successful or no task was current when the partial success was told |
| MonitorAnswers.ProgressIsGivenByAnswers | src/isar/robot/robot_monitor_mission.py:227-252 | at any end the monitor has got past as many tasks as the robot gave finished statuses, and it has given up a task exactly if the last answers made its read fail |
| MonitorAnswers.FinishedTasksByAnswers | src/isar/robot/robot_monitor_mission.py:205-250 | in terms of the robot's answers only: the tasks of a mission that succeeds have all finished exactly if it gave a finished status for each; after a full success, exactly if no task read failed |
| MonitorAnswers.FailedReadAbandonsTask | src/isar/robot/robot_monitor_mission.py:227-245 | an input on which the one failed read of a task lets a successful mission end with no task finished |
| MonitorLaws.ClosedIff | src/isar/robot/robot_monitor_mission.py:213-257 | the monitor gives a task a final Cancelled exactly if it is cancelled, and a final Failed exactly if it returns for a failed mission, while there is a task left that it has not given up and reporting is on |
| MonitorLaws.PublishedAreTheChanges | src/isar/robot/robot_monitor_mission.py:147-169 | per task: the polled statuses without repetitions, plus one final Failed or Cancelled exactly if the mission failed or the monitor was cancelled during that task |
| MonitorLaws.PublicationsDiffer | src/isar/robot/robot_monitor_mission.py:227-257 | no status is published twice in a row for a task |
| MonitorLaws.MonitorFollowsRobot | src/isar/robot/robot_monitor_mission.py:189-252 | the polled task statuses are all the statuses that the robot gave, in order; the mission status is the last one given and all before it were of a running mission |
| AbortContinue.SharedOut | src/robot_interface/models/mission/mission.py:24-35 | ended and unfinished tasks share out the tasks of a mission |
| CarriedTasks.CarriedOnIff | src/robot_interface/models/mission/mission.py:24-35 | a mission is carried on with exactly the tasks that are not started, in progress, paused or cancelled, each as often and in the order as before |
| CarriedTasks.TaskIsRunAgainIff | src/isar/robot/robot_service.py:102-113 | over any number of legs: a task with an id of its own is part of a leg exactly if it was not failed, successful or partially successful at the end of any leg before |
| AbortContinue.TasksArePartitioned | src/isar/robot/robot_service.py:102-113 | over any number of abort and relaunch cycles the original tasks are those finished in some leg plus those still held |
| AbortContinue.HeldMissionKeepsIdAndOrder | src/isar/robot/robot_service.py:104-109 | id and name are kept and the held tasks are in their original order |
| AbortContinue.EndedTaskIsNotRunAgain | src/robot_interface/models/mission/mission.py:24-35 | a task that ended in some leg is in no later leg |
| AbortContinue.EachInspectionIsUploadedOnce | src/isar/robot/robot_monitor_mission.py:247-250 | over all legs, the upload callback is called for exactly the inspections that ended successfully, in that order |
| AbortContinue.UploadedAtMostOnce | src/isar/robot/robot_monitor_mission.py:40-44 | so for one task at most once, and never for one still to be run |
| UploadRequests.RequestIsDroppedIff | src/isar/robot/robot_service.py:157-160 | a request is dropped exactly if it follows another one without a poll of the inspection service in between |
| UploadRequests.RequestsConserved | src/isar/robot/robot_inspection_service.py:111-129 | each request is taken by the inspection service, waits in the mailbox, or was dropped |
| UploadRequests.NothingIsDroppedIff | src/isar/models/events.py:33-41 | no request is dropped exactly if the inspection service polls between any two |
| UploadRequests.PolledRequestsArriveInOrder | src/isar/robot/robot_inspection_service.py:111-129 | all requests arrive, in their order, exactly in this case |
| UploadRequests.UploadsArriveIff | src/isar/robot/robot_inspection_service.py:111-129 | for the requests of a monitor: every inspection that ended successfully gets to the inspection service, in task order, exactly if it polls between any two |
| UploadRequests.SecondRequestCanBeDropped | src/isar/robot/robot_service.py:157-160 | two requests without a poll in between: the second is never uploaded |
| Battery.BatteryThread.PollBattery | src/isar/robot/robot_battery.py:45-79 | one poll as written, on the shared mailboxes; no other mailbox changes |
| Battery.BatteryThread.Run | src/isar/robot/robot_battery.py:35-79 | the loop, with the state machine emptying mailboxes during the sleeps |
| Battery.FullIffCrossed | src/isar/robot/robot_battery.py:54-79 | for all readings: a mailbox is full exactly if the charge crossed its threshold from one level to the next, and since then nobody took the signal and it has not crossed back |
| Battery.TruthfulIff | src/isar/robot/robot_battery.py:54-75 | both battery mailboxes tell the truth about the last reading all along exactly if no reading rests on a threshold whose mailbox is full |
| Battery.OffThresholdsIsSafe | src/isar/robot/robot_battery.py:54-81 | with no reading on a threshold: truthful, never both full, and the mailbox is empty whenever the poller writes |
| Battery.SignalsAreCrossingsIff | src/isar/robot/robot_battery.py:54-81 | a signal is put exactly at a crossing whose previous reading was not on the threshold |
| Battery.RechargingEndsCharged | src/isar/state_machine/states/recharging.py:14-17 | Recharging is left for Home only when the last reading is above the recharge threshold |
| Battery.StaleFullCharge | src/isar/robot/robot_battery.py:54-64 | four readings after which a full charge is signalled below the threshold |
| Battery.SwallowedClimb | src/isar/robot/robot_battery.py:54-60 | three readings that climb above the recharge threshold without a signal |
| Battery.SwallowedFall | src/isar/robot/robot_battery.py:66-73 | two readings that fall below the start threshold without a signal |
| ReturnHomeRetries.EntryGrantsFullBudget | src/isar/state_machine/states/returning_home.py:16-19 | every way into ReturningHome from another state grants the whole budget |
| ReturnHomeRetries.FailuresSpendRetries | src/isar/state_machine/states/returning_home.py:21-29 | each failure but the last spends a retry and launches once |
| ReturnHomeRetries.LaunchesAreLimited | src/isar/state_machine/states/returning_home.py:21-91 | uninterrupted failures end in InterventionNeeded at failure number L, after L launches, or L-1 further ones if a running mission was adopted |
| ReturnHomeRetries.TimerLaunchesAreLimited | src/isar/state_machine/states/await_next_mission.py:50-56 | the same for the entry by the timer |
| Uploader.Upload | src/isar/storage/uploader.py:90-125 | the store is called until the first success, at most n times, with the capped backoff between calls |
| Uploader.SleepOfFailedUpload | src/isar/storage/uploader.py:109-118 | closed form of the whole sleep for every limit and cap |
| Uploader.CappedSleep | src/isar/storage/uploader.py:113 | for 2^k <= W < 2^(k+1) and k <= m the first m sleeps take 2^(k+1)-2+(m-k)W |
| Uploader.SleepIsBounded | src/isar/storage/uploader.py:113-118 | m sleeps take at most mW and at most 2^(m+1)-2 |
| StartMissionDefinition.ToInspectionTask | src/isar/apis/models/start_mission_definition.py:128-170 | a definition is accepted exactly if the inspection and the parameters that its type needs are there and an acoustic frequency range passes the validator of the task; what comes out is a fresh inspection with the id of the definition |
| StartMissionDefinition.TaskFitsInspection | src/isar/apis/models/start_mission_definition.py:109-125 | each kind of inspection gets the task that carries it out |
| StartMissionDefinition.AcceptedRangeIff | src/robot_interface/models/mission/task.py:187-199 | a range of two numbers is accepted exactly if it is not empty and within 0 and 100000 |
| StartMissionDefinition.RejectedRange | src/robot_interface/models/mission/task.py:187-199 | a range that is empty, reversed, negative, too high or not finite is refused, whatever the rest of the definition says |
| StartMissionDefinition.ToIsarMission | src/isar/apis/models/start_mission_definition.py:75-97 | a mission exactly for a non-empty list of complete definitions, one task each in order; otherwise the error of the first incomplete one |
| StartMissionDefinition.ApiMissionsAreFresh | src/isar/apis/models/start_mission_definition.py:80-97 | such a mission has a task, is not a return home, and all its tasks are unfinished |

## Left out

- FastAPI routing, authentication, logging, telemetry, MQTT transport, storage back ends and metadata: plumbing around the modelled code; publications are a log.
- Missions are refused for the reasons in `StartMissionDefinition` only; what pydantic checks while it parses the request body, and the check of the robot's capabilities, come before and after.
- The database: one mode cell for the one robot id.
- The robot: any stream of answers; reads of its state other than the two statuses and the battery are not modelled.
- Sleeps have no length: they are points at which other threads run, and at which a monitor can be cancelled. The timer of AwaitNextMission may fire whenever no handler is at work.
- `Mission.status` and error texts: nothing modelled reads them.
- The order of publications relative to mailbox operations: only their order among each other within a reaction is kept.
- At most one live monitor is not stated: after a failed stop the main loop forgets its monitor, which goes on, and InterventionNeeded can launch a return home beside it.
- A mission whose monitor is cancelled before it was entered is not carried on: the stop then finds nothing to continue. The cycles of `AbortContinue` are those whose monitors were entered.
- Invariants.StopConserved: API callers and pollers are arbitrary writers to their own mailboxes here; their discipline is the subject of `ApiProtocol`.
- MonitorMission.RobotMonitorMission: cancellation is given by the number of suspensions the monitor survives, so a run that is never cancelled is one with enough of them.
- Scheduling.ApiEvent.SendCommand: the state machine acts once, between the put and the end of the wait; the timed put, replies at other moments and concurrent callers are the subject of `ApiProtocol`.
- ReturnHomeRetries.LaunchesAreLimited: about failures in a row; any other event that leaves ReturningHome and comes back grants the budget anew.
- `state_to_status`, status codes and the transition log: finite tables.
- The thread that polls the robot status: it only writes robot_status_update, which the protocol allows at any time.
