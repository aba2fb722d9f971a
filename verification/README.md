# Verified model of the robot fleet

A Dafny model of two programs and of the system they form: the robot agent, which works off pick-and-drop tasks
under a behavior tree, and the fleet server, which allocates tasks to robots and records what becomes of them.
`dafny verify dfyconfig.toml` checks everything.

## What is modelled

A robot agent is a set of callbacks on shared state: tree tick, battery update, task arrival, fault service, status
publication, and the callbacks of the action clients. The timers, the task subscription and the fault service are in
one mutually exclusive group (`src/fms_robot_agent/src/robot_agent_node.cpp:56-99, 142-149`), so each is one atomic
step. The action callbacks run beside them but only write into one goal's record under its mutex, and a tick reads a
record at most once, so each of them is a step before or after the tick.

`AgentModel` gives every callback as a function on a value, `RobotAgent` as methods of objects with the same fields as
the source, and every method is proved equal to its function. The theorems are about every run: any sequence of
callbacks, with servers ready or not, goals rejected, aborted or never answered, callbacks late, repeated, in any order
and for goals long abandoned, faults at any time, and any clock unless a theorem says otherwise.

| module | content |
|---|---|
| `Fsm`, `Battery` | the lifecycle machine over all event words; the charge over all schedules |
| `Retry` | recovery and a navigation leg as machines that read a stream of goal outcomes |
| `AgentModel`, `RobotAgent` | the agent as functions and as objects |
| `Invariants`, `FlatTree` | what every reachable state satisfies; the tree without its loops |
| `Slots`, `TaskFlow` | tasks as an abstract machine, the refinement, conservation, order, what is lost and when |
| `Completions` | what a robot publishes, and exactly when it names a task |
| `LegStream`, `Errands`, `Readiness` | the tree's legs follow `Retry`; where the robot drives, durations; goals go to servers that are ready |
| `Arrivals` | what a pick or a drop has behind it |
| `LockStep`, `Progress` | runs on which navigation works, and how soon a task is reported on them |
| `Charging` | charging is exclusive, sticky, finite and rare |
| `Motion`, `Honesty` | the motion flag, the cancelled goals and those left open, exactly; when a robot shows IDLE with a task, exactly |
| `Callbacks`, `RecoveryCallbacks` | stale callbacks are harmless |
| `Answers`, `Faults` | what is said is recorded and heeded; a fault breaks off one navigation |
| `Allocator`, `TaskStore`, `FleetServer` | the choice of a robot, the task documents, the three ways in and the broker loop |
| `FleetSystem` | the server with any number of concrete agents and their channels |
| `Counterexamples` | concrete runs that show what is not promised |

## Assumptions

BehaviorTree.CPP version 3 is not part of the repository. The model gives its nodes these meanings:

- Sequence and Fallback resume at the child that was running and start over after they end or are halted.
- ReactiveFallback ticks child 0 on every tick; unless child 0 fails, child 1 is halted.
- RetryUntilSuccessful ticks its child again within the same tick after a failure, up to the configured number.
- A stateful action that is not running is started, one that is running is continued, and only a running one gets its
  halt callback.

Charge, time and distance are reals. The square root and the largest double the allocator starts from are parameters.
The clock is read once per tick. Each kind of server is ready or not for the whole of a tick; the navigation server may
answer differently to the charge branch and to the legs. The retry and recovery limits are those of the tree's file,
3 and 3; `Retry` leaves both open. The status of an action goal is one of the four codes. The robot's place comes with
the status event.

At the fleet level the channels keep order and lose nothing, publishing and recording an assignment is one step, task
ids are fresh and not empty, and robots receive tasks only from the server.

## Where code and documentation disagree

The model follows the code.

- `src/fms_robot_agent/bt_xml/robot_agent.xml:13-15` says a task is abandoned when recovery has failed three times. The
  branch fails and starts over with the task still current, and the next task is written over it:
  `TaskFlow.GivenUpIsOverwritten` for every state, `Counterexamples.ATaskIsLost` a run, and `TaskFlow.NothingLostIff` the
  exact condition for losing nothing.
- The same comment speaks of recovery as if navigation followed. A recovery that succeeds ends the leg as passed without
  navigating again; `Retry.PassedByArriving` and `Arrivals.PickingIsEarned` say exactly when the robot really arrived.
- `src/fms_robot_agent/include/fms_robot_agent/robot_fsm.hpp:39-40` says valid transitions return `true`. The second
  NAV_STARTED is accepted and returns `false`; `Fsm.RobotFSM.Process` has the exact condition.
- `docs/PHASE2_PLAN.md:248` lists a transition to REPORTING. No event word reaches it (`Fsm.TasksAccountedFor`).
- `src/fms_fleet_server/scripts/load_test.py:9-16` speaks of one pending slot. The code has a queue.
- `src/fms_robot_agent/include/fms_robot_agent/battery_model.hpp:34` charges the moving rate while navigating. A drive to
  the dock that cuts off a leg is charged at the resting rate: the halt of the leg takes the motion flag down after the
  drive was started (`Motion.MovingExactly`, `Counterexamples.ADriveLooksLikeRest`).
- A robot may show IDLE, and be chosen for a task, while it has one: `Honesty.NeverIdleIff` says when,
  `Counterexamples.ARobotLooksIdle` shows a run.
- `src/fms_robot_agent/bt_xml/robot_agent.xml:5-7` says the charge branch halts the task branch. A halt cancels only a
  navigation goal whose acceptance is on record: one not answered yet and every spin or back-up go on unwatched.
  `Motion.LeavesOpenIff` says exactly when, `Counterexamples.ANavigationIsLeftOpen` and
  `Counterexamples.ARecoveryIsLeftOpen` show runs.
- A completion may name no task: `Completions.AuthenticIff` and `Completions.BlankExactly` say when,
  `Counterexamples.ACompletionIsBlank` shows a run.

## Model

| member | source | states |
|---|---|---|
| `Fsm.RobotFSM.constructor` | src/fms_robot_agent/include/fms_robot_agent/robot_fsm.hpp:43 | a fresh machine is IDLE |
| `Fsm.RobotFSM.Process` | src/fms_robot_agent/src/robot_fsm.cpp:19-64 | the event leads to its one target if it comes in one of its sources, else nothing changes; returns `true` exactly for an accepted event other than the second NAV_STARTED, which is accepted and reported as no change |
| `Fsm.TableByEvents` | src/fms_robot_agent/src/robot_fsm.cpp:22-61 | the table turned around: an event is accepted exactly in its listed sources and always leads to the same state |
| `Fsm.StatesBalance` | src/fms_robot_agent/src/robot_fsm.cpp:22-61 | over every event word and for each of IDLE, ASSIGNED, NAVIGATING, EXECUTING and RECOVERING: the accepted events that enter it are those that leave it, and one more if the machine is there |
| `Fsm.EnteredBy` | src/fms_robot_agent/src/robot_fsm.cpp:34-55 | NAVIGATING is entered only by NAV_STARTED out of ASSIGNED or EXECUTION_DONE out of EXECUTING; an accepted RECOVERY_DONE leads from RECOVERING to ASSIGNED |
| `Fsm.TasksAccountedFor` | src/fms_robot_agent/src/robot_fsm.cpp:19-64 | over every event word: accepted TASK_RECEIVED = accepted REPORT_SENT + accepted RECOVERY_FAILED + LOW_BATTERY accepted outside IDLE + 1 if busy; REPORTING is never entered |
| `Fsm.ChargesAccountedFor` | src/fms_robot_agent/src/robot_fsm.cpp:25-60 | over every event word: accepted LOW_BATTERY = accepted BATTERY_FULL + 1 if CHARGING |
| `Fsm.IgnoredEventsDropOut` | src/fms_robot_agent/src/robot_fsm.cpp:19-64 | dropping all ignored events from a word changes neither the final state nor any count of accepted events, and dropping again changes nothing |
| `Fsm.BusyHistory` | src/fms_robot_agent/src/robot_fsm.cpp:24-46 | a busy state has a task accepted since the last IDLE and, past ASSIGNED, a navigation started after it |
| `Fsm.ExecutingWasEarned` | src/fms_robot_agent/src/robot_fsm.cpp:24-46 | EXECUTING is reached only by TASK_RECEIVED, NAV_STARTED, NAV_SUCCEEDED in this order with no IDLE since |
| `Battery.BatteryModel.constructor` | src/fms_robot_agent/include/fms_robot_agent/battery_model.hpp:11-12 | the charge starts clamped to 0..100 |
| `Battery.BatteryModel.Update` | src/fms_robot_agent/include/fms_robot_agent/battery_model.hpp:15-24 | plus 1.00 per second charging, else less 0.10 per second moving or 0.02 at rest, clamped to 0..100 |
| `Battery.UpdateSplits` | src/fms_robot_agent/include/fms_robot_agent/battery_model.hpp:15-24 | one update equals the two updates its time is cut into |
| `Battery.RateIndependence` | src/fms_robot_agent/include/fms_robot_agent/battery_model.hpp:15-24 | any two ways of cutting one time line into updates give the same charge |
| `Battery.DriveMonotone` | src/fms_robot_agent/include/fms_robot_agent/battery_model.hpp:15-24 | over any schedule the later charge is monotone in the first one |
| `Battery.CyclesTakeTime` | src/fms_robot_agent/include/fms_robot_agent/battery_model.hpp:8-35 | `k` complete low-full-low cycles charge for more than `75 k` s and cost 0.10 per second of motion and 0.02 per second of rest, more than `75 k` in all; so more than `825 k` s, and without motion more than `3750 k` s of rest, over every schedule |
| `Battery.BalanceHolds` | src/fms_robot_agent/include/fms_robot_agent/battery_model.hpp:15-24 | over every schedule that is never clamped the charge is exactly the first one, plus the seconds of charging, less 0.10 for each second of motion and 0.02 for each second of rest |
| `Retry.RecoveryMeans` | src/fms_robot_agent/src/bt_nodes/request_recovery.cpp:27-103 | what each phase and attempt count says of the whole result stream read so far |
| `Retry.RecoveryIsExact` | src/fms_robot_agent/src/bt_nodes/request_recovery.cpp:27-103 | recovery succeeds if and only if a spin success directly followed by a back-up success comes before the limit of failures; it gives up if and only if it does not and the failures reached the limit |
| `Retry.RecoveryIsShort` | src/fms_robot_agent/src/bt_nodes/request_recovery.cpp:27-103 | an open recovery has read fewer than two results per allowed failure |
| `Retry.BoundIsProduct` | src/fms_robot_agent/bt_xml/robot_agent.xml:39-44 | the bound of a leg is R * (1 + 2M) |
| `Retry.LegFailsExactly` | src/fms_robot_agent/bt_xml/robot_agent.xml:39-44 | a leg is given up if and only if its outcomes begin with R rounds, each a failed navigation and a recovery that gives up |
| `Retry.EndedOnLostRounds` | src/fms_robot_agent/bt_xml/robot_agent.xml:39-44 | a leg whose last outcome decided it was given up if and only if its outcomes are exactly R such rounds |
| `Retry.PassedByArriving` | src/fms_robot_agent/bt_xml/robot_agent.xml:39-44 | the exact condition under which a leg that passed did so by arriving: its last outcome is a success read after fewer than R whole lost rounds; otherwise a recovery succeeded and nobody arrived |
| `Retry.LegIsShort` | src/fms_robot_agent/bt_xml/robot_agent.xml:39-44 | a leg still going on has consumed fewer than R * (1 + 2M) outcomes |
| `RobotAgent.RobotAgentNode.constructor` | src/fms_robot_agent/src/robot_agent_node.cpp:21-43 | the node as configured and activated |
| `RobotAgent.RobotAgentNode.BatteryUpdateCb` | src/fms_robot_agent/src/robot_agent_node.cpp:201-218 | integrates the time since the last update and, when low, sets the current task aside unless one is set aside already; nothing else changes |
| `RobotAgent.RobotAgentNode.SaveTaskWhenLow` | src/fms_robot_agent/src/robot_agent_node.cpp:208-217 | the second half of the battery callback |
| `RobotAgent.RobotAgentNode.TaskAssignmentCb` | src/fms_robot_agent/src/robot_agent_node.cpp:256-263 | the assignment goes to the end of the queue and nothing else changes |
| `RobotAgent.RobotAgentNode.FaultServiceCb` | src/fms_robot_agent/src/robot_agent_node.cpp:265-279 | raises the fault flag only for `data = true`; always succeeds |
| `RobotAgent.RobotAgentNode.StatusPublishCb` | src/fms_robot_agent/src/robot_agent_node.cpp:220-254 | publishes lifecycle state, charge and the current task id, empty without one |
| `RobotAgent.NavigateToPoseBT.Tick` | src/fms_robot_agent/src/bt_nodes/navigate_to_pose_bt.cpp:15-129 | start or continue by whether the leaf was running; the status, the record, the lifecycle and the flags are those of `AgentModel.NavTicked` |
| `RobotAgent.NavigateToPoseBT.OnStart` | src/fms_robot_agent/src/bt_nodes/navigate_to_pose_bt.cpp:15-72 | fails without touching anything when the server is not ready, else a new goal with a fresh record |
| `RobotAgent.NavigateToPoseBT.OnRunning` | src/fms_robot_agent/src/bt_nodes/navigate_to_pose_bt.cpp:74-129 | the fault, no-record, waiting, rejected, succeeded and failed branches, in this order of priority |
| `RobotAgent.NavigateToPoseBT.OnHalted` | src/fms_robot_agent/src/bt_nodes/navigate_to_pose_bt.cpp:131-139 | stops, cancels only an accepted goal without a result, lets the record go |
| `RobotAgent.NavigateToPoseBT.GoalResponseCallback` | src/fms_robot_agent/src/bt_nodes/navigate_to_pose_bt.cpp:42-49 | writes only if the record is still the goal's own |
| `RobotAgent.NavigateToPoseBT.ResultCallback` | src/fms_robot_agent/src/bt_nodes/navigate_to_pose_bt.cpp:50-56 | writes only if the record is still the goal's own |
| `RobotAgent.RequestRecovery.Tick` | src/fms_robot_agent/src/bt_nodes/request_recovery.cpp:15-103 | start or continue by whether the leaf was running, as `AgentModel.RecoveryTicked` |
| `RobotAgent.RequestRecovery.OnStart` | src/fms_robot_agent/src/bt_nodes/request_recovery.cpp:15-25 | a fresh attempt count and a first spin; NAV_FAILED is sent whatever the state |
| `RobotAgent.RequestRecovery.OnRunning` | src/fms_robot_agent/src/bt_nodes/request_recovery.cpp:27-103 | the phase machine: spin, back-up, count a failure, start over or give up |
| `RobotAgent.RequestRecovery.StartSpinGoal` | src/fms_robot_agent/src/bt_nodes/request_recovery.cpp:112-154 | a made-up failure when the server is not ready, else a goal with a fresh record |
| `RobotAgent.RequestRecovery.StartBackUpGoal` | src/fms_robot_agent/src/bt_nodes/request_recovery.cpp:156-192 | the same for the back-up goal |
| `RobotAgent.RequestRecovery.Halt` | src/fms_robot_agent/src/bt_nodes/request_recovery.cpp:105-110 | drops both records of a running recovery |
| `RobotAgent.RequestRecovery.SpinResultCallback` | src/fms_robot_agent/src/bt_nodes/request_recovery.cpp:144-150 | writes only if the record is still the goal's own |
| `RobotAgent.RequestRecovery.BackUpResultCallback` | src/fms_robot_agent/src/bt_nodes/request_recovery.cpp:182-188 | writes only if the record is still the goal's own |
| `RobotAgent.RequestTask.Tick` | src/fms_robot_agent/src/bt_nodes/request_task.cpp:19-76 | waits while nothing is queued; else the task taken becomes current |
| `RobotAgent.RequestTask.PopTask` | src/fms_robot_agent/src/bt_nodes/request_task.cpp:27-39 | interrupted task first, else the oldest pending one, removed from where it was |
| `RobotAgent.RequestTask.StartTask` | src/fms_robot_agent/src/bt_nodes/request_task.cpp:45-67 | the task becomes current even over another one, with its clock, its poses and TASK_RECEIVED |
| `RobotAgent.ExecutePickDrop.Tick` | src/fms_robot_agent/src/bt_nodes/execute_pick_drop.cpp:18-44 | ends once the configured time has passed since it started; EXECUTION_DONE for a pick only |
| `RobotAgent.ChargeBattery.Tick` | src/fms_robot_agent/src/bt_nodes/charge_battery.cpp:11-37 | raises the charging flag and LOW_BATTERY on start, ends with BATTERY_FULL at 95 |
| `RobotAgent.ReportStatus.Tick` | src/fms_robot_agent/src/bt_nodes/report_status.cpp:11-41 | publishes the current task or empty ids, clears it, sends REPORT_SENT |
| `RobotAgent.RetryLeg.TickFallback` | src/fms_robot_agent/bt_xml/robot_agent.xml:40-43 | one pass over navigate and recover, resuming at the remembered child |
| `RobotAgent.RetryLeg.Tick` | src/fms_robot_agent/bt_xml/robot_agent.xml:39-44 | the retry loop, three rounds in all, equal to the recursive `AgentModel.LegTicked` |
| `RobotAgent.RetryLeg.Halt` | src/fms_robot_agent/bt_xml/robot_agent.xml:39-44 | forgets rounds and child, halts the running leaf |
| `RobotAgent.RobotAgent.TickChargeWhenLow` | src/fms_robot_agent/bt_xml/robot_agent.xml:23-30 | the sequence loop over battery check, drive to the dock and charge, with its memory |
| `RobotAgent.RobotAgent.TickTaskExecution` | src/fms_robot_agent/bt_xml/robot_agent.xml:33-63 | the sequence loop over the six children of the task branch, with its memory |
| `RobotAgent.RobotAgent.HaltTaskExecution` | src/fms_robot_agent/bt_xml/robot_agent.xml:5-7 | halts whatever of the task branch runs |
| `RobotAgent.RobotAgent.BtTickCb` | src/fms_robot_agent/src/robot_agent_node.cpp:188-199 | one tick of the reactive root: charge branch first; unless it fails the task branch is halted |
| `RobotAgent.RobotAgent.Deliver` | src/fms_robot_agent/src/robot_agent_node.cpp:142-149 | every callback, as the object executes it, is the step of `AgentModel.Step`: the theorems below about runs are about this object |
| `Invariants.StepKeepsSound` | src/fms_robot_agent/bt_xml/robot_agent.xml:20-65 | any callback keeps the shape of the tree's memory and its agreement with lifecycle and flags |
| `Invariants.AlwaysSound` | src/fms_robot_agent/bt_xml/robot_agent.xml:20-65 | so it is in every reachable state, whatever the environment does |
| `Invariants.FlagsAgree` | src/fms_robot_agent/src/bt_nodes/charge_battery.cpp:11-42 | in every reachable state: never moving and charging; moving only while exactly one navigation runs; CHARGING, the charging flag and the running charge leaf are one |
| `FlatTree.FreshLegRuns` | src/fms_robot_agent/bt_xml/robot_agent.xml:39-44 | a leg entered afresh never ends in the tick that enters it |
| `FlatTree.TaskIsFlat` | src/fms_robot_agent/bt_xml/robot_agent.xml:33-63 | the looping sequence of the task branch equals a flat table by the running child |
| `FlatTree.ChargeIsFlat` | src/fms_robot_agent/bt_xml/robot_agent.xml:23-30 | the same for the charge branch |
| `Slots.DoKeepsOrdered` | src/fms_robot_agent/src/bt_nodes/request_task.cpp:24-48 | every slot step keeps: received = finished, active, queued, in order of arrival |
| `Slots.AlwaysOrdered` | src/fms_robot_agent/src/bt_nodes/request_task.cpp:24-48 | so it is after every run of the slots |
| `Slots.Conservation` | src/fms_robot_agent/src/bt_nodes/request_task.cpp:24-48 | counted with repetitions: received = reported + overwritten + active + queued |
| `Slots.FirstComeFirstServed` | src/fms_robot_agent/src/bt_nodes/request_task.cpp:27-38 | over every run of slot steps: the tasks at the head of the queue at its starts, then the queue, are the tasks received, in order of arrival |
| `Slots.InterruptedGoesFirst` | src/fms_robot_agent/src/bt_nodes/request_task.cpp:29-34 | over every run of slot steps: nothing starts between a park and its resume, and what is resumed is the task that was parked |
| `TaskFlow.StepRefines` | src/fms_robot_agent/src/robot_agent_node.cpp:201-263 | every callback of the concrete agent is one enabled step of the slots or none |
| `TaskFlow.RunRefines` | src/fms_robot_agent/src/robot_agent_node.cpp:188-263 | every run of the agent is a run of the slots, and current and interrupted are never both set |
| `TaskFlow.ParksExactly` | src/fms_robot_agent/src/robot_agent_node.cpp:208-217 | a battery update sets the current task aside if and only if the charge comes out below 20 and none is set aside; else the slots stay |
| `TaskFlow.TasksStayInOrder` | src/fms_robot_agent/src/bt_nodes/request_task.cpp:24-48 | on every run tasks are conserved and stay in order of arrival |
| `TaskFlow.TasksStartInOrder` | src/fms_robot_agent/src/bt_nodes/request_task.cpp:27-38 | on every run of the agent the tasks it took from the head of its queue, then the pending ones, are the tasks received, in order of arrival |
| `TaskFlow.TraceAt` | src/fms_robot_agent/src/robot_agent_node.cpp:201-263 | the trace of a run has, for every event, the slot step that event amounts to in the state before it |
| `TaskFlow.InterruptedGoesFirstOnRuns` | src/fms_robot_agent/src/bt_nodes/request_task.cpp:29-34 | on every run of the agent nothing is started between an interruption by the battery and the resumption, and the task resumed is the one interrupted |
| `TaskFlow.LostExactly` | src/fms_robot_agent/src/bt_nodes/request_task.cpp:45-48 | the tasks overwritten on a run are exactly those lost at ticks that meet the guard, in order |
| `TaskFlow.NothingLostIff` | src/fms_robot_agent/src/bt_nodes/request_task.cpp:45-48 | a run loses nothing if and only if no tick reaches RequestTask with a current task and a pending one |
| `TaskFlow.GivenUpIsOverwritten` | src/fms_robot_agent/bt_xml/robot_agent.xml:13-15 | a leg given up with a good battery, a task current and another waiting costs the task: whatever the environment answers, the next tick writes the waiting one over it |
| `TaskFlow.NothingLostOnSmoothRuns` | src/fms_robot_agent/bt_xml/robot_agent.xml:20-65 | if no leg is given up and the drive to the dock never fails, everything received was reported, is active or waits, after any number of battery interruptions |
| `Completions.AlwaysAttended` | src/fms_robot_agent/src/robot_agent_node.cpp:208-217 | past RequestTask a task is current or the battery is low |
| `Completions.BlankExactly` | src/fms_robot_agent/src/bt_nodes/report_status.cpp:11-30 | a tick reports a missing task if and only if the drop is over, the battery took the task and the dock cannot be driven to; and at that point a missing task means a low battery |
| `Completions.StepPublishes` | src/fms_robot_agent/src/bt_nodes/report_status.cpp:11-30 | what a callback publishes: the active task exactly when the slots report it, a message with empty ids exactly when a tick reports a missing task, and else nothing |
| `Completions.PublishedExactly` | src/fms_robot_agent/src/bt_nodes/report_status.cpp:11-30 | on every run the messages are one for each drop that ends: the current task's id and the robot's name, or empty ids, and the time since a task was last taken, new or resumed |
| `Completions.AuthenticIff` | src/fms_robot_agent/src/bt_nodes/report_status.cpp:11-30 | on every run the completions are the reported tasks, one for one and in order, under the robot's own name, if and only if no tick reports a missing task |
| `Completions.CompletionsAreAuthentic` | src/fms_robot_agent/src/bt_nodes/report_status.cpp:11-30 | so it is on every run with a forward clock on which the navigation server is ready whenever the battery is low |
| `LegStream.RecoveryTracks` | src/fms_robot_agent/src/bt_nodes/request_recovery.cpp:15-103 | a tick of the recovery leaf is one step of the stream machine on the outcome it consumes, or none |
| `LegStream.LegTickedTracks` | src/fms_robot_agent/bt_xml/robot_agent.xml:39-44 | a tick of the concrete leg keeps step with the stream machine and ends the way it ended |
| `LegStream.AlwaysTracks` | src/fms_robot_agent/bt_xml/robot_agent.xml:39-55 | both legs do in every reachable state |
| `LegStream.LegsAreBounded` | src/fms_robot_agent/bt_xml/robot_agent.xml:39-55 | in every reachable state a leg at work has consumed at most 21 outcomes, and the tick that ends it fails if and only if they are three lost rounds and nothing else |
| `LockStep.GoodStep` | src/fms_robot_agent/bt_xml/robot_agent.xml:20-65 | a callback of a run on which navigation works keeps tree, lifecycle and slots in step |
| `LockStep.TreeAndLifecycleAgree` | src/fms_robot_agent/src/robot_agent_node.cpp:220-238 | on such runs: waiting means IDLE, the legs NAVIGATING, pick and drop EXECUTING, charging CHARGING; recovery never runs; IDLE was never published with a task |
| `Progress.StartedIsReported` | src/fms_robot_agent/bt_xml/robot_agent.xml:33-63 | on a run on which navigation works and the battery lasts, with ticks at least `d` apart, a started task is reported at the latest after `p + q + 2` ticks besides those that wait for the navigation server, where `p * d` covers the pick and `q * d` the drop |
| `Charging.ChargeFollowsTheRun` | src/fms_robot_agent/src/robot_agent_node.cpp:201-206 | on every run the charge is that of a schedule: one segment for each battery update, charging if the charge leaf runs, else moving if the motion flag is up, else at rest |
| `Charging.ChargingStep` | src/fms_robot_agent/src/bt_nodes/charge_battery.cpp:25-37 | whatever happens to a charging robot, it goes on charging, or a tick found it at 95 or more and leaves it idle |
| `Charging.ChargingSticks` | src/fms_robot_agent/src/bt_nodes/charge_battery.cpp:11-37 | over any run from a charging state until the charge is over: the charge rises with the clock, no task leaves the queue, no goal is sent |
| `Charging.ChargingEndsInTime` | src/fms_robot_agent/src/bt_nodes/charge_battery.cpp:25-37 | once the clock has advanced by what is missing from 95, the charge is over or the next tick ends it |
| `Charging.ChargingEnds` | src/fms_robot_agent/src/robot_agent_node.cpp:201-206 | with updates at least `d` apart, `n` updates with `n * d >= 95 - soc` are enough |
| `Charging.ChargesAreRare` | src/fms_robot_agent/include/fms_robot_agent/battery_model.hpp:8-35 | in the running agent, `k` charges take more than `825 k - 750` s |
| `Callbacks.AlwaysBacked` | src/fms_robot_agent/src/bt_nodes/navigate_to_pose_bt.cpp:33-56 | after any adversarial callbacks a navigation record belongs to the latest goal of its node and holds only what that goal's callbacks said |
| `Callbacks.ArrivalsAreReal` | src/fms_robot_agent/src/bt_nodes/navigate_to_pose_bt.cpp:87-122 | a navigation that succeeds was told by callbacks of its latest goal that it was accepted and succeeded |
| `Answers.AlwaysRecorded` | src/fms_robot_agent/src/bt_nodes/navigate_to_pose_bt.cpp:42-56 | the converse, on every run: a navigation's record is exactly the last response and the last result that met it, and blank where there was none |
| `Answers.NavigationHeeds` | src/fms_robot_agent/src/bt_nodes/navigate_to_pose_bt.cpp:74-129 | on every run, at the next tick that reaches a running navigation: rejected, ended by anything but success or broken off by a fault, it fails, its leg consumes `false` and starts to recover, and NAVIGATING becomes RECOVERING; succeeded, the leg consumes `true` and NAVIGATING becomes EXECUTING; told nothing final, nothing changes; the same for the dock |
| `RecoveryCallbacks.AlwaysBacked` | src/fms_robot_agent/src/bt_nodes/request_recovery.cpp:130-150 | the same for the record a recovery waits on, in its present attempt and phase |
| `RecoveryCallbacks.OutcomesAreReal` | src/fms_robot_agent/src/bt_nodes/request_recovery.cpp:36-70 | every outcome a recovery consumes is a not-ready failure or what a callback said of its latest goal, of the kind its phase calls for |
| `Answers.AlwaysAnswered` | src/fms_robot_agent/src/bt_nodes/request_recovery.cpp:130-188 | the converse, on every run: what a recovery waits on is answered if and only if a callback of its present goal and phase met it, and holds what the last one said, success or not |
| `Faults.FaultStep` | src/fms_robot_agent/src/bt_nodes/navigate_to_pose_bt.cpp:76-85 | the fault flag is up after a step if and only if the step injects a fault, or it was up and the step continues no navigation |
| `Faults.OneFaultOneBreak` | src/fms_robot_agent/src/bt_nodes/navigate_to_pose_bt.cpp:76-85 | from any sound state the navigations broken off by faults, and a fault still pending, are at most the faults injected and the one pending at first |
| `Errands.GoalsServeTheTask` | src/fms_robot_agent/src/bt_nodes/request_task.cpp:51-62 | after any run a navigation goal goes only to the dock with a charge below 20, or to the pick or drop place of the task in the slots, by the node for it |
| `Readiness.GoalsGoToReadyServers` | src/fms_robot_agent/src/bt_nodes/navigate_to_pose_bt.cpp:28-31 | after any run, whatever the servers answer: a tick sends a goal only to a server that is ready, navigation, spin or back-up each by its own |
| `Errands.DocksExactly` | src/fms_robot_agent/bt_xml/robot_agent.xml:23-28 | with the charge branch asleep a tick starts the drive to the dock if and only if the charge is below 20 and the server is ready |
| `Arrivals.LegIsEarned` | src/fms_robot_agent/bt_xml/robot_agent.xml:36-58 | on every run, past a leg: either the leg's last outcome is a navigation's, and callbacks of the run that met the record of its goal, sent to the active task's own place, said accepted and succeeded; or it is a recovery's, and callbacks that met the records of its spin and its back-up said succeeded |
| `Arrivals.PickingIsEarned` | src/fms_robot_agent/bt_xml/robot_agent.xml:36-58 | a robot that picks has the pick leg behind it in this sense, and one that drops has both |
| `Arrivals.LegPassShows` | src/fms_robot_agent/src/bt_nodes/request_recovery.cpp:87-94 | a leg that passes by its recovery takes RECOVERING to ASSIGNED and leaves any other state |
| `Arrivals.WorkShowsNoDrive` | src/fms_robot_agent/src/bt_nodes/request_recovery.cpp:87-94 | in every reachable state a robot that picks or drops after such a leg shows neither NAVIGATING nor RECOVERING |
| `Errands.DurationsCoverTheWork` | src/fms_robot_agent/src/bt_nodes/report_status.cpp:24-26 | with a clock that runs forward every reported duration covers a whole pick and a whole drop, whatever came in between |
| `Motion.CancelsAreExact` | src/fms_robot_agent/src/bt_nodes/navigate_to_pose_bt.cpp:131-139 | after any run, whatever comes next: the goals cancelled are exactly those whose navigation stops with an acceptance on record and no result; and no recovery runs while the lifecycle is NAVIGATING |
| `Motion.LeavesOpenIff` | src/fms_robot_agent/src/bt_nodes/navigate_to_pose_bt.cpp:131-139 | after any run, whatever comes next: an open goal is let go of without being cancelled if and only if a tick breaks off a navigation nobody has answered yet, by a fault or by the charge branch, or the charge branch breaks off a recovery at work |
| `Motion.MovingExactly` | src/fms_robot_agent/src/bt_nodes/navigate_to_pose_bt.cpp:58-64 | in every reachable state the motion flag is up if and only if a leg navigates, or the robot drives to the dock and that drive did not begin by cutting off a leg's navigation |
| `Honesty.StepEntersIdle` | src/fms_robot_agent/src/robot_agent_node.cpp:220-238 | a callback makes the robot show IDLE with a current task if and only if a recovery gives up under that task, or a charge ends that never set it aside |
| `Honesty.NeverIdleIff` | src/fms_robot_agent/src/robot_agent_node.cpp:220-238 | a run never shows IDLE with a task if and only if no tick of it meets that guard |
| `Honesty.NeverIdleIsPublished` | src/fms_robot_agent/src/robot_agent_node.cpp:220-253 | on such a run no published status says IDLE together with a task |
| `Honesty.ShownExactly` | src/fms_robot_agent/src/robot_agent_node.cpp:220-253 | on every run the statuses are one for each publication, with the robot's name and the lifecycle, charge, current task and place of its moment |
| `Counterexamples.ATaskIsLost` | src/fms_robot_agent/bt_xml/robot_agent.xml:13-15 | a run with one clock on which a leg is given up after three lost rounds and the waiting task is written over the current one |
| `Counterexamples.ACompletionIsBlank` | src/fms_robot_agent/src/bt_nodes/report_status.cpp:15-30 | a run with one clock that ends with a completion naming no task |
| `Counterexamples.ADriveLooksLikeRest` | src/fms_robot_agent/src/bt_nodes/navigate_to_pose_bt.cpp:131-132 | a run with one clock on which the robot drives to the dock with its motion flag down |
| `Counterexamples.ANavigationIsLeftOpen` | src/fms_robot_agent/src/bt_nodes/navigate_to_pose_bt.cpp:134-138 | a run with one clock on which a navigation goal is accepted after its record is gone: not cancelled, and the robot has another goal |
| `Counterexamples.ARecoveryIsLeftOpen` | src/fms_robot_agent/src/bt_nodes/request_recovery.cpp:105-110 | a run with one clock on which the battery breaks off a recovery: its spin is not cancelled and its record is gone |
| `Counterexamples.ARobotLooksIdle` | src/fms_robot_agent/src/bt_nodes/request_recovery.cpp:96-102 | a run with one clock on which a recovery gives up in RECOVERING and the robot shows IDLE while it works on its task |
| `Counterexamples.ALegPassesWithoutArriving` | src/fms_robot_agent/bt_xml/robot_agent.xml:39-44 | a failed navigation, a spin and a back-up that succeed: the leg has passed and nobody arrived |
| `Allocator.BeforeMeans` | src/fms_fleet_server/src/task_allocator.cpp:16 | the order of the keys is lexicographic: the first place where they differ, or where the shorter one ends, decides |
| `Allocator.TakeFirst` | src/fms_fleet_server/src/task_allocator.cpp:16 | an ordered map hands out its least key |
| `Allocator.SelectBestRobot` | src/fms_fleet_server/src/task_allocator.cpp:8-35 | the loop returns the winner: idle, least score, least id among equals, with its score `sqrt(dx*dx + dy*dy) + (100 - soc) * weight`; it returns one if and only if some robot is idle with a score below the starting value, unless one has an empty id |
| `Allocator.FullerIsChosen` | src/fms_fleet_server/src/task_allocator.cpp:20-28 | with a positive weight the robot chosen is never less charged than another eligible one at the same place, and has the least name among equals |
| `Allocator.NearestIsChosen` | src/fms_fleet_server/src/task_allocator.cpp:20-28 | with a square root that grows, the robot chosen is the nearest among the equally charged eligible ones |
| `Allocator.ChoiceIsUnique` | src/fms_fleet_server/src/task_allocator.cpp:13-34 | at most one choice meets that |
| `Allocator.ChoiceExists` | src/fms_fleet_server/src/task_allocator.cpp:13-34 | and there always is one |
| `Allocator.OthersDoNotMatter` | src/fms_fleet_server/src/task_allocator.cpp:16-29 | another robot takes the choice away if and only if its new status is eligible and preferred; deleting one never does |
| `TaskStore.MongoStore.InsertTask` | src/fms_fleet_server/src/mongo_store.cpp:80-106 | one new ASSIGNED document at the end |
| `TaskStore.MongoStore.UpdateTaskCompletion` | src/fms_fleet_server/src/mongo_store.cpp:108-123 | the first document with the id is written, the others are not |
| `TaskStore.MongoStore.FindTask` | src/fms_fleet_server/src/mongo_store.cpp:125-144 | found if and only if some document has the id, and then it is the first |
| `TaskStore.CompletionsReachTheFirst` | src/fms_fleet_server/src/mongo_store.cpp:80-123 | over any completions: no id changes, a shadowed document is never written, every other one carries the result, the status of that result and the duration of the last completion that named it |
| `FleetServer.FleetServerNode.RobotStatusCb` | src/fms_fleet_server/src/fleet_server_node.cpp:154-159 | the status last seen of a robot |
| `FleetServer.FleetServerNode.SelectRobot` | src/fms_fleet_server/src/fleet_server_node.cpp:187-192 | the allocator's winner in the snapshot |
| `FleetServer.FleetServerNode.DispatchAssignment` | src/fms_fleet_server/src/fleet_server_node.cpp:194-203 | one assignment published and one recorded, with a generated id if it had none; nothing if the robot has no channel, where the lookup throws |
| `FleetServer.FleetServerNode.SubmitTask` | src/fms_fleet_server/src/fleet_server_node.cpp:92-107 | accepted if and only if one assignment was published and recorded, and the answer names it; it throws if and only if the robot chosen has no channel |
| `FleetServer.FleetServerNode.TaskRequestCb` | src/fms_fleet_server/src/fleet_server_node.cpp:205-221 | one assignment or the request is dropped; it throws if and only if the robot chosen has no channel |
| `FleetServer.FleetServerNode.TaskCompletionCb` | src/fms_fleet_server/src/fleet_server_node.cpp:165-185 | the store is updated; only what is not a success goes to the queue of failures |
| `FleetServer.FleetServerNode.ConsumeLoop` | src/fms_fleet_server/src/fleet_server_node.cpp:223-273 | any number of turns, up to the first that throws: what was settled, published and recorded is what those turns called for, in order |
| `FleetServer.EveryDeliverySettledOnce` | src/fms_fleet_server/src/fleet_server_node.cpp:223-273 | every delivered tag is settled once and in order if and only if no lookup throws; nothing is ever requeued |
| `FleetServer.OwnSettlement` | src/fms_fleet_server/src/fleet_server_node.cpp:238-268 | each delivery of a run has its own settlement in its place: acknowledged if and only if it was dispatched, and then its assignment is in its own place too |
| `FleetServer.AckedIffDispatched` | src/fms_fleet_server/src/fleet_server_node.cpp:238-268 | acknowledged if and only if the message parsed and a robot of the server's own was chosen from the snapshot; that robot was idle in it |
| `FleetSystem.DispatchIsTheServers` | src/fms_fleet_server/src/fleet_server_node.cpp:194-203 | the system's dispatch step records and publishes exactly what the server's entry points do, none of which throws, each assignment into its robot's channel and no other |
| `FleetSystem.NextOk` | src/fms_fleet_server/src/fleet_server_node.cpp:154-203 | every step of server, channels or any robot keeps all robots accounted for and all records right |
| `FleetSystem.EveryTaskInOnePlace` | src/fms_fleet_server/src/fleet_server_node.cpp:165-203 | for any number of robots and any interleaving, every dispatched task is in exactly one place, at its record's robot, and is COMPLETED if and only if its completion was handled; the record then carries that completion's duration |
| `FleetSystem.CompletedIsFinal` | src/fms_fleet_server/src/mongo_store.cpp:108-123 | along every run records keep task and robot, and COMPLETED stays |

## Left out

- gRPC and REST adapters, launch files, simulation and Nav2 configuration, scripts, summaries, telemetry and the robots
  collection: no property that spans steps.
- librabbitmq, mongocxx, rclcpp, Nav2 and their failures: they are queues, a sequence of documents and free answers.
  Exceptions out of publishing or inserting, and the gap between the two, are not modelled.
- What becomes of the process once a lookup of an unknown robot's channel has thrown: the entry points say that it did.
- FleetServer.FleetServerNode.ConsumeLoop: a finite number of turns; the flag that stops the thread is the end of the
  sequence.
- Rounding, infinities and values that are not numbers; the 32-bit floats of charge and duration in messages.
- Clocks that run backwards, where a theorem asks for a forward run.
- Lifecycle deactivation, cleanup and shutdown, and with them the halt callback of the charge leaf, which no tick calls.
- Overflow of the message queues (depth 10).
- Task priority, deadline, type and payload, orientation, error and status texts: they are copied and never decided on.
- A missing goal pose and blackboard conversion errors: the tree's file sets every port.
- The place of a goal within Nav2, and the robot's motion: a navigation succeeds when its server says so.
- LockStep.TreeAndLifecycleAgree: where navigation fails, what the lifecycle shows for each place in the tree is not
  listed; `Honesty.NeverIdleIff` and `Motion.CancelsAreExact` say what remains true of IDLE and of recovery.
- FleetSystem.EveryTaskInOnePlace: liveness of the whole fleet is not stated; a task may wait for ever in a queue.
  `Progress.StartedIsReported` bounds the work on one task.
- Progress.StartedIsReported: nothing is said for runs on which the battery runs low during the task.
