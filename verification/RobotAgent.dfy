/** The robot agent's objects: the node with the state its callbacks share, the leaves of the
    behavior tree, the tree that ticks them, and the agent that delivers events. Every method
    is held to its function in `AgentModel`. */
module RobotAgent {
  import opened Options
  import opened Fsm
  import opened AgentModel
  import Battery

  class RobotAgentNode {
    const robotName: string
    const fsm: RobotFSM
    const battery: Battery.BatteryModel
    var lastBatteryUpdate: real
    var pendingTasks: seq<Task>
    var currentTask: Option<Task>
    var interruptedTask: Option<Task>
    var isMoving: bool
    var isCharging: bool
    var faultInjected: bool
    var taskStartTime: real
    var pickPose: Point
    var dropPose: Point
    // What left through the action clients and the publishers.
    var goals: seq<Goal>
    var cancels: seq<nat>
    var completions: seq<Completion>
    var statuses: seq<RobotStatus>
    ghost var received: seq<Task>
    ghost var finished: seq<Finished>
    ghost var charges: nat

    ghost function View(): Core
      reads this, fsm, battery
    {
      Core(fsm.state, battery.soc, lastBatteryUpdate, pendingTasks, currentTask, interruptedTask,
           isMoving, isCharging, faultInjected, taskStartTime, pickPose, dropPose,
           goals, cancels, completions, statuses, received, finished, charges)
    }

    constructor (robotName: string, initialSoc: real, now: real)
      ensures View() == Initial(initialSoc, now).core
      ensures this.robotName == robotName
      ensures fresh(fsm) && fresh(battery)
    {
      this.robotName := robotName;
      fsm := new RobotFSM();
      battery := new Battery.BatteryModel(initialSoc);
      lastBatteryUpdate, taskStartTime := now, now;
      pendingTasks, currentTask, interruptedTask := [], None, None;
      isMoving, isCharging, faultInjected := false, false, false;
      pickPose, dropPose := Point(0.0, 0.0), Point(0.0, 0.0);
      goals, cancels, completions, statuses := [], [], [], [];
      received, finished, charges := [], [], 0;
    }

    method BatteryUpdateCb(now: real)
      modifies this, battery
      ensures View() == BatteryUpdated(old(View()), now)
    {
      var dt := now - lastBatteryUpdate;
      lastBatteryUpdate := now;
      battery.Update(dt, isMoving, isCharging);
      SaveTaskWhenLow();
    }

    /** The last part of the battery callback. */
    method SaveTaskWhenLow()
      modifies this
      ensures View() == Charged(old(View()), battery.soc, old(lastBatteryUpdate))
    {
      if Battery.IsLow(battery.soc) {
        if currentTask.Some? && !interruptedTask.Some? {
          interruptedTask := currentTask;
          currentTask := None;
        }
      }
    }

    method TaskAssignmentCb(task: Task)
      modifies this
      ensures View() == old(View()).(pending := old(pendingTasks) + [task], received := old(received) + [task])
    {
      pendingTasks := pendingTasks + [task];
      received := received + [task];
    }

    method FaultServiceCb(data: bool) returns (success: bool)
      modifies this
      ensures View() == if data then old(View()).(fault := true) else old(View())
      ensures success
    {
      if data {
        faultInjected := true;
      }
      success := true;
    }

    method StatusPublishCb(pose: Point)
      modifies this
      ensures View() == old(View()).(statuses := old(statuses) + [StatusOf(old(View()), robotName, pose)])
    {
      var taskId := "";
      if currentTask.Some? {
        taskId := currentTask.value.id;
      }
      statuses := statuses + [RobotStatus(robotName, fsm.state, battery.soc, taskId, pose)];
    }
  }

  class NavigateToPoseBT {
    const node: RobotAgentNode
    const id: NavId
    var running: bool
    var navState: Option<NavState>

    ghost function View(): NavNode
      reads this
    {
      NavNode(running, navState)
    }

    constructor (node: RobotAgentNode, id: NavId)
      ensures View() == IDLE_NAV && this.node == node && this.id == id
    {
      this.node, this.id, running, navState := node, id, false, None;
    }

    method Tick(pose: Point, ready: bool) returns (status: NodeStatus)
      modifies this, node, node.fsm
      ensures NavTick(status, node.View(), View()) == NavTicked(old(node.View()), old(View()), id, pose, ready)
    {
      if running {
        status := OnRunning();
      } else {
        status := OnStart(pose, ready);
      }
      running := status == Running;
    }

    method OnStart(pose: Point, ready: bool) returns (status: NodeStatus)
      modifies this, node, node.fsm
      ensures running == old(running)
      ensures var t := NavStart(old(node.View()), old(View()), id, pose, ready);
              status == t.status && node.View() == t.core && navState == t.node.state
    {
      if !ready {
        return Failure;
      }
      navState := Some(NavState(|node.goals|, false, false, false, Unknown));
      node.goals := node.goals + [NavGoal(id, pose)];
      var _ := node.fsm.Process(NavStarted);
      node.isMoving := true;
      return Running;
    }

    method OnRunning() returns (status: NodeStatus)
      modifies this, node, node.fsm
      ensures running == old(running)
      ensures var t := NavRunning(old(node.View()), old(View()));
              status == t.status && node.View() == t.core && navState == t.node.state
    {
      var fault := node.faultInjected;
      node.faultInjected := false;
      if fault {
        OnHalted();
        var _ := node.fsm.Process(FaultInjected);
        return Failure;
      }
      if navState == None {
        return Failure;
      }
      var s := navState.value;
      if !s.response {
        return Running;
      }
      if !s.accepted {
        node.isMoving := false;
        var _ := node.fsm.Process(NavFailed);
        return Failure;
      }
      if !s.result {
        return Running;
      }
      node.isMoving := false;
      if s.code == Succeeded {
        var _ := node.fsm.Process(NavSucceeded);
        return Success;
      }
      var _ := node.fsm.Process(NavFailed);
      return Failure;
    }

    method OnHalted()
      modifies this, node
      ensures node.View() == NavStop(old(node.View()), old(View()))
      ensures navState == None && running == old(running)
    {
      node.isMoving := false;
      if navState.Some? && navState.value.accepted && !navState.value.result {
        node.cancels := node.cancels + [navState.value.goal];
      }
      navState := None;
    }

    method Halt()
      modifies this, node
      ensures (node.View(), View()) == NavHalt(old(node.View()), old(View()))
    {
      if running {
        OnHalted();
      }
      running := false;
    }

    /** The goal's callbacks hold a weak pointer to its record: it still points to it exactly
        when the record kept here is that goal's. */
    method GoalResponseCallback(goal: nat, accepted: bool)
      modifies this
      ensures View() == Responded(old(View()), goal, accepted)
    {
      if navState.Some? && navState.value.goal == goal {
        navState := Some(navState.value.(response := true, accepted := accepted));
      }
    }

    method ResultCallback(goal: nat, code: ResultCode)
      modifies this
      ensures View() == Resulted(old(View()), goal, code)
    {
      if navState.Some? && navState.value.goal == goal {
        navState := Some(navState.value.(result := true, code := code));
      }
    }
  }

  class RequestRecovery {
    const node: RobotAgentNode
    const leg: NavId
    var running: bool
    var phase: RecoveryPhase
    var attempt: nat
    var spinState: Option<RecovState>
    var backUpState: Option<RecovState>

    ghost function View(): RecoveryNode
      reads this
    {
      RecoveryNode(running, phase, attempt, spinState, backUpState)
    }

    constructor (node: RobotAgentNode, leg: NavId)
      ensures View() == IDLE_LEG.recovery && this.node == node && this.leg == leg
    {
      this.node, this.leg, running, phase, attempt := node, leg, false, Spin, 0;
      spinState, backUpState := None, None;
    }

    method Tick(env: Env, maxAttempts: int) returns (status: NodeStatus)
      modifies this, node, node.fsm
      ensures RecoveryTick(status, node.View(), View())
           == RecoveryTicked(old(node.View()), old(View()), leg, env, maxAttempts)
    {
      if running {
        status := OnRunning(env, maxAttempts);
      } else {
        status := OnStart(env);
      }
      running := status == Running;
    }

    method OnStart(env: Env) returns (status: NodeStatus)
      modifies this, node, node.fsm
      ensures var t := RecoveryStart(old(node.View()), old(View()), leg, env);
              status == t.status && node.View() == t.core && View() == t.node.(running := old(running))
    {
      attempt := 0;
      phase := Spin;
      var _ := node.fsm.Process(NavFailed);
      StartSpinGoal(env.spinReady);
      return Running;
    }

    method OnRunning(env: Env, maxAttempts: int) returns (status: NodeStatus)
      requires running
      modifies this, node, node.fsm
      ensures var t := RecoveryRunning(old(node.View()), old(View()), leg, env, maxAttempts);
              status == t.status && node.View() == t.core && View() == t.node.(running := old(running))
    {
      if phase == Spin {
        if spinState == None || !spinState.value.received {
          return Running;
        }
        if spinState.value.success {
          phase := BackUp;
          StartBackUpGoal(env.backUpReady);
        } else {
          attempt := attempt + 1;
          if attempt >= maxAttempts {
            phase := Failed;
          } else {
            phase := Spin;
            StartSpinGoal(env.spinReady);
          }
        }
        return Running;
      }
      if phase == BackUp {
        if backUpState == None || !backUpState.value.received {
          return Running;
        }
        if backUpState.value.success {
          phase := Done;
        } else {
          attempt := attempt + 1;
          if attempt >= maxAttempts {
            phase := Failed;
          } else {
            phase := Spin;
            StartSpinGoal(env.spinReady);
          }
        }
        return Running;
      }
      if phase == Done {
        var _ := node.fsm.Process(RecoveryDone);
        return Success;
      }
      var _ := node.fsm.Process(RecoveryFailed);
      return Failure;
    }

    method StartSpinGoal(ready: bool)
      modifies this, node
      ensures (node.View(), View()) == StartSpin(old(node.View()), old(View()), leg, ready)
    {
      if !ready {
        spinState := Some(RecovState(None, true, false));
        return;
      }
      spinState := Some(RecovState(Some(|node.goals|), false, false));
      node.goals := node.goals + [SpinGoal(leg)];
    }

    method StartBackUpGoal(ready: bool)
      modifies this, node
      ensures (node.View(), View()) == StartBackUp(old(node.View()), old(View()), leg, ready)
    {
      if !ready {
        backUpState := Some(RecovState(None, true, false));
        return;
      }
      backUpState := Some(RecovState(Some(|node.goals|), false, false));
      node.goals := node.goals + [BackUpGoal(leg)];
    }

    method Halt()
      modifies this
      ensures View() == RecoveryHalt(old(View()))
    {
      if running {
        spinState, backUpState := None, None;
      }
      running := false;
    }

    method SpinResultCallback(goal: nat, ok: bool)
      modifies this
      ensures View() == old(View()).(spin := Answered(old(spinState), goal, ok))
    {
      if spinState.Some? && spinState.value.goal == Some(goal) {
        spinState := Some(spinState.value.(received := true, success := ok));
      }
    }

    method BackUpResultCallback(goal: nat, ok: bool)
      modifies this
      ensures View() == old(View()).(backUp := Answered(old(backUpState), goal, ok))
    {
      if backUpState.Some? && backUpState.value.goal == Some(goal) {
        backUpState := Some(backUpState.value.(received := true, success := ok));
      }
    }
  }

  class RequestTask {
    const node: RobotAgentNode
    var running: bool

    constructor (node: RobotAgentNode)
      ensures this.node == node && !running
    {
      this.node, running := node, false;
    }

    /** Starting and continuing are the same. */
    method Tick(now: real) returns (status: NodeStatus)
      modifies this, node, node.fsm
      ensures running <==> status == Running
      ensures status == if NextTask(old(node.View())).None? then Running else Success
      ensures node.View()
           == if NextTask(old(node.View())).None? then old(node.View()) else TakeTask(old(node.View()), now)
    {
      var task := PopTask();
      if task == None {
        running := true;
        return Running;
      }
      StartTask(task.value, now);
      running := false;
      return Success;
    }

    method PopTask() returns (task: Option<Task>)
      modifies node
      ensures task == NextTask(old(node.View()))
      ensures node.View() == Popped(old(node.View()))
    {
      task := None;
      if node.interruptedTask.Some? {
        task := node.interruptedTask;
        node.interruptedTask := None;
      } else if node.pendingTasks != [] {
        task := Some(node.pendingTasks[0]);
        node.pendingTasks := node.pendingTasks[1..];
      }
    }

    method StartTask(task: Task, now: real)
      modifies node, node.fsm
      ensures node.View() == Started(old(node.View()), task, now)
    {
      node.finished := Displaced(node.View());
      node.currentTask := Some(task);
      node.taskStartTime := now;
      node.pickPose, node.dropPose := task.pick, task.drop;
      var _ := node.fsm.Process(TaskReceived);
    }

    method Halt()
      modifies this
      ensures !running
    {
      running := false;
    }
  }

  class ExecutePickDrop {
    const node: RobotAgentNode
    const isPick: bool
    var running: bool
    var startTime: real
    var durationSecs: real

    ghost function View(): TimedNode
      reads this
    {
      TimedNode(running, startTime, durationSecs)
    }

    constructor (node: RobotAgentNode, isPick: bool)
      ensures View() == IDLE_TIMED && this.node == node && this.isPick == isPick
    {
      this.node, this.isPick, running, startTime, durationSecs := node, isPick, false, 0.0, 0.0;
    }

    method Tick(duration: real, now: real) returns (status: NodeStatus)
      modifies this, node.fsm
      ensures (status, View()) == TimedTicked(old(View()), duration, now)
      ensures node.fsm.state
           == if status.Success? && isPick then Next(old(node.fsm.state), ExecutionDone) else old(node.fsm.state)
    {
      if !running {
        running, startTime, durationSecs := true, now, duration;
        return Running;
      }
      if now - startTime < durationSecs {
        return Running;
      }
      if isPick {
        var _ := node.fsm.Process(ExecutionDone);
      }
      running := false;
      return Success;
    }

    method Halt()
      modifies this
      ensures View() == old(View()).(running := false)
    {
      running := false;
    }
  }

  class ChargeBattery {
    const node: RobotAgentNode
    var running: bool

    constructor (node: RobotAgentNode)
      ensures this.node == node && !running
    {
      this.node, running := node, false;
    }

    method Tick() returns (status: NodeStatus)
      modifies this, node, node.fsm
      ensures running <==> status == Running
      ensures status == if old(running) && Battery.IsFull(old(node.battery.soc)) then Success else Running
      ensures status == Success <==> old(running) && old(node.battery.soc) >= 95.0
      ensures !old(running) ==> node.isCharging && !node.isMoving
      ensures node.View()
           == if !old(running) then ChargeStart(old(node.View()))
              else if Battery.IsFull(old(node.battery.soc)) then ChargeDone(old(node.View()))
              else old(node.View())
    {
      if !running {
        node.isCharging := true;
        node.isMoving := false;
        var _ := node.fsm.Process(LowBattery);
        running := true;
        return Running;
      }
      if Battery.IsFull(node.battery.soc) {
        node.isCharging := false;
        var _ := node.fsm.Process(BatteryFull);
        node.charges := node.charges + 1;
        running := false;
        return Success;
      }
      return Running;
    }
  }

  class ReportStatus {
    const node: RobotAgentNode

    constructor (node: RobotAgentNode)
      ensures this.node == node
    {
      this.node := node;
    }

    method Tick(now: real)
      modifies node, node.fsm
      ensures node.View() == ReportTask(old(node.View()), node.robotName, now)
    {
      var taskId, robotId := "", "";
      if node.currentTask.Some? {
        taskId := node.currentTask.value.id;
        robotId := node.robotName;
      }
      node.finished := Delivered(node.View());
      node.currentTask := None;
      node.completions := node.completions + [Completion(taskId, robotId, now - node.taskStartTime)];
      var _ := node.fsm.Process(ReportSent);
    }
  }

  /** `RetryUntilSuccessful` over a `Fallback` of navigation and recovery. */
  class RetryLeg {
    const node: RobotAgentNode
    const id: NavId
    const nav: NavigateToPoseBT
    const recovery: RequestRecovery
    var tryCount: nat
    var currentChild: nat
    ghost var outcomes: seq<bool>

    ghost predicate Valid() {
      nav.node == node && recovery.node == node && nav.id == id && recovery.leg == id
    }

    ghost function View(): Leg
      reads this, nav, recovery
    {
      Leg(tryCount, currentChild, nav.View(), recovery.View(), outcomes)
    }

    constructor (node: RobotAgentNode, id: NavId)
      ensures Valid() && View() == IDLE_LEG && this.node == node && this.id == id
      ensures fresh(nav) && fresh(recovery)
    {
      this.node, this.id := node, id;
      nav := new NavigateToPoseBT(node, id);
      recovery := new RequestRecovery(node, id);
      tryCount, currentChild, outcomes := 0, 0, [];
    }

    method TickFallback(pose: Point, env: Env, maxAttempts: int) returns (status: NodeStatus)
      requires Valid()
      modifies this, nav, recovery, node, node.fsm
      ensures LegTick(status, node.View(), View())
           == FallbackTicked(old(node.View()), old(View()), id, pose, env, maxAttempts)
    {
      if currentChild == 0 {
        status := nav.Tick(pose, env.navReady);
        if status == Running {
          return;
        }
        outcomes := outcomes + [status == Success];
        if status == Success {
          return;
        }
        currentChild := 1;
      }
      if recovery.running {
        outcomes := outcomes + Consumes(recovery.View());
      }
      status := recovery.Tick(env, maxAttempts);
      currentChild := if status == Running then 1 else 0;
    }

    /** One round of the retry. */
    lemma RetryUnfolds(c: Core, l: Leg, pose: Point, env: Env)
      requires l.tries < NAV_ROUNDS
      ensures var f := FallbackTicked(c, l, id, pose, env, RECOVERY_ATTEMPTS);
              f.leg.tries == l.tries
              && RetryTicked(c, l, id, pose, env, NAV_ROUNDS, RECOVERY_ATTEMPTS)
                 == match f.status
                    case Running => f
                    case Success => f.(leg := f.leg.(tries := 0))
                    case Failure =>
                      RetryTicked(f.core, f.leg.(tries := l.tries + 1), id, pose, env, NAV_ROUNDS, RECOVERY_ATTEMPTS)
    {
    }

    method Tick(pose: Point, env: Env) returns (status: NodeStatus)
      requires Valid()
      modifies this, nav, recovery, node, node.fsm
      ensures LegTick(status, node.View(), View()) == LegTicked(old(node.View()), old(View()), id, pose, env)
    {
      if !nav.running && !recovery.running {
        outcomes := [];
      }
      while tryCount < NAV_ROUNDS
        invariant RetryTicked(node.View(), View(), id, pose, env, NAV_ROUNDS, RECOVERY_ATTEMPTS)
               == LegTicked(old(node.View()), old(View()), id, pose, env)
        decreases NAV_ROUNDS - tryCount
      {
        RetryUnfolds(node.View(), View(), pose, env);
        status := TickFallback(pose, env, RECOVERY_ATTEMPTS);
        if status == Running {
          return;
        }
        if status == Success {
          tryCount := 0;
          return;
        }
        tryCount := tryCount + 1;
      }
      tryCount := 0;
      status := Failure;
    }

    method Halt()
      requires Valid()
      modifies this, nav, recovery, node
      ensures (node.View(), View()) == LegHalt(old(node.View()), old(View()))
    {
      tryCount, currentChild := 0, 0;
      nav.Halt();
      recovery.Halt();
    }
  }

  /** The agent: its node, its tree, and the executor that delivers one callback at a time. */
  class RobotAgent {
    const config: Config
    const node: RobotAgentNode
    const navToCharger: NavigateToPoseBT
    const chargeBattery: ChargeBattery
    const requestTask: RequestTask
    const pickLeg: RetryLeg
    const doPick: ExecutePickDrop
    const dropLeg: RetryLeg
    const doDrop: ExecutePickDrop
    const report: ReportStatus
    var chargeChild: nat
    var taskChild: nat

    ghost predicate Valid() {
      && node.robotName == config.robotName
      && navToCharger.node == node && navToCharger.id == ToCharger
      && chargeBattery.node == node && requestTask.node == node && report.node == node
      && pickLeg.Valid() && pickLeg.node == node && pickLeg.id == ToPick
      && dropLeg.Valid() && dropLeg.node == node && dropLeg.id == ToDrop
      && doPick.node == node && doPick.isPick && doDrop.node == node && !doDrop.isPick
      && pickLeg.nav != dropLeg.nav && navToCharger != pickLeg.nav && navToCharger != dropLeg.nav
      && pickLeg.recovery != dropLeg.recovery
    }

    ghost function Nodes(): set<object> {
      {node, node.fsm, navToCharger, chargeBattery, requestTask, doPick, doDrop,
       pickLeg, pickLeg.nav, pickLeg.recovery, dropLeg, dropLeg.nav, dropLeg.recovery}
    }

    ghost function View(): Agent
      reads this, node.battery, Nodes()
    {
      Agent(node.View(), chargeChild, navToCharger.View(), chargeBattery.running, taskChild, requestTask.running,
                  pickLeg.View(), doPick.View(), dropLeg.View(), doDrop.View())
    }

    constructor (config: Config, initialSoc: real, now: real)
      ensures Valid() && View() == Initial(initialSoc, now) && this.config == config
    {
      this.config := config;
      var n := new RobotAgentNode(config.robotName, initialSoc, now);
      node := n;
      navToCharger := new NavigateToPoseBT(n, ToCharger);
      chargeBattery := new ChargeBattery(n);
      requestTask := new RequestTask(n);
      pickLeg := new RetryLeg(n, ToPick);
      doPick := new ExecutePickDrop(n, true);
      dropLeg := new RetryLeg(n, ToDrop);
      doDrop := new ExecutePickDrop(n, false);
      report := new ReportStatus(n);
      chargeChild, taskChild := 0, 0;
    }

    method TickChargeChild(i: nat, env: Env) returns (status: NodeStatus)
      requires Valid()
      modifies node, node.fsm, navToCharger, chargeBattery
      ensures Tick(status, View()) == ChargeChild(config, old(View()), i, env)
    {
      if i == 0 {
        // The inverter over the battery check, whose threshold is LOW_THRESHOLD.
        status := if node.battery.soc >= Battery.LOW_THRESHOLD then Failure else Success;
      } else if i == 1 {
        status := navToCharger.Tick(config.charger, env.chargerReady);
      } else {
        status := chargeBattery.Tick();
      }
    }

    /** Where the sequence resumed does not matter once it is told where to go on. */
    lemma ChargeIgnoresMemory(a: Agent, i: nat, memory: nat, env: Env)
      ensures ChargeFrom(config, a.(chargeChild := memory), i, env) == ChargeFrom(config, a, i, env)
      decreases 3 - i
    {
    }

    method TickChargeWhenLow(env: Env) returns (status: NodeStatus)
      requires Valid()
      modifies this, node, node.fsm, navToCharger, chargeBattery
      ensures Tick(status, View()) == ChargeFrom(config, old(View()), old(chargeChild), env)
    {
      while chargeChild < 3
        invariant ChargeFrom(config, View(), chargeChild, env) == ChargeFrom(config, old(View()), old(chargeChild), env)
        decreases 3 - chargeChild
      {
        status := TickChargeChild(chargeChild, env);
        if status == Running {
          return;
        }
        if status == Failure {
          chargeChild := 0;
          return;
        }
        ChargeIgnoresMemory(View(), chargeChild + 1, chargeChild + 1, env);
        chargeChild := chargeChild + 1;
      }
      chargeChild := 0;
      status := Success;
    }

    method TickLeg(i: nat, env: Env) returns (status: NodeStatus)
      requires Valid() && (i == 1 || i == 3)
      modifies node, node.fsm, pickLeg, pickLeg.nav, pickLeg.recovery, dropLeg, dropLeg.nav, dropLeg.recovery
      ensures Tick(status, View()) == TaskChild(config, old(View()), i, env)
    {
      if i == 1 {
        status := pickLeg.Tick(node.pickPose, env);
      } else {
        status := dropLeg.Tick(node.dropPose, env);
      }
    }

    method TickTimed(i: nat, env: Env) returns (status: NodeStatus)
      requires Valid() && (i == 2 || i == 4)
      modifies node.fsm, doPick, doDrop
      ensures Tick(status, View()) == TaskChild(config, old(View()), i, env)
    {
      if i == 2 {
        status := doPick.Tick(config.pickSecs, env.now);
      } else {
        status := doDrop.Tick(config.dropSecs, env.now);
      }
    }

    method TickTaskChild(i: nat, env: Env) returns (status: NodeStatus)
      requires Valid()
      modifies Nodes()
      ensures Tick(status, View()) == TaskChild(config, old(View()), i, env)
      ensures chargeChild == old(chargeChild) && taskChild == old(taskChild)
    {
      if i == 0 {
        status := requestTask.Tick(env.now);
      } else if i == 1 || i == 3 {
        status := TickLeg(i, env);
      } else if i == 2 || i == 4 {
        status := TickTimed(i, env);
      } else {
        report.Tick(env.now);
        status := Success;
      }
    }

    lemma TaskIgnoresMemory(a: Agent, i: nat, memory: nat, env: Env)
      ensures TaskFrom(config, a.(taskChild := memory), i, env) == TaskFrom(config, a, i, env)
      decreases 6 - i
    {
      if i < 6 {
        var t := TaskChild(config, a, i, env);
        if t.status.Success? {
          TaskIgnoresMemory(t.agent, i + 1, memory, env);
        }
      }
    }

    method TickTaskExecution(env: Env) returns (status: NodeStatus)
      requires Valid()
      modifies this, Nodes()
      ensures Tick(status, View()) == TaskFrom(config, old(View()), old(taskChild), env)
    {
      while taskChild < 6
        invariant TaskFrom(config, View(), taskChild, env) == TaskFrom(config, old(View()), old(taskChild), env)
        decreases 6 - taskChild
      {
        status := TickTaskChild(taskChild, env);
        if status == Running {
          return;
        }
        if status == Failure {
          taskChild := 0;
          return;
        }
        TaskIgnoresMemory(View(), taskChild + 1, taskChild + 1, env);
        taskChild := taskChild + 1;
      }
      taskChild := 0;
      status := Success;
    }

    method HaltTaskExecution()
      requires Valid()
      modifies this, Nodes()
      ensures View() == TaskHalt(old(View()))
    {
      pickLeg.Halt();
      dropLeg.Halt();
      HaltSimpleLeaves();
      taskChild := 0;
    }

    method HaltSimpleLeaves()
      requires Valid()
      modifies requestTask, doPick, doDrop
      ensures View() == SimpleHalt(old(View()))
    {
      requestTask.Halt();
      doPick.Halt();
      doDrop.Halt();
    }

    method BtTickCb(env: Env)
      requires Valid()
      modifies this, Nodes()
      ensures View() == TreeTicked(config, old(View()), env)
    {
      var status := TickChargeWhenLow(env);
      if status == Failure {
        var _ := TickTaskExecution(env);
      } else {
        HaltTaskExecution();
      }
    }

    method NavCallback(e: Event)
      requires Valid() && (e.NavResponse? || e.NavResult?)
      modifies navToCharger, pickLeg.nav, dropLeg.nav
      ensures View() == Step(config, old(View()), e)
    {
      var n := match e.node case ToCharger => navToCharger case ToPick => pickLeg.nav case ToDrop => dropLeg.nav;
      if e.NavResponse? {
        n.GoalResponseCallback(e.goal, e.accepted);
      } else {
        n.ResultCallback(e.goal, e.code);
      }
    }

    method SpinCallback(e: Event)
      requires Valid() && e.SpinResult?
      modifies pickLeg.recovery, dropLeg.recovery
      ensures View() == Step(config, old(View()), e)
    {
      match e.leg {
        case ToCharger =>
        case ToPick => pickLeg.recovery.SpinResultCallback(e.goal, e.ok);
        case ToDrop => dropLeg.recovery.SpinResultCallback(e.goal, e.ok);
      }
    }

    method BackUpCallback(e: Event)
      requires Valid() && e.BackUpResult?
      modifies pickLeg.recovery, dropLeg.recovery
      ensures View() == Step(config, old(View()), e)
    {
      match e.leg {
        case ToCharger =>
        case ToPick => pickLeg.recovery.BackUpResultCallback(e.goal, e.ok);
        case ToDrop => dropLeg.recovery.BackUpResultCallback(e.goal, e.ok);
      }
    }

    method Deliver(e: Event)
      requires Valid()
      modifies this, node.battery, Nodes()
      ensures View() == Step(config, old(View()), e)
    {
      match e {
        case BtTick(env) => BtTickCb(env);
        case BatteryTick(now) => node.BatteryUpdateCb(now);
        case TaskArrives(task) => node.TaskAssignmentCb(task);
        case InjectFault(data) => var _ := node.FaultServiceCb(data);
        case PublishStatus(pose) => node.StatusPublishCb(pose);
        case NavResponse(_, _, _) => NavCallback(e);
        case NavResult(_, _, _) => NavCallback(e);
        case SpinResult(_, _, _) => SpinCallback(e);
        case BackUpResult(_, _, _) => BackUpCallback(e);
      }
    }
  }
}
