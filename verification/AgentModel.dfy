/** One robot agent as a value: the state its callbacks share, the memory of its behavior tree,
    and what each callback does to them. `RobotAgent.dfy` holds the objects that do it. */
module AgentModel {
  import opened Options
  import opened Fsm
  import Battery

  const NAV_ROUNDS: nat := 3
  const RECOVERY_ATTEMPTS: nat := 3

  // ---------------------------------------------------------------------------
  // Messages
  // ---------------------------------------------------------------------------

  datatype Point = Point(x: real, y: real)

  datatype Task = Task(id: string, robot: string, pick: Point, drop: Point)

  datatype Completion = Completion(taskId: string, robotId: string, duration: real)

  datatype RobotStatus = RobotStatus(robotId: string, state: RobotState, soc: real, taskId: string, pose: Point)

  datatype NavId = ToCharger | ToPick | ToDrop

  datatype ResultCode = Unknown | Succeeded | Aborted | Canceled

  datatype Goal = NavGoal(node: NavId, pose: Point) | SpinGoal(leg: NavId) | BackUpGoal(leg: NavId)

  // ---------------------------------------------------------------------------
  // The shared state
  // ---------------------------------------------------------------------------

  /** What became of a task that left the slots: it was reported, or another task was written
      over it. */
  datatype Finished = Reported(task: Task) | Overwritten(task: Task)

  /** The fields of `RobotAgentNode` the callbacks work on. A goal's number is its place in
      `goals`. `received`, `finished` and `charges` are history: nothing reads them. */
  datatype Core = Core(
    fsm: RobotState,
    soc: Battery.Soc,
    lastUpdate: real,
    pending: seq<Task>,
    current: Option<Task>,
    interrupted: Option<Task>,
    moving: bool,
    charging: bool,
    fault: bool,
    taskStart: real,
    pickPose: Point,
    dropPose: Point,
    goals: seq<Goal>,
    cancels: seq<nat>,
    completions: seq<Completion>,
    statuses: seq<RobotStatus>,
    received: seq<Task>,
    finished: seq<Finished>,
    charges: nat)

  function Fire(c: Core, e: FsmEvent): Core {
    c.(fsm := Next(c.fsm, e))
  }

  // ---------------------------------------------------------------------------
  // The leaves of the tree
  // ---------------------------------------------------------------------------

  datatype NodeStatus = Running | Success | Failure

  /** The record a navigation goal shares with its callbacks. The goal handle is set exactly
      when the goal was accepted. */
  datatype NavState = NavState(goal: nat, response: bool, accepted: bool, result: bool, code: ResultCode)

  datatype NavNode = NavNode(running: bool, state: Option<NavState>)

  datatype RecoveryPhase = Spin | BackUp | Done | Failed

  /** `goal` is absent in the record made up when the action server is not ready. */
  datatype RecovState = RecovState(goal: Option<nat>, received: bool, success: bool)

  datatype RecoveryNode = RecoveryNode(
    running: bool,
    phase: RecoveryPhase,
    attempt: nat,
    spin: Option<RecovState>,
    backUp: Option<RecovState>)

  datatype TimedNode = TimedNode(running: bool, start: real, duration: real)

  /** Retry over fallback over navigate and recover. `outcomes` is history: the goal outcomes
      consumed since the leg was last entered. */
  datatype Leg = Leg(tries: nat, child: nat, nav: NavNode, recovery: RecoveryNode, outcomes: seq<bool>)

  /** The environment's answers during one tick: the clock and which action servers are ready
      when asked. */
  datatype Env = Env(now: real, chargerReady: bool, navReady: bool, spinReady: bool, backUpReady: bool)

  datatype NavTick = NavTick(status: NodeStatus, core: Core, node: NavNode)

  function NavStart(c: Core, n: NavNode, id: NavId, pose: Point, ready: bool): NavTick {
    if !ready then NavTick(Failure, c, n.(running := false))
    else
      NavTick(Running,
              Fire(c, NavStarted).(moving := true, goals := c.goals + [NavGoal(id, pose)]),
              NavNode(true, Some(NavState(|c.goals|, false, false, false, Unknown))))
  }

  /** Stop, cancel the goal if it was accepted and has no result, and let its record go. */
  function NavStop(c: Core, n: NavNode): Core {
    var halted := c.(moving := false);
    if n.state.Some? && n.state.value.accepted && !n.state.value.result
    then halted.(cancels := c.cancels + [n.state.value.goal])
    else halted
  }

  function NavRunning(c: Core, n: NavNode): NavTick {
    if c.fault then
      NavTick(Failure, Fire(NavStop(c.(fault := false), n), FaultInjected), NavNode(false, None))
    else
      match n.state
      case None => NavTick(Failure, c, n.(running := false))
      case Some(s) =>
        if !s.response then NavTick(Running, c, n)
        else if !s.accepted then NavTick(Failure, Fire(c.(moving := false), NavFailed), n.(running := false))
        else if !s.result then NavTick(Running, c, n)
        else if s.code.Succeeded? then NavTick(Success, Fire(c.(moving := false), NavSucceeded), n.(running := false))
        else NavTick(Failure, Fire(c.(moving := false), NavFailed), n.(running := false))
  }

  function NavTicked(c: Core, n: NavNode, id: NavId, pose: Point, ready: bool): NavTick {
    if n.running then NavRunning(c, n) else NavStart(c, n, id, pose, ready)
  }

  function NavHalt(c: Core, n: NavNode): (Core, NavNode) {
    if n.running then (NavStop(c, n), NavNode(false, None)) else (c, n)
  }

  datatype RecoveryTick = RecoveryTick(status: NodeStatus, core: Core, node: RecoveryNode)

  function StartSpin(c: Core, n: RecoveryNode, leg: NavId, ready: bool): (r: (Core, RecoveryNode)) {
    if !ready then (c, n.(spin := Some(RecovState(None, true, false))))
    else (c.(goals := c.goals + [SpinGoal(leg)]), n.(spin := Some(RecovState(Some(|c.goals|), false, false))))
  }

  function StartBackUp(c: Core, n: RecoveryNode, leg: NavId, ready: bool): (r: (Core, RecoveryNode)) {
    if !ready then (c, n.(backUp := Some(RecovState(None, true, false))))
    else (c.(goals := c.goals + [BackUpGoal(leg)]), n.(backUp := Some(RecovState(Some(|c.goals|), false, false))))
  }

  function RecoveryStart(c: Core, n: RecoveryNode, leg: NavId, env: Env): RecoveryTick {
    var (c', n') := StartSpin(Fire(c, NavFailed), n.(running := true, attempt := 0, phase := Spin), leg, env.spinReady);
    RecoveryTick(Running, c', n')
  }

  /** The record the present phase waits on. */
  function Awaited(n: RecoveryNode): Option<RecovState> {
    match n.phase
    case Spin => n.spin
    case BackUp => n.backUp
    case _ => None
  }

  /** The outcome the next tick of a running recovery will consume, if there is one. */
  function Consumes(n: RecoveryNode): seq<bool> {
    match Awaited(n)
    case Some(s) => if s.received then [s.success] else []
    case None => []
  }

  function RecoveryRunning(c: Core, n: RecoveryNode, leg: NavId, env: Env, maxAttempts: int): RecoveryTick {
    match n.phase
    case Done => RecoveryTick(Success, Fire(c, RecoveryDone), n.(running := false))
    case Failed => RecoveryTick(Failure, Fire(c, RecoveryFailed), n.(running := false))
    case _ =>
      var s := Awaited(n);
      if s.None? || !s.value.received then RecoveryTick(Running, c, n)
      else if s.value.success && n.phase.BackUp? then RecoveryTick(Running, c, n.(phase := Done))
      else if s.value.success then
        var (c', n') := StartBackUp(c, n.(phase := BackUp), leg, env.backUpReady);
        RecoveryTick(Running, c', n')
      else if n.attempt + 1 >= maxAttempts then
        RecoveryTick(Running, c, n.(attempt := n.attempt + 1, phase := Failed))
      else
        var (c', n') := StartSpin(c, n.(attempt := n.attempt + 1, phase := Spin), leg, env.spinReady);
        RecoveryTick(Running, c', n')
  }

  function RecoveryTicked(c: Core, n: RecoveryNode, leg: NavId, env: Env, maxAttempts: int): RecoveryTick {
    if n.running then RecoveryRunning(c, n, leg, env, maxAttempts) else RecoveryStart(c, n, leg, env)
  }

  function RecoveryHalt(n: RecoveryNode): RecoveryNode {
    if n.running then n.(running := false, spin := None, backUp := None) else n
  }

  /** Whatever waits first: the interrupted task, else the oldest pending one. */
  function NextTask(c: Core): Option<Task> {
    if c.interrupted.Some? then c.interrupted
    else if c.pending != [] then Some(c.pending[0])
    else None
  }

  function Popped(c: Core): Core {
    if c.interrupted.Some? then c.(interrupted := None)
    else if c.pending != [] then c.(pending := c.pending[1..])
    else c
  }

  /** The history once another task is written over the current one. */
  function Displaced(c: Core): seq<Finished> {
    if c.current.Some? then c.finished + [Overwritten(c.current.value)] else c.finished
  }

  /** The task becomes the current one, whether or not there was one already. */
  function Started(c: Core, t: Task, now: real): Core {
    Fire(c, TaskReceived).(
      current := Some(t),
      taskStart := now,
      pickPose := t.pick,
      dropPose := t.drop,
      finished := Displaced(c))
  }

  function TakeTask(c: Core, now: real): Core
    requires NextTask(c).Some?
  {
    Started(Popped(c), NextTask(c).value, now)
  }

  /** Without a current task the message goes out with empty ids. */
  function CompletionOf(c: Core, robotName: string, now: real): Completion {
    if c.current.Some? then Completion(c.current.value.id, robotName, now - c.taskStart)
    else Completion("", "", now - c.taskStart)
  }

  function Delivered(c: Core): seq<Finished> {
    if c.current.Some? then c.finished + [Reported(c.current.value)] else c.finished
  }

  function ReportTask(c: Core, robotName: string, now: real): Core {
    Fire(c, ReportSent).(
      current := None,
      completions := c.completions + [CompletionOf(c, robotName, now)],
      finished := Delivered(c))
  }

  function ChargeStart(c: Core): Core {
    Fire(c, LowBattery).(charging := true, moving := false)
  }

  function ChargeDone(c: Core): Core {
    Fire(c, BatteryFull).(charging := false, charges := c.charges + 1)
  }

  // ---------------------------------------------------------------------------
  // A leg: RetryUntilSuccessful over Fallback
  // ---------------------------------------------------------------------------

  datatype LegTick = LegTick(status: NodeStatus, core: Core, leg: Leg)

  function LegRunning(l: Leg): bool { l.nav.running || l.recovery.running }

  function LegRecovers(c: Core, l: Leg, id: NavId, env: Env, maxAttempts: int): LegTick {
    var r := RecoveryTicked(c, l.recovery, id, env, maxAttempts);
    var used := if l.recovery.running then Consumes(l.recovery) else [];
    LegTick(r.status, r.core, l.(recovery := r.node, outcomes := l.outcomes + used,
                                 child := if r.status.Running? then 1 else 0))
  }

  function FallbackTicked(c: Core, l: Leg, id: NavId, pose: Point, env: Env, maxAttempts: int): LegTick {
    if l.child == 0 then
      var n := NavTicked(c, l.nav, id, pose, env.navReady);
      match n.status
      case Running => LegTick(Running, n.core, l.(nav := n.node))
      case Success => LegTick(Success, n.core, l.(nav := n.node, outcomes := l.outcomes + [true]))
      case Failure =>
        LegRecovers(n.core, l.(nav := n.node, child := 1, outcomes := l.outcomes + [false]), id, env, maxAttempts)
    else LegRecovers(c, l, id, env, maxAttempts)
  }

  function RetryTicked(c: Core, l: Leg, id: NavId, pose: Point, env: Env, rounds: nat, maxAttempts: int): LegTick
    decreases rounds - l.tries
  {
    if l.tries >= rounds then LegTick(Failure, c, l.(tries := 0))
    else
      var f := FallbackTicked(c, l, id, pose, env, maxAttempts);
      match f.status
      case Running => f
      case Success => f.(leg := f.leg.(tries := 0))
      case Failure => RetryTicked(f.core, f.leg.(tries := l.tries + 1), id, pose, env, rounds, maxAttempts)
  }

  /** A leg entered afresh forgets the outcomes of the last time. */
  function Entered(l: Leg): Leg {
    if LegRunning(l) then l else l.(outcomes := [])
  }

  function LegTicked(c: Core, l: Leg, id: NavId, pose: Point, env: Env): LegTick {
    RetryTicked(c, Entered(l), id, pose, env, NAV_ROUNDS, RECOVERY_ATTEMPTS)
  }

  function LegHalt(c: Core, l: Leg): (r: (Core, Leg)) {
    var (c', n) := NavHalt(c, l.nav);
    (c', l.(tries := 0, child := 0, nav := n, recovery := RecoveryHalt(l.recovery)))
  }

  // ---------------------------------------------------------------------------
  // The whole agent
  // ---------------------------------------------------------------------------

  datatype Config = Config(robotName: string, charger: Point, pickSecs: real, dropSecs: real)

  /** The shared state and the tree's memory: which child each sequence resumes at, and which
      leaves are running. */
  datatype Agent = Agent(
    core: Core,
    chargeChild: nat,
    charger: NavNode,
    chargeRunning: bool,
    taskChild: nat,
    waiting: bool,
    pick: Leg,
    doPick: TimedNode,
    drop: Leg,
    doDrop: TimedNode)

  datatype Tick = Tick(status: NodeStatus, agent: Agent)

  /** Child `i` of `ChargeWhenLow`: the inverted battery check, the drive to the dock, the
      charge. */
  function ChargeChild(cfg: Config, a: Agent, i: nat, env: Env): Tick {
    match i
    case 0 => Tick(if Battery.IsLow(a.core.soc) then Success else Failure, a)
    case 1 =>
      var n := NavTicked(a.core, a.charger, ToCharger, cfg.charger, env.chargerReady);
      Tick(n.status, a.(core := n.core, charger := n.node))
    case _ =>
      if !a.chargeRunning then Tick(Running, a.(core := ChargeStart(a.core), chargeRunning := true))
      else if Battery.IsFull(a.core.soc) then Tick(Success, a.(core := ChargeDone(a.core), chargeRunning := false))
      else Tick(Running, a)
  }

  /** A sequence that ticks its children from `i` on and remembers the one that is running. */
  function ChargeFrom(cfg: Config, a: Agent, i: nat, env: Env): Tick
    decreases 3 - i
  {
    if i >= 3 then Tick(Success, a.(chargeChild := 0))
    else
      var t := ChargeChild(cfg, a, i, env);
      match t.status
      case Running => Tick(Running, t.agent.(chargeChild := i))
      case Failure => Tick(Failure, t.agent.(chargeChild := 0))
      case Success => ChargeFrom(cfg, t.agent, i + 1, env)
  }

  function TimedTicked(n: TimedNode, duration: real, now: real): (r: (NodeStatus, TimedNode)) {
    if !n.running then (Running, TimedNode(true, now, duration))
    else if now - n.start < n.duration then (Running, n)
    else (Success, n.(running := false))
  }

  /** Child `i` of `TaskExecution`. */
  function TaskChild(cfg: Config, a: Agent, i: nat, env: Env): Tick {
    match i
    case 0 =>
      if NextTask(a.core).None? then Tick(Running, a.(waiting := true))
      else Tick(Success, a.(core := TakeTask(a.core, env.now), waiting := false))
    case 1 =>
      var l := LegTicked(a.core, a.pick, ToPick, a.core.pickPose, env);
      Tick(l.status, a.(core := l.core, pick := l.leg))
    case 2 =>
      var (s, n) := TimedTicked(a.doPick, cfg.pickSecs, env.now);
      Tick(s, a.(doPick := n, core := if s.Success? then Fire(a.core, ExecutionDone) else a.core))
    case 3 =>
      var l := LegTicked(a.core, a.drop, ToDrop, a.core.dropPose, env);
      Tick(l.status, a.(core := l.core, drop := l.leg))
    case 4 =>
      var (s, n) := TimedTicked(a.doDrop, cfg.dropSecs, env.now);
      Tick(s, a.(doDrop := n))
    case _ => Tick(Success, a.(core := ReportTask(a.core, cfg.robotName, env.now)))
  }

  function TaskFrom(cfg: Config, a: Agent, i: nat, env: Env): Tick
    decreases 6 - i
  {
    if i >= 6 then Tick(Success, a.(taskChild := 0))
    else
      var t := TaskChild(cfg, a, i, env);
      match t.status
      case Running => Tick(Running, t.agent.(taskChild := i))
      case Failure => Tick(Failure, t.agent.(taskChild := 0))
      case Success => TaskFrom(cfg, t.agent, i + 1, env)
  }

  function SimpleHalt(a: Agent): Agent {
    a.(waiting := false, doPick := a.doPick.(running := false), doDrop := a.doDrop.(running := false))
  }

  function TaskHalt(a: Agent): Agent {
    var (c1, pick) := LegHalt(a.core, a.pick);
    var (c2, drop) := LegHalt(c1, a.drop);
    SimpleHalt(a.(core := c2, taskChild := 0, pick := pick, drop := drop))
  }

  /** The reactive root: the charge branch is asked first on every tick and, unless it fails,
      the task branch is halted. */
  function TreeTicked(cfg: Config, a: Agent, env: Env): Agent {
    var t := ChargeFrom(cfg, a, a.chargeChild, env);
    if t.status.Failure? then TaskFrom(cfg, t.agent, t.agent.taskChild, env).agent
    else TaskHalt(t.agent)
  }

  /** A new charge is read: when it is low, the current task is set aside. */
  function Charged(c: Core, soc: Battery.Soc, now: real): Core {
    var updated := c.(soc := soc, lastUpdate := now);
    if Battery.IsLow(soc) && c.current.Some? && c.interrupted.None?
    then updated.(interrupted := c.current, current := None)
    else updated
  }

  function BatteryUpdated(c: Core, now: real): Core {
    Charged(c, Battery.Updated(c.soc, now - c.lastUpdate, Battery.ModeOf(c.moving, c.charging)), now)
  }

  function StatusOf(c: Core, robotName: string, pose: Point): RobotStatus {
    RobotStatus(robotName, c.fsm, c.soc, if c.current.Some? then c.current.value.id else "", pose)
  }

  function Responded(n: NavNode, goal: nat, accepted: bool): NavNode {
    if n.state.Some? && n.state.value.goal == goal
    then n.(state := Some(n.state.value.(response := true, accepted := accepted)))
    else n
  }

  function Resulted(n: NavNode, goal: nat, code: ResultCode): NavNode {
    if n.state.Some? && n.state.value.goal == goal
    then n.(state := Some(n.state.value.(result := true, code := code)))
    else n
  }

  function Answered(s: Option<RecovState>, goal: nat, ok: bool): Option<RecovState> {
    if s.Some? && s.value.goal == Some(goal) then Some(s.value.(received := true, success := ok)) else s
  }

  /** Everything that can happen to one robot. Each is one atomic step. */
  datatype Event =
    | BtTick(env: Env)
    | BatteryTick(now: real)
    | TaskArrives(task: Task)
    | InjectFault(data: bool)
    | PublishStatus(pose: Point)
    | NavResponse(node: NavId, goal: nat, accepted: bool)
    | NavResult(node: NavId, goal: nat, code: ResultCode)
    | SpinResult(leg: NavId, goal: nat, ok: bool)
    | BackUpResult(leg: NavId, goal: nat, ok: bool)

  function NavOf(a: Agent, id: NavId): NavNode {
    match id
    case ToCharger => a.charger
    case ToPick => a.pick.nav
    case ToDrop => a.drop.nav
  }

  function WithNav(a: Agent, id: NavId, n: NavNode): Agent {
    match id
    case ToCharger => a.(charger := n)
    case ToPick => a.(pick := a.pick.(nav := n))
    case ToDrop => a.(drop := a.drop.(nav := n))
  }

  function RecoveryOf(a: Agent, id: NavId): RecoveryNode {
    if id.ToPick? then a.pick.recovery else a.drop.recovery
  }

  /** Only the two legs have a recovery. */
  function WithRecovery(a: Agent, id: NavId, n: RecoveryNode): Agent {
    match id
    case ToCharger => a
    case ToPick => a.(pick := a.pick.(recovery := n))
    case ToDrop => a.(drop := a.drop.(recovery := n))
  }

  function Step(cfg: Config, a: Agent, e: Event): Agent {
    match e
    case BtTick(env) => TreeTicked(cfg, a, env)
    case BatteryTick(now) => a.(core := BatteryUpdated(a.core, now))
    case TaskArrives(t) => a.(core := a.core.(pending := a.core.pending + [t], received := a.core.received + [t]))
    case InjectFault(data) => if data then a.(core := a.core.(fault := true)) else a
    case PublishStatus(pose) =>
      a.(core := a.core.(statuses := a.core.statuses + [StatusOf(a.core, cfg.robotName, pose)]))
    case NavResponse(id, goal, accepted) => WithNav(a, id, Responded(NavOf(a, id), goal, accepted))
    case NavResult(id, goal, code) => WithNav(a, id, Resulted(NavOf(a, id), goal, code))
    case SpinResult(id, goal, ok) =>
      var n := RecoveryOf(a, id);
      WithRecovery(a, id, n.(spin := Answered(n.spin, goal, ok)))
    case BackUpResult(id, goal, ok) =>
      var n := RecoveryOf(a, id);
      WithRecovery(a, id, n.(backUp := Answered(n.backUp, goal, ok)))
  }

  // ---------------------------------------------------------------------------
  // Runs
  // ---------------------------------------------------------------------------

  const IDLE_NAV := NavNode(false, None)
  const IDLE_LEG := Leg(0, 0, IDLE_NAV, RecoveryNode(false, Spin, 0, None, None), [])
  const IDLE_TIMED := TimedNode(false, 0.0, 0.0)

  function Initial(initialSoc: real, now: real): Agent {
    Agent(
      Core(Idle, Battery.Clamp(initialSoc), now, [], None, None, false, false, false, now,
           Point(0.0, 0.0), Point(0.0, 0.0), [], [], [], [], [], [], 0),
      0, IDLE_NAV, false, 0, false, IDLE_LEG, IDLE_TIMED, IDLE_LEG, IDLE_TIMED)
  }

  /** The state a run of events leads to. */
  function Run(cfg: Config, start: Agent, events: seq<Event>): Agent {
    if events == [] then start
    else Step(cfg, Run(cfg, start, events[..|events| - 1]), events[|events| - 1])
  }
}
