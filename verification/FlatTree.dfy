/** The tree flattened: in the states that occur, one tick of a sequence ends at the child that
    was running or at the next one, because every later child takes at least one more tick. */
module FlatTree {
  import opened Fsm
  import opened AgentModel
  import opened Invariants
  import Battery

  predicate TimeUp(n: TimedNode, now: real) { now - n.start >= n.duration }

  function OnPickLeg(a: Agent, env: Env): Agent {
    var l := LegTicked(a.core, a.pick, ToPick, a.core.pickPose, env);
    a.(core := l.core, pick := l.leg, taskChild := 1)
  }

  function OnDropLeg(a: Agent, env: Env): Agent {
    var l := LegTicked(a.core, a.drop, ToDrop, a.core.dropPose, env);
    a.(core := l.core, drop := l.leg, taskChild := 3)
  }

  /** One tick of `TaskExecution`, by the child that was running. */
  function TaskTicked(cfg: Config, a: Agent, env: Env): Tick {
    match a.taskChild
    case 0 =>
      if NextTask(a.core).None? then Tick(Running, a.(waiting := true))
      else Tick(Running, OnPickLeg(a.(core := TakeTask(a.core, env.now), waiting := false), env))
    case 1 =>
      var b := OnPickLeg(a, env);
      (match LegTicked(a.core, a.pick, ToPick, a.core.pickPose, env).status
       case Running => Tick(Running, b)
       case Failure => Tick(Failure, b.(taskChild := 0))
       case Success => Tick(Running, b.(taskChild := 2, doPick := TimedNode(true, env.now, cfg.pickSecs))))
    case 2 =>
      if !TimeUp(a.doPick, env.now) then Tick(Running, a)
      else
        Tick(Running, OnDropLeg(a.(core := Fire(a.core, ExecutionDone), doPick := a.doPick.(running := false)), env))
    case 3 =>
      var b := OnDropLeg(a, env);
      (match LegTicked(a.core, a.drop, ToDrop, a.core.dropPose, env).status
       case Running => Tick(Running, b)
       case Failure => Tick(Failure, b.(taskChild := 0))
       case Success => Tick(Running, b.(taskChild := 4, doDrop := TimedNode(true, env.now, cfg.dropSecs))))
    case _ =>
      if !TimeUp(a.doDrop, env.now) then Tick(Running, a)
      else
        Tick(Success, a.(core := ReportTask(a.core, cfg.robotName, env.now), doDrop := a.doDrop.(running := false),
                         taskChild := 0))
  }

  /** A leg entered afresh never ends in the tick that enters it. */
  lemma FreshLegRuns(c: Core, l: Leg, id: NavId, pose: Point, env: Env)
    requires LegAsleep(l)
    ensures LegTicked(c, l, id, pose, env).status.Running?
  {
  }

  /** The sequence that loops over its children and the flattened table are the same. */
  lemma TaskIsFlat(cfg: Config, a: Agent, env: Env)
    requires TaskShape(a)
    ensures TaskFrom(cfg, a, a.taskChild, env) == TaskTicked(cfg, a, env)
  {
  }

  function OnCharger(cfg: Config, a: Agent, env: Env): Agent {
    var n := NavTicked(a.core, a.charger, ToCharger, cfg.charger, env.chargerReady);
    a.(core := n.core, charger := n.node, chargeChild := if n.status.Running? then 1 else 0)
  }

  /** One tick of `ChargeWhenLow`, by the child that was running. */
  function ChargeTickedFlat(cfg: Config, a: Agent, env: Env): Tick {
    match a.chargeChild
    case 0 =>
      if !Battery.IsLow(a.core.soc) then Tick(Failure, a)
      else Tick(if env.chargerReady then Running else Failure, OnCharger(cfg, a, env))
    case 1 =>
      var b := OnCharger(cfg, a, env);
      (match NavTicked(a.core, a.charger, ToCharger, cfg.charger, env.chargerReady).status
       case Running => Tick(Running, b)
       case Failure => Tick(Failure, b)
       case Success => Tick(Running, b.(core := ChargeStart(b.core), chargeChild := 2, chargeRunning := true)))
    case _ =>
      if Battery.IsFull(a.core.soc)
      then Tick(Success, a.(core := ChargeDone(a.core), chargeRunning := false, chargeChild := 0))
      else Tick(Running, a)
  }

  lemma ChargeIsFlat(cfg: Config, a: Agent, env: Env)
    requires ChargeShape(a)
    ensures ChargeFrom(cfg, a, a.chargeChild, env) == ChargeTickedFlat(cfg, a, env)
  {
  }
}
