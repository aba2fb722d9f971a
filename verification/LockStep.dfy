/** Runs on which navigation works: every server is ready when asked, every goal still wanted is
    accepted and succeeds, and no fault is injected. The battery may run low at any moment and
    callbacks of goals no longer wanted may say anything. On these runs the tree, the lifecycle
    and the slots move in lock-step. */
module LockStep {
  import opened Fsm
  import opened AgentModel
  import opened Invariants
  import opened FlatTree
  import opened TaskFlow
  import Battery

  /** The callback speaks of the goal a running navigation waits for. */
  predicate Wanted(n: NavNode, goal: nat) {
    n.running && n.state.Some? && n.state.value.goal == goal
  }

  predicate GoodEvent(a: Agent, e: Event) {
    match e
    case BtTick(env) => env.chargerReady && env.navReady
    case InjectFault(data) => !data
    case NavResponse(id, goal, accepted) => Wanted(NavOf(a, id), goal) ==> accepted
    case NavResult(id, goal, code) => Wanted(NavOf(a, id), goal) ==> code.Succeeded?
    case _ => true
  }

  ghost predicate GoodRun(cfg: Config, start: Agent, events: seq<Event>) {
    forall k :: 0 <= k < |events| ==> GoodEvent(Run(cfg, start, events[..k]), events[k])
  }

  predicate GoodNav(n: NavNode) {
    n.running ==>
      && n.state.Some?
      && (n.state.value.response ==> n.state.value.accepted)
      && (n.state.value.result ==> n.state.value.code.Succeeded?)
  }

  predicate GoodLeg(l: Leg) {
    l.tries == 0 && l.child == 0 && !l.recovery.running && GoodNav(l.nav)
  }

  /** What the lifecycle shows for each place in the tree. */
  predicate Shows(a: Agent) {
    match a.chargeChild
    case 0 =>
      (match a.taskChild
       case 0 => a.core.fsm.Idle? && a.core.current.None?
       case 1 => a.core.fsm.Navigating?
       case 2 => a.core.fsm.Executing?
       case 3 => a.core.fsm.Navigating?
       case _ => a.core.fsm.Executing?)
    case 1 => (a.core.fsm.Idle? || a.core.fsm.Navigating? || a.core.fsm.Executing?) && a.core.current.None?
    case _ => a.core.fsm.Charging? && a.core.current.None?
  }

  predicate InStep(a: Agent) {
    && !a.core.fault
    && GoodNav(a.charger) && GoodLeg(a.pick) && GoodLeg(a.drop)
    && (Battery.IsLow(a.core.soc) ==> a.core.current.None?)
    && Shows(a)
  }

  /** A leg on which navigation works never fails and never needs recovery. */
  lemma GoodLegTicked(c: Core, l: Leg, id: NavId, pose: Point, env: Env)
    requires GoodLeg(l) && !c.fault && env.navReady
    ensures var t := LegTicked(c, l, id, pose, env);
            && !t.status.Failure? && GoodLeg(t.leg) && !t.core.fault
            && (if !l.nav.running then t.status.Running? && t.core.fsm == Next(c.fsm, NavStarted)
                else if t.status.Running? then t.core.fsm == c.fsm
                else t.core.fsm == Next(c.fsm, NavSucceeded))
  {
  }

  lemma GoodTask(cfg: Config, a: Agent, env: Env)
    requires Sound(a) && InStep(a) && a.chargeChild == 0 && !Battery.IsLow(a.core.soc)
    requires env.navReady
    ensures var t := TaskTicked(cfg, a, env);
            && !t.agent.core.fault && GoodLeg(t.agent.pick) && GoodLeg(t.agent.drop) && Shows(t.agent)
            && t.agent.charger == a.charger && t.agent.core.soc == a.core.soc
  {
    TaskTickedCore(cfg, a, env);
    if a.taskChild == 0 && NextTask(a.core).Some? {
      var b := a.(core := TakeTask(a.core, env.now), waiting := false);
      GoodLegTicked(b.core, b.pick, ToPick, b.core.pickPose, env);
    } else if a.taskChild == 1 {
      GoodLegTicked(a.core, a.pick, ToPick, a.core.pickPose, env);
    } else if a.taskChild == 2 {
      var b := a.(core := Fire(a.core, ExecutionDone), doPick := a.doPick.(running := false));
      GoodLegTicked(b.core, b.drop, ToDrop, b.core.dropPose, env);
    } else if a.taskChild == 3 {
      GoodLegTicked(a.core, a.drop, ToDrop, a.core.dropPose, env);
    }
  }

  /** A charge branch on which navigation works fails only when the battery is fine. */
  lemma GoodCharge(cfg: Config, a: Agent, env: Env)
    requires Sound(a) && InStep(a) && env.chargerReady
    ensures var t := ChargeTickedFlat(cfg, a, env);
            && (t.status.Failure? ==> t.agent == a && a.chargeChild == 0 && !Battery.IsLow(a.core.soc))
            && (!t.status.Failure? ==>
                  && !t.agent.core.fault && GoodNav(t.agent.charger)
                  && t.agent.core.current.None? && Shows(t.agent.(taskChild := 0)))
  {
  }

  lemma GoodTick(cfg: Config, a: Agent, env: Env)
    requires Sound(a) && InStep(a) && env.chargerReady && env.navReady
    ensures InStep(TreeTicked(cfg, a, env))
  {
    ChargeIsFlat(cfg, a, env);
    GoodCharge(cfg, a, env);
    var t := ChargeTickedFlat(cfg, a, env);
    if t.status.Failure? {
      TaskIsFlat(cfg, a, env);
      TaskTickedCore(cfg, a, env);
      GoodTask(cfg, a, env);
    } else {
      TaskHaltKeeps(t.agent);
    }
  }

  lemma GoodCallback(cfg: Config, a: Agent, e: Event)
    requires InStep(a) && GoodEvent(a, e) && ActionCallback(e)
    ensures var a' := Step(cfg, a, e);
            GoodNav(a'.charger) && GoodLeg(a'.pick) && GoodLeg(a'.drop)
  {
  }

  lemma GoodStep(cfg: Config, a: Agent, e: Event)
    requires Sound(a) && OneActive(a.core) && InStep(a) && GoodEvent(a, e)
    ensures InStep(Step(cfg, a, e))
  {
    if e.BtTick? {
      GoodTick(cfg, a, e.env);
    } else if ActionCallback(e) {
      CallbackKeeps(cfg, a, e);
      GoodCallback(cfg, a, e);
    }
  }

  /** No status that was published says IDLE together with a task. */
  predicate HonestStatuses(c: Core) {
    forall i :: 0 <= i < |c.statuses| ==> c.statuses[i].state.Idle? ==> c.statuses[i].taskId == ""
  }

  lemma GoodBefore(cfg: Config, start: Agent, events: seq<Event>)
    requires events != [] && GoodRun(cfg, start, events)
    ensures GoodRun(cfg, start, events[..|events| - 1])
    ensures GoodEvent(Run(cfg, start, events[..|events| - 1]), events[|events| - 1])
  {
    var before := events[..|events| - 1];
    forall k | 0 <= k < |before| ensures GoodEvent(Run(cfg, start, before[..k]), before[k]) {
      assert before[..k] == events[..k];
    }
  }

  predicate Steady(a: Agent) {
    Sound(a) && OneActive(a.core) && InStep(a) && HonestStatuses(a.core)
  }

  lemma StepSteady(cfg: Config, a: Agent, e: Event)
    requires Steady(a) && GoodEvent(a, e)
    ensures Steady(Step(cfg, a, e))
  {
    GoodStep(cfg, a, e);
    StepKeepsSound(cfg, a, e);
    StepRefines(cfg, a, e);
    StepKeepsBooks(cfg, a, e);
  }

  lemma {:induction false} AlwaysInStep(cfg: Config, initialSoc: real, now: real, events: seq<Event>)
    requires GoodRun(cfg, Initial(initialSoc, now), events)
    ensures Steady(Run(cfg, Initial(initialSoc, now), events))
  {
    if events != [] {
      GoodBefore(cfg, Initial(initialSoc, now), events);
      AlwaysInStep(cfg, initialSoc, now, events[..|events| - 1]);
      StepSteady(cfg, Run(cfg, Initial(initialSoc, now), events[..|events| - 1]), events[|events| - 1]);
    }
  }

  /** Lock-step: on every run on which navigation works, what the robot shows is what it does;
      recovery never runs; and IDLE is never shown, nor was it ever published, while a task is
      current. */
  lemma TreeAndLifecycleAgree(cfg: Config, initialSoc: real, now: real, events: seq<Event>)
    requires GoodRun(cfg, Initial(initialSoc, now), events)
    ensures var a := Run(cfg, Initial(initialSoc, now), events);
            && (a.waiting ==> a.core.fsm.Idle?)
            && (a.pick.nav.running || a.drop.nav.running ==> a.core.fsm.Navigating?)
            && (a.doPick.running || a.doDrop.running ==> a.core.fsm.Executing?)
            && (a.chargeRunning <==> a.core.fsm.Charging?)
            && !a.pick.recovery.running && !a.drop.recovery.running
            && (a.core.fsm.Idle? ==> a.core.current.None?)
            && HonestStatuses(a.core)
  {
    AlwaysInStep(cfg, initialSoc, now, events);
  }
}
