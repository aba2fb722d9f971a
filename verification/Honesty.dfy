/** When a robot shows IDLE although a task is current, and when it never does. */
module Honesty {
  import opened Fsm
  import opened AgentModel
  import opened Invariants
  import opened FlatTree
  import opened TaskFlow
  import opened LockStep
  import opened Motion
  import Battery

  predicate IdleWithTask(a: Agent) { a.core.fsm.Idle? && a.core.current.Some? }

  /** The leg's recovery has given up and the lifecycle follows it to IDLE. */
  predicate RecoveryGivesUp(fsm: RobotState, l: Leg) {
    fsm.Recovering? && l.recovery.running && l.recovery.phase.Failed?
  }

  /** The tick that leaves a current task behind with an idle look: a recovery gives up under the
      task branch, or a charge ends that never set the task aside. */
  predicate LooksIdle(cfg: Config, a: Agent, e: Event) {
    && e.BtTick? && a.core.current.Some?
    && (|| (a.chargeRunning && Battery.IsFull(a.core.soc))
        || (TicksTasks(cfg, a, e.env) && (RecoveryGivesUp(a.core.fsm, a.pick) || RecoveryGivesUp(a.core.fsm, a.drop))))
  }

  /** Starting a leg afresh neither enters IDLE nor leaves it. */
  lemma FreshLegKeepsIdle(c: Core, l: Leg, id: NavId, pose: Point, env: Env, maxAttempts: int)
    requires !LegRunning(l) && l.child == 0 && l.tries <= NAV_ROUNDS
    ensures RetryTicked(c, l, id, pose, env, NAV_ROUNDS, maxAttempts).core.fsm.Idle? <==> c.fsm.Idle?
  {
  }

  lemma RecoveryEntersIdle(c: Core, n: RecoveryNode, leg: NavId, env: Env, maxAttempts: int)
    requires !c.fsm.Idle?
    ensures RecoveryTicked(c, n, leg, env, maxAttempts).core.fsm.Idle?
            <==> c.fsm.Recovering? && n.running && n.phase.Failed?
  {
    if !n.running {
      StartedGoalKeeps(Fire(c, NavFailed), n.(running := true, attempt := 0, phase := Spin), leg, env.spinReady);
    } else if n.phase.Spin? || n.phase.BackUp? {
      StartedGoalKeeps(c, n.(phase := BackUp), leg, env.backUpReady);
      StartedGoalKeeps(c, n.(attempt := n.attempt + 1, phase := Spin), leg, env.spinReady);
    }
  }

  lemma FallbackEntersIdle(c: Core, l: Leg, id: NavId, pose: Point, env: Env, maxAttempts: int)
    requires LegAwake(l) && !c.fsm.Idle?
    ensures var f := FallbackTicked(c, l, id, pose, env, maxAttempts);
            && (f.core.fsm.Idle? <==> RecoveryGivesUp(c.fsm, l))
            && (f.status.Failure? ==> !LegRunning(f.leg) && f.leg.child == 0)
  {
    if l.child == 0 {
      var n := NavTicked(c, l.nav, id, pose, env.navReady);
      assert !n.core.fsm.Idle?;
      RecoveryEntersIdle(n.core, l.recovery, id, env, maxAttempts);
      RecoveryTickedKeeps(n.core, l.recovery, id, env, maxAttempts);
    } else {
      RecoveryEntersIdle(c, l.recovery, id, env, maxAttempts);
      RecoveryTickedKeeps(c, l.recovery, id, env, maxAttempts);
    }
  }

  lemma LegEntersIdle(c: Core, l: Leg, id: NavId, pose: Point, env: Env)
    requires (LegAwake(l) || LegAsleep(l)) && !c.fsm.Idle?
    ensures LegTicked(c, l, id, pose, env).core.fsm.Idle? <==> RecoveryGivesUp(c.fsm, l)
  {
    if LegAsleep(l) {
      FreshLegKeepsIdle(c, Entered(l), id, pose, env, RECOVERY_ATTEMPTS);
    } else {
      FallbackEntersIdle(c, l, id, pose, env, RECOVERY_ATTEMPTS);
      var f := FallbackTicked(c, l, id, pose, env, RECOVERY_ATTEMPTS);
      if f.status.Failure? {
        FreshLegKeepsIdle(f.core, f.leg.(tries := l.tries + 1), id, pose, env, RECOVERY_ATTEMPTS);
      }
    }
  }

  lemma TaskEntersIdle(cfg: Config, a: Agent, env: Env)
    requires TaskShape(a) && !IdleWithTask(a)
    ensures IdleWithTask(TaskTicked(cfg, a, env).agent) <==>
            a.core.current.Some? && (RecoveryGivesUp(a.core.fsm, a.pick) || RecoveryGivesUp(a.core.fsm, a.drop))
  {
    TaskTickedCore(cfg, a, env);
    if a.taskChild == 0 && NextTask(a.core).Some? {
      var b := a.(core := TakeTask(a.core, env.now), waiting := false);
      LegEntersIdle(b.core, b.pick, ToPick, b.core.pickPose, env);
    } else if a.taskChild == 1 && a.core.current.Some? {
      LegEntersIdle(a.core, a.pick, ToPick, a.core.pickPose, env);
    } else if a.taskChild == 2 && a.core.current.Some? {
      var b := a.(core := Fire(a.core, ExecutionDone), doPick := a.doPick.(running := false));
      LegEntersIdle(b.core, b.drop, ToDrop, b.core.dropPose, env);
    } else if a.taskChild == 3 && a.core.current.Some? {
      LegEntersIdle(a.core, a.drop, ToDrop, a.core.dropPose, env);
    }
  }

  lemma ChargeEntersIdle(cfg: Config, a: Agent, env: Env)
    requires Sound(a) && !IdleWithTask(a)
    ensures var t := ChargeFrom(cfg, a, a.chargeChild, env);
            && t.agent.core.current == a.core.current
            && (IdleWithTask(t.agent) <==> a.core.current.Some? && a.chargeRunning && Battery.IsFull(a.core.soc))
            && (t.status.Failure? ==> !a.chargeRunning && (RecoveryRuns(a) ==> t.agent.core.fsm == a.core.fsm))
  {
    ChargeIsFlat(cfg, a, env);
  }

  lemma TickEntersIdle(cfg: Config, a: Agent, env: Env)
    requires Sound(a) && !IdleWithTask(a)
    ensures IdleWithTask(TreeTicked(cfg, a, env)) <==> LooksIdle(cfg, a, BtTick(env))
  {
    ChargeTicked(cfg, a, env);
    ChargeEntersIdle(cfg, a, env);
    var t := ChargeFrom(cfg, a, a.chargeChild, env);
    if t.status.Failure? {
      TaskIsFlat(cfg, t.agent, env);
      TaskEntersIdle(cfg, t.agent, env);
    } else {
      TaskHaltKeeps(t.agent);
    }
  }

  lemma StepEntersIdle(cfg: Config, a: Agent, e: Event)
    requires Sound(a) && !IdleWithTask(a)
    ensures IdleWithTask(Step(cfg, a, e)) <==> LooksIdle(cfg, a, e)
  {
    if e.BtTick? {
      TickEntersIdle(cfg, a, e.env);
    } else if ActionCallback(e) {
      CallbackKeeps(cfg, a, e);
    }
  }

  predicate LooksIdleAt(cfg: Config, start: Agent, events: seq<Event>, k: nat) {
    k < |events| && LooksIdle(cfg, Run(cfg, start, events[..k]), events[k])
  }

  /** No tick of the run meets the guard. */
  ghost predicate GuardFree(cfg: Config, start: Agent, events: seq<Event>) {
    forall k: nat :: !LooksIdleAt(cfg, start, events, k)
  }

  /** A state of the run, after its first `k` events, shows IDLE with a task. */
  predicate IdleAt(cfg: Config, start: Agent, events: seq<Event>, k: nat) {
    k <= |events| && IdleWithTask(Run(cfg, start, events[..k]))
  }

  lemma NextEntersIdle(cfg: Config, initialSoc: real, now: real, events: seq<Event>, k: nat)
    requires k < |events| && !IdleAt(cfg, Initial(initialSoc, now), events, k)
    ensures var start := Initial(initialSoc, now);
            IdleAt(cfg, start, events, k + 1) <==> LooksIdleAt(cfg, start, events, k)
  {
    AlwaysSound(cfg, initialSoc, now, events[..k]);
    StepEntersIdle(cfg, Run(cfg, Initial(initialSoc, now), events[..k]), events[k]);
    assert events[..k + 1][..k] == events[..k];
  }

  lemma {:induction false} NeverIdleUpTo(cfg: Config, initialSoc: real, now: real, events: seq<Event>, n: nat)
    requires n <= |events|
    requires forall k: nat :: k < n ==> !LooksIdleAt(cfg, Initial(initialSoc, now), events, k)
    ensures forall k: nat :: k <= n ==> !IdleAt(cfg, Initial(initialSoc, now), events, k)
  {
    if n > 0 {
      NeverIdleUpTo(cfg, initialSoc, now, events, n - 1);
      NextEntersIdle(cfg, initialSoc, now, events, n - 1);
    } else {
      assert events[..0] == [];
    }
  }

  /** On every run: no state shows IDLE with a task if and only if no tick meets the guard, that
      is, no recovery gives up under a current task and no charge ends with one. */
  lemma NeverIdleIff(cfg: Config, initialSoc: real, now: real, events: seq<Event>)
    ensures var start := Initial(initialSoc, now);
            (forall k: nat :: !IdleAt(cfg, start, events, k)) <==> GuardFree(cfg, start, events)
  {
    var start := Initial(initialSoc, now);
    if forall k: nat :: !IdleAt(cfg, start, events, k) {
      forall k: nat ensures !LooksIdleAt(cfg, start, events, k) {
        if k < |events| {
          NextEntersIdle(cfg, initialSoc, now, events, k);
        }
      }
    } else if GuardFree(cfg, start, events) {
      NeverIdleUpTo(cfg, initialSoc, now, events, |events|);
    }
  }

  lemma PublishesHonestly(cfg: Config, a: Agent, e: Event)
    requires Sound(a) && !IdleWithTask(a) && HonestStatuses(a.core)
    ensures HonestStatuses(Step(cfg, a, e).core)
  {
    StepKeepsBooks(cfg, a, e);
  }

  lemma GuardFreePrefix(cfg: Config, start: Agent, events: seq<Event>)
    requires events != [] && GuardFree(cfg, start, events)
    ensures GuardFree(cfg, start, events[..|events| - 1])
  {
    var before := events[..|events| - 1];
    forall k: nat ensures !LooksIdleAt(cfg, start, before, k) {
      if k < |before| {
        assert before[..k] == events[..k];
        assert !LooksIdleAt(cfg, start, events, k);
      }
    }
  }

  lemma NotIdleNow(cfg: Config, initialSoc: real, now: real, events: seq<Event>)
    requires GuardFree(cfg, Initial(initialSoc, now), events)
    ensures !IdleWithTask(Run(cfg, Initial(initialSoc, now), events))
  {
    NeverIdleUpTo(cfg, initialSoc, now, events, |events|);
    assert events[..|events|] == events;
    assert !IdleAt(cfg, Initial(initialSoc, now), events, |events|);
  }

  /** Such a run never published it either. */
  lemma {:induction false} NeverIdleIsPublished(cfg: Config, initialSoc: real, now: real, events: seq<Event>)
    requires GuardFree(cfg, Initial(initialSoc, now), events)
    ensures HonestStatuses(Run(cfg, Initial(initialSoc, now), events).core)
  {
    if events != [] {
      var before := events[..|events| - 1];
      GuardFreePrefix(cfg, Initial(initialSoc, now), events);
      NeverIdleIsPublished(cfg, initialSoc, now, before);
      NotIdleNow(cfg, initialSoc, now, before);
      AlwaysSound(cfg, initialSoc, now, before);
      PublishesHonestly(cfg, Run(cfg, Initial(initialSoc, now), before), events[|events| - 1]);
    }
  }

  // ---------------------------------------------------------------------------
  // What a status says
  // ---------------------------------------------------------------------------

  /** One message for every publication: the robot's name, and the lifecycle, the charge and the current
      task of its moment, with the place it was given. */
  function Shown(cfg: Config, start: Agent, events: seq<Event>): seq<RobotStatus> {
    if events == [] then []
    else
      var before, last := events[..|events| - 1], events[|events| - 1];
      var c := Run(cfg, start, before).core;
      Shown(cfg, start, before)
      + if !last.PublishStatus? then []
        else [RobotStatus(cfg.robotName, c.fsm, c.soc, if c.current.Some? then c.current.value.id else "", last.pose)]
  }

  /** On every run the statuses published are exactly these. */
  lemma {:induction false} ShownExactly(cfg: Config, initialSoc: real, now: real, events: seq<Event>)
    ensures var start := Initial(initialSoc, now);
            Run(cfg, start, events).core.statuses == Shown(cfg, start, events)
  {
    if events != [] {
      var before := events[..|events| - 1];
      ShownExactly(cfg, initialSoc, now, before);
      AlwaysSound(cfg, initialSoc, now, before);
      StepKeepsBooks(cfg, Run(cfg, Initial(initialSoc, now), before), events[|events| - 1]);
    }
  }
}
