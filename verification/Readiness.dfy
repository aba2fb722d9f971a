/** A goal is sent only to a server that is ready for it. */
module Readiness {
  import opened Fsm
  import opened AgentModel
  import opened Invariants
  import opened FlatTree
  import opened TaskFlow

  /** The server the goal is for is ready. */
  predicate MayBeSent(env: Env, g: Goal) {
    match g
    case NavGoal(node, _) => if node.ToCharger? then env.chargerReady else env.navReady
    case SpinGoal(_) => env.spinReady
    case BackUpGoal(_) => env.backUpReady
  }

  predicate OnlyReady(env: Env, goals: seq<Goal>, goals': seq<Goal>) {
    goals <= goals' && forall k :: |goals| <= k < |goals'| ==> MayBeSent(env, goals'[k])
  }

  lemma ReadyOn(env: Env, g1: seq<Goal>, g2: seq<Goal>, g3: seq<Goal>)
    requires OnlyReady(env, g1, g2) && OnlyReady(env, g2, g3)
    ensures OnlyReady(env, g1, g3)
  {
    assert forall k :: 0 <= k < |g2| ==> g3[k] == g2[k];
  }

  lemma SpinReady(env: Env, c: Core, n: RecoveryNode, leg: NavId)
    ensures OnlyReady(env, c.goals, StartSpin(c, n, leg, env.spinReady).0.goals)
  {
  }

  lemma BackUpReady(env: Env, c: Core, n: RecoveryNode, leg: NavId)
    ensures OnlyReady(env, c.goals, StartBackUp(c, n, leg, env.backUpReady).0.goals)
  {
  }

  lemma RunningReady(c: Core, n: RecoveryNode, leg: NavId, env: Env, maxAttempts: int)
    ensures OnlyReady(env, c.goals, RecoveryRunning(c, n, leg, env, maxAttempts).core.goals)
  {
    SpinReady(env, c, n.(attempt := n.attempt + 1, phase := Spin), leg);
    BackUpReady(env, c, n.(phase := BackUp), leg);
  }

  lemma RecoveryReady(c: Core, n: RecoveryNode, leg: NavId, env: Env, maxAttempts: int)
    ensures OnlyReady(env, c.goals, RecoveryTicked(c, n, leg, env, maxAttempts).core.goals)
  {
    if n.running {
      RunningReady(c, n, leg, env, maxAttempts);
    } else {
      SpinReady(env, Fire(c, NavFailed), n.(running := true, attempt := 0, phase := Spin), leg);
    }
  }

  lemma FallbackReady(c: Core, l: Leg, id: NavId, pose: Point, env: Env, maxAttempts: int)
    requires !id.ToCharger?
    ensures OnlyReady(env, c.goals, FallbackTicked(c, l, id, pose, env, maxAttempts).core.goals)
  {
    if l.child == 0 {
      var n := NavTicked(c, l.nav, id, pose, env.navReady);
      assert OnlyReady(env, c.goals, n.core.goals);
      RecoveryReady(n.core, l.recovery, id, env, maxAttempts);
      ReadyOn(env, c.goals, n.core.goals, FallbackTicked(c, l, id, pose, env, maxAttempts).core.goals);
    } else {
      RecoveryReady(c, l.recovery, id, env, maxAttempts);
    }
  }

  lemma {:induction false} RetryReady(c: Core, l: Leg, id: NavId, pose: Point, env: Env, rounds: nat, maxAttempts: int)
    requires !id.ToCharger?
    ensures OnlyReady(env, c.goals, RetryTicked(c, l, id, pose, env, rounds, maxAttempts).core.goals)
    decreases rounds - l.tries
  {
    if l.tries < rounds {
      var f := FallbackTicked(c, l, id, pose, env, maxAttempts);
      FallbackReady(c, l, id, pose, env, maxAttempts);
      if f.status.Failure? {
        var again := f.leg.(tries := l.tries + 1);
        RetryReady(f.core, again, id, pose, env, rounds, maxAttempts);
        ReadyOn(env, c.goals, f.core.goals, RetryTicked(f.core, again, id, pose, env, rounds, maxAttempts).core.goals);
      }
    }
  }

  lemma TaskReady(cfg: Config, a: Agent, env: Env)
    requires TaskShape(a)
    ensures OnlyReady(env, a.core.goals, TaskTicked(cfg, a, env).agent.core.goals)
  {
    if a.taskChild == 0 && NextTask(a.core).Some? {
      var b := a.(core := TakeTask(a.core, env.now), waiting := false);
      RetryReady(b.core, Entered(b.pick), ToPick, b.core.pickPose, env, NAV_ROUNDS, RECOVERY_ATTEMPTS);
    } else if a.taskChild == 1 {
      RetryReady(a.core, Entered(a.pick), ToPick, a.core.pickPose, env, NAV_ROUNDS, RECOVERY_ATTEMPTS);
    } else if a.taskChild == 2 {
      var b := a.(core := Fire(a.core, ExecutionDone), doPick := a.doPick.(running := false));
      RetryReady(b.core, Entered(b.drop), ToDrop, b.core.dropPose, env, NAV_ROUNDS, RECOVERY_ATTEMPTS);
    } else if a.taskChild == 3 {
      RetryReady(a.core, Entered(a.drop), ToDrop, a.core.dropPose, env, NAV_ROUNDS, RECOVERY_ATTEMPTS);
    }
  }

  lemma ChargeReady(cfg: Config, a: Agent, env: Env)
    requires Sound(a)
    ensures OnlyReady(env, a.core.goals, ChargeFrom(cfg, a, a.chargeChild, env).agent.core.goals)
  {
    ChargeIsFlat(cfg, a, env);
  }

  lemma HaltSendsNothing(a: Agent)
    ensures TaskHalt(a).core.goals == a.core.goals
  {
    var (c1, _) := LegHalt(a.core, a.pick);
    assert c1.goals == a.core.goals;
  }

  lemma TickReady(cfg: Config, a: Agent, env: Env)
    requires Sound(a)
    ensures OnlyReady(env, a.core.goals, TreeTicked(cfg, a, env).core.goals)
  {
    ChargeTicked(cfg, a, env);
    ChargeReady(cfg, a, env);
    var t := ChargeFrom(cfg, a, a.chargeChild, env);
    if t.status.Failure? {
      TaskIsFlat(cfg, t.agent, env);
      TaskReady(cfg, t.agent, env);
      ReadyOn(env, a.core.goals, t.agent.core.goals, TaskTicked(cfg, t.agent, env).agent.core.goals);
    } else {
      HaltSendsNothing(t.agent);
    }
  }

  /** After any run, whatever the servers answer: a tick sends a goal only to a server that is ready. */
  lemma GoalsGoToReadyServers(cfg: Config, initialSoc: real, now: real, events: seq<Event>, env: Env)
    ensures var a := Run(cfg, Initial(initialSoc, now), events);
            OnlyReady(env, a.core.goals, TreeTicked(cfg, a, env).core.goals)
  {
    AlwaysSound(cfg, initialSoc, now, events);
    TickReady(cfg, Run(cfg, Initial(initialSoc, now), events), env);
  }
}
