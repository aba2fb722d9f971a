/** An injected fault breaks off one navigation, and is used up by it. */
module Faults {
  import opened Fsm
  import opened AgentModel
  import opened Invariants
  import opened FlatTree
  import opened TaskFlow
  import opened Motion
  import Charging

  lemma NavUsesFault(c: Core, n: NavNode, id: NavId, pose: Point, ready: bool)
    ensures NavTicked(c, n, id, pose, ready).core.fault <==> c.fault && !n.running
  {
  }

  lemma RecoveryLeavesFault(c: Core, n: RecoveryNode, leg: NavId, env: Env, maxAttempts: int)
    ensures RecoveryTicked(c, n, leg, env, maxAttempts).core.fault == c.fault
  {
    if n.running {
      RecoveryRunningKeeps(c, n, leg, env, maxAttempts);
    } else {
      StartedGoalKeeps(Fire(c, NavFailed), n.(running := true, attempt := 0, phase := Spin), leg, env.spinReady);
    }
  }

  lemma FallbackUsesFault(c: Core, l: Leg, id: NavId, pose: Point, env: Env, maxAttempts: int)
    requires LegTickable(l)
    ensures FallbackTicked(c, l, id, pose, env, maxAttempts).core.fault <==> c.fault && !l.nav.running
  {
    if l.child == 0 {
      var n := NavTicked(c, l.nav, id, pose, env.navReady);
      NavUsesFault(c, l.nav, id, pose, env.navReady);
      RecoveryLeavesFault(n.core, l.recovery, id, env, maxAttempts);
    } else {
      RecoveryLeavesFault(c, l.recovery, id, env, maxAttempts);
    }
  }

  lemma {:induction false} RetryUsesFault(c: Core, l: Leg, id: NavId, pose: Point, env: Env, maxAttempts: int)
    requires LegTickable(l)
    requires l.tries >= NAV_ROUNDS ==> !l.nav.running
    ensures RetryTicked(c, l, id, pose, env, NAV_ROUNDS, maxAttempts).core.fault <==> c.fault && !l.nav.running
    decreases NAV_ROUNDS - l.tries
  {
    if l.tries < NAV_ROUNDS {
      FallbackUsesFault(c, l, id, pose, env, maxAttempts);
      FallbackTickedKeeps(c, l, id, pose, env, maxAttempts);
      var f := FallbackTicked(c, l, id, pose, env, maxAttempts);
      if f.status.Failure? {
        RetryUsesFault(f.core, f.leg.(tries := l.tries + 1), id, pose, env, maxAttempts);
      }
    }
  }

  lemma LegUsesFault(c: Core, l: Leg, id: NavId, pose: Point, env: Env)
    requires LegAwake(l) || LegAsleep(l)
    ensures LegTicked(c, l, id, pose, env).core.fault <==> c.fault && !l.nav.running
  {
    RetryUsesFault(c, Entered(l), id, pose, env, RECOVERY_ATTEMPTS);
  }

  lemma TaskUsesFault(cfg: Config, a: Agent, env: Env)
    requires TaskShape(a)
    ensures TaskTicked(cfg, a, env).agent.core.fault <==> a.core.fault && !LegNavRuns(a)
  {
    if a.taskChild == 0 && NextTask(a.core).Some? {
      var b := a.(core := TakeTask(a.core, env.now), waiting := false);
      LegUsesFault(b.core, b.pick, ToPick, b.core.pickPose, env);
    } else if a.taskChild == 1 {
      LegUsesFault(a.core, a.pick, ToPick, a.core.pickPose, env);
    } else if a.taskChild == 2 {
      var b := a.(core := Fire(a.core, ExecutionDone), doPick := a.doPick.(running := false));
      LegUsesFault(b.core, b.drop, ToDrop, b.core.dropPose, env);
    } else if a.taskChild == 3 {
      LegUsesFault(a.core, a.drop, ToDrop, a.core.dropPose, env);
    }
  }

  /** The tick continues a running navigation. */
  predicate Continues(cfg: Config, a: Agent, e: Event) {
    e.BtTick? && (a.charger.running || (LegNavRuns(a) && TicksTasks(cfg, a, e.env)))
  }

  lemma ChargeUsesFault(cfg: Config, a: Agent, env: Env)
    requires Sound(a)
    ensures ChargeFrom(cfg, a, a.chargeChild, env).agent.core.fault <==> a.core.fault && !a.charger.running
  {
    ChargeIsFlat(cfg, a, env);
    NavUsesFault(a.core, a.charger, ToCharger, cfg.charger, env.chargerReady);
  }

  lemma HaltLeavesFault(a: Agent)
    ensures TaskHalt(a).core.fault == a.core.fault
  {
  }

  lemma TickUsesFault(cfg: Config, a: Agent, env: Env)
    requires Sound(a)
    ensures TreeTicked(cfg, a, env).core.fault <==> a.core.fault && !Continues(cfg, a, BtTick(env))
  {
    ChargeTicked(cfg, a, env);
    ChargeUsesFault(cfg, a, env);
    var t := ChargeFrom(cfg, a, a.chargeChild, env);
    if t.status.Failure? {
      TaskIsFlat(cfg, t.agent, env);
      TaskUsesFault(cfg, t.agent, env);
    } else {
      HaltLeavesFault(t.agent);
    }
  }

  /** The fault flag is up after a step if and only if the step injects a fault, or it was up and the
      step continues no navigation. */
  lemma FaultStep(cfg: Config, a: Agent, e: Event)
    requires Sound(a)
    ensures Step(cfg, a, e).core.fault <==> (e.InjectFault? && e.data) || (a.core.fault && !Continues(cfg, a, e))
  {
    if e.BtTick? {
      TickUsesFault(cfg, a, e.env);
    } else if ActionCallback(e) {
      CallbackKeeps(cfg, a, e);
    }
  }

  // ---------------------------------------------------------------------------
  // Over runs
  // ---------------------------------------------------------------------------

  /** The steps of a run at which a fault breaks a navigation off. */
  function Breaks(cfg: Config, start: Agent, events: seq<Event>): nat {
    if events == [] then 0
    else
      var before, last := events[..|events| - 1], events[|events| - 1];
      var a := Run(cfg, start, before);
      Breaks(cfg, start, before) + if a.core.fault && Continues(cfg, a, last) then 1 else 0
  }

  function Injected(events: seq<Event>): nat {
    if events == [] then 0
    else
      var last := events[|events| - 1];
      Injected(events[..|events| - 1]) + if last.InjectFault? && last.data then 1 else 0
  }

  function Pending(a: Agent): nat { if a.core.fault then 1 else 0 }

  /** From any sound state: the navigations broken off by faults, and the fault still pending, are at
      most the faults injected and the one pending at first. So without an injection in between at most
      one navigation is broken off, and a run from the start breaks off at most one for each. */
  lemma {:induction false} OneFaultOneBreak(cfg: Config, a: Agent, events: seq<Event>)
    requires Sound(a)
    ensures Breaks(cfg, a, events) + Pending(Run(cfg, a, events)) <= Pending(a) + Injected(events)
  {
    if events != [] {
      var before := events[..|events| - 1];
      OneFaultOneBreak(cfg, a, before);
      Charging.RunStaysSound(cfg, a, before);
      FaultStep(cfg, Run(cfg, a, before), events[|events| - 1]);
    }
  }
}
