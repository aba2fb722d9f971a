/** What every reachable state of a robot agent satisfies, whatever the environment does:
    action servers ready or not, goals rejected or failed, faults, callbacks late, repeated or
    out of order, any clock. */
module Invariants {
  import opened Fsm
  import opened AgentModel
  import Battery

  // ---------------------------------------------------------------------------
  // The shape of the tree's memory
  // ---------------------------------------------------------------------------

  predicate LegAsleep(l: Leg) {
    l.tries == 0 && l.child == 0 && !l.nav.running && !l.recovery.running
  }

  /** Exactly one of the two leaves of the leg runs, the one the fallback remembers. */
  predicate LegAwake(l: Leg) {
    && l.tries < NAV_ROUNDS
    && (l.child == 0 || l.child == 1)
    && (l.nav.running <==> l.child == 0) && (l.recovery.running <==> l.child == 1)
    && (l.nav.running ==> l.nav.state.Some?)
  }

  /** Exactly the leaf the sequence remembers runs, and it has started. */
  predicate TaskShape(a: Agent) {
    && a.taskChild <= 4
    && (a.waiting ==> a.taskChild == 0)
    && (if a.taskChild == 1 then LegAwake(a.pick) else LegAsleep(a.pick))
    && (a.doPick.running <==> a.taskChild == 2)
    && (if a.taskChild == 3 then LegAwake(a.drop) else LegAsleep(a.drop))
    && (a.doDrop.running <==> a.taskChild == 4)
  }

  predicate TaskAsleep(a: Agent) {
    TaskShape(a) && a.taskChild == 0 && !a.waiting
  }

  predicate ChargeShape(a: Agent) {
    && a.chargeChild <= 2
    && (a.charger.running <==> a.chargeChild == 1)
    && (a.charger.running ==> a.charger.state.Some?)
    && (a.chargeRunning <==> a.chargeChild == 2)
  }

  predicate NavRuns(a: Agent) {
    a.charger.running || a.pick.nav.running || a.drop.nav.running
  }

  /** Tree, lifecycle and flags agree: while the charge branch runs the task branch sleeps,
      charging is one thing seen three ways, and the robot only moves for a navigation. */
  predicate Coupled(a: Agent) {
    && (a.chargeChild != 0 ==> TaskAsleep(a))
    && (a.core.charging <==> a.chargeRunning)
    && (a.core.fsm.Charging? <==> a.chargeRunning)
    && !a.core.fsm.Reporting?
    && (a.core.moving ==> NavRuns(a))
  }

  predicate Sound(a: Agent) {
    ChargeShape(a) && TaskShape(a) && Coupled(a)
  }

  // ---------------------------------------------------------------------------
  // What the leaves leave alone
  // ---------------------------------------------------------------------------

  /** Navigation and recovery touch only the lifecycle, the motion flag, the fault flag and
      what they send. */
  predicate OnlyMotion(c: Core, c': Core) {
    c' == c.(fsm := c'.fsm, moving := c'.moving, fault := c'.fault, goals := c'.goals, cancels := c'.cancels)
  }

  predicate Calm(s: RobotState) { !s.Reporting? && !s.Charging? }

  lemma NavTickedKeeps(c: Core, n: NavNode, id: NavId, pose: Point, ready: bool)
    requires n.running ==> n.state.Some?
    ensures var t := NavTicked(c, n, id, pose, ready);
            && OnlyMotion(c, t.core)
            && (t.status.Running? <==> t.node.running)
            && (t.node.running ==> t.node.state.Some?)
            && (Calm(c.fsm) ==> Calm(t.core.fsm))
            && (t.core.moving ==> t.node.running || (c.moving && !n.running))
  {
  }

  /** At most one goal was sent, and it was a recovery goal of leg `leg`. */
  predicate SentRecovery(goals: seq<Goal>, goals': seq<Goal>, leg: NavId) {
    goals' == goals || goals' == goals + [SpinGoal(leg)] || goals' == goals + [BackUpGoal(leg)]
  }

  /** Starting a recovery goal changes nothing but the record and the goals sent. */
  lemma StartedGoalKeeps(c: Core, n: RecoveryNode, leg: NavId, ready: bool)
    ensures var (c', n') := StartSpin(c, n, leg, ready);
            c' == c.(goals := c'.goals) && n' == n.(spin := n'.spin) && SentRecovery(c.goals, c'.goals, leg)
    ensures var (c', n') := StartBackUp(c, n, leg, ready);
            c' == c.(goals := c'.goals) && n' == n.(backUp := n'.backUp) && SentRecovery(c.goals, c'.goals, leg)
  {
  }

  lemma RecoveryRunningKeeps(c: Core, n: RecoveryNode, leg: NavId, env: Env, maxAttempts: int)
    requires n.running
    ensures var t := RecoveryRunning(c, n, leg, env, maxAttempts);
            && t.core == c.(fsm := t.core.fsm, goals := t.core.goals) && SentRecovery(c.goals, t.core.goals, leg)
            && (t.status.Running? <==> t.node.running)
            && (t.core.fsm == c.fsm || t.core.fsm == Next(c.fsm, RecoveryDone) || t.core.fsm == Next(c.fsm, RecoveryFailed))
  {
  }

  lemma RecoveryTickedKeeps(c: Core, n: RecoveryNode, leg: NavId, env: Env, maxAttempts: int)
    ensures var t := RecoveryTicked(c, n, leg, env, maxAttempts);
            && OnlyMotion(c, t.core) && t.core.moving == c.moving && SentRecovery(c.goals, t.core.goals, leg)
            && (t.status.Running? <==> t.node.running)
            && (Calm(c.fsm) ==> Calm(t.core.fsm))
  {
    if n.running {
      RecoveryRunningKeeps(c, n, leg, env, maxAttempts);
    } else {
      StartedGoalKeeps(Fire(c, NavFailed), n.(running := true, attempt := 0, phase := Spin), leg, env.spinReady);
    }
  }

  /** A leg about to be ticked: the leaf the fallback remembers may be running already. */
  predicate LegTickable(l: Leg) {
    && (l.nav.running ==> l.child == 0) && (l.recovery.running ==> l.child == 1)
    && (l.child == 0 || (l.child == 1 && l.recovery.running))
    && (l.nav.running ==> l.nav.state.Some?)
  }

  predicate LegKeeps(c: Core, l: Leg, t: LegTick) {
    && OnlyMotion(c, t.core)
    && (Calm(c.fsm) ==> Calm(t.core.fsm))
    && ((c.moving ==> l.nav.running) ==> (t.core.moving ==> t.leg.nav.running))
    && (t.status.Running? ==> LegAwake(t.leg))
  }

  lemma FallbackTickedKeeps(c: Core, l: Leg, id: NavId, pose: Point, env: Env, maxAttempts: int)
    requires LegTickable(l) && l.tries < NAV_ROUNDS
    ensures var t := FallbackTicked(c, l, id, pose, env, maxAttempts);
            && LegKeeps(c, l, t) && t.leg.tries == l.tries
            && (!t.status.Running? ==> LegAsleep(t.leg.(tries := 0)))
  {
    if l.child == 0 {
      var n := NavTicked(c, l.nav, id, pose, env.navReady);
      NavTickedKeeps(c, l.nav, id, pose, env.navReady);
      RecoveryTickedKeeps(n.core, l.recovery, id, env, maxAttempts);
    } else {
      RecoveryTickedKeeps(c, l.recovery, id, env, maxAttempts);
    }
  }

  lemma {:induction false} RetryTickedKeeps(c: Core, l: Leg, id: NavId, pose: Point, env: Env, maxAttempts: int)
    requires LegTickable(l) && l.tries <= NAV_ROUNDS
    requires l.tries == NAV_ROUNDS ==> l.child == 0 && !LegRunning(l)
    ensures var t := RetryTicked(c, l, id, pose, env, NAV_ROUNDS, maxAttempts);
            LegKeeps(c, l, t) && (!t.status.Running? ==> LegAsleep(t.leg))
    decreases NAV_ROUNDS - l.tries
  {
    if l.tries < NAV_ROUNDS {
      FallbackTickedKeeps(c, l, id, pose, env, maxAttempts);
      var f := FallbackTicked(c, l, id, pose, env, maxAttempts);
      if f.status.Failure? {
        RetryTickedKeeps(f.core, f.leg.(tries := l.tries + 1), id, pose, env, maxAttempts);
      }
    }
  }

  lemma LegTickedKeeps(c: Core, l: Leg, id: NavId, pose: Point, env: Env)
    requires LegAwake(l) || LegAsleep(l)
    ensures var t := LegTicked(c, l, id, pose, env);
            LegKeeps(c, l, t) && (!t.status.Running? ==> LegAsleep(t.leg))
  {
    RetryTickedKeeps(c, Entered(l), id, pose, env, RECOVERY_ATTEMPTS);
  }

  lemma LegHaltKeeps(c: Core, l: Leg)
    ensures var (c', l') := LegHalt(c, l);
            && OnlyMotion(c, c') && c'.fsm == c.fsm && LegAsleep(l')
            && (c'.moving <==> c.moving && !l.nav.running)
  {
  }

  // ---------------------------------------------------------------------------
  // The task branch
  // ---------------------------------------------------------------------------

  /** Child `i` is about to be ticked; no other child has anything running. */
  predicate Before(a: Agent, i: nat) {
    && (a.waiting ==> i == 0)
    && (LegAsleep(a.pick) || (i == 1 && LegAwake(a.pick)))
    && (a.doPick.running ==> i == 2)
    && (LegAsleep(a.drop) || (i == 3 && LegAwake(a.drop)))
    && (a.doDrop.running ==> i == 4)
  }

  predicate LegsMove(a: Agent) {
    a.core.moving ==> a.pick.nav.running || a.drop.nav.running
  }

  /** The charge branch is left exactly as it was. */
  predicate SameCharge(a: Agent, a': Agent) {
    && a'.chargeChild == a.chargeChild && a'.charger == a.charger && a'.chargeRunning == a.chargeRunning
    && a'.core.soc == a.core.soc && a'.core.charging == a.core.charging && a'.core.charges == a.core.charges
    && a'.core.lastUpdate == a.core.lastUpdate
  }

  lemma TaskChildKeeps(cfg: Config, a: Agent, i: nat, env: Env)
    requires i < 6 && Before(a, i)
    ensures var t := TaskChild(cfg, a, i, env);
            && SameCharge(a, t.agent)
            && (Calm(a.core.fsm) ==> Calm(t.agent.core.fsm))
            && (LegsMove(a) ==> LegsMove(t.agent))
            && (if t.status.Running? then TaskShape(t.agent.(taskChild := i))
                else Before(t.agent, i + 1) && TaskAsleep(t.agent.(taskChild := 0)))
  {
    if i == 1 {
      LegTickedKeeps(a.core, a.pick, ToPick, a.core.pickPose, env);
    } else if i == 3 {
      LegTickedKeeps(a.core, a.drop, ToDrop, a.core.dropPose, env);
    }
  }

  lemma {:induction false} TaskFromKeeps(cfg: Config, a: Agent, i: nat, env: Env)
    requires i <= 6 && Before(a, i)
    ensures var t := TaskFrom(cfg, a, i, env);
            && SameCharge(a, t.agent)
            && (Calm(a.core.fsm) ==> Calm(t.agent.core.fsm))
            && (LegsMove(a) ==> LegsMove(t.agent))
            && TaskShape(t.agent)
            && (!t.status.Running? ==> TaskAsleep(t.agent))
    decreases 6 - i
  {
    if i < 6 {
      TaskChildKeeps(cfg, a, i, env);
      var t := TaskChild(cfg, a, i, env);
      if t.status.Success? {
        TaskFromKeeps(cfg, t.agent, i + 1, env);
      }
    }
  }

  lemma TaskHaltKeeps(a: Agent)
    ensures var a' := TaskHalt(a);
            && TaskAsleep(a') && SameCharge(a, a') && OnlyMotion(a.core, a'.core) && a'.core.fsm == a.core.fsm
            && (a'.core.moving <==> a.core.moving && !a.pick.nav.running && !a.drop.nav.running)
  {
    LegHaltKeeps(a.core, a.pick);
    LegHaltKeeps(LegHalt(a.core, a.pick).0, a.drop);
  }

  // ---------------------------------------------------------------------------
  // The charge branch
  // ---------------------------------------------------------------------------

  /** The task branch's memory is left exactly as it was. */
  predicate SameTask(a: Agent, a': Agent) {
    && a'.taskChild == a.taskChild && a'.waiting == a.waiting
    && a'.pick == a.pick && a'.doPick == a.doPick && a'.drop == a.drop && a'.doDrop == a.doDrop
  }

  /** What a tick of the charge branch does, branch by branch. */
  lemma ChargeTicked(cfg: Config, a: Agent, env: Env)
    requires Sound(a)
    ensures var t := ChargeFrom(cfg, a, a.chargeChild, env);
            && SameTask(a, t.agent) && ChargeShape(t.agent)
            && (t.status.Running? <==> t.agent.chargeChild != 0)
            && (t.status.Failure? ==>
                  && OnlyMotion(a.core, t.agent.core) && Calm(t.agent.core.fsm) && LegsMove(t.agent))
            && (t.agent.core.charging <==> t.agent.chargeRunning)
            && (t.agent.core.fsm.Charging? <==> t.agent.chargeRunning)
            && !t.agent.core.fsm.Reporting?
            && (t.agent.core.moving ==> NavRuns(t.agent))
  {
    NavTickedKeeps(a.core, a.charger, ToCharger, cfg.charger, env.chargerReady);
    if a.chargeChild == 0 {
      assert ChargeFrom(cfg, a, 0, env) ==
             if Battery.IsLow(a.core.soc) then ChargeFrom(cfg, a, 1, env) else Tick(Failure, a.(chargeChild := 0));
    }
  }

  // ---------------------------------------------------------------------------
  // Every step, every run
  // ---------------------------------------------------------------------------

  lemma TickKeepsSound(cfg: Config, a: Agent, env: Env)
    requires Sound(a)
    ensures Sound(TreeTicked(cfg, a, env))
  {
    ChargeTicked(cfg, a, env);
    var t := ChargeFrom(cfg, a, a.chargeChild, env);
    if t.status.Failure? {
      TaskFromKeeps(cfg, t.agent, t.agent.taskChild, env);
    } else {
      TaskHaltKeeps(t.agent);
    }
  }

  predicate ActionCallback(e: Event) {
    e.NavResponse? || e.NavResult? || e.SpinResult? || e.BackUpResult?
  }

  /** Two nodes that differ in their records' contents only. */
  predicate SameNav(n: NavNode, n': NavNode) {
    n'.running == n.running && (n'.state.Some? <==> n.state.Some?)
  }

  predicate SameLeg(l: Leg, l': Leg) {
    && SameNav(l.nav, l'.nav)
    && l'.tries == l.tries && l'.child == l.child && l'.outcomes == l.outcomes
    && l'.recovery == l.recovery.(spin := l'.recovery.spin, backUp := l'.recovery.backUp)
  }

  /** An action callback writes into one record and nowhere else. */
  lemma CallbackKeeps(cfg: Config, a: Agent, e: Event)
    requires ActionCallback(e)
    ensures var a' := Step(cfg, a, e);
            && a' == a.(charger := a'.charger, pick := a'.pick, drop := a'.drop)
            && SameNav(a.charger, a'.charger) && SameLeg(a.pick, a'.pick) && SameLeg(a.drop, a'.drop)
  {
  }

  lemma StepKeepsSound(cfg: Config, a: Agent, e: Event)
    requires Sound(a)
    ensures Sound(Step(cfg, a, e))
  {
    if e.BtTick? {
      TickKeepsSound(cfg, a, e.env);
    } else if ActionCallback(e) {
      CallbackKeeps(cfg, a, e);
    }
  }

  /** In every reachable state: the tree's memory has its shape, charging is exclusive, and the
      flags agree with the tree. */
  lemma {:induction false} AlwaysSound(cfg: Config, initialSoc: real, now: real, events: seq<Event>)
    ensures Sound(Run(cfg, Initial(initialSoc, now), events))
  {
    if events != [] {
      AlwaysSound(cfg, initialSoc, now, events[..|events| - 1]);
      StepKeepsSound(cfg, Run(cfg, Initial(initialSoc, now), events[..|events| - 1]), events[|events| - 1]);
    }
  }

  /** How many of the three navigation nodes run. */
  function NavsRunning(a: Agent): nat {
    (if a.charger.running then 1 else 0) + (if a.pick.nav.running then 1 else 0) + (if a.drop.nav.running then 1 else 0)
  }

  /** The flags in every reachable state: never moving and charging at once; moving only while
      exactly one navigation runs; charging exactly when the lifecycle and the tree say so. */
  lemma FlagsAgree(cfg: Config, initialSoc: real, now: real, events: seq<Event>)
    ensures var a := Run(cfg, Initial(initialSoc, now), events);
            && !(a.core.moving && a.core.charging)
            && (a.core.moving ==> NavsRunning(a) == 1)
            && NavsRunning(a) <= 1
            && (a.core.fsm.Charging? <==> a.core.charging)
            && (a.core.charging <==> a.chargeRunning)
            && !a.core.fsm.Reporting?
  {
    AlwaysSound(cfg, initialSoc, now, events);
  }
}
