/** What the motion flag means, which goals are cancelled, and what recovery shows. */
module Motion {
  import opened Fsm
  import opened AgentModel
  import opened Invariants
  import opened FlatTree
  import opened TaskFlow

  // ---------------------------------------------------------------------------
  // The legs
  // ---------------------------------------------------------------------------

  /** The goal a navigation leaves behind when it stops: accepted, and without a result. */
  function LeftBehind(n: NavNode, n': NavNode): seq<nat> {
    if n.running && n.state.Some? && n.state.value.accepted && !n.state.value.result && !n'.running
    then [n.state.value.goal]
    else []
  }

  predicate NavMoves(c: Core, n: NavNode, c': Core, n': NavNode) {
    && c'.cancels == c.cancels + LeftBehind(n, n')
    && ((n.running ==> c.moving) ==> (n'.running ==> c'.moving))
  }

  lemma NavTickedMoves(c: Core, n: NavNode, id: NavId, pose: Point, ready: bool)
    requires n.running ==> n.state.Some?
    ensures var t := NavTicked(c, n, id, pose, ready);
            NavMoves(c, n, t.core, t.node)
  {
  }

  lemma RecoveryTickedMoves(c: Core, n: RecoveryNode, leg: NavId, env: Env, maxAttempts: int)
    requires n.running ==> !c.fsm.Navigating?
    ensures var t := RecoveryTicked(c, n, leg, env, maxAttempts);
            && t.core.cancels == c.cancels && t.core.moving == c.moving
            && (t.node.running ==> !t.core.fsm.Navigating?)
  {
    if n.running {
      RecoveryRunningKeeps(c, n, leg, env, maxAttempts);
    } else {
      StartedGoalKeeps(Fire(c, NavFailed), n.(running := true, attempt := 0, phase := Spin), leg, env.spinReady);
    }
  }

  /** A leg's tick, seen from motion: it cancels what it leaves behind, its navigation moves the
      robot, and its recovery does not look like driving. */
  predicate LegMoves(c: Core, l: Leg, c': Core, l': Leg) {
    && NavMoves(c, l.nav, c', l'.nav)
    && (l'.recovery.running ==> !c'.fsm.Navigating?)
  }

  lemma FallbackMoves(c: Core, l: Leg, id: NavId, pose: Point, env: Env, maxAttempts: int)
    requires LegTickable(l) && (l.recovery.running ==> !c.fsm.Navigating?)
    ensures var t := FallbackTicked(c, l, id, pose, env, maxAttempts);
            && LegMoves(c, l, t.core, t.leg)
            && (t.status.Failure? ==> !l.nav.running)
  {
    if l.child == 0 {
      var n := NavTicked(c, l.nav, id, pose, env.navReady);
      NavTickedMoves(c, l.nav, id, pose, env.navReady);
      NavTickedKeeps(c, l.nav, id, pose, env.navReady);
      RecoveryTickedMoves(n.core, l.recovery, id, env, maxAttempts);
    } else {
      RecoveryTickedMoves(c, l.recovery, id, env, maxAttempts);
    }
  }

  lemma {:induction false} RetryMoves(c: Core, l: Leg, id: NavId, pose: Point, env: Env, maxAttempts: int)
    requires LegTickable(l) && (l.recovery.running ==> !c.fsm.Navigating?)
    ensures var t := RetryTicked(c, l, id, pose, env, NAV_ROUNDS, maxAttempts);
            LegMoves(c, l, t.core, t.leg)
    decreases NAV_ROUNDS - l.tries
  {
    if l.tries < NAV_ROUNDS {
      FallbackMoves(c, l, id, pose, env, maxAttempts);
      FallbackTickedKeeps(c, l, id, pose, env, maxAttempts);
      var f := FallbackTicked(c, l, id, pose, env, maxAttempts);
      if f.status.Failure? {
        RetryMoves(f.core, f.leg.(tries := l.tries + 1), id, pose, env, maxAttempts);
      }
    }
  }

  lemma LegTickedMoves(c: Core, l: Leg, id: NavId, pose: Point, env: Env)
    requires (LegAwake(l) || LegAsleep(l)) && (l.recovery.running ==> !c.fsm.Navigating?)
    ensures var t := LegTicked(c, l, id, pose, env);
            LegMoves(c, l, t.core, t.leg)
  {
    RetryMoves(c, Entered(l), id, pose, env, RECOVERY_ATTEMPTS);
  }

  // ---------------------------------------------------------------------------
  // The agent
  // ---------------------------------------------------------------------------

  predicate LegNavRuns(a: Agent) { a.pick.nav.running || a.drop.nav.running }

  predicate RecoveryRuns(a: Agent) { a.pick.recovery.running || a.drop.recovery.running }

  /** A leg's navigation shows as motion, and recovery never as driving. */
  predicate Visible(a: Agent) {
    && (LegNavRuns(a) ==> a.core.moving)
    && (RecoveryRuns(a) ==> !a.core.fsm.Navigating?)
  }

  /** The goals left behind between two states, by whichever navigation ran. */
  function AllLeftBehind(a: Agent, b: Agent): seq<nat> {
    LeftBehind(a.charger, b.charger) + LeftBehind(a.pick.nav, b.pick.nav) + LeftBehind(a.drop.nav, b.drop.nav)
  }

  /** The leg whose child the task branch is on, or enters, moves; the other one sleeps on. */
  lemma LegsDrive(cfg: Config, a: Agent, env: Env)
    requires TaskShape(a) && Visible(a)
    ensures var b := TaskTicked(cfg, a, env).agent;
            && (LegNavRuns(b) ==> b.core.moving) && b.charger == a.charger
            && b.core.cancels == a.core.cancels + LeftBehind(a.pick.nav, b.pick.nav) + LeftBehind(a.drop.nav, b.drop.nav)
  {
    if a.taskChild == 0 && NextTask(a.core).Some? {
      var b := a.(core := TakeTask(a.core, env.now), waiting := false);
      LegTickedMoves(b.core, b.pick, ToPick, b.core.pickPose, env);
    } else if a.taskChild == 1 {
      LegTickedMoves(a.core, a.pick, ToPick, a.core.pickPose, env);
      LegTickedKeeps(a.core, a.pick, ToPick, a.core.pickPose, env);
    } else if a.taskChild == 2 {
      var b := a.(core := Fire(a.core, ExecutionDone), doPick := a.doPick.(running := false));
      LegTickedMoves(b.core, b.drop, ToDrop, b.core.dropPose, env);
    } else if a.taskChild == 3 {
      LegTickedMoves(a.core, a.drop, ToDrop, a.core.dropPose, env);
      LegTickedKeeps(a.core, a.drop, ToDrop, a.core.dropPose, env);
    }
  }

  lemma LegsRecover(cfg: Config, a: Agent, env: Env)
    requires TaskShape(a) && Visible(a)
    ensures var b := TaskTicked(cfg, a, env).agent;
            RecoveryRuns(b) ==> !b.core.fsm.Navigating?
  {
    if a.taskChild == 0 && NextTask(a.core).Some? {
      var b := a.(core := TakeTask(a.core, env.now), waiting := false);
      LegTickedMoves(b.core, b.pick, ToPick, b.core.pickPose, env);
    } else if a.taskChild == 1 {
      LegTickedMoves(a.core, a.pick, ToPick, a.core.pickPose, env);
      LegTickedKeeps(a.core, a.pick, ToPick, a.core.pickPose, env);
    } else if a.taskChild == 2 {
      var b := a.(core := Fire(a.core, ExecutionDone), doPick := a.doPick.(running := false));
      LegTickedMoves(b.core, b.drop, ToDrop, b.core.dropPose, env);
    } else if a.taskChild == 3 {
      LegTickedMoves(a.core, a.drop, ToDrop, a.core.dropPose, env);
      LegTickedKeeps(a.core, a.drop, ToDrop, a.core.dropPose, env);
    }
  }

  lemma TaskMoves(cfg: Config, a: Agent, env: Env)
    requires TaskShape(a) && Visible(a)
    ensures var b := TaskTicked(cfg, a, env).agent;
            && Visible(b) && b.charger == a.charger
            && b.core.cancels == a.core.cancels + LeftBehind(a.pick.nav, b.pick.nav) + LeftBehind(a.drop.nav, b.drop.nav)
  {
    LegsDrive(cfg, a, env);
    LegsRecover(cfg, a, env);
  }

  lemma HaltMoves(a: Agent)
    ensures var b := TaskHalt(a);
            && !LegNavRuns(b) && !RecoveryRuns(b) && b.charger == a.charger
            && b.core.cancels == a.core.cancels + LeftBehind(a.pick.nav, b.pick.nav) + LeftBehind(a.drop.nav, b.drop.nav)
  {
  }

  lemma ChargeMoves(cfg: Config, a: Agent, env: Env)
    requires Sound(a) && Visible(a)
    ensures var t := ChargeFrom(cfg, a, a.chargeChild, env);
            && t.agent.core.cancels == a.core.cancels + LeftBehind(a.charger, t.agent.charger)
            && (t.status.Failure? ==> Visible(t.agent))
  {
    ChargeIsFlat(cfg, a, env);
    NavTickedMoves(a.core, a.charger, ToCharger, cfg.charger, env.chargerReady);
    NavTickedKeeps(a.core, a.charger, ToCharger, cfg.charger, env.chargerReady);
  }

  lemma TickMoves(cfg: Config, a: Agent, env: Env)
    requires Sound(a) && Visible(a)
    ensures var b := TreeTicked(cfg, a, env);
            Visible(b) && b.core.cancels == a.core.cancels + AllLeftBehind(a, b)
  {
    ChargeTicked(cfg, a, env);
    ChargeMoves(cfg, a, env);
    var t := ChargeFrom(cfg, a, a.chargeChild, env);
    if t.status.Failure? {
      TaskIsFlat(cfg, t.agent, env);
      TaskMoves(cfg, t.agent, env);
    } else {
      HaltMoves(t.agent);
    }
  }

  lemma StepMoves(cfg: Config, a: Agent, e: Event)
    requires Sound(a) && Visible(a)
    ensures var b := Step(cfg, a, e);
            Visible(b) && b.core.cancels == a.core.cancels + AllLeftBehind(a, b)
  {
    if e.BtTick? {
      TickMoves(cfg, a, e.env);
    } else if ActionCallback(e) {
      CallbackKeeps(cfg, a, e);
    }
  }

  lemma {:induction false} AlwaysVisible(cfg: Config, initialSoc: real, now: real, events: seq<Event>)
    ensures Visible(Run(cfg, Initial(initialSoc, now), events))
  {
    if events != [] {
      var before := events[..|events| - 1];
      AlwaysVisible(cfg, initialSoc, now, before);
      AlwaysSound(cfg, initialSoc, now, before);
      StepMoves(cfg, Run(cfg, Initial(initialSoc, now), before), events[|events| - 1]);
    }
  }

  /** After any run, whatever comes next: the goals cancelled are exactly those whose navigation
      stops with an acceptance on record and no result. And while a recovery runs the lifecycle is
      not NAVIGATING. */
  lemma CancelsAreExact(cfg: Config, initialSoc: real, now: real, events: seq<Event>, e: Event)
    ensures var a := Run(cfg, Initial(initialSoc, now), events);
            var b := Step(cfg, a, e);
            && b.core.cancels == a.core.cancels + AllLeftBehind(a, b)
            && (RecoveryRuns(b) ==> !b.core.fsm.Navigating?)
  {
    AlwaysVisible(cfg, initialSoc, now, events);
    AlwaysSound(cfg, initialSoc, now, events);
    StepMoves(cfg, Run(cfg, Initial(initialSoc, now), events), e);
  }

  // ---------------------------------------------------------------------------
  // Goals left open
  // ---------------------------------------------------------------------------

  /** The goal of a running navigation may still be at work: it has no result and was not
      rejected. */
  predicate NavOpen(n: NavNode) {
    && n.running && n.state.Some? && !n.state.value.result
    && (n.state.value.accepted || !n.state.value.response)
  }

  /** The same without an acceptance on record: nobody has answered yet. */
  predicate NavUnanswered(n: NavNode) {
    NavOpen(n) && !n.state.value.accepted
  }

  /** The goal of a running recovery may still be at work. */
  predicate RecoveryOpen(n: RecoveryNode) {
    n.running && Awaited(n).Some? && Awaited(n).value.goal.Some? && !Awaited(n).value.received
  }

  /** The node lets go of its open goal. */
  predicate NavDrops(n: NavNode, n': NavNode) {
    NavOpen(n) && !(n'.running && n'.state.Some? && n'.state.value.goal == n.state.value.goal)
  }

  predicate RecoveryDrops(n: RecoveryNode, n': RecoveryNode) {
    RecoveryOpen(n) && !(n'.running && Awaited(n').Some? && Awaited(n').value.goal == Awaited(n).value.goal)
  }

  function NewCancels(a: Agent, b: Agent): seq<nat> {
    if |a.core.cancels| <= |b.core.cancels| then b.core.cancels[|a.core.cancels|..] else []
  }

  /** From `a` to `b` a node lets go of an open goal, and nobody cancels it. */
  predicate LeavesOpen(a: Agent, b: Agent) {
    || (NavDrops(a.charger, b.charger) && a.charger.state.value.goal !in NewCancels(a, b))
    || (NavDrops(a.pick.nav, b.pick.nav) && a.pick.nav.state.value.goal !in NewCancels(a, b))
    || (NavDrops(a.drop.nav, b.drop.nav) && a.drop.nav.state.value.goal !in NewCancels(a, b))
    || (RecoveryDrops(a.pick.recovery, b.pick.recovery)
        && Awaited(a.pick.recovery).value.goal.value !in NewCancels(a, b))
    || (RecoveryDrops(a.drop.recovery, b.drop.recovery)
        && Awaited(a.drop.recovery).value.goal.value !in NewCancels(a, b))
  }

  /** The tick that does so: a fault or the charge branch breaks off a navigation that nobody has
      answered, or the charge branch breaks off a recovery at work. */
  predicate BreaksOff(cfg: Config, a: Agent, e: Event) {
    && e.BtTick?
    && var halts := !TicksTasks(cfg, a, e.env);
       || (NavUnanswered(a.charger) && a.core.fault)
       || ((NavUnanswered(a.pick.nav) || NavUnanswered(a.drop.nav)) && (halts || a.core.fault))
       || ((RecoveryOpen(a.pick.recovery) || RecoveryOpen(a.drop.recovery)) && halts)
  }

  /** What one tick does to the open goals of the agent's nodes. */
  predicate OpenKept(a: Agent, b: Agent) {
    && (NavOpen(a.pick.nav) ==> if a.core.fault then !b.pick.nav.running else b.pick.nav == a.pick.nav)
    && (NavOpen(a.drop.nav) ==> if a.core.fault then !b.drop.nav.running else b.drop.nav == a.drop.nav)
    && (RecoveryOpen(a.pick.recovery) ==> b.pick.recovery == a.pick.recovery)
    && (RecoveryOpen(a.drop.recovery) ==> b.drop.recovery == a.drop.recovery)
  }

  lemma OpenTaskTicked(cfg: Config, a: Agent, env: Env)
    requires TaskShape(a)
    ensures OpenKept(a, TaskTicked(cfg, a, env).agent)
  {
  }

  lemma OpenChargeTicked(cfg: Config, a: Agent, env: Env)
    requires Sound(a)
    ensures var b := ChargeFrom(cfg, a, a.chargeChild, env).agent;
            && (NavOpen(a.charger) ==> if a.core.fault then !b.charger.running else b.charger == a.charger)
            && (a.chargeChild == 0 ==> b.core.fault == a.core.fault)
  {
  }

  /** How the nodes' goals fare in a tick. */
  lemma OpenTreeTicked(cfg: Config, a: Agent, env: Env)
    requires Sound(a)
    ensures var b := TreeTicked(cfg, a, env);
            && (NavOpen(a.charger) ==> if a.core.fault then !b.charger.running else b.charger == a.charger)
            && (if TicksTasks(cfg, a, env) then OpenKept(a, b) else !LegNavRuns(b) && !RecoveryRuns(b))
  {
    ChargeTicked(cfg, a, env);
    OpenChargeTicked(cfg, a, env);
    var t := ChargeFrom(cfg, a, a.chargeChild, env);
    if t.status.Failure? {
      TaskIsFlat(cfg, t.agent, env);
      OpenTaskTicked(cfg, t.agent, env);
      TaskFromKeeps(cfg, t.agent, t.agent.taskChild, env);
    } else {
      HaltMoves(t.agent);
    }
  }

  /** What is left open, when the task branch was halted or not. */
  lemma LeftOpen(a: Agent, b: Agent, halts: bool)
    requires Sound(a) && b.core.cancels == a.core.cancels + AllLeftBehind(a, b)
    requires NavOpen(a.charger) ==> if a.core.fault then !b.charger.running else b.charger == a.charger
    requires if halts then !LegNavRuns(b) && !RecoveryRuns(b) else OpenKept(a, b)
    ensures LeavesOpen(a, b) <==>
            || (NavUnanswered(a.charger) && a.core.fault)
            || ((NavUnanswered(a.pick.nav) || NavUnanswered(a.drop.nav)) && (halts || a.core.fault))
            || ((RecoveryOpen(a.pick.recovery) || RecoveryOpen(a.drop.recovery)) && halts)
  {
  }

  lemma TickLeavesOpen(cfg: Config, a: Agent, env: Env)
    requires Sound(a) && Visible(a)
    ensures LeavesOpen(a, TreeTicked(cfg, a, env)) <==> BreaksOff(cfg, a, BtTick(env))
  {
    OpenTreeTicked(cfg, a, env);
    TickMoves(cfg, a, env);
    LeftOpen(a, TreeTicked(cfg, a, env), !TicksTasks(cfg, a, env));
  }

  lemma StepLeavesOpen(cfg: Config, a: Agent, e: Event)
    requires Sound(a) && Visible(a)
    ensures LeavesOpen(a, Step(cfg, a, e)) <==> BreaksOff(cfg, a, e)
  {
    if e.BtTick? {
      TickLeavesOpen(cfg, a, e.env);
    }
  }

  /** After any run, whatever comes next: an open goal is let go of without being cancelled if and
      only if a tick breaks off a navigation nobody has answered or a recovery at work. Such a goal
      goes on unwatched; its callbacks find no record. */
  lemma LeavesOpenIff(cfg: Config, initialSoc: real, now: real, events: seq<Event>, e: Event)
    ensures var a := Run(cfg, Initial(initialSoc, now), events);
            LeavesOpen(a, Step(cfg, a, e)) <==> BreaksOff(cfg, a, e)
  {
    AlwaysVisible(cfg, initialSoc, now, events);
    AlwaysSound(cfg, initialSoc, now, events);
    StepLeavesOpen(cfg, Run(cfg, Initial(initialSoc, now), events), e);
  }

  // ---------------------------------------------------------------------------
  // The motion flag
  // ---------------------------------------------------------------------------

  /** The present drive to the dock began in a tick that cut off a leg's navigation. */
  function CutOff(cfg: Config, start: Agent, events: seq<Event>): bool {
    if events == [] then false
    else
      var before := events[..|events| - 1];
      var a, b := Run(cfg, start, before), Run(cfg, start, events);
      if b.charger.running && !a.charger.running then LegNavRuns(a) else CutOff(cfg, start, before)
  }

  /** What a step makes of the flag while the robot drives to the dock. */
  lemma DockFlag(cfg: Config, a: Agent, e: Event)
    requires Sound(a)
    ensures var b := Step(cfg, a, e);
            b.charger.running ==>
              b.core.moving == if a.charger.running then a.core.moving else !LegNavRuns(a)
  {
    if e.BtTick? {
      ChargeTicked(cfg, a, e.env);
      ChargeIsFlat(cfg, a, e.env);
      NavTickedKeeps(a.core, a.charger, ToCharger, cfg.charger, e.env.chargerReady);
      var t := ChargeFrom(cfg, a, a.chargeChild, e.env);
      if t.status.Failure? {
        TaskFromKeeps(cfg, t.agent, t.agent.taskChild, e.env);
      } else {
        TaskHaltKeeps(t.agent);
      }
    } else if ActionCallback(e) {
      CallbackKeeps(cfg, a, e);
    }
  }

  lemma {:induction false} DockFlagAlways(cfg: Config, initialSoc: real, now: real, events: seq<Event>)
    ensures var start := Initial(initialSoc, now);
            var a := Run(cfg, start, events);
            a.charger.running ==> (a.core.moving <==> !CutOff(cfg, start, events))
  {
    if events != [] {
      var before := events[..|events| - 1];
      DockFlagAlways(cfg, initialSoc, now, before);
      AlwaysSound(cfg, initialSoc, now, before);
      DockFlag(cfg, Run(cfg, Initial(initialSoc, now), before), events[|events| - 1]);
    }
  }

  /** The motion flag in every reachable state: it is up if and only if a leg navigates, or the
      robot drives to the dock and that drive did not begin by cutting off a leg's navigation. In
      the latter case the halt comes after the start and takes the flag down for the whole drive. */
  lemma MovingExactly(cfg: Config, initialSoc: real, now: real, events: seq<Event>)
    ensures var start := Initial(initialSoc, now);
            var a := Run(cfg, start, events);
            a.core.moving <==> LegNavRuns(a) || (a.charger.running && !CutOff(cfg, start, events))
  {
    AlwaysVisible(cfg, initialSoc, now, events);
    AlwaysSound(cfg, initialSoc, now, events);
    DockFlagAlways(cfg, initialSoc, now, events);
  }
}
