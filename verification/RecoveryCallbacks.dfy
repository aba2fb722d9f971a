/** The same for recovery: every outcome it consumes was given to the goal of its present attempt
    and phase, or stands for a server that was not ready. */
module RecoveryCallbacks {
  import opened Options
  import opened Fsm
  import opened AgentModel
  import opened Invariants
  import opened FlatTree

  predicate IsRecoveryGoal(g: Goal, id: NavId) {
    (g.SpinGoal? || g.BackUpGoal?) && g.leg == id
  }

  /** Goals were sent, but none by the recovery of leg `id`. */
  predicate Still(goals: seq<Goal>, goals': seq<Goal>, id: NavId) {
    && goals <= goals'
    && forall g :: |goals| <= g < |goals'| ==> !IsRecoveryGoal(goals'[g], id)
  }

  function PhaseGoal(n: RecoveryNode, id: NavId): Goal {
    if n.phase.Spin? then SpinGoal(id) else BackUpGoal(id)
  }

  /** A running recovery waits on the answer to the goal of its phase, the latest it sent, or
      holds the failure made up for a server that was not ready. */
  predicate Latest(goals: seq<Goal>, n: RecoveryNode, id: NavId) {
    n.running && Awaited(n).Some? ==>
      match Awaited(n).value.goal
      case None => Awaited(n).value.received && !Awaited(n).value.success
      case Some(k) =>
        && k < |goals| && goals[k] == PhaseGoal(n, id)
        && forall g :: k < g < |goals| ==> !IsRecoveryGoal(goals[g], id)
  }

  predicate FreshRecord(goals: seq<Goal>, goals': seq<Goal>, n: RecoveryNode, id: NavId) {
    && Awaited(n).Some? && Latest(goals', n, id)
    && (Awaited(n).value.goal.Some? ==> |goals| <= Awaited(n).value.goal.value && !Awaited(n).value.received)
  }

  predicate Moves(goals: seq<Goal>, n: RecoveryNode, goals': seq<Goal>, n': RecoveryNode, id: NavId) {
    && goals <= goals'
    && (n'.running && Awaited(n').Some? ==>
          || (n.running && n.phase == n'.phase && Awaited(n) == Awaited(n') && Still(goals, goals', id))
          || FreshRecord(goals, goals', n', id))
  }

  lemma MovesOn(g1: seq<Goal>, n1: RecoveryNode, g2: seq<Goal>, n2: RecoveryNode,
                g3: seq<Goal>, n3: RecoveryNode, id: NavId)
    requires Moves(g1, n1, g2, n2, id) && Moves(g2, n2, g3, n3, id)
    ensures Moves(g1, n1, g3, n3, id)
  {
  }

  lemma StillMoves(goals: seq<Goal>, goals': seq<Goal>, n: RecoveryNode, id: NavId)
    requires Still(goals, goals', id)
    ensures Moves(goals, n, goals', n, id)
  {
  }

  lemma NavSends(c: Core, n: NavNode, node: NavId, pose: Point, ready: bool, id: NavId)
    ensures Still(c.goals, NavTicked(c, n, node, pose, ready).core.goals, id)
  {
  }

  /** A recovery makes its own moves and leaves those of the other leg alone. */
  predicate MovesOrStill(c: Core, n: RecoveryNode, c': Core, n': RecoveryNode, leg: NavId, id: NavId) {
    if id == leg then Moves(c.goals, n, c'.goals, n', id) else Still(c.goals, c'.goals, id)
  }

  lemma MoveOn(c1: Core, n1: RecoveryNode, c2: Core, n2: RecoveryNode, c3: Core, n3: RecoveryNode, leg: NavId, id: NavId)
    requires MovesOrStill(c1, n1, c2, n2, leg, id) && MovesOrStill(c2, n2, c3, n3, leg, id)
    ensures MovesOrStill(c1, n1, c3, n3, leg, id)
  {
  }

  /** Starting a goal leaves a fresh record for the phase that waits on it. */
  lemma StartedFresh(c: Core, n: RecoveryNode, leg: NavId, ready: bool)
    ensures n.phase.Spin? ==>
              var (c', n') := StartSpin(c, n, leg, ready);
              FreshRecord(c.goals, c'.goals, n', leg)
    ensures n.phase.BackUp? ==>
              var (c', n') := StartBackUp(c, n, leg, ready);
              FreshRecord(c.goals, c'.goals, n', leg)
  {
  }

  lemma RunningMoves(c: Core, n: RecoveryNode, leg: NavId, env: Env, maxAttempts: int)
    requires n.running
    ensures var t := RecoveryRunning(c, n, leg, env, maxAttempts);
            c.goals <= t.core.goals ==> Moves(c.goals, n, t.core.goals, t.node, leg)
  {
    StartedFresh(c, n.(attempt := n.attempt + 1, phase := Spin), leg, env.spinReady);
    StartedFresh(c, n.(phase := BackUp), leg, env.backUpReady);
  }

  lemma RecoveryMoves(c: Core, n: RecoveryNode, leg: NavId, env: Env, maxAttempts: int, id: NavId)
    ensures var t := RecoveryTicked(c, n, leg, env, maxAttempts);
            MovesOrStill(c, n, t.core, t.node, leg, id)
  {
    RecoveryTickedKeeps(c, n, leg, env, maxAttempts);
    if id == leg {
      if n.running {
        RunningMoves(c, n, leg, env, maxAttempts);
      } else {
        StartedFresh(Fire(c, NavFailed), n.(running := true, attempt := 0, phase := Spin), leg, env.spinReady);
      }
    }
  }

  lemma FallbackMoves(c: Core, l: Leg, leg: NavId, pose: Point, env: Env, maxAttempts: int, id: NavId)
    ensures var t := FallbackTicked(c, l, leg, pose, env, maxAttempts);
            MovesOrStill(c, l.recovery, t.core, t.leg.recovery, leg, id)
  {
    if l.child == 0 {
      var n := NavTicked(c, l.nav, leg, pose, env.navReady);
      NavSends(c, l.nav, leg, pose, env.navReady, id);
      StillMoves(c.goals, n.core.goals, l.recovery, id);
      RecoveryMoves(n.core, l.recovery, leg, env, maxAttempts, id);
      if n.status.Failure? && id == leg {
        var t := FallbackTicked(c, l, leg, pose, env, maxAttempts);
        MovesOn(c.goals, l.recovery, n.core.goals, l.recovery, t.core.goals, t.leg.recovery, id);
      }
    } else {
      RecoveryMoves(c, l.recovery, leg, env, maxAttempts, id);
    }
  }

  lemma {:induction false} RetryMoves(c: Core, l: Leg, leg: NavId, pose: Point, env: Env, rounds: nat, maxAttempts: int, id: NavId)
    ensures var t := RetryTicked(c, l, leg, pose, env, rounds, maxAttempts);
            MovesOrStill(c, l.recovery, t.core, t.leg.recovery, leg, id)
    decreases rounds - l.tries
  {
    if l.tries < rounds {
      var f := FallbackTicked(c, l, leg, pose, env, maxAttempts);
      FallbackMoves(c, l, leg, pose, env, maxAttempts, id);
      if f.status.Failure? {
        var again := f.leg.(tries := l.tries + 1);
        var t := RetryTicked(f.core, again, leg, pose, env, rounds, maxAttempts);
        RetryMoves(f.core, again, leg, pose, env, rounds, maxAttempts, id);
        MoveOn(c, l.recovery, f.core, again.recovery, t.core, t.leg.recovery, leg, id);
      }
    }
  }

  predicate AgentMoves(a: Agent, a': Agent, id: NavId) {
    Moves(a.core.goals, RecoveryOf(a, id), a'.core.goals, RecoveryOf(a', id), id)
  }

  lemma TaskMoves(cfg: Config, a: Agent, env: Env, id: NavId)
    requires TaskShape(a) && !id.ToCharger?
    ensures AgentMoves(a, TaskTicked(cfg, a, env).agent, id)
  {
    if a.taskChild == 0 && NextTask(a.core).Some? {
      var b := a.(core := TakeTask(a.core, env.now), waiting := false);
      RetryMoves(b.core, Entered(b.pick), ToPick, b.core.pickPose, env, NAV_ROUNDS, RECOVERY_ATTEMPTS, id);
    } else if a.taskChild == 1 {
      RetryMoves(a.core, Entered(a.pick), ToPick, a.core.pickPose, env, NAV_ROUNDS, RECOVERY_ATTEMPTS, id);
    } else if a.taskChild == 2 {
      var b := a.(core := Fire(a.core, ExecutionDone), doPick := a.doPick.(running := false));
      RetryMoves(b.core, Entered(b.drop), ToDrop, b.core.dropPose, env, NAV_ROUNDS, RECOVERY_ATTEMPTS, id);
    } else if a.taskChild == 3 {
      RetryMoves(a.core, Entered(a.drop), ToDrop, a.core.dropPose, env, NAV_ROUNDS, RECOVERY_ATTEMPTS, id);
    }
  }

  lemma HaltMoves(a: Agent, id: NavId)
    ensures AgentMoves(a, TaskHalt(a), id)
  {
  }

  lemma TickMoves(cfg: Config, a: Agent, env: Env, id: NavId)
    requires Sound(a) && !id.ToCharger?
    ensures AgentMoves(a, TreeTicked(cfg, a, env), id)
  {
    ChargeTicked(cfg, a, env);
    ChargeIsFlat(cfg, a, env);
    var t := ChargeFrom(cfg, a, a.chargeChild, env);
    NavSends(a.core, a.charger, ToCharger, cfg.charger, env.chargerReady, id);
    StillMoves(a.core.goals, t.agent.core.goals, RecoveryOf(a, id), id);
    if t.status.Failure? {
      TaskIsFlat(cfg, t.agent, env);
      TaskMoves(cfg, t.agent, env, id);
    } else {
      HaltMoves(t.agent, id);
    }
    var b := TreeTicked(cfg, a, env);
    MovesOn(a.core.goals, RecoveryOf(a, id), t.agent.core.goals, RecoveryOf(t.agent, id), b.core.goals, RecoveryOf(b, id), id);
  }

  // ---------------------------------------------------------------------------

  predicate Awaits(a: Agent, id: NavId, goal: nat) {
    var n := RecoveryOf(a, id);
    n.running && Awaited(n).Some? && Awaited(n).value.goal == Some(goal)
  }

  /** The callback that answers a goal of the given kind. */
  function Answer(phase: RecoveryPhase, id: NavId, goal: nat, ok: bool): Event {
    if phase.Spin? then SpinResult(id, goal, ok) else BackUpResult(id, goal, ok)
  }

  predicate Met(cfg: Config, start: Agent, events: seq<Event>, k: nat, e: Event, id: NavId, goal: nat) {
    k < |events| && events[k] == e && Awaits(Run(cfg, start, events[..k]), id, goal)
  }

  ghost predicate Confirmed(cfg: Config, start: Agent, events: seq<Event>, e: Event, id: NavId, goal: nat) {
    exists k: nat :: Met(cfg, start, events, k, e, id, goal)
  }

  lemma ConfirmedLater(cfg: Config, start: Agent, events: seq<Event>, e: Event, id: NavId, goal: nat)
    requires events != [] && Confirmed(cfg, start, events[..|events| - 1], e, id, goal)
    ensures Confirmed(cfg, start, events, e, id, goal)
  {
    var before := events[..|events| - 1];
    var k: nat :| Met(cfg, start, before, k, e, id, goal);
    assert before[..k] == events[..k];
    assert Met(cfg, start, events, k, e, id, goal);
  }

  lemma ConfirmedNow(cfg: Config, start: Agent, events: seq<Event>, id: NavId, goal: nat)
    requires events != [] && Awaits(Run(cfg, start, events[..|events| - 1]), id, goal)
    ensures Confirmed(cfg, start, events, events[|events| - 1], id, goal)
  {
    assert Met(cfg, start, events, |events| - 1, events[|events| - 1], id, goal);
  }

  /** The awaited record of leg `id` holds nothing but what the callback of its own goal said. */
  ghost predicate Backed(cfg: Config, start: Agent, events: seq<Event>, id: NavId) {
    var a := Run(cfg, start, events);
    var n := RecoveryOf(a, id);
    && Latest(a.core.goals, n, id)
    && (n.running && Awaited(n).Some? && Awaited(n).value.goal.Some? && Awaited(n).value.received ==>
          var goal := Awaited(n).value.goal.value;
          Confirmed(cfg, start, events, Answer(n.phase, id, goal, Awaited(n).value.success), id, goal))
  }

  /** A callback writes into the one record it is for. */
  lemma QuietStep(cfg: Config, a: Agent, e: Event, id: NavId)
    requires !e.BtTick? && !id.ToCharger?
    ensures var a' := Step(cfg, a, e);
            var n := RecoveryOf(a, id);
            && a'.core.goals == a.core.goals
            && RecoveryOf(a', id)
               == n.(spin := if e.SpinResult? && e.leg == id then Answered(n.spin, e.goal, e.ok) else n.spin,
                     backUp := if e.BackUpResult? && e.leg == id then Answered(n.backUp, e.goal, e.ok) else n.backUp)
  {
    if !e.SpinResult? && !e.BackUpResult? {
      assert RecoveryOf(Step(cfg, a, e), id) == RecoveryOf(a, id);
    }
  }

  lemma QuietAnswer(n: RecoveryNode, n': RecoveryNode, e: Event, id: NavId)
    requires !e.BtTick?
    requires n' == n.(spin := if e.SpinResult? && e.leg == id then Answered(n.spin, e.goal, e.ok) else n.spin,
                      backUp := if e.BackUpResult? && e.leg == id then Answered(n.backUp, e.goal, e.ok) else n.backUp)
    ensures Awaited(n').Some? <==> Awaited(n).Some?
    ensures Awaited(n').Some? ==>
              && Awaited(n').value.goal == Awaited(n).value.goal
              && (|| Awaited(n') == Awaited(n)
                  || (Awaited(n).value.goal.Some? && Awaited(n').value.received
                      && e == Answer(n.phase, id, Awaited(n).value.goal.value, Awaited(n').value.success)))
  {
  }

  /** Where the awaited record's answer comes from: the callback just delivered, or the record as
      it was. */
  lemma AnswerComesFrom(cfg: Config, a: Agent, e: Event, id: NavId)
    requires Sound(a) && !id.ToCharger? && Latest(a.core.goals, RecoveryOf(a, id), id)
    ensures var b := Step(cfg, a, e);
            var n, n' := RecoveryOf(a, id), RecoveryOf(b, id);
            && Latest(b.core.goals, n', id)
            && (n'.running && Awaited(n').Some? && Awaited(n').value.goal.Some? && Awaited(n').value.received ==>
                  var goal := Awaited(n').value.goal.value;
                  && Awaits(a, id, goal) && n.phase == n'.phase
                  && (|| e == Answer(n'.phase, id, goal, Awaited(n').value.success)
                      || (Awaited(n).value.received && Awaited(n).value.success == Awaited(n').value.success)))
  {
    if e.BtTick? {
      TickMoves(cfg, a, e.env, id);
    } else {
      QuietStep(cfg, a, e, id);
      QuietAnswer(RecoveryOf(a, id), RecoveryOf(Step(cfg, a, e), id), e, id);
    }
  }

  lemma BackedStep(cfg: Config, start: Agent, events: seq<Event>, id: NavId)
    requires events != [] && Sound(Run(cfg, start, events[..|events| - 1])) && !id.ToCharger?
    requires Backed(cfg, start, events[..|events| - 1], id)
    ensures Backed(cfg, start, events, id)
  {
    var last := events[|events| - 1];
    var a, b := Run(cfg, start, events[..|events| - 1]), Run(cfg, start, events);
    AnswerComesFrom(cfg, a, last, id);
    var n := RecoveryOf(b, id);
    if n.running && Awaited(n).Some? && Awaited(n).value.goal.Some? && Awaited(n).value.received {
      var goal := Awaited(n).value.goal.value;
      var answer := Answer(n.phase, id, goal, Awaited(n).value.success);
      ConfirmedNow(cfg, start, events, id, goal);
      if last != answer {
        ConfirmedLater(cfg, start, events, answer, id, goal);
      }
    }
  }

  lemma {:induction false} AlwaysBacked(cfg: Config, initialSoc: real, now: real, events: seq<Event>, id: NavId)
    requires !id.ToCharger?
    ensures Backed(cfg, Initial(initialSoc, now), events, id)
  {
    if events != [] {
      AlwaysSound(cfg, initialSoc, now, events[..|events| - 1]);
      AlwaysBacked(cfg, initialSoc, now, events[..|events| - 1], id);
      BackedStep(cfg, Initial(initialSoc, now), events, id);
    }
  }

  /** Every outcome a recovery is about to consume is either the failure made up for a server
      that was not ready, or what a callback said of the latest goal the recovery sent, of the
      kind its phase calls for, while it was waiting for that goal. */
  lemma OutcomesAreReal(cfg: Config, initialSoc: real, now: real, events: seq<Event>, id: NavId, ok: bool)
    requires !id.ToCharger?
    ensures var start := Initial(initialSoc, now);
            var a := Run(cfg, start, events);
            var n := RecoveryOf(a, id);
            n.running && Consumes(n) == [ok] ==>
              match Awaited(n).value.goal
              case None => !ok
              case Some(goal) =>
                && Latest(a.core.goals, n, id) && goal < |a.core.goals| && a.core.goals[goal] == PhaseGoal(n, id)
                && Confirmed(cfg, start, events, Answer(n.phase, id, goal, ok), id, goal)
  {
    AlwaysBacked(cfg, initialSoc, now, events, id);
    var n := RecoveryOf(Run(cfg, Initial(initialSoc, now), events), id);
    assert n.running && Consumes(n) == [ok] ==> Awaited(n).Some? && Awaited(n).value.received && Awaited(n).value.success == ok;
  }
}
