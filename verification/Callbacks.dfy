/** Callbacks come late, twice, out of order, or for goals long abandoned. What a navigation or
    a recovery acts on is nevertheless always the answer to its own latest goal. */
module Callbacks {
  import opened Fsm
  import opened AgentModel
  import opened Invariants
  import opened FlatTree

  // ---------------------------------------------------------------------------
  // Navigation records and the goals sent
  // ---------------------------------------------------------------------------

  predicate IsNavGoal(g: Goal, id: NavId) { g.NavGoal? && g.node == id }

  predicate NoneSince(goals: seq<Goal>, from: nat, id: NavId) {
    forall g :: from <= g < |goals| ==> !IsNavGoal(goals[g], id)
  }

  /** Goals were sent, but none by navigation `id`. */
  predicate Quiet(goals: seq<Goal>, goals': seq<Goal>, id: NavId) {
    goals <= goals' && NoneSince(goals', |goals|, id)
  }

  /** The record is for the latest goal its node sent. */
  predicate Latest(goals: seq<Goal>, n: NavNode, id: NavId) {
    n.state.Some? ==>
      && n.state.value.goal < |goals|
      && IsNavGoal(goals[n.state.value.goal], id)
      && NoneSince(goals, n.state.value.goal + 1, id)
  }

  /** A record just made for a goal sent in the meantime. */
  predicate FreshRecord(goals: seq<Goal>, goals': seq<Goal>, n: NavNode, id: NavId) {
    && n.state.Some? && n.state.value == NavState(n.state.value.goal, false, false, false, Unknown)
    && |goals| <= n.state.value.goal && Latest(goals', n, id)
  }

  /** A tick keeps a record and stays quiet, lets it go, or makes a fresh one. */
  predicate Moves(goals: seq<Goal>, n: NavNode, goals': seq<Goal>, n': NavNode, id: NavId) {
    && goals <= goals'
    && (n'.state.Some? ==> (n'.state == n.state && Quiet(goals, goals', id)) || FreshRecord(goals, goals', n', id))
  }

  lemma MovesOn(g1: seq<Goal>, n1: NavNode, g2: seq<Goal>, n2: NavNode, g3: seq<Goal>, n3: NavNode, id: NavId)
    requires Moves(g1, n1, g2, n2, id) && Moves(g2, n2, g3, n3, id)
    ensures Moves(g1, n1, g3, n3, id)
  {
  }

  lemma NavMoves(c: Core, n: NavNode, node: NavId, pose: Point, ready: bool, id: NavId)
    ensures var t := NavTicked(c, n, node, pose, ready);
            if id == node then Moves(c.goals, n, t.core.goals, t.node, id) else Quiet(c.goals, t.core.goals, id)
  {
  }

  lemma RecoverySends(c: Core, n: RecoveryNode, leg: NavId, env: Env, maxAttempts: int, id: NavId)
    ensures Quiet(c.goals, RecoveryTicked(c, n, leg, env, maxAttempts).core.goals, id)
  {
    RecoveryTickedKeeps(c, n, leg, env, maxAttempts);
  }

  predicate LegMoves(c: Core, l: Leg, c': Core, l': Leg, leg: NavId, id: NavId) {
    if id == leg then Moves(c.goals, l.nav, c'.goals, l'.nav, id) else Quiet(c.goals, c'.goals, id)
  }

  lemma LegMovesOn(c1: Core, l1: Leg, c2: Core, l2: Leg, c3: Core, l3: Leg, leg: NavId, id: NavId)
    requires LegMoves(c1, l1, c2, l2, leg, id) && LegMoves(c2, l2, c3, l3, leg, id)
    ensures LegMoves(c1, l1, c3, l3, leg, id)
  {
  }

  lemma FallbackMoves(c: Core, l: Leg, leg: NavId, pose: Point, env: Env, maxAttempts: int, id: NavId)
    ensures var t := FallbackTicked(c, l, leg, pose, env, maxAttempts);
            LegMoves(c, l, t.core, t.leg, leg, id)
  {
    if l.child == 0 {
      var n := NavTicked(c, l.nav, leg, pose, env.navReady);
      NavMoves(c, l.nav, leg, pose, env.navReady, id);
      RecoverySends(n.core, l.recovery, leg, env, maxAttempts, id);
      if n.status.Failure? && id == leg {
        var t := FallbackTicked(c, l, leg, pose, env, maxAttempts);
        MovesOn(c.goals, l.nav, n.core.goals, n.node, t.core.goals, t.leg.nav, id);
      }
    } else {
      RecoverySends(c, l.recovery, leg, env, maxAttempts, id);
    }
  }

  lemma {:induction false} RetryMoves(c: Core, l: Leg, leg: NavId, pose: Point, env: Env, rounds: nat, maxAttempts: int, id: NavId)
    ensures var t := RetryTicked(c, l, leg, pose, env, rounds, maxAttempts);
            LegMoves(c, l, t.core, t.leg, leg, id)
    decreases rounds - l.tries
  {
    if l.tries < rounds {
      var f := FallbackTicked(c, l, leg, pose, env, maxAttempts);
      FallbackMoves(c, l, leg, pose, env, maxAttempts, id);
      if f.status.Failure? {
        var again := f.leg.(tries := l.tries + 1);
        var t := RetryTicked(f.core, again, leg, pose, env, rounds, maxAttempts);
        RetryMoves(f.core, again, leg, pose, env, rounds, maxAttempts, id);
        LegMovesOn(c, l, f.core, again, t.core, t.leg, leg, id);
      }
    }
  }

  predicate AgentMoves(a: Agent, a': Agent, id: NavId) {
    Moves(a.core.goals, NavOf(a, id), a'.core.goals, NavOf(a', id), id)
  }

  lemma TaskMoves(cfg: Config, a: Agent, env: Env, id: NavId)
    requires TaskShape(a)
    ensures AgentMoves(a, TaskTicked(cfg, a, env).agent, id)
  {
    if a.taskChild == 0 && NextTask(a.core).Some? {
      var b := a.(core := TakeTask(a.core, env.now), waiting := false);
      RetryMoves(b.core, Entered(b.pick), ToPick, b.core.pickPose, env, NAV_ROUNDS, RECOVERY_ATTEMPTS, id);
    } else if a.taskChild == 1 {
      RetryMoves(a.core, Entered(a.pick), ToPick, a.core.pickPose, env, NAV_ROUNDS, RECOVERY_ATTEMPTS, id);
    } else if a.taskChild == 2 {
      var b := a.(core := Fire(a.core, ExecutionDone), doPick := a.doPick.(running := false));
      RetryMoves(b.core, Entered(b.drop), ToDrop, b.core.dropPose, env, NAV_ROUNDS, RECOVERY_ATTEMPTS, id);
    } else if a.taskChild == 3 {
      RetryMoves(a.core, Entered(a.drop), ToDrop, a.core.dropPose, env, NAV_ROUNDS, RECOVERY_ATTEMPTS, id);
    }
  }

  lemma HaltMoves(a: Agent, id: NavId)
    ensures AgentMoves(a, TaskHalt(a), id)
  {
  }

  lemma TickMoves(cfg: Config, a: Agent, env: Env, id: NavId)
    requires Sound(a)
    ensures AgentMoves(a, TreeTicked(cfg, a, env), id)
  {
    ChargeTicked(cfg, a, env);
    ChargeIsFlat(cfg, a, env);
    var t := ChargeFrom(cfg, a, a.chargeChild, env);
    NavMoves(a.core, a.charger, ToCharger, cfg.charger, env.chargerReady, id);
    assert AgentMoves(a, t.agent, id);
    if t.status.Failure? {
      TaskIsFlat(cfg, t.agent, env);
      TaskMoves(cfg, t.agent, env, id);
    } else {
      HaltMoves(t.agent, id);
    }
    var b := TreeTicked(cfg, a, env);
    MovesOn(a.core.goals, NavOf(a, id), t.agent.core.goals, NavOf(t.agent, id), b.core.goals, NavOf(b, id), id);
  }

  // ---------------------------------------------------------------------------
  // Every answer acted on was given to the latest goal
  // ---------------------------------------------------------------------------

  predicate RecordFor(a: Agent, id: NavId, goal: nat) {
    NavOf(a, id).state.Some? && NavOf(a, id).state.value.goal == goal
  }

  /** Callback `e` was the `k`-th event of the run and met the record of goal `goal`. */
  predicate Met(cfg: Config, start: Agent, events: seq<Event>, k: nat, e: Event, id: NavId, goal: nat) {
    k < |events| && events[k] == e && RecordFor(Run(cfg, start, events[..k]), id, goal)
  }

  ghost predicate Confirmed(cfg: Config, start: Agent, events: seq<Event>, e: Event, id: NavId, goal: nat) {
    exists k: nat :: Met(cfg, start, events, k, e, id, goal)
  }

  /** The record of navigation `id` holds nothing but what callbacks of its own goal, the latest
      one sent, have said. */
  ghost predicate Backed(cfg: Config, start: Agent, events: seq<Event>, id: NavId) {
    var a := Run(cfg, start, events);
    && Latest(a.core.goals, NavOf(a, id), id)
    && (NavOf(a, id).state.Some? ==>
          var s := NavOf(a, id).state.value;
          && (s.response ==> Confirmed(cfg, start, events, NavResponse(id, s.goal, s.accepted), id, s.goal))
          && (s.result ==> Confirmed(cfg, start, events, NavResult(id, s.goal, s.code), id, s.goal)))
  }

  lemma ConfirmedLater(cfg: Config, start: Agent, events: seq<Event>, e: Event, id: NavId, goal: nat)
    requires events != [] && Confirmed(cfg, start, events[..|events| - 1], e, id, goal)
    ensures Confirmed(cfg, start, events, e, id, goal)
  {
    var before := events[..|events| - 1];
    var k: nat :| Met(cfg, start, before, k, e, id, goal);
    assert before[..k] == events[..k];
    assert Met(cfg, start, events, k, e, id, goal);
  }

  lemma ConfirmedNow(cfg: Config, start: Agent, events: seq<Event>, id: NavId, goal: nat)
    requires events != [] && RecordFor(Run(cfg, start, events[..|events| - 1]), id, goal)
    ensures Confirmed(cfg, start, events, events[|events| - 1], id, goal)
  {
    assert Met(cfg, start, events, |events| - 1, events[|events| - 1], id, goal);
  }

  /** A step that is not a tick leaves the goals alone, and a record with them unless the
      callback is for it. */
  lemma QuietStep(cfg: Config, a: Agent, e: Event, id: NavId)
    requires !e.BtTick?
    ensures var a' := Step(cfg, a, e);
            && a'.core.goals == a.core.goals
            && NavOf(a', id).state
               == (if e.NavResponse? && e.node == id then Responded(NavOf(a, id), e.goal, e.accepted).state
                   else if e.NavResult? && e.node == id then Resulted(NavOf(a, id), e.goal, e.code).state
                   else NavOf(a, id).state)
  {
  }

  /** What a record says after a step, by who said it. */
  predicate AnswersFrom(n: NavNode, n': NavNode, e: Event, id: NavId) {
    n'.state.Some? ==>
      && (n'.state.value.response || n'.state.value.result ==> n.state.Some? && n.state.value.goal == n'.state.value.goal)
      && (n'.state.value.response ==>
            || e == NavResponse(id, n'.state.value.goal, n'.state.value.accepted)
            || (n.state.value.response && n.state.value.accepted == n'.state.value.accepted))
      && (n'.state.value.result ==>
            || e == NavResult(id, n'.state.value.goal, n'.state.value.code)
            || (n.state.value.result && n.state.value.code == n'.state.value.code))
  }

  lemma MovesAnswer(goals: seq<Goal>, n: NavNode, goals': seq<Goal>, n': NavNode, e: Event, id: NavId)
    requires Moves(goals, n, goals', n', id)
    ensures AnswersFrom(n, n', e, id)
    ensures Latest(goals, n, id) ==> Latest(goals', n', id)
  {
  }

  /** Where a record's answers come from: the callback just delivered, which met the record, or
      the record as it was. */
  lemma AnswersComeFrom(cfg: Config, a: Agent, e: Event, id: NavId)
    requires Sound(a)
    ensures var b := Step(cfg, a, e);
            && (Latest(a.core.goals, NavOf(a, id), id) ==> Latest(b.core.goals, NavOf(b, id), id))
            && AnswersFrom(NavOf(a, id), NavOf(b, id), e, id)
  {
    var b := Step(cfg, a, e);
    if e.BtTick? {
      TickMoves(cfg, a, e.env, id);
      MovesAnswer(a.core.goals, NavOf(a, id), b.core.goals, NavOf(b, id), e, id);
    } else {
      QuietStep(cfg, a, e, id);
    }
  }

  lemma BackedStep(cfg: Config, start: Agent, events: seq<Event>, id: NavId)
    requires events != [] && Sound(Run(cfg, start, events[..|events| - 1]))
    requires Backed(cfg, start, events[..|events| - 1], id)
    ensures Backed(cfg, start, events, id)
  {
    var last := events[|events| - 1];
    var a, b := Run(cfg, start, events[..|events| - 1]), Run(cfg, start, events);
    AnswersComeFrom(cfg, a, last, id);
    if NavOf(b, id).state.Some? {
      var s := NavOf(b, id).state.value;
      if RecordFor(a, id, s.goal) {
        ConfirmedNow(cfg, start, events, id, s.goal);
      }
      if s.response && last != NavResponse(id, s.goal, s.accepted) {
        ConfirmedLater(cfg, start, events, NavResponse(id, s.goal, s.accepted), id, s.goal);
      }
      if s.result && last != NavResult(id, s.goal, s.code) {
        ConfirmedLater(cfg, start, events, NavResult(id, s.goal, s.code), id, s.goal);
      }
    }
  }

  lemma {:induction false} AlwaysBacked(cfg: Config, initialSoc: real, now: real, events: seq<Event>, id: NavId)
    ensures Backed(cfg, Initial(initialSoc, now), events, id)
  {
    if events != [] {
      AlwaysSound(cfg, initialSoc, now, events[..|events| - 1]);
      AlwaysBacked(cfg, initialSoc, now, events[..|events| - 1], id);
      BackedStep(cfg, Initial(initialSoc, now), events, id);
    }
  }

  /** A navigation that succeeds was told so about the latest goal it sent: that goal was
      accepted and its result was success, each said by a callback that met the goal's own
      record. Whatever other callbacks came makes no difference. */
  lemma ArrivalsAreReal(cfg: Config, initialSoc: real, now: real, events: seq<Event>, id: NavId)
    ensures var start := Initial(initialSoc, now);
            var a := Run(cfg, start, events);
            NavOf(a, id).running && NavRunning(a.core, NavOf(a, id)).status.Success? ==>
              var goal := NavOf(a, id).state.value.goal;
              && Latest(a.core.goals, NavOf(a, id), id)
              && Confirmed(cfg, start, events, NavResponse(id, goal, true), id, goal)
              && Confirmed(cfg, start, events, NavResult(id, goal, Succeeded), id, goal)
  {
    AlwaysBacked(cfg, initialSoc, now, events, id);
  }
}
