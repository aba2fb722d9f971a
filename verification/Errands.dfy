/** What a task's execution amounts to: the robot drives where the task says, it picks and drops
    only after the legs that lead there, and the duration it reports covers both operations. */
module Errands {
  import opened Options
  import opened Fsm
  import opened AgentModel
  import opened Invariants
  import opened FlatTree
  import opened TaskFlow
  import opened LegStream
  import Retry
  import Battery

  // ---------------------------------------------------------------------------
  // Where it drives
  // ---------------------------------------------------------------------------

  /** All navigation goals sent in between are of node `id` and lead to `pose`. */
  predicate SentTo(goals: seq<Goal>, goals': seq<Goal>, id: NavId, pose: Point) {
    && goals <= goals'
    && forall k :: |goals| <= k < |goals'| && goals'[k].NavGoal? ==> goals'[k] == NavGoal(id, pose)
  }

  lemma SentOn(g1: seq<Goal>, g2: seq<Goal>, g3: seq<Goal>, id: NavId, pose: Point)
    requires SentTo(g1, g2, id, pose) && SentTo(g2, g3, id, pose)
    ensures SentTo(g1, g3, id, pose)
  {
  }

  lemma FallbackSends(c: Core, l: Leg, id: NavId, pose: Point, env: Env, maxAttempts: int)
    ensures SentTo(c.goals, FallbackTicked(c, l, id, pose, env, maxAttempts).core.goals, id, pose)
  {
    if l.child == 0 {
      var n := NavTicked(c, l.nav, id, pose, env.navReady);
      assert SentTo(c.goals, n.core.goals, id, pose);
      RecoveryTickedKeeps(n.core, l.recovery, id, env, maxAttempts);
      SentOn(c.goals, n.core.goals, FallbackTicked(c, l, id, pose, env, maxAttempts).core.goals, id, pose);
    } else {
      RecoveryTickedKeeps(c, l.recovery, id, env, maxAttempts);
    }
  }

  lemma {:induction false} RetrySends(c: Core, l: Leg, id: NavId, pose: Point, env: Env, rounds: nat, maxAttempts: int)
    ensures SentTo(c.goals, RetryTicked(c, l, id, pose, env, rounds, maxAttempts).core.goals, id, pose)
    decreases rounds - l.tries
  {
    if l.tries < rounds {
      var f := FallbackTicked(c, l, id, pose, env, maxAttempts);
      FallbackSends(c, l, id, pose, env, maxAttempts);
      if f.status.Failure? {
        var again := f.leg.(tries := l.tries + 1);
        RetrySends(f.core, again, id, pose, env, rounds, maxAttempts);
        SentOn(c.goals, f.core.goals, RetryTicked(f.core, again, id, pose, env, rounds, maxAttempts).core.goals, id, pose);
      }
    }
  }

  /** A goal of the task branch: node and place are those of the leg, by the poses in `c`. */
  predicate LegGoal(c: Core, g: Goal) {
    g.NavGoal? ==> g == NavGoal(ToPick, c.pickPose) || g == NavGoal(ToDrop, c.dropPose)
  }

  lemma TaskSends(cfg: Config, a: Agent, env: Env)
    requires TaskShape(a)
    ensures var c' := TaskTicked(cfg, a, env).agent.core;
            && a.core.goals <= c'.goals
            && forall k :: |a.core.goals| <= k < |c'.goals| ==> LegGoal(c', c'.goals[k])
  {
    TaskTickedCore(cfg, a, env);
    if a.taskChild == 0 && NextTask(a.core).Some? {
      var b := a.(core := TakeTask(a.core, env.now), waiting := false);
      RetrySends(b.core, Entered(b.pick), ToPick, b.core.pickPose, env, NAV_ROUNDS, RECOVERY_ATTEMPTS);
    } else if a.taskChild == 1 {
      RetrySends(a.core, Entered(a.pick), ToPick, a.core.pickPose, env, NAV_ROUNDS, RECOVERY_ATTEMPTS);
    } else if a.taskChild == 2 {
      var b := a.(core := Fire(a.core, ExecutionDone), doPick := a.doPick.(running := false));
      RetrySends(b.core, Entered(b.drop), ToDrop, b.core.dropPose, env, NAV_ROUNDS, RECOVERY_ATTEMPTS);
    } else if a.taskChild == 3 {
      RetrySends(a.core, Entered(a.drop), ToDrop, a.core.dropPose, env, NAV_ROUNDS, RECOVERY_ATTEMPTS);
    }
  }

  /** The poses the legs read are those of the task in the slots, and past the request there is
      one. */
  predicate OnErrand(a: Agent) {
    var active := SlotsOf(a.core).active;
    && (active.Some? ==> a.core.pickPose == active.value.pick && a.core.dropPose == active.value.drop)
    && (a.taskChild != 0 ==> active.Some?)
  }

  /** A goal sent for a reason: to the dock with a low battery, or to where the task is picked up
      or dropped. */
  predicate Serves(cfg: Config, low: bool, active: Option<Task>, g: Goal) {
    g.NavGoal? ==>
      match g.node
      case ToCharger => low && g.pose == cfg.charger
      case ToPick => active.Some? && g.pose == active.value.pick
      case ToDrop => active.Some? && g.pose == active.value.drop
  }

  lemma LegGoalServes(cfg: Config, a: Agent, low: bool, g: Goal)
    requires OnErrand(a) && SlotsOf(a.core).active.Some? && LegGoal(a.core, g)
    ensures Serves(cfg, low, SlotsOf(a.core).active, g)
  {
  }

  lemma TaskTickOnErrand(cfg: Config, a: Agent, env: Env)
    requires TaskShape(a) && OneActive(a.core) && OnErrand(a)
    ensures var a' := TaskTicked(cfg, a, env).agent;
            && OnErrand(a')
            && a.core.goals <= a'.core.goals
            && (a'.core.goals == a.core.goals || SlotsOf(a'.core).active.Some?)
  {
    TaskSends(cfg, a, env);
    TaskTickedCore(cfg, a, env);
  }

  /** From `a` to `a'` only goals that serve were sent, and the errand is kept. */
  predicate GoesOn(cfg: Config, a: Agent, a': Agent) {
    && OnErrand(a')
    && a.core.goals <= a'.core.goals
    && forall k :: |a.core.goals| <= k < |a'.core.goals| ==>
         Serves(cfg, Battery.IsLow(a.core.soc), SlotsOf(a'.core).active, a'.core.goals[k])
  }

  lemma TaskServes(cfg: Config, a: Agent, env: Env)
    requires TaskShape(a) && OneActive(a.core) && OnErrand(a)
    ensures GoesOn(cfg, a, TaskTicked(cfg, a, env).agent)
  {
    TaskTickOnErrand(cfg, a, env);
    TaskSends(cfg, a, env);
    var a' := TaskTicked(cfg, a, env).agent;
    forall k | |a.core.goals| <= k < |a'.core.goals|
      ensures Serves(cfg, Battery.IsLow(a.core.soc), SlotsOf(a'.core).active, a'.core.goals[k])
    {
      LegGoalServes(cfg, a', Battery.IsLow(a.core.soc), a'.core.goals[k]);
    }
  }

  /** From `a` to `b` nothing but a drive to the dock was sent, and only with a low battery. */
  predicate DockOnly(cfg: Config, a: Agent, b: Agent) {
    && OnErrand(b) && OneActive(b.core)
    && (b.core.goals == a.core.goals
        || (Battery.IsLow(a.core.soc) && b.core.goals == a.core.goals + [NavGoal(ToCharger, cfg.charger)]))
  }

  lemma NavSends(c: Core, n: NavNode, id: NavId, pose: Point, ready: bool)
    ensures var t := NavTicked(c, n, id, pose, ready);
            t.core.goals == c.goals
            || (t.status.Running? && !n.running && t.core.goals == c.goals + [NavGoal(id, pose)])
  {
  }

  /** A tick of the charge branch leaves the tasks and poses alone, and this is what it can send. */
  lemma ChargeLeaves(cfg: Config, a: Agent, env: Env)
    requires Sound(a)
    ensures var t := ChargeFrom(cfg, a, a.chargeChild, env);
            var c' := t.agent.core;
            && c'.current == a.core.current && c'.interrupted == a.core.interrupted
            && c'.pickPose == a.core.pickPose && c'.dropPose == a.core.dropPose
            && (c'.goals == a.core.goals
                || (Battery.IsLow(a.core.soc) && !t.status.Failure?
                    && c'.goals == a.core.goals + [NavGoal(ToCharger, cfg.charger)]))
  {
    ChargeIsFlat(cfg, a, env);
    NavSends(a.core, a.charger, ToCharger, cfg.charger, env.chargerReady);
    NavTickedKeeps(a.core, a.charger, ToCharger, cfg.charger, env.chargerReady);
  }

  lemma ChargeSends(cfg: Config, a: Agent, env: Env)
    requires Sound(a) && OneActive(a.core) && OnErrand(a)
    ensures var t := ChargeFrom(cfg, a, a.chargeChild, env);
            DockOnly(cfg, a, t.agent) && (t.status.Failure? ==> t.agent.core.goals == a.core.goals)
  {
    ChargeTicked(cfg, a, env);
    ChargeLeaves(cfg, a, env);
  }

  lemma HaltServes(cfg: Config, a: Agent, b: Agent)
    requires DockOnly(cfg, a, b)
    ensures GoesOn(cfg, a, TaskHalt(b))
  {
    TaskHaltKeeps(b);
    var (c1, _) := LegHalt(b.core, b.pick);
    assert c1.goals == b.core.goals;
  }

  lemma TickServes(cfg: Config, a: Agent, env: Env)
    requires Sound(a) && OneActive(a.core) && OnErrand(a)
    ensures GoesOn(cfg, a, TreeTicked(cfg, a, env))
  {
    ChargeTicked(cfg, a, env);
    ChargeSends(cfg, a, env);
    var t := ChargeFrom(cfg, a, a.chargeChild, env);
    if t.status.Failure? {
      TaskIsFlat(cfg, t.agent, env);
      TaskServes(cfg, t.agent, env);
    } else {
      HaltServes(cfg, a, t.agent);
    }
  }

  lemma StepServes(cfg: Config, a: Agent, e: Event)
    requires Sound(a) && OneActive(a.core) && OnErrand(a)
    ensures GoesOn(cfg, a, Step(cfg, a, e))
  {
    if e.BtTick? {
      TickServes(cfg, a, e.env);
    } else if ActionCallback(e) {
      CallbackKeeps(cfg, a, e);
    }
  }

  lemma {:induction false} AlwaysOnErrand(cfg: Config, initialSoc: real, now: real, events: seq<Event>)
    ensures OnErrand(Run(cfg, Initial(initialSoc, now), events))
  {
    if events != [] {
      var before := events[..|events| - 1];
      AlwaysOnErrand(cfg, initialSoc, now, before);
      AlwaysSound(cfg, initialSoc, now, before);
      RunRefines(cfg, initialSoc, now, before);
      StepServes(cfg, Run(cfg, Initial(initialSoc, now), before), events[|events| - 1]);
    }
  }

  /** After any run, whatever comes next: a navigation goal is sent only to the dock, with a low
      battery, or to the pick or drop place of the task in the slots, by the node for it. */
  lemma GoalsServeTheTask(cfg: Config, initialSoc: real, now: real, events: seq<Event>, e: Event)
    ensures var a := Run(cfg, Initial(initialSoc, now), events);
            var a' := Step(cfg, a, e);
            && a.core.goals <= a'.core.goals
            && forall k :: |a.core.goals| <= k < |a'.core.goals| ==>
                 Serves(cfg, a.core.soc < 20.0, SlotsOf(a'.core).active, a'.core.goals[k])
  {
    AlwaysOnErrand(cfg, initialSoc, now, events);
    AlwaysSound(cfg, initialSoc, now, events);
    RunRefines(cfg, initialSoc, now, events);
    StepServes(cfg, Run(cfg, Initial(initialSoc, now), events), e);
  }

  /** With the charge branch asleep, a tick starts the drive to the dock if and only if the charge is
      below 20 and the navigation server is ready. */
  lemma DocksExactly(cfg: Config, a: Agent, env: Env)
    requires Sound(a) && a.chargeChild == 0
    ensures TreeTicked(cfg, a, env).charger.running <==> a.core.soc < 20.0 && env.chargerReady
  {
    ChargeTicked(cfg, a, env);
    ChargeIsFlat(cfg, a, env);
    var t := ChargeFrom(cfg, a, 0, env);
    if t.status.Failure? {
      TaskFromKeeps(cfg, t.agent, t.agent.taskChild, env);
    } else {
      TaskHaltKeeps(t.agent);
    }
  }

  // ---------------------------------------------------------------------------
  // What it has behind it
  // ---------------------------------------------------------------------------

  predicate LegDone(l: Leg) { Stream(l.outcomes).Passed? && Snug(l.outcomes) }

  /** Picking comes after a pick leg that passed, dropping after a drop leg that passed too. */
  predicate LegsDone(a: Agent) {
    && (a.taskChild >= 2 ==> LegDone(a.pick))
    && (a.taskChild >= 4 ==> LegDone(a.drop))
  }

  lemma TaskTickedEarns(cfg: Config, a: Agent, env: Env)
    requires TaskShape(a) && LegsTrack(a) && LegsDone(a)
    ensures LegsDone(TaskTicked(cfg, a, env).agent)
  {
    if a.taskChild == 1 {
      LegTickedTracks(a.core, a.pick, ToPick, a.core.pickPose, env);
    } else if a.taskChild == 3 {
      LegTickedTracks(a.core, a.drop, ToDrop, a.core.dropPose, env);
    }
  }

  lemma StepEarns(cfg: Config, a: Agent, e: Event)
    requires Sound(a) && LegsTrack(a) && LegsDone(a)
    ensures LegsDone(Step(cfg, a, e))
  {
    if e.BtTick? {
      ChargeTicked(cfg, a, e.env);
      var t := ChargeFrom(cfg, a, a.chargeChild, e.env);
      if t.status.Failure? {
        TaskIsFlat(cfg, t.agent, e.env);
        TaskTickedEarns(cfg, t.agent, e.env);
      } else {
        TaskHaltKeeps(t.agent);
      }
    } else if ActionCallback(e) {
      CallbackKeeps(cfg, a, e);
    }
  }

  lemma {:induction false} AlwaysEarned(cfg: Config, initialSoc: real, now: real, events: seq<Event>)
    ensures LegsDone(Run(cfg, Initial(initialSoc, now), events))
  {
    if events != [] {
      var before := events[..|events| - 1];
      AlwaysEarned(cfg, initialSoc, now, before);
      AlwaysSound(cfg, initialSoc, now, before);
      AlwaysTracks(cfg, initialSoc, now, before);
      StepEarns(cfg, Run(cfg, Initial(initialSoc, now), before), events[|events| - 1]);
    }
  }

  /** The leg's last outcome is a navigation's: the ones before it are whole lost rounds, and it is a
      success. */
  ghost predicate LastIsArrival(l: Leg) {
    && l.outcomes != [] && l.outcomes[|l.outcomes| - 1]
    && Retry.FewLostRounds(NAV_ROUNDS, RECOVERY_ATTEMPTS, l.outcomes[..|l.outcomes| - 1])
  }

  lemma DoneLeg(l: Leg)
    requires LegDone(l)
    ensures Stream(l.outcomes) == Retry.Passed(true) <==> LastIsArrival(l)
    ensures Stream(l.outcomes) == Retry.Passed(false) <==> !LastIsArrival(l)
  {
    Retry.PassedByArriving(NAV_ROUNDS, RECOVERY_ATTEMPTS, l.outcomes);
  }

  // ---------------------------------------------------------------------------
  // How long it takes
  // ---------------------------------------------------------------------------

  /** The clock at the last tick of the run. */
  function ClockOf(t0: real, events: seq<Event>): real {
    if events == [] then t0
    else if events[|events| - 1].BtTick? then events[|events| - 1].env.now
    else ClockOf(t0, events[..|events| - 1])
  }

  /** The clock never runs backwards between two ticks. */
  predicate ForwardTicks(t0: real, events: seq<Event>) {
    forall k :: 0 <= k < |events| && events[k].BtTick? ==> events[k].env.now >= ClockOf(t0, events[..k])
  }

  /** How much of the work the time since the task was started covers, at clock `t`. */
  predicate Timed(cfg: Config, a: Agent, t: real) {
    match a.taskChild
    case 0 => true
    case 1 => a.core.taskStart <= t
    case 2 => a.core.taskStart <= a.doPick.start && a.doPick.duration == cfg.pickSecs
    case 3 => t - a.core.taskStart >= cfg.pickSecs
    case _ => a.doDrop.start - a.core.taskStart >= cfg.pickSecs && a.doDrop.duration == cfg.dropSecs
  }

  predicate Covers(cfg: Config, cs: seq<Completion>) {
    forall i :: 0 <= i < |cs| ==> cs[i].duration >= cfg.pickSecs + cfg.dropSecs
  }

  lemma TaskTickTimed(cfg: Config, a: Agent, t: real, env: Env)
    requires TaskShape(a) && Timed(cfg, a, t) && env.now >= t && Covers(cfg, a.core.completions)
    ensures var a' := TaskTicked(cfg, a, env).agent;
            Timed(cfg, a', env.now) && Covers(cfg, a'.core.completions)
  {
    TaskTickedCore(cfg, a, env);
  }

  lemma TickTimed(cfg: Config, a: Agent, t: real, env: Env)
    requires Sound(a) && Timed(cfg, a, t) && env.now >= t && Covers(cfg, a.core.completions)
    ensures var a' := TreeTicked(cfg, a, env);
            Timed(cfg, a', env.now) && Covers(cfg, a'.core.completions)
  {
    ChargeTicked(cfg, a, env);
    ChargeIsFlat(cfg, a, env);
    NavTickedKeeps(a.core, a.charger, ToCharger, cfg.charger, env.chargerReady);
    var u := ChargeFrom(cfg, a, a.chargeChild, env);
    if u.status.Failure? {
      TaskIsFlat(cfg, u.agent, env);
      TaskTickTimed(cfg, u.agent, t, env);
    } else {
      TaskHaltKeeps(u.agent);
    }
  }

  lemma StepTimed(cfg: Config, a: Agent, t: real, e: Event)
    requires Sound(a) && Timed(cfg, a, t) && Covers(cfg, a.core.completions)
    requires e.BtTick? ==> e.env.now >= t
    ensures var a' := Step(cfg, a, e);
            Timed(cfg, a', if e.BtTick? then e.env.now else t) && Covers(cfg, a'.core.completions)
  {
    if e.BtTick? {
      TickTimed(cfg, a, t, e.env);
    } else if ActionCallback(e) {
      CallbackKeeps(cfg, a, e);
    }
  }

  /** If the clock never runs backwards, every duration ever reported covers a whole pick and a
      whole drop, whatever interruptions, recoveries and restarts came in between. */
  lemma {:induction false} DurationsCoverTheWork(cfg: Config, initialSoc: real, now: real, events: seq<Event>)
    requires ForwardTicks(now, events)
    ensures var a := Run(cfg, Initial(initialSoc, now), events);
            Timed(cfg, a, ClockOf(now, events)) && Covers(cfg, a.core.completions)
  {
    if events != [] {
      var before, last := events[..|events| - 1], events[|events| - 1];
      forall k | 0 <= k < |before| && before[k].BtTick?
        ensures before[k].env.now >= ClockOf(now, before[..k])
      {
        assert before[..k] == events[..k];
      }
      DurationsCoverTheWork(cfg, initialSoc, now, before);
      AlwaysSound(cfg, initialSoc, now, before);
      StepTimed(cfg, Run(cfg, Initial(initialSoc, now), before), ClockOf(now, before), last);
    }
  }
}
