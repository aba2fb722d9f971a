/** What a pick or a drop has behind it: when the leg that leads there passed by a navigation, the
    robot was told so about a goal at the task's own place; otherwise its recovery was told that it
    spun and backed up. */
module Arrivals {
  import opened Options
  import opened Fsm
  import opened AgentModel
  import opened Invariants
  import opened FlatTree
  import opened TaskFlow
  import opened LegStream
  import opened Errands
  import Callbacks
  import Motion
  import RecoveryCallbacks
  import Retry

  function LegOf(a: Agent, id: NavId): Leg {
    if id.ToPick? then a.pick else a.drop
  }

  function PoseOf(c: Core, id: NavId): Point {
    if id.ToPick? then c.pickPose else c.dropPose
  }

  /** The navigation's record is of a goal at `pose`. */
  predicate GoesTo(goals: seq<Goal>, n: NavNode, id: NavId, pose: Point) {
    n.state.Some? && n.state.value.goal < |goals| && goals[n.state.value.goal] == NavGoal(id, pose)
  }

  predicate SameGoal(n: NavNode, n': NavNode) {
    (n'.state.Some? <==> n.state.Some?) && (n.state.Some? ==> n'.state.value.goal == n.state.value.goal)
  }

  function GoalOf(s: Option<RecovState>): Option<nat> {
    if s.Some? then s.value.goal else None
  }

  // ---------------------------------------------------------------------------
  // One tick of a leg
  // ---------------------------------------------------------------------------

  /** A running navigation keeps its goal or has sent a new one. */
  predicate NavGoesOn(n: NavNode, c': Core, n': NavNode, id: NavId, pose: Point) {
    n'.running ==> (n.running && SameGoal(n, n') && n.state.Some?) || GoesTo(c'.goals, n', id, pose)
  }

  /** A recovery moves to its back-up, and then to its end, only on a success. */
  predicate RecoveryGoesOn(n: RecoveryNode, n': RecoveryNode) {
    && (n'.running && n'.phase.BackUp? ==>
          && n.running && GoalOf(n'.spin) == GoalOf(n.spin)
          && (n.phase.BackUp? || (n.phase.Spin? && Consumes(n) == [true])))
    && (n'.running && n'.phase.Done? ==>
          && n.running && GoalOf(n'.spin) == GoalOf(n.spin) && GoalOf(n'.backUp) == GoalOf(n.backUp)
          && (n.phase.Done? || (n.phase.BackUp? && Consumes(n) == [true])))
  }

  predicate LegGoesOn(c: Core, l: Leg, c': Core, l': Leg, id: NavId, pose: Point) {
    c.goals <= c'.goals && NavGoesOn(l.nav, c', l'.nav, id, pose) && RecoveryGoesOn(l.recovery, l'.recovery)
  }

  lemma RecoveryTickedGoesOn(c: Core, n: RecoveryNode, leg: NavId, env: Env, maxAttempts: int)
    ensures var t := RecoveryTicked(c, n, leg, env, maxAttempts);
            c.goals <= t.core.goals && RecoveryGoesOn(n, t.node)
  {
    RecoveryTickedKeeps(c, n, leg, env, maxAttempts);
  }

  lemma FallbackGoesOn(c: Core, l: Leg, id: NavId, pose: Point, env: Env, maxAttempts: int)
    requires LegTickable(l)
    ensures var t := FallbackTicked(c, l, id, pose, env, maxAttempts);
            LegGoesOn(c, l, t.core, t.leg, id, pose)
  {
    if l.child == 0 {
      var n := NavTicked(c, l.nav, id, pose, env.navReady);
      RecoveryTickedGoesOn(n.core, l.recovery, id, env, maxAttempts);
    } else {
      RecoveryTickedGoesOn(c, l.recovery, id, env, maxAttempts);
    }
  }

  lemma {:induction false} RetryGoesOn(c: Core, l: Leg, id: NavId, pose: Point, env: Env)
    requires LegTickable(l)
    ensures var t := RetryTicked(c, l, id, pose, env, NAV_ROUNDS, RECOVERY_ATTEMPTS);
            LegGoesOn(c, l, t.core, t.leg, id, pose)
    decreases NAV_ROUNDS - l.tries
  {
    if l.tries < NAV_ROUNDS {
      FallbackGoesOn(c, l, id, pose, env, RECOVERY_ATTEMPTS);
      FallbackTickedKeeps(c, l, id, pose, env, RECOVERY_ATTEMPTS);
      var f := FallbackTicked(c, l, id, pose, env, RECOVERY_ATTEMPTS);
      if f.status.Failure? {
        RetryGoesOn(f.core, f.leg.(tries := l.tries + 1), id, pose, env);
      }
    }
  }

  /** How a leg passes: its navigation succeeds now, or its recovery has come to its end. */
  predicate Passes(c: Core, l: Leg, l': Leg) {
    || (l.child == 0 && NavRunning(c, l.nav).status.Success? && l'.nav.state == l.nav.state
        && l'.outcomes == l.outcomes + [true])
    || (l.child == 1 && l.recovery.phase.Done? && l'.recovery == l.recovery.(running := false)
        && l'.outcomes == l.outcomes)
  }

  lemma FreshLegDoesNotPass(c: Core, l: Leg, id: NavId, pose: Point, env: Env)
    requires !LegRunning(l) && l.child == 0 && l.tries <= NAV_ROUNDS
    ensures !RetryTicked(c, l, id, pose, env, NAV_ROUNDS, RECOVERY_ATTEMPTS).status.Success?
  {
  }

  lemma FallbackPasses(c: Core, l: Leg, id: NavId, pose: Point, env: Env)
    requires LegAwake(l)
    ensures var f := FallbackTicked(c, l, id, pose, env, RECOVERY_ATTEMPTS);
            f.status.Success? ==> Passes(c, l, f.leg)
  {
  }

  lemma LegPasses(c: Core, l: Leg, id: NavId, pose: Point, env: Env)
    requires LegAwake(l)
    ensures var t := LegTicked(c, l, id, pose, env);
            t.status.Success? ==> Passes(c, l, t.leg)
  {
    var f := FallbackTicked(c, l, id, pose, env, RECOVERY_ATTEMPTS);
    FallbackPasses(c, l, id, pose, env);
    FallbackTickedKeeps(c, l, id, pose, env, RECOVERY_ATTEMPTS);
    if f.status.Failure? {
      FreshLegDoesNotPass(f.core, f.leg.(tries := l.tries + 1), id, pose, env);
    }
  }

  // ---------------------------------------------------------------------------
  // One step of the agent
  // ---------------------------------------------------------------------------

  /** The agent is past the leg. */
  predicate Beyond(a: Agent, id: NavId) {
    if id.ToPick? then a.taskChild >= 2 else a.taskChild >= 4
  }

  predicate AtLeg(a: Agent, id: NavId) {
    a.taskChild == if id.ToPick? then 1 else 3
  }

  predicate SameRecords(l: Leg, l': Leg) {
    && SameGoal(l.nav, l'.nav) && l'.outcomes == l.outcomes
    && GoalOf(l'.recovery.spin) == GoalOf(l.recovery.spin) && GoalOf(l'.recovery.backUp) == GoalOf(l.recovery.backUp)
  }

  /** From `a` to `b` the leg goes on; the agent is past it if it was before, or if it passes now. */
  predicate GoesOn(a: Agent, b: Agent, id: NavId) {
    && LegGoesOn(a.core, LegOf(a, id), b.core, LegOf(b, id), id, PoseOf(b.core, id))
    && (a.taskChild != 0 ==> PoseOf(b.core, id) == PoseOf(a.core, id))
    && (Beyond(b, id) ==>
          || (Beyond(a, id) && SameRecords(LegOf(a, id), LegOf(b, id)))
          || (AtLeg(a, id) && Passes(a.core, LegOf(a, id), LegOf(b, id))))
  }

  lemma PickGoesOn(cfg: Config, a: Agent, env: Env)
    requires TaskShape(a)
    ensures GoesOn(a, TaskTicked(cfg, a, env).agent, ToPick)
  {
    TaskTickedCore(cfg, a, env);
    TaskSends(cfg, a, env);
    if a.taskChild == 0 && NextTask(a.core).Some? {
      var b := a.(core := TakeTask(a.core, env.now), waiting := false);
      RetryGoesOn(b.core, Entered(b.pick), ToPick, b.core.pickPose, env);
    } else if a.taskChild == 1 {
      RetryGoesOn(a.core, Entered(a.pick), ToPick, a.core.pickPose, env);
      LegPasses(a.core, a.pick, ToPick, a.core.pickPose, env);
    }
  }

  lemma DropGoesOn(cfg: Config, a: Agent, env: Env)
    requires TaskShape(a)
    ensures GoesOn(a, TaskTicked(cfg, a, env).agent, ToDrop)
  {
    TaskTickedCore(cfg, a, env);
    TaskSends(cfg, a, env);
    if a.taskChild == 2 {
      var b := a.(core := Fire(a.core, ExecutionDone), doPick := a.doPick.(running := false));
      RetryGoesOn(b.core, Entered(b.drop), ToDrop, b.core.dropPose, env);
    } else if a.taskChild == 3 {
      RetryGoesOn(a.core, Entered(a.drop), ToDrop, a.core.dropPose, env);
      LegPasses(a.core, a.drop, ToDrop, a.core.dropPose, env);
    }
  }

  /** A charge branch that fails while the task branch is awake has changed nothing the legs see. */
  lemma ChargeFailsQuietly(cfg: Config, a: Agent, env: Env)
    requires Sound(a) && TicksTasks(cfg, a, env)
    ensures var b := ChargeFrom(cfg, a, a.chargeChild, env).agent;
            SameTask(a, b) && b.core.goals == a.core.goals && (a.taskChild != 0 ==> b.core == a.core)
  {
  }

  lemma HaltGoesOn(cfg: Config, a: Agent, b: Agent, id: NavId)
    requires SameTask(a, b) && OnlyMotion(a.core, b.core.(soc := a.core.soc, charging := a.core.charging, charges := a.core.charges))
    requires a.core.goals <= b.core.goals
    ensures GoesOn(a, TaskHalt(b), id)
  {
  }

  lemma TickGoesOn(cfg: Config, a: Agent, env: Env, id: NavId)
    requires Sound(a) && !id.ToCharger?
    ensures GoesOn(a, TreeTicked(cfg, a, env), id)
  {
    ChargeTicked(cfg, a, env);
    var t := ChargeFrom(cfg, a, a.chargeChild, env);
    if t.status.Failure? {
      ChargeFailsQuietly(cfg, a, env);
      TaskIsFlat(cfg, t.agent, env);
      if id.ToPick? {
        PickGoesOn(cfg, t.agent, env);
      } else {
        DropGoesOn(cfg, t.agent, env);
      }
    } else {
      ChargeIsFlat(cfg, a, env);
      HaltGoesOn(cfg, a, t.agent, id);
    }
  }

  /** Two legs that differ in what their records say, not in whose they are. */
  predicate SameSpeech(l: Leg, l': Leg) {
    && SameLeg(l, l') && SameGoal(l.nav, l'.nav)
    && GoalOf(l'.recovery.spin) == GoalOf(l.recovery.spin) && GoalOf(l'.recovery.backUp) == GoalOf(l.recovery.backUp)
  }

  lemma NavSays(n: NavNode, e: Event)
    ensures e.NavResponse? ==> SameGoal(n, Responded(n, e.goal, e.accepted)) && SameNav(n, Responded(n, e.goal, e.accepted))
    ensures e.NavResult? ==> SameGoal(n, Resulted(n, e.goal, e.code)) && SameNav(n, Resulted(n, e.goal, e.code))
  {
  }

  lemma RecoverySays(n: RecoveryNode, e: Event)
    ensures e.SpinResult? ==> GoalOf(Answered(n.spin, e.goal, e.ok)) == GoalOf(n.spin)
    ensures e.BackUpResult? ==> GoalOf(Answered(n.backUp, e.goal, e.ok)) == GoalOf(n.backUp)
  {
  }

  /** A callback touches no goal number. */
  lemma CallbackSays(cfg: Config, a: Agent, e: Event)
    requires ActionCallback(e)
    ensures var b := Step(cfg, a, e);
            SameSpeech(a.pick, b.pick) && SameSpeech(a.drop, b.drop)
  {
    if e.NavResponse? || e.NavResult? {
      NavSays(NavOf(a, e.node), e);
    } else {
      RecoverySays(RecoveryOf(a, e.leg), e);
    }
  }

  lemma CallbackGoesOn(cfg: Config, a: Agent, e: Event, id: NavId)
    requires Sound(a) && ActionCallback(e) && !id.ToCharger?
    ensures GoesOn(a, Step(cfg, a, e), id)
  {
    CallbackKeeps(cfg, a, e);
    CallbackSays(cfg, a, e);
  }

  lemma StepGoesOn(cfg: Config, a: Agent, e: Event, id: NavId)
    requires Sound(a) && !id.ToCharger?
    ensures GoesOn(a, Step(cfg, a, e), id)
  {
    if e.BtTick? {
      TickGoesOn(cfg, a, e.env, id);
    } else if ActionCallback(e) {
      CallbackGoesOn(cfg, a, e, id);
    }
  }

  // ---------------------------------------------------------------------------
  // What was said on a run
  // ---------------------------------------------------------------------------

  /** The navigation's goal was accepted and succeeded, each said by a callback that met its record. */
  ghost predicate DriveSaid(cfg: Config, start: Agent, events: seq<Event>, n: NavNode, id: NavId) {
    && n.state.Some?
    && var goal := n.state.value.goal;
       && Callbacks.Confirmed(cfg, start, events, NavResponse(id, goal, true), id, goal)
       && Callbacks.Confirmed(cfg, start, events, NavResult(id, goal, Succeeded), id, goal)
  }

  ghost predicate SpinSaid(cfg: Config, start: Agent, events: seq<Event>, n: RecoveryNode, id: NavId) {
    && GoalOf(n.spin).Some?
    && var goal := GoalOf(n.spin).value;
       RecoveryCallbacks.Confirmed(cfg, start, events, SpinResult(id, goal, true), id, goal)
  }

  ghost predicate BackUpSaid(cfg: Config, start: Agent, events: seq<Event>, n: RecoveryNode, id: NavId) {
    && GoalOf(n.backUp).Some?
    && var goal := GoalOf(n.backUp).value;
       RecoveryCallbacks.Confirmed(cfg, start, events, BackUpResult(id, goal, true), id, goal)
  }

  lemma DriveSaidLater(cfg: Config, start: Agent, events: seq<Event>, n: NavNode, n': NavNode, id: NavId)
    requires events != [] && DriveSaid(cfg, start, events[..|events| - 1], n, id) && SameGoal(n, n')
    ensures DriveSaid(cfg, start, events, n', id)
  {
    var goal := n.state.value.goal;
    Callbacks.ConfirmedLater(cfg, start, events, NavResponse(id, goal, true), id, goal);
    Callbacks.ConfirmedLater(cfg, start, events, NavResult(id, goal, Succeeded), id, goal);
  }

  lemma SpinSaidLater(cfg: Config, start: Agent, events: seq<Event>, n: RecoveryNode, n': RecoveryNode, id: NavId)
    requires events != [] && SpinSaid(cfg, start, events[..|events| - 1], n, id) && GoalOf(n'.spin) == GoalOf(n.spin)
    ensures SpinSaid(cfg, start, events, n', id)
  {
    var goal := GoalOf(n.spin).value;
    RecoveryCallbacks.ConfirmedLater(cfg, start, events, SpinResult(id, goal, true), id, goal);
  }

  lemma BackUpSaidLater(cfg: Config, start: Agent, events: seq<Event>, n: RecoveryNode, n': RecoveryNode, id: NavId)
    requires events != [] && BackUpSaid(cfg, start, events[..|events| - 1], n, id) && GoalOf(n'.backUp) == GoalOf(n.backUp)
    ensures BackUpSaid(cfg, start, events, n', id)
  {
    var goal := GoalOf(n.backUp).value;
    RecoveryCallbacks.ConfirmedLater(cfg, start, events, BackUpResult(id, goal, true), id, goal);
  }

  // ---------------------------------------------------------------------------
  // A recovery on its way
  // ---------------------------------------------------------------------------

  /** A recovery that backs up was told that it spun; one at its end, also that it backed up. */
  ghost predicate RecoveryBacked(cfg: Config, start: Agent, events: seq<Event>, n: RecoveryNode, id: NavId) {
    && (n.running && n.phase.BackUp? ==> SpinSaid(cfg, start, events, n, id))
    && (n.running && n.phase.Done? ==> SpinSaid(cfg, start, events, n, id) && BackUpSaid(cfg, start, events, n, id))
  }

  /** A success a recovery is about to consume was said of the goal of its phase. */
  lemma SuccessIsSaid(cfg: Config, initialSoc: real, now: real, events: seq<Event>, id: NavId)
    requires !id.ToCharger?
    ensures var start := Initial(initialSoc, now);
            var n := RecoveryOf(Run(cfg, start, events), id);
            n.running && Consumes(n) == [true] ==>
              && (n.phase.Spin? ==> SpinSaid(cfg, start, events, n, id))
              && (n.phase.BackUp? ==> BackUpSaid(cfg, start, events, n, id))
  {
    RecoveryCallbacks.OutcomesAreReal(cfg, initialSoc, now, events, id, true);
  }

  /** What one step makes of it, given what was said before the step. */
  lemma RecoveryStaysBacked(cfg: Config, start: Agent, events: seq<Event>, n: RecoveryNode, n': RecoveryNode, id: NavId)
    requires events != [] && RecoveryGoesOn(n, n')
    requires RecoveryBacked(cfg, start, events[..|events| - 1], n, id)
    requires n.running && Consumes(n) == [true] ==>
               && (n.phase.Spin? ==> SpinSaid(cfg, start, events[..|events| - 1], n, id))
               && (n.phase.BackUp? ==> BackUpSaid(cfg, start, events[..|events| - 1], n, id))
    ensures RecoveryBacked(cfg, start, events, n', id)
  {
    if n'.running && (n'.phase.BackUp? || n'.phase.Done?) {
      SpinSaidLater(cfg, start, events, n, n', id);
    }
    if n'.running && n'.phase.Done? {
      BackUpSaidLater(cfg, start, events, n, n', id);
    }
  }

  lemma {:induction false} AlwaysRecoveryBacked(cfg: Config, initialSoc: real, now: real, events: seq<Event>, id: NavId)
    requires !id.ToCharger?
    ensures var start := Initial(initialSoc, now);
            RecoveryBacked(cfg, start, events, LegOf(Run(cfg, start, events), id).recovery, id)
  {
    if events != [] {
      var start := Initial(initialSoc, now);
      var before := events[..|events| - 1];
      var a := Run(cfg, start, before);
      AlwaysRecoveryBacked(cfg, initialSoc, now, before, id);
      AlwaysSound(cfg, initialSoc, now, before);
      StepGoesOn(cfg, a, events[|events| - 1], id);
      SuccessIsSaid(cfg, initialSoc, now, before, id);
      RecoveryStaysBacked(cfg, start, events, LegOf(a, id).recovery,
                          LegOf(Step(cfg, a, events[|events| - 1]), id).recovery, id);
    }
  }

  // ---------------------------------------------------------------------------
  // A leg behind
  // ---------------------------------------------------------------------------

  /** A running navigation goes to the leg's place. */
  predicate NavAimed(a: Agent, id: NavId) {
    LegOf(a, id).nav.running ==> GoesTo(a.core.goals, LegOf(a, id).nav, id, PoseOf(a.core, id))
  }

  /** What a leg that passed has behind it. */
  ghost predicate LegBacked(cfg: Config, start: Agent, events: seq<Event>, a: Agent, id: NavId) {
    var l := LegOf(a, id);
    if Stream(l.outcomes) == Retry.Passed(true)
    then DriveSaid(cfg, start, events, l.nav, id) && GoesTo(a.core.goals, l.nav, id, PoseOf(a.core, id))
    else SpinSaid(cfg, start, events, l.recovery, id) && BackUpSaid(cfg, start, events, l.recovery, id)
  }

  lemma LegStaysBacked(cfg: Config, start: Agent, events: seq<Event>, a: Agent, b: Agent, id: NavId)
    requires events != [] && LegBacked(cfg, start, events[..|events| - 1], a, id)
    requires SameRecords(LegOf(a, id), LegOf(b, id)) && a.core.goals <= b.core.goals
    requires PoseOf(b.core, id) == PoseOf(a.core, id)
    ensures LegBacked(cfg, start, events, b, id)
  {
    var l, l' := LegOf(a, id), LegOf(b, id);
    if Stream(l.outcomes) == Retry.Passed(true) {
      DriveSaidLater(cfg, start, events, l.nav, l'.nav, id);
    } else {
      SpinSaidLater(cfg, start, events, l.recovery, l'.recovery, id);
      BackUpSaidLater(cfg, start, events, l.recovery, l'.recovery, id);
    }
  }

  /** A navigation about to succeed was told so by callbacks of its goal. */
  lemma ArrivalIsSaid(cfg: Config, initialSoc: real, now: real, events: seq<Event>, id: NavId)
    ensures var start := Initial(initialSoc, now);
            var a := Run(cfg, start, events);
            NavOf(a, id).running && NavRunning(a.core, NavOf(a, id)).status.Success? ==>
              DriveSaid(cfg, start, events, NavOf(a, id), id)
  {
    Callbacks.ArrivalsAreReal(cfg, initialSoc, now, events, id);
  }

  /** A leg that passes in this step. */
  lemma LegPassesBacked(cfg: Config, start: Agent, events: seq<Event>, a: Agent, b: Agent, id: NavId)
    requires events != [] && !id.ToCharger?
    requires LegAwake(LegOf(a, id)) && Tracks(LegOf(a, id)) && Passes(a.core, LegOf(a, id), LegOf(b, id))
    requires NavAimed(a, id) && a.core.goals <= b.core.goals && PoseOf(b.core, id) == PoseOf(a.core, id)
    requires RecoveryBacked(cfg, start, events[..|events| - 1], LegOf(a, id).recovery, id)
    requires LegOf(a, id).nav.running && NavRunning(a.core, LegOf(a, id).nav).status.Success? ==>
               DriveSaid(cfg, start, events[..|events| - 1], LegOf(a, id).nav, id)
    ensures LegBacked(cfg, start, events, b, id)
  {
    var l, l' := LegOf(a, id), LegOf(b, id);
    if l.child == 0 {
      StreamReads(l.outcomes, true);
      DriveSaidLater(cfg, start, events, l.nav, l'.nav, id);
    } else {
      SpinSaidLater(cfg, start, events, l.recovery, l'.recovery, id);
      BackUpSaidLater(cfg, start, events, l.recovery, l'.recovery, id);
    }
  }

  lemma NavStaysAimed(a: Agent, b: Agent, id: NavId)
    requires Sound(a) && !id.ToCharger? && NavAimed(a, id) && GoesOn(a, b, id)
    ensures NavAimed(b, id)
  {
    assert LegOf(a, id).nav.running ==> a.taskChild != 0;
  }

  /** Everything known of a leg on a run. */
  ghost predicate Proven(cfg: Config, start: Agent, events: seq<Event>, id: NavId) {
    var a := Run(cfg, start, events);
    NavAimed(a, id) && (Beyond(a, id) ==> LegBacked(cfg, start, events, a, id))
  }

  lemma ProvenStep(cfg: Config, start: Agent, events: seq<Event>, a: Agent, b: Agent, id: NavId)
    requires events != [] && !id.ToCharger? && Sound(a) && LegsTrack(a) && NavAimed(a, id) && GoesOn(a, b, id)
    requires Beyond(a, id) ==> LegBacked(cfg, start, events[..|events| - 1], a, id)
    requires RecoveryBacked(cfg, start, events[..|events| - 1], LegOf(a, id).recovery, id)
    requires LegOf(a, id).nav.running && NavRunning(a.core, LegOf(a, id).nav).status.Success? ==>
               DriveSaid(cfg, start, events[..|events| - 1], LegOf(a, id).nav, id)
    ensures NavAimed(b, id) && (Beyond(b, id) ==> LegBacked(cfg, start, events, b, id))
  {
    NavStaysAimed(a, b, id);
    if Beyond(b, id) {
      if Beyond(a, id) && SameRecords(LegOf(a, id), LegOf(b, id)) {
        LegStaysBacked(cfg, start, events, a, b, id);
      } else {
        LegPassesBacked(cfg, start, events, a, b, id);
      }
    }
  }

  lemma {:induction false} AlwaysProven(cfg: Config, initialSoc: real, now: real, events: seq<Event>, id: NavId)
    requires !id.ToCharger?
    ensures Proven(cfg, Initial(initialSoc, now), events, id)
  {
    if events != [] {
      var start := Initial(initialSoc, now);
      var before := events[..|events| - 1];
      var a := Run(cfg, start, before);
      AlwaysProven(cfg, initialSoc, now, before, id);
      AlwaysSound(cfg, initialSoc, now, before);
      AlwaysTracks(cfg, initialSoc, now, before);
      AlwaysRecoveryBacked(cfg, initialSoc, now, before, id);
      ArrivalIsSaid(cfg, initialSoc, now, before, id);
      StepGoesOn(cfg, a, events[|events| - 1], id);
      ProvenStep(cfg, start, events, a, Step(cfg, a, events[|events| - 1]), id);
    }
  }

  /** The robot arrived: the leg's last outcome is a navigation's success, and on the run the goal of
      that navigation, sent to `pose`, was accepted and succeeded. */
  ghost predicate Arrived(cfg: Config, start: Agent, events: seq<Event>, id: NavId, pose: Point) {
    var a := Run(cfg, start, events);
    && LastIsArrival(LegOf(a, id))
    && GoesTo(a.core.goals, LegOf(a, id).nav, id, pose)
    && DriveSaid(cfg, start, events, LegOf(a, id).nav, id)
  }

  /** It made its way out: the leg's last outcomes are a recovery's, and on the run the goals of that
      recovery, a spin and a back-up, succeeded. */
  ghost predicate MadeItsWay(cfg: Config, start: Agent, events: seq<Event>, id: NavId) {
    var l := LegOf(Run(cfg, start, events), id);
    && !LastIsArrival(l)
    && SpinSaid(cfg, start, events, l.recovery, id) && BackUpSaid(cfg, start, events, l.recovery, id)
  }

  /** Past a leg, on every run, with the task in the slots: either the robot arrived at the task's own
      place, or a recovery made its way out and nobody knows where it stands. */
  lemma LegIsEarned(cfg: Config, initialSoc: real, now: real, events: seq<Event>, id: NavId)
    requires !id.ToCharger? && Beyond(Run(cfg, Initial(initialSoc, now), events), id)
    ensures var start := Initial(initialSoc, now);
            var active := SlotsOf(Run(cfg, start, events).core).active;
            && active.Some?
            && (|| Arrived(cfg, start, events, id, if id.ToPick? then active.value.pick else active.value.drop)
                || MadeItsWay(cfg, start, events, id))
  {
    AlwaysProven(cfg, initialSoc, now, events, id);
    AlwaysEarned(cfg, initialSoc, now, events);
    AlwaysOnErrand(cfg, initialSoc, now, events);
    AlwaysSound(cfg, initialSoc, now, events);
    DoneLeg(LegOf(Run(cfg, Initial(initialSoc, now), events), id));
  }

  /** A robot that picks has the pick leg behind it in this sense, and one that drops has both. */
  lemma PickingIsEarned(cfg: Config, initialSoc: real, now: real, events: seq<Event>)
    ensures var start := Initial(initialSoc, now);
            var a := Run(cfg, start, events);
            var active := SlotsOf(a.core).active;
            && (a.doPick.running || a.doDrop.running ==>
                  && active.Some?
                  && (Arrived(cfg, start, events, ToPick, active.value.pick) || MadeItsWay(cfg, start, events, ToPick)))
            && (a.doDrop.running ==>
                  Arrived(cfg, start, events, ToDrop, active.value.drop) || MadeItsWay(cfg, start, events, ToDrop))
  {
    var a := Run(cfg, Initial(initialSoc, now), events);
    AlwaysSound(cfg, initialSoc, now, events);
    if a.doPick.running || a.doDrop.running {
      LegIsEarned(cfg, initialSoc, now, events, ToPick);
    }
    if a.doDrop.running {
      LegIsEarned(cfg, initialSoc, now, events, ToDrop);
    }
  }

  // ---------------------------------------------------------------------------
  // What a robot shows that made its way
  // ---------------------------------------------------------------------------

  lemma FallbackPassShows(c: Core, l: Leg, id: NavId, pose: Point, env: Env)
    requires LegAwake(l) && Tracks(l)
    ensures var t := FallbackTicked(c, l, id, pose, env, RECOVERY_ATTEMPTS);
            t.status.Success? && Stream(t.leg.outcomes) == Retry.Passed(false) ==>
              l.recovery.running && t.core.fsm == if c.fsm.Recovering? then Assigned else c.fsm
  {
    FallbackPasses(c, l, id, pose, env);
    StreamReads(l.outcomes, true);
  }

  /** A leg that passes by its recovery takes RECOVERING to ASSIGNED and leaves every other state. */
  lemma LegPassShows(c: Core, l: Leg, id: NavId, pose: Point, env: Env)
    requires LegAwake(l) && Tracks(l)
    ensures var t := LegTicked(c, l, id, pose, env);
            t.status.Success? && Stream(t.leg.outcomes) == Retry.Passed(false) ==>
              l.recovery.running && t.core.fsm == if c.fsm.Recovering? then Assigned else c.fsm
  {
    var f := FallbackTicked(c, l, id, pose, env, RECOVERY_ATTEMPTS);
    FallbackPassShows(c, l, id, pose, env);
    FallbackTickedKeeps(c, l, id, pose, env, RECOVERY_ATTEMPTS);
    if f.status.Failure? {
      FreshLegDoesNotPass(f.core, f.leg.(tries := l.tries + 1), id, pose, env);
    }
  }

  /** The robot picks or drops after a leg that passed by its recovery. */
  predicate WorksOut(a: Agent) {
    || (a.taskChild == 2 && Stream(a.pick.outcomes) == Retry.Passed(false))
    || (a.taskChild == 4 && Stream(a.drop.outcomes) == Retry.Passed(false))
  }

  predicate ShowsNoDrive(a: Agent) {
    WorksOut(a) ==> !a.core.fsm.Navigating? && !a.core.fsm.Recovering?
  }

  lemma TaskShowsNoDrive(cfg: Config, a: Agent, env: Env)
    requires TaskShape(a) && LegsTrack(a) && Motion.Visible(a) && ShowsNoDrive(a)
    ensures ShowsNoDrive(TaskTicked(cfg, a, env).agent)
  {
    if a.taskChild == 1 {
      LegPassShows(a.core, a.pick, ToPick, a.core.pickPose, env);
    } else if a.taskChild == 3 {
      LegPassShows(a.core, a.drop, ToDrop, a.core.dropPose, env);
    }
  }

  lemma TickShowsNoDrive(cfg: Config, a: Agent, env: Env)
    requires Sound(a) && LegsTrack(a) && Motion.Visible(a) && ShowsNoDrive(a)
    ensures ShowsNoDrive(TreeTicked(cfg, a, env))
  {
    ChargeTicked(cfg, a, env);
    var t := ChargeFrom(cfg, a, a.chargeChild, env);
    if t.status.Failure? {
      ChargeFailsQuietly(cfg, a, env);
      Motion.ChargeMoves(cfg, a, env);
      TaskIsFlat(cfg, t.agent, env);
      TaskShowsNoDrive(cfg, t.agent, env);
    } else {
      TaskHaltKeeps(t.agent);
    }
  }

  lemma StepShowsNoDrive(cfg: Config, a: Agent, e: Event)
    requires Sound(a) && LegsTrack(a) && Motion.Visible(a) && ShowsNoDrive(a)
    ensures ShowsNoDrive(Step(cfg, a, e))
  {
    if e.BtTick? {
      TickShowsNoDrive(cfg, a, e.env);
    } else if ActionCallback(e) {
      CallbackKeeps(cfg, a, e);
    }
  }

  /** In every reachable state, a robot that picks or drops after a leg that passed by its recovery
      shows neither NAVIGATING nor RECOVERING. */
  lemma {:induction false} WorkShowsNoDrive(cfg: Config, initialSoc: real, now: real, events: seq<Event>)
    ensures ShowsNoDrive(Run(cfg, Initial(initialSoc, now), events))
  {
    if events != [] {
      var before := events[..|events| - 1];
      WorkShowsNoDrive(cfg, initialSoc, now, before);
      AlwaysSound(cfg, initialSoc, now, before);
      AlwaysTracks(cfg, initialSoc, now, before);
      Motion.AlwaysVisible(cfg, initialSoc, now, before);
      StepShowsNoDrive(cfg, Run(cfg, Initial(initialSoc, now), before), events[|events| - 1]);
    }
  }
}
