/** What is said is recorded: the record of a goal holds exactly the last response and the last result
    that met it, and the robot acts on them at the next tick that reaches it. */
module Answers {
  import opened Options
  import opened Fsm
  import opened AgentModel
  import opened Invariants
  import opened FlatTree
  import opened TaskFlow
  import Callbacks
  import RecoveryCallbacks

  // ---------------------------------------------------------------------------
  // Navigation
  // ---------------------------------------------------------------------------

  /** The last response to goal `goal` that met its record, if there was one. */
  function LastResponse(cfg: Config, start: Agent, events: seq<Event>, id: NavId, goal: nat): Option<bool> {
    if events == [] then None
    else
      var before, last := events[..|events| - 1], events[|events| - 1];
      if last.NavResponse? && last.node == id && last.goal == goal && Callbacks.RecordFor(Run(cfg, start, before), id, goal)
      then Some(last.accepted)
      else LastResponse(cfg, start, before, id, goal)
  }

  /** The last result of goal `goal` that met its record, if there was one. */
  function LastResult(cfg: Config, start: Agent, events: seq<Event>, id: NavId, goal: nat): Option<ResultCode> {
    if events == [] then None
    else
      var before, last := events[..|events| - 1], events[|events| - 1];
      if last.NavResult? && last.node == id && last.goal == goal && Callbacks.RecordFor(Run(cfg, start, before), id, goal)
      then Some(last.code)
      else LastResult(cfg, start, before, id, goal)
  }

  /** The record that results from what was said. */
  function Recorded(goal: nat, response: Option<bool>, result: Option<ResultCode>): NavState {
    NavState(goal, response.Some?, response.Some? && response.value, result.Some?, if result.Some? then result.value else Unknown)
  }

  /** The node's record, if it has one, is exactly what was said of its goal. */
  ghost predicate RecordsSay(cfg: Config, start: Agent, events: seq<Event>, id: NavId) {
    var n := NavOf(Run(cfg, start, events), id);
    n.state.Some? ==>
      var goal := n.state.value.goal;
      n.state.value == Recorded(goal, LastResponse(cfg, start, events, id, goal), LastResult(cfg, start, events, id, goal))
  }

  /** Nothing was said of goals that were not sent yet. */
  ghost predicate NothingAhead(cfg: Config, start: Agent, events: seq<Event>, id: NavId) {
    forall g: nat :: g >= |Run(cfg, start, events).core.goals| ==>
      LastResponse(cfg, start, events, id, g).None? && LastResult(cfg, start, events, id, g).None?
  }

  lemma GoalsGrow(cfg: Config, a: Agent, e: Event, id: NavId)
    requires Sound(a)
    ensures |a.core.goals| <= |Step(cfg, a, e).core.goals|
  {
    if e.BtTick? {
      Callbacks.TickMoves(cfg, a, e.env, id);
    } else {
      Callbacks.QuietStep(cfg, a, e, id);
    }
  }

  lemma NothingAheadStep(cfg: Config, start: Agent, events: seq<Event>, id: NavId, g: nat)
    requires events != [] && Sound(Run(cfg, start, events[..|events| - 1]))
    requires NothingAhead(cfg, start, events[..|events| - 1], id)
    requires var a := Run(cfg, start, events[..|events| - 1]); Callbacks.Latest(a.core.goals, NavOf(a, id), id)
    requires g >= |Run(cfg, start, events).core.goals|
    ensures LastResponse(cfg, start, events, id, g).None? && LastResult(cfg, start, events, id, g).None?
  {
    var before := events[..|events| - 1];
    var a := Run(cfg, start, before);
    GoalsGrow(cfg, a, events[|events| - 1], id);
    assert !Callbacks.RecordFor(a, id, g);
    assert LastResponse(cfg, start, before, id, g).None?;
  }

  /** A step that is not a tick adds what it says. */
  lemma SaidStep(cfg: Config, start: Agent, events: seq<Event>, id: NavId)
    requires events != [] && !events[|events| - 1].BtTick?
    requires RecordsSay(cfg, start, events[..|events| - 1], id)
    ensures RecordsSay(cfg, start, events, id)
  {
    Callbacks.QuietStep(cfg, Run(cfg, start, events[..|events| - 1]), events[|events| - 1], id);
  }

  lemma TickedStep(cfg: Config, start: Agent, events: seq<Event>, id: NavId)
    requires events != [] && events[|events| - 1].BtTick? && Sound(Run(cfg, start, events[..|events| - 1]))
    requires RecordsSay(cfg, start, events[..|events| - 1], id) && NothingAhead(cfg, start, events[..|events| - 1], id)
    ensures RecordsSay(cfg, start, events, id)
  {
    var before := events[..|events| - 1];
    Callbacks.TickMoves(cfg, Run(cfg, start, before), events[|events| - 1].env, id);
    var n := NavOf(Run(cfg, start, events), id);
    if n.state.Some? {
      var goal := n.state.value.goal;
      assert LastResponse(cfg, start, events, id, goal) == LastResponse(cfg, start, before, id, goal);
      assert LastResult(cfg, start, events, id, goal) == LastResult(cfg, start, before, id, goal);
    }
  }

  /** On every run a navigation's record is exactly what was said of its goal, response and result, by
      the callbacks that met it: the last of each. */
  lemma {:induction false} AlwaysRecorded(cfg: Config, initialSoc: real, now: real, events: seq<Event>, id: NavId)
    ensures RecordsSay(cfg, Initial(initialSoc, now), events, id)
    ensures NothingAhead(cfg, Initial(initialSoc, now), events, id)
  {
    if events != [] {
      var start := Initial(initialSoc, now);
      var before := events[..|events| - 1];
      AlwaysRecorded(cfg, initialSoc, now, before, id);
      AlwaysSound(cfg, initialSoc, now, before);
      Callbacks.AlwaysBacked(cfg, initialSoc, now, before, id);
      forall g: nat | g >= |Run(cfg, start, events).core.goals|
        ensures LastResponse(cfg, start, events, id, g).None? && LastResult(cfg, start, events, id, g).None?
      {
        NothingAheadStep(cfg, start, events, id, g);
      }
      if events[|events| - 1].BtTick? {
        TickedStep(cfg, start, events, id);
      } else {
        SaidStep(cfg, start, events, id);
      }
    }
  }

  // ---------------------------------------------------------------------------
  // What the robot makes of it
  // ---------------------------------------------------------------------------

  /** What was said of a goal amounts to. */
  datatype Verdict = Pending | Refused | Reached

  function VerdictOf(response: Option<bool>, result: Option<ResultCode>): Verdict {
    if response.None? then Pending
    else if !response.value then Refused
    else if result.None? then Pending
    else if result.value.Succeeded? then Reached
    else Refused
  }

  function VerdictOn(cfg: Config, start: Agent, events: seq<Event>, id: NavId): Verdict {
    var n := NavOf(Run(cfg, start, events), id);
    if n.state.None? then Pending
    else VerdictOf(LastResponse(cfg, start, events, id, n.state.value.goal), LastResult(cfg, start, events, id, n.state.value.goal))
  }

  predicate SaysSo(n: NavNode, v: Verdict) {
    && n.state.Some?
    && var s := n.state.value;
       match v
       case Pending => !s.response || (s.accepted && !s.result)
       case Refused => s.response && (!s.accepted || (s.result && !s.code.Succeeded?))
       case Reached => s.response && s.accepted && s.result && s.code.Succeeded?
  }

  /** How a leg whose navigation runs comes out of a tick. */
  predicate LegHeeds(c: Core, l: Leg, v: Verdict, c': Core, l': Leg) {
    if c.fault || v.Refused? then
      && l'.outcomes == l.outcomes + [false] && !l'.nav.running
      && l'.recovery.running && l'.recovery.phase.Spin? && l'.recovery.attempt == 0
      && !c'.moving && !c'.fault && c'.fsm == (if c.fsm.Navigating? then Recovering else c.fsm)
    else if v.Reached? then
      && l'.outcomes == l.outcomes + [true] && !l'.nav.running && !l'.recovery.running
      && !c'.moving && c'.fsm == (if c.fsm.Navigating? then Executing else c.fsm)
    else
      l' == l && c' == c
  }

  /** How a running navigation comes out of a tick. */
  predicate NavHeeds(c: Core, n: NavNode, v: Verdict, t: NavTick) {
    if c.fault || v.Refused? then
      && t.status.Failure? && !t.node.running && !t.core.moving && !t.core.fault
      && t.core.fsm == (if c.fsm.Navigating? then Recovering else c.fsm)
    else if v.Reached? then
      && t.status.Success? && !t.node.running && !t.core.moving
      && t.core.fsm == (if c.fsm.Navigating? then Executing else c.fsm)
    else
      t == NavTick(Running, c, n)
  }

  lemma NavRunningHeeds(c: Core, n: NavNode, v: Verdict)
    requires SaysSo(n, v)
    ensures NavHeeds(c, n, v, NavRunning(c, n))
  {
  }

  lemma LegTickedHeeds(c: Core, l: Leg, id: NavId, pose: Point, env: Env, v: Verdict)
    requires LegAwake(l) && l.nav.running && SaysSo(l.nav, v)
    ensures var t := LegTicked(c, l, id, pose, env);
            && LegHeeds(c, l, v, t.core, t.leg)
            && (t.status.Success? <==> !c.fault && v.Reached?) && !t.status.Failure?
  {
    NavRunningHeeds(c, l.nav, v);
    StartedGoalKeeps(Fire(NavRunning(c, l.nav).core, NavFailed), l.recovery.(running := true, attempt := 0, phase := Spin), id,
                     env.spinReady);
  }

  lemma RecordedSaysSo(n: NavNode, response: Option<bool>, result: Option<ResultCode>)
    requires n.state.Some? && n.state.value == Recorded(n.state.value.goal, response, result)
    ensures SaysSo(n, VerdictOf(response, result))
  {
  }

  lemma RecordSaysSo(cfg: Config, initialSoc: real, now: real, events: seq<Event>, id: NavId)
    ensures var start := Initial(initialSoc, now);
            var n := NavOf(Run(cfg, start, events), id);
            n.state.Some? ==> SaysSo(n, VerdictOn(cfg, start, events, id))
  {
    AlwaysRecorded(cfg, initialSoc, now, events, id);
    var start := Initial(initialSoc, now);
    var n := NavOf(Run(cfg, start, events), id);
    if n.state.Some? {
      var goal := n.state.value.goal;
      RecordedSaysSo(n, LastResponse(cfg, start, events, id, goal), LastResult(cfg, start, events, id, goal));
    }
  }

  /** The tick reaches the leg's running navigation. */
  predicate ReachesPick(cfg: Config, a: Agent, env: Env) { TicksTasks(cfg, a, env) && a.pick.nav.running }

  predicate ReachesDrop(cfg: Config, a: Agent, env: Env) { TicksTasks(cfg, a, env) && a.drop.nav.running }

  lemma ChargeAsideQuiet(cfg: Config, a: Agent, env: Env)
    requires Sound(a) && TicksTasks(cfg, a, env) && a.taskChild != 0
    ensures var b := ChargeFrom(cfg, a, a.chargeChild, env).agent;
            SameTask(a, b) && b.core == a.core
  {
    ChargeTicked(cfg, a, env);
    ChargeIsFlat(cfg, a, env);
  }

  lemma PickHeeds(cfg: Config, a: Agent, env: Env, v: Verdict)
    requires Sound(a) && ReachesPick(cfg, a, env) && SaysSo(a.pick.nav, v)
    ensures var b := TreeTicked(cfg, a, env);
            LegHeeds(a.core, a.pick, v, b.core, b.pick) && b.taskChild == if !a.core.fault && v.Reached? then 2 else 1
  {
    ChargeAsideQuiet(cfg, a, env);
    TaskIsFlat(cfg, ChargeFrom(cfg, a, a.chargeChild, env).agent, env);
    LegTickedHeeds(a.core, a.pick, ToPick, a.core.pickPose, env, v);
  }

  lemma DropHeeds(cfg: Config, a: Agent, env: Env, v: Verdict)
    requires Sound(a) && ReachesDrop(cfg, a, env) && SaysSo(a.drop.nav, v)
    ensures var b := TreeTicked(cfg, a, env);
            LegHeeds(a.core, a.drop, v, b.core, b.drop) && b.taskChild == if !a.core.fault && v.Reached? then 4 else 3
  {
    ChargeAsideQuiet(cfg, a, env);
    TaskIsFlat(cfg, ChargeFrom(cfg, a, a.chargeChild, env).agent, env);
    LegTickedHeeds(a.core, a.drop, ToDrop, a.core.dropPose, env, v);
  }

  /** The same for the drive to the dock, which nothing recovers: refused, it hands the tick to the task
      branch; reached, the robot charges. */
  predicate DockHeeds(cfg: Config, a: Agent, v: Verdict, t: Tick) {
    if a.core.fault || v.Refused? then
      && t.status.Failure? && t.agent.chargeChild == 0 && !t.agent.charger.running
      && !t.agent.core.moving && !t.agent.core.fault
      && t.agent.core.fsm == (if a.core.fsm.Navigating? then Recovering else a.core.fsm)
    else if v.Reached? then
      t.status.Running? && t.agent.chargeChild == 2 && t.agent.chargeRunning && t.agent.core.fsm.Charging?
    else
      t.status.Running? && t.agent == a
  }

  lemma DockTickedHeeds(cfg: Config, a: Agent, env: Env, v: Verdict)
    requires Sound(a) && a.charger.running && SaysSo(a.charger, v)
    ensures DockHeeds(cfg, a, v, ChargeFrom(cfg, a, a.chargeChild, env))
  {
    ChargeTicked(cfg, a, env);
    ChargeIsFlat(cfg, a, env);
  }

  /** On every run, at the next tick that reaches a running navigation: told that its goal was rejected,
      or accepted and then ended by anything but success, or broken off by a fault, it fails, its leg
      consumes `false` and recovers; told that it succeeded, its leg consumes `true`; told nothing
      final, it waits. */
  lemma NavigationHeeds(cfg: Config, initialSoc: real, now: real, events: seq<Event>, env: Env)
    ensures var start := Initial(initialSoc, now);
            var a := Run(cfg, start, events);
            var b := TreeTicked(cfg, a, env);
            && (ReachesPick(cfg, a, env) ==> LegHeeds(a.core, a.pick, VerdictOn(cfg, start, events, ToPick), b.core, b.pick))
            && (ReachesDrop(cfg, a, env) ==> LegHeeds(a.core, a.drop, VerdictOn(cfg, start, events, ToDrop), b.core, b.drop))
            && (a.charger.running ==>
                  DockHeeds(cfg, a, VerdictOn(cfg, start, events, ToCharger), ChargeFrom(cfg, a, a.chargeChild, env)))
  {
    var start := Initial(initialSoc, now);
    var a := Run(cfg, start, events);
    AlwaysSound(cfg, initialSoc, now, events);
    if ReachesPick(cfg, a, env) {
      RecordSaysSo(cfg, initialSoc, now, events, ToPick);
      PickHeeds(cfg, a, env, VerdictOn(cfg, start, events, ToPick));
    }
    if ReachesDrop(cfg, a, env) {
      RecordSaysSo(cfg, initialSoc, now, events, ToDrop);
      DropHeeds(cfg, a, env, VerdictOn(cfg, start, events, ToDrop));
    }
    if a.charger.running {
      RecordSaysSo(cfg, initialSoc, now, events, ToCharger);
      DockTickedHeeds(cfg, a, env, VerdictOn(cfg, start, events, ToCharger));
    }
  }

  // ---------------------------------------------------------------------------
  // Recovery
  // ---------------------------------------------------------------------------

  /** The last answer to goal `goal` that met the recovery of leg `id` while it waited for it. */
  function LastAnswer(cfg: Config, start: Agent, events: seq<Event>, id: NavId, goal: nat): Option<bool> {
    if events == [] then None
    else
      var before, last := events[..|events| - 1], events[|events| - 1];
      var a := Run(cfg, start, before);
      if RecoveryCallbacks.Awaits(a, id, goal)
         && ((RecoveryOf(a, id).phase.Spin? && last.SpinResult? && last.leg == id && last.goal == goal)
             || (RecoveryOf(a, id).phase.BackUp? && last.BackUpResult? && last.leg == id && last.goal == goal))
      then Some(last.ok)
      else LastAnswer(cfg, start, before, id, goal)
  }

  /** The record a running recovery waits on is exactly what was said of its goal. */
  ghost predicate RecoverySays(cfg: Config, start: Agent, events: seq<Event>, id: NavId) {
    var n := RecoveryOf(Run(cfg, start, events), id);
    n.running && Awaited(n).Some? && Awaited(n).value.goal.Some? ==>
      var answer := LastAnswer(cfg, start, events, id, Awaited(n).value.goal.value);
      && (Awaited(n).value.received <==> answer.Some?)
      && (answer.Some? ==> Awaited(n).value.success == answer.value)
  }

  ghost predicate NoAnswerAhead(cfg: Config, start: Agent, events: seq<Event>, id: NavId) {
    forall g: nat :: g >= |Run(cfg, start, events).core.goals| ==> LastAnswer(cfg, start, events, id, g).None?
  }

  lemma NoAnswerAheadStep(cfg: Config, start: Agent, events: seq<Event>, id: NavId)
    requires events != [] && Sound(Run(cfg, start, events[..|events| - 1]))
    requires NoAnswerAhead(cfg, start, events[..|events| - 1], id)
    requires var a := Run(cfg, start, events[..|events| - 1]); RecoveryCallbacks.Latest(a.core.goals, RecoveryOf(a, id), id)
    ensures NoAnswerAhead(cfg, start, events, id)
  {
    var a := Run(cfg, start, events[..|events| - 1]);
    GoalsGrow(cfg, a, events[|events| - 1], id);
  }

  lemma AnsweredStep(cfg: Config, start: Agent, events: seq<Event>, id: NavId)
    requires events != [] && !events[|events| - 1].BtTick? && !id.ToCharger?
    requires RecoverySays(cfg, start, events[..|events| - 1], id)
    ensures RecoverySays(cfg, start, events, id)
  {
    RecoveryCallbacks.QuietStep(cfg, Run(cfg, start, events[..|events| - 1]), events[|events| - 1], id);
  }

  lemma RecoveryTickedStep(cfg: Config, start: Agent, events: seq<Event>, id: NavId)
    requires events != [] && events[|events| - 1].BtTick? && !id.ToCharger? && Sound(Run(cfg, start, events[..|events| - 1]))
    requires RecoverySays(cfg, start, events[..|events| - 1], id) && NoAnswerAhead(cfg, start, events[..|events| - 1], id)
    ensures RecoverySays(cfg, start, events, id)
  {
    var before := events[..|events| - 1];
    RecoveryCallbacks.TickMoves(cfg, Run(cfg, start, before), events[|events| - 1].env, id);
    var n := RecoveryOf(Run(cfg, start, events), id);
    if n.running && Awaited(n).Some? && Awaited(n).value.goal.Some? {
      var goal := Awaited(n).value.goal.value;
      assert LastAnswer(cfg, start, events, id, goal) == LastAnswer(cfg, start, before, id, goal);
    }
  }

  /** On every run, what a recovery waits on is answered if and only if a callback of its present goal,
      of the kind its phase calls for, met it, and then holds what the last one said, success or
      not; what it makes of that is `LegStream.RecoveryTracks`. */
  lemma {:induction false} AlwaysAnswered(cfg: Config, initialSoc: real, now: real, events: seq<Event>, id: NavId)
    requires !id.ToCharger?
    ensures RecoverySays(cfg, Initial(initialSoc, now), events, id)
    ensures NoAnswerAhead(cfg, Initial(initialSoc, now), events, id)
  {
    if events != [] {
      var start := Initial(initialSoc, now);
      var before := events[..|events| - 1];
      AlwaysAnswered(cfg, initialSoc, now, before, id);
      AlwaysSound(cfg, initialSoc, now, before);
      RecoveryCallbacks.AlwaysBacked(cfg, initialSoc, now, before, id);
      NoAnswerAheadStep(cfg, start, events, id);
      if events[|events| - 1].BtTick? {
        RecoveryTickedStep(cfg, start, events, id);
      } else {
        AnsweredStep(cfg, start, events, id);
      }
    }
  }
}
