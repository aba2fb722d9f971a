/** Runs that show what the agent does not promise, next to the conditions under which it does.
    All of them keep one clock, and their battery updates come every 100 ms. */
module Counterexamples {
  import opened Options
  import opened Fsm
  import opened AgentModel
  import opened Invariants
  import opened FlatTree
  import opened Slots
  import opened TaskFlow
  import Honesty
  import Retry
  import Battery

  const CFG := Config("robot_1", Point(0.0, 0.0), 0.05, 0.05)
  const FIRST := Task("first", "robot_1", Point(1.0, 0.0), Point(2.0, 0.0))
  const SECOND := Task("second", "robot_1", Point(3.0, 0.0), Point(4.0, 0.0))

  // ---------------------------------------------------------------------------
  // One clock
  // ---------------------------------------------------------------------------

  predicate Timed(e: Event) { e.BtTick? || e.BatteryTick? }

  function TimeIn(e: Event): real
    requires Timed(e)
  {
    if e.BtTick? then e.env.now else e.now
  }

  /** The clock at the last tick or battery update, and at the last battery update, from 0. */
  function Clock(events: seq<Event>): real {
    if events == [] then 0.0
    else if Timed(events[|events| - 1]) then TimeIn(events[|events| - 1])
    else Clock(events[..|events| - 1])
  }

  function BatteryClock(events: seq<Event>): real {
    if events == [] then 0.0
    else if events[|events| - 1].BatteryTick? then events[|events| - 1].now
    else BatteryClock(events[..|events| - 1])
  }

  /** The clock never runs backwards, and no battery update is more than 100 ms late. */
  predicate OnTime(events: seq<Event>) {
    events == []
    || (OnTime(events[..|events| - 1])
        && (Timed(events[|events| - 1]) ==>
              Clock(events[..|events| - 1]) <= TimeIn(events[|events| - 1])
              <= BatteryClock(events[..|events| - 1]) + 0.1))
  }

  /** A run that is on time, where its clocks stand, and the state it leads to. */
  predicate Leads(soc: real, events: seq<Event>, clock: real, battery: real, a: Agent) {
    && OnTime(events) && Clock(events) == clock && BatteryClock(events) == battery
    && Run(CFG, Initial(soc, 0.0), events) == a
  }

  lemma Onward(soc: real, events: seq<Event>, clock: real, battery: real, a: Agent, e: Event)
    requires Leads(soc, events, clock, battery, a)
    requires Timed(e) ==> clock <= TimeIn(e) <= battery + 0.1
    ensures Leads(soc, events + [e], if Timed(e) then TimeIn(e) else clock, if e.BatteryTick? then e.now else battery,
                  Step(CFG, a, e))
    ensures Sound(a)
  {
    assert (events + [e])[..|events|] == events;
    AlwaysSound(CFG, soc, 0.0, events);
  }

  function Ready(now: real): Event { BtTick(Env(now, true, true, true, true)) }

  function Unready(now: real): Event { BtTick(Env(now, false, false, false, false)) }

  // ---------------------------------------------------------------------------
  // Stages
  // ---------------------------------------------------------------------------

  /** The robot is on `FIRST`, at child `i`, and the charge branch sleeps. */
  predicate On(a: Agent, i: nat) {
    && Sound(a) && a.chargeChild == 0 && a.taskChild == i
    && a.core.current == Some(FIRST) && a.core.interrupted.None? && !a.core.fault && a.core.cancels == []
  }

  /** Navigation `id` has sent goal `goal` and heard nothing yet. */
  predicate Sends(a: Agent, id: NavId, goal: nat) {
    NavOf(a, id).running && NavOf(a, id).state == Some(NavState(goal, false, false, false, Unknown))
  }

  predicate Succeeds(n: NavNode) {
    n.running && n.state.Some? && n.state.value.response && n.state.value.accepted && n.state.value.result
    && n.state.value.code.Succeeded?
  }

  /** The two callbacks of a goal that succeeds. */
  function AfterSuccess(a: Agent, id: NavId, goal: nat): Agent {
    Step(CFG, Step(CFG, a, NavResponse(id, goal, true)), NavResult(id, goal, Succeeded))
  }

  const GO := [TaskArrives(FIRST)] + [Ready(0.0)]

  predicate Gone(a: Agent, soc: real) {
    && On(a, 1) && Sends(a, ToPick, 0)
    && a.core.goals == [NavGoal(ToPick, FIRST.pick)] && a.core.pending == []
    && a.core.soc == soc && a.core.lastUpdate == 0.0 && a.core.moving && a.core.fsm.Navigating?
    && a.pick.tries == 0
  }

  lemma FirstTick(a: Agent, soc: Battery.Soc)
    requires a == Step(CFG, Initial(soc, 0.0), TaskArrives(FIRST)) && Sound(a) && soc >= 20.0
    ensures Gone(Step(CFG, a, Ready(0.0)), soc)
  {
  }

  /** The robot has taken its first task and drives to the pick place. */
  lemma GoesOff(soc: Battery.Soc) returns (a: Agent)
    requires soc >= 20.0
    ensures Leads(soc, GO, 0.0, 0.0, a) && Gone(a, soc)
  {
    var start := Initial(soc, 0.0);
    Onward(soc, [], 0.0, 0.0, start, TaskArrives(FIRST));
    assert [] + [TaskArrives(FIRST)] == [TaskArrives(FIRST)];
    a := Step(CFG, start, TaskArrives(FIRST));
    Onward(soc, [TaskArrives(FIRST)], 0.0, 0.0, a, Ready(0.0));
    FirstTick(a, soc);
    a := Step(CFG, a, Ready(0.0));
  }

  /** A tick with a good battery is a tick of the task branch. */
  lemma TicksTheTask(a: Agent, env: Env)
    requires Sound(a) && a.chargeChild == 0 && !Battery.IsLow(a.core.soc)
    ensures TreeTicked(CFG, a, env) == TaskTicked(CFG, a, env).agent
  {
    ChargeIsFlat(CFG, a, env);
    TaskIsFlat(CFG, a, env);
  }

  // ---------------------------------------------------------------------------
  // A drive that looks like rest, and a goal left open
  // ---------------------------------------------------------------------------

  const CUT_OFF := GO + [BatteryTick(0.1)] + [Ready(0.1)]
  const ANSWERED_LATE := CUT_OFF + [NavResponse(ToPick, 0, true)]

  lemma BatteryRunsLow(a: Agent)
    requires Gone(a, 20.0)
    ensures var b := Step(CFG, a, BatteryTick(0.1));
            b.chargeChild == 0 && Battery.IsLow(b.core.soc) && Sends(b, ToPick, 0) && b.core.cancels == []
  {
  }

  /** The drive to the dock is started before the leg's navigation is halted; the halt takes the
      motion flag down and, without an answer on record, cancels nothing. */
  lemma CutOffByTheDock(a: Agent, env: Env)
    requires Sound(a) && a.chargeChild == 0 && Sends(a, ToPick, 0) && Battery.IsLow(a.core.soc) && env.chargerReady
    ensures var b := TreeTicked(CFG, a, env);
            b.charger.running && !b.core.moving && b.pick.nav.state.None? && b.core.cancels == a.core.cancels
  {
  }

  lemma DriveIsCutOff() returns (a: Agent)
    ensures Leads(20.0, CUT_OFF, 0.1, 0.1, a)
    ensures a.charger.running && !a.core.moving && a.pick.nav.state.None? && a.core.cancels == []
  {
    a := GoesOff(20.0);
    BatteryRunsLow(a);
    Onward(20.0, GO, 0.0, 0.0, a, BatteryTick(0.1));
    a := Step(CFG, a, BatteryTick(0.1));
    Onward(20.0, GO + [BatteryTick(0.1)], 0.1, 0.1, a, Ready(0.1));
    CutOffByTheDock(a, Ready(0.1).env);
    a := Step(CFG, a, Ready(0.1));
  }

  /** A robot drives to its dock while its motion flag says it rests. */
  lemma ADriveLooksLikeRest()
    ensures var a := Run(CFG, Initial(20.0, 0.0), CUT_OFF);
            OnTime(CUT_OFF) && a.charger.running && !a.core.moving
  {
    var a := DriveIsCutOff();
  }

  /** The goal of the drive that was cut off is accepted afterwards. Nobody has cancelled it,
      nobody holds its record, and the robot has another goal. */
  lemma ANavigationIsLeftOpen()
    ensures var a := Run(CFG, Initial(20.0, 0.0), ANSWERED_LATE);
            && OnTime(ANSWERED_LATE)
            && a.core.cancels == [] && a.pick.nav.state.None? && a.charger.running
  {
    var a := DriveIsCutOff();
    Onward(20.0, CUT_OFF, 0.1, 0.1, a, NavResponse(ToPick, 0, true));
  }

  // ---------------------------------------------------------------------------
  // A recovery goal left open
  // ---------------------------------------------------------------------------

  const REJECTED := GO + [NavResponse(ToPick, 0, false)]
  const SPINNING := REJECTED + [Ready(0.05)]
  const SPIN_CUT_OFF := SPINNING + [BatteryTick(0.1)] + [Ready(0.1)]

  /** The drive to the pick place was rejected; the robot does not know yet. */
  predicate Rejected(a: Agent, soc: real) {
    Gone(a.(pick := a.pick.(nav := NavNode(true, Some(NavState(0, false, false, false, Unknown))))), soc)
    && a.pick.nav == NavNode(true, Some(NavState(0, true, false, false, Unknown))) && Sound(a)
  }

  lemma IsRejected(soc: Battery.Soc) returns (a: Agent)
    requires soc >= 20.0
    ensures Leads(soc, REJECTED, 0.0, 0.0, a) && Rejected(a, soc)
  {
    a := GoesOff(soc);
    Onward(soc, GO, 0.0, 0.0, a, NavResponse(ToPick, 0, false));
    StepKeepsSound(CFG, a, NavResponse(ToPick, 0, false));
    a := Step(CFG, a, NavResponse(ToPick, 0, false));
  }

  /** The recovery waits for its spin, goal 1. */
  predicate Spins(a: Agent) {
    && a.pick.recovery.running && a.pick.recovery.phase.Spin?
    && a.pick.recovery.spin == Some(RecovState(Some(1), false, false))
    && |a.core.goals| == 2 && a.core.goals[1] == SpinGoal(ToPick) && a.core.cancels == []
  }

  lemma StartsToSpin(a: Agent)
    requires Rejected(a, 20.0)
    ensures var b := Step(CFG, a, Ready(0.05));
            Spins(b) && On(b, 1) && b.core.soc == 20.0 && b.core.lastUpdate == 0.0 && !b.core.moving && !b.core.charging
  {
  }

  lemma SpinRunsLow(a: Agent)
    requires Spins(a) && On(a, 1) && a.core.soc == 20.0 && a.core.lastUpdate == 0.0 && !a.core.moving && !a.core.charging
    ensures var b := Step(CFG, a, BatteryTick(0.1));
            Spins(b) && b.chargeChild == 0 && Battery.IsLow(b.core.soc)
  {
  }

  lemma SpinIsCutOff(a: Agent, env: Env)
    requires Sound(a) && a.chargeChild == 0 && Spins(a) && Battery.IsLow(a.core.soc) && env.chargerReady
    ensures var b := TreeTicked(CFG, a, env);
            b.charger.running && !b.pick.recovery.running && b.pick.recovery.spin.None? && b.core.cancels == []
            && |b.core.goals| > 1 && b.core.goals[1] == SpinGoal(ToPick)
  {
  }

  /** The battery breaks off a recovery that waits for its spin: the spin is not cancelled, its
      record is gone, and the robot drives to its dock. */
  lemma ARecoveryIsLeftOpen()
    ensures var a := Run(CFG, Initial(20.0, 0.0), SPIN_CUT_OFF);
            && OnTime(SPIN_CUT_OFF)
            && |a.core.goals| > 1 && a.core.goals[1] == SpinGoal(ToPick) && a.core.cancels == []
            && a.pick.recovery.spin.None? && a.charger.running
  {
    var a := IsRejected(20.0);
    Onward(20.0, REJECTED, 0.0, 0.0, a, Ready(0.05));
    StartsToSpin(a);
    a := Step(CFG, a, Ready(0.05));
    Onward(20.0, SPINNING, 0.05, 0.0, a, BatteryTick(0.1));
    SpinRunsLow(a);
    a := Step(CFG, a, BatteryTick(0.1));
    Onward(20.0, SPINNING + [BatteryTick(0.1)], 0.1, 0.1, a, Ready(0.1));
    SpinIsCutOff(a, Ready(0.1).env);
  }

  // ---------------------------------------------------------------------------
  // A robot that shows IDLE with a task, and then loses it
  // ---------------------------------------------------------------------------

  /** A tenth of a second without any server, from clock `t`. */
  function Pair(t: real): seq<Event> {
    [Unready(t + 0.05)] + [Unready(t + 0.1)] + [BatteryTick(t + 0.1)]
  }

  const WAITING := REJECTED + [TaskArrives(SECOND)]
  const ROUND_1 := WAITING + Pair(0.0) + Pair(0.1)
  const ROUND_2 := ROUND_1 + Pair(0.2) + Pair(0.3)
  const ROUND_3 := ROUND_2 + Pair(0.4) + Pair(0.5)
  const LOOKS_IDLE := ROUND_1 + [Unready(0.25)]
  const LOST := ROUND_3 + [Unready(0.65)] + [Unready(0.7)]

  /** The battery has lost at most what driving would have cost. */
  predicate Powered(a: Agent) {
    && !a.core.moving && !a.core.charging
    && 0.0 <= a.core.lastUpdate <= 1.0 && a.core.soc >= 50.0 - a.core.lastUpdate
  }

  /** The pick leg has lost `round` rounds and counted `failures` failures in this one. */
  predicate LegStuck(l: Leg, round: nat, failures: nat) {
    && LegAwake(l) && l.tries == round && l.child == 1 && failures <= 3
    && l.recovery.attempt == failures && l.recovery.phase == (if failures == 3 then Failed else Spin)
    && (failures < 3 ==> l.recovery.spin == Some(RecovState(None, true, false)))
  }

  /** The lifecycle was RECOVERING in the first round and is IDLE since its recovery gave up. */
  predicate Stuck(a: Agent, round: nat, failures: nat) {
    && On(a, 1) && LegStuck(a.pick, round, failures) && a.core.pending == [SECOND] && Powered(a)
    && a.core.fsm == (if round == 0 then Recovering else Idle)
  }

  /** One failure more, or a recovery that gives up and the next round, or the end of the leg. */
  lemma LegStaysStuck(c: Core, l: Leg, round: nat, failures: nat, pose: Point, env: Env)
    requires LegStuck(l, round, failures) && round < 3 && !env.navReady && !env.spinReady
    requires c.fsm == if round == 0 then Recovering else Idle
    ensures var t := LegTicked(c, l, ToPick, pose, env);
            && t.core == c.(fsm := if round == 0 && failures < 3 then Recovering else Idle)
            && (if failures < 3 then t.status.Running? && LegStuck(t.leg, round, failures + 1)
                else if round < 2 then t.status.Running? && LegStuck(t.leg, round + 1, 0)
                else t.status.Failure?)
  {
    var f := FallbackTicked(c, l, ToPick, pose, env, RECOVERY_ATTEMPTS);
    if failures < 3 {
      assert f.status.Running?;
    } else {
      assert f.status.Failure?;
      var again := f.leg.(tries := round + 1);
      assert LegTicked(c, l, ToPick, pose, env) == RetryTicked(f.core, again, ToPick, pose, env, NAV_ROUNDS, RECOVERY_ATTEMPTS);
      if round < 2 {
        assert FallbackTicked(f.core, again, ToPick, pose, env, RECOVERY_ATTEMPTS).status.Running?;
      }
    }
  }

  lemma StaysStuck(a: Agent, round: nat, failures: nat, env: Env)
    requires Stuck(a, round, failures) && round < 3 && !env.navReady && !env.spinReady
    requires round < 2 || failures < 3
    ensures Stuck(TreeTicked(CFG, a, env), if failures < 3 then round else round + 1, if failures < 3 then failures + 1 else 0)
    ensures TreeTicked(CFG, a, env).core.lastUpdate == a.core.lastUpdate
  {
    LegStaysStuck(a.core, a.pick, round, failures, a.core.pickPose, env);
    TicksTheTask(a, env);
    TickKeepsSound(CFG, a, env);
  }

  lemma StaysStuckTwice(a: Agent, round: nat, failures: nat, env: Env, next: Env) returns (b: Agent)
    requires Stuck(a, round, failures) && !env.navReady && !env.spinReady && !next.navReady && !next.spinReady
    requires (failures == 1 && round < 3) || (failures == 3 && round < 2)
    ensures b == TreeTicked(CFG, TreeTicked(CFG, a, env), next) && b.core.lastUpdate == a.core.lastUpdate
    ensures if failures == 1 then Stuck(b, round, 3) else Stuck(b, round + 1, 1)
  {
    StaysStuck(a, round, failures, env);
    b := TreeTicked(CFG, a, env);
    if failures == 1 {
      StaysStuck(b, round, 2, next);
    } else {
      StaysStuck(b, round + 1, 0, next);
    }
    b := TreeTicked(CFG, b, next);
  }

  lemma BatteryStaysStuck(a: Agent, round: nat, failures: nat, now: real, b: Agent)
    requires Stuck(a, round, failures) && a.core.lastUpdate <= now <= 1.0 && b == Step(CFG, a, BatteryTick(now))
    ensures Stuck(b, round, failures) && b.core.lastUpdate == now
  {
  }

  /** The first tick of the wait finds the drive rejected and starts to recover. */
  lemma GetsStuck(a: Agent, env: Env)
    requires Rejected(a.(core := a.core.(pending := [], received := [FIRST])), 50.0) && a.core.pending == [SECOND] && Sound(a)
    requires !env.spinReady
    ensures Stuck(TreeTicked(CFG, a, env), 0, 0) && TreeTicked(CFG, a, env).core.lastUpdate == 0.0
  {
  }

  /** The run stands at clock `t`, right after a battery update. */
  predicate WaitedTo(events: seq<Event>, t: real, a: Agent) {
    Leads(50.0, events, t, t, a) && a.core.lastUpdate == t && 0.0 <= t <= 0.8
  }

  lemma OnePair(events: seq<Event>, t: real, a: Agent) returns (b: Agent, c: Agent, d: Agent)
    requires WaitedTo(events, t, a) && t <= 0.7
    ensures b == TreeTicked(CFG, a, Unready(t + 0.05).env) && c == TreeTicked(CFG, b, Unready(t + 0.1).env)
    ensures d == Step(CFG, c, BatteryTick(t + 0.1)) && Leads(50.0, events + Pair(t), t + 0.1, t + 0.1, d)
  {
    var tick, tock, update := Unready(t + 0.05), Unready(t + 0.1), BatteryTick(t + 0.1);
    Onward(50.0, events, t, t, a, tick);
    b := Step(CFG, a, tick);
    Onward(50.0, events + [tick], t + 0.05, t, b, tock);
    c := Step(CFG, b, tock);
    Onward(50.0, events + [tick] + [tock], t + 0.1, t, c, update);
    d := Step(CFG, c, update);
    assert events + [tick] + [tock] + [update] == events + Pair(t);
  }

  /** The first pair finds the drive rejected, starts to recover and counts a failure. */
  lemma FirstPair() returns (b: Agent)
    ensures WaitedTo(WAITING + Pair(0.0), 0.1, b) && Stuck(b, 0, 1)
  {
    var a := IsRejected(50.0);
    Onward(50.0, REJECTED, 0.0, 0.0, a, TaskArrives(SECOND));
    StepKeepsSound(CFG, a, TaskArrives(SECOND));
    a := Step(CFG, a, TaskArrives(SECOND));
    var t, c;
    t, c, b := OnePair(WAITING, 0.0, a);
    GetsStuck(a, Unready(0.05).env);
    StaysStuck(t, 0, 0, Unready(0.1).env);
    BatteryStaysStuck(c, 0, 1, 0.1, b);
  }

  /** Two failures, or a recovery that gives up and the first failure of the next round. */
  lemma PairStaysStuck(events: seq<Event>, t: real, a: Agent, round: nat, failures: nat) returns (b: Agent)
    requires WaitedTo(events, t, a) && t <= 0.7 && Stuck(a, round, failures)
    requires (failures == 1 && round < 3) || (failures == 3 && round < 2)
    ensures WaitedTo(events + Pair(t), t + 0.1, b)
    ensures if failures == 1 then Stuck(b, round, 3) else Stuck(b, round + 1, 1)
  {
    var m, c;
    m, c, b := OnePair(events, t, a);
    var c' := StaysStuckTwice(a, round, failures, Unready(t + 0.05).env, Unready(t + 0.1).env);
    BatteryStaysStuck(c, if failures == 1 then round else round + 1, if failures == 1 then 3 else 1, t + 0.1, b);
  }

  lemma FirstRound() returns (b: Agent)
    ensures WaitedTo(ROUND_1, 0.2, b) && Stuck(b, 0, 3)
  {
    b := FirstPair();
    b := PairStaysStuck(WAITING + Pair(0.0), 0.1, b, 0, 1);
  }

  lemma AllRounds() returns (b: Agent)
    ensures WaitedTo(ROUND_3, 0.6, b) && Stuck(b, 2, 3)
  {
    b := FirstRound();
    b := PairStaysStuck(ROUND_1, 0.2, b, 0, 3);
    b := PairStaysStuck(ROUND_1 + Pair(0.2), 0.3, b, 1, 1);
    b := PairStaysStuck(ROUND_2, 0.4, b, 1, 3);
    b := PairStaysStuck(ROUND_2 + Pair(0.4), 0.5, b, 2, 1);
  }

  /** A recovery gives up under the current task: the robot shows IDLE while it works on. */
  lemma ARobotLooksIdle()
    ensures OnTime(LOOKS_IDLE) && Honesty.IdleWithTask(Run(CFG, Initial(50.0, 0.0), LOOKS_IDLE))
  {
    var a := FirstRound();
    Onward(50.0, ROUND_1, 0.2, 0.2, a, Unready(0.25));
    StaysStuck(a, 0, 3, Unready(0.25).env);
  }

  /** The tick that ends the last round gives the leg up. */
  lemma GivesUp(a: Agent, env: Env)
    requires Stuck(a, 2, 3) && !env.navReady && !env.spinReady
    ensures TaskGivenUp(CFG, a, env)
  {
    LegStaysStuck(a.core, a.pick, 2, 3, a.core.pickPose, env);
    ChargeIsFlat(CFG, a, env);
    TaskIsFlat(CFG, a, env);
  }

  /** A leg is given up after three lost rounds, and the waiting task is written over the one it
      was for. */
  lemma ATaskIsLost()
    ensures OnTime(LOST) && OverwrittenOf(Run(CFG, Initial(50.0, 0.0), LOST).core.finished) != []
  {
    var a := AllRounds();
    Onward(50.0, ROUND_3, 0.6, 0.6, a, Unready(0.65));
    var b := Step(CFG, a, Unready(0.65));
    Onward(50.0, ROUND_3 + [Unready(0.65)], 0.65, 0.6, b, Unready(0.7));
    GivesUp(a, Unready(0.65).env);
    GivenUpIsOverwritten(CFG, a, Unready(0.65).env, Unready(0.7).env);
    RunRefines(CFG, 50.0, 0.0, ROUND_3 + [Unready(0.65)]);
    LostInStep(CFG, b, Unready(0.7));
  }

  // ---------------------------------------------------------------------------
  // A completion without a task
  // ---------------------------------------------------------------------------

  const ARRIVED := GO + [NavResponse(ToPick, 0, true)] + [NavResult(ToPick, 0, Succeeded)]
  const DROPPING := ARRIVED + [Ready(0.05)] + [Ready(0.1)] + [BatteryTick(0.1)]
  const DROPPED := DROPPING + [NavResponse(ToDrop, 1, true)] + [NavResult(ToDrop, 1, Succeeded)]
  const BLANK := DROPPED + [Unready(0.15)] + [Unready(0.2)]

  predicate HasArrived(a: Agent) {
    && On(a, 1) && Succeeds(a.pick.nav) && |a.core.goals| == 1
    && a.core.soc == 20.0 && a.core.lastUpdate == 0.0
  }

  lemma Arrives() returns (a: Agent)
    ensures Leads(20.0, ARRIVED, 0.0, 0.0, a) && HasArrived(a)
  {
    a := GoesOff(20.0);
    Onward(20.0, GO, 0.0, 0.0, a, NavResponse(ToPick, 0, true));
    StepKeepsSound(CFG, a, NavResponse(ToPick, 0, true));
    var b := Step(CFG, a, NavResponse(ToPick, 0, true));
    Onward(20.0, GO + [NavResponse(ToPick, 0, true)], 0.0, 0.0, b, NavResult(ToPick, 0, Succeeded));
    StepKeepsSound(CFG, b, NavResult(ToPick, 0, Succeeded));
    a := Step(CFG, b, NavResult(ToPick, 0, Succeeded));
  }

  lemma Picks(a: Agent, env: Env)
    requires HasArrived(a)
    ensures var b := TreeTicked(CFG, a, env);
            On(b, 2) && b.doPick == TimedNode(true, env.now, 0.05) && b.core == a.core.(fsm := b.core.fsm, moving := false)
  {
  }

  lemma DrivesOn(a: Agent, env: Env)
    requires On(a, 2) && TimeUp(a.doPick, env.now) && env.navReady && a.core.soc == 20.0
    ensures var b := TreeTicked(CFG, a, env);
            && On(b, 3) && Sends(b, ToDrop, |a.core.goals|) && b.core.moving
            && b.core.soc == a.core.soc && b.core.lastUpdate == a.core.lastUpdate
  {
  }

  /** The battery has taken the task while its drop leg drives on. */
  predicate Robbed(a: Agent, i: nat) {
    Sound(a) && a.chargeChild == 0 && a.taskChild == i && a.core.current.None? && !a.core.fault
  }

  lemma BatteryTakesTheTask(a: Agent)
    requires On(a, 3) && Sends(a, ToDrop, 1) && a.core.moving && !a.core.charging
    requires a.core.soc == 20.0 && a.core.lastUpdate == 0.0
    ensures var b := Step(CFG, a, BatteryTick(0.1));
            Robbed(b, 3) && Sends(b, ToDrop, 1)
  {
  }

  lemma DropReached(a: Agent)
    requires Robbed(a, 3) && Sends(a, ToDrop, 1)
    ensures var b := AfterSuccess(a, ToDrop, 1);
            Robbed(b, 3) && Succeeds(b.drop.nav)
  {
  }

  lemma Drops(a: Agent, env: Env)
    requires Robbed(a, 3) && Succeeds(a.drop.nav) && !env.chargerReady
    ensures var b := TreeTicked(CFG, a, env);
            Robbed(b, 4) && b.doDrop == TimedNode(true, env.now, 0.05)
  {
  }

  lemma ReportsNothing(a: Agent, env: Env)
    requires Robbed(a, 4) && TimeUp(a.doDrop, env.now) && !env.chargerReady
    ensures TreeTicked(CFG, a, env).core.completions
         == a.core.completions + [Completion("", "", env.now - a.core.taskStart)]
  {
  }

  lemma RobbedOnTheWay() returns (a: Agent)
    ensures Leads(20.0, DROPPING, 0.1, 0.1, a) && Robbed(a, 3) && Sends(a, ToDrop, 1)
  {
    a := Arrives();
    Onward(20.0, ARRIVED, 0.0, 0.0, a, Ready(0.05));
    Picks(a, Ready(0.05).env);
    a := Step(CFG, a, Ready(0.05));
    Onward(20.0, ARRIVED + [Ready(0.05)], 0.05, 0.0, a, Ready(0.1));
    DrivesOn(a, Ready(0.1).env);
    a := Step(CFG, a, Ready(0.1));
    Onward(20.0, ARRIVED + [Ready(0.05)] + [Ready(0.1)], 0.1, 0.0, a, BatteryTick(0.1));
    BatteryTakesTheTask(a);
    a := Step(CFG, a, BatteryTick(0.1));
  }

  /** A completion names no task: the battery took the task away on the way to the drop and the
      dock could not be driven to. */
  lemma ACompletionIsBlank()
    ensures var done := Run(CFG, Initial(20.0, 0.0), BLANK).core.completions;
            OnTime(BLANK) && done != [] && done[|done| - 1].taskId == ""
  {
    var a := RobbedOnTheWay();
    Onward(20.0, DROPPING, 0.1, 0.1, a, NavResponse(ToDrop, 1, true));
    var m := Step(CFG, a, NavResponse(ToDrop, 1, true));
    Onward(20.0, DROPPING + [NavResponse(ToDrop, 1, true)], 0.1, 0.1, m, NavResult(ToDrop, 1, Succeeded));
    DropReached(a);
    a := AfterSuccess(a, ToDrop, 1);
    Onward(20.0, DROPPED, 0.1, 0.1, a, Unready(0.15));
    Drops(a, Unready(0.15).env);
    a := Step(CFG, a, Unready(0.15));
    Onward(20.0, DROPPED + [Unready(0.15)], 0.15, 0.1, a, Unready(0.2));
    ReportsNothing(a, Unready(0.2).env);
  }

  // ---------------------------------------------------------------------------
  // A leg that passes without arriving
  // ---------------------------------------------------------------------------

  lemma LegReads(outcomes: seq<bool>, ok: bool)
    ensures Retry.LegRun(NAV_ROUNDS, RECOVERY_ATTEMPTS, outcomes + [ok])
         == Retry.LegStep(NAV_ROUNDS, RECOVERY_ATTEMPTS, Retry.LegRun(NAV_ROUNDS, RECOVERY_ATTEMPTS, outcomes), ok)
  {
  }

  /** A navigation fails, a spin and a back-up succeed, and the leg has passed. */
  lemma ALegPassesWithoutArriving()
    ensures Retry.LegRun(NAV_ROUNDS, RECOVERY_ATTEMPTS, [] + [false] + [true] + [true]) == Retry.Passed(false)
  {
    LegReads([], false);
    LegReads([] + [false], true);
    LegReads([] + [false] + [true], true);
  }
}
