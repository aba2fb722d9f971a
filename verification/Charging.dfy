/** Charging as part of the running agent: it is exclusive, it lasts until the battery is full,
    it ends, and it cannot happen often. */
module Charging {
  import opened AgentModel
  import opened Invariants
  import opened FlatTree
  import opened Completions
  import opened TaskFlow
  import Battery

  // ---------------------------------------------------------------------------
  // The charge of a running agent
  // ---------------------------------------------------------------------------

  /** What an event adds to the schedule: a battery update integrates the time since the last one, in the
      mode the robot is in. */
  function SegmentOf(a: Agent, e: Event): Battery.Schedule {
    if !e.BatteryTick? then []
    else
      [Battery.Segment(e.now - a.core.lastUpdate,
                       if a.chargeRunning then Battery.Charge else if a.core.moving then Battery.Move else Battery.Rest)]
  }

  function ScheduleOf(cfg: Config, start: Agent, events: seq<Event>): Battery.Schedule {
    if events == [] then []
    else
      var before := events[..|events| - 1];
      ScheduleOf(cfg, start, before) + SegmentOf(Run(cfg, start, before), events[|events| - 1])
  }

  lemma StepDrives(cfg: Config, a: Agent, e: Event, soc: Battery.Soc, segs: Battery.Schedule)
    requires Sound(a) && a.core.soc == Battery.Drive(soc, segs)
    ensures Step(cfg, a, e).core.soc == Battery.Drive(soc, segs + SegmentOf(a, e))
    ensures Step(cfg, a, e).core.lastUpdate == if e.BatteryTick? then e.now else a.core.lastUpdate
  {
    StepKeepsBooks(cfg, a, e);
    if e.BatteryTick? {
      Battery.DriveAppends(soc, segs, SegmentOf(a, e)[0]);
    } else {
      assert segs + SegmentOf(a, e) == segs;
    }
  }

  /** On every run the charge is that of its schedule: driving costs what driving costs whenever the
      motion flag is up, charging adds whenever the charge leaf runs, and nothing else matters. */
  lemma {:induction false} ChargeFollowsTheRun(cfg: Config, initialSoc: real, now: real, events: seq<Event>)
    ensures var start := Initial(initialSoc, now);
            Run(cfg, start, events).core.soc == Battery.Drive(Battery.Clamp(initialSoc), ScheduleOf(cfg, start, events))
  {
    if events != [] {
      var start := Initial(initialSoc, now);
      var before := events[..|events| - 1];
      ChargeFollowsTheRun(cfg, initialSoc, now, before);
      AlwaysSound(cfg, initialSoc, now, before);
      StepDrives(cfg, Run(cfg, start, before), events[|events| - 1], Battery.Clamp(initialSoc), ScheduleOf(cfg, start, before));
    }
  }

  // ---------------------------------------------------------------------------
  // A charge
  // ---------------------------------------------------------------------------

  /** From `a` to `b` the robot did nothing but charge: the charge rose with the clock, tasks
      only arrived, and no goal was sent. */
  predicate OnlyCharged(a: Agent, b: Agent) {
    && b.chargeRunning && b.core.fsm.Charging? && b.core.charging
    && b.core.charges == a.core.charges
    && b.core.lastUpdate >= a.core.lastUpdate
    && b.core.soc == Battery.Updated(a.core.soc, b.core.lastUpdate - a.core.lastUpdate, Battery.Charge)
    && a.core.pending <= b.core.pending
    && b.core.goals == a.core.goals
    && b.core.finished == a.core.finished
  }

  /** The charge is over: the robot is idle again and nothing else has started yet. */
  predicate ChargeOver(a: Agent, b: Agent) {
    && !b.chargeRunning && b.core.fsm.Idle? && !b.core.charging && !b.core.moving
    && b.chargeChild == 0 && TaskAsleep(b)
    && b.core.charges == a.core.charges + 1
    && b.core.goals == a.core.goals && b.core.pending == a.core.pending && b.core.soc == a.core.soc
  }

  lemma ChargingStep(cfg: Config, a: Agent, e: Event)
    requires Sound(a) && a.chargeRunning && ForwardStep(a, e)
    ensures if e.BtTick? && a.core.soc >= 95.0 then ChargeOver(a, Step(cfg, a, e))
            else OnlyCharged(a, Step(cfg, a, e))
  {
  }

  lemma ChargeAddsUp(a: Agent, b: Agent, c: Agent)
    requires OnlyCharged(a, b) && OnlyCharged(b, c)
    ensures OnlyCharged(a, c)
  {
  }

  lemma {:induction false} RunStaysSound(cfg: Config, a: Agent, events: seq<Event>)
    requires Sound(a)
    ensures Sound(Run(cfg, a, events))
    ensures Run(cfg, a, events).core.charges >= a.core.charges
  {
    if events != [] {
      var before := events[..|events| - 1];
      RunStaysSound(cfg, a, before);
      StepKeepsSound(cfg, Run(cfg, a, before), events[|events| - 1]);
      StepKeepsBooks(cfg, Run(cfg, a, before), events[|events| - 1]);
    }
  }

  /** Charging is sticky: whatever happens to a charging robot, it only charges until a tick
      finds the battery full. */
  lemma {:induction false} ChargingSticks(cfg: Config, a: Agent, events: seq<Event>)
    requires Sound(a) && a.chargeRunning && ForwardRun(cfg, a, events)
    ensures var b := Run(cfg, a, events);
            OnlyCharged(a, b) || b.core.charges > a.core.charges
  {
    if events != [] {
      var before := events[..|events| - 1];
      var b := Run(cfg, a, before);
      ForwardPrefix(cfg, a, events);
      ChargingSticks(cfg, a, before);
      RunStaysSound(cfg, a, before);
      if b.core.charges == a.core.charges {
        ChargingStep(cfg, b, events[|events| - 1]);
        if OnlyCharged(b, Run(cfg, a, events)) {
          ChargeAddsUp(a, b, Run(cfg, a, events));
        }
      } else {
        StepKeepsBooks(cfg, b, events[|events| - 1]);
      }
    } else {
      assert Battery.Rate(Battery.Charge) * 0.0 == 0.0;
    }
  }

  /** The battery updates of a run. */
  function Updates(events: seq<Event>): nat {
    if events == [] then 0 else Updates(events[..|events| - 1]) + if events[|events| - 1].BatteryTick? then 1 else 0
  }

  /** Each battery update comes at least `d` after the one before. */
  ghost predicate Paced(cfg: Config, a: Agent, events: seq<Event>, d: real) {
    forall k :: 0 <= k < |events| && events[k].BatteryTick?
      ==> events[k].now >= Run(cfg, a, events[..k]).core.lastUpdate + d
  }

  lemma PacedPrefix(cfg: Config, a: Agent, events: seq<Event>, d: real)
    requires events != [] && d >= 0.0 && Paced(cfg, a, events, d)
    ensures Paced(cfg, a, events[..|events| - 1], d)
    ensures var last := events[|events| - 1];
            last.BatteryTick? ==> last.now >= Run(cfg, a, events[..|events| - 1]).core.lastUpdate + d
  {
    var before := events[..|events| - 1];
    forall k | 0 <= k < |before| && before[k].BatteryTick?
      ensures before[k].now >= Run(cfg, a, before[..k]).core.lastUpdate + d
    {
      assert before[..k] == events[..k];
    }
  }

  /** `n` times `d`. */
  function Lapse(n: nat, d: real): real {
    if n == 0 then 0.0 else Lapse(n - 1, d) + d
  }

  lemma {:induction false} LapseIsProduct(n: nat, d: real)
    ensures Lapse(n, d) == n as real * d
  {
    if n > 0 {
      LapseIsProduct(n - 1, d);
      assert (n - 1) as real * d + d == n as real * d;
    }
  }

  lemma LastPace(cfg: Config, a: Agent, events: seq<Event>, d: real)
    requires events != [] && Sound(a) && d >= 0.0 && Paced(cfg, a, events, d)
    ensures Paced(cfg, a, events[..|events| - 1], d)
    ensures Run(cfg, a, events).core.lastUpdate
         >= Run(cfg, a, events[..|events| - 1]).core.lastUpdate + if events[|events| - 1].BatteryTick? then d else 0.0
  {
    PacedPrefix(cfg, a, events, d);
    RunStaysSound(cfg, a, events[..|events| - 1]);
    StepKeepsBooks(cfg, Run(cfg, a, events[..|events| - 1]), events[|events| - 1]);
  }

  lemma LapseGrows(events: seq<Event>, d: real)
    requires events != []
    ensures Lapse(Updates(events), d)
         == Lapse(Updates(events[..|events| - 1]), d) + if events[|events| - 1].BatteryTick? then d else 0.0
  {
  }

  lemma {:induction false} PaceAddsUp(cfg: Config, a: Agent, events: seq<Event>, d: real)
    requires Sound(a) && d >= 0.0 && Paced(cfg, a, events, d)
    ensures Run(cfg, a, events).core.lastUpdate >= a.core.lastUpdate + Lapse(Updates(events), d)
  {
    if events != [] {
      LastPace(cfg, a, events, d);
      LapseGrows(events, d);
      PaceAddsUp(cfg, a, events[..|events| - 1], d);
    }
  }

  lemma ChargedLongIsFull(a: Agent, b: Agent)
    requires OnlyCharged(a, b)
    requires b.core.lastUpdate - a.core.lastUpdate >= Battery.FULL_THRESHOLD - a.core.soc
    ensures Battery.IsFull(b.core.soc)
  {
  }

  /** Charging ends: once the clock has advanced by what is missing from 95, the charge is over
      already or the very next tick ends it and leaves the robot idle. */
  lemma ChargingEndsInTime(cfg: Config, a: Agent, events: seq<Event>, env: Env)
    requires Sound(a) && a.chargeRunning && ForwardRun(cfg, a, events)
    requires Run(cfg, a, events).core.lastUpdate - a.core.lastUpdate >= Battery.FULL_THRESHOLD - a.core.soc
    ensures var b := Run(cfg, a, events);
            b.core.charges > a.core.charges || ChargeOver(b, TreeTicked(cfg, b, env))
  {
    var b := Run(cfg, a, events);
    ChargingSticks(cfg, a, events);
    RunStaysSound(cfg, a, events);
    if b.core.charges == a.core.charges {
      ChargedLongIsFull(a, b);
      ChargingStep(cfg, b, BtTick(env));
    }
  }

  lemma PacedIsForward(cfg: Config, a: Agent, events: seq<Event>, d: real)
    requires d >= 0.0 && Paced(cfg, a, events, d)
    ensures ForwardRun(cfg, a, events)
  {
  }

  /** The charge is over, or the next tick ends it and leaves the robot idle. */
  ghost predicate Ends(cfg: Config, a: Agent, events: seq<Event>, env: Env) {
    var b := Run(cfg, a, events);
    b.core.charges > a.core.charges || ChargeOver(b, TreeTicked(cfg, b, env))
  }

  lemma ChargingEndsByLapse(cfg: Config, a: Agent, events: seq<Event>, d: real, env: Env)
    requires Sound(a) && a.chargeRunning && d > 0.0 && Paced(cfg, a, events, d)
    requires Lapse(Updates(events), d) >= Battery.FULL_THRESHOLD - a.core.soc
    ensures Ends(cfg, a, events, env)
  {
    PacedIsForward(cfg, a, events, d);
    PaceAddsUp(cfg, a, events, d);
    ChargingEndsInTime(cfg, a, events, env);
  }

  /** In updates: with updates at least `d` apart, `n` of them are enough when `n * d` is what is
      missing. */
  lemma ChargingEnds(cfg: Config, a: Agent, events: seq<Event>, d: real, env: Env)
    requires Sound(a) && a.chargeRunning && d > 0.0 && Paced(cfg, a, events, d)
    requires Updates(events) as real * d >= Battery.FULL_THRESHOLD - a.core.soc
    ensures Ends(cfg, a, events, env)
  {
    LapseIsProduct(Updates(events), d);
    ChargingEndsByLapse(cfg, a, events, d, env);
  }

  // ---------------------------------------------------------------------------
  // How often a robot can charge
  // ---------------------------------------------------------------------------

  /** What the charges so far have cost, counted from `t0`. A robot on its way to the dock has a
      low battery. */
  predicate ChargeBudget(a: Agent, t0: real) {
    var elapsed := a.core.lastUpdate - t0;
    var k := a.core.charges as real;
    && elapsed >= 0.0
    && (a.chargeChild == 1 ==> Battery.IsLow(a.core.soc))
    && (if a.chargeRunning then elapsed > 825.0 * k + (a.core.soc - 20.0)
        else a.core.charges > 0 ==> elapsed > 825.0 * k - 750.0 && elapsed >= 825.0 * k - 750.0 + (95.0 - a.core.soc) * 10.0)
  }

  lemma UpdateBounds(soc: Battery.Soc, dt: real, m: Battery.Mode)
    requires dt >= 0.0
    ensures var s := Battery.Updated(soc, dt, m);
            if m.Charge? then soc <= s <= soc + dt else soc - 0.1 * dt <= s <= soc
  {
  }

  lemma ChargeBudgetStep(cfg: Config, a: Agent, e: Event, t0: real)
    requires Sound(a) && ForwardStep(a, e) && ChargeBudget(a, t0)
    ensures ChargeBudget(Step(cfg, a, e), t0)
  {
    if e.BtTick? {
      ChargeTicked(cfg, a, e.env);
      ChargeIsFlat(cfg, a, e.env);
      NavTickedKeeps(a.core, a.charger, ToCharger, cfg.charger, e.env.chargerReady);
      var t := ChargeFrom(cfg, a, a.chargeChild, e.env);
      assert (a.core.charges + 1) as real == a.core.charges as real + 1.0;
      if t.status.Failure? {
        TaskFromKeeps(cfg, t.agent, t.agent.taskChild, e.env);
      } else {
        TaskHaltKeeps(t.agent);
      }
    } else if e.BatteryTick? {
      UpdateBounds(a.core.soc, e.now - a.core.lastUpdate, Battery.ModeOf(a.core.moving, a.core.charging));
    } else if ActionCallback(e) {
      CallbackKeeps(cfg, a, e);
    }
  }

  /** A robot that has charged `k` times has been running for more than `825 * k - 750` seconds:
      75 s for each charge and 750 s between two of them. */
  lemma {:induction false} ChargesAreRare(cfg: Config, initialSoc: real, now: real, events: seq<Event>)
    requires ForwardRun(cfg, Initial(initialSoc, now), events)
    ensures var a := Run(cfg, Initial(initialSoc, now), events);
            && ChargeBudget(a, now)
            && (a.core.charges > 0 ==> a.core.lastUpdate - now > 825.0 * a.core.charges as real - 750.0)
  {
    if events != [] {
      var start := Initial(initialSoc, now);
      var before := events[..|events| - 1];
      ForwardPrefix(cfg, start, events);
      ChargesAreRare(cfg, initialSoc, now, before);
      AlwaysSound(cfg, initialSoc, now, before);
      ChargeBudgetStep(cfg, Run(cfg, start, before), events[|events| - 1], now);
    }
  }
}
