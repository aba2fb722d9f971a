/** A started task is reported in bounded time where navigation works and the battery lasts. */
module Progress {
  import opened Options
  import opened AgentModel
  import opened Invariants
  import opened FlatTree
  import opened Slots
  import opened TaskFlow
  import opened LockStep
  import opened Errands
  import opened Charging
  import Battery

  /** The tick finds a leg's navigation still without an answer. */
  predicate Waits(a: Agent, e: Event) {
    && e.BtTick?
    && (|| (a.pick.nav.running && NavRunning(a.core, a.pick.nav).status.Running?)
        || (a.drop.nav.running && NavRunning(a.core, a.drop.nav).status.Running?))
  }

  function Ticks(events: seq<Event>): nat {
    if events == [] then 0 else Ticks(events[..|events| - 1]) + if events[|events| - 1].BtTick? then 1 else 0
  }

  function WaitsOn(cfg: Config, start: Agent, events: seq<Event>): nat {
    if events == [] then 0
    else
      var before := events[..|events| - 1];
      WaitsOn(cfg, start, before) + if Waits(Run(cfg, start, before), events[|events| - 1]) then 1 else 0
  }

  /** Each tick comes at least `d` after the one before, the first after `t0`. */
  predicate PacedTicks(t0: real, events: seq<Event>, d: real) {
    forall k :: 0 <= k < |events| && events[k].BtTick? ==> events[k].env.now >= ClockOf(t0, events[..k]) + d
  }

  ghost predicate NeverLow(cfg: Config, start: Agent, events: seq<Event>) {
    forall k :: 0 <= k <= |events| ==> !Battery.IsLow(Run(cfg, start, events[..k]).core.soc)
  }

  /** What the work takes: `p` ticks for the pick, `q` for the drop. */
  datatype Pace = Pace(d: real, p: nat, q: nat)

  predicate Enough(cfg: Config, w: Pace) {
    w.d >= 0.0 && w.p > 0 && w.q > 0 && Lapse(w.p, w.d) >= cfg.pickSecs && Lapse(w.q, w.d) >= cfg.dropSecs
  }

  /** At clock `t`, at most `n` more ticks, besides those that wait, report the task. */
  predicate Left(cfg: Config, a: Agent, w: Pace, t: real, n: nat) {
    match a.taskChild
    case 0 => false
    case 1 => n >= w.p + w.q + 2
    case 2 =>
      n >= w.q + 2 && a.doPick.duration == cfg.pickSecs && a.doPick.start + cfg.pickSecs <= t + Lapse(n - w.q - 1, w.d)
    case 3 => n >= w.q + 1
    case _ => n >= 1 && a.doDrop.duration == cfg.dropSecs && a.doDrop.start + cfg.dropSecs <= t + Lapse(n, w.d)
  }

  /** The robot works on `task` on a run on which navigation works. */
  predicate Working(a: Agent, task: Task) {
    Sound(a) && OneActive(a.core) && InStep(a) && a.core.current == Some(task)
  }

  lemma {:induction false} LapseMonotone(m: nat, n: nat, d: real)
    requires m <= n && d >= 0.0
    ensures Lapse(m, d) <= Lapse(n, d)
  {
    if m < n {
      LapseMonotone(m, n - 1, d);
    }
  }

  /** One tick of the leg the robot is on: it waits, or the leg passes. */
  lemma GoodLegEnds(c: Core, l: Leg, id: NavId, pose: Point, env: Env)
    requires LegAwake(l) && GoodLeg(l) && !c.fault && env.navReady
    ensures var t := LegTicked(c, l, id, pose, env);
            if NavRunning(c, l.nav).status.Running? then t.status.Running? else t.status.Success?
  {
  }

  lemma TickLeaves(cfg: Config, a: Agent, w: Pace, t: real, n: nat, env: Env, task: Task)
    requires Working(a, task) && !Battery.IsLow(a.core.soc) && Enough(cfg, w) && Left(cfg, a, w, t, n)
    requires env.chargerReady && env.navReady && env.now >= t + w.d
    ensures var b := TreeTicked(cfg, a, env);
            || (b.core.current == Some(task) && b.core.finished == a.core.finished
                && Left(cfg, b, w, env.now, if Waits(a, BtTick(env)) then n else n - 1))
            || b.core.finished == a.core.finished + [AgentModel.Reported(task)]
  {
    ChargeIsFlat(cfg, a, env);
    TaskIsFlat(cfg, a, env);
    TaskTickedCore(cfg, a, env);
    if a.taskChild == 1 {
      GoodLegEnds(a.core, a.pick, ToPick, a.core.pickPose, env);
      LapseMonotone(w.p, n - w.q - 2, w.d);
    } else if a.taskChild == 3 {
      GoodLegEnds(a.core, a.drop, ToDrop, a.core.dropPose, env);
      LapseMonotone(w.q, n - 1, w.d);
    } else if a.taskChild == 2 {
      assert Lapse(n - w.q - 1, w.d) == Lapse(n - w.q - 2, w.d) + w.d;
    } else {
      assert Lapse(n, w.d) == Lapse(n - 1, w.d) + w.d;
    }
  }

  /** Any other event leaves the work as it is. */
  lemma OtherLeaves(cfg: Config, a: Agent, w: Pace, t: real, n: nat, e: Event, task: Task)
    requires Working(a, task) && Left(cfg, a, w, t, n) && !e.BtTick?
    requires !Battery.IsLow(Step(cfg, a, e).core.soc)
    ensures var b := Step(cfg, a, e);
            b.core.current == Some(task) && b.core.finished == a.core.finished && Left(cfg, b, w, t, n)
  {
  }

  lemma FinishedStays(cfg: Config, a: Agent, e: Event)
    requires Sound(a) && OneActive(a.core)
    ensures a.core.finished <= Step(cfg, a, e).core.finished
  {
    StepRefines(cfg, a, e);
    assert Step(cfg, a, e).core.finished == Do(SlotsOf(a.core), Label(cfg, a, e)).finished;
  }

  lemma WorkGoesOn(cfg: Config, a: Agent, e: Event)
    requires Sound(a) && OneActive(a.core) && InStep(a) && GoodEvent(a, e)
    ensures var b := Step(cfg, a, e);
            Sound(b) && OneActive(b.core) && InStep(b)
  {
    GoodStep(cfg, a, e);
    StepKeepsSound(cfg, a, e);
    StepRefines(cfg, a, e);
  }

  /** The task is reported, or it is current and at most `n` ticks of work are left. */
  predicate OnTheWay(cfg: Config, a: Agent, w: Pace, t: real, n: int, task: Task) {
    || AgentModel.Reported(task) in a.core.finished
    || (a.core.current == Some(task) && n >= 0 && Left(cfg, a, w, t, n))
  }

  predicate Good(a: Agent) { Sound(a) && OneActive(a.core) && InStep(a) }

  /** A step from `a`, with clock `t` and `n` ticks left, to `b`. */
  lemma StepOnTheWay(cfg: Config, a: Agent, w: Pace, t: real, n: int, e: Event, task: Task, b: Agent, t': real, n': int)
    requires Good(a) && OnTheWay(cfg, a, w, t, n, task) && Enough(cfg, w)
    requires GoodEvent(a, e) && !Battery.IsLow(a.core.soc) && !Battery.IsLow(b.core.soc)
    requires e.BtTick? ==> e.env.now >= t + w.d
    requires b == Step(cfg, a, e) && t' == (if e.BtTick? then e.env.now else t)
    requires n' == n - if e.BtTick? && !Waits(a, e) then 1 else 0
    ensures OnTheWay(cfg, b, w, t', n', task)
  {
    FinishedStays(cfg, a, e);
    if AgentModel.Reported(task) !in a.core.finished {
      if e.BtTick? {
        TickLeaves(cfg, a, w, t, n, e.env, task);
      } else {
        OtherLeaves(cfg, a, w, t, n, e, task);
      }
    }
  }

  /** The assumptions on a run: navigation works, ticks are paced, the battery lasts. */
  ghost predicate Favourable(cfg: Config, a: Agent, events: seq<Event>, t0: real, d: real) {
    GoodRun(cfg, a, events) && PacedTicks(t0, events, d) && NeverLow(cfg, a, events)
  }

  lemma FavourableBefore(cfg: Config, a: Agent, events: seq<Event>, t0: real, d: real)
    requires events != [] && Favourable(cfg, a, events, t0, d)
    ensures Favourable(cfg, a, events[..|events| - 1], t0, d)
    ensures var b, last := Run(cfg, a, events[..|events| - 1]), events[|events| - 1];
            && GoodEvent(b, last) && !Battery.IsLow(b.core.soc)
            && !Battery.IsLow(Step(cfg, b, last).core.soc)
            && (last.BtTick? ==> last.env.now >= ClockOf(t0, events[..|events| - 1]) + d)
  {
    var n := |events| - 1;
    var before := events[..n];
    assert events[..n + 1] == events;
    forall k | 0 <= k <= n ensures before[..k] == events[..k] {
    }
    forall k | 0 <= k < n ensures GoodEvent(Run(cfg, a, before[..k]), before[k]) {
      assert before[..k] == events[..k];
    }
    forall k | 0 <= k < n && before[k].BtTick? ensures before[k].env.now >= ClockOf(t0, before[..k]) + d {
      assert before[..k] == events[..k];
    }
    forall k | 0 <= k <= n ensures !Battery.IsLow(Run(cfg, a, before[..k]).core.soc) {
      assert before[..k] == events[..k];
    }
  }

  lemma {:induction false} StaysGood(cfg: Config, a: Agent, events: seq<Event>, t0: real, d: real)
    requires Good(a) && Favourable(cfg, a, events, t0, d)
    ensures Good(Run(cfg, a, events))
  {
    if events != [] {
      FavourableBefore(cfg, a, events, t0, d);
      StaysGood(cfg, a, events[..|events| - 1], t0, d);
      WorkGoesOn(cfg, Run(cfg, a, events[..|events| - 1]), events[|events| - 1]);
    }
  }

  /** What is left of `n` ticks of work after a run. */
  function Remaining(cfg: Config, a: Agent, events: seq<Event>, n: nat): int {
    n - Ticks(events) + WaitsOn(cfg, a, events)
  }

  lemma RemainingStep(cfg: Config, a: Agent, events: seq<Event>, n: nat)
    requires events != []
    ensures var b, last := Run(cfg, a, events[..|events| - 1]), events[|events| - 1];
            Remaining(cfg, a, events, n)
            == Remaining(cfg, a, events[..|events| - 1], n) - if last.BtTick? && !Waits(b, last) then 1 else 0
  {
  }

  lemma {:induction false} WorkIsOnTheWay(cfg: Config, a: Agent, events: seq<Event>, w: Pace, t0: real, n: nat, task: Task)
    requires Working(a, task) && Enough(cfg, w) && Left(cfg, a, w, t0, n) && Favourable(cfg, a, events, t0, w.d)
    ensures OnTheWay(cfg, Run(cfg, a, events), w, ClockOf(t0, events), Remaining(cfg, a, events, n), task)
  {
    if events != [] {
      var before, last := events[..|events| - 1], events[|events| - 1];
      FavourableBefore(cfg, a, events, t0, w.d);
      StaysGood(cfg, a, before, t0, w.d);
      WorkIsOnTheWay(cfg, a, before, w, t0, n, task);
      RemainingStep(cfg, a, events, n);
      StepOnTheWay(cfg, Run(cfg, a, before), w, ClockOf(t0, before), Remaining(cfg, a, before, n), last, task,
                   Run(cfg, a, events), ClockOf(t0, events), Remaining(cfg, a, events, n));
    }
  }

  lemma ReportedByLapse(cfg: Config, a: Agent, events: seq<Event>, w: Pace, t0: real, task: Task)
    requires Working(a, task) && a.taskChild == 1 && Enough(cfg, w) && Favourable(cfg, a, events, t0, w.d)
    requires Ticks(events) >= w.p + w.q + 2 + WaitsOn(cfg, a, events)
    ensures AgentModel.Reported(task) in Run(cfg, a, events).core.finished
  {
    WorkIsOnTheWay(cfg, a, events, w, t0, w.p + w.q + 2, task);
  }

  /** A started task is reported: on a run on which navigation works and the battery lasts, with
      ticks at least `d` apart, at the latest after `p + q + 2` ticks besides those that wait for
      the navigation server, where `p` and `q` ticks cover the pick and the drop. */
  lemma StartedIsReported(cfg: Config, a: Agent, events: seq<Event>, w: Pace, t0: real, task: Task)
    requires Working(a, task) && a.taskChild == 1 && Favourable(cfg, a, events, t0, w.d)
    requires w.d >= 0.0 && w.p > 0 && w.q > 0 && w.p as real * w.d >= cfg.pickSecs && w.q as real * w.d >= cfg.dropSecs
    requires Ticks(events) >= w.p + w.q + 2 + WaitsOn(cfg, a, events)
    ensures AgentModel.Reported(task) in Run(cfg, a, events).core.finished
  {
    LapseIsProduct(w.p, w.d);
    LapseIsProduct(w.q, w.d);
    ReportedByLapse(cfg, a, events, w, t0, task);
  }
}
