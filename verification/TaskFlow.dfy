/** Tasks through one robot: every callback is one step of the abstract slots or none, so what
    holds of the slots holds of the agent on every run. */
module TaskFlow {
  import opened Options
  import opened Fsm
  import opened AgentModel
  import opened Invariants
  import opened FlatTree
  import opened Slots
  import Battery

  // ---------------------------------------------------------------------------
  // Refinement
  // ---------------------------------------------------------------------------

  predicate OneActive(c: Core) { c.current.None? || c.interrupted.None? }

  function SlotsOf(c: Core): Slots {
    Slots(c.pending, if c.current.Some? then c.current else c.interrupted, c.interrupted.Some?, c.finished, c.received)
  }

  /** The tick reaches the task branch: the charge branch failed, because the battery is fine or
      because the drive to the dock failed. */
  predicate TicksTasks(cfg: Config, a: Agent, env: Env) {
    ChargeFrom(cfg, a, a.chargeChild, env).status.Failure?
  }

  /** The slot step a callback amounts to. */
  function Label(cfg: Config, a: Agent, e: Event): SlotEvent {
    match e
    case TaskArrives(t) => Arrive(t)
    case BatteryTick(now) =>
      if Battery.IsLow(BatteryUpdated(a.core, now).soc) && a.core.current.Some? then Park else Stutter
    case BtTick(env) =>
      if !TicksTasks(cfg, a, env) then Stutter
      else if a.taskChild == 0 && NextTask(a.core).Some? then (if a.core.interrupted.Some? then Resume else Start)
      else if a.taskChild == 4 && TimeUp(a.doDrop, env.now) && a.core.current.Some? then Report
      else Stutter
    case _ => Stutter
  }

  /** The battery takes the current task away if and only if the charge comes out below 20 and no other
      task is set aside. */
  lemma ParksExactly(cfg: Config, a: Agent, now: real)
    ensures var c := Step(cfg, a, BatteryTick(now)).core;
            if a.core.current.Some? && a.core.interrupted.None? && c.soc < 20.0
            then c.current.None? && c.interrupted == a.core.current
            else c.current == a.core.current && c.interrupted == a.core.interrupted
    ensures OneActive(a.core) ==>
              (Label(cfg, a, BatteryTick(now)).Park? <==>
               a.core.current.Some? && Step(cfg, a, BatteryTick(now)).core.soc < 20.0)
  {
  }

  /** What one tick of the task branch does to everything but motion. */
  lemma TaskTickedCore(cfg: Config, a: Agent, env: Env)
    requires TaskShape(a)
    ensures var c' := TaskTicked(cfg, a, env).agent.core;
            if a.taskChild == 0 && NextTask(a.core).Some? then OnlyMotion(TakeTask(a.core, env.now), c')
            else if a.taskChild == 4 && TimeUp(a.doDrop, env.now) then c' == ReportTask(a.core, cfg.robotName, env.now)
            else OnlyMotion(a.core, c')
  {
    LegTickedKeeps(a.core, a.pick, ToPick, a.core.pickPose, env);
    LegTickedKeeps(a.core, a.drop, ToDrop, a.core.dropPose, env);
    if a.taskChild == 0 && NextTask(a.core).Some? {
      var b := a.(core := TakeTask(a.core, env.now), waiting := false);
      LegTickedKeeps(b.core, b.pick, ToPick, b.core.pickPose, env);
    } else if a.taskChild == 2 {
      var b := a.(core := Fire(a.core, ExecutionDone), doPick := a.doPick.(running := false));
      LegTickedKeeps(b.core, b.drop, ToDrop, b.core.dropPose, env);
    }
  }

  /** What a callback does to the charge, its clock, the count of charges and the statuses. */
  predicate Books(cfg: Config, a: Agent, e: Event, c': Core) {
    && (!e.BatteryTick? ==> c'.soc == a.core.soc)
    && c'.lastUpdate == (if e.BatteryTick? then e.now else a.core.lastUpdate)
    && c'.charges == a.core.charges + (if e.BtTick? && a.chargeRunning && Battery.IsFull(a.core.soc) then 1 else 0)
    && c'.statuses
       == a.core.statuses + (if e.PublishStatus? then [StatusOf(a.core, cfg.robotName, e.pose)] else [])
  }

  lemma TickKeepsBooks(cfg: Config, a: Agent, env: Env)
    requires Sound(a)
    ensures Books(cfg, a, BtTick(env), TreeTicked(cfg, a, env).core)
  {
    ChargeTicked(cfg, a, env);
    ChargeIsFlat(cfg, a, env);
    NavTickedKeeps(a.core, a.charger, ToCharger, cfg.charger, env.chargerReady);
    var t := ChargeFrom(cfg, a, a.chargeChild, env);
    if t.status.Failure? {
      TaskIsFlat(cfg, t.agent, env);
      TaskTickedCore(cfg, t.agent, env);
    } else {
      TaskHaltKeeps(t.agent);
    }
  }

  lemma StepKeepsBooks(cfg: Config, a: Agent, e: Event)
    requires Sound(a)
    ensures Books(cfg, a, e, Step(cfg, a, e).core)
  {
    if e.BtTick? {
      TickKeepsBooks(cfg, a, e.env);
    } else if ActionCallback(e) {
      CallbackKeeps(cfg, a, e);
    }
  }

  /** A tick that reaches the task branch, seen from the slots. */
  lemma TaskTickRefines(cfg: Config, a: Agent, env: Env)
    requires TaskShape(a) && OneActive(a.core)
    ensures var c' := TaskTicked(cfg, a, env).agent.core;
            && OneActive(c')
            && SlotsOf(c')
               == (if a.taskChild == 0 && NextTask(a.core).Some? then
                     Do(SlotsOf(a.core), if a.core.interrupted.Some? then Resume else Start)
                   else if a.taskChild == 4 && TimeUp(a.doDrop, env.now) && a.core.current.Some? then
                     Do(SlotsOf(a.core), Report)
                   else SlotsOf(a.core))
  {
    TaskTickedCore(cfg, a, env);
  }

  lemma TickRefines(cfg: Config, a: Agent, env: Env)
    requires Sound(a) && OneActive(a.core)
    ensures var c' := TreeTicked(cfg, a, env).core;
            var l := Label(cfg, a, BtTick(env));
            OneActive(c') && Can(SlotsOf(a.core), l) && SlotsOf(c') == Do(SlotsOf(a.core), l)
  {
    ChargeTicked(cfg, a, env);
    var t := ChargeFrom(cfg, a, a.chargeChild, env);
    if t.status.Failure? {
      TaskIsFlat(cfg, t.agent, env);
      TaskTickRefines(cfg, t.agent, env);
    } else {
      ChargeIsFlat(cfg, a, env);
      NavTickedKeeps(a.core, a.charger, ToCharger, cfg.charger, env.chargerReady);
      TaskHaltKeeps(t.agent);
    }
  }

  /** Every callback is one enabled step of the slots. */
  lemma StepRefines(cfg: Config, a: Agent, e: Event)
    requires Sound(a) && OneActive(a.core)
    ensures var c' := Step(cfg, a, e).core;
            && OneActive(c')
            && Can(SlotsOf(a.core), Label(cfg, a, e))
            && SlotsOf(c') == Do(SlotsOf(a.core), Label(cfg, a, e))
  {
    if e.BtTick? {
      TickRefines(cfg, a, e.env);
    } else if ActionCallback(e) {
      CallbackKeeps(cfg, a, e);
    }
  }

  lemma SlotsExtend(trace: seq<SlotEvent>, s: Slots, l: SlotEvent)
    requires SlotsAfter(trace) == Some(s) && Can(s, l)
    ensures SlotsAfter(trace + [l]) == Some(Do(s, l))
  {
  }

  function Trace(cfg: Config, start: Agent, events: seq<Event>): (trace: seq<SlotEvent>)
    ensures |trace| == |events|
  {
    if events == [] then []
    else
      Trace(cfg, start, events[..|events| - 1])
      + [Label(cfg, Run(cfg, start, events[..|events| - 1]), events[|events| - 1])]
  }

  /** The agent refines the slots: every run of the agent is a run of the slots, callback by
      callback. */
  lemma {:induction false} RunRefines(cfg: Config, initialSoc: real, now: real, events: seq<Event>)
    ensures var start := Initial(initialSoc, now);
            var c := Run(cfg, start, events).core;
            && OneActive(c)
            && SlotsAfter(Trace(cfg, start, events)) == Some(SlotsOf(c))
  {
    if events != [] {
      var before, last := events[..|events| - 1], events[|events| - 1];
      var a := Run(cfg, Initial(initialSoc, now), before);
      RunRefines(cfg, initialSoc, now, before);
      AlwaysSound(cfg, initialSoc, now, before);
      StepRefines(cfg, a, last);
      SlotsExtend(Trace(cfg, Initial(initialSoc, now), before), SlotsOf(a.core), Label(cfg, a, last));
    }
  }

  /** On every run the tasks received, in order of arrival, are the finished ones in the order
      they finished, then the one worked on or set aside, then the pending queue. So nothing is
      reported twice, nothing disappears unseen, and an interrupted task is resumed before any
      newer one starts. */
  lemma TasksStayInOrder(cfg: Config, initialSoc: real, now: real, events: seq<Event>)
    ensures var c := Run(cfg, Initial(initialSoc, now), events).core;
            && OneActive(c)
            && Ordered(SlotsOf(c))
            && multiset(c.received)
               == multiset(ReportedOf(c.finished)) + multiset(OverwrittenOf(c.finished))
                  + multiset(ActiveOf(SlotsOf(c))) + multiset(c.pending)
  {
    RunRefines(cfg, initialSoc, now, events);
    AlwaysOrdered(Trace(cfg, Initial(initialSoc, now), events));
    Conservation(SlotsOf(Run(cfg, Initial(initialSoc, now), events).core));
  }

  /** The head of the queue at every event of the run that starts a task. */
  function StartedOn(cfg: Config, start: Agent, events: seq<Event>): seq<Task> {
    if events == [] then []
    else
      var before := events[..|events| - 1];
      var a := Run(cfg, start, before);
      StartedOn(cfg, start, before)
      + if Label(cfg, a, events[|events| - 1]).Start? && a.core.pending != [] then [a.core.pending[0]] else []
  }

  lemma {:induction false} StartedAreHeads(cfg: Config, initialSoc: real, now: real, events: seq<Event>)
    ensures var start := Initial(initialSoc, now);
            StartedOn(cfg, start, events) == Heads(Trace(cfg, start, events))
  {
    if events != [] {
      var start := Initial(initialSoc, now);
      var before := events[..|events| - 1];
      StartedAreHeads(cfg, initialSoc, now, before);
      RunRefines(cfg, initialSoc, now, before);
      assert Trace(cfg, start, events)[..|Trace(cfg, start, events)| - 1] == Trace(cfg, start, before);
    }
  }

  /** First come, first served, on every run: the tasks taken from the head of the queue so far and
      then the pending ones are the tasks received, in order of arrival. */
  lemma TasksStartInOrder(cfg: Config, initialSoc: real, now: real, events: seq<Event>)
    ensures var start := Initial(initialSoc, now);
            var c := Run(cfg, start, events).core;
            StartedOn(cfg, start, events) + c.pending == c.received
  {
    RunRefines(cfg, initialSoc, now, events);
    StartedAreHeads(cfg, initialSoc, now, events);
    FirstComeFirstServed(Trace(cfg, Initial(initialSoc, now), events));
  }

  lemma TraceGrows(cfg: Config, start: Agent, events: seq<Event>)
    requires events != []
    ensures Trace(cfg, start, events)[..|events| - 1] == Trace(cfg, start, events[..|events| - 1])
  {
  }

  lemma PrefixOfPrefix<T>(s: seq<T>, t: seq<T>, n: nat)
    requires n <= |t| <= |s| && s[..|t|] == t
    ensures s[..n] == t[..n]
  {
  }

  lemma {:induction false} TraceOfPrefix(cfg: Config, start: Agent, events: seq<Event>, prefix: seq<Event>)
    requires |prefix| <= |events| && events[..|prefix|] == prefix
    ensures Trace(cfg, start, events)[..|prefix|] == Trace(cfg, start, prefix)
  {
    if |prefix| < |events| {
      var before := events[..|events| - 1];
      TraceGrows(cfg, start, events);
      PrefixOfPrefix(events, before, |prefix|);
      TraceOfPrefix(cfg, start, before, prefix);
      PrefixOfPrefix(Trace(cfg, start, events), Trace(cfg, start, before), |prefix|);
    } else {
      assert events == prefix;
    }
  }

  lemma TracePrefix(cfg: Config, start: Agent, events: seq<Event>, n: nat)
    requires n <= |events|
    ensures Trace(cfg, start, events)[..n] == Trace(cfg, start, events[..n])
  {
    TraceOfPrefix(cfg, start, events, events[..n]);
  }

  /** The trace of a run has the label of event `k` at place `k`. */
  lemma TraceAt(cfg: Config, start: Agent, events: seq<Event>, k: nat)
    requires k < |events|
    ensures Trace(cfg, start, events)[k] == Label(cfg, Run(cfg, start, events[..k]), events[k])
  {
    TracePrefix(cfg, start, events, k + 1);
    assert Trace(cfg, start, events)[k] == Trace(cfg, start, events)[..k + 1][k];
    assert events[..k + 1][..k] == events[..k];
  }

  /** The state before the run and after each of its events. */
  function Cores(cfg: Config, start: Agent, events: seq<Event>): (cores: seq<Core>)
    ensures |cores| == |events| + 1
  {
    (if events == [] then [] else Cores(cfg, start, events[..|events| - 1])) + [Run(cfg, start, events).core]
  }

  lemma {:induction false} CoresAt(cfg: Config, start: Agent, events: seq<Event>, n: nat)
    requires n <= |events|
    ensures Cores(cfg, start, events)[n] == Run(cfg, start, events[..n]).core
  {
    if n < |events| {
      CoresAt(cfg, start, events[..|events| - 1], n);
      assert events[..|events| - 1][..n] == events[..n];
    } else {
      assert events[..n] == events;
    }
  }

  /** A core and what the first `n` steps of a trace lead to. */
  predicate Agrees(trace: seq<SlotEvent>, n: nat, c: Core) {
    n <= |trace| && OneActive(c) && SlotsAfter(trace[..n]) == Some(SlotsOf(c))
  }

  lemma SlotsAt(cfg: Config, initialSoc: real, now: real, events: seq<Event>, n: nat)
    requires n <= |events|
    ensures Agrees(Trace(cfg, Initial(initialSoc, now), events), n, Cores(cfg, Initial(initialSoc, now), events)[n])
  {
    RunRefines(cfg, initialSoc, now, events[..n]);
    TracePrefix(cfg, Initial(initialSoc, now), events, n);
    CoresAt(cfg, Initial(initialSoc, now), events, n);
  }

  /** Step `i` sets a task aside, and no step after it and before `j` resumes one. */
  predicate ParkedSince(trace: seq<SlotEvent>, i: nat, j: nat) {
    i < j < |trace| && trace[i].Park? && forall m :: i < m < j ==> !trace[m].Resume?
  }

  /** Step `j` starts nothing, and if it resumes a task, then the one that was current at step `i`. */
  predicate ResumesFirst(trace: seq<SlotEvent>, cores: seq<Core>, i: nat, j: nat) {
    && i < j < |trace| && |cores| == |trace| + 1
    && !trace[j].Start? && cores[i].current.Some?
    && (trace[j].Resume? ==> cores[j + 1].interrupted.None? && cores[j + 1].current == cores[i].current)
  }

  /** The cores are those of a run of the slots. */
  ghost predicate Refined(trace: seq<SlotEvent>, cores: seq<Core>) {
    && SlotsAfter(trace).Some? && |cores| == |trace| + 1
    && forall n :: 0 <= n <= |trace| ==> Agrees(trace, n, cores[n])
  }

  lemma ParkedIsResumed(trace: seq<SlotEvent>, cores: seq<Core>, i: nat, j: nat)
    requires Refined(trace, cores) && ParkedSince(trace, i, j)
    ensures ResumesFirst(trace, cores, i, j)
  {
    InterruptedGoesFirst(trace, i, j);
    assert Agrees(trace, i, cores[i]) && Agrees(trace, j + 1, cores[j + 1]);
  }

  lemma TraceIsSlots(cfg: Config, initialSoc: real, now: real, events: seq<Event>)
    ensures SlotsAfter(Trace(cfg, Initial(initialSoc, now), events)).Some?
  {
    RunRefines(cfg, initialSoc, now, events);
  }

  lemma RunIsRefined(cfg: Config, initialSoc: real, now: real, events: seq<Event>)
    ensures Refined(Trace(cfg, Initial(initialSoc, now), events), Cores(cfg, Initial(initialSoc, now), events))
  {
    TraceIsSlots(cfg, initialSoc, now, events);
    forall n | 0 <= n <= |events|
      ensures Agrees(Trace(cfg, Initial(initialSoc, now), events), n, Cores(cfg, Initial(initialSoc, now), events)[n])
    {
      SlotsAt(cfg, initialSoc, now, events, n);
    }
  }

  /** An interrupted task goes first, on every run: between an interruption by the battery and the
      resumption nothing is started, and what is resumed is the task that was interrupted. */
  lemma InterruptedGoesFirstOnRuns(cfg: Config, initialSoc: real, now: real, events: seq<Event>, i: nat, j: nat)
    requires ParkedSince(Trace(cfg, Initial(initialSoc, now), events), i, j)
    ensures ResumesFirst(Trace(cfg, Initial(initialSoc, now), events), Cores(cfg, Initial(initialSoc, now), events), i, j)
  {
    RunIsRefined(cfg, initialSoc, now, events);
    ParkedIsResumed(Trace(cfg, Initial(initialSoc, now), events), Cores(cfg, Initial(initialSoc, now), events), i, j);
  }

  // ---------------------------------------------------------------------------
  // When a task is lost
  // ---------------------------------------------------------------------------

  /** The tick asks for a new task although one is current and another one is waiting. */
  predicate Overwrites(cfg: Config, a: Agent, e: Event) {
    && e.BtTick? && TicksTasks(cfg, a, e.env)
    && a.taskChild == 0 && a.core.current.Some? && a.core.pending != []
  }

  function LostIn(cfg: Config, a: Agent, e: Event): seq<Task> {
    if Overwrites(cfg, a, e) then [a.core.current.value] else []
  }

  /** What the last event of a run loses. */
  function LostLast(cfg: Config, start: Agent, events: seq<Event>): seq<Task> {
    if events == [] then []
    else LostIn(cfg, Run(cfg, start, events[..|events| - 1]), events[|events| - 1])
  }

  /** What the last events of all the prefixes of a run yield, put together. */
  function Gathered<T>(yielded: seq<Event> -> seq<T>, events: seq<Event>): seq<T> {
    if events == [] then [] else Gathered(yielded, events[..|events| - 1]) + yielded(events)
  }

  lemma {:induction false} GatheredNothing<T>(yielded: seq<Event> -> seq<T>, events: seq<Event>)
    ensures Gathered(yielded, events) == [] <==> forall k :: 0 < k <= |events| ==> yielded(events[..k]) == []
  {
    if events != [] {
      var front := events[..|events| - 1];
      GatheredNothing(yielded, front);
      if yielded(events) != [] {
        assert events[..|events|] == events;
      } else if k :| 0 < k <= |front| && yielded(front[..k]) != [] {
        assert front[..k] == events[..k];
      } else {
        forall k | 0 < k <= |events| ensures yielded(events[..k]) == [] {
          assert events[..k] == if k <= |front| then front[..k] else events;
        }
      }
    }
  }

  function LostAlong(cfg: Config, start: Agent): seq<Event> -> seq<Task> {
    prefix => LostLast(cfg, start, prefix)
  }

  /** The tasks a run writes over, in order. */
  function LostOn(cfg: Config, start: Agent, events: seq<Event>): seq<Task> {
    Gathered(LostAlong(cfg, start), events)
  }

  lemma FinishedGrows(f: seq<Finished>, x: Finished)
    ensures OverwrittenOf(f + [x]) == OverwrittenOf(f) + if x.Overwritten? then [x.task] else []
    ensures ReportedOf(f + [x]) == ReportedOf(f) + if x.Reported? then [x.task] else []
  {
  }

  lemma LostInStep(cfg: Config, a: Agent, e: Event)
    requires Sound(a) && OneActive(a.core)
    ensures OverwrittenOf(Step(cfg, a, e).core.finished) == OverwrittenOf(a.core.finished) + LostIn(cfg, a, e)
  {
    StepRefines(cfg, a, e);
    var s, l := SlotsOf(a.core), Label(cfg, a, e);
    assert Step(cfg, a, e).core.finished == Do(s, l).finished;
    if s.active.Some? {
      FinishedGrows(s.finished, Overwritten(s.active.value));
      FinishedGrows(s.finished, Reported(s.active.value));
    }
    assert Overwrites(cfg, a, e) <==> l.Start? && s.active.Some?;
  }

  /** Tasks are lost on a run exactly at the ticks that meet the guard, and nowhere else. */
  lemma {:induction false} LostExactly(cfg: Config, initialSoc: real, now: real, events: seq<Event>)
    ensures var start := Initial(initialSoc, now);
            OverwrittenOf(Run(cfg, start, events).core.finished) == LostOn(cfg, start, events)
  {
    if events != [] {
      var before := events[..|events| - 1];
      LostExactly(cfg, initialSoc, now, before);
      AlwaysSound(cfg, initialSoc, now, before);
      RunRefines(cfg, initialSoc, now, before);
      LostInStep(cfg, Run(cfg, Initial(initialSoc, now), before), events[|events| - 1]);
    }
  }

  predicate LosesAt(cfg: Config, start: Agent, events: seq<Event>, k: nat) {
    k < |events| && Overwrites(cfg, Run(cfg, start, events[..k]), events[k])
  }

  lemma LosesAtPrefix(cfg: Config, start: Agent, events: seq<Event>, k: nat)
    requires k < |events|
    ensures LosesAt(cfg, start, events, k) <==> LostAlong(cfg, start)(events[..k + 1]) != []
  {
    assert events[..k + 1][..k] == events[..k];
  }

  lemma LostOnIff(cfg: Config, start: Agent, events: seq<Event>)
    ensures LostOn(cfg, start, events) == [] <==> forall k: nat :: !LosesAt(cfg, start, events, k)
  {
    var lost := LostAlong(cfg, start);
    GatheredNothing(lost, events);
    if Gathered(lost, events) == [] {
      forall k: nat | LosesAt(cfg, start, events, k) ensures false {
        LosesAtPrefix(cfg, start, events, k);
      }
    } else {
      var k :| 0 < k <= |events| && lost(events[..k]) != [];
      LosesAtPrefix(cfg, start, events, k - 1);
    }
  }

  /** A run loses nothing if and only if no tick of it meets the guard. */
  lemma NothingLostIff(cfg: Config, initialSoc: real, now: real, events: seq<Event>)
    ensures var start := Initial(initialSoc, now);
            OverwrittenOf(Run(cfg, start, events).core.finished) == []
            <==> forall k: nat :: !LosesAt(cfg, start, events, k)
  {
    LostExactly(cfg, initialSoc, now, events);
    LostOnIff(cfg, Initial(initialSoc, now), events);
  }

  /** The charge branch gives up although it had something to do: the drive to the dock could
      not start or did not succeed. */
  predicate DockingFails(cfg: Config, a: Agent, env: Env) {
    TicksTasks(cfg, a, env) && (a.chargeChild != 0 || Battery.IsLow(a.core.soc))
  }

  /** The task branch fails: a leg used up all its rounds. */
  predicate TaskGivenUp(cfg: Config, a: Agent, env: Env) {
    && TicksTasks(cfg, a, env)
    && var b := ChargeFrom(cfg, a, a.chargeChild, env).agent;
       TaskFrom(cfg, b, b.taskChild, env).status.Failure?
  }

  /** A leg that is given up with a task current and another waiting costs the task: the branch
      starts over, and the very next tick, whatever the environment answers, writes the waiting one
      over it. */
  lemma GivenUpIsOverwritten(cfg: Config, a: Agent, env: Env, next: Env)
    requires Sound(a) && TaskGivenUp(cfg, a, env) && !Battery.IsLow(a.core.soc)
    requires a.core.current.Some? && a.core.pending != []
    ensures Overwrites(cfg, TreeTicked(cfg, a, env), BtTick(next))
  {
    ChargeTicked(cfg, a, env);
    var t := ChargeFrom(cfg, a, a.chargeChild, env).agent;
    TaskFromKeeps(cfg, t, t.taskChild, env);
    TaskIsFlat(cfg, t, env);
    TaskTickedCore(cfg, t, env);
    ChargeIsFlat(cfg, TreeTicked(cfg, a, env), next);
  }

  predicate Smooth(cfg: Config, a: Agent, e: Event) {
    e.BtTick? ==> !DockingFails(cfg, a, e.env) && !TaskGivenUp(cfg, a, e.env)
  }

  ghost predicate SmoothRun(cfg: Config, start: Agent, events: seq<Event>) {
    forall k :: 0 <= k < |events| ==> Smooth(cfg, Run(cfg, start, events[..k]), events[k])
  }

  /** No task is current before one is asked for, nor while the battery is low. */
  predicate Unattached(a: Agent) {
    (a.taskChild == 0 || Battery.IsLow(a.core.soc)) ==> a.core.current.None?
  }

  lemma SmoothStepKeeps(cfg: Config, a: Agent, e: Event)
    requires Sound(a) && OneActive(a.core) && Unattached(a) && Smooth(cfg, a, e)
    ensures Unattached(Step(cfg, a, e))
    ensures !Overwrites(cfg, a, e)
  {
    if e.BtTick? {
      ChargeTicked(cfg, a, e.env);
      var t := ChargeFrom(cfg, a, a.chargeChild, e.env);
      ChargeIsFlat(cfg, a, e.env);
      if t.status.Failure? {
        TaskIsFlat(cfg, t.agent, e.env);
        TaskTickedCore(cfg, t.agent, e.env);
      } else {
        NavTickedKeeps(a.core, a.charger, ToCharger, cfg.charger, e.env.chargerReady);
        TaskHaltKeeps(t.agent);
      }
    } else if ActionCallback(e) {
      CallbackKeeps(cfg, a, e);
    }
  }

  lemma {:induction false} SmoothRunKeeps(cfg: Config, initialSoc: real, now: real, events: seq<Event>)
    requires SmoothRun(cfg, Initial(initialSoc, now), events)
    ensures Unattached(Run(cfg, Initial(initialSoc, now), events))
    ensures LostOn(cfg, Initial(initialSoc, now), events) == []
  {
    if events != [] {
      var start := Initial(initialSoc, now);
      var before := events[..|events| - 1];
      forall k | 0 <= k < |before| ensures Smooth(cfg, Run(cfg, start, before[..k]), before[k]) {
        assert before[..k] == events[..k];
      }
      SmoothRunKeeps(cfg, initialSoc, now, before);
      AlwaysSound(cfg, initialSoc, now, before);
      RunRefines(cfg, initialSoc, now, before);
      SmoothStepKeeps(cfg, Run(cfg, start, before), events[|events| - 1]);
    }
  }

  lemma {:induction false} AllReported(f: seq<Finished>)
    requires OverwrittenOf(f) == []
    ensures ReportedOf(f) == TasksOf(f)
  {
    if f != [] {
      AllReported(f[..|f| - 1]);
      assert TasksOf(f) == TasksOf(f[..|f| - 1]) + [f[|f| - 1].task];
    }
  }

  /** If no leg is ever given up and the drive to the dock never fails, no task is lost, however
      often the battery interrupts: everything received was reported, is active or waits. */
  lemma NothingLostOnSmoothRuns(cfg: Config, initialSoc: real, now: real, events: seq<Event>)
    requires SmoothRun(cfg, Initial(initialSoc, now), events)
    ensures var c := Run(cfg, Initial(initialSoc, now), events).core;
            && OverwrittenOf(c.finished) == []
            && c.received == ReportedOf(c.finished) + ActiveOf(SlotsOf(c)) + c.pending
  {
    SmoothRunKeeps(cfg, initialSoc, now, events);
    LostExactly(cfg, initialSoc, now, events);
    TasksStayInOrder(cfg, initialSoc, now, events);
    AllReported(Run(cfg, Initial(initialSoc, now), events).core.finished);
  }
}
