/** What a robot publishes when it has worked off a task: when a completion names the task, and when
    it names none. */
module Completions {
  import opened AgentModel
  import opened Invariants
  import opened FlatTree
  import opened Slots
  import opened TaskFlow
  import Battery

  /** The clock never runs backwards between two battery updates. */
  predicate ForwardStep(a: Agent, e: Event) {
    e.BatteryTick? ==> e.now >= a.core.lastUpdate
  }

  ghost predicate ForwardRun(cfg: Config, start: Agent, events: seq<Event>) {
    forall k :: 0 <= k < |events| ==> ForwardStep(Run(cfg, start, events[..k]), events[k])
  }

  /** Past the request, a task is current, or the battery has just taken it away. */
  predicate Attended(a: Agent) {
    a.taskChild != 0 && a.core.current.None? ==> Battery.IsLow(a.core.soc)
  }

  lemma AttendedTick(cfg: Config, a: Agent, env: Env)
    requires Sound(a) && Attended(a)
    ensures Attended(TreeTicked(cfg, a, env))
  {
    ChargeTicked(cfg, a, env);
    ChargeIsFlat(cfg, a, env);
    NavTickedKeeps(a.core, a.charger, ToCharger, cfg.charger, env.chargerReady);
    var t := ChargeFrom(cfg, a, a.chargeChild, env);
    if t.status.Failure? {
      TaskIsFlat(cfg, t.agent, env);
      TaskTickedCore(cfg, t.agent, env);
    } else {
      TaskHaltKeeps(t.agent);
    }
  }

  /** A battery that is not charging only drains. */
  lemma OnlyDrains(soc: Battery.Soc, dt: real, m: Battery.Mode)
    requires dt >= 0.0 && !m.Charge?
    ensures Battery.Updated(soc, dt, m) <= soc
  {
  }

  lemma AttendedStep(cfg: Config, a: Agent, e: Event)
    requires Sound(a) && OneActive(a.core) && Attended(a) && ForwardStep(a, e)
    ensures Attended(Step(cfg, a, e))
  {
    if e.BtTick? {
      AttendedTick(cfg, a, e.env);
    } else if e.BatteryTick? {
      if a.taskChild != 0 {
        OnlyDrains(a.core.soc, e.now - a.core.lastUpdate, Battery.ModeOf(a.core.moving, a.core.charging));
      }
    } else if ActionCallback(e) {
      CallbackKeeps(cfg, a, e);
    }
  }

  lemma ForwardPrefix(cfg: Config, start: Agent, events: seq<Event>)
    requires events != [] && ForwardRun(cfg, start, events)
    ensures ForwardRun(cfg, start, events[..|events| - 1])
    ensures ForwardStep(Run(cfg, start, events[..|events| - 1]), events[|events| - 1])
  {
    var before := events[..|events| - 1];
    forall k | 0 <= k < |before| ensures ForwardStep(Run(cfg, start, before[..k]), before[k]) {
      assert before[..k] == events[..k];
    }
  }

  lemma {:induction false} AlwaysAttended(cfg: Config, initialSoc: real, now: real, events: seq<Event>)
    requires ForwardRun(cfg, Initial(initialSoc, now), events)
    ensures Attended(Run(cfg, Initial(initialSoc, now), events))
  {
    if events != [] {
      var start := Initial(initialSoc, now);
      var before := events[..|events| - 1];
      ForwardPrefix(cfg, start, events);
      AlwaysAttended(cfg, initialSoc, now, before);
      AlwaysSound(cfg, initialSoc, now, before);
      RunRefines(cfg, initialSoc, now, before);
      AttendedStep(cfg, Run(cfg, start, before), events[|events| - 1]);
    }
  }

  /** A tick reports a task that is not there exactly when the drop is over, the battery has
      taken the task away and the navigation server is not ready to go and charge. The last two
      only happen together with a low battery. */
  lemma BlankExactly(cfg: Config, initialSoc: real, now: real, events: seq<Event>, env: Env)
    requires ForwardRun(cfg, Initial(initialSoc, now), events)
    ensures var a := Run(cfg, Initial(initialSoc, now), events);
            var a' := TreeTicked(cfg, a, env);
            (a'.core.completions != a.core.completions && a.core.current.None?)
            <==> (a.taskChild == 4 && TimeUp(a.doDrop, env.now) && a.core.current.None? && !env.chargerReady)
    ensures var a := Run(cfg, Initial(initialSoc, now), events);
            var a' := TreeTicked(cfg, a, env);
            a'.core.completions != a.core.completions ==>
              a'.core.completions == a.core.completions + [CompletionOf(a.core, cfg.robotName, env.now)]
    ensures var a := Run(cfg, Initial(initialSoc, now), events);
            a.taskChild == 4 && a.core.current.None? ==> Battery.IsLow(a.core.soc)
  {
    var a := Run(cfg, Initial(initialSoc, now), events);
    AlwaysAttended(cfg, initialSoc, now, events);
    AlwaysSound(cfg, initialSoc, now, events);
    ChargeTicked(cfg, a, env);
    ChargeIsFlat(cfg, a, env);
    NavTickedKeeps(a.core, a.charger, ToCharger, cfg.charger, env.chargerReady);
    var t := ChargeFrom(cfg, a, a.chargeChild, env);
    if t.status.Failure? {
      TaskIsFlat(cfg, t.agent, env);
      TaskTickedCore(cfg, t.agent, env);
    } else {
      TaskHaltKeeps(t.agent);
    }
  }

  // ---------------------------------------------------------------------------
  // Completions and reported tasks
  // ---------------------------------------------------------------------------

  function IdsOf(ts: seq<Task>): (ids: seq<string>)
    ensures |ids| == |ts|
  {
    seq(|ts|, i requires 0 <= i < |ts| => ts[i].id)
  }

  function NamedBy(cs: seq<Completion>): (ids: seq<string>)
    ensures |ids| == |cs|
  {
    seq(|cs|, i requires 0 <= i < |cs| => cs[i].taskId)
  }

  /** The completions are the reported tasks, one for one, and carry the robot's name. */
  predicate Authentic(robotName: string, cs: seq<Completion>, ts: seq<Task>) {
    NamedBy(cs) == IdsOf(ts) && forall i :: 0 <= i < |cs| ==> cs[i].robotId == robotName
  }

  /** The tick reports a task that the battery has taken away. */
  predicate ReportsBlank(cfg: Config, a: Agent, e: Event) {
    && e.BtTick? && TicksTasks(cfg, a, e.env)
    && a.taskChild == 4 && TimeUp(a.doDrop, e.env.now) && a.core.current.None?
  }

  lemma TickPublishes(cfg: Config, a: Agent, env: Env)
    requires Sound(a) && OneActive(a.core)
    ensures TreeTicked(cfg, a, env).core.completions
         == a.core.completions
            + if Label(cfg, a, BtTick(env)).Report? || ReportsBlank(cfg, a, BtTick(env))
              then [CompletionOf(a.core, cfg.robotName, env.now)] else []
  {
    ChargeTicked(cfg, a, env);
    var t := ChargeFrom(cfg, a, a.chargeChild, env);
    if t.status.Failure? {
      TaskIsFlat(cfg, t.agent, env);
      TaskTickedCore(cfg, t.agent, env);
    } else {
      ChargeIsFlat(cfg, a, env);
      NavTickedKeeps(a.core, a.charger, ToCharger, cfg.charger, env.chargerReady);
      TaskHaltKeeps(t.agent);
    }
  }

  /** What a step publishes: the active task when the slots report it, a message with empty ids where
      the task is missing, and else nothing. */
  lemma StepPublishes(cfg: Config, a: Agent, e: Event)
    requires Sound(a) && OneActive(a.core)
    ensures Step(cfg, a, e).core.completions
         == a.core.completions
            + if Label(cfg, a, e).Report? || ReportsBlank(cfg, a, e)
              then [CompletionOf(a.core, cfg.robotName, e.env.now)] else []
  {
    if e.BtTick? {
      TickPublishes(cfg, a, e.env);
    } else if ActionCallback(e) {
      CallbackKeeps(cfg, a, e);
    }
  }

  function BlankLast(cfg: Config, start: Agent, events: seq<Event>): seq<Event> {
    if events == [] then []
    else if ReportsBlank(cfg, Run(cfg, start, events[..|events| - 1]), events[|events| - 1])
    then [events[|events| - 1]]
    else []
  }

  function BlankAlong(cfg: Config, start: Agent): seq<Event> -> seq<Event> {
    prefix => BlankLast(cfg, start, prefix)
  }

  /** The ticks of a run that report a missing task. */
  function BlanksOn(cfg: Config, start: Agent, events: seq<Event>): seq<Event> {
    Gathered(BlankAlong(cfg, start), events)
  }

  lemma AuthenticGrows(robotName: string, cs: seq<Completion>, c: Completion, ts: seq<Task>, t: Task)
    requires Authentic(robotName, cs, ts) && c.taskId == t.id && c.robotId == robotName
    ensures Authentic(robotName, cs + [c], ts + [t])
  {
    assert NamedBy(cs + [c]) == NamedBy(cs) + [c.taskId];
    assert IdsOf(ts + [t]) == IdsOf(ts) + [t.id];
  }

  /** The completions are the reported tasks and, besides, one message for every blank. */
  predicate Accounts(robotName: string, cs: seq<Completion>, ts: seq<Task>, blanks: nat) {
    |cs| == |ts| + blanks && (blanks == 0 ==> Authentic(robotName, cs, ts))
  }

  /** A slot step that publishes what it reports, or a blank. */
  lemma AccountsFollow(robotName: string, s: Slots, l: SlotEvent, before: seq<Completion>, after: seq<Completion>,
                       c: Completion, blanks: nat, blank: bool)
    requires Can(s, l) && Accounts(robotName, before, ReportedOf(s.finished), blanks) && !(l.Report? && blank)
    requires after == before + if l.Report? || blank then [c] else []
    requires l.Report? ==> c.taskId == s.active.value.id && c.robotId == robotName
    ensures Accounts(robotName, after, ReportedOf(Do(s, l).finished), blanks + if blank then 1 else 0)
  {
    if s.active.Some? {
      FinishedGrows(s.finished, Overwritten(s.active.value));
      FinishedGrows(s.finished, Reported(s.active.value));
    }
    assert before + [] == before;
    if l.Report? && blanks == 0 {
      AuthenticGrows(robotName, before, c, ReportedOf(s.finished), s.active.value);
    }
  }

  lemma StepAccounts(cfg: Config, a: Agent, e: Event, blanks: nat)
    requires Sound(a) && OneActive(a.core)
    requires Accounts(cfg.robotName, a.core.completions, ReportedOf(a.core.finished), blanks)
    ensures var c := Step(cfg, a, e).core;
            Accounts(cfg.robotName, c.completions, ReportedOf(c.finished),
                     blanks + if ReportsBlank(cfg, a, e) then 1 else 0)
  {
    StepPublishes(cfg, a, e);
    StepRefines(cfg, a, e);
    var c := Step(cfg, a, e).core;
    assert c.finished == Do(SlotsOf(a.core), Label(cfg, a, e)).finished;
    AccountsFollow(cfg.robotName, SlotsOf(a.core), Label(cfg, a, e), a.core.completions, c.completions,
                   CompletionOf(a.core, cfg.robotName, if e.BtTick? then e.env.now else 0.0), blanks,
                   ReportsBlank(cfg, a, e));
  }

  lemma {:induction false} RunAccounts(cfg: Config, initialSoc: real, now: real, events: seq<Event>)
    ensures var start := Initial(initialSoc, now);
            var c := Run(cfg, start, events).core;
            Accounts(cfg.robotName, c.completions, ReportedOf(c.finished), |BlanksOn(cfg, start, events)|)
  {
    if events != [] {
      var start := Initial(initialSoc, now);
      var before := events[..|events| - 1];
      RunAccounts(cfg, initialSoc, now, before);
      AlwaysSound(cfg, initialSoc, now, before);
      RunRefines(cfg, initialSoc, now, before);
      StepAccounts(cfg, Run(cfg, start, before), events[|events| - 1], |BlanksOn(cfg, start, before)|);
    }
  }

  predicate BlankAt(cfg: Config, start: Agent, events: seq<Event>, k: nat) {
    k < |events| && ReportsBlank(cfg, Run(cfg, start, events[..k]), events[k])
  }

  lemma BlankAtPrefix(cfg: Config, start: Agent, events: seq<Event>, k: nat)
    requires k < |events|
    ensures BlankAt(cfg, start, events, k) <==> BlankAlong(cfg, start)(events[..k + 1]) != []
  {
    assert events[..k + 1][..k] == events[..k];
  }

  lemma BlanksOnIff(cfg: Config, start: Agent, events: seq<Event>)
    ensures BlanksOn(cfg, start, events) == [] <==> forall k: nat :: !BlankAt(cfg, start, events, k)
  {
    var blank := BlankAlong(cfg, start);
    GatheredNothing(blank, events);
    if Gathered(blank, events) == [] {
      forall k: nat | BlankAt(cfg, start, events, k) ensures false {
        BlankAtPrefix(cfg, start, events, k);
      }
    } else {
      var k :| 0 < k <= |events| && blank(events[..k]) != [];
      BlankAtPrefix(cfg, start, events, k - 1);
    }
  }

  /** On every run: the published completions are the reported tasks, one for one and in order, under
      the robot's own name, if and only if no tick meets the guard. */
  lemma AuthenticIff(cfg: Config, initialSoc: real, now: real, events: seq<Event>)
    ensures var start := Initial(initialSoc, now);
            var c := Run(cfg, start, events).core;
            Authentic(cfg.robotName, c.completions, ReportedOf(c.finished))
            <==> forall k: nat :: !BlankAt(cfg, start, events, k)
  {
    RunAccounts(cfg, initialSoc, now, events);
    BlanksOnIff(cfg, Initial(initialSoc, now), events);
  }

  // ---------------------------------------------------------------------------
  // Where the dock can be reached
  // ---------------------------------------------------------------------------

  /** Whenever the battery is low, the navigation server is ready. */
  ghost predicate ReadyWhenLow(cfg: Config, start: Agent, events: seq<Event>) {
    forall k :: 0 <= k < |events| && events[k].BtTick? && Battery.IsLow(Run(cfg, start, events[..k]).core.soc)
      ==> events[k].env.chargerReady
  }

  lemma ReadyMeansNoBlank(cfg: Config, a: Agent, e: Event)
    requires Sound(a) && Attended(a) && (e.BtTick? && Battery.IsLow(a.core.soc) ==> e.env.chargerReady)
    ensures !ReportsBlank(cfg, a, e)
  {
  }

  lemma {:induction false} ForwardUpTo(cfg: Config, start: Agent, events: seq<Event>, n: nat)
    requires n <= |events| && ForwardRun(cfg, start, events)
    ensures ForwardRun(cfg, start, events[..n])
  {
    forall k | 0 <= k < n ensures ForwardStep(Run(cfg, start, events[..n][..k]), events[..n][k]) {
      assert events[..n][..k] == events[..k];
    }
  }

  lemma ReadyHasNoBlankAt(cfg: Config, initialSoc: real, now: real, events: seq<Event>, k: nat)
    requires ForwardRun(cfg, Initial(initialSoc, now), events)
    requires ReadyWhenLow(cfg, Initial(initialSoc, now), events)
    ensures !BlankAt(cfg, Initial(initialSoc, now), events, k)
  {
    if k < |events| {
      var start := Initial(initialSoc, now);
      ForwardUpTo(cfg, start, events, k);
      AlwaysAttended(cfg, initialSoc, now, events[..k]);
      AlwaysSound(cfg, initialSoc, now, events[..k]);
      ReadyMeansNoBlank(cfg, Run(cfg, start, events[..k]), events[k]);
    }
  }

  /** With a clock that runs forward and a server that is ready whenever the battery is low, the
      completions are authentic; by `TasksStayInOrder` each task they name was received, and
      reported once. */
  lemma CompletionsAreAuthentic(cfg: Config, initialSoc: real, now: real, events: seq<Event>)
    requires ForwardRun(cfg, Initial(initialSoc, now), events)
    requires ReadyWhenLow(cfg, Initial(initialSoc, now), events)
    ensures var c := Run(cfg, Initial(initialSoc, now), events).core;
            Authentic(cfg.robotName, c.completions, ReportedOf(c.finished))
  {
    forall k: nat ensures !BlankAt(cfg, Initial(initialSoc, now), events, k) {
      ReadyHasNoBlankAt(cfg, initialSoc, now, events, k);
    }
    AuthenticIff(cfg, initialSoc, now, events);
  }

  // ---------------------------------------------------------------------------
  // What a completion says
  // ---------------------------------------------------------------------------

  /** The tick takes a task, a new one or the interrupted one. */
  predicate Takes(cfg: Config, a: Agent, e: Event) {
    e.BtTick? && TicksTasks(cfg, a, e.env) && a.taskChild == 0 && (a.core.interrupted.Some? || a.core.pending != [])
  }

  /** The tick ends a drop. */
  predicate Ends(cfg: Config, a: Agent, e: Event) {
    e.BtTick? && TicksTasks(cfg, a, e.env) && a.taskChild == 4 && TimeUp(a.doDrop, e.env.now)
  }

  /** The clock at the last tick that took a task, from `t0`. */
  function TakenAt(cfg: Config, start: Agent, events: seq<Event>, t0: real): real {
    if events == [] then t0
    else
      var before, last := events[..|events| - 1], events[|events| - 1];
      if Takes(cfg, Run(cfg, start, before), last) then last.env.now else TakenAt(cfg, start, before, t0)
  }

  /** What the end of a drop says: the current task's id and the robot's name, or empty ids, and the time
      since clock `since`. */
  function Says(cfg: Config, a: Agent, e: Event, since: real): seq<Completion> {
    if !Ends(cfg, a, e) then []
    else if a.core.current.Some? then [Completion(a.core.current.value.id, cfg.robotName, e.env.now - since)]
    else [Completion("", "", e.env.now - since)]
  }

  /** One message for every drop that ends, with the time since a task was last taken. */
  function Published(cfg: Config, start: Agent, events: seq<Event>, t0: real): seq<Completion> {
    if events == [] then []
    else
      var before := events[..|events| - 1];
      Published(cfg, start, before, t0)
      + Says(cfg, Run(cfg, start, before), events[|events| - 1], TakenAt(cfg, start, before, t0))
  }

  lemma TickTimes(cfg: Config, a: Agent, env: Env)
    requires Sound(a)
    ensures TreeTicked(cfg, a, env).core.taskStart == if Takes(cfg, a, BtTick(env)) then env.now else a.core.taskStart
  {
    ChargeTicked(cfg, a, env);
    var t := ChargeFrom(cfg, a, a.chargeChild, env);
    if t.status.Failure? {
      TaskIsFlat(cfg, t.agent, env);
      TaskTickedCore(cfg, t.agent, env);
    } else {
      ChargeIsFlat(cfg, a, env);
      NavTickedKeeps(a.core, a.charger, ToCharger, cfg.charger, env.chargerReady);
      TaskHaltKeeps(t.agent);
    }
  }

  lemma StepTimes(cfg: Config, a: Agent, e: Event)
    requires Sound(a)
    ensures Step(cfg, a, e).core.taskStart == if Takes(cfg, a, e) then e.env.now else a.core.taskStart
  {
    if e.BtTick? {
      TickTimes(cfg, a, e.env);
    } else if ActionCallback(e) {
      CallbackKeeps(cfg, a, e);
    }
  }

  lemma {:induction false} AlwaysTimed(cfg: Config, initialSoc: real, now: real, events: seq<Event>)
    ensures var start := Initial(initialSoc, now);
            Run(cfg, start, events).core.taskStart == TakenAt(cfg, start, events, now)
  {
    if events != [] {
      var before := events[..|events| - 1];
      AlwaysTimed(cfg, initialSoc, now, before);
      AlwaysSound(cfg, initialSoc, now, before);
      StepTimes(cfg, Run(cfg, Initial(initialSoc, now), before), events[|events| - 1]);
    }
  }

  lemma StepSays(cfg: Config, a: Agent, e: Event)
    requires Sound(a) && OneActive(a.core)
    ensures Step(cfg, a, e).core.completions == a.core.completions + Says(cfg, a, e, a.core.taskStart)
  {
    StepPublishes(cfg, a, e);
  }

  /** On every run the messages published are exactly these, in this order. */
  lemma {:induction false} PublishedExactly(cfg: Config, initialSoc: real, now: real, events: seq<Event>)
    ensures var start := Initial(initialSoc, now);
            Run(cfg, start, events).core.completions == Published(cfg, start, events, now)
  {
    if events != [] {
      var start := Initial(initialSoc, now);
      var before := events[..|events| - 1];
      PublishedExactly(cfg, initialSoc, now, before);
      AlwaysTimed(cfg, initialSoc, now, before);
      AlwaysSound(cfg, initialSoc, now, before);
      RunRefines(cfg, initialSoc, now, before);
      StepSays(cfg, Run(cfg, start, before), events[|events| - 1]);
    }
  }
}
