/** The whole fleet: the server's allocator and store, one assignment channel and one completion
    channel per robot, and any number of running robot agents, all stepping in any order. The
    channels are lossless and in order; publishing an assignment and recording it is one step. */
module FleetSystem {
  import opened AgentModel
  import opened Invariants
  import opened Slots
  import opened Completions
  import opened TaskFlow
  import TaskStore
  import Allocator
  import FleetServer

  /** A robot with its two channels. `sent` and `answered` are history: what was ever dispatched
      to it, and which of its completions the server has handled. */
  datatype Robot = Robot(
    agent: Agent,
    inbox: seq<Task>,
    outbox: seq<Completion>,
    sent: seq<Task>,
    answered: seq<Completion>)

  datatype System = System(robots: map<string, Robot>, records: TaskStore.Records, statuses: Allocator.Fleet)

  type Configs = map<string, Config>

  datatype SystemEvent =
    | Dispatch(request: Task, generated: string)
    | DeliverTask(robot: string)
    | RobotStep(robot: string, event: Event)
    | DeliverReport(robot: string)
    | StatusSeen(status: RobotStatus)

  ghost predicate Enabled(cfgs: Configs, sc: Allocator.Scoring, s: System, e: SystemEvent) {
    match e
    case Dispatch(request, generated) =>
      var id := if request.id == "" then generated else request.id;
      id != "" && forall k :: 0 <= k < |s.records| ==> s.records[k].taskId != id
    case DeliverTask(r) => r in s.robots && r in cfgs && s.robots[r].inbox != []
    case RobotStep(r, event) => r in s.robots && r in cfgs && !event.TaskArrives?
    case DeliverReport(r) => r in s.robots && s.robots[r].outbox != []
    case StatusSeen(status) => status.robotId in s.robots
  }

  function Stepped(cfg: Config, r: Robot, e: Event): Robot {
    var a' := Step(cfg, r.agent, e);
    var n := |r.agent.core.completions|;
    r.(agent := a', outbox := r.outbox + if n <= |a'.core.completions| then a'.core.completions[n..] else [])
  }

  function Arrived(cfg: Config, r: Robot): Robot
    requires r.inbox != []
  {
    r.(agent := Step(cfg, r.agent, TaskArrives(r.inbox[0])), inbox := r.inbox[1..])
  }

  /** Robots only report success. */
  function Reported(c: Completion): TaskStore.TaskCompletion {
    TaskStore.TaskCompletion(c.taskId, c.robotId, TaskStore.RESULT_SUCCESS, c.duration)
  }

  function Sent(r: Robot, t: Task): Robot {
    r.(inbox := r.inbox + [t], sent := r.sent + [t])
  }

  function Answered(r: Robot): Robot
    requires r.outbox != []
  {
    r.(outbox := r.outbox[1..], answered := r.answered + [r.outbox[0]])
  }

  /** The system once task `t` has been published to robot `r` and recorded. */
  function AfterDispatch(s: System, r: string, t: Task): System
    requires r in s.robots
  {
    s.(robots := s.robots[r := Sent(s.robots[r], t)], records := s.records + [TaskStore.NewRecord(t)])
  }

  /** The system once robot `r`'s oldest completion has been handled. */
  function AfterReport(s: System, r: string): System
    requires r in s.robots && s.robots[r].outbox != []
  {
    s.(robots := s.robots[r := Answered(s.robots[r])],
       records := TaskStore.Updated(s.records, Reported(s.robots[r].outbox[0])))
  }

  /** Every status seen is of a robot of the fleet. */
  ghost predicate Known(s: System) { s.statuses.Keys <= s.robots.Keys }

  ghost function Next(cfgs: Configs, sc: Allocator.Scoring, s: System, e: SystemEvent): (s': System)
    requires Known(s) && Enabled(cfgs, sc, s, e)
    ensures Known(s')
  {
    match e
    case Dispatch(request, generated) =>
      (match FleetServer.ChoiceOf(sc, s.statuses, request.pick)
       case None => s
       case Some(r) => AfterDispatch(s, r, FleetServer.Stamped(request, r, generated)))
    case DeliverTask(r) => s.(robots := s.robots[r := Arrived(cfgs[r], s.robots[r])])
    case RobotStep(r, event) => s.(robots := s.robots[r := Stepped(cfgs[r], s.robots[r], event)])
    case DeliverReport(r) => AfterReport(s, r)
    case StatusSeen(status) => s.(statuses := s.statuses[status.robotId := status])
  }

  /** The assignments meant for robot `r`. */
  function MeantFor(ts: seq<Task>, r: string): seq<Task> {
    if ts == [] then [] else MeantFor(ts[..|ts| - 1], r) + if ts[|ts| - 1].robot == r then [ts[|ts| - 1]] else []
  }

  /** A dispatch does to the records and to the channels what the server's entry points do, and none
      of them throws: it records what they record and puts every assignment they publish into its
      robot's channel, and into no other. */
  lemma DispatchIsTheServers(cfgs: Configs, sc: Allocator.Scoring, s: System, request: Task, generated: string)
    requires Known(s) && Enabled(cfgs, sc, s, Dispatch(request, generated))
    ensures !FleetServer.Throws(sc, s.robots.Keys, s.statuses, request)
    ensures var s' := Next(cfgs, sc, s, Dispatch(request, generated));
            var sent := FleetServer.DispatchedFor(sc, s.robots.Keys, s.statuses, request, generated);
            && s'.records == s.records + FleetServer.NewRecords(sent)
            && s'.robots.Keys == s.robots.Keys
            && forall r :: r in s.robots ==> s'.robots[r].inbox == s.robots[r].inbox + MeantFor(sent, r)
  {
  }

  // ---------------------------------------------------------------------------
  // Ids
  // ---------------------------------------------------------------------------

  /** The task ids a stream of completions names; messages with an empty id name none. */
  function Named(cs: seq<Completion>): seq<string> {
    if cs == [] then []
    else Named(cs[..|cs| - 1]) + if cs[|cs| - 1].taskId != "" then [cs[|cs| - 1].taskId] else []
  }

  lemma {:induction false} NamedAppends(a: seq<Completion>, b: seq<Completion>)
    ensures Named(a + b) == Named(a) + Named(b)
  {
    if b == [] {
      assert a + b == a;
    } else {
      assert (a + b)[..|a + b| - 1] == a + b[..|b| - 1];
      NamedAppends(a, b[..|b| - 1]);
    }
  }

  lemma IdsAppend(a: seq<Task>, b: seq<Task>)
    ensures IdsOf(a + b) == IdsOf(a) + IdsOf(b)
  {
  }

  /** The ids of the records kept for a robot, in order. */
  function RecordedFor(rs: TaskStore.Records, r: string): seq<string> {
    if rs == [] then []
    else RecordedFor(rs[..|rs| - 1], r) + if rs[|rs| - 1].robotId == r then [rs[|rs| - 1].taskId] else []
  }

  lemma {:induction false} RecordedWhere(rs: TaskStore.Records, r: string, id: string)
    ensures id in RecordedFor(rs, r) <==> exists k :: 0 <= k < |rs| && rs[k].taskId == id && rs[k].robotId == r
  {
    if rs != [] {
      RecordedWhere(rs[..|rs| - 1], r, id);
      var last := rs[|rs| - 1];
      assert forall k :: 0 <= k < |rs| - 1 ==> rs[k] == rs[..|rs| - 1][k];
    }
  }

  // ---------------------------------------------------------------------------
  // One robot
  // ---------------------------------------------------------------------------

  /** A robot accounts for everything sent to it and everything it published. */
  ghost predicate RobotOk(r: Robot) {
    var c := r.agent.core;
    && Sound(r.agent) && OneActive(c) && Ordered(SlotsOf(c))
    && r.sent == c.received + r.inbox
    && (forall t :: t in r.sent ==> t.id != "")
    && c.completions == r.answered + r.outbox
    && Named(c.completions) == IdsOf(ReportedOf(c.finished))
  }

  lemma ActiveWasSent(r: Robot)
    requires RobotOk(r) && SlotsOf(r.agent.core).active.Some?
    ensures SlotsOf(r.agent.core).active.value in r.sent
  {
  }

  lemma NamedOne(cs: seq<Completion>, c: Completion)
    ensures Named(cs + [c]) == Named(cs) + if c.taskId != "" then [c.taskId] else []
  {
  }

  /** A slot step that publishes what it reports, or a message that names nothing. */
  lemma NamesFollow(s: Slots, l: SlotEvent, before: seq<Completion>, after: seq<Completion>, c: Completion)
    requires Can(s, l) && Named(before) == IdsOf(ReportedOf(s.finished))
    requires s.active.Some? ==> s.active.value.id != ""
    requires if l.Report? then after == before + [c] && c.taskId == s.active.value.id
             else after == before || (after == before + [c] && c.taskId == "")
    ensures before <= after && Named(after) == IdsOf(ReportedOf(Do(s, l).finished))
  {
    NamedOne(before, c);
    if s.active.Some? {
      FinishedGrows(s.finished, AgentModel.Reported(s.active.value));
      FinishedGrows(s.finished, Overwritten(s.active.value));
      IdsAppend(ReportedOf(s.finished), [s.active.value]);
    }
  }

  /** A callback's publications and reports stay in step. */
  lemma StepNames(cfg: Config, a: Agent, e: Event)
    requires Sound(a) && OneActive(a.core)
    requires Named(a.core.completions) == IdsOf(ReportedOf(a.core.finished))
    requires SlotsOf(a.core).active.Some? ==> SlotsOf(a.core).active.value.id != ""
    ensures var c := Step(cfg, a, e).core;
            && a.core.completions <= c.completions
            && Named(c.completions) == IdsOf(ReportedOf(c.finished))
  {
    StepPublishes(cfg, a, e);
    StepRefines(cfg, a, e);
    var c := Step(cfg, a, e).core;
    assert c.finished == Do(SlotsOf(a.core), Label(cfg, a, e)).finished;
    NamesFollow(SlotsOf(a.core), Label(cfg, a, e), a.core.completions, c.completions,
                CompletionOf(a.core, cfg.robotName, if e.BtTick? then e.env.now else 0.0));
  }

  lemma SlotsStayOrdered(cfg: Config, a: Agent, e: Event)
    requires Sound(a) && OneActive(a.core) && Ordered(SlotsOf(a.core))
    ensures var a' := Step(cfg, a, e);
            && Sound(a') && OneActive(a'.core) && Ordered(SlotsOf(a'.core))
            && a'.core.received == a.core.received + if e.TaskArrives? then [e.task] else []
  {
    StepKeepsSound(cfg, a, e);
    StepRefines(cfg, a, e);
    DoKeepsOrdered(SlotsOf(a.core), Label(cfg, a, e));
    assert Step(cfg, a, e).core.received == Do(SlotsOf(a.core), Label(cfg, a, e)).received;
  }

  /** A robot stays accounted for when its agent moves on, receiving nothing and publishing more. */
  lemma MovesOnOk(r: Robot, a': Agent)
    requires RobotOk(r)
    requires Sound(a') && OneActive(a'.core) && Ordered(SlotsOf(a'.core))
    requires a'.core.received == r.agent.core.received && r.agent.core.completions <= a'.core.completions
    requires Named(a'.core.completions) == IdsOf(ReportedOf(a'.core.finished))
    ensures RobotOk(r.(agent := a', outbox := r.outbox + a'.core.completions[|r.agent.core.completions|..]))
  {
    var news := a'.core.completions[|r.agent.core.completions|..];
    assert a'.core.completions == r.agent.core.completions + news;
    assert r.answered + r.outbox + news == r.answered + (r.outbox + news);
  }

  lemma SteppedOk(cfg: Config, r: Robot, e: Event)
    requires RobotOk(r) && !e.TaskArrives?
    ensures RobotOk(Stepped(cfg, r, e))
    ensures Stepped(cfg, r, e).sent == r.sent && Stepped(cfg, r, e).answered == r.answered
  {
    if SlotsOf(r.agent.core).active.Some? {
      ActiveWasSent(r);
    }
    SlotsStayOrdered(cfg, r.agent, e);
    StepNames(cfg, r.agent, e);
    MovesOnOk(r, Step(cfg, r.agent, e));
  }

  lemma ArrivedOk(cfg: Config, r: Robot)
    requires RobotOk(r) && r.inbox != []
    ensures RobotOk(Arrived(cfg, r))
  {
  }

  lemma SentOk(r: Robot, t: Task)
    requires RobotOk(r) && t.id != ""
    ensures RobotOk(Sent(r, t))
  {
  }

  lemma AnsweredOk(r: Robot)
    requires RobotOk(r) && r.outbox != []
    ensures RobotOk(Answered(r))
    ensures Named(Answered(r).answered)
         == Named(r.answered) + if r.outbox[0].taskId != "" then [r.outbox[0].taskId] else []
  {
  }

  /** Where the tasks ever sent to a robot are now, counted by id. */
  function Places(r: Robot): multiset<string> {
    var c := r.agent.core;
    multiset(IdsOf(r.inbox)) + multiset(IdsOf(c.pending)) + multiset(IdsOf(ActiveOf(SlotsOf(c))))
    + multiset(IdsOf(OverwrittenOf(c.finished))) + multiset(Named(r.outbox)) + multiset(Named(r.answered))
  }

  lemma {:induction false} FinishedIds(f: seq<Finished>)
    ensures multiset(IdsOf(TasksOf(f))) == multiset(IdsOf(ReportedOf(f))) + multiset(IdsOf(OverwrittenOf(f)))
  {
    if f != [] {
      var front, last := f[..|f| - 1], f[|f| - 1];
      FinishedIds(front);
      assert TasksOf(f) == TasksOf(front) + [last.task];
      IdsAppend(TasksOf(front), [last.task]);
      IdsAppend(ReportedOf(front), [last.task]);
      IdsAppend(OverwrittenOf(front), [last.task]);
      if last.Reported? {
        assert OverwrittenOf(f) == OverwrittenOf(front);
      } else {
        assert ReportedOf(f) == ReportedOf(front);
      }
    }
  }

  lemma PlacesAreSent(r: Robot)
    requires RobotOk(r)
    ensures Places(r) == multiset(IdsOf(r.sent))
  {
    var c := r.agent.core;
    var s := SlotsOf(c);
    FinishedIds(c.finished);
    NamedAppends(r.answered, r.outbox);
    IdsAppend(StartedOf(s) + s.queue, r.inbox);
    IdsAppend(StartedOf(s), s.queue);
    IdsAppend(TasksOf(c.finished), ActiveOf(s));
  }

  // ---------------------------------------------------------------------------
  // The system
  // ---------------------------------------------------------------------------

  /** The record carries what the completion says. */
  predicate Tells(rec: TaskStore.TaskRecord, c: Completion) {
    c.taskId == rec.taskId && c.duration == rec.duration && rec.result == 0
  }

  /** Record `k` is completed exactly when its robot's completion has been handled. */
  ghost predicate RecordOk(s: System, k: nat)
    requires k < |s.records|
  {
    var rec := s.records[k];
    && rec.robotId in s.robots && rec.taskId != ""
    && (rec.status.Completed? || rec.status.Assigned?)
    && (rec.status.Completed? <==> rec.taskId in Named(s.robots[rec.robotId].answered))
    && (rec.status.Completed? ==> exists c :: c in s.robots[rec.robotId].answered && Tells(rec, c))
  }

  ghost predicate DistinctIds(rs: TaskStore.Records) {
    forall j, k :: 0 <= j < k < |rs| ==> rs[j].taskId != rs[k].taskId
  }

  /** The records are those of everything sent, each in the right state. */
  ghost predicate RecordsOk(s: System) {
    && DistinctIds(s.records)
    && (forall r :: r in s.robots ==> RecordedFor(s.records, r) == IdsOf(s.robots[r].sent))
    && (forall k :: 0 <= k < |s.records| ==> RecordOk(s, k))
  }

  ghost predicate SystemOk(s: System) {
    && (forall r :: r in s.robots ==> RobotOk(s.robots[r]))
    && RecordsOk(s)
    && Known(s)
  }

  lemma NamedWereSent(r: Robot, id: string)
    requires RobotOk(r) && (id in Named(r.answered) || id in Named(r.outbox))
    ensures id in IdsOf(r.sent)
  {
    PlacesAreSent(r);
    assert id in Places(r);
  }

  lemma LocalRecordsOk(s: System, r: string, r': Robot)
    requires RecordsOk(s) && r in s.robots
    requires r'.sent == s.robots[r].sent && r'.answered == s.robots[r].answered
    ensures RecordsOk(s.(robots := s.robots[r := r']))
  {
    var s' := s.(robots := s.robots[r := r']);
    forall k | 0 <= k < |s'.records| ensures RecordOk(s', k) {
      assert RecordOk(s, k);
    }
  }

  /** A step of one robot that neither sends it anything nor handles its reports. */
  lemma LocalStepOk(s: System, r: string, r': Robot)
    requires SystemOk(s) && r in s.robots && RobotOk(r')
    requires r'.sent == s.robots[r].sent && r'.answered == s.robots[r].answered
    ensures SystemOk(s.(robots := s.robots[r := r']))
  {
    LocalRecordsOk(s, r, r');
  }

  lemma DispatchRecordsOk(s: System, r: string, t: Task)
    requires RecordsOk(s) && r in s.robots && t.robot == r && t.id != "" && t.id !in Named(s.robots[r].answered)
    requires forall k :: 0 <= k < |s.records| ==> s.records[k].taskId != t.id
    ensures RecordsOk(AfterDispatch(s, r, t))
  {
    var s' := AfterDispatch(s, r, t);
    var n := |s.records|;
    assert s'.records[..n] == s.records;
    IdsAppend(s.robots[r].sent, [t]);
    forall k | 0 <= k < |s'.records| ensures RecordOk(s', k) {
      if k < n {
        assert RecordOk(s, k);
      }
    }
  }

  lemma DispatchOk(s: System, r: string, t: Task)
    requires SystemOk(s) && r in s.robots && t.robot == r && t.id != ""
    requires forall k :: 0 <= k < |s.records| ==> s.records[k].taskId != t.id
    ensures SystemOk(AfterDispatch(s, r, t))
  {
    SentOk(s.robots[r], t);
    if t.id in Named(s.robots[r].answered) {
      NamedWereSent(s.robots[r], t.id);
      RecordedWhere(s.records, r, t.id);
    }
    DispatchRecordsOk(s, r, t);
  }

  lemma {:induction false} UpdateKeepsRecorded(rs: TaskStore.Records, i: nat, c: TaskStore.TaskCompletion, r: string)
    requires i < |rs|
    ensures RecordedFor(rs[i := TaskStore.Written(rs[i], c)], r) == RecordedFor(rs, r)
  {
    var n := |rs| - 1;
    var rs' := rs[i := TaskStore.Written(rs[i], c)];
    if i < n {
      assert rs'[..n] == rs[..n][i := TaskStore.Written(rs[i], c)];
      UpdateKeepsRecorded(rs[..n], i, c, r);
    } else {
      assert rs'[..n] == rs[..n];
    }
  }

  lemma OldestWasSent(r: Robot)
    requires RobotOk(r) && r.outbox != [] && r.outbox[0].taskId != ""
    ensures r.outbox[0].taskId in IdsOf(r.sent)
  {
    var c := r.outbox[0];
    assert r.outbox == [c] + r.outbox[1..];
    NamedAppends([c], r.outbox[1..]);
    NamedOne([], c);
    NamedWereSent(r, c.taskId);
  }

  /** The oldest completion on its way names a task recorded for the robot it comes from. */
  lemma ReportFindsItsRecord(s: System, r: string)
    requires SystemOk(s) && r in s.robots && s.robots[r].outbox != [] && s.robots[r].outbox[0].taskId != ""
    ensures var i := TaskStore.IndexOf(s.records, s.robots[r].outbox[0].taskId);
            i < |s.records| && s.records[i].robotId == r
  {
    OldestWasSent(s.robots[r]);
    RecordedWhere(s.records, r, s.robots[r].outbox[0].taskId);
  }

  /** No record has an empty id, so a completion with one changes none. */
  lemma BlankFindsNothing(s: System)
    requires RecordsOk(s)
    ensures TaskStore.IndexOf(s.records, "") == |s.records|
  {
    assert forall k :: 0 <= k < |s.records| ==> RecordOk(s, k) && s.records[k].taskId != "";
  }

  lemma AnsweredNames(r: Robot, id: string)
    requires r.outbox != [] && id != ""
    ensures id in Named(Answered(r).answered) <==> id in Named(r.answered) || id == r.outbox[0].taskId
  {
  }

  /** What handling one completion does to one record. */
  lemma RecordAfterReport(s: System, r: string, k: nat)
    requires r in s.robots && s.robots[r].outbox != [] && k < |s.records| && RecordOk(s, k)
    requires s.robots[r].outbox[0].taskId == s.records[k].taskId ==>
               s.records[k].robotId == r && TaskStore.IndexOf(s.records, s.records[k].taskId) == k
    ensures RecordOk(AfterReport(s, r), k)
  {
    AnsweredNames(s.robots[r], s.records[k].taskId);
    var c := s.robots[r].outbox[0];
    var rec, rec' := s.records[k], AfterReport(s, r).records[k];
    assert c in Answered(s.robots[r]).answered;
    assert c.taskId == rec.taskId ==> Tells(rec', c);
    assert forall d :: d in s.robots[r].answered ==> d in Answered(s.robots[r]).answered;
  }

  lemma RecordedAfterReport(s: System, r: string, q: string)
    requires RecordsOk(s) && r in s.robots && s.robots[r].outbox != [] && q in s.robots
    ensures var s' := AfterReport(s, r);
            RecordedFor(s'.records, q) == IdsOf(s'.robots[q].sent) && DistinctIds(s'.records)
  {
    var c := s.robots[r].outbox[0];
    var i := TaskStore.IndexOf(s.records, c.taskId);
    if i < |s.records| {
      UpdateKeepsRecorded(s.records, i, Reported(c), q);
    }
  }

  /** The oldest completion of robot `r` names nothing, or a record of that robot. */
  predicate NamesItsRecord(s: System, r: string)
    requires r in s.robots && s.robots[r].outbox != []
  {
    var id := s.robots[r].outbox[0].taskId;
    var i := TaskStore.IndexOf(s.records, id);
    if id == "" then i == |s.records| else i < |s.records| && s.records[i].robotId == r
  }

  lemma ReportRecordsOk(s: System, r: string)
    requires RecordsOk(s) && r in s.robots && s.robots[r].outbox != [] && NamesItsRecord(s, r)
    ensures RecordsOk(AfterReport(s, r))
  {
    RecordedAfterReport(s, r, r);
    forall q | q in s.robots ensures RecordedFor(AfterReport(s, r).records, q) == IdsOf(AfterReport(s, r).robots[q].sent) {
      RecordedAfterReport(s, r, q);
    }
    forall k | 0 <= k < |s.records| ensures RecordOk(AfterReport(s, r), k) {
      assert RecordOk(s, k);
      RecordAfterReport(s, r, k);
    }
  }

  lemma ReportOk(s: System, r: string)
    requires SystemOk(s) && r in s.robots && s.robots[r].outbox != []
    ensures SystemOk(AfterReport(s, r))
  {
    AnsweredOk(s.robots[r]);
    if s.robots[r].outbox[0].taskId == "" {
      BlankFindsNothing(s);
    } else {
      ReportFindsItsRecord(s, r);
    }
    ReportRecordsOk(s, r);
  }

  lemma NextOk(cfgs: Configs, sc: Allocator.Scoring, s: System, e: SystemEvent)
    requires SystemOk(s) && Enabled(cfgs, sc, s, e)
    ensures SystemOk(Next(cfgs, sc, s, e))
  {
    match e {
      case Dispatch(request, generated) =>
        var choice := FleetServer.ChoiceOf(sc, s.statuses, request.pick);
        if choice.Some? {
          DispatchOk(s, choice.value, FleetServer.Stamped(request, choice.value, generated));
        }
      case DeliverTask(r) =>
        ArrivedOk(cfgs[r], s.robots[r]);
        LocalStepOk(s, r, Arrived(cfgs[r], s.robots[r]));
      case RobotStep(r, event) =>
        SteppedOk(cfgs[r], s.robots[r], event);
        LocalStepOk(s, r, Stepped(cfgs[r], s.robots[r], event));
      case DeliverReport(r) =>
        ReportOk(s, r);
      case StatusSeen(status) =>
        var s' := Next(cfgs, sc, s, e);
        forall k | 0 <= k < |s'.records| ensures RecordOk(s', k) {
          assert RecordOk(s, k);
        }
    }
  }

  /** A fleet at rest: robots with any charge, nothing sent, no records. */
  ghost predicate Starts(s: System) {
    && s.records == [] && Known(s)
    && forall r :: r in s.robots ==> exists soc: real, now: real ::
         s.robots[r] == Robot(Initial(soc, now), [], [], [], [])
  }

  /** A run of enabled steps. */
  ghost predicate Leads(cfgs: Configs, sc: Allocator.Scoring, start: System, events: seq<SystemEvent>, end: System)
    requires Known(start)
    decreases |events|
  {
    if events == [] then end == start
    else Enabled(cfgs, sc, start, events[0]) && Leads(cfgs, sc, Next(cfgs, sc, start, events[0]), events[1..], end)
  }

  lemma StartsOk(s: System)
    requires Starts(s)
    ensures SystemOk(s)
  {
  }

  lemma {:induction false} AlwaysOk(cfgs: Configs, sc: Allocator.Scoring, start: System, events: seq<SystemEvent>, end: System)
    requires SystemOk(start) && Leads(cfgs, sc, start, events, end)
    ensures SystemOk(end)
    decreases |events|
  {
    if events != [] {
      NextOk(cfgs, sc, start, events[0]);
      AlwaysOk(cfgs, sc, Next(cfgs, sc, start, events[0]), events[1..], end);
    }
  }

  lemma {:induction false} RecordedOnce(rs: TaskStore.Records, k: nat, r: string)
    requires k < |rs| && DistinctIds(rs)
    ensures multiset(RecordedFor(rs, r))[rs[k].taskId] == if rs[k].robotId == r then 1 else 0
  {
    var n := |rs| - 1;
    var front := rs[..n];
    if k < n {
      RecordedOnce(front, k, r);
    } else {
      RecordedWhere(front, r, rs[k].taskId);
      assert rs[k].taskId !in RecordedFor(front, r);
    }
  }

  /** Fleet-wide conservation. Whatever the robots, the network, the batteries and the requests
      do, every task ever dispatched is in exactly one place: on its way to its robot, in that
      robot's queue, active there, overwritten there, in a completion on its way back, or in one
      the server has handled; it is nowhere at any other robot; its record names that robot; and
      the record is COMPLETED exactly when the last of these is so. */
  lemma EveryTaskInOnePlace(cfgs: Configs, sc: Allocator.Scoring, start: System, events: seq<SystemEvent>, end: System,
                            k: nat)
    requires Starts(start) && Leads(cfgs, sc, start, events, end) && k < |end.records|
    ensures var rec := end.records[k];
            && rec.robotId in end.robots
            && Places(end.robots[rec.robotId])[rec.taskId] == 1
            && (forall r :: r in end.robots && r != rec.robotId ==> Places(end.robots[r])[rec.taskId] == 0)
            && (rec.status.Completed? || rec.status.Assigned?)
            && (rec.status.Completed? <==> multiset(Named(end.robots[rec.robotId].answered))[rec.taskId] == 1)
            && (rec.status.Completed? ==> exists c :: c in end.robots[rec.robotId].answered && Tells(rec, c))
  {
    StartsOk(start);
    AlwaysOk(cfgs, sc, start, events, end);
    var rec := end.records[k];
    assert RecordOk(end, k);
    forall r | r in end.robots
      ensures Places(end.robots[r])[rec.taskId] == if r == rec.robotId then 1 else 0
    {
      PlacesAreSent(end.robots[r]);
      RecordedOnce(end.records, k, r);
    }
    assert multiset(Named(end.robots[rec.robotId].answered))[rec.taskId] <= Places(end.robots[rec.robotId])[rec.taskId];
  }

  lemma CompletedStays(cfgs: Configs, sc: Allocator.Scoring, s: System, e: SystemEvent, k: nat)
    requires Known(s) && Enabled(cfgs, sc, s, e) && k < |s.records|
    ensures var s' := Next(cfgs, sc, s, e);
            && k < |s'.records|
            && s'.records[k].taskId == s.records[k].taskId && s'.records[k].robotId == s.records[k].robotId
            && (s.records[k].status.Completed? ==> s'.records[k].status.Completed?)
  {
  }

  /** However a run goes on, records are only added; each keeps its task and its robot, and once
      COMPLETED it stays so. */
  lemma {:induction false} CompletedIsFinal(cfgs: Configs, sc: Allocator.Scoring, s: System,
                                            events: seq<SystemEvent>, end: System, k: nat)
    requires SystemOk(s) && Leads(cfgs, sc, s, events, end) && k < |s.records|
    ensures k < |end.records|
    ensures var rec, rec' := s.records[k], end.records[k];
            && rec'.taskId == rec.taskId && rec'.robotId == rec.robotId
            && (rec.status.Completed? ==> rec'.status.Completed?)
    decreases |events|
  {
    if events != [] {
      NextOk(cfgs, sc, s, events[0]);
      CompletedStays(cfgs, sc, s, events[0], k);
      CompletedIsFinal(cfgs, sc, Next(cfgs, sc, s, events[0]), events[1..], end, k);
    }
  }
}
