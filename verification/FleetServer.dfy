/** The fleet server: three ways in for a task (a call, a topic, a broker queue), one allocator,
    one assignment channel per robot, and the task store. */
module FleetServer {
  import opened Options
  import opened AgentModel
  import opened TaskStore
  import opened Allocator

  /** The robot the allocator chooses. */
  ghost function ChoiceOf(sc: Scoring, robots: Fleet, pick: Point): (choice: Option<string>)
    ensures Chooses(sc, robots, pick, choice)
  {
    ChoiceExists(sc, robots, pick);
    var c :| Chooses(sc, robots, pick, c);
    c
  }

  /** The assignment that goes out: routed, and given a generated id if it came without one. */
  function Stamped(request: Task, robot: string, generated: string): Task {
    Task(if request.id == "" then generated else request.id, robot, request.pick, request.drop)
  }

  /** What a request becomes, given the server's own robots and the statuses last seen: one
      assignment or none. */
  ghost function DispatchedFor(sc: Scoring, known: set<string>, robots: Fleet, request: Task, generated: string): seq<Task> {
    match ChoiceOf(sc, robots, request.pick)
    case None => []
    case Some(robot) => if robot in known then [Stamped(request, robot, generated)] else []
  }

  /** A status was seen of a robot that is not the server's own, and that robot is chosen: the
      lookup of its channel throws, before anything is published or recorded. */
  ghost predicate Throws(sc: Scoring, known: set<string>, robots: Fleet, request: Task) {
    match ChoiceOf(sc, robots, request.pick)
    case None => false
    case Some(robot) => robot !in known
  }

  function NewRecords(ts: seq<Task>): (rs: Records)
    ensures |rs| == |ts|
  {
    seq(|ts|, i requires 0 <= i < |ts| => NewRecord(ts[i]))
  }

  datatype SubmitResult = SubmitResult(accepted: bool, taskId: string, robotId: string) | Threw

  /** One turn of the broker loop: nothing came, the connection failed, or a message was
      delivered. A body that does not parse is absent. `robots` are the statuses last seen when
      the message is handled. */
  datatype Poll =
    | Timeout
    | ConsumeError
    | Delivery(tag: nat, body: Option<Task>, robots: Fleet, generated: string)

  datatype Settlement = Ack(tag: nat) | Reject(tag: nat, requeue: bool)

  ghost predicate PollThrows(sc: Scoring, known: set<string>, p: Poll) {
    p.Delivery? && p.body.Some? && Throws(sc, known, p.robots, p.body.value)
  }

  ghost predicate ThrowFree(sc: Scoring, known: set<string>, polls: seq<Poll>) {
    forall k :: 0 <= k < |polls| ==> !PollThrows(sc, known, polls[k])
  }

  ghost function PollDispatches(sc: Scoring, known: set<string>, p: Poll): seq<Task> {
    if p.Delivery? && p.body.Some? then DispatchedFor(sc, known, p.robots, p.body.value, p.generated) else []
  }

  ghost function PollSettles(sc: Scoring, known: set<string>, p: Poll): seq<Settlement> {
    if !p.Delivery? || PollThrows(sc, known, p) then []
    else if PollDispatches(sc, known, p) != [] then [Ack(p.tag)]
    else [Reject(p.tag, false)]
  }

  ghost function AllDispatched(sc: Scoring, known: set<string>, polls: seq<Poll>): seq<Task> {
    if polls == [] then []
    else AllDispatched(sc, known, polls[..|polls| - 1]) + PollDispatches(sc, known, polls[|polls| - 1])
  }

  ghost function AllSettled(sc: Scoring, known: set<string>, polls: seq<Poll>): seq<Settlement> {
    if polls == [] then []
    else AllSettled(sc, known, polls[..|polls| - 1]) + PollSettles(sc, known, polls[|polls| - 1])
  }

  /** One more turn that does not throw. */
  lemma OneMoreTurn(sc: Scoring, known: set<string>, polls: seq<Poll>, n: nat)
    requires n < |polls| && ThrowFree(sc, known, polls[..n]) && !PollThrows(sc, known, polls[n])
    ensures ThrowFree(sc, known, polls[..n + 1])
    ensures AllSettled(sc, known, polls[..n + 1]) == AllSettled(sc, known, polls[..n]) + PollSettles(sc, known, polls[n])
    ensures var sent, one := AllDispatched(sc, known, polls[..n]), PollDispatches(sc, known, polls[n]);
            && AllDispatched(sc, known, polls[..n + 1]) == sent + one
            && NewRecords(sent + one) == NewRecords(sent) + NewRecords(one)
  {
    assert polls[..n + 1][..n] == polls[..n];
  }

  class FleetServerNode {
    const robots: set<string>
    const scoring: Scoring
    const store: MongoStore
    var latestStatus: Fleet
    var assignments: seq<Task>
    var failures: seq<TaskCompletion>

    constructor (robots: set<string>, scoring: Scoring)
      ensures latestStatus == map[] && assignments == [] && failures == []
      ensures fresh(store) && store.tasks == [] && this.robots == robots && this.scoring == scoring
    {
      this.robots, this.scoring := robots, scoring;
      store := new MongoStore();
      latestStatus, assignments, failures := map[], [], [];
    }

    method RobotStatusCb(msg: RobotStatus)
      modifies `latestStatus
      ensures latestStatus == old(latestStatus)[msg.robotId := msg]
    {
      latestStatus := latestStatus[msg.robotId := msg];
    }

    method SelectRobot(statuses: Fleet, request: Task) returns (best: Option<(string, real)>)
      ensures ChoiceOf(scoring, statuses, request.pick) == if best.Some? then Some(best.value.0) else None
      ensures best.Some? ==> Wins(scoring, statuses, request.pick, best.value.0)
    {
      best := SelectBestRobot(statuses, request.pick, scoring);
      ChoiceIsUnique(scoring, statuses, request.pick, if best.Some? then Some(best.value.0) else None,
                     ChoiceOf(scoring, statuses, request.pick));
    }

    /** Without a channel for the robot the lookup throws and nothing is sent. */
    method DispatchAssignment(request: Task, robot: string, generated: string) returns (sent: Option<Task>)
      modifies `assignments, store
      ensures sent == if robot in robots then Some(Stamped(request, robot, generated)) else None
      ensures assignments == old(assignments) + if sent.Some? then [sent.value] else []
      ensures store.tasks == old(store.tasks) + if sent.Some? then [NewRecord(sent.value)] else []
    {
      var assignment := request.(robot := robot);
      if assignment.id == "" {
        assignment := assignment.(id := generated);
      }
      if robot !in robots {
        return None;
      }
      assignments := assignments + [assignment];
      store.InsertTask(assignment);
      return Some(assignment);
    }

    method SubmitTask(request: Task, generated: string) returns (result: SubmitResult)
      modifies `assignments, store
      ensures var sent := DispatchedFor(scoring, robots, latestStatus, request, generated);
              && assignments == old(assignments) + sent
              && store.tasks == old(store.tasks) + NewRecords(sent)
              && (result.Threw? <==> Throws(scoring, robots, latestStatus, request))
              && (!result.Threw? ==>
                    result == if sent == [] then SubmitResult(false, "", "") else SubmitResult(true, sent[0].id, sent[0].robot))
    {
      var best := SelectRobot(latestStatus, request);
      if best == None {
        return SubmitResult(false, "", "");
      }
      var sent := DispatchAssignment(request, best.value.0, generated);
      if sent == None {
        return Threw;
      }
      return SubmitResult(true, sent.value.id, sent.value.robot);
    }

    method TaskRequestCb(request: Task, generated: string) returns (threw: bool)
      modifies `assignments, store
      ensures var sent := DispatchedFor(scoring, robots, latestStatus, request, generated);
              assignments == old(assignments) + sent && store.tasks == old(store.tasks) + NewRecords(sent)
      ensures threw <==> Throws(scoring, robots, latestStatus, request)
    {
      var best := SelectRobot(latestStatus, request);
      if best == None {
        return false;
      }
      var sent := DispatchAssignment(request, best.value.0, generated);
      return sent == None;
    }

    /** Only a completion that is not a success goes on to the queue of failures. */
    method TaskCompletionCb(completion: TaskCompletion)
      modifies `failures, store
      ensures store.tasks == Updated(old(store.tasks), completion)
      ensures failures == old(failures) + if completion.result == RESULT_SUCCESS then [] else [completion]
    {
      store.UpdateTaskCompletion(completion);
      if completion.result != RESULT_SUCCESS {
        failures := failures + [completion];
      }
    }

    method HandlePoll(p: Poll) returns (settled: seq<Settlement>, threw: bool)
      modifies `assignments, store
      ensures settled == PollSettles(scoring, robots, p) && (threw <==> PollThrows(scoring, robots, p))
      ensures assignments == old(assignments) + PollDispatches(scoring, robots, p)
      ensures store.tasks == old(store.tasks) + NewRecords(PollDispatches(scoring, robots, p))
    {
      if !p.Delivery? {
        return [], false;
      }
      if p.body == None {
        return [Reject(p.tag, false)], false;
      }
      var best := SelectRobot(p.robots, p.body.value);
      if best == None {
        return [Reject(p.tag, false)], false;
      }
      var sent := DispatchAssignment(p.body.value, best.value.0, p.generated);
      if sent == None {
        return [], true;
      }
      return [Ack(p.tag)], false;
    }

    /** The broker loop. The statuses change under it, so each message is decided by those of its
        moment. A lookup that throws ends the loop. */
    method ConsumeLoop(polls: seq<Poll>) returns (settled: seq<Settlement>, handled: nat)
      modifies `assignments, store
      ensures handled <= |polls| && ThrowFree(scoring, robots, polls[..handled])
      ensures handled < |polls| ==> PollThrows(scoring, robots, polls[handled])
      ensures settled == AllSettled(scoring, robots, polls[..handled])
      ensures assignments == old(assignments) + AllDispatched(scoring, robots, polls[..handled])
      ensures store.tasks == old(store.tasks) + NewRecords(AllDispatched(scoring, robots, polls[..handled]))
    {
      settled, handled := [], 0;
      while handled < |polls|
        invariant handled <= |polls| && ThrowFree(scoring, robots, polls[..handled])
        invariant settled == AllSettled(scoring, robots, polls[..handled])
        invariant assignments == old(assignments) + AllDispatched(scoring, robots, polls[..handled])
        invariant store.tasks == old(store.tasks) + NewRecords(AllDispatched(scoring, robots, polls[..handled]))
      {
        var one, threw := HandlePoll(polls[handled]);
        if threw {
          return;
        }
        OneMoreTurn(scoring, robots, polls, handled);
        settled := settled + one;
        handled := handled + 1;
      }
    }
  }

  // ---------------------------------------------------------------------------
  // Settlement
  // ---------------------------------------------------------------------------

  /** The tags delivered, in order. */
  function TagsOf(polls: seq<Poll>): seq<nat> {
    if polls == [] then []
    else TagsOf(polls[..|polls| - 1]) + if polls[|polls| - 1].Delivery? then [polls[|polls| - 1].tag] else []
  }

  function SettledTags(ss: seq<Settlement>): (tags: seq<nat>)
    ensures |tags| == |ss|
  {
    seq(|ss|, i requires 0 <= i < |ss| => ss[i].tag)
  }

  lemma {:induction false} NeverMoreSettled(sc: Scoring, known: set<string>, polls: seq<Poll>)
    ensures |AllSettled(sc, known, polls)| <= |TagsOf(polls)|
  {
    if polls != [] {
      NeverMoreSettled(sc, known, polls[..|polls| - 1]);
    }
  }

  /** Whatever the loop lived through: it settled every delivered message once and in order if and
      only if no lookup threw, and it never put a message back. */
  lemma {:induction false} EveryDeliverySettledOnce(sc: Scoring, known: set<string>, polls: seq<Poll>)
    ensures SettledTags(AllSettled(sc, known, polls)) == TagsOf(polls) <==> ThrowFree(sc, known, polls)
    ensures !ThrowFree(sc, known, polls) ==> |AllSettled(sc, known, polls)| < |TagsOf(polls)|
    ensures forall s :: s in AllSettled(sc, known, polls) ==> s.Ack? || !s.requeue
  {
    if polls != [] {
      var front, p := polls[..|polls| - 1], polls[|polls| - 1];
      EveryDeliverySettledOnce(sc, known, front);
      NeverMoreSettled(sc, known, front);
      assert ThrowFree(sc, known, polls) <==> ThrowFree(sc, known, front) && !PollThrows(sc, known, p);
      var ss := AllSettled(sc, known, front);
      if PollSettles(sc, known, p) != [] {
        var s := PollSettles(sc, known, p)[0];
        assert SettledTags(ss + [s]) == SettledTags(ss) + [s.tag];
      }
    }
  }

  /** The place of delivery `k` among the settlements. */
  function PlaceOf(polls: seq<Poll>, k: nat): nat
    requires k < |polls|
  {
    |TagsOf(polls[..k])|
  }

  /** Each delivery of a run has its own settlement, the one in its place: acknowledged if and only
      if it was dispatched, and then its assignment is in its own place too. */
  lemma {:induction false} OwnSettlement(sc: Scoring, known: set<string>, polls: seq<Poll>, k: nat)
    requires k < |polls| && polls[k].Delivery? && ThrowFree(sc, known, polls)
    ensures var ss, sent := AllSettled(sc, known, polls), AllDispatched(sc, known, polls);
            var mine, place := PollDispatches(sc, known, polls[k]), |AllDispatched(sc, known, polls[..k])|;
            && PlaceOf(polls, k) < |ss|
            && ss[PlaceOf(polls, k)] == (if mine != [] then Ack(polls[k].tag) else Reject(polls[k].tag, false))
            && place + |mine| <= |sent| && sent[place..place + |mine|] == mine
  {
    var front := polls[..|polls| - 1];
    EveryDeliverySettledOnce(sc, known, front);
    if k < |front| {
      assert front[..k] == polls[..k];
      OwnSettlement(sc, known, front, k);
    } else {
      assert polls[..k] == front;
    }
  }

  /** A message is acknowledged exactly when it parsed and a robot of the server's own was chosen for
      it from the statuses of its moment; that robot was idle in them, and the one assignment sent is
      the message's own. */
  lemma AckedIffDispatched(sc: Scoring, known: set<string>, p: Poll)
    requires p.Delivery?
    ensures PollSettles(sc, known, p) == [Ack(p.tag)] <==>
            p.body.Some? && exists id :: id != "" && id in known && Wins(sc, p.robots, p.body.value.pick, id)
    ensures forall t :: t in PollDispatches(sc, known, p) ==>
              && p.body.Some? && PollDispatches(sc, known, p) == [t]
              && t.robot in p.robots && p.robots[t.robot].state.Idle?
              && t.pick == p.body.value.pick && t.drop == p.body.value.drop
  {
    if p.body.Some? {
      var pick := p.body.value.pick;
      var c := ChoiceOf(sc, p.robots, pick);
      if id :| id != "" && id in known && Wins(sc, p.robots, pick, id) {
        ChoiceIsUnique(sc, p.robots, pick, c, Some(id));
      }
    }
  }
}
