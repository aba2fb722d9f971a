/** The `tasks` collection: documents in the order they were inserted, found and updated by task
    id, the first match only. */
module TaskStore {
  import opened Options
  import opened AgentModel

  datatype TaskStatus = Assigned | Completed | Failed | Cancelled | Unknown

  datatype TaskRecord = TaskRecord(taskId: string, robotId: string, status: TaskStatus, result: nat, duration: real)

  /** A completion as the fleet server receives it, with its result code. */
  datatype TaskCompletion = TaskCompletion(taskId: string, robotId: string, result: nat, duration: real)

  const RESULT_SUCCESS := 0
  const RESULT_FAILED := 1
  const RESULT_CANCELLED := 2

  function ResultStatus(result: nat): TaskStatus {
    if result == RESULT_SUCCESS then Completed
    else if result == RESULT_FAILED then TaskStatus.Failed
    else if result == RESULT_CANCELLED then Cancelled
    else TaskStatus.Unknown
  }

  type Records = seq<TaskRecord>

  function NewRecord(t: Task): TaskRecord {
    TaskRecord(t.id, t.robot, Assigned, 0, 0.0)
  }

  function Written(r: TaskRecord, c: TaskCompletion): TaskRecord {
    r.(status := ResultStatus(c.result), result := c.result, duration := c.duration)
  }

  /** The first document with the given task id, or the number of documents. */
  function IndexOf(rs: Records, id: string): (i: nat)
    ensures i <= |rs|
    ensures i < |rs| ==> rs[i].taskId == id
    ensures forall j :: 0 <= j < i ==> rs[j].taskId != id
  {
    if rs == [] || rs[0].taskId == id then 0 else 1 + IndexOf(rs[1..], id)
  }

  function Updated(rs: Records, c: TaskCompletion): (rs': Records)
    ensures |rs'| == |rs|
  {
    var i := IndexOf(rs, c.taskId);
    if i < |rs| then rs[i := Written(rs[i], c)] else rs
  }

  class MongoStore {
    var tasks: Records

    constructor ()
      ensures tasks == []
    {
      tasks := [];
    }

    method InsertTask(task: Task)
      modifies this
      ensures tasks == old(tasks) + [NewRecord(task)]
    {
      tasks := tasks + [TaskRecord(task.id, task.robot, Assigned, 0, 0.0)];
    }

    method UpdateTaskCompletion(completion: TaskCompletion)
      modifies this
      ensures tasks == Updated(old(tasks), completion)
    {
      var i := First(completion.taskId);
      if i < |tasks| {
        tasks := tasks[i := Written(tasks[i], completion)];
      }
    }

    method FindTask(taskId: string) returns (found: Option<TaskRecord>)
      ensures found.Some? <==> exists r :: r in tasks && r.taskId == taskId
      ensures found.Some? ==> found.value in tasks && found.value == tasks[IndexOf(tasks, taskId)]
    {
      var i := First(taskId);
      if i < |tasks| {
        return Some(tasks[i]);
      }
      return None;
    }

    /** The collection scan behind both. */
    method First(taskId: string) returns (i: nat)
      ensures i == IndexOf(tasks, taskId)
    {
      i := 0;
      while i < |tasks|
        invariant i <= |tasks|
        invariant forall j :: 0 <= j < i ==> tasks[j].taskId != taskId
      {
        if tasks[i].taskId == taskId {
          return;
        }
        i := i + 1;
      }
    }
  }

  // ---------------------------------------------------------------------------
  // Any number of completions
  // ---------------------------------------------------------------------------

  function AllUpdated(rs: Records, cs: seq<TaskCompletion>): (rs': Records)
    ensures |rs'| == |rs|
  {
    if cs == [] then rs else Updated(AllUpdated(rs, cs[..|cs| - 1]), cs[|cs| - 1])
  }

  /** The last of the completions that names the task. */
  function LastFor(cs: seq<TaskCompletion>, id: string): Option<TaskCompletion> {
    if cs == [] then None
    else if cs[|cs| - 1].taskId == id then Some(cs[|cs| - 1])
    else LastFor(cs[..|cs| - 1], id)
  }

  /** An earlier document has the same task id. */
  predicate Shadowed(rs: Records, k: nat)
    requires k < |rs|
  {
    exists j :: 0 <= j < k && rs[j].taskId == rs[k].taskId
  }

  /** What any completions make of the store: nobody's ids change, a document that shadows
      another keeps it from ever being written, and every other document carries result, status and
      duration of the last completion that named it, if any did. */
  lemma {:induction false} CompletionsReachTheFirst(rs: Records, cs: seq<TaskCompletion>, k: nat)
    requires k < |rs|
    ensures var r, r' := rs[k], AllUpdated(rs, cs)[k];
            && r'.taskId == r.taskId && r'.robotId == r.robotId
            && (Shadowed(rs, k) || LastFor(cs, r.taskId).None? ==> r' == r)
            && (!Shadowed(rs, k) && LastFor(cs, r.taskId).Some? ==>
                  var c := LastFor(cs, r.taskId).value;
                  && r'.result == c.result && r'.duration == c.duration
                  && r'.status == (if c.result == 0 then Completed
                                   else if c.result == 1 then TaskStatus.Failed
                                   else if c.result == 2 then Cancelled
                                   else TaskStatus.Unknown))
    ensures Shadowed(AllUpdated(rs, cs), k) <==> Shadowed(rs, k)
  {
    if cs != [] {
      var front, c := cs[..|cs| - 1], cs[|cs| - 1];
      var mid := AllUpdated(rs, front);
      forall j | 0 <= j <= k
        ensures mid[j].taskId == rs[j].taskId && mid[j].robotId == rs[j].robotId
      {
        CompletionsReachTheFirst(rs, front, j);
      }
      CompletionsReachTheFirst(rs, front, k);
      var i := IndexOf(mid, c.taskId);
      assert i == k ==> !Shadowed(mid, k);
      assert i < k ==> mid[i].taskId == c.taskId;
      var last := AllUpdated(rs, cs);
      assert forall j :: 0 <= j <= k ==> last[j].taskId == mid[j].taskId;
    }
  }
}
