/** The task slots as an abstract machine: a queue, at most one active task that may be set
    aside, and the fate of every task that left. */
module Slots {
  import opened Options
  import opened AgentModel

  /** `received` is every task that ever arrived, in order. */
  datatype Slots = Slots(
    queue: seq<Task>,
    active: Option<Task>,
    parked: bool,
    finished: seq<Finished>,
    received: seq<Task>)

  const EMPTY := Slots([], None, false, [], [])

  datatype SlotEvent = Arrive(task: Task) | Start | Resume | Park | Report | Stutter

  predicate Can(s: Slots, e: SlotEvent) {
    match e
    case Arrive(_) => true
    case Start => !s.parked && s.queue != []
    case Resume => s.parked
    case Park => s.active.Some? && !s.parked
    case Report => s.active.Some? && !s.parked
    case Stutter => true
  }

  /** Starting a task while another is active writes over the other. */
  function Do(s: Slots, e: SlotEvent): Slots
    requires Can(s, e)
  {
    match e
    case Arrive(t) => s.(queue := s.queue + [t], received := s.received + [t])
    case Start =>
      s.(queue := s.queue[1..], active := Some(s.queue[0]),
         finished := if s.active.Some? then s.finished + [Overwritten(s.active.value)] else s.finished)
    case Resume => s.(parked := false)
    case Park => s.(parked := true)
    case Report => s.(active := None, finished := s.finished + [Reported(s.active.value)])
    case Stutter => s
  }

  function TasksOf(f: seq<Finished>): (ts: seq<Task>)
    ensures |ts| == |f|
  {
    seq(|f|, i requires 0 <= i < |f| => f[i].task)
  }

  function ActiveOf(s: Slots): seq<Task> {
    if s.active.Some? then [s.active.value] else []
  }

  /** The tasks that were ever started, in the order they were. */
  function StartedOf(s: Slots): seq<Task> {
    TasksOf(s.finished) + ActiveOf(s)
  }

  /** Every task that arrived is in exactly one place, in order of arrival: first the finished
      ones in the order they finished, then the active one, then the queue. */
  predicate Ordered(s: Slots) {
    && s.received == StartedOf(s) + s.queue
    && (s.parked ==> s.active.Some?)
  }

  lemma DoKeepsOrdered(s: Slots, e: SlotEvent)
    requires Can(s, e) && Ordered(s)
    ensures Ordered(Do(s, e))
  {
  }

  /** The slots after a run of steps from the empty ones, if every step was enabled. */
  function SlotsAfter(trace: seq<SlotEvent>): Option<Slots> {
    if trace == [] then Some(EMPTY)
    else
      match SlotsAfter(trace[..|trace| - 1])
      case None => None
      case Some(s) => if Can(s, trace[|trace| - 1]) then Some(Do(s, trace[|trace| - 1])) else None
  }

  lemma {:induction false} AlwaysOrdered(trace: seq<SlotEvent>)
    requires SlotsAfter(trace).Some?
    ensures Ordered(SlotsAfter(trace).value)
  {
    if trace != [] {
      AlwaysOrdered(trace[..|trace| - 1]);
      DoKeepsOrdered(SlotsAfter(trace[..|trace| - 1]).value, trace[|trace| - 1]);
    }
  }

  /** Tasks as they leave: reported ones and overwritten ones. */
  function ReportedOf(f: seq<Finished>): seq<Task> {
    if f == [] then []
    else ReportedOf(f[..|f| - 1]) + if f[|f| - 1].Reported? then [f[|f| - 1].task] else []
  }

  function OverwrittenOf(f: seq<Finished>): seq<Task> {
    if f == [] then []
    else OverwrittenOf(f[..|f| - 1]) + if f[|f| - 1].Overwritten? then [f[|f| - 1].task] else []
  }

  lemma {:induction false} FinishedSplits(f: seq<Finished>)
    ensures multiset(TasksOf(f)) == multiset(ReportedOf(f)) + multiset(OverwrittenOf(f))
  {
    if f != [] {
      FinishedSplits(f[..|f| - 1]);
      assert TasksOf(f) == TasksOf(f[..|f| - 1]) + [f[|f| - 1].task];
    }
  }

  /** Conservation: counted with repetitions, what arrived is what was reported, what was
      overwritten, what is active and what waits. */
  lemma Conservation(s: Slots)
    requires Ordered(s)
    ensures multiset(s.received)
         == multiset(ReportedOf(s.finished)) + multiset(OverwrittenOf(s.finished))
            + multiset(ActiveOf(s)) + multiset(s.queue)
  {
    FinishedSplits(s.finished);
  }

  // ---------------------------------------------------------------------------
  // The order in which tasks start
  // ---------------------------------------------------------------------------

  /** What is at the head of the queue at every start, in order. */
  function Heads(trace: seq<SlotEvent>): seq<Task> {
    if trace == [] then []
    else
      Heads(trace[..|trace| - 1])
      + match SlotsAfter(trace[..|trace| - 1])
        case None => []
        case Some(s) => if trace[|trace| - 1].Start? && s.queue != [] then [s.queue[0]] else []
  }

  /** First come, first served: the tasks started so far and then the queue are the tasks received,
      in order of arrival. */
  lemma {:induction false} FirstComeFirstServed(trace: seq<SlotEvent>)
    requires SlotsAfter(trace).Some?
    ensures var s := SlotsAfter(trace).value;
            Heads(trace) == StartedOf(s) && Heads(trace) + s.queue == s.received
  {
    AlwaysOrdered(trace);
    if trace != [] {
      var front := trace[..|trace| - 1];
      FirstComeFirstServed(front);
      var s, s' := SlotsAfter(front).value, SlotsAfter(trace).value;
      if trace[|trace| - 1].Start? {
        assert StartedOf(s') == StartedOf(s) + [s.queue[0]];
      } else {
        assert StartedOf(s') == StartedOf(s);
      }
    }
  }

  lemma {:induction false} SlotsBefore(trace: seq<SlotEvent>, n: nat)
    requires SlotsAfter(trace).Some? && n <= |trace|
    ensures SlotsAfter(trace[..n]).Some?
  {
    if n < |trace| {
      assert trace[..n] == trace[..|trace| - 1][..n];
      SlotsBefore(trace[..|trace| - 1], n);
    } else {
      assert trace[..n] == trace;
    }
  }

  lemma SlotsNext(trace: seq<SlotEvent>, n: nat)
    requires SlotsAfter(trace).Some? && n < |trace|
    ensures SlotsAfter(trace[..n]).Some? && Can(SlotsAfter(trace[..n]).value, trace[n])
    ensures SlotsAfter(trace[..n + 1]) == Some(Do(SlotsAfter(trace[..n]).value, trace[n]))
  {
    SlotsBefore(trace, n + 1);
    assert trace[..n + 1][..n] == trace[..n];
  }

  /** A parked task stays where it is until it is resumed. */
  lemma {:induction false} ParkedWaits(trace: seq<SlotEvent>, i: nat, j: nat)
    requires SlotsAfter(trace).Some? && i < j <= |trace| && trace[i].Park?
    requires forall m :: i < m < j ==> !trace[m].Resume?
    ensures SlotsAfter(trace[..i]).Some? && SlotsAfter(trace[..j]).Some?
    ensures var s, s' := SlotsAfter(trace[..i]).value, SlotsAfter(trace[..j]).value;
            !s.parked && s.active.Some? && s'.parked && s'.active == s.active
    decreases j
  {
    SlotsNext(trace, i);
    SlotsNext(trace, j - 1);
    if j > i + 1 {
      ParkedWaits(trace, i, j - 1);
    }
  }

  /** An interrupted task goes first: nothing starts between a park and its resume, and what is
      resumed is the task that was parked. */
  lemma InterruptedGoesFirst(trace: seq<SlotEvent>, i: nat, j: nat)
    requires SlotsAfter(trace).Some? && i < j < |trace| && trace[i].Park?
    requires forall m :: i < m < j ==> !trace[m].Resume?
    ensures !trace[j].Start?
    ensures SlotsAfter(trace[..i]).Some? && SlotsAfter(trace[..j + 1]).Some?
    ensures var s, s' := SlotsAfter(trace[..i]).value, SlotsAfter(trace[..j + 1]).value;
            !s.parked && s.active.Some? && (trace[j].Resume? ==> !s'.parked && s'.active == s.active)
  {
    ParkedWaits(trace, i, j);
    SlotsNext(trace, j);
  }
}
