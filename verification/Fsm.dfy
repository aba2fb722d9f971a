/** The robot's lifecycle state machine (`RobotFSM`) and what it promises about every
    word of events, whoever sends them and in whatever order. */
module Fsm {

  datatype RobotState =
    | Idle
    | Assigned
    | Navigating
    | Executing
    | Reporting
    | Recovering
    | Charging

  datatype FsmEvent =
    | TaskReceived
    | NavStarted
    | NavSucceeded
    | NavFailed
    | ExecutionDone
    | ReportSent
    | RecoveryDone
    | RecoveryFailed
    | LowBattery
    | BatteryFull
    | FaultInjected

  /** The transition table: the pairs that leave the state where it was and are not listed
      are ignored. */
  function Next(s: RobotState, e: FsmEvent): RobotState {
    match (s, e)
    case (Idle, TaskReceived) => Assigned
    case (Idle, LowBattery) => Charging
    case (Assigned, NavStarted) => Navigating
    case (Assigned, LowBattery) => Charging
    case (Navigating, NavSucceeded) => Executing
    case (Navigating, NavFailed) => Recovering
    case (Navigating, FaultInjected) => Recovering
    case (Navigating, LowBattery) => Charging
    case (Executing, ExecutionDone) => Navigating
    case (Executing, ReportSent) => Idle
    case (Executing, LowBattery) => Charging
    case (Reporting, ReportSent) => Idle
    case (Recovering, RecoveryDone) => Assigned
    case (Recovering, RecoveryFailed) => Idle
    case (Recovering, LowBattery) => Charging
    case (Charging, BatteryFull) => Idle
    case _ => s
  }

  /** The event takes a branch of the table. The second navigation segment is accepted
      without changing the state; every other accepted event changes it. */
  predicate Accepts(s: RobotState, e: FsmEvent) {
    Next(s, e) != s || (s.Navigating? && e.NavStarted?)
  }

  /** The table by events: where an event is accepted, and the one state it leads to. */
  function Sources(e: FsmEvent): set<RobotState> {
    match e
    case TaskReceived => {Idle}
    case NavStarted => {Assigned, Navigating}
    case NavSucceeded => {Navigating}
    case NavFailed => {Navigating}
    case ExecutionDone => {Executing}
    case ReportSent => {Executing, Reporting}
    case RecoveryDone => {Recovering}
    case RecoveryFailed => {Recovering}
    case LowBattery => {Idle, Assigned, Navigating, Executing, Recovering}
    case BatteryFull => {Charging}
    case FaultInjected => {Navigating}
  }

  function Target(e: FsmEvent): RobotState {
    match e
    case TaskReceived => Assigned
    case NavStarted => Navigating
    case NavSucceeded => Executing
    case NavFailed => Recovering
    case ExecutionDone => Navigating
    case ReportSent => Idle
    case RecoveryDone => Assigned
    case RecoveryFailed => Idle
    case LowBattery => Charging
    case BatteryFull => Idle
    case FaultInjected => Recovering
  }

  /** The state an event leads to depends on the event alone, the state it comes in only on whether it
      is accepted. */
  lemma TableByEvents(s: RobotState, e: FsmEvent)
    ensures Accepts(s, e) <==> s in Sources(e)
    ensures Next(s, e) == if s in Sources(e) then Target(e) else s
  {
  }

  class RobotFSM {
    var state: RobotState

    constructor ()
      ensures state == Idle
    {
      state := Idle;
    }

    /** Reports whether the state changed. For the second navigation segment that is
        `false` although the event is accepted. */
    method Process(event: FsmEvent) returns (changed: bool)
      modifies this
      ensures state == Next(old(state), event)
      ensures state == if old(state) in Sources(event) then Target(event) else old(state)
      ensures changed <==> Accepts(old(state), event) && !(old(state).Navigating? && event.NavStarted?)
    {
      var prev := state;
      match state {
        case Idle =>
          if event == TaskReceived { state := Assigned; }
          else if event == LowBattery { state := Charging; }
          else { return false; }
        case Assigned =>
          if event == NavStarted { state := Navigating; }
          else if event == LowBattery { state := Charging; }
          else { return false; }
        case Navigating =>
          if event == NavStarted { }
          else if event == NavSucceeded { state := Executing; }
          else if event == NavFailed { state := Recovering; }
          else if event == FaultInjected { state := Recovering; }
          else if event == LowBattery { state := Charging; }
          else { return false; }
        case Executing =>
          if event == ExecutionDone { state := Navigating; }
          else if event == ReportSent { state := Idle; }
          else if event == LowBattery { state := Charging; }
          else { return false; }
        case Reporting =>
          if event == ReportSent { state := Idle; }
          else { return false; }
        case Recovering =>
          if event == RecoveryDone { state := Assigned; }
          else if event == RecoveryFailed { state := Idle; }
          else if event == LowBattery { state := Charging; }
          else { return false; }
        case Charging =>
          if event == BatteryFull { state := Idle; }
          else { return false; }
      }
      changed := state != prev;
    }
  }

  // ---------------------------------------------------------------------------
  // Words of events
  // ---------------------------------------------------------------------------

  type Word = seq<FsmEvent>

  /** The state a fresh machine reaches on a word. */
  function After(w: Word): RobotState {
    if w == [] then Idle else Next(After(w[..|w| - 1]), w[|w| - 1])
  }

  /** How many events `e` of the word were accepted when they came. */
  function Taken(w: Word, e: FsmEvent): nat {
    if w == [] then 0
    else
      Taken(w[..|w| - 1], e)
      + if w[|w| - 1] == e && Accepts(After(w[..|w| - 1]), e) then 1 else 0
  }

  /** How many low-battery events were accepted while the machine was not idle. */
  function TakenLowBusy(w: Word): nat {
    if w == [] then 0
    else
      TakenLowBusy(w[..|w| - 1])
      + if w[|w| - 1] == LowBattery && Accepts(After(w[..|w| - 1]), LowBattery) && !After(w[..|w| - 1]).Idle?
        then 1 else 0
  }

  /** The word without the events that were ignored. */
  function Accepted(w: Word): Word {
    if w == [] then []
    else
      Accepted(w[..|w| - 1])
      + if Accepts(After(w[..|w| - 1]), w[|w| - 1]) then [w[|w| - 1]] else []
  }

  /** The states in which the machine owes a report, a failure or a charge for a task. */
  predicate Busy(s: RobotState) {
    s.Assigned? || s.Navigating? || s.Executing? || s.Recovering?
  }

  /** Every accepted task is accounted for: it was reported, given up, cut short by the
      battery, or it is the one being worked on. */
  lemma {:induction false} TasksAccountedFor(w: Word)
    ensures Taken(w, TaskReceived)
         == Taken(w, ReportSent) + Taken(w, RecoveryFailed) + TakenLowBusy(w)
            + if Busy(After(w)) then 1 else 0
    ensures !After(w).Reporting?
  {
    if w != [] {
      TasksAccountedFor(w[..|w| - 1]);
    }
  }

  /** Charging works the same way: each accepted low-battery event is answered by one
      accepted full-battery event, except the one being served. */
  lemma {:induction false} ChargesAccountedFor(w: Word)
    ensures Taken(w, LowBattery) == Taken(w, BatteryFull) + if After(w).Charging? then 1 else 0
  {
    if w != [] {
      ChargesAccountedFor(w[..|w| - 1]);
    }
  }

  /** How many events `e` were accepted in state `s`. */
  function TakenIn(w: Word, s: RobotState, e: FsmEvent): nat {
    if w == [] then 0
    else
      TakenIn(w[..|w| - 1], s, e)
      + if w[|w| - 1] == e && After(w[..|w| - 1]) == s && Accepts(s, e) then 1 else 0
  }

  /** One if the word ends in the state. */
  function Here(w: Word, s: RobotState): nat { if After(w) == s then 1 else 0 }

  lemma {:induction false} AssignedBalances(w: Word)
    ensures Taken(w, TaskReceived) + Taken(w, RecoveryDone)
         == TakenIn(w, Assigned, NavStarted) + TakenIn(w, Assigned, LowBattery) + Here(w, Assigned)
  {
    if w != [] {
      AssignedBalances(w[..|w| - 1]);
      TasksAccountedFor(w[..|w| - 1]);
    }
  }

  lemma {:induction false} NavigatingBalances(w: Word)
    ensures TakenIn(w, Assigned, NavStarted) + Taken(w, ExecutionDone)
         == Taken(w, NavSucceeded) + Taken(w, NavFailed) + Taken(w, FaultInjected) + TakenIn(w, Navigating, LowBattery)
            + Here(w, Navigating)
  {
    if w != [] {
      NavigatingBalances(w[..|w| - 1]);
      TasksAccountedFor(w[..|w| - 1]);
    }
  }

  lemma {:induction false} ExecutingBalances(w: Word)
    ensures Taken(w, NavSucceeded)
         == Taken(w, ExecutionDone) + Taken(w, ReportSent) + TakenIn(w, Executing, LowBattery) + Here(w, Executing)
  {
    if w != [] {
      ExecutingBalances(w[..|w| - 1]);
      TasksAccountedFor(w[..|w| - 1]);
    }
  }

  lemma {:induction false} RecoveringBalances(w: Word)
    ensures Taken(w, NavFailed) + Taken(w, FaultInjected)
         == Taken(w, RecoveryDone) + Taken(w, RecoveryFailed) + TakenIn(w, Recovering, LowBattery) + Here(w, Recovering)
  {
    if w != [] {
      RecoveringBalances(w[..|w| - 1]);
      TasksAccountedFor(w[..|w| - 1]);
    }
  }

  lemma {:induction false} IdleBalances(w: Word)
    ensures 1 + Taken(w, ReportSent) + Taken(w, RecoveryFailed) + Taken(w, BatteryFull)
         == Taken(w, TaskReceived) + TakenIn(w, Idle, LowBattery) + Here(w, Idle)
  {
    if w != [] {
      IdleBalances(w[..|w| - 1]);
      TasksAccountedFor(w[..|w| - 1]);
    }
  }

  /** State by state, what was entered was left or is where the machine is. RECOVERY_DONE enters
      ASSIGNED; NAVIGATING is entered by NAV_STARTED out of ASSIGNED and by EXECUTION_DONE; EXECUTING only
      by NAV_SUCCEEDED; RECOVERING by NAV_FAILED and FAULT_INJECTED; and each is left only as listed. */
  lemma StatesBalance(w: Word)
    ensures Taken(w, TaskReceived) + Taken(w, RecoveryDone)
         == TakenIn(w, Assigned, NavStarted) + TakenIn(w, Assigned, LowBattery) + Here(w, Assigned)
    ensures TakenIn(w, Assigned, NavStarted) + Taken(w, ExecutionDone)
         == Taken(w, NavSucceeded) + Taken(w, NavFailed) + Taken(w, FaultInjected) + TakenIn(w, Navigating, LowBattery)
            + Here(w, Navigating)
    ensures Taken(w, NavSucceeded)
         == Taken(w, ExecutionDone) + Taken(w, ReportSent) + TakenIn(w, Executing, LowBattery) + Here(w, Executing)
    ensures Taken(w, NavFailed) + Taken(w, FaultInjected)
         == Taken(w, RecoveryDone) + Taken(w, RecoveryFailed) + TakenIn(w, Recovering, LowBattery) + Here(w, Recovering)
    ensures 1 + Taken(w, ReportSent) + Taken(w, RecoveryFailed) + Taken(w, BatteryFull)
         == Taken(w, TaskReceived) + TakenIn(w, Idle, LowBattery) + Here(w, Idle)
  {
    AssignedBalances(w);
    NavigatingBalances(w);
    ExecutingBalances(w);
    RecoveringBalances(w);
    IdleBalances(w);
  }

  lemma OneMoreEvent(v: Word, last: FsmEvent, e: FsmEvent)
    ensures After(v + [last]) == Next(After(v), last)
    ensures Taken(v + [last], e) == Taken(v, e) + if last == e && Accepts(After(v), e) then 1 else 0
    ensures Accepted(v + [last]) == Accepted(v) + if Accepts(After(v), last) then [last] else []
  {
  }

  /** Ignored events leave no mark: dropping all of them gives a word whose every event is
      accepted, that reaches the same state with the same accepted events. */
  lemma {:induction false} IgnoredEventsDropOut(w: Word, e: FsmEvent)
    ensures After(Accepted(w)) == After(w)
    ensures Taken(Accepted(w), e) == Taken(w, e)
    ensures Accepted(Accepted(w)) == Accepted(w)
  {
    if w != [] {
      var v, last := w[..|w| - 1], w[|w| - 1];
      IgnoredEventsDropOut(v, e);
      assert w == v + [last];
      OneMoreEvent(v, last, e);
      if Accepts(After(v), last) {
        OneMoreEvent(Accepted(v), last, e);
      } else {
        assert Accepted(w) == Accepted(v);
      }
    }
  }

  /** Event `e` was accepted at position `k`. */
  predicate AcceptedAt(w: Word, k: nat, e: FsmEvent) {
    k < |w| && w[k] == e && Accepts(After(w[..k]), e)
  }

  /** How NAVIGATING and ASSIGNED are entered, at any place of any word. */
  lemma EnteredBy(w: Word, k: nat)
    requires k < |w|
    ensures After(w[..k + 1]).Navigating? && !After(w[..k]).Navigating? ==>
              (w[k].NavStarted? && After(w[..k]).Assigned?) || (w[k].ExecutionDone? && After(w[..k]).Executing?)
    ensures AcceptedAt(w, k, RecoveryDone) ==> After(w[..k]).Recovering? && After(w[..k + 1]).Assigned?
  {
    assert w[..k + 1][..k] == w[..k];
    TableByEvents(After(w[..k]), w[k]);
  }

  /** A task was accepted at `i` and the machine has not been idle since. */
  ghost predicate WorkingSince(w: Word, i: nat) {
    AcceptedAt(w, i, TaskReceived) && forall m :: i < m <= |w| ==> !After(w[..m]).Idle?
  }

  lemma WorkingSinceExtends(w: Word, i: nat)
    requires w != [] && WorkingSince(w[..|w| - 1], i) && !After(w).Idle?
    ensures WorkingSince(w, i)
  {
    var v := w[..|w| - 1];
    assert w[..i] == v[..i];
    forall m | i < m <= |w| ensures !After(w[..m]).Idle? {
      if m == |w| {
        assert w[..m] == w;
      } else {
        assert w[..m] == v[..m];
      }
    }
  }

  lemma AcceptedAtExtends(w: Word, k: nat, e: FsmEvent)
    requires w != [] && AcceptedAt(w[..|w| - 1], k, e)
    ensures AcceptedAt(w, k, e)
  {
    assert w[..k] == w[..|w| - 1][..k];
  }

  lemma AcceptedLast(w: Word, e: FsmEvent)
    requires w != [] && w[|w| - 1] == e && Accepts(After(w[..|w| - 1]), e)
    ensures AcceptedAt(w, |w| - 1, e)
  {
  }

  /** What a busy state remembers: the task was accepted at `i` and, past the first leg's
      start, navigation was started at `j`. */
  lemma {:induction false} BusyHistory(w: Word) returns (i: nat, j: nat)
    ensures Busy(After(w)) ==> WorkingSince(w, i)
    ensures Busy(After(w)) && !After(w).Assigned? ==> i < j && AcceptedAt(w, j, NavStarted)
  {
    i, j := 0, 0;
    if Busy(After(w)) {
      var v, last := w[..|w| - 1], w[|w| - 1];
      i, j := BusyHistory(v);
      if After(v).Idle? {
        i := |w| - 1;
        AcceptedLast(w, TaskReceived);
        assert w[..|w|] == w;
      } else {
        WorkingSinceExtends(w, i);
        if After(v).Assigned? && After(w).Navigating? {
          j := |w| - 1;
          AcceptedLast(w, NavStarted);
        } else if !After(w).Assigned? {
          AcceptedAtExtends(w, j, NavStarted);
        }
      }
    }
  }

  /** Executing is never reached by a short cut: since the last idle moment a task was
      accepted, then navigation was started, then it succeeded. */
  lemma {:induction false} ExecutingWasEarned(w: Word) returns (i: nat, j: nat, k: nat)
    requires After(w).Executing?
    ensures i < j < k
    ensures WorkingSince(w, i) && AcceptedAt(w, j, NavStarted) && AcceptedAt(w, k, NavSucceeded)
  {
    var v := w[..|w| - 1];
    if After(v).Executing? {
      i, j, k := ExecutingWasEarned(v);
      AcceptedAtExtends(w, j, NavStarted);
      AcceptedAtExtends(w, k, NavSucceeded);
    } else {
      i, j := BusyHistory(v);
      k := |w| - 1;
      AcceptedLast(w, NavSucceeded);
      AcceptedAtExtends(w, j, NavStarted);
    }
    WorkingSinceExtends(w, i);
  }
}
