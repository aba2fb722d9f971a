/** The battery model: a clamped integrator over reals. */
module Battery {

  const LOW_THRESHOLD := 20.0
  const FULL_THRESHOLD := 95.0
  const DRAIN_IDLE := 0.02
  const DRAIN_MOVING := 0.10
  const CHARGE_RATE := 1.00

  type Soc = x: real | 0.0 <= x <= 100.0 witness 100.0

  function Clamp(x: real): (r: Soc) {
    if x < 0.0 then 0.0 else if x > 100.0 then 100.0 else x
  }

  predicate IsLow(soc: real) { soc < LOW_THRESHOLD }

  predicate IsFull(soc: real) { soc >= FULL_THRESHOLD }

  /** What the robot does while time passes. Charging wins over moving. */
  datatype Mode = Rest | Move | Charge

  function ModeOf(moving: bool, charging: bool): Mode {
    if charging then Charge else if moving then Move else Rest
  }

  function Rate(m: Mode): real {
    match m
    case Rest => -DRAIN_IDLE
    case Move => -DRAIN_MOVING
    case Charge => CHARGE_RATE
  }

  function Updated(soc: Soc, dt: real, m: Mode): Soc {
    Clamp(soc + Rate(m) * dt)
  }

  class BatteryModel {
    var soc: Soc

    constructor (initialSoc: real)
      ensures soc == Clamp(initialSoc)
      ensures soc == if initialSoc < 0.0 then 0.0 else if initialSoc > 100.0 then 100.0 else initialSoc
    {
      soc := Clamp(initialSoc);
    }

    method Update(dt: real, isMoving: bool, isCharging: bool)
      modifies this
      ensures soc == Updated(old(soc), dt, ModeOf(isMoving, isCharging))
      ensures var x := old(soc) + (if isCharging then 1.00 * dt else if isMoving then -0.10 * dt else -0.02 * dt);
              soc == if x < 0.0 then 0.0 else if x > 100.0 then 100.0 else x
    {
      var x: real := soc;
      if isCharging {
        x := x + CHARGE_RATE * dt;
      } else if isMoving {
        x := x - DRAIN_MOVING * dt;
      } else {
        x := x - DRAIN_IDLE * dt;
      }
      soc := Clamp(x);
    }
  }

  // ---------------------------------------------------------------------------
  // Schedules
  // ---------------------------------------------------------------------------

  datatype Segment = Segment(dt: real, mode: Mode)

  type Schedule = seq<Segment>

  predicate Forward(segs: Schedule) {
    forall i :: 0 <= i < |segs| ==> segs[i].dt >= 0.0
  }

  /** The charge after one update per segment. */
  function Drive(soc: Soc, segs: Schedule): Soc
    decreases |segs|
  {
    if segs == [] then soc else Drive(Updated(soc, segs[0].dt, segs[0].mode), segs[1..])
  }

  function Total(segs: Schedule): real {
    if segs == [] then 0.0 else segs[0].dt + Total(segs[1..])
  }

  lemma TotalNonnegative(segs: Schedule)
    requires Forward(segs)
    ensures Total(segs) >= 0.0
  {
  }

  /** The mode at a moment of the schedule's time line. */
  function ModeAt(segs: Schedule, t: real): Mode
    requires Forward(segs) && 0.0 <= t < Total(segs)
  {
    if t < segs[0].dt then segs[0].mode else ModeAt(segs[1..], t - segs[0].dt)
  }

  /** Two schedules that cut one and the same time line, each in its own way. */
  ghost predicate SameTimeline(a: Schedule, b: Schedule)
    requires Forward(a) && Forward(b)
  {
    && Total(a) == Total(b)
    && forall t: real :: 0.0 <= t < Total(a) ==> ModeAt(a, t) == ModeAt(b, t)
  }

  lemma UpdateSplits(soc: Soc, d: real, e: real, m: Mode)
    requires d >= 0.0 && e >= 0.0
    ensures Updated(Updated(soc, d, m), e, m) == Updated(soc, d + e, m)
  {
  }

  /** The same schedule with its first segment cut in two pieces, the first `d` long. */
  function CutFirst(segs: Schedule, d: real): Schedule
    requires segs != []
  {
    [Segment(segs[0].dt - d, segs[0].mode)] + segs[1..]
  }

  lemma CutFirstKeeps(soc: Soc, segs: Schedule, d: real)
    requires segs != [] && Forward(segs) && 0.0 <= d <= segs[0].dt
    ensures Forward(CutFirst(segs, d)) && Total(CutFirst(segs, d)) == Total(segs) - d
    ensures Drive(soc, segs) == Drive(Updated(soc, d, segs[0].mode), CutFirst(segs, d))
    ensures forall t: real :: 0.0 <= t < Total(segs) - d ==>
              ModeAt(CutFirst(segs, d), t) == ModeAt(segs, t + d)
  {
    var c := CutFirst(segs, d);
    assert c[1..] == segs[1..];
    UpdateSplits(soc, d, segs[0].dt - d, segs[0].mode);
    forall t: real | 0.0 <= t < Total(segs) - d
      ensures ModeAt(c, t) == ModeAt(segs, t + d)
    {
      if t >= c[0].dt {
        assert t - c[0].dt == t + d - segs[0].dt;
      }
    }
  }

  lemma DriveOverNothing(soc: Soc, segs: Schedule)
    requires Forward(segs) && Total(segs) == 0.0
    ensures Drive(soc, segs) == soc
  {
    if segs != [] {
      TotalNonnegative(segs[1..]);
      assert segs[0].dt == 0.0;
      DriveOverNothing(soc, segs[1..]);
    }
  }

  /** Dropping a first piece of length `d` from both sides keeps the time lines equal. */
  lemma TimelineAdvances(a: Schedule, b: Schedule, a': Schedule, b': Schedule, d: real)
    requires d >= 0.0 && Forward(a) && Forward(b) && Forward(a') && Forward(b')
    requires SameTimeline(a, b)
    requires Total(a') == Total(a) - d && Total(b') == Total(b) - d
    requires forall t: real :: 0.0 <= t < Total(a') ==> ModeAt(a', t) == ModeAt(a, t + d)
    requires forall t: real :: 0.0 <= t < Total(b') ==> ModeAt(b', t) == ModeAt(b, t + d)
    ensures SameTimeline(a', b')
  {
  }

  lemma RestOfTimeline(segs: Schedule)
    requires segs != [] && Forward(segs)
    ensures forall t: real :: 0.0 <= t < Total(segs[1..]) ==>
              ModeAt(segs[1..], t) == ModeAt(segs, t + segs[0].dt)
  {
  }

  /** The timer's rate does not matter: although the charge is clamped at every update, it
      depends only on what the robot did when, not on how that time was cut into updates. */
  lemma {:induction false} RateIndependence(soc: Soc, a: Schedule, b: Schedule)
    requires Forward(a) && Forward(b) && SameTimeline(a, b)
    ensures Drive(soc, a) == Drive(soc, b)
    decreases |a| + |b|, if a != [] && b != [] && a[0].dt > b[0].dt then 1 else 0
  {
    if a == [] || b == [] {
      DriveOverNothing(soc, a);
      DriveOverNothing(soc, b);
    } else if a[0].dt > b[0].dt {
      RateIndependence(soc, b, a);
    } else {
      var d := a[0].dt;
      RestOfTimeline(a);
      if d == 0.0 {
        TimelineAdvances(a, b, a[1..], b, d);
        RateIndependence(soc, a[1..], b);
      } else {
        TotalNonnegative(a[1..]);
        assert ModeAt(a, 0.0) == ModeAt(b, 0.0);
        CutFirstKeeps(soc, b, d);
        TimelineAdvances(a, b, a[1..], CutFirst(b, d), d);
        RateIndependence(Updated(soc, d, a[0].mode), a[1..], CutFirst(b, d));
      }
    }
  }

  lemma {:induction false} DriveAppends(soc: Soc, segs: Schedule, last: Segment)
    ensures Drive(soc, segs + [last]) == Updated(Drive(soc, segs), last.dt, last.mode)
    decreases |segs|
  {
    if segs != [] {
      assert (segs + [last])[1..] == segs[1..] + [last];
      DriveAppends(Updated(soc, segs[0].dt, segs[0].mode), segs[1..], last);
    } else {
      assert segs + [last] == [last];
    }
  }

  /** More charge to begin with never means less charge later. */
  lemma {:induction false} DriveMonotone(low: Soc, high: Soc, segs: Schedule)
    requires low <= high
    ensures Drive(low, segs) <= Drive(high, segs)
    decreases |segs|
  {
    if segs != [] {
      DriveMonotone(Updated(low, segs[0].dt, segs[0].mode), Updated(high, segs[0].dt, segs[0].mode), segs[1..]);
    }
  }

  // ---------------------------------------------------------------------------
  // Hysteresis
  // ---------------------------------------------------------------------------

  /** An observer of the two thresholds: it waits for the first low reading, then for full,
      then for low again, and so on. */
  datatype Watch = Fresh | SeekFull | SeekLow

  function Observed(w: Watch, soc: real): Watch {
    match w
    case Fresh => if IsLow(soc) then SeekFull else Fresh
    case SeekFull => if IsFull(soc) then SeekLow else SeekFull
    case SeekLow => if IsLow(soc) then SeekFull else SeekLow
  }

  /** Complete low-full-low cycles the observer sees, one look after each update. */
  function Cycles(w: Watch, soc: Soc, segs: Schedule): nat
    decreases |segs|
  {
    if segs == [] then 0
    else
      var s := Updated(soc, segs[0].dt, segs[0].mode);
      (if w.SeekLow? && IsLow(s) then 1 else 0) + Cycles(Observed(w, s), s, segs[1..])
  }

  /** Time spent in a mode. */
  function TimeIn(m: Mode, segs: Schedule): real {
    if segs == [] then 0.0 else (if segs[0].mode == m then segs[0].dt else 0.0) + TimeIn(m, segs[1..])
  }

  /** What rest and motion cost. */
  function Spent(moving: real, resting: real): real { 0.10 * moving + 0.02 * resting }

  lemma {:induction false} TimesNonnegative(m: Mode, segs: Schedule)
    requires Forward(segs)
    ensures TimeIn(m, segs) >= 0.0
  {
    if segs != [] {
      TimesNonnegative(m, segs[1..]);
    }
  }

  /** What `c` completed cycles and the present charge have already cost. */
  predicate Budget(w: Watch, soc: real, c: int, charged: real, spent: real) {
    && c >= 0
    && (c > 0 ==> charged > 75.0 * c as real && spent > 75.0 * c as real)
    && charged >= 0.0 && spent >= 0.0
    && match w
       case Fresh => c == 0
       case SeekFull => charged > 75.0 * c as real + (soc - 20.0)
       case SeekLow => charged > 75.0 * (c + 1) as real && spent >= 75.0 * c as real + (95.0 - soc)
  }

  lemma UpdateCosts(soc: Soc, seg: Segment)
    requires seg.dt >= 0.0
    ensures var s := Updated(soc, seg.dt, seg.mode);
            match seg.mode
            case Charge => soc <= s <= soc + seg.dt
            case Move => soc - 0.10 * seg.dt <= s <= soc
            case Rest => soc - 0.02 * seg.dt <= s <= soc
  {
  }

  lemma BudgetAdvances(w: Watch, soc: Soc, c: nat, charged: real, spent: real, seg: Segment)
    requires Budget(w, soc, c, charged, spent) && seg.dt >= 0.0
    ensures var s := Updated(soc, seg.dt, seg.mode);
            Budget(Observed(w, s), s, c + if w.SeekLow? && IsLow(s) then 1 else 0,
                   charged + (if seg.mode.Charge? then seg.dt else 0.0),
                   spent + Spent(if seg.mode.Move? then seg.dt else 0.0, if seg.mode.Rest? then seg.dt else 0.0))
  {
    assert (c + 1) as real == c as real + 1.0;
    UpdateCosts(soc, seg);
  }

  lemma {:induction false} BudgetHolds(w: Watch, soc: Soc, c: nat, charged: real, spent: real, segs: Schedule)
    requires Forward(segs) && Budget(w, soc, c, charged, spent)
    ensures var k := c + Cycles(w, soc, segs);
            k > 0 ==>
              && charged + TimeIn(Charge, segs) > 75.0 * k as real
              && spent + Spent(TimeIn(Move, segs), TimeIn(Rest, segs)) > 75.0 * k as real
    decreases |segs|
  {
    if segs != [] {
      var seg := segs[0];
      var s := Updated(soc, seg.dt, seg.mode);
      BudgetAdvances(w, soc, c, charged, spent, seg);
      BudgetHolds(Observed(w, s), s, c + if w.SeekLow? && IsLow(s) then 1 else 0,
                  charged + (if seg.mode.Charge? then seg.dt else 0.0),
                  spent + Spent(if seg.mode.Move? then seg.dt else 0.0, if seg.mode.Rest? then seg.dt else 0.0), segs[1..]);
    }
  }

  lemma {:induction false} TimesAddUp(segs: Schedule)
    ensures TimeIn(Charge, segs) + TimeIn(Move, segs) + TimeIn(Rest, segs) == Total(segs)
  {
    if segs != [] {
      TimesAddUp(segs[1..]);
    }
  }

  /** Hysteresis: over any schedule, `k` complete cycles charge for more than `75 k` seconds and spend
      more than `75 k` percent, 0.10 for each second of motion and 0.02 for each second of rest. So
      they take more than `825 k` seconds, and without motion more than `3825 k`. */
  lemma CyclesTakeTime(soc: Soc, segs: Schedule)
    requires Forward(segs)
    ensures var k := Cycles(Fresh, soc, segs);
            k > 0 ==>
              && TimeIn(Charge, segs) > 75.0 * k as real
              && 0.10 * TimeIn(Move, segs) + 0.02 * TimeIn(Rest, segs) > 75.0 * k as real
              && Total(segs) > 825.0 * k as real
              && (TimeIn(Move, segs) == 0.0 ==> TimeIn(Rest, segs) > 3750.0 * k as real)
  {
    BudgetHolds(Fresh, soc, 0, 0.0, 0.0, segs);
    TimesAddUp(segs);
    TimesNonnegative(Move, segs);
    TimesNonnegative(Rest, segs);
  }

  // ---------------------------------------------------------------------------
  // The balance
  // ---------------------------------------------------------------------------

  /** What an update makes of the charge before it is clamped. */
  function Raw(soc: real, seg: Segment): real {
    match seg.mode
    case Charge => soc + seg.dt
    case Move => soc - 0.10 * seg.dt
    case Rest => soc - 0.02 * seg.dt
  }

  lemma RawIsUpdated(soc: Soc, seg: Segment)
    requires 0.0 <= Raw(soc, seg) <= 100.0
    ensures Updated(soc, seg.dt, seg.mode) == Raw(soc, seg)
  {
  }

  /** No update along the schedule would leave the range from empty to full. */
  predicate Unclamped(soc: Soc, segs: Schedule)
    decreases |segs|
  {
    segs == [] || (0.0 <= Raw(soc, segs[0]) <= 100.0 && Unclamped(Raw(soc, segs[0]), segs[1..]))
  }

  /** What a schedule adds, and what it takes. */
  function Balance(segs: Schedule): real {
    TimeIn(Charge, segs) - 0.10 * TimeIn(Move, segs) - 0.02 * TimeIn(Rest, segs)
  }

  lemma BalanceGrows(soc: real, segs: Schedule)
    requires segs != []
    ensures soc + Balance(segs) == Raw(soc, segs[0]) + Balance(segs[1..])
  {
  }

  /** Unless it is clamped, the charge is exactly what it was at first, plus one percent for each second
      of charging, less 0.10 for each second of motion and 0.02 for each second of rest. */
  lemma {:induction false} BalanceHolds(soc: Soc, segs: Schedule)
    requires Unclamped(soc, segs)
    ensures Drive(soc, segs) == soc + TimeIn(Charge, segs) - 0.10 * TimeIn(Move, segs) - 0.02 * TimeIn(Rest, segs)
    decreases |segs|
  {
    if segs != [] {
      RawIsUpdated(soc, segs[0]);
      BalanceGrows(soc, segs);
      BalanceHolds(Raw(soc, segs[0]), segs[1..]);
    }
  }
}
