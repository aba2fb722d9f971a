/** The legs of the agent's tree follow the stream machine of `Retry`: tick by tick, with every
    outcome they consume, in every reachable state. */
module LegStream {
  import opened Fsm
  import opened AgentModel
  import opened Invariants
  import opened FlatTree
  import Retry

  function RecoveryAbs(n: RecoveryNode): Retry.Recovery {
    match n.phase
    case Spin => Retry.Spinning(n.attempt)
    case BackUp => Retry.BackingUp(n.attempt)
    case Done => Retry.Recovered
    case Failed => Retry.GaveUp
  }

  /** Where the stream machine stands when the leg is in the middle of its work. */
  function LegAbs(l: Leg): Retry.Leg {
    if l.child == 0 then Retry.Navigating(l.tries)
    else Retry.Mended(NAV_ROUNDS, l.tries, RecoveryAbs(l.recovery))
  }

  function Stream(outcomes: seq<bool>): Retry.Leg {
    Retry.LegRun(NAV_ROUNDS, RECOVERY_ATTEMPTS, outcomes)
  }

  /** No outcome was consumed after the stream had already decided the leg. */
  predicate Snug(outcomes: seq<bool>) {
    outcomes == [] || !Retry.Ended(Stream(outcomes[..|outcomes| - 1]))
  }

  predicate Follows(outcomes: seq<bool>, l: Retry.Leg) {
    Stream(outcomes) == l && Snug(outcomes)
  }

  lemma StreamReads(outcomes: seq<bool>, ok: bool)
    ensures Stream(outcomes + [ok]) == Retry.LegStep(NAV_ROUNDS, RECOVERY_ATTEMPTS, Stream(outcomes), ok)
    ensures !Retry.Ended(Stream(outcomes)) ==> Snug(outcomes + [ok])
  {
  }

  lemma RecoveryTracks(c: Core, n: RecoveryNode, leg: NavId, env: Env)
    ensures var t := RecoveryTicked(c, n, leg, env, RECOVERY_ATTEMPTS);
            if !n.running then
              t.status.Running? && RecoveryAbs(t.node) == Retry.Spinning(0)
            else
              && (t.status.Success? <==> n.phase.Done?) && (t.status.Failure? <==> n.phase.Failed?)
              && RecoveryAbs(t.node)
                 == (if Consumes(n) == [] then RecoveryAbs(n)
                     else Retry.RecoveryStep(RECOVERY_ATTEMPTS, RecoveryAbs(n), Consumes(n)[0]))
              && (Consumes(n) != [] ==> n.phase.Spin? || n.phase.BackUp?) && |Consumes(n)| <= 1
  {
  }

  /** What the stream says of a leg whose tick ended with `status` on round `tries`. */
  predicate Reports(status: NodeStatus, l: Leg, tries: nat) {
    match status
    case Running => Follows(l.outcomes, LegAbs(l))
    case Success => Stream(l.outcomes).Passed? && Snug(l.outcomes)
    case Failure =>
      Follows(l.outcomes, if tries + 1 < NAV_ROUNDS then Retry.Navigating(tries + 1) else Retry.GivenUp)
  }

  lemma LegRecoversTracks(c: Core, l: Leg, id: NavId, env: Env)
    requires l.tries < NAV_ROUNDS && l.child == 1
    requires if l.recovery.running then Follows(l.outcomes, LegAbs(l))
             else Follows(l.outcomes, Retry.Mending(l.tries, Retry.Spinning(0)))
    ensures var t := LegRecovers(c, l, id, env, RECOVERY_ATTEMPTS);
            Reports(t.status, t.leg, l.tries) && t.leg.tries == l.tries
  {
    RecoveryTracks(c, l.recovery, id, env);
    if l.recovery.running && Consumes(l.recovery) != [] {
      StreamReads(l.outcomes, Consumes(l.recovery)[0]);
      assert Consumes(l.recovery) == [Consumes(l.recovery)[0]];
    } else {
      assert l.outcomes + [] == l.outcomes;
    }
  }

  /** The navigation succeeds: the leg passes. */
  lemma ArrivingTracks(l: Leg, nav: NavNode)
    requires Follows(l.outcomes, Retry.Navigating(l.tries))
    ensures Reports(Success, l.(nav := nav, outcomes := l.outcomes + [true]), l.tries)
  {
  }

  /** The navigation fails: recovery takes over in the same tick. */
  lemma FailingTracks(c: Core, l: Leg, nav: NavNode, id: NavId, env: Env)
    requires l.tries < NAV_ROUNDS && !l.recovery.running && Follows(l.outcomes, Retry.Navigating(l.tries))
    ensures var t := LegRecovers(c, l.(nav := nav, child := 1, outcomes := l.outcomes + [false]), id, env, RECOVERY_ATTEMPTS);
            Reports(t.status, t.leg, l.tries)
  {
    StreamReads(l.outcomes, false);
    LegRecoversTracks(c, l.(nav := nav, child := 1, outcomes := l.outcomes + [false]), id, env);
  }

  lemma FallbackTracks(c: Core, l: Leg, id: NavId, pose: Point, env: Env)
    requires LegTickable(l) && l.tries < NAV_ROUNDS && Follows(l.outcomes, LegAbs(l))
    ensures var t := FallbackTicked(c, l, id, pose, env, RECOVERY_ATTEMPTS);
            Reports(t.status, t.leg, l.tries)
  {
    if l.child == 0 {
      var n := NavTicked(c, l.nav, id, pose, env.navReady);
      match n.status {
        case Running =>
        case Success => ArrivingTracks(l, n.node);
        case Failure => FailingTracks(n.core, l, n.node, id, env);
      }
    } else {
      LegRecoversTracks(c, l, id, env);
    }
  }

  lemma {:induction false} RetryTracks(c: Core, l: Leg, id: NavId, pose: Point, env: Env)
    requires LegTickable(l) && l.tries <= NAV_ROUNDS
    requires l.tries == NAV_ROUNDS ==> l.child == 0 && !LegRunning(l)
    requires Follows(l.outcomes, if l.tries < NAV_ROUNDS then LegAbs(l) else Retry.GivenUp)
    ensures var t := RetryTicked(c, l, id, pose, env, NAV_ROUNDS, RECOVERY_ATTEMPTS);
            Reports(t.status, t.leg, NAV_ROUNDS - 1)
    decreases NAV_ROUNDS - l.tries
  {
    if l.tries < NAV_ROUNDS {
      FallbackTickedKeeps(c, l, id, pose, env, RECOVERY_ATTEMPTS);
      FallbackTracks(c, l, id, pose, env);
      var f := FallbackTicked(c, l, id, pose, env, RECOVERY_ATTEMPTS);
      if f.status.Failure? {
        RetryTracks(f.core, f.leg.(tries := l.tries + 1), id, pose, env);
      }
    }
  }

  /** A leg that is at work agrees with the stream machine on the outcomes it has consumed. */
  predicate Tracks(l: Leg) {
    LegAwake(l) ==> Follows(l.outcomes, LegAbs(l))
  }

  /** One tick of a leg: it goes on in step with the stream machine, or it ends the way the
      stream machine ended. */
  lemma LegTickedTracks(c: Core, l: Leg, id: NavId, pose: Point, env: Env)
    requires (LegAwake(l) && Tracks(l)) || LegAsleep(l)
    ensures var t := LegTicked(c, l, id, pose, env);
            && Tracks(t.leg)
            && (t.status.Success? ==> Stream(t.leg.outcomes).Passed?)
            && (t.status.Failure? ==> Stream(t.leg.outcomes).GivenUp?)
            && Snug(t.leg.outcomes)
  {
    RetryTracks(c, Entered(l), id, pose, env);
    LegTickedKeeps(c, l, id, pose, env);
  }

  predicate LegsTrack(a: Agent) { Tracks(a.pick) && Tracks(a.drop) }

  lemma TaskTickedTracks(cfg: Config, a: Agent, env: Env)
    requires TaskShape(a) && LegsTrack(a)
    ensures LegsTrack(TaskTicked(cfg, a, env).agent)
  {
    if a.taskChild == 0 && NextTask(a.core).Some? {
      var b := a.(core := TakeTask(a.core, env.now), waiting := false);
      LegTickedTracks(b.core, b.pick, ToPick, b.core.pickPose, env);
    } else if a.taskChild == 1 {
      LegTickedTracks(a.core, a.pick, ToPick, a.core.pickPose, env);
    } else if a.taskChild == 2 {
      var b := a.(core := Fire(a.core, ExecutionDone), doPick := a.doPick.(running := false));
      LegTickedTracks(b.core, b.drop, ToDrop, b.core.dropPose, env);
    } else if a.taskChild == 3 {
      LegTickedTracks(a.core, a.drop, ToDrop, a.core.dropPose, env);
    }
  }

  lemma StepTracks(cfg: Config, a: Agent, e: Event)
    requires Sound(a) && LegsTrack(a)
    ensures LegsTrack(Step(cfg, a, e))
  {
    if e.BtTick? {
      ChargeTicked(cfg, a, e.env);
      var t := ChargeFrom(cfg, a, a.chargeChild, e.env);
      if t.status.Failure? {
        TaskIsFlat(cfg, t.agent, e.env);
        TaskTickedTracks(cfg, t.agent, e.env);
      } else {
        TaskHaltKeeps(t.agent);
      }
    } else if ActionCallback(e) {
      CallbackKeeps(cfg, a, e);
    }
  }

  lemma {:induction false} AlwaysTracks(cfg: Config, initialSoc: real, now: real, events: seq<Event>)
    ensures LegsTrack(Run(cfg, Initial(initialSoc, now), events))
  {
    if events != [] {
      var before := events[..|events| - 1];
      AlwaysTracks(cfg, initialSoc, now, before);
      AlwaysSound(cfg, initialSoc, now, before);
      StepTracks(cfg, Run(cfg, Initial(initialSoc, now), before), events[|events| - 1]);
    }
  }

  lemma SnugIsShort(outcomes: seq<bool>)
    requires Snug(outcomes)
    ensures |outcomes| <= Retry.Bound(NAV_ROUNDS, RECOVERY_ATTEMPTS) == 21
  {
    if outcomes != [] {
      Retry.LegIsShort(NAV_ROUNDS, RECOVERY_ATTEMPTS, outcomes[..|outcomes| - 1]);
    }
  }

  /** A leg whose stream is snug lost all its rounds exactly when the stream is `NAV_ROUNDS` lost
      rounds and nothing else. */
  lemma SnugFailure(outcomes: seq<bool>)
    requires Snug(outcomes)
    ensures Stream(outcomes).GivenUp? <==> Retry.LostRounds(RECOVERY_ATTEMPTS, outcomes, NAV_ROUNDS)
  {
    Retry.EndedOnLostRounds(NAV_ROUNDS, RECOVERY_ATTEMPTS, outcomes);
  }

  /** What one tick can make of a leg at work: at most 21 outcomes have been consumed since the
      leg was entered, and if the tick ends it, it fails exactly when those outcomes are three
      lost rounds and nothing else. */
  ghost predicate BoundedLeg(c: Core, l: Leg, id: NavId, pose: Point, env: Env) {
    && |l.outcomes| <= 21
    && var t := LegTicked(c, l, id, pose, env);
       && |t.leg.outcomes| <= 21
       && (!t.status.Running? ==>
             (t.status.Failure? <==> Retry.LostRounds(RECOVERY_ATTEMPTS, t.leg.outcomes, NAV_ROUNDS)))
  }

  lemma LegIsBounded(c: Core, l: Leg, id: NavId, pose: Point, env: Env)
    requires LegAwake(l) && Tracks(l)
    ensures BoundedLeg(c, l, id, pose, env)
  {
    var t := LegTicked(c, l, id, pose, env);
    LegTickedTracks(c, l, id, pose, env);
    SnugIsShort(l.outcomes);
    SnugIsShort(t.leg.outcomes);
    SnugFailure(t.leg.outcomes);
  }

  /** So it is for both legs in every reachable state, whatever the environment did. */
  lemma LegsAreBounded(cfg: Config, initialSoc: real, now: real, events: seq<Event>, env: Env)
    ensures var a := Run(cfg, Initial(initialSoc, now), events);
            && (a.taskChild == 1 ==> BoundedLeg(a.core, a.pick, ToPick, a.core.pickPose, env))
            && (a.taskChild == 3 ==> BoundedLeg(a.core, a.drop, ToDrop, a.core.dropPose, env))
  {
    var a := Run(cfg, Initial(initialSoc, now), events);
    AlwaysTracks(cfg, initialSoc, now, events);
    AlwaysSound(cfg, initialSoc, now, events);
    if a.taskChild == 1 {
      LegIsBounded(a.core, a.pick, ToPick, a.core.pickPose, env);
    } else if a.taskChild == 3 {
      LegIsBounded(a.core, a.drop, ToDrop, a.core.dropPose, env);
    }
  }
}
