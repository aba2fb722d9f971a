/** One navigation leg of the tree, seen from outside: a stream of goal outcomes (`true` for a
    goal that succeeded) drives "navigate, else recover", repeated up to a number of rounds.
    A goal that could not be sent, was rejected, aborted or broken off by an injected fault
    counts as a failed outcome. */
module Retry {

  // ---------------------------------------------------------------------------
  // Recovery: spin, then back up; start over on a failure
  // ---------------------------------------------------------------------------

  datatype Recovery =
    | Spinning(failures: nat)
    | BackingUp(failures: nat)
    | Recovered
    | GaveUp

  predicate Open(r: Recovery) { r.Spinning? || r.BackingUp? }

  /** The limit is compared after a failure has been counted, so a configured limit below one
      still allows one failure. */
  function Limit(maxAttempts: int): nat {
    if maxAttempts < 1 then 1 else maxAttempts
  }

  function RecoveryStep(maxAttempts: int, r: Recovery, ok: bool): Recovery {
    match r
    case Spinning(f) =>
      if ok then BackingUp(f) else if f + 1 >= maxAttempts then GaveUp else Spinning(f + 1)
    case BackingUp(f) =>
      if ok then Recovered else if f + 1 >= maxAttempts then GaveUp else Spinning(f + 1)
    case _ => r
  }

  /** A fresh recovery fed with a stream of results. A finished one takes no more results. */
  function RecoveryRun(maxAttempts: int, results: seq<bool>): Recovery {
    if results == [] then Spinning(0)
    else RecoveryStep(maxAttempts, RecoveryRun(maxAttempts, results[..|results| - 1]), results[|results| - 1])
  }

  function Failures(results: seq<bool>): nat {
    if results == [] then 0
    else Failures(results[..|results| - 1]) + if results[|results| - 1] then 0 else 1
  }

  /** A success directly followed by a success, before the failures reached the limit. */
  predicate CleanPairAt(maxAttempts: int, results: seq<bool>, i: nat) {
    i + 1 < |results| && results[i] && results[i + 1] && Failures(results[..i]) < Limit(maxAttempts)
  }

  ghost predicate HasCleanPair(maxAttempts: int, results: seq<bool>) {
    exists i: nat :: CleanPairAt(maxAttempts, results, i)
  }

  /** One more result can only complete a pair at the end. */
  lemma CleanPairGrows(maxAttempts: int, results: seq<bool>)
    requires results != []
    ensures HasCleanPair(maxAttempts, results) <==>
            || HasCleanPair(maxAttempts, results[..|results| - 1])
            || (|results| > 1 && CleanPairAt(maxAttempts, results, |results| - 2))
  {
    var front := results[..|results| - 1];
    forall i: nat | i + 1 < |front|
      ensures CleanPairAt(maxAttempts, results, i) <==> CleanPairAt(maxAttempts, front, i)
    {
      assert results[..i] == front[..i];
    }
  }

  /** What the machine's state says about the whole stream it has read. */
  ghost predicate Tells(maxAttempts: int, r: Recovery, results: seq<bool>) {
    var limit := Limit(maxAttempts);
    match r
    case Spinning(f) =>
      !HasCleanPair(maxAttempts, results) && f == Failures(results) < limit
      && (results == [] || !results[|results| - 1]) && |results| <= 2 * f
    case BackingUp(f) =>
      !HasCleanPair(maxAttempts, results) && f == Failures(results) < limit
      && results != [] && results[|results| - 1] && |results| <= 2 * f + 1
      && (|results| > 1 ==> !results[|results| - 2])
    case Recovered => HasCleanPair(maxAttempts, results)
    case GaveUp => !HasCleanPair(maxAttempts, results) && Failures(results) >= limit
  }

  /** A pair at the end is clean if the failures before its last result are below the limit. */
  lemma CleanPairAtEnd(maxAttempts: int, results: seq<bool>)
    requires |results| > 1
    ensures var n := |results|;
            CleanPairAt(maxAttempts, results, n - 2) <==>
            results[n - 2] && results[n - 1] && Failures(results[..n - 1]) < Limit(maxAttempts)
  {
    var front := results[..|results| - 1];
    assert front[..|front| - 1] == results[..|results| - 2];
  }

  lemma {:induction false} RecoveryMeans(maxAttempts: int, results: seq<bool>)
    ensures Tells(maxAttempts, RecoveryRun(maxAttempts, results), results)
  {
    if results != [] {
      RecoveryMeans(maxAttempts, results[..|results| - 1]);
      CleanPairGrows(maxAttempts, results);
      if |results| > 1 {
        CleanPairAtEnd(maxAttempts, results);
      }
    }
  }

  /** Recovery is exactly this: it succeeds if and only if a spin success directly followed by
      a back-up success comes before the limit of failures, and it gives up if and only if the
      failures reach the limit first. */
  lemma RecoveryIsExact(maxAttempts: int, results: seq<bool>)
    ensures RecoveryRun(maxAttempts, results).Recovered? <==> HasCleanPair(maxAttempts, results)
    ensures RecoveryRun(maxAttempts, results).GaveUp? <==>
              !HasCleanPair(maxAttempts, results) && Failures(results) >= Limit(maxAttempts)
  {
    RecoveryMeans(maxAttempts, results);
  }

  /** A recovery still open has read fewer than two results per allowed failure, so every
      recovery is over after at most `2 * Limit` results. */
  lemma RecoveryIsShort(maxAttempts: int, results: seq<bool>)
    ensures Open(RecoveryRun(maxAttempts, results)) ==> |results| < 2 * Limit(maxAttempts)
  {
    RecoveryMeans(maxAttempts, results);
  }

  // ---------------------------------------------------------------------------
  // A leg: rounds of navigation and recovery
  // ---------------------------------------------------------------------------

  datatype Leg =
    | Navigating(round: nat)
    | Mending(round: nat, recovery: Recovery)
    | Passed(arrived: bool)
    | GivenUp

  /** What becomes of a leg whose recovery has reached `r`. */
  function Mended(rounds: nat, round: nat, r: Recovery): Leg {
    match r
    case Recovered => Passed(false)
    case GaveUp => if round + 1 < rounds then Navigating(round + 1) else GivenUp
    case _ => Mending(round, r)
  }

  function LegStep(rounds: nat, maxAttempts: int, l: Leg, ok: bool): Leg {
    match l
    case Navigating(t) => if ok then Passed(true) else Mending(t, Spinning(0))
    case Mending(t, r) => Mended(rounds, t, RecoveryStep(maxAttempts, r, ok))
    case _ => l
  }

  function LegRun(rounds: nat, maxAttempts: int, outcomes: seq<bool>): Leg {
    if outcomes == [] then Navigating(0)
    else LegStep(rounds, maxAttempts, LegRun(rounds, maxAttempts, outcomes[..|outcomes| - 1]), outcomes[|outcomes| - 1])
  }

  predicate Ended(l: Leg) { l.Passed? || l.GivenUp? }

  /** The most outcomes a leg can consume. */
  function Bound(rounds: nat, maxAttempts: int): nat {
    if rounds == 0 then 0 else Bound(rounds - 1, maxAttempts) + 1 + 2 * Limit(maxAttempts)
  }

  lemma {:induction false} BoundIsProduct(rounds: nat, maxAttempts: int)
    ensures Bound(rounds, maxAttempts) == rounds * (1 + 2 * Limit(maxAttempts))
  {
    if rounds > 0 {
      BoundIsProduct(rounds - 1, maxAttempts);
      assert (rounds - 1) * (1 + 2 * Limit(maxAttempts)) + 1 + 2 * Limit(maxAttempts) == rounds * (1 + 2 * Limit(maxAttempts));
    }
  }

  /** One lost round: a failed navigation and then a recovery that gives up on its last
      result, and not before. */
  predicate LostRound(maxAttempts: int, outcomes: seq<bool>) {
    && |outcomes| > 1 && !outcomes[0]
    && RecoveryRun(maxAttempts, outcomes[1..]).GaveUp?
    && Open(RecoveryRun(maxAttempts, outcomes[1..|outcomes| - 1]))
  }

  /** The stream is `n` lost rounds, one after the other. */
  ghost predicate LostRounds(maxAttempts: int, outcomes: seq<bool>, n: nat)
    decreases n
  {
    if n == 0 then outcomes == []
    else
      exists cut: nat :: cut <= |outcomes|
        && LostRounds(maxAttempts, outcomes[..cut], n - 1) && LostRound(maxAttempts, outcomes[cut..])
  }

  lemma LostRoundsAppend(maxAttempts: int, lost: seq<bool>, n: nat, last: seq<bool>)
    requires LostRounds(maxAttempts, lost, n) && LostRound(maxAttempts, last)
    ensures LostRounds(maxAttempts, lost + last, n + 1)
  {
    assert (lost + last)[..|lost|] == lost && (lost + last)[|lost|..] == last;
  }

  lemma LostRoundIsShort(maxAttempts: int, outcomes: seq<bool>)
    requires LostRound(maxAttempts, outcomes)
    ensures |outcomes| <= 1 + 2 * Limit(maxAttempts)
  {
    RecoveryIsShort(maxAttempts, outcomes[1..|outcomes| - 1]);
  }

  lemma LastLostRound(maxAttempts: int, outcomes: seq<bool>, n: nat) returns (cut: nat)
    requires n > 0 && LostRounds(maxAttempts, outcomes, n)
    ensures cut <= |outcomes| && LostRounds(maxAttempts, outcomes[..cut], n - 1)
    ensures |outcomes| - cut <= 1 + 2 * Limit(maxAttempts)
  {
    cut :| cut <= |outcomes| && LostRounds(maxAttempts, outcomes[..cut], n - 1) && LostRound(maxAttempts, outcomes[cut..]);
    LostRoundIsShort(maxAttempts, outcomes[cut..]);
  }

  lemma {:induction false} LostRoundsAreShort(maxAttempts: int, outcomes: seq<bool>, n: nat)
    requires LostRounds(maxAttempts, outcomes, n)
    ensures |outcomes| <= Bound(n, maxAttempts)
    decreases n
  {
    if n > 0 {
      var cut := LastLostRound(maxAttempts, outcomes, n);
      LostRoundsAreShort(maxAttempts, outcomes[..cut], n - 1);
    }
  }

  /** The stream read so far, split at `cut`: lost rounds before it, the present round after. */
  ghost predicate Reading(maxAttempts: int, l: Leg, outcomes: seq<bool>, cut: nat) {
    && cut <= |outcomes|
    && match l
       case Navigating(t) => cut == |outcomes| && LostRounds(maxAttempts, outcomes, t)
       case Mending(t, r) =>
         && cut < |outcomes| && !outcomes[cut] && Open(r)
         && LostRounds(maxAttempts, outcomes[..cut], t)
         && RecoveryRun(maxAttempts, outcomes[cut + 1..]) == r
       case _ => false
  }

  /** What one more outcome does to a leg that navigates. */
  lemma NavigatingReads(maxAttempts: int, outcomes: seq<bool>, cut: nat, t: nat)
    requires outcomes != []
    requires Reading(maxAttempts, Navigating(t), outcomes[..|outcomes| - 1], cut)
    ensures !outcomes[|outcomes| - 1] ==> Reading(maxAttempts, Mending(t, Spinning(0)), outcomes, cut)
  {
  }

  /** What one more outcome does to a leg in recovery. */
  lemma MendingReads(maxAttempts: int, outcomes: seq<bool>, cut: nat, t: nat, r: Recovery)
    requires outcomes != []
    requires Reading(maxAttempts, Mending(t, r), outcomes[..|outcomes| - 1], cut)
    ensures var now := RecoveryStep(maxAttempts, r, outcomes[|outcomes| - 1]);
            && (Open(now) ==> Reading(maxAttempts, Mending(t, now), outcomes, cut))
            && (now.GaveUp? ==> LostRounds(maxAttempts, outcomes, t + 1))
  {
    var n := |outcomes|;
    var front, ok := outcomes[..n - 1], outcomes[n - 1];
    var results := outcomes[cut + 1..];
    assert outcomes[..cut] == front[..cut];
    assert results[..|results| - 1] == front[cut + 1..];
    var now := RecoveryStep(maxAttempts, r, ok);
    assert RecoveryRun(maxAttempts, results) == now;
    if now.GaveUp? {
      var last := outcomes[cut..];
      assert last[1..] == results;
      assert last[1..|last| - 1] == front[cut + 1..];
      assert LostRound(maxAttempts, last);
      LostRoundsAppend(maxAttempts, outcomes[..cut], t, last);
      assert outcomes[..cut] + last == outcomes;
    }
  }

  /** A leg that goes on has read whole lost rounds and part of one more; a leg that was given
      up has read exactly `rounds` lost rounds, up to `cut`. */
  ghost predicate Understood(rounds: nat, maxAttempts: int, l: Leg, outcomes: seq<bool>, cut: nat) {
    && cut <= |outcomes|
    && (l.GivenUp? ==> LostRounds(maxAttempts, outcomes[..cut], rounds))
    && (!Ended(l) ==> Reading(maxAttempts, l, outcomes, cut) && l.round < rounds)
  }

  lemma MendingUnderstood(rounds: nat, maxAttempts: int, outcomes: seq<bool>, cut: nat, l: Leg) returns (cut': nat)
    requires outcomes != [] && l.Mending?
    requires Understood(rounds, maxAttempts, l, outcomes[..|outcomes| - 1], cut)
    ensures Understood(rounds, maxAttempts, LegStep(rounds, maxAttempts, l, outcomes[|outcomes| - 1]), outcomes, cut')
  {
    MendingReads(maxAttempts, outcomes, cut, l.round, l.recovery);
    if RecoveryStep(maxAttempts, l.recovery, outcomes[|outcomes| - 1]).GaveUp? {
      cut' := |outcomes|;
      assert outcomes[..cut'] == outcomes;
    } else {
      cut' := cut;
    }
  }

  lemma {:induction false} LegMeans(rounds: nat, maxAttempts: int, outcomes: seq<bool>) returns (cut: nat)
    requires rounds > 0
    ensures Understood(rounds, maxAttempts, LegRun(rounds, maxAttempts, outcomes), outcomes, cut)
  {
    cut := 0;
    if outcomes != [] {
      var front := outcomes[..|outcomes| - 1];
      var l := LegRun(rounds, maxAttempts, front);
      cut := LegMeans(rounds, maxAttempts, front);
      if l.Mending? {
        cut := MendingUnderstood(rounds, maxAttempts, outcomes, cut, l);
      } else if l.Navigating? {
        NavigatingReads(maxAttempts, outcomes, cut, l.round);
      } else {
        assert outcomes[..cut] == front[..cut];
      }
    }
  }

  lemma RecoveryWasOpen(maxAttempts: int, results: seq<bool>, n: nat)
    requires n <= |results| && Open(RecoveryRun(maxAttempts, results))
    ensures Open(RecoveryRun(maxAttempts, results[..n]))
  {
    if n < |results| {
      assert results[..n] == results[..|results| - 1][..n];
      RecoveryWasOpen(maxAttempts, results[..|results| - 1], n);
    } else {
      assert results[..n] == results;
    }
  }

  lemma {:induction false} MendingFollows(rounds: nat, maxAttempts: int, outcomes: seq<bool>, cut: nat, t: nat, n: nat)
    requires cut < n <= |outcomes| && !outcomes[cut]
    requires LegRun(rounds, maxAttempts, outcomes[..cut]) == Navigating(t)
    requires Open(RecoveryRun(maxAttempts, outcomes[cut + 1..n]))
    ensures LegRun(rounds, maxAttempts, outcomes[..n])
         == Mending(t, RecoveryRun(maxAttempts, outcomes[cut + 1..n]))
  {
    var before := outcomes[..n];
    assert before[..n - 1] == outcomes[..n - 1];
    if n == cut + 1 {
      assert outcomes[cut + 1..n] == [];
    } else {
      var results := outcomes[cut + 1..n];
      assert results[..|results| - 1] == outcomes[cut + 1..n - 1];
      RecoveryWasOpen(maxAttempts, results, |results| - 1);
      MendingFollows(rounds, maxAttempts, outcomes, cut, t, n - 1);
    }
  }

  lemma LostRoundEnds(rounds: nat, maxAttempts: int, outcomes: seq<bool>, cut: nat, t: nat)
    requires cut <= |outcomes| && LostRound(maxAttempts, outcomes[cut..])
    requires LegRun(rounds, maxAttempts, outcomes[..cut]) == Navigating(t)
    ensures LegRun(rounds, maxAttempts, outcomes) == if t + 1 < rounds then Navigating(t + 1) else GivenUp
  {
    var n := |outcomes|;
    var last := outcomes[cut..];
    assert outcomes[cut + 1..n - 1] == last[1..|last| - 1];
    MendingFollows(rounds, maxAttempts, outcomes, cut, t, n - 1);
    var results := last[1..];
    assert results[..|results| - 1] == outcomes[cut + 1..n - 1];
  }

  /** Reading lost rounds brings the leg to the next round, or to its end. */
  lemma {:induction false} LostRoundsLead(rounds: nat, maxAttempts: int, outcomes: seq<bool>, n: nat)
    requires 0 < n <= rounds && LostRounds(maxAttempts, outcomes, n)
    ensures LegRun(rounds, maxAttempts, outcomes) == if n < rounds then Navigating(n) else GivenUp
  {
    var cut: nat :| cut <= |outcomes|
      && LostRounds(maxAttempts, outcomes[..cut], n - 1) && LostRound(maxAttempts, outcomes[cut..]);
    if n > 1 {
      LostRoundsLead(rounds, maxAttempts, outcomes[..cut], n - 1);
    }
    LostRoundEnds(rounds, maxAttempts, outcomes, cut, n - 1);
  }

  lemma EndedStays(rounds: nat, maxAttempts: int, outcomes: seq<bool>, n: nat)
    requires n <= |outcomes| && Ended(LegRun(rounds, maxAttempts, outcomes[..n]))
    ensures LegRun(rounds, maxAttempts, outcomes) == LegRun(rounds, maxAttempts, outcomes[..n])
  {
    if n < |outcomes| {
      assert outcomes[..n] == outcomes[..|outcomes| - 1][..n];
      EndedStays(rounds, maxAttempts, outcomes[..|outcomes| - 1], n);
    } else {
      assert outcomes[..n] == outcomes;
    }
  }

  /** A leg is given up if and only if its stream begins with `rounds` lost rounds. */
  lemma LegFailsExactly(rounds: nat, maxAttempts: int, outcomes: seq<bool>)
    requires rounds > 0
    ensures LegRun(rounds, maxAttempts, outcomes).GivenUp? <==>
            exists n: nat :: n <= |outcomes| && LostRounds(maxAttempts, outcomes[..n], rounds)
  {
    var cut := LegMeans(rounds, maxAttempts, outcomes);
    if n: nat :| n <= |outcomes| && LostRounds(maxAttempts, outcomes[..n], rounds) {
      LostRoundsLead(rounds, maxAttempts, outcomes[..n], rounds);
      EndedStays(rounds, maxAttempts, outcomes, n);
    }
  }

  /** A leg that ends, if at all, on the last outcome of its stream is given up if and only if
      the stream is `rounds` lost rounds and nothing else. */
  lemma EndedOnLostRounds(rounds: nat, maxAttempts: int, outcomes: seq<bool>)
    requires rounds > 0
    requires outcomes == [] || !Ended(LegRun(rounds, maxAttempts, outcomes[..|outcomes| - 1]))
    ensures LegRun(rounds, maxAttempts, outcomes).GivenUp? <==> LostRounds(maxAttempts, outcomes, rounds)
  {
    var cut := LegMeans(rounds, maxAttempts, outcomes);
    if LegRun(rounds, maxAttempts, outcomes).GivenUp? {
      if cut < |outcomes| {
        var front := outcomes[..|outcomes| - 1];
        assert front[..cut] == outcomes[..cut];
        LostRoundsLead(rounds, maxAttempts, outcomes[..cut], rounds);
        EndedStays(rounds, maxAttempts, front, cut);
      }
      assert outcomes[..cut] == outcomes;
    } else if LostRounds(maxAttempts, outcomes, rounds) {
      LostRoundsLead(rounds, maxAttempts, outcomes, rounds);
    }
  }

  ghost predicate FewLostRounds(rounds: nat, maxAttempts: int, outcomes: seq<bool>) {
    exists n: nat :: n < rounds && LostRounds(maxAttempts, outcomes, n)
  }

  /** A leg that ends, if at all, on the last outcome of its stream passed by arriving if and only
      if that outcome is a navigation's: the stream before it is lost rounds, fewer than `rounds`.
      A leg that passed otherwise passed because a recovery succeeded, and nobody arrived. */
  lemma PassedByArriving(rounds: nat, maxAttempts: int, outcomes: seq<bool>)
    requires rounds > 0 && outcomes != []
    requires !Ended(LegRun(rounds, maxAttempts, outcomes[..|outcomes| - 1]))
    ensures LegRun(rounds, maxAttempts, outcomes) == Passed(true) <==>
            outcomes[|outcomes| - 1] && FewLostRounds(rounds, maxAttempts, outcomes[..|outcomes| - 1])
  {
    var front := outcomes[..|outcomes| - 1];
    var cut := LegMeans(rounds, maxAttempts, front);
    var l := LegRun(rounds, maxAttempts, front);
    if l.Navigating? {
      assert front[..cut] == front;
      assert LostRounds(maxAttempts, front, l.round);
    } else if n: nat :| n < rounds && LostRounds(maxAttempts, front, n) {
      if n > 0 {
        LostRoundsLead(rounds, maxAttempts, front, n);
      }
    }
  }

  lemma {:induction false} MoreRoundsMoreOutcomes(fewer: nat, rounds: nat, maxAttempts: int)
    requires fewer < rounds
    ensures Bound(fewer, maxAttempts) + 1 + 2 * Limit(maxAttempts) <= Bound(rounds, maxAttempts)
  {
    if fewer < rounds - 1 {
      MoreRoundsMoreOutcomes(fewer, rounds - 1, maxAttempts);
    }
  }

  /** Whatever the outcomes, a leg still going on has consumed fewer than `Bound` of them. */
  lemma LegIsShort(rounds: nat, maxAttempts: int, outcomes: seq<bool>)
    requires rounds > 0 && !Ended(LegRun(rounds, maxAttempts, outcomes))
    ensures |outcomes| < Bound(rounds, maxAttempts)
  {
    var l := LegRun(rounds, maxAttempts, outcomes);
    var cut := LegMeans(rounds, maxAttempts, outcomes);
    assert l.Navigating? ==> outcomes[..cut] == outcomes;
    LostRoundsAreShort(maxAttempts, outcomes[..cut], l.round);
    if l.Mending? {
      RecoveryIsShort(maxAttempts, outcomes[cut + 1..]);
    }
    MoreRoundsMoreOutcomes(l.round, rounds, maxAttempts);
  }
}
