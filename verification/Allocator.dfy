/** The task allocator: the idle robot with the least score, over an ordered map. */
module Allocator {
  import opened Options
  import opened AgentModel

  /** The order in which an ordered map walks its string keys. */
  predicate Before(a: string, b: string) {
    if b == [] then false
    else if a == [] then true
    else a[0] < b[0] || (a[0] == b[0] && Before(a[1..], b[1..]))
  }

  lemma BeforeTransitive(a: string, b: string, c: string)
    requires Before(a, b) && Before(b, c)
    ensures Before(a, c)
  {
  }

  lemma BeforeTotal(a: string, b: string)
    ensures a == b || Before(a, b) || Before(b, a)
  {
  }

  /** The first place at which two keys differ, or at which the shorter one ends, decides. */
  lemma BeforeMeans(a: string, b: string)
    ensures Before(a, b) <==>
            exists k: nat :: k <= |a| && k < |b| && a[..k] == b[..k] && (k == |a| || a[k] < b[k])
  {
    forall k: nat | 0 < k <= |a| && k <= |b| && a[..k] == b[..k] ensures a[0] == b[0] {
      assert a[..k][0] == b[..k][0];
    }
    if a != [] && b != [] && a[0] == b[0] {
      BeforeMeans(a[1..], b[1..]);
      if k: nat :| k <= |a[1..]| && k < |b[1..]| && a[1..][..k] == b[1..][..k] && (k == |a[1..]| || a[1..][k] < b[1..][k]) {
        assert a[..k + 1] == [a[0]] + a[1..][..k] && b[..k + 1] == [b[0]] + b[1..][..k];
      }
      if k: nat :| k <= |a| && k < |b| && a[..k] == b[..k] && (k == |a| || a[k] < b[k]) {
        assert a[1..][..k - 1] == a[..k][1..] && b[1..][..k - 1] == b[..k][1..];
      }
    } else {
      assert a[..0] == b[..0];
    }
  }

  predicate IsFirst(id: string, ids: set<string>) {
    id in ids && forall o :: o in ids && o != id ==> Before(id, o)
  }

  lemma FirstExists(ids: set<string>) returns (id: string)
    requires ids != {}
    ensures IsFirst(id, ids)
  {
    var x :| x in ids;
    if ids == {x} {
      id := x;
    } else {
      id := FirstExists(ids - {x});
      BeforeTotal(x, id);
      if Before(x, id) {
        forall o | o in ids && o != x ensures Before(x, o) {
          if o != id {
            BeforeTransitive(x, id, o);
          }
        }
        id := x;
      }
    }
  }

  /** The next key an ordered map hands out. */
  method TakeFirst(ids: set<string>) returns (id: string)
    requires ids != {}
    ensures IsFirst(id, ids)
  {
    ghost var first := FirstExists(ids);
    id :| id in ids && IsFirst(id, ids);
  }

  /** Every robot seen comes before every robot left. */
  ghost predicate InOrder(seen: set<string>, remaining: set<string>) {
    forall a, b :: a in seen && b in remaining ==> Before(a, b)
  }

  lemma OrderKept(seen: set<string>, remaining: set<string>, id: string)
    requires InOrder(seen, remaining) && IsFirst(id, remaining)
    ensures InOrder(seen + {id}, remaining - {id})
  {
  }

  /** What the allocator is configured with: the weight of a missing percent of charge, the
      square root it measures distances with, and the score it starts from, the largest double. */
  datatype Scoring = Scoring(socWeight: real, sqrt: real -> real, ceiling: real)

  type Fleet = map<string, RobotStatus>

  function Root(sc: Scoring, x: real): real { sc.sqrt(x) }

  /** The square of the distance to the pick place. */
  function SquaredDistance(pose: Point, pick: Point): real {
    var dx := pick.x - pose.x;
    var dy := pick.y - pose.y;
    dx * dx + dy * dy
  }

  function Score(sc: Scoring, s: RobotStatus, pick: Point): real {
    Root(sc, SquaredDistance(s.pose, pick)) + (100.0 - s.soc) * sc.socWeight
  }

  predicate Eligible(sc: Scoring, s: RobotStatus, pick: Point) {
    s.state.Idle? && Score(sc, s, pick) < sc.ceiling
  }

  /** Robot `a` with status `s` is preferred to robot `b` with status `t`. */
  predicate Preferred(sc: Scoring, pick: Point, a: string, s: RobotStatus, b: string, t: RobotStatus) {
    Score(sc, s, pick) < Score(sc, t, pick) || (Score(sc, s, pick) == Score(sc, t, pick) && Before(a, b))
  }

  /** Among `ids`, the robot is eligible and preferred to every other eligible one. */
  ghost predicate WinsAmong(sc: Scoring, robots: Fleet, pick: Point, ids: set<string>, id: string)
    requires ids <= robots.Keys
  {
    && id in ids && Eligible(sc, robots[id], pick)
    && forall o :: o in ids && o != id && Eligible(sc, robots[o], pick) ==>
         Preferred(sc, pick, id, robots[id], o, robots[o])
  }

  ghost predicate Wins(sc: Scoring, robots: Fleet, pick: Point, id: string) {
    WinsAmong(sc, robots, pick, robots.Keys, id)
  }

  /** The robot chosen: the winner, unless its id is empty, which reads as no choice. */
  ghost predicate Chooses(sc: Scoring, robots: Fleet, pick: Point, choice: Option<string>) {
    match choice
    case Some(id) => id != "" && Wins(sc, robots, pick, id)
    case None => Wins(sc, robots, pick, "") || forall id :: id in robots ==> !Eligible(sc, robots[id], pick)
  }

  /** What the loop has found among the robots it has seen: nothing yet, or the best of them. */
  ghost predicate BestSoFar(sc: Scoring, robots: Fleet, pick: Point, seen: set<string>, best: string, score: real)
    requires seen <= robots.Keys
  {
    || (best == "" && score == sc.ceiling && forall o :: o in seen ==> !Eligible(sc, robots[o], pick))
    || (WinsAmong(sc, robots, pick, seen, best) && score == Score(sc, robots[best], pick))
  }

  /** Looking at one more robot, later in the order than all seen. */
  lemma SeesOneMore(sc: Scoring, robots: Fleet, pick: Point, seen: set<string>, best: string, score: real, id: string)
    requires seen <= robots.Keys && id in robots && id !in seen && BestSoFar(sc, robots, pick, seen, best, score)
    requires forall a :: a in seen ==> Before(a, id)
    ensures var s := robots[id];
            if s.state.Idle? && Score(sc, s, pick) < score
            then BestSoFar(sc, robots, pick, seen + {id}, id, Score(sc, s, pick))
            else BestSoFar(sc, robots, pick, seen + {id}, best, score)
  {
  }

  /** The loop chooses the winner. If no robot reports under the empty name, it chooses one if and
      only if some robot is idle with a score below the ceiling. */
  method SelectBestRobot(robots: Fleet, pick: Point, sc: Scoring) returns (best: Option<(string, real)>)
    ensures Chooses(sc, robots, pick, if best.Some? then Some(best.value.0) else None)
    ensures best.Some? ==>
              var winner := robots[best.value.0];
              var dx, dy := pick.x - winner.pose.x, pick.y - winner.pose.y;
              && winner.state.Idle?
              && SquaredDistance(winner.pose, pick) == dx * dx + dy * dy
              && best.value.1 == Root(sc, SquaredDistance(winner.pose, pick)) + (100.0 - winner.soc) * sc.socWeight
              && best.value.1 < sc.ceiling
    ensures "" !in robots ==> (best.Some? <==> exists id :: id in robots && Eligible(sc, robots[id], pick))
  {
    var bestRobot, bestScore := "", sc.ceiling;
    var remaining := robots.Keys;
    ghost var seen: set<string> := {};
    while remaining != {}
      invariant seen <= robots.Keys && remaining == robots.Keys - seen
      invariant InOrder(seen, remaining)
      invariant BestSoFar(sc, robots, pick, seen, bestRobot, bestScore)
      decreases |remaining|
    {
      var id := TakeFirst(remaining);
      var status := robots[id];
      OrderKept(seen, remaining, id);
      SeesOneMore(sc, robots, pick, seen, bestRobot, bestScore, id);
      remaining, seen := remaining - {id}, seen + {id};
      if status.state.Idle? {
        var score := Score(sc, status, pick);
        if score < bestScore {
          bestScore, bestRobot := score, id;
        }
      }
    }
    assert seen == robots.Keys;
    if bestRobot == "" {
      return None;
    }
    return Some((bestRobot, bestScore));
  }

  lemma BeforeAsymmetric(x: string, y: string)
    ensures !(Before(x, y) && Before(y, x))
  {
  }

  /** The choice is a function of the map. */
  lemma ChoiceIsUnique(sc: Scoring, robots: Fleet, pick: Point, a: Option<string>, b: Option<string>)
    requires Chooses(sc, robots, pick, a) && Chooses(sc, robots, pick, b)
    ensures a == b
  {
    forall x, y | Wins(sc, robots, pick, x) && Wins(sc, robots, pick, y) ensures x == y {
      if x != y {
        assert Preferred(sc, pick, x, robots[x], y, robots[y]) && Preferred(sc, pick, y, robots[y], x, robots[x]);
        BeforeAsymmetric(x, y);
      }
    }
  }

  lemma PreferredTransitive(sc: Scoring, pick: Point, robots: Fleet, a: string, b: string, c: string)
    requires a in robots && b in robots && c in robots
    requires Preferred(sc, pick, a, robots[a], b, robots[b]) && Preferred(sc, pick, b, robots[b], c, robots[c])
    ensures Preferred(sc, pick, a, robots[a], c, robots[c])
  {
    if Before(a, b) && Before(b, c) {
      BeforeTransitive(a, b, c);
    }
  }

  lemma BestAmong(sc: Scoring, robots: Fleet, pick: Point, ids: set<string>) returns (best: Option<string>)
    requires ids <= robots.Keys
    ensures match best
            case None => forall id :: id in ids ==> !Eligible(sc, robots[id], pick)
            case Some(id) => WinsAmong(sc, robots, pick, ids, id)
  {
    best := None;
    if ids != {} {
      var x :| x in ids;
      best := BestAmong(sc, robots, pick, ids - {x});
      if Eligible(sc, robots[x], pick) {
        if best == None {
          best := Some(x);
        } else {
          var b := best.value;
          BeforeTotal(x, b);
          if Preferred(sc, pick, x, robots[x], b, robots[b]) {
            forall o | o in ids && o != x && Eligible(sc, robots[o], pick)
              ensures Preferred(sc, pick, x, robots[x], o, robots[o])
            {
              if o != b {
                PreferredTransitive(sc, pick, robots, x, b, o);
              }
            }
            best := Some(x);
          }
        }
      }
    }
  }

  /** Every map has a choice. */
  lemma ChoiceExists(sc: Scoring, robots: Fleet, pick: Point)
    ensures exists choice :: Chooses(sc, robots, pick, choice)
  {
    var best := BestAmong(sc, robots, pick, robots.Keys);
    assert Chooses(sc, robots, pick, if best == Some("") then None else best);
  }

  /** Only a robot that is itself preferred can take the choice away: whatever status another
      robot comes to report, the winner stays if and only if that status is not eligible or not
      preferred. */
  lemma OthersDoNotMatter(sc: Scoring, robots: Fleet, pick: Point, id: string, o: string, s: RobotStatus)
    requires Wins(sc, robots, pick, id) && o != id
    ensures Wins(sc, robots[o := s], pick, id)
            <==> !(Eligible(sc, s, pick) && Preferred(sc, pick, o, s, id, robots[id]))
    ensures Wins(sc, robots - {o}, pick, id)
  {
    BeforeTotal(o, id);
    BeforeAsymmetric(o, id);
    assert robots[o := s][o] == s;
  }

  // ---------------------------------------------------------------------------
  // What the choice prefers
  // ---------------------------------------------------------------------------

  lemma SmallerProduct(x: real, y: real, w: real)
    requires x * w <= y * w && w > 0.0
    ensures x <= y
  {
    assert y < x ==> (x - y) * w > 0.0;
  }

  /** What the weight makes of the charge. */
  function Missing(sc: Scoring, s: RobotStatus): real { (100.0 - s.soc) * sc.socWeight }

  lemma ScoreAdds(sc: Scoring, s: RobotStatus, pick: Point)
    ensures Score(sc, s, pick) == Root(sc, SquaredDistance(s.pose, pick)) + Missing(sc, s)
  {
  }

  lemma MissingLess(sc: Scoring, a: RobotStatus, b: RobotStatus)
    requires sc.socWeight > 0.0 && Missing(sc, a) <= Missing(sc, b)
    ensures a.soc >= b.soc
  {
    SmallerProduct(100.0 - a.soc, 100.0 - b.soc, sc.socWeight);
  }

  /** At one place a score that is not greater means a charge that is not less. */
  lemma FullerAtPlace(sc: Scoring, a: RobotStatus, b: RobotStatus, pick: Point)
    requires a.pose == b.pose && sc.socWeight > 0.0 && Score(sc, a, pick) <= Score(sc, b, pick)
    ensures a.soc >= b.soc
  {
    ScoreAdds(sc, a, pick);
    ScoreAdds(sc, b, pick);
    MissingLess(sc, a, b);
  }

  lemma SameScore(sc: Scoring, a: RobotStatus, b: RobotStatus, pick: Point)
    requires a.pose == b.pose && a.soc == b.soc
    ensures Score(sc, a, pick) == Score(sc, b, pick)
  {
  }

  /** With a positive weight the winner is never less charged than another eligible robot at the same
      place; and among equals it has the least name. */
  lemma FullerIsChosen(sc: Scoring, robots: Fleet, pick: Point, id: string, o: string)
    requires sc.socWeight > 0.0 && Wins(sc, robots, pick, id) && o in robots && Eligible(sc, robots[o], pick)
    requires robots[o].pose == robots[id].pose
    ensures robots[id].soc >= robots[o].soc
    ensures o != id && robots[id].soc == robots[o].soc ==> Before(id, o)
  {
    if o != id {
      assert Preferred(sc, pick, id, robots[id], o, robots[o]);
      FullerAtPlace(sc, robots[id], robots[o], pick);
      if robots[id].soc == robots[o].soc {
        SameScore(sc, robots[id], robots[o], pick);
      }
    }
  }

  /** A square root that grows with its argument. */
  ghost predicate Growing(sc: Scoring) {
    forall x, y :: 0.0 <= x < y ==> Root(sc, x) < Root(sc, y)
  }

  lemma SmallerRoot(sc: Scoring, x: real, y: real)
    requires Growing(sc) && y >= 0.0 && Root(sc, x) <= Root(sc, y)
    ensures x <= y
  {
    assert y < x ==> Root(sc, y) < Root(sc, x);
  }

  lemma SquaredDistanceIsNotNegative(pose: Point, pick: Point)
    ensures SquaredDistance(pose, pick) >= 0.0
  {
  }

  lemma SameMissing(sc: Scoring, a: RobotStatus, b: RobotStatus)
    requires a.soc == b.soc
    ensures Missing(sc, a) == Missing(sc, b)
  {
  }

  /** Among equally charged eligible robots the winner is nearest to the pick place. */
  lemma NearestIsChosen(sc: Scoring, robots: Fleet, pick: Point, id: string, o: string)
    requires Growing(sc) && Wins(sc, robots, pick, id) && o in robots && Eligible(sc, robots[o], pick)
    requires robots[o].soc == robots[id].soc
    ensures SquaredDistance(robots[id].pose, pick) <= SquaredDistance(robots[o].pose, pick)
  {
    if o != id {
      var a, b := robots[id], robots[o];
      assert Preferred(sc, pick, id, a, o, b);
      ScoreAdds(sc, a, pick);
      ScoreAdds(sc, b, pick);
      SameMissing(sc, a, b);
      SquaredDistanceIsNotNegative(b.pose, pick);
      SmallerRoot(sc, SquaredDistance(a.pose, pick), SquaredDistance(b.pose, pick));
    }
  }
}
