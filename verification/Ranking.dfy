/** ETA ranking with a capped priority bonus (`ride/application/matching_service.py`,
    `ride/domain/priority.py`). */
module Ranking {
  import opened Prelude

  datatype PriorityPolicy = PriorityPolicy(secondsPerPoint: nat, cap: nat)

  /** Positive points shave seconds off the ETA, negative points add some; only the positive side is
      capped, and a driver without a score gets nothing. */
  function Bonus(p: PriorityPolicy, points: map<Id, int>, driver: Id): int {
    if driver in points then Min(points[driver] * p.secondsPerPoint, p.cap) else 0
  }

  /** What the dispatcher knows when it ranks: the ETAs it could compute, and the scores. */
  datatype View = View(policy: PriorityPolicy, etas: map<Id, int>, points: map<Id, int>)

  function Effective(v: View, driver: Id): int {
    (if driver in v.etas then v.etas[driver] else 0) - Bonus(v.policy, v.points, driver)
  }

  /** The shortlisted drivers with an ETA, nearest first, and those without. */
  function Timed(v: View, eligible: seq<Id>): seq<Id> {
    if |eligible| == 0 then []
    else
      var last := eligible[|eligible| - 1];
      Timed(v, eligible[..|eligible| - 1]) + if last in v.etas then [last] else []
  }

  function Untimed(v: View, eligible: seq<Id>): seq<Id> {
    if |eligible| == 0 then []
    else
      var last := eligible[|eligible| - 1];
      Untimed(v, eligible[..|eligible| - 1]) + if last in v.etas then [] else [last]
  }

  /** `list.sort`: stable, ascending by effective ETA. */
  function Insert(v: View, sorted: seq<Id>, driver: Id): seq<Id> {
    if |sorted| == 0 then [driver]
    else
      var n := |sorted| - 1;
      if Effective(v, sorted[n]) <= Effective(v, driver) then sorted + [driver]
      else Insert(v, sorted[..n], driver) + [sorted[n]]
  }

  function StableSort(v: View, drivers: seq<Id>): seq<Id> {
    if |drivers| == 0 then []
    else Insert(v, StableSort(v, drivers[..|drivers| - 1]), drivers[|drivers| - 1])
  }

  function Rank(v: View, enabled: bool, eligible: seq<Id>): seq<Id> {
    if !enabled || |eligible| <= 1 then eligible
    else if Timed(v, eligible) == [] then eligible
    else StableSort(v, Timed(v, eligible)) + Untimed(v, eligible)
  }

  method RankByEta(v: View, enabled: bool, eligible: seq<Id>) returns (ranked: seq<Id>)
    ensures ranked == Rank(v, enabled, eligible)
  {
    if !enabled || |eligible| <= 1 {
      return eligible;
    }
    var timed, untimed := [], [];
    for i := 0 to |eligible|
      invariant timed == Timed(v, eligible[..i]) && untimed == Untimed(v, eligible[..i])
    {
      assert eligible[..i + 1][..i] == eligible[..i];
      if eligible[i] in v.etas {
        timed := timed + [eligible[i]];
      } else {
        untimed := untimed + [eligible[i]];
      }
    }
    assert eligible[..|eligible|] == eligible;
    if timed == [] {
      return eligible;
    }
    timed := StableSort(v, timed);
    ranked := timed + untimed;
  }

  // ---------------------------------------------------------------- order

  ghost predicate NoDup(s: seq<Id>) {
    forall i, j | 0 <= i < j < |s| :: s[i] != s[j]
  }

  /** Strict order of the ranking: smaller effective ETA first, then nearer first. */
  ghost predicate Before(v: View, drivers: seq<Id>, x: Id, y: Id) {
    || Effective(v, x) < Effective(v, y)
    || (Effective(v, x) == Effective(v, y) && exists i, j | 0 <= i < j < |drivers| ::
        drivers[i] == x && drivers[j] == y)
  }

  ghost predicate InOrder(v: View, drivers: seq<Id>, s: seq<Id>) {
    forall i, j | 0 <= i < j < |s| :: Before(v, drivers, s[i], s[j])
  }

  lemma BeforeGrows(v: View, drivers: seq<Id>, more: seq<Id>, x: Id, y: Id)
    requires Before(v, drivers, x, y)
    ensures Before(v, drivers + more, x, y)
  {
    if Effective(v, x) == Effective(v, y) {
      var i, j :| 0 <= i < j < |drivers| && drivers[i] == x && drivers[j] == y;
      assert (drivers + more)[i] == x && (drivers + more)[j] == y;
    }
  }

  lemma {:induction false} InsertPermutes(v: View, sorted: seq<Id>, driver: Id)
    ensures multiset(Insert(v, sorted, driver)) == multiset(sorted) + multiset{driver}
  {
    if |sorted| > 0 {
      var n := |sorted| - 1;
      assert sorted == sorted[..n] + [sorted[n]];
      if Effective(v, sorted[n]) > Effective(v, driver) {
        InsertPermutes(v, sorted[..n], driver);
      }
    }
  }

  lemma {:induction false} SortPermutes(v: View, drivers: seq<Id>)
    ensures multiset(StableSort(v, drivers)) == multiset(drivers)
  {
    if |drivers| > 0 {
      var early, last := drivers[..|drivers| - 1], drivers[|drivers| - 1];
      SortPermutes(v, early);
      InsertPermutes(v, StableSort(v, early), last);
      assert drivers == early + [last];
    }
  }

  lemma SameMembers(s: seq<Id>, t: seq<Id>)
    requires multiset(s) == multiset(t)
    ensures forall x :: x in s <==> x in t
    ensures |s| == |t|
  {
    forall x ensures x in s <==> x in t {
      assert x in s <==> x in multiset(s);
      assert x in t <==> x in multiset(t);
    }
    assert |multiset(s)| == |s| && |multiset(t)| == |t|;
  }

  lemma {:induction false} InsertInOrder(v: View, early: seq<Id>, sorted: seq<Id>, driver: Id)
    requires InOrder(v, early, sorted) && (forall x | x in sorted :: x in early) && driver !in early
    ensures InOrder(v, early + [driver], Insert(v, sorted, driver))
  {
    var all := early + [driver];
    forall i, j | 0 <= i < j < |sorted| ensures Before(v, all, sorted[i], sorted[j]) {
      BeforeGrows(v, early, [driver], sorted[i], sorted[j]);
    }
    if |sorted| > 0 {
      var n := |sorted| - 1;
      if Effective(v, sorted[n]) <= Effective(v, driver) {
        forall i | 0 <= i <= n ensures Before(v, all, sorted[i], driver) {
          LastComesAfter(v, early, sorted, i, driver);
        }
      } else {
        InsertInOrder(v, early, sorted[..n], driver);
        InsertPermutes(v, sorted[..n], driver);
        var r := Insert(v, sorted[..n], driver);
        forall i | 0 <= i < |r| ensures Before(v, all, r[i], sorted[n]) {
          InsertMembers(v, sorted[..n], driver);
          assert r[i] in r;
          assert r[i] == driver || r[i] in sorted[..n];
        }
      }
    }
  }

  lemma InsertMembers(v: View, sorted: seq<Id>, driver: Id)
    ensures forall x | x in Insert(v, sorted, driver) :: x == driver || x in sorted
  {
    InsertPermutes(v, sorted, driver);
    forall x | x in Insert(v, sorted, driver) ensures x == driver || x in sorted {
      assert x in multiset(Insert(v, sorted, driver));
    }
  }

  /** A new driver goes behind everyone not slower than them. */
  lemma LastComesAfter(v: View, early: seq<Id>, sorted: seq<Id>, i: nat, driver: Id)
    requires InOrder(v, early, sorted) && (forall x | x in sorted :: x in early) && i < |sorted|
    requires Effective(v, sorted[|sorted| - 1]) <= Effective(v, driver)
    ensures Before(v, early + [driver], sorted[i], driver)
  {
    var n := |sorted| - 1;
    assert i < n ==> Before(v, early, sorted[i], sorted[n]);
    assert sorted[i] in early;
    var k :| 0 <= k < |early| && early[k] == sorted[i];
    assert (early + [driver])[k] == sorted[i] && (early + [driver])[|early|] == driver;
  }

  /** The sort is strictly ordered: by effective ETA, ties by distance rank. */
  lemma {:induction false} SortInOrder(v: View, drivers: seq<Id>)
    requires NoDup(drivers)
    ensures InOrder(v, drivers, StableSort(v, drivers))
  {
    if |drivers| > 0 {
      var early, last := drivers[..|drivers| - 1], drivers[|drivers| - 1];
      SortInOrder(v, early);
      SortPermutes(v, early);
      SameMembers(StableSort(v, early), early);
      InsertInOrder(v, early, StableSort(v, early), last);
      assert drivers == early + [last];
    }
  }

  lemma {:induction false} SplitPermutes(v: View, eligible: seq<Id>)
    ensures multiset(Timed(v, eligible)) + multiset(Untimed(v, eligible)) == multiset(eligible)
  {
    if |eligible| > 0 {
      var early, last := eligible[..|eligible| - 1], eligible[|eligible| - 1];
      SplitPermutes(v, early);
      OneMore(early, last);
      OneMore(Timed(v, early), last);
      OneMore(Untimed(v, early), last);
      assert eligible == early + [last];
    }
  }

  lemma OneMore(s: seq<Id>, x: Id)
    ensures multiset(s + [x]) == multiset(s) + multiset{x} && s + [] == s
  {
  }

  lemma {:induction false} SplitMembers(v: View, eligible: seq<Id>, x: Id)
    ensures x in Timed(v, eligible) <==> x in eligible && x in v.etas
    ensures x in Untimed(v, eligible) <==> x in eligible && x !in v.etas
  {
    if |eligible| > 0 {
      var n := |eligible| - 1;
      SplitMembers(v, eligible[..n], x);
      assert eligible == eligible[..n] + [eligible[n]];
    }
  }

  lemma {:induction false} TimedNoDup(v: View, eligible: seq<Id>)
    requires NoDup(eligible)
    ensures NoDup(Timed(v, eligible))
  {
    if |eligible| > 0 {
      var n := |eligible| - 1;
      TimedNoDup(v, eligible[..n]);
      SplitMembers(v, eligible[..n], eligible[n]);
      assert eligible[n] !in eligible[..n];
    }
  }

  lemma {:induction false} UntimedNoDup(v: View, eligible: seq<Id>)
    requires NoDup(eligible)
    ensures NoDup(Untimed(v, eligible))
  {
    if |eligible| > 0 {
      var n := |eligible| - 1;
      UntimedNoDup(v, eligible[..n]);
      SplitMembers(v, eligible[..n], eligible[n]);
      assert eligible[n] !in eligible[..n];
    }
  }

  /** The drivers with an ETA fill the front of the ranking. */
  lemma RankHead(v: View, eligible: seq<Id>, k: nat)
    requires k < |Rank(v, true, eligible)|
    ensures |eligible| > 1 ==> (Rank(v, true, eligible)[k] in v.etas <==> k < |Timed(v, eligible)|)
    ensures |StableSort(v, Timed(v, eligible))| == |Timed(v, eligible)|
  {
    var timed := Timed(v, eligible);
    var sorted, untimed := StableSort(v, timed), Untimed(v, eligible);
    SortPermutes(v, timed);
    SameMembers(sorted, timed);
    var x := Rank(v, true, eligible)[k];
    SplitMembers(v, eligible, x);
    if |eligible| > 1 && timed != [] {
      if k < |sorted| {
        assert sorted[k] in sorted;
      } else {
        assert untimed[k - |sorted|] in untimed;
      }
    } else {
      assert eligible[k] in eligible;
    }
  }

  // ---------------------------------------------------------------- theorems

  /** The ranking is a permutation of the shortlist. */
  lemma RankPermutes(v: View, enabled: bool, eligible: seq<Id>)
    ensures multiset(Rank(v, enabled, eligible)) == multiset(eligible)
  {
    SplitPermutes(v, eligible);
    SortPermutes(v, Timed(v, eligible));
  }

  /** Two drivers with an ETA stand in order of effective ETA, ties in distance order. */
  lemma TimedInOrder(v: View, eligible: seq<Id>, i: nat, j: nat)
    requires NoDup(eligible) && |eligible| > 1 && i < j < |Timed(v, eligible)|
    ensures |Rank(v, true, eligible)| > j
    ensures Before(v, Timed(v, eligible), Rank(v, true, eligible)[i], Rank(v, true, eligible)[j])
  {
    var timed := Timed(v, eligible);
    TimedNoDup(v, eligible);
    SortPermutes(v, timed);
    SameMembers(StableSort(v, timed), timed);
    SortInOrder(v, timed);
  }

  lemma SortSize(v: View, drivers: seq<Id>)
    ensures |StableSort(v, drivers)| == |drivers|
  {
    SortPermutes(v, drivers);
    assert |multiset(StableSort(v, drivers))| == |multiset(drivers)|;
  }

  /** Behind the timed drivers the ranking is the untimed list. */
  lemma RankTail(v: View, eligible: seq<Id>, i: nat)
    requires Timed(v, eligible) != [] && |eligible| > 1 && |Timed(v, eligible)| <= i < |Rank(v, true, eligible)|
    ensures i - |Timed(v, eligible)| < |Untimed(v, eligible)|
    ensures Rank(v, true, eligible)[i] == Untimed(v, eligible)[i - |Timed(v, eligible)|]
  {
    SortSize(v, Timed(v, eligible));
  }

  /** Two drivers without an ETA keep their distance order. */
  lemma UntimedInOrder(v: View, eligible: seq<Id>, i: nat, j: nat)
    requires |Timed(v, eligible)| <= i < j < |Rank(v, true, eligible)|
    ensures Nearer(eligible, Rank(v, true, eligible)[i], Rank(v, true, eligible)[j])
  {
    var k := |Timed(v, eligible)|;
    if |eligible| > 1 && k > 0 {
      RankTail(v, eligible, i);
      RankTail(v, eligible, j);
      UntimedKeepsOrder(v, eligible, i - k, j - k);
    } else {
      NearerAt(eligible, i, j);
    }
  }

  lemma NearerAt(eligible: seq<Id>, i: nat, j: nat)
    requires i < j < |eligible|
    ensures Nearer(eligible, eligible[i], eligible[j])
  {
  }

  /** Timed drivers come first in order of effective ETA; the others follow in distance order. */
  lemma RankShape(v: View, eligible: seq<Id>, i: nat, j: nat)
    requires NoDup(eligible) && i < j < |Rank(v, true, eligible)|
    ensures var r := Rank(v, true, eligible);
            && (r[j] in v.etas ==> r[i] in v.etas && Before(v, Timed(v, eligible), r[i], r[j]))
            && (r[i] !in v.etas ==> Nearer(eligible, r[i], r[j]))
  {
    RankSize(v, eligible);
    RankHead(v, eligible, i);
    RankHead(v, eligible, j);
    if j < |Timed(v, eligible)| {
      TimedInOrder(v, eligible, i, j);
    } else if |Timed(v, eligible)| <= i {
      UntimedInOrder(v, eligible, i, j);
    }
  }

  lemma RankSize(v: View, eligible: seq<Id>)
    ensures |Rank(v, true, eligible)| == |eligible|
  {
    RankPermutes(v, true, eligible);
    assert |multiset(Rank(v, true, eligible))| == |multiset(eligible)|;
  }

  ghost predicate Nearer(eligible: seq<Id>, x: Id, y: Id) {
    exists a, b | 0 <= a < b < |eligible| :: eligible[a] == x && eligible[b] == y
  }

  lemma {:induction false} UntimedKeepsOrder(v: View, eligible: seq<Id>, i: nat, j: nat)
    requires i < j < |Untimed(v, eligible)|
    ensures Nearer(eligible, Untimed(v, eligible)[i], Untimed(v, eligible)[j])
  {
    var n := |eligible| - 1;
    var early := Untimed(v, eligible[..n]);
    if j < |early| {
      UntimedKeepsOrder(v, eligible[..n], i, j);
      var a, b :| 0 <= a < b < n && eligible[..n][a] == early[i] && eligible[..n][b] == early[j];
      assert eligible[a] == early[i] && eligible[b] == early[j];
    } else {
      SplitMembers(v, eligible[..n], early[i]);
      assert early[i] in early;
      assert early[i] in eligible[..n];
      var a :| 0 <= a < n && eligible[..n][a] == early[i];
      assert eligible[a] == early[i] && eligible[n] == Untimed(v, eligible)[j];
    }
  }

  lemma {:induction false} TimedKeepsOrder(v: View, eligible: seq<Id>, i: nat, j: nat)
    requires i < j < |Timed(v, eligible)|
    ensures Nearer(eligible, Timed(v, eligible)[i], Timed(v, eligible)[j])
  {
    var n := |eligible| - 1;
    var early := Timed(v, eligible[..n]);
    if j < |early| {
      TimedKeepsOrder(v, eligible[..n], i, j);
      var a, b :| 0 <= a < b < n && eligible[..n][a] == early[i] && eligible[..n][b] == early[j];
      assert eligible[a] == early[i] && eligible[b] == early[j];
    } else {
      SplitMembers(v, eligible[..n], early[i]);
      assert early[i] in early;
      assert early[i] in eligible[..n];
      var a :| 0 <= a < n && eligible[..n][a] == early[i];
      assert eligible[a] == early[i] && eligible[n] == Timed(v, eligible)[j];
    }
  }

  lemma NearerIsStrict(eligible: seq<Id>, x: Id, y: Id)
    requires NoDup(eligible)
    ensures Nearer(eligible, x, y) ==> !Nearer(eligible, y, x)
  {
  }

  /** The seconds a driver is ranked by: the ETA less the rating's seconds, of which only an advantage is capped. */
  ghost predicate RankedBy(v: View, x: Id, seconds: int) {
    && x in v.etas
    && var points := if x in v.points then v.points[x] else 0;
       var worth := points * v.policy.secondsPerPoint;
       seconds == v.etas[x] - (if worth <= v.policy.cap then worth else v.policy.cap)
  }

  lemma RankedByEffective(v: View, x: Id)
    requires x in v.etas
    ensures RankedBy(v, x, Effective(v, x))
  {
    assert 0 * v.policy.secondsPerPoint == 0;
  }

  /** The whole order of the timed drivers, in plain arithmetic: one stands ahead of another exactly when
      its ETA less its capped rating is smaller, or equal and it is nearer. */
  lemma RankOrderExactly(v: View, eligible: seq<Id>, i: nat, j: nat, a: int, b: int)
    requires NoDup(eligible) && i < |Rank(v, true, eligible)| && j < |Rank(v, true, eligible)| && i != j
    requires RankedBy(v, Rank(v, true, eligible)[i], a) && RankedBy(v, Rank(v, true, eligible)[j], b)
    ensures var r := Rank(v, true, eligible); i < j <==> a < b || (a == b && Nearer(eligible, r[i], r[j]))
  {
    var r := Rank(v, true, eligible);
    RankedByEffective(v, r[i]);
    RankedByEffective(v, r[j]);
    NearerIsStrict(eligible, r[i], r[j]);
    if i < j {
      AheadInShortlist(v, eligible, i, j);
    } else {
      AheadInShortlist(v, eligible, j, i);
    }
  }

  lemma AheadInShortlist(v: View, eligible: seq<Id>, i: nat, j: nat)
    requires NoDup(eligible) && i < j < |Rank(v, true, eligible)| && Rank(v, true, eligible)[j] in v.etas
    ensures var r := Rank(v, true, eligible);
            || Effective(v, r[i]) < Effective(v, r[j])
            || (Effective(v, r[i]) == Effective(v, r[j]) && Nearer(eligible, r[i], r[j]))
  {
    var r, timed := Rank(v, true, eligible), Timed(v, eligible);
    RankShape(v, eligible, i, j);
    if Effective(v, r[i]) == Effective(v, r[j]) {
      var a, b :| 0 <= a < b < |timed| && timed[a] == r[i] && timed[b] == r[j];
      TimedKeepsOrder(v, eligible, a, b);
    }
  }

  /** A rated driver overtakes an unrated one who is ahead by less than the rating is worth, up to the cap. */
  lemma PointsOvertake(v: View, eligible: seq<Id>, i: nat, j: nat)
    requires NoDup(eligible) && i < |Rank(v, true, eligible)| && j < |Rank(v, true, eligible)|
    requires var r := Rank(v, true, eligible);
             r[i] in v.etas && r[j] in v.etas && r[i] in v.points && r[j] !in v.points
             && v.etas[r[i]] - v.etas[r[j]] < v.points[r[i]] * v.policy.secondsPerPoint
             && v.etas[r[i]] - v.etas[r[j]] < v.policy.cap
    ensures i < j
  {
    var r := Rank(v, true, eligible);
    RankedByEffective(v, r[i]);
    RankedByEffective(v, r[j]);
    assert 0 * v.policy.secondsPerPoint == 0;
    if i != j {
      RankOrderExactly(v, eligible, i, j, Effective(v, r[i]), Effective(v, r[j]));
    }
  }

  /** A negative rating costs all its seconds: an unrated driver who is behind by less stands ahead. */
  lemma NegativePointsCost(v: View, eligible: seq<Id>, i: nat, j: nat)
    requires NoDup(eligible) && i < |Rank(v, true, eligible)| && j < |Rank(v, true, eligible)|
    requires var r := Rank(v, true, eligible);
             r[i] in v.etas && r[j] in v.etas && r[i] !in v.points && r[j] in v.points && v.points[r[j]] < 0
             && v.etas[r[i]] - v.etas[r[j]] < -v.points[r[j]] * v.policy.secondsPerPoint
    ensures i < j
  {
    var r := Rank(v, true, eligible);
    RankedByEffective(v, r[i]);
    RankedByEffective(v, r[j]);
    assert 0 * v.policy.secondsPerPoint == 0;
    assert v.points[r[j]] * v.policy.secondsPerPoint <= 0;
    if i != j {
      RankOrderExactly(v, eligible, i, j, Effective(v, r[i]), Effective(v, r[j]));
    }
  }

  /** Without ranking, or without a single ETA, the distance order stands. */
  lemma DistanceOrderStands(v: View, enabled: bool, eligible: seq<Id>)
    requires !enabled || forall x | x in eligible :: x !in v.etas
    ensures Rank(v, enabled, eligible) == eligible
  {
    if Timed(v, eligible) != [] {
      SplitMembers(v, eligible, Timed(v, eligible)[0]);
    }
  }

  /** Proximity dominates: a driver with an ETA and no score, or no negative score, is never placed
      behind one whose ETA is more than the cap longer. */
  lemma CapKeepsProximity(v: View, eligible: seq<Id>, i: nat, j: nat)
    requires NoDup(eligible) && i < |Rank(v, true, eligible)| && j < |Rank(v, true, eligible)|
    requires var r := Rank(v, true, eligible);
             r[i] in v.etas && r[j] in v.etas
             && (r[i] in v.points ==> v.points[r[i]] >= 0)
             && v.etas[r[j]] > v.etas[r[i]] + v.policy.cap
    ensures i < j
  {
    var r := Rank(v, true, eligible);
    if j < i {
      RankShape(v, eligible, j, i);
    }
    NonNegativeBonus(v.policy, v.points, r[i]);
  }

  lemma NonNegativeBonus(p: PriorityPolicy, points: map<Id, int>, driver: Id)
    requires driver in points ==> points[driver] >= 0
    ensures 0 <= Bonus(p, points, driver) <= p.cap
  {
    if driver in points {
      assert points[driver] * p.secondsPerPoint >= 0;
    }
  }

  // ---------------------------------------------------------------- monotonicity

  function Members(s: seq<Id>): set<Id> {
    set x | x in s
  }

  lemma {:induction false} MembersCount(s: seq<Id>)
    requires NoDup(s)
    ensures |Members(s)| == |s|
  {
    if |s| > 0 {
      var n := |s| - 1;
      MembersCount(s[..n]);
      assert Members(s) == Members(s[..n]) + {s[n]};
    }
  }

  /** In the sorted list, the drivers placed ahead of `x` are exactly those that precede it. */
  lemma AheadAre(v: View, drivers: seq<Id>, k: nat)
    requires NoDup(drivers) && k < |StableSort(v, drivers)|
    ensures var s := StableSort(v, drivers);
            NoDup(s) && Members(s[..k]) == set y | y in drivers && Before(v, drivers, y, s[k])
  {
    var s := StableSort(v, drivers);
    SortPermutes(v, drivers);
    SameMembers(s, drivers);
    SortInOrder(v, drivers);
    BeforeIsStrict(v, drivers);
    forall i | k <= i < |s| ensures !Before(v, drivers, s[i], s[k]) {
      if k < i {
        assert Before(v, drivers, s[k], s[i]);
      }
    }
    forall y ensures y in Members(s[..k]) <==> y in drivers && Before(v, drivers, y, s[k]) {
      if y in drivers && Before(v, drivers, y, s[k]) {
        assert y in s;
        var i :| 0 <= i < |s| && s[i] == y;
      }
    }
  }

  lemma BeforeIsStrict(v: View, drivers: seq<Id>)
    requires NoDup(drivers)
    ensures forall x, y :: Before(v, drivers, x, y) ==> !Before(v, drivers, y, x)
  {}

  lemma PrefixCount(s: seq<Id>, k: nat)
    requires NoDup(s) && k <= |s|
    ensures |Members(s[..k])| == k
  {
    MembersCount(s[..k]);
  }

  /** The same view after one driver's points were raised. */
  ghost predicate Raised(v: View, w: View, driver: Id) {
    && w.policy == v.policy && w.etas == v.etas
    && (forall y | y != driver :: (y in w.points <==> y in v.points) && (y in v.points ==> w.points[y] == v.points[y]))
    && driver in w.points && w.points[driver] >= if driver in v.points then v.points[driver] else 0
  }

  lemma RaisedBonus(v: View, w: View, driver: Id)
    requires Raised(v, w, driver)
    ensures Bonus(w.policy, w.points, driver) >= Bonus(v.policy, v.points, driver)
    ensures forall y | y != driver :: Effective(w, y) == Effective(v, y)
    ensures Effective(w, driver) <= Effective(v, driver)
  {
    var low := if driver in v.points then v.points[driver] else 0;
    Scale(v.policy.secondsPerPoint, low, w.points[driver]);
  }

  lemma {:induction false} SameSplit(v: View, w: View, eligible: seq<Id>)
    requires w.etas == v.etas
    ensures Timed(w, eligible) == Timed(v, eligible) && Untimed(w, eligible) == Untimed(v, eligible)
  {
    if |eligible| > 0 {
      SameSplit(v, w, eligible[..|eligible| - 1]);
    }
  }

  lemma SortMonotone(v: View, w: View, drivers: seq<Id>, i: nat, j: nat)
    requires NoDup(drivers) && i < |StableSort(v, drivers)| && j < |StableSort(w, drivers)|
    requires StableSort(v, drivers)[i] == StableSort(w, drivers)[j] && Raised(v, w, StableSort(v, drivers)[i])
    ensures j <= i
  {
    var x := StableSort(v, drivers)[i];
    RaisedBonus(v, w, x);
    AheadAre(v, drivers, i);
    AheadAre(w, drivers, j);
    PrefixCount(StableSort(v, drivers), i);
    PrefixCount(StableSort(w, drivers), j);
    var ahead, aheadNow := Members(StableSort(v, drivers)[..i]), Members(StableSort(w, drivers)[..j]);
    forall y | y in aheadNow ensures y in ahead {
      assert Before(w, drivers, y, x);
    }
    SubsetSize(aheadNow, ahead);
  }

  /** Raising one driver's points never moves that driver back. */
  lemma MorePointsNeverHurt(v: View, w: View, eligible: seq<Id>, i: nat, j: nat)
    requires NoDup(eligible) && i < |Rank(v, true, eligible)| && j < |Rank(w, true, eligible)|
    requires Rank(v, true, eligible)[i] == Rank(w, true, eligible)[j] && Raised(v, w, Rank(v, true, eligible)[i])
    ensures j <= i
  {
    var timed := Timed(v, eligible);
    SameSplit(v, w, eligible);
    RankHead(v, eligible, i);
    RankHead(w, eligible, j);
    TimedNoDup(v, eligible);
    UntimedNoDup(v, eligible);
    if |eligible| > 1 && timed != [] {
      if i < |timed| {
        SortMonotone(v, w, timed, i, j);
      } else {
        assert Untimed(v, eligible)[i - |timed|] == Untimed(v, eligible)[j - |timed|];
      }
    }
  }
}
