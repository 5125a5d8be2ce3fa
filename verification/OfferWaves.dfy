/** The search for a driver: successive offer waves, a widening radius and a tried-set
    (`ride/application/matching_service.py`, `ride/infra/offer_store.py`). */
module OfferWaves {
  import opened Prelude
  import opened Ranking

  /** Bounds enforced where the configuration is edited: a wave holds at least one driver, radii and
      steps are not negative. */
  datatype Config = Config(radius: real, step: real, maxRadius: real, waveSize: nat, shortlist: nat) {
    ghost predicate Valid() {
      waveSize >= 1 && step >= 0.0
    }
  }

  /** What the outside world answers while one wave is prepared. Any driver may appear; `canTake`
      stands for profile, vehicle, partner and wallet checks. */
  datatype Surroundings = Surroundings(
    hasPickup: bool, nearby: seq<Id>, canTake: set<Id>, view: View, etaEnabled: bool,
    overBudget: bool, overCommission: bool)

  datatype RideState = Requested | Matched | NoDriverFound

  /** `waves` and `radii` are the history of the search, oldest first. */
  datatype Search = Search(status: RideState, offers: set<Id>, tried: set<Id>, waves: seq<seq<Id>>, radii: seq<real>)

  const FRESH_SEARCH := Search(Requested, {}, {}, [], [])

  function Radius(c: Config, tried: nat): real
    requires c.waveSize >= 1
  {
    var wanted := c.radius + c.step * ((tried / c.waveSize) as real);
    if wanted <= c.maxRadius then wanted else c.maxRadius
  }

  /** The nearest untried drivers who can take the ride, until the shortlist is full. */
  function Shortlist(nearby: seq<Id>, tried: set<Id>, canTake: set<Id>, size: nat): seq<Id> {
    if |nearby| == 0 then []
    else
      var early := Shortlist(nearby[..|nearby| - 1], tried, canTake, size);
      var last := nearby[|nearby| - 1];
      if |early| >= size || last in tried || last !in canTake then early else early + [last]
  }

  function Cut(s: seq<Id>, n: nat): seq<Id> {
    if |s| <= n then s else s[..n]
  }

  function NextCandidates(c: Config, tried: set<Id>, x: Surroundings): seq<Id> {
    if !x.hasPickup then []
    else
      var eligible := Shortlist(x.nearby, tried, x.canTake, Max(c.waveSize, c.shortlist));
      Cut(Rank(x.view, x.etaEnabled, eligible), c.waveSize)
  }

  method SelectCandidates(c: Config, tried: set<Id>, x: Surroundings) returns (selected: seq<Id>)
    requires c.Valid()
    ensures selected == NextCandidates(c, tried, x)
  {
    if !x.hasPickup {
      return [];
    }
    var size := Max(c.waveSize, c.shortlist);
    var eligible: seq<Id> := [];
    var i := 0;
    while i < |x.nearby| && |eligible| < size
      invariant i <= |x.nearby|
      invariant eligible == Shortlist(x.nearby[..i], tried, x.canTake, size)
    {
      assert x.nearby[..i + 1][..i] == x.nearby[..i];
      if x.nearby[i] !in tried && x.nearby[i] in x.canTake {
        eligible := eligible + [x.nearby[i]];
      }
      i := i + 1;
    }
    ShortlistStops(x.nearby, i, tried, x.canTake, size);
    var ranked := RankByEta(x.view, x.etaEnabled, eligible);
    selected := Cut(ranked, c.waveSize);
  }

  /** Once the shortlist is full, the remaining candidates are not looked at. */
  lemma {:induction false} ShortlistStops(nearby: seq<Id>, k: nat, tried: set<Id>, canTake: set<Id>, size: nat)
    requires k <= |nearby| && (k == |nearby| || |Shortlist(nearby[..k], tried, canTake, size)| >= size)
    ensures Shortlist(nearby, tried, canTake, size) == Shortlist(nearby[..k], tried, canTake, size)
  {
    if k < |nearby| {
      var n := |nearby| - 1;
      assert nearby[..n][..k] == nearby[..k];
      ShortlistStops(nearby[..n], k, tried, canTake, size);
    } else {
      assert nearby[..k] == nearby;
    }
  }

  // ---------------------------------------------------------------- one wave

  lemma {:induction false} ShortlistMembers(nearby: seq<Id>, tried: set<Id>, canTake: set<Id>, size: nat)
    requires NoDup(nearby)
    ensures var s := Shortlist(nearby, tried, canTake, size);
            NoDup(s) && (forall x | x in s :: x in nearby && x !in tried && x in canTake)
    ensures size >= 1 && (exists x | x in nearby :: x !in tried && x in canTake)
        ==> Shortlist(nearby, tried, canTake, size) != []
  {
    if |nearby| > 0 {
      var n := |nearby| - 1;
      assert nearby == nearby[..n] + [nearby[n]];
      ShortlistMembers(nearby[..n], tried, canTake, size);
      assert nearby[n] !in nearby[..n];
    }
  }

  lemma TwiceCounts(s: seq<Id>, i: nat, j: nat)
    requires i < j < |s| && s[i] == s[j]
    ensures multiset(s)[s[i]] >= 2
  {
    assert s == s[..j] + s[j..];
    assert s[i] in s[..j] && s[j] in s[j..] by {
      assert s[..j][i] == s[i];
      assert s[j..][0] == s[j];
    }
  }

  lemma PermutationNoDup(s: seq<Id>, t: seq<Id>)
    requires multiset(s) == multiset(t) && NoDup(t)
    ensures NoDup(s)
  {
    forall i, j | 0 <= i < j < |s| ensures s[i] != s[j] {
      OccurrenceAtMostOnce(t, s[i]);
      if s[i] == s[j] {
        TwiceCounts(s, i, j);
      }
    }
  }

  lemma {:induction false} OccurrenceAtMostOnce(t: seq<Id>, x: Id)
    requires NoDup(t)
    ensures multiset(t)[x] <= 1
  {
    if |t| > 0 {
      var n := |t| - 1;
      OccurrenceAtMostOnce(t[..n], x);
      assert t == t[..n] + [t[n]];
      assert t[n] !in t[..n];
    }
  }

  lemma CutKeeps(s: seq<Id>, n: nat)
    requires NoDup(s)
    ensures NoDup(Cut(s, n)) && |Cut(s, n)| <= n && (forall d | d in Cut(s, n) :: d in s)
    ensures n >= 1 ==> (Cut(s, n) == [] <==> s == [])
  {
  }

  lemma RankedShortlist(c: Config, tried: set<Id>, x: Surroundings)
    requires c.Valid() && NoDup(x.nearby)
    ensures var e := Shortlist(x.nearby, tried, x.canTake, Max(c.waveSize, c.shortlist));
            var r := Rank(x.view, x.etaEnabled, e);
            NoDup(r) && |r| == |e| && forall d | d in r :: d in e
  {
    var e := Shortlist(x.nearby, tried, x.canTake, Max(c.waveSize, c.shortlist));
    var r := Rank(x.view, x.etaEnabled, e);
    ShortlistMembers(x.nearby, tried, x.canTake, Max(c.waveSize, c.shortlist));
    RankPermutes(x.view, x.etaEnabled, e);
    PermutationNoDup(r, e);
    SameMembers(r, e);
    assert |multiset(r)| == |multiset(e)|;
  }

  ghost predicate CanServe(x: Surroundings, tried: set<Id>, d: Id) {
    d in x.nearby && d !in tried && d in x.canTake
  }

  /** A wave is duplicate-free, within size, made of nearby drivers never tried before who can take the
      ride, and empty only when there is none. */
  lemma WaveIsNew(c: Config, tried: set<Id>, x: Surroundings)
    requires c.Valid() && NoDup(x.nearby)
    ensures var w := NextCandidates(c, tried, x);
            && NoDup(w) && |w| <= c.waveSize
            && (forall d | d in w :: CanServe(x, tried, d))
            && (w == [] <==> !x.hasPickup || forall d :: !CanServe(x, tried, d))
  {
    var size := Max(c.waveSize, c.shortlist);
    var e := Shortlist(x.nearby, tried, x.canTake, size);
    ShortlistMembers(x.nearby, tried, x.canTake, size);
    RankedShortlist(c, tried, x);
    CutKeeps(Rank(x.view, x.etaEnabled, e), c.waveSize);
    if e != [] {
      assert CanServe(x, tried, e[0]);
    }
  }

  // ---------------------------------------------------------------- the search as a run

  datatype Happening =
    | TryMatch(around: Surroundings)
    | Declined(driver: Id, afterDecline: Surroundings)
    | OffersExpired
    | Advance(afterExpiry: Surroundings)
    | Accepted(winner: Id)

  /** `_give_up`: the ride fails and the offer store forgets it. */
  function GiveUp(s: Search): Search {
    s.(status := NoDriverFound, offers := {}, tried := {})
  }

  function TryToMatch(c: Config, s: Search, x: Surroundings): Search
    requires c.Valid()
  {
    if !s.status.Requested? then s
    else if x.overBudget || x.overCommission then GiveUp(s)
    else if s.offers != {} then s
    else
      var wave := NextCandidates(c, s.tried, x);
      var radius := Radius(c, |s.tried|);
      if wave == [] then GiveUp(s)
      else s.(offers := Members(wave), tried := s.tried + Members(wave), waves := s.waves + [wave], radii := s.radii
          + [radius])
  }

  function Happen(c: Config, s: Search, h: Happening): Search
    requires c.Valid()
  {
    match h
    case TryMatch(x) => TryToMatch(c, s, x)
    case Declined(d, x) =>
      if !s.status.Requested? then s
      else if s.offers != {} && d !in s.offers then s
      else
        var left := s.(offers := s.offers - {d});
        if left.offers != {} then left else TryToMatch(c, left, x)
    case OffersExpired => s.(offers := {})
    case Advance(x) => if s.offers != {} || !s.status.Requested? then s else TryToMatch(c, s, x)
    case Accepted(d) => if s.status.Requested? && d in s.offers then s.(status := Matched, offers := {}) else s
  }

  function After(c: Config, events: seq<Happening>): Search
    requires c.Valid()
  {
    if |events| == 0 then FRESH_SEARCH else Happen(c, After(c, events[..|events| - 1]), events[|events| - 1])
  }

  function Around(h: Happening): seq<Id> {
    match h
    case TryMatch(x) => x.nearby
    case Declined(_, x) => x.nearby
    case Advance(x) => x.nearby
    case _ => []
  }

  /** Environment assumption: each nearby list names a driver at most once. */
  ghost predicate Plausible(events: seq<Happening>) {
    forall i | 0 <= i < |events| :: NoDup(Around(events[i]))
  }

  function Offered(waves: seq<seq<Id>>): set<Id> {
    if |waves| == 0 then {} else Offered(waves[..|waves| - 1]) + Members(waves[|waves| - 1])
  }

  /** No driver is in two waves; waves are never empty, never repeat a driver and fit the size; while the
      ride searches, the tried-set is exactly the drivers offered so far; radii never shrink. */
  ghost predicate Orderly(c: Config, s: Search) {
    && (forall i | 0 <= i < |s.waves| :: s.waves[i] != [] && NoDup(s.waves[i]) && |s.waves[i]| <= c.waveSize)
    && (forall i, j | 0 <= i < j < |s.waves| :: Members(s.waves[i]) !! Members(s.waves[j]))
    && (s.status.Requested? ==> s.tried == Offered(s.waves))
    && |Offered(s.waves)| >= |s.waves|
    && |s.radii| == |s.waves|
    && (forall i, j | 0 <= i <= j < |s.radii| :: s.radii[i] <= s.radii[j] <= c.maxRadius)
    && (c.waveSize >= 1 ==> forall i | 0 <= i < |s.radii| :: s.radii[i] <= Radius(c, |Offered(s.waves)|))
  }

  lemma {:induction false} RadiusGrows(c: Config, m: nat, n: nat)
    requires c.Valid() && m <= n
    ensures Radius(c, m) <= Radius(c, n) <= c.maxRadius
  {
    DivGrows(m, n, c.waveSize);
    var a, b := (m / c.waveSize) as real, (n / c.waveSize) as real;
    assert a <= b;
    ScaledReal(c.step, a, b);
  }

  lemma ScaledReal(k: real, a: real, b: real)
    requires k >= 0.0 && a <= b
    ensures k * a <= k * b
  {
    assert k * (b - a) >= 0.0;
    assert k * b == k * a + k * (b - a);
  }

  lemma {:induction false} LargerQuotient(m: nat, n: nat, k: nat)
    requires k >= 1 && m / k > n / k
    ensures m > n
  {
    var a, b := m / k, n / k;
    Scale(k, b + 1, a);
    assert k * (b + 1) == k * b + k;
    assert m == k * a + m % k && n == k * b + n % k && n % k < k;
  }

  lemma {:induction false} DivGrows(m: nat, n: nat, k: nat)
    requires m <= n && k >= 1
    ensures m / k <= n / k
  {
    if m / k > n / k {
      LargerQuotient(m, n, k);
    }
  }

  lemma {:induction false} OfferedHas(waves: seq<seq<Id>>, i: nat)
    requires i < |waves|
    ensures Members(waves[i]) <= Offered(waves)
  {
    if i < |waves| - 1 {
      OfferedHas(waves[..|waves| - 1], i);
    }
  }

  lemma {:induction false} NewWaveOrderly(c: Config, s: Search, wave: seq<Id>)
    requires c.Valid() && Orderly(c, s) && s.status.Requested?
    requires wave != [] && NoDup(wave) && |wave| <= c.waveSize && Members(wave) !! s.tried
    ensures Orderly(c, s.(offers := Members(wave), tried := s.tried + Members(wave), waves := s.waves + [wave],
                          radii := s.radii + [Radius(c, |s.tried|)]))
  {
    var waves := s.waves + [wave];
    assert waves[..|s.waves|] == s.waves;
    MembersCount(wave);
    assert |Offered(waves)| == |Offered(s.waves)| + |wave|;
    forall i | 0 <= i < |s.waves| ensures Members(s.waves[i]) !! Members(wave) {
      OfferedHas(s.waves, i);
    }
    RadiusGrows(c, |s.tried|, |Offered(waves)|);
  }

  lemma {:induction false} TryOrderly(c: Config, s: Search, x: Surroundings)
    requires c.Valid() && Orderly(c, s) && NoDup(x.nearby)
    ensures Orderly(c, TryToMatch(c, s, x))
  {
    var wave := NextCandidates(c, s.tried, x);
    WaveIsNew(c, s.tried, x);
    if s.status.Requested? && wave != [] {
      NewWaveOrderly(c, s, wave);
    }
  }

  lemma {:induction false} SearchIsOrderly(c: Config, events: seq<Happening>)
    requires c.Valid() && Plausible(events)
    ensures Orderly(c, After(c, events))
  {
    if |events| > 0 {
      var before := After(c, events[..|events| - 1]);
      SearchIsOrderly(c, events[..|events| - 1]);
      HappeningOrderly(c, before, events[|events| - 1]);
    }
  }

  lemma {:induction false} HappeningOrderly(c: Config, s: Search, h: Happening)
    requires c.Valid() && Orderly(c, s) && NoDup(Around(h))
    ensures Orderly(c, Happen(c, s, h))
  {
    match h
    case TryMatch(x) => TryOrderly(c, s, x);
    case Declined(d, x) => DeclineOrderly(c, s, d, x);
    case Advance(x) => TryOrderly(c, s, x);
    case OffersExpired =>
    case Accepted(_) =>
  }

  lemma {:induction false} DeclineOrderly(c: Config, s: Search, d: Id, x: Surroundings)
    requires c.Valid() && Orderly(c, s) && NoDup(x.nearby)
    ensures Orderly(c, Happen(c, s, Declined(d, x)))
  {
    var left := s.(offers := s.offers - {d});
    assert Orderly(c, left);
    TryOrderly(c, left, x);
  }

  /** Over a ride's whole search: waves are disjoint, so with `drivers` everyone ever nearby, at most
      `|drivers|` waves open; the radius never shrinks and never exceeds its maximum. */
  lemma {:induction false} SearchTerminates(c: Config, events: seq<Happening>, drivers: set<Id>)
    requires c.Valid() && Plausible(events)
    requires forall i, d | 0 <= i < |events| && d in Around(events[i]) :: d in drivers
    ensures var s := After(c, events);
            && |s.waves| <= |drivers|
            && (forall i, j | 0 <= i < j < |s.waves| :: Members(s.waves[i]) !! Members(s.waves[j]))
            && (forall i | 0 <= i < |s.waves| :: s.waves[i] != [] && NoDup(s.waves[i]) && |s.waves[i]| <= c.waveSize)
            && (forall i, j | 0 <= i <= j < |s.radii| :: s.radii[i] <= s.radii[j] <= c.maxRadius)
  {
    SearchIsOrderly(c, events);
    OfferedAreNearby(c, events, drivers);
    SubsetSize(Offered(After(c, events).waves), drivers);
  }

  lemma {:induction false} OfferedAreNearby(c: Config, events: seq<Happening>, drivers: set<Id>)
    requires c.Valid() && Plausible(events)
    requires forall i, d | 0 <= i < |events| && d in Around(events[i]) :: d in drivers
    ensures Offered(After(c, events).waves) <= drivers
  {
    if |events| > 0 {
      var n := |events| - 1;
      var before := After(c, events[..n]);
      OfferedAreNearby(c, events[..n], drivers);
      match events[n]
      case TryMatch(x) => TryOffersNearby(c, before, x, drivers);
      case Declined(d, x) => TryOffersNearby(c, before.(offers := before.offers - {d}), x, drivers);
      case Advance(x) => TryOffersNearby(c, before, x, drivers);
      case _ =>
    }
  }

  lemma TryOffersNearby(c: Config, s: Search, x: Surroundings, drivers: set<Id>)
    requires c.Valid() && NoDup(x.nearby) && Offered(s.waves) <= drivers && forall d | d in x.nearby :: d in drivers
    ensures Offered(TryToMatch(c, s, x).waves) <= drivers
  {
    var wave := NextCandidates(c, s.tried, x);
    WaveIsNew(c, s.tried, x);
    assert (s.waves + [wave])[..|s.waves|] == s.waves;
  }

  /** Every attempt to advance an idle search either opens a wave of untried drivers or ends the search. */
  lemma AttemptsProgress(c: Config, s: Search, x: Surroundings)
    requires c.Valid() && NoDup(x.nearby) && s.status.Requested? && s.offers == {}
    ensures var r := TryToMatch(c, s, x);
            || (r.status.NoDriverFound? && r.offers == {} && r.tried == {} && r.waves == s.waves)
            || (r.status.Requested? && r.offers != {} && s.tried < r.tried && r.offers == r.tried - s.tried)
  {
    WaveIsNew(c, s.tried, x);
    var wave := NextCandidates(c, s.tried, x);
    if wave != [] {
      assert wave[0] in Members(wave);
    }
  }

  // ---------------------------------------------------------------- what a wave is made of

  /** After `k` waves' worth of tried drivers the radius is `k` steps wider, up to the maximum. */
  lemma RadiusWidens(c: Config, k: nat, tried: nat)
    requires c.Valid() && k * c.waveSize <= tried < (k + 1) * c.waveSize
    ensures var wanted := c.radius + c.step * (k as real);
            Radius(c, tried) == if wanted <= c.maxRadius then wanted else c.maxRadius
  {
    QuotientIs(tried, c.waveSize, k);
  }

  lemma QuotientIs(n: nat, size: nat, k: nat)
    requires size >= 1 && k * size <= n < (k + 1) * size
    ensures n / size == k
  {
    QuotientBounds(n, size);
    if n / size < k {
      Scale(size, n / size + 1, k);
    } else if n / size > k {
      Scale(size, k + 1, n / size);
    }
  }

  lemma QuotientBounds(n: nat, size: nat)
    requires size >= 1
    ensures size * (n / size) <= n < size * (n / size + 1)
  {
    assert n == size * (n / size) + n % size;
    assert size * (n / size + 1) == size * (n / size) + size;
  }

  /** The nearby drivers who were not tried and can take the ride, nearest first. */
  function Willing(nearby: seq<Id>, tried: set<Id>, canTake: set<Id>): seq<Id> {
    if |nearby| == 0 then []
    else if nearby[0] in tried || nearby[0] !in canTake then Willing(nearby[1..], tried, canTake)
    else [nearby[0]] + Willing(nearby[1..], tried, canTake)
  }

  lemma {:induction false} WillingLast(nearby: seq<Id>, tried: set<Id>, canTake: set<Id>)
    requires |nearby| > 0
    ensures var n := |nearby| - 1;
            Willing(nearby, tried, canTake)
            == Willing(nearby[..n], tried, canTake)
               + if nearby[n] in tried || nearby[n] !in canTake then [] else [nearby[n]]
  {
    if |nearby| > 1 {
      WillingLast(nearby[1..], tried, canTake);
      assert nearby[1..][..|nearby| - 2] == nearby[..|nearby| - 1][1..];
    }
  }

  /** The shortlist is the nearest of them, as many as it has room for. */
  lemma {:induction false} ShortlistIsNearest(nearby: seq<Id>, tried: set<Id>, canTake: set<Id>, size: nat)
    ensures var all := Willing(nearby, tried, canTake);
            Shortlist(nearby, tried, canTake, size) == if |all| <= size then all else all[..size]
  {
    if |nearby| > 0 {
      ShortlistIsNearest(nearby[..|nearby| - 1], tried, canTake, size);
      WillingLast(nearby, tried, canTake);
    }
  }

  /** A wave is the front of the ranking of that shortlist, which is never smaller than a wave. */
  lemma WaveIsFrontOfRanking(c: Config, tried: set<Id>, x: Surroundings)
    requires x.hasPickup
    ensures var all := Willing(x.nearby, tried, x.canTake);
            var room := if c.waveSize < c.shortlist then c.shortlist else c.waveSize;
            var ranked := Rank(x.view, x.etaEnabled, if |all| <= room then all else all[..room]);
            NextCandidates(c, tried, x) == if |ranked| <= c.waveSize then ranked else ranked[..c.waveSize]
  {
    ShortlistIsNearest(x.nearby, tried, x.canTake, Max(c.waveSize, c.shortlist));
  }

  /** An attempt on an idle search gives up exactly when it is over budget, over the commission limit, or
      no willing driver is near; otherwise it opens exactly the next wave, at the radius of its turn. */
  lemma AttemptsEndExactlyWhen(c: Config, s: Search, x: Surroundings)
    requires c.Valid() && NoDup(x.nearby) && s.status.Requested? && s.offers == {}
    ensures var r := TryToMatch(c, s, x);
            && (r.status == NoDriverFound <==>
                  x.overBudget || x.overCommission || !x.hasPickup || forall d :: !CanServe(x, s.tried, d))
            && (r.status != NoDriverFound ==>
                  && r.waves == s.waves + [NextCandidates(c, s.tried, x)] && r.radii == s.radii + [Radius(c, |s.tried|)]
                  && r.offers == Members(NextCandidates(c, s.tried, x)) && r.tried == s.tried + r.offers)
  {
    WaveIsNew(c, s.tried, x);
  }

  /** While others still hold the wave, a decline only takes the driver out of it; a stranger's does nothing. */
  lemma DeclinesMean(c: Config, s: Search, d: Id, x: Surroundings)
    requires c.Valid() && s.status.Requested? && s.offers != {}
    ensures d !in s.offers ==> Happen(c, s, Declined(d, x)) == s
    ensures d in s.offers && s.offers != {d} ==> Happen(c, s, Declined(d, x)) == s.(offers := s.offers - {d})
    ensures s.offers == {d} ==> Happen(c, s, Declined(d, x)) == TryToMatch(c, s.(offers := {}), x)
  {
    if d in s.offers && s.offers - {d} == {} {
      assert s.offers == {d};
    }
  }

  /** A wave nobody answered in time does not end the search: the next advance ends it for one of its own
      reasons or opens a wave of drivers not offered the ride before. */
  lemma ExpiredSearchGoesOn(c: Config, s: Search, x: Surroundings)
    requires c.Valid() && NoDup(x.nearby) && s.status.Requested?
    ensures var r := Happen(c, Happen(c, s, OffersExpired), Advance(x));
            if x.overBudget || x.overCommission || !x.hasPickup || forall d :: !CanServe(x, s.tried, d)
            then r.status == NoDriverFound && r.offers == {} && r.waves == s.waves
            else r.status == Requested && r.offers != {} && r.offers !! s.tried && |r.waves| == |s.waves| + 1
    ensures s.offers != {} ==> Happen(c, s, Advance(x)) == s
  {
    var idle := Happen(c, s, OffersExpired);
    AttemptsEndExactlyWhen(c, idle, x);
    AttemptsProgress(c, idle, x);
  }

  /** Whoever holds an offer is in the newest wave, and only a ride that searches has offers. */
  ghost predicate HeldByNewestWave(s: Search) {
    s.offers != {} ==>
      s.status.Requested? && s.waves != [] && s.offers <= Members(s.waves[|s.waves| - 1])
  }

  lemma {:induction false} HoldersAreNewestWave(c: Config, events: seq<Happening>)
    requires c.Valid()
    ensures HeldByNewestWave(After(c, events))
  {
    if |events| > 0 {
      HoldersAreNewestWave(c, events[..|events| - 1]);
    }
  }

  /** In every run an accept matches the ride exactly if it still searches and the driver holds an offer of
      its newest wave; any other accept changes nothing. */
  lemma OnlyHoldersMatch(c: Config, events: seq<Happening>, d: Id)
    requires c.Valid()
    ensures var s := After(c, events); var r := Happen(c, s, Accepted(d));
            if d in s.offers
            then r.status == Matched && r.offers == {} && r.waves == s.waves && s.waves != []
                 && d in s.waves[|s.waves| - 1]
            else r == s
  {
    HoldersAreNewestWave(c, events);
  }

  // ---------------------------------------------------------------- the service

  /** What a call tells the presentation layer: who holds the wave, whether it is news, and whether the
      search has ended. */
  datatype Dispatch = Dispatch(holders: set<Id>, newWave: bool, noDriverFound: bool)

  class MatchingService {
    const config: Config
    var status: RideState
    var offers: set<Id>
    var tried: set<Id>
    var waves: seq<seq<Id>>
    var radii: seq<real>

    constructor (c: Config)
      ensures config == c && Current() == FRESH_SEARCH
    {
      config := c;
      status, offers, tried, waves, radii := Requested, {}, {}, [], [];
    }

    ghost function Current(): Search
      reads this
    {
      Search(status, offers, tried, waves, radii)
    }

    method GiveUpSearch()
      modifies this
      ensures Current() == GiveUp(old(Current()))
    {
      status := NoDriverFound;
      offers, tried := {}, {};
    }

    method OpenOffers(wave: seq<Id>, radius: real)
      modifies this
      ensures Current() == old(Current()).(offers := Members(wave), tried := old(tried) + Members(wave),
                                           waves := old(waves) + [wave], radii := old(radii) + [radius])
    {
      offers, tried := Members(wave), tried + Members(wave);
      waves, radii := waves + [wave], radii + [radius];
    }

    /** Tells whoever holds the active wave, unless the ride no longer searches. */
    method TryMatchRide(x: Surroundings) returns (d: Dispatch)
      requires config.Valid()
      modifies this
      ensures Current() == TryToMatch(config, old(Current()), x)
      ensures d.holders == if old(status).Requested? then offers else {}
      ensures d.newWave <==> old(status).Requested? && (x.overBudget || x.overCommission || old(offers) == {})
      ensures d.noDriverFound <==> old(status).Requested? && status.NoDriverFound?
    {
      if status != Requested {
        return Dispatch({}, false, false);
      }
      if x.overBudget || x.overCommission {
        GiveUpSearch();
        return Dispatch({}, true, true);
      }
      if offers != {} {
        return Dispatch(offers, false, false);
      }
      var wave := SelectCandidates(config, tried, x);
      if wave == [] {
        GiveUpSearch();
        return Dispatch({}, true, true);
      }
      assert wave[0] in Members(wave);
      OpenOffers(wave, Radius(config, |tried|));
      return Dispatch(offers, true, false);
    }

    /** Refused to a driver who does not hold the wave; the last to leave it moves the search on. */
    method Decline(driver: Id, x: Surroundings) returns (r: Option<Dispatch>)
      requires config.Valid()
      modifies this
      ensures Current() == Happen(config, old(Current()), Declined(driver, x))
      ensures r.Some? <==> old(status).Requested? && (old(offers) == {} || driver in old(offers))
      ensures r.Some? ==>
                && r.value.holders == offers && (r.value.newWave <==> old(offers) <= {driver})
                && (r.value.noDriverFound <==> status.NoDriverFound?)
    {
      if status != Requested || (offers != {} && driver !in offers) {
        return None;
      }
      offers := offers - {driver};
      if offers != {} {
        return Some(Dispatch(offers, false, false));
      }
      var d := TryMatchRide(x);
      return Some(d);
    }

    method AdvanceExpiredOffer(x: Surroundings) returns (d: Dispatch)
      requires config.Valid()
      modifies this
      ensures Current() == Happen(config, old(Current()), Advance(x))
      ensures d.holders == offers && (d.newWave <==> old(offers) == {} && old(status).Requested?)
      ensures d.noDriverFound <==> d.newWave && status.NoDriverFound?
    {
      if offers != {} {
        return Dispatch(offers, false, false);
      }
      if status != Requested {
        return Dispatch({}, false, false);
      }
      d := TryMatchRide(x);
    }
  }
}
