/** What `rankBranchesV3` promises about the list it returns. */
module BranchRankingLaws {
  import opened Base
  import opened BranchRanking
  import opened LadderProfiles
  import opened LadderWalk
  import opened RungClassification
  import opened Sequences
  import opened Sorting

  /** Branch ids identify the branches of the list. */
  ghost predicate IdsIdentify(branches: seq<RankableBranch>) {
    forall a, b | a in branches && b in branches && a.branch.id == b.branch.id :: a == b
  }

  /** A branch of the list on the rung that admits it, at its distance. */
  predicate IsCollected(c: Collected, branches: seq<RankableBranch>, input: RankInput) {
    && c.item in branches
    && AdmittedRung(c.item.branch, input) == Some(c.rung)
    && c.distance == DistanceTo(c.item.branch, input.effLoc)
  }

  lemma BucketContents(branches: seq<RankableBranch>, input: RankInput, rung: SupplyRung, c: Collected)
    ensures c in Bucket(branches, input, rung) <==> IsCollected(c, branches, input) && c.rung == rung
  {
    FilterMapContents(branches, Collector(input, rung), c);
    if c.item in branches {
      assert Collector(input, rung)(c.item) == CollectAt(c.item, input, rung);
    }
  }

  lemma SortedRungContents(branches: seq<RankableBranch>, input: RankInputV3, rung: SupplyRung, c: Collected)
    requires !LacksPopularityMap(input)
    ensures c in SortedRung(branches, input, rung) <==> IsCollected(c, branches, input.base) && c.rung == rung
  {
    SortPermutes(Bucket(branches, input.base, rung), Comparator(OrderFor(input, rung).value));
    SameElements(SortedRung(branches, input, rung), Bucket(branches, input.base, rung));
    BucketContents(branches, input.base, rung, c);
  }

  /** The joined rungs hold exactly the admitted branches. */
  lemma JoinedContents(branches: seq<RankableBranch>, input: RankInputV3, ladder: seq<seq<Collected>>, c: Collected)
    requires !LacksPopularityMap(input) && ladder == Ladder(branches, input)
    ensures c in JoinFirst(ladder, |ladder|) <==> IsCollected(c, branches, input.base)
  {
    JoinContents(ladder, |ladder|, c);
    forall i | 0 <= i < |ladder|
      ensures c in ladder[i] <==> IsCollected(c, branches, input.base) && i == RungOrdinal(c.rung)
    {
      SortedRungContents(branches, input, RUNG_ORDER[i], c);
      OrdinalIsPosition(i);
    }
  }

  // ---------------------------------------------------------------- order of the list

  predicate NoLaterByNameThenId(a: Collected, b: Collected) {
    var m, n := a.item.merchant.businessName, b.item.merchant.businessName;
    m < n || (m == n && a.item.branch.id <= b.item.branch.id)
  }

  /** Nearer first, unknown distances last; then by name, then by id. */
  predicate NoFarther(a: Collected, b: Collected) {
    match (a.distance, b.distance)
    case (Some(x), Some(y)) => x < y || (x == y && NoLaterByNameThenId(a, b))
    case (Some(_), None) => true
    case (None, Some(_)) => false
    case (None, None) => NoLaterByNameThenId(a, b)
  }

  /** An absent rating counts as 0. */
  predicate RatedHigher(x: Option<real>, y: Option<real>) {
    match (x, y)
    case (Some(p), Some(q)) => p > q
    case (Some(p), None) => p > 0.0
    case (None, Some(q)) => 0.0 > q
    case (None, None) => false
  }

  /** Merchants with at least three reviews first, the higher rating first among them; then by distance. */
  predicate NoWorse(a: Collected, b: Collected) {
    var m, n := a.item.merchant, b.item.merchant;
    if m.reviewCount >= 3 && n.reviewCount >= 3 then
      RatedHigher(m.avgRating, n.avgRating) || (!RatedHigher(n.avgRating, m.avgRating) && NoFarther(a, b))
    else if m.reviewCount >= 3 then true
    else if n.reviewCount >= 3 then false
    else NoFarther(a, b)
  }

  /** Merchants with the higher popularity first, 0 for those the map does not hold; then by distance. */
  predicate NoLessPopular(popularity: map<int, real>, a: Collected, b: Collected) {
    var i, j := a.item.merchantId, b.item.merchantId;
    if i in popularity && j in popularity then popularity[i] > popularity[j] || (popularity[i] == popularity[j] && NoFarther(a, b))
    else if i in popularity then popularity[i] > 0.0 || (popularity[i] == 0.0 && NoFarther(a, b))
    else if j in popularity then popularity[j] < 0.0 || (popularity[j] == 0.0 && NoFarther(a, b))
    else NoFarther(a, b)
  }

  /**
   * Who may stand before whom: a more specific rung first. Within a rung `sortBy` decides where it
   * is given; else the category's intent does, by distance for LOCAL, by quality for DESTINATION,
   * and for MIXED by distance on NEARBY and by quality beyond it.
   */
  predicate MayStandBefore(input: RankInputV3, a: Collected, b: Collected)
    requires !LacksPopularityMap(input)
  {
    var intent := input.base.categoryIntent;
    || RungOrdinal(a.rung) < RungOrdinal(b.rung)
    || (a.rung == b.rung
        && (input.sortBy == Some(BY_POPULARITY) ==> NoLessPopular(input.popularityMap.value, a, b))
        && (input.sortBy == Some(BY_DISTANCE) ==> NoFarther(a, b))
        && (input.sortBy == Some(BY_QUALITY) ==> NoWorse(a, b))
        && (input.sortBy == None && (intent == LOCAL || (intent == MIXED && a.rung == NEARBY)) ==> NoFarther(a, b))
        && (input.sortBy == None && (intent == DESTINATION || (intent == MIXED && a.rung != NEARBY)) ==> NoWorse(a, b)))
  }

  lemma QualityMeansNoWorse(a: Collected, b: Collected)
    ensures CompareQuality(a, b) <= 0 <==> NoWorse(a, b)
  {
  }

  lemma DistanceMeansNoFarther(a: Collected, b: Collected)
    ensures CompareDistance(a, b) <= 0 <==> NoFarther(a, b)
  {
  }

  lemma PopularityMeansNoLessPopular(popularity: map<int, real>, a: Collected, b: Collected)
    ensures ComparePopularity(popularity, a, b) <= 0 <==> NoLessPopular(popularity, a, b)
  {
  }

  /** The comparator of a rung puts in order exactly what may stand in order. */
  lemma OrderForMeansBefore(input: RankInputV3, rung: SupplyRung, a: Collected, b: Collected)
    requires !LacksPopularityMap(input) && a.rung == rung == b.rung
    ensures Compare(OrderFor(input, rung).value, a, b) <= 0 <==> MayStandBefore(input, a, b)
  {
    QualityMeansNoWorse(a, b);
    DistanceMeansNoFarther(a, b);
    if input.popularityMap.Some? {
      PopularityMeansNoLessPopular(input.popularityMap.value, a, b);
    }
  }

  lemma LadderIsOrdered(branches: seq<RankableBranch>, input: RankInputV3, before: (Collected, Collected) -> bool)
    requires !LacksPopularityMap(input)
    requires forall a, b :: before(a, b) <==> MayStandBefore(input, a, b)
    ensures Ordered(JoinFirst(Ladder(branches, input), |Ladder(branches, input)|), before)
  {
    var ladder := Ladder(branches, input);
    forall i | 0 <= i < |ladder| ensures Ordered(ladder[i], before) {
      var order := OrderFor(input, RUNG_ORDER[i]).value;
      ComparatorIsConsistent(order);
      SortSorts(Bucket(branches, input.base, RUNG_ORDER[i]), Comparator(order));
      forall p, q | 0 <= p < q < |ladder[i]| ensures before(ladder[i][p], ladder[i][q]) {
        SortedRungContents(branches, input, RUNG_ORDER[i], ladder[i][p]);
        SortedRungContents(branches, input, RUNG_ORDER[i], ladder[i][q]);
        OrderForMeansBefore(input, RUNG_ORDER[i], ladder[i][p], ladder[i][q]);
      }
    }
    forall i, j, a, b | 0 <= i < j < |ladder| && a in ladder[i] && b in ladder[j] ensures before(a, b) {
      SortedRungContents(branches, input, RUNG_ORDER[i], a);
      SortedRungContents(branches, input, RUNG_ORDER[j], b);
      OrdinalIsPosition(i);
      OrdinalIsPosition(j);
    }
    JoinOrdered(ladder, |ladder|, before);
  }

  /** Rungs never go back along the list, and within a rung the requested order holds. */
  lemma ListIsInPromisedOrder(branches: seq<RankableBranch>, input: RankInputV3, i: nat, j: nat)
    requires !LacksPopularityMap(input) && i < j < |Ranked(branches, input)|
    ensures MayStandBefore(input, Ranked(branches, input)[i], Ranked(branches, input)[j])
  {
    var ladder := Ladder(branches, input);
    LadderIsOrdered(branches, input, (a, b) => MayStandBefore(input, a, b));
    JoinGrows(ladder, StopAfter(ladder, input.base.targetCount, input.base.hardCap), |ladder|);
    assert Ranked(branches, input) <= JoinFirst(ladder, |ladder|);
  }

  // ---------------------------------------------------------------- determinism

  lemma BucketHasNoTies(branches: seq<RankableBranch>, input: RankInput, rung: SupplyRung, order: Order)
    requires IdsIdentify(branches)
    ensures NoTies(Bucket(branches, input, rung), Comparator(order))
  {
    var bucket, cmp := Bucket(branches, input, rung), Comparator(order);
    forall a, b | a in bucket && b in bucket && cmp(a, b) <= 0 && cmp(b, a) <= 0 ensures a == b {
      TiesShareTheId(order, a, b);
      BucketContents(branches, input, rung, a);
      BucketContents(branches, input, rung, b);
    }
  }

  lemma SortedRungIgnoresInputOrder(branches: seq<RankableBranch>, shuffled: seq<RankableBranch>, input: RankInputV3, rung: SupplyRung)
    requires !LacksPopularityMap(input)
    requires IdsIdentify(branches) && multiset(branches) == multiset(shuffled)
    ensures SortedRung(branches, input, rung) == SortedRung(shuffled, input, rung)
  {
    var order := OrderFor(input, rung).value;
    ComparatorIsConsistent(order);
    FilterMapPermutes(branches, shuffled, Collector(input.base, rung));
    BucketHasNoTies(branches, input.base, rung, order);
    SortIgnoresInputOrder(Bucket(branches, input.base, rung), Bucket(shuffled, input.base, rung), Comparator(order));
  }

  /** Permuting the input changes nothing, under every intent and every `sortBy`. */
  lemma RankingIgnoresInputOrder(branches: seq<RankableBranch>, shuffled: seq<RankableBranch>, input: RankInputV3)
    requires !LacksPopularityMap(input)
    requires IdsIdentify(branches) && multiset(branches) == multiset(shuffled)
    ensures Tiles(branches, input) == Tiles(shuffled, input)
  {
    var l, m := Ladder(branches, input), Ladder(shuffled, input);
    forall i | 0 <= i < |l| ensures l[i] == m[i] {
      SortedRungIgnoresInputOrder(branches, shuffled, input, RUNG_ORDER[i]);
    }
    assert l == m;
  }

  // ---------------------------------------------------------------- bounds

  function WithBounds(input: RankInputV3, targetCount: int, hardCap: int): RankInputV3 {
    input.(base := input.base.(targetCount := targetCount, hardCap := hardCap))
  }

  lemma BucketReadsReachOnly(branches: seq<RankableBranch>, input: RankInput, input': RankInput, rung: SupplyRung)
    requires input' == input.(targetCount := input'.targetCount, hardCap := input'.hardCap)
    ensures Bucket(branches, input, rung) == Bucket(branches, input', rung)
  {
    FilterMapAgrees(branches, Collector(input, rung), Collector(input', rung));
  }

  lemma LadderIgnoresBounds(branches: seq<RankableBranch>, input: RankInputV3, targetCount: int, hardCap: int)
    requires !LacksPopularityMap(input)
    ensures Ladder(branches, input) == Ladder(branches, WithBounds(input, targetCount, hardCap))
  {
    var input' := WithBounds(input, targetCount, hardCap);
    var l, m := Ladder(branches, input), Ladder(branches, input');
    forall i | 0 <= i < |l| ensures l[i] == m[i] {
      BucketReadsReachOnly(branches, input.base, input'.base, RUNG_ORDER[i]);
    }
    assert l == m;
  }

  lemma MapKeepsPrefix<S, T>(s: seq<S>, t: seq<S>, f: S -> T)
    requires s <= t
    ensures Map(s, f) <= Map(t, f)
  {
  }

  /** Raising the target or the cap only appends tiles. */
  lemma RaisingBoundsAppendsTiles(branches: seq<RankableBranch>, input: RankInputV3, targetCount: int, hardCap: int)
    requires !LacksPopularityMap(input)
    requires input.base.targetCount <= targetCount && input.base.hardCap <= hardCap
    ensures Tiles(branches, input) <= Tiles(branches, WithBounds(input, targetCount, hardCap))
  {
    LadderIgnoresBounds(branches, input, targetCount, hardCap);
    var ladder := Ladder(branches, input);
    RaisingBoundsExtends(ladder, input.base.targetCount, input.base.hardCap, targetCount, hardCap);
    MapKeepsPrefix(Ranked(branches, input), Ranked(branches, WithBounds(input, targetCount, hardCap)), TileMaker(input.base.effLoc.densityClass));
  }

  /** The list opens with the NEARBY rung, which the target never cuts short. */
  lemma NearbyIsOnlyCapped(branches: seq<RankableBranch>, input: RankInputV3)
    requires !LacksPopularityMap(input)
    ensures Map(Take(SortedRung(branches, input, NEARBY), input.base.hardCap), TileMaker(input.base.effLoc.densityClass)) <= Tiles(branches, input)
  {
    var ladder := Ladder(branches, input);
    assert ladder[0] == SortedRung(branches, input, NEARBY);
    TargetNeverTruncatesTheFirstRung(ladder, input.base.targetCount, input.base.hardCap);
    MapKeepsPrefix(Take(ladder[0], input.base.hardCap), Ranked(branches, input), TileMaker(input.base.effLoc.densityClass));
  }

  lemma MapContains<S, T>(s: seq<S>, f: S -> T, x: S)
    requires x in s
    ensures f(x) in Map(s, f)
  {
  }

  /** A list shorter than both bounds has left out no admitted branch. */
  lemma ShortListIsComplete(branches: seq<RankableBranch>, input: RankInputV3, b: RankableBranch, rung: SupplyRung)
    requires !LacksPopularityMap(input)
    requires |Tiles(branches, input)| < Min(input.base.targetCount, input.base.hardCap)
    requires b in branches && AdmittedRung(b.branch, input.base) == Some(rung)
    ensures TileOf(Collected(b, rung, DistanceTo(b.branch, input.base.effLoc)), input.base.effLoc.densityClass) in Tiles(branches, input)
  {
    var c := Collected(b, rung, DistanceTo(b.branch, input.base.effLoc));
    var ladder := Ladder(branches, input);
    ShortWalkIsEverything(ladder, input.base.targetCount, input.base.hardCap);
    JoinedContents(branches, input, ladder, c);
    MapContains(Ranked(branches, input), TileMaker(input.base.effLoc.densityClass), c);
  }

  // ---------------------------------------------------------------- widening

  function RankOf(input: RankInput): RankableBranch -> int {
    (b: RankableBranch) => var rung := AdmittedRung(b.branch, input); if rung.Some? then RungOrdinal(rung.value) else -1
  }

  lemma RungSize(branches: seq<RankableBranch>, input: RankInputV3, i: nat)
    requires !LacksPopularityMap(input) && i <= MaxOrdinal(input.base)
    ensures |Ladder(branches, input)[i]| + CountBelow(branches, RankOf(input.base), i) == CountBelow(branches, RankOf(input.base), i + 1)
  {
    var rung := RUNG_ORDER[i];
    OrdinalIsPosition(i);
    forall b | b in branches ensures Collector(input.base, rung)(b).Some? <==> RankOf(input.base)(b) == i {
      var admitted := AdmittedRung(b.branch, input.base);
      assert admitted.Some? ==> RUNG_ORDER[RungOrdinal(admitted.value)] == admitted.value;
    }
    BucketSize(branches, Collector(input.base, rung), RankOf(input.base), i);
  }

  /** Bounds no smaller than the input never bite. */
  ghost predicate Uncapped(branches: seq<RankableBranch>, input: RankInputV3) {
    |branches| <= input.base.targetCount && |branches| <= input.base.hardCap
  }

  lemma UncappedRankingIsTheJoin(branches: seq<RankableBranch>, input: RankInputV3)
    requires !LacksPopularityMap(input) && Uncapped(branches, input)
    ensures Ranked(branches, input) == JoinFirst(Ladder(branches, input), |Ladder(branches, input)|)
  {
    var ladder := Ladder(branches, input);
    forall i | 0 <= i < |ladder|
      ensures |ladder[i]| + CountBelow(branches, RankOf(input.base), i) == CountBelow(branches, RankOf(input.base), i + 1)
    {
      RungSize(branches, input, i);
    }
    JoinSize(ladder, |ladder|, branches, RankOf(input.base));
    UncappedWalkIsEverything(ladder, input.base.targetCount, input.base.hardCap);
  }

  /** Every tile comes from an admitted branch. */
  lemma RankedAreAdmitted(branches: seq<RankableBranch>, input: RankInputV3, c: Collected)
    requires !LacksPopularityMap(input) && c in Ranked(branches, input)
    ensures IsCollected(c, branches, input.base)
  {
    var ladder := Ladder(branches, input);
    var stop := StopAfter(ladder, input.base.targetCount, input.base.hardCap);
    JoinGrows(ladder, stop, |ladder|);
    JoinedContents(branches, input, ladder, c);
  }

  /** Every tile tells of an admitted branch: its ids, name, rung, tier, band and distance. */
  lemma EveryTileIsAnAdmittedBranch(branches: seq<RankableBranch>, input: RankInputV3, t: RankedBranchTile)
    requires !LacksPopularityMap(input) && t in Tiles(branches, input)
    ensures exists b | b in branches ::
      && AdmittedRung(b.branch, input.base) == Some(t.supplyRung)
      && t.id == b.branch.id && t.merchantId == b.merchantId && t.businessName == b.merchant.businessName
      && t.supplyTier == LegacyTier(t.supplyRung)
      && t.proximityBand == ProximityBandOf(t.supplyRung, input.base.effLoc.densityClass)
      && t.distanceMetres == DistanceTo(b.branch, input.base.effLoc)
  {
    var i :| 0 <= i < |Tiles(branches, input)| && Tiles(branches, input)[i] == t;
    var c := Ranked(branches, input)[i];
    RankedAreAdmitted(branches, input, c);
    assert c.item in branches && t == TileOf(c, input.base.effLoc.densityClass);
  }

  /** At most as wide, from the same place, with no catchment target of its own. */
  ghost predicate Widens(input: RankInput, input': RankInput) {
    && input.effLoc == input'.effLoc
    && Width(input.ladderProfile) <= Width(input'.ladderProfile)
    && forall t | t in input.outgoingCatchmentTargetIds :: t in input'.outgoingCatchmentTargetIds
  }

  /** The same branch, seen no less specifically. */
  ghost predicate NoCoarser(t: RankedBranchTile, t': RankedBranchTile) {
    && t'.id == t.id && t'.merchantId == t.merchantId && t'.distanceMetres == t.distanceMetres
    && RungOrdinal(t'.supplyRung) <= RungOrdinal(t.supplyRung)
    && Coarseness(t'.proximityBand) <= Coarseness(t.proximityBand)
  }

  lemma AdmissionWidens(b: Branch, input: RankInput, input': RankInput)
    requires Widens(input, input') && AdmittedRung(b, input).Some?
    ensures AdmittedRung(b, input').Some?
    ensures RungOrdinal(AdmittedRung(b, input').value) <= RungOrdinal(AdmittedRung(b, input).value)
  {
  }

  /** A wider profile or more catchment targets never drop a branch or make its rung or band less specific. */
  lemma WideningKeepsEveryTile(branches: seq<RankableBranch>, input: RankInputV3, input': RankInputV3, t: RankedBranchTile)
    requires !LacksPopularityMap(input) && !LacksPopularityMap(input')
    requires Widens(input.base, input'.base) && Uncapped(branches, input')
    requires t in Tiles(branches, input)
    ensures exists t' | t' in Tiles(branches, input') :: NoCoarser(t, t')
  {
    var d := input.base.effLoc.densityClass;
    var i :| 0 <= i < |Tiles(branches, input)| && Tiles(branches, input)[i] == t;
    var c := Ranked(branches, input)[i];
    RankedAreAdmitted(branches, input, c);
    AdmissionWidens(c.item.branch, input.base, input'.base);
    var rung := AdmittedRung(c.item.branch, input'.base).value;
    var c' := Collected(c.item, rung, c.distance);
    UncappedRankingIsTheJoin(branches, input');
    JoinedContents(branches, input', Ladder(branches, input'), c');
    MapContains(Ranked(branches, input'), TileMaker(d), c');
    BandsFollowRungs(rung, c.rung, d);
    assert NoCoarser(t, TileOf(c', d));
  }
}
