/** `rankBranchesV3`, the branch-first ladder-walk ranker of src/api/lib/ranking.ts. */
module BranchRanking {
  import opened Base
  import opened LadderProfiles
  import opened LadderWalk
  import opened RungClassification
  import opened RungStitching
  import opened Sequences
  import opened Sorting

  /** `businessName` is the name's place in `localeCompare` order; equal places compare as 0. */
  datatype MerchantCard = MerchantCard(id: int, businessName: int, avgRating: Option<real>, reviewCount: int)

  datatype RankableBranch = RankableBranch(branch: Branch, merchantId: int, merchant: MerchantCard)

  datatype SortBy = BY_DISTANCE | BY_QUALITY | BY_POPULARITY

  datatype RankInputV3 = RankInputV3(base: RankInput, sortBy: Option<SortBy>, popularityMap: Option<map<int, real>>)

  datatype RankError = PopularityMapMissing

  datatype Collected = Collected(item: RankableBranch, rung: SupplyRung, distance: Option<real>)

  datatype RankedBranchTile = RankedBranchTile(
    id: int,
    merchantId: int,
    businessName: int,
    supplyRung: SupplyRung,
    supplyTier: SupplyTier,
    proximityBand: ProximityBand,
    distanceMetres: Option<real>)

  datatype RankBranchesResult = RankBranchesResult(tiles: seq<RankedBranchTile>, rungCounts: map<SupplyRung, nat>)

  // ---------------------------------------------------------------- comparators

  datatype Order = DistanceOrder | QualityOrder | PopularityOrder(popularity: map<int, real>)

  function CompareDistance(a: Collected, b: Collected): int {
    var d := CompareMetres(a.distance, b.distance);
    if d != 0 then d
    else if a.item.merchant.businessName != b.item.merchant.businessName
    then a.item.merchant.businessName - b.item.merchant.businessName
    else a.item.branch.id - b.item.branch.id
  }

  predicate IsRated(c: MerchantCard) {
    c.reviewCount >= MIN_REVIEW_COUNT_FOR_RATING_SORT
  }

  function RatingOrZero(c: MerchantCard): real {
    if c.avgRating.Some? then c.avgRating.value else 0.0
  }

  function CompareQuality(a: Collected, b: Collected): int {
    var ma, mb := a.item.merchant, b.item.merchant;
    if IsRated(ma) && IsRated(mb) then
      var d := Sign(RatingOrZero(mb) - RatingOrZero(ma));
      if d != 0 then d else CompareDistance(a, b)
    else if IsRated(ma) then -1
    else if IsRated(mb) then 1
    else CompareDistance(a, b)
  }

  function PopularityOf(popularity: map<int, real>, merchantId: int): real {
    if merchantId in popularity then popularity[merchantId] else 0.0
  }

  function ComparePopularity(popularity: map<int, real>, a: Collected, b: Collected): int {
    var d := Sign(PopularityOf(popularity, b.item.merchantId) - PopularityOf(popularity, a.item.merchantId));
    if d != 0 then d else CompareDistance(a, b)
  }

  function Compare(order: Order, a: Collected, b: Collected): int {
    match order
    case DistanceOrder => CompareDistance(a, b)
    case QualityOrder => CompareQuality(a, b)
    case PopularityOrder(popularity) => ComparePopularity(popularity, a, b)
  }

  function Comparator(order: Order): (Collected, Collected) -> int {
    (a, b) => Compare(order, a, b)
  }

  predicate LacksPopularityMap(input: RankInputV3) {
    input.sortBy == Some(BY_POPULARITY) && input.popularityMap.None?
  }

  /** Which comparator a rung is sorted by: a `sortBy` override wins over the category's intent. */
  function OrderFor(input: RankInputV3, rung: SupplyRung): (order: Result<Order, RankError>)
    ensures order.Err? <==> LacksPopularityMap(input)
  {
    match input.sortBy
    case Some(BY_POPULARITY) =>
      if input.popularityMap.None? then Err(PopularityMapMissing) else Ok(PopularityOrder(input.popularityMap.value))
    case Some(BY_DISTANCE) => Ok(DistanceOrder)
    case Some(BY_QUALITY) => Ok(QualityOrder)
    case None =>
      match input.base.categoryIntent
      case LOCAL => Ok(DistanceOrder)
      case DESTINATION => Ok(QualityOrder)
      case MIXED => Ok(if rung == NEARBY then DistanceOrder else QualityOrder)
  }

  /** Each comparator ranks any two collected branches, transitively. */
  lemma ComparatorIsConsistent(order: Order)
    ensures Consistent(Comparator(order))
  {
    forall a, b, c ensures Compare(order, a, b) <= 0 && Compare(order, b, c) <= 0 ==> Compare(order, a, c) <= 0 {
      CompareIsTransitive(order, a, b, c);
    }
    var cmp := Comparator(order);
    assert forall a, b :: cmp(a, b) <= 0 || cmp(b, a) <= 0;
  }

  lemma CompareIsTransitive(order: Order, a: Collected, b: Collected, c: Collected)
    ensures Compare(order, a, b) <= 0 && Compare(order, b, c) <= 0 ==> Compare(order, a, c) <= 0
  {
  }

  /** Every comparator ends in the branch id: only branches with one id tie. */
  lemma TiesShareTheId(order: Order, a: Collected, b: Collected)
    requires Compare(order, a, b) <= 0 && Compare(order, b, a) <= 0
    ensures a.item.branch.id == b.item.branch.id
  {
  }

  // ---------------------------------------------------------------- what is ranked

  /** The branch as collected on `rung`, if that is where it is collected. */
  function CollectAt(b: RankableBranch, input: RankInput, rung: SupplyRung): Option<Collected> {
    if AdmittedRung(b.branch, input) == Some(rung) then Some(Collected(b, rung, DistanceTo(b.branch, input.effLoc))) else None
  }

  function Collector(input: RankInput, rung: SupplyRung): RankableBranch -> Option<Collected> {
    b => CollectAt(b, input, rung)
  }

  function Bucket(branches: seq<RankableBranch>, input: RankInput, rung: SupplyRung): seq<Collected> {
    FilterMap(branches, Collector(input, rung))
  }

  function SortedRung(branches: seq<RankableBranch>, input: RankInputV3, rung: SupplyRung): seq<Collected>
    requires !LacksPopularityMap(input)
  {
    Sort(Bucket(branches, input.base, rung), Comparator(OrderFor(input, rung).value))
  }

  /** The sorted rungs from NEARBY to the profile's longest rung. */
  function Ladder(branches: seq<RankableBranch>, input: RankInputV3): (rungs: seq<seq<Collected>>)
    requires !LacksPopularityMap(input)
    ensures |rungs| == MaxOrdinal(input.base) + 1
    ensures forall i | 0 <= i < |rungs| :: rungs[i] == SortedRung(branches, input, RUNG_ORDER[i])
  {
    seq(MaxOrdinal(input.base) + 1, i requires 0 <= i <= MaxOrdinal(input.base) => SortedRung(branches, input, RUNG_ORDER[i]))
  }

  function TileOf(c: Collected, d: DensityClass): RankedBranchTile {
    RankedBranchTile(c.item.branch.id, c.item.merchantId, c.item.merchant.businessName,
                     c.rung, LegacyTier(c.rung), ProximityBandOf(c.rung, d), c.distance)
  }

  function TileMaker(d: DensityClass): Collected -> RankedBranchTile {
    c => TileOf(c, d)
  }

  /** The ranked list before it is rendered as tiles. */
  function Ranked(branches: seq<RankableBranch>, input: RankInputV3): seq<Collected>
    requires !LacksPopularityMap(input)
  {
    Walk(Ladder(branches, input), input.base.targetCount, input.base.hardCap)
  }

  function Tiles(branches: seq<RankableBranch>, input: RankInputV3): seq<RankedBranchTile>
    requires !LacksPopularityMap(input)
  {
    Map(Ranked(branches, input), TileMaker(input.base.effLoc.densityClass))
  }

  function RungOf(tile: RankedBranchTile): SupplyRung {
    tile.supplyRung
  }

  // ---------------------------------------------------------------- the algorithm

  function BucketIn(byRung: map<SupplyRung, seq<Collected>>, rung: SupplyRung): seq<Collected> {
    if rung in byRung then byRung[rung] else []
  }

  lemma BucketGrows(branches: seq<RankableBranch>, i: nat, input: RankInput, rung: SupplyRung)
    requires i < |branches|
    ensures Bucket(branches[..i + 1], input, rung) == Bucket(branches[..i], input, rung) +
      (if AdmittedRung(branches[i].branch, input) == Some(rung)
       then [Collected(branches[i], rung, DistanceTo(branches[i].branch, input.effLoc))] else [])
  {
    assert branches[..i + 1] == branches[..i] + [branches[i]];
    FilterMapAppend(branches[..i], [branches[i]], Collector(input, rung));
  }

  /** Step 1: the loop that fills the buckets. */
  method CollectByRung(branches: seq<RankableBranch>, input: RankInput) returns (byRung: map<SupplyRung, seq<Collected>>)
    ensures forall rung :: BucketIn(byRung, rung) == Bucket(branches, input, rung)
  {
    byRung := map[];
    for i := 0 to |branches|
      invariant forall rung :: BucketIn(byRung, rung) == Bucket(branches[..i], input, rung)
    {
      var b := branches[i];
      forall rung { BucketGrows(branches, i, input, rung); }
      var admitted := AdmittedRung(b.branch, input);
      if admitted.Some? {
        var rung := admitted.value;
        byRung := byRung[rung := BucketIn(byRung, rung) + [Collected(b, rung, DistanceTo(b.branch, input.effLoc))]];
      }
    }
    assert branches[..|branches|] == branches;
  }

  /** Sorting the first rung already throws when popularity is asked for without its map. */
  method RankBranchesV3(branches: seq<RankableBranch>, input: RankInputV3) returns (r: Result<RankBranchesResult, RankError>)
    ensures r.Err? <==> LacksPopularityMap(input)
    ensures r.Ok? ==> r.value.tiles == Tiles(branches, input)
    ensures r.Ok? ==> forall rung :: rung in r.value.rungCounts && r.value.rungCounts[rung] == CountOn(r.value.tiles, RungOf, rung)
  {
    var byRung := CollectByRung(branches, input.base);
    if LacksPopularityMap(input) {
      return Err(PopularityMapMissing);
    }
    var sortWithinRung := (rung: SupplyRung) => Sort(BucketIn(byRung, rung), Comparator(OrderFor(input, rung).value));
    assert SortedLadder(sortWithinRung, MaxOrdinal(input.base)) == Ladder(branches, input);
    var tiles, rungCounts := WalkRungs(sortWithinRung, MaxOrdinal(input.base), input.base.targetCount, input.base.hardCap,
                                       TileMaker(input.base.effLoc.densityClass), RungOf);
    return Ok(RankBranchesResult(tiles, rungCounts));
  }
}
