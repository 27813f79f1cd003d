/** What `rankMerchantsV2` promises about the list it returns, under every intent. */
module MerchantRankingLaws {
  import opened Base
  import opened LadderProfiles
  import opened LadderWalk
  import opened MerchantRanking
  import opened RungClassification
  import opened Sequences
  import opened Sorting
  import R = RankingRefinement
  import B = BranchRankingLaws

  /** The ranked list before it is rendered as tiles. */
  function Ranked(merchants: seq<RankableMerchant>, input: RankInput): seq<MerchantEntry> {
    Walk(EntryLadder(Entries(merchants, input), input), input.targetCount, input.hardCap)
  }

  /** By distance: known before unknown, nearer first, names deciding between equal known distances. */
  predicate NoFarther(e: EffectiveLocation, a: MerchantEntry, b: MerchantEntry) {
    match (EntryDistance(e, a), EntryDistance(e, b))
    case (Some(x), Some(y)) => x < y || (x == y && a.businessName <= b.businessName)
    case (Some(_), None) => true
    case (None, Some(_)) => false
    case (None, None) => true
  }

  /** By quality: three reviews and more before fewer, better ratings first, names deciding between those with fewer. */
  predicate NoWorse(a: MerchantEntry, b: MerchantEntry) {
    if (a.reviewCount >= 3) != (b.reviewCount >= 3) then a.reviewCount >= 3
    else if a.reviewCount >= 3 then !B.RatedHigher(b.avgRating, a.avgRating)
    else a.businessName <= b.businessName
  }

  predicate MayStandBefore(input: RankInput, a: MerchantEntry, b: MerchantEntry) {
    var rung := a.contextBranch.rung;
    || RungOrdinal(rung) < RungOrdinal(b.contextBranch.rung)
    || (rung == b.contextBranch.rung
        && if input.categoryIntent == LOCAL || (input.categoryIntent == MIXED && rung == NEARBY)
           then NoFarther(input.effLoc, a, b) else NoWorse(a, b))
  }

  lemma CompareMeansBefore(input: RankInput, rung: SupplyRung, a: MerchantEntry, b: MerchantEntry)
    requires a.contextBranch.rung == rung == b.contextBranch.rung
    ensures CompareEntries(input, rung, a, b) <= 0 <==> MayStandBefore(input, a, b)
  {
  }

  lemma EntryOrderIsConsistent(input: RankInput, rung: SupplyRung)
    ensures Consistent(EntryComparator(input, rung))
  {
    var cmp := EntryComparator(input, rung);
    forall a, b, c ensures CompareEntries(input, rung, a, b) <= 0 && CompareEntries(input, rung, b, c) <= 0 ==> CompareEntries(input, rung, a, c) <= 0 {
    }
    assert forall a, b :: cmp(a, b) == CompareEntries(input, rung, a, b);
    assert forall a, b :: cmp(a, b) <= 0 || cmp(b, a) <= 0;
  }

  lemma SortedRungIsOrdered(entries: seq<MerchantEntry>, input: RankInput, rung: SupplyRung, before: (MerchantEntry, MerchantEntry) -> bool)
    requires forall a, b :: before(a, b) <==> MayStandBefore(input, a, b)
    ensures Ordered(SortedEntries(entries, input, rung), before)
  {
    var sorted := SortedEntries(entries, input, rung);
    EntryOrderIsConsistent(input, rung);
    SortSorts(EntriesOn(entries, rung), EntryComparator(input, rung));
    R.SortedEntriesContents(entries, input, rung);
    forall i, j | 0 <= i < j < |sorted| ensures before(sorted[i], sorted[j]) {
      assert sorted[i] in sorted && sorted[j] in sorted;
      CompareMeansBefore(input, rung, sorted[i], sorted[j]);
    }
  }

  /** Rungs never go back along the list, and within a rung the intent's order holds. */
  lemma ListIsInPromisedOrder(merchants: seq<RankableMerchant>, input: RankInput, i: nat, j: nat)
    requires i < j < |Ranked(merchants, input)|
    ensures MayStandBefore(input, Ranked(merchants, input)[i], Ranked(merchants, input)[j])
  {
    var entries, before := Entries(merchants, input), (a, b) => MayStandBefore(input, a, b);
    var ladder := EntryLadder(entries, input);
    forall k | 0 <= k < |ladder| ensures Ordered(ladder[k], before) {
      SortedRungIsOrdered(entries, input, RUNG_ORDER[k], before);
    }
    R.LadderSeparatesRungs(entries, input, before);
    JoinOrdered(ladder, |ladder|, before);
    JoinGrows(ladder, StopAfter(ladder, input.targetCount, input.hardCap), |ladder|);
    assert Ranked(merchants, input) <= JoinFirst(ladder, |ladder|);
  }

  /** No merchant has two tiles, and each stands with its best admitted branch. */
  lemma OneTilePerMerchantOnItsBestBranch(merchants: seq<RankableMerchant>, input: RankInput, i: nat, j: nat)
    requires R.IdsAreUnique(merchants) && i < |Ranked(merchants, input)| && j < |Ranked(merchants, input)|
    ensures i != j ==> Ranked(merchants, input)[i].id != Ranked(merchants, input)[j].id
    ensures R.IsBestBranch(R.AsCollected(input.effLoc)(Ranked(merchants, input)[i]), R.Flatten(merchants), input)
  {
    var entries, ranked := Entries(merchants, input), Ranked(merchants, input);
    var ladder := EntryLadder(entries, input);
    R.EntriesAreDistinct(merchants, input);
    R.JoinedEntriesDistinct(entries, input, ladder);
    JoinGrows(ladder, StopAfter(ladder, input.targetCount, input.hardCap), |ladder|);
    assert ranked <= JoinFirst(ladder, |ladder|);
    R.JoinedEntries(entries, input, ladder, ranked[i]);
    R.JoinedEntries(entries, input, ladder, ranked[j]);
    R.EntryIsBest(merchants, input, ranked[i]);
    if ranked[i].id == ranked[j].id {
      R.EntriesWithOneIdAreOne(merchants, input, ranked[i], ranked[j]);
    }
  }

  /** Every tile tells of its merchant's best branch: ids, name, rung, tier, band and distance. */
  lemma EveryTileIsABestBranch(merchants: seq<RankableMerchant>, input: RankInput, i: nat)
    requires R.IdsAreUnique(merchants) && i < |Tiles(merchants, input)|
    ensures exists c | R.IsBestBranch(c, R.Flatten(merchants), input) ::
      Tiles(merchants, input)[i] ==
        RankedTile(c.item.merchantId, c.item.merchant.businessName, c.rung, LegacyTier(c.rung),
                   ProximityBandOf(c.rung, input.effLoc.densityClass), DistanceTo(c.item.branch, input.effLoc), c.item.branch.id)
  {
    OneTilePerMerchantOnItsBestBranch(merchants, input, i, i);
    var c := R.AsCollected(input.effLoc)(Ranked(merchants, input)[i]);
    assert R.IsBestBranch(c, R.Flatten(merchants), input);
  }

  /** Raising the target or the cap only appends tiles. */
  lemma RaisingBoundsAppendsTiles(merchants: seq<RankableMerchant>, input: RankInput, targetCount: int, hardCap: int)
    requires input.targetCount <= targetCount && input.hardCap <= hardCap
    ensures Tiles(merchants, input) <= Tiles(merchants, input.(targetCount := targetCount, hardCap := hardCap))
  {
    var input' := input.(targetCount := targetCount, hardCap := hardCap);
    EntriesIgnoreBounds(merchants, input, input');
    LadderIgnoresBounds(Entries(merchants, input), input, input');
    var ladder := EntryLadder(Entries(merchants, input), input);
    RaisingBoundsExtends(ladder, input.targetCount, input.hardCap, targetCount, hardCap);
    B.MapKeepsPrefix(Ranked(merchants, input), Ranked(merchants, input'), TileMaker(input.effLoc));
  }

  ghost predicate SameReach(input: RankInput, input': RankInput) {
    input' == input.(targetCount := input'.targetCount, hardCap := input'.hardCap)
  }

  lemma {:induction false} CandidatesIgnoreBounds(merchants: seq<RankableMerchant>, input: RankInput, input': RankInput)
    requires SameReach(input, input')
    ensures Candidates(merchants, input) == Candidates(merchants, input')
  {
    if merchants != [] {
      var last := merchants[|merchants| - 1];
      CandidatesIgnoreBounds(merchants[..|merchants| - 1], input, input');
      FilterMapAgrees(last.branches, MatchMaker(last.id, input), MatchMaker(last.id, input'));
    }
  }

  lemma EntriesIgnoreBounds(merchants: seq<RankableMerchant>, input: RankInput, input': RankInput)
    requires SameReach(input, input')
    ensures Entries(merchants, input) == Entries(merchants, input')
  {
    CandidatesIgnoreBounds(merchants, input, input');
    KeysAreKnown(merchants, input);
  }

  lemma LadderIgnoresBounds(entries: seq<MerchantEntry>, input: RankInput, input': RankInput)
    requires SameReach(input, input')
    ensures EntryLadder(entries, input) == EntryLadder(entries, input')
  {
    var l, m := EntryLadder(entries, input), EntryLadder(entries, input');
    forall i | 0 <= i < |l| ensures l[i] == m[i] {
      var rung := RUNG_ORDER[i];
      SortAgrees(EntriesOn(entries, rung), EntryComparator(input, rung), EntryComparator(input', rung));
    }
    assert l == m;
  }
}
