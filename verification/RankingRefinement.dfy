/**
 * `rankMerchantsV2` against `rankBranchesV3`: with LOCAL intent and bounds that never bite, the
 * merchant list is the branch list reduced to each merchant's first branch, exactly when
 * merchants that V2 cannot tell apart were collected in V3's order.
 */
module RankingRefinement {
  import opened Base
  import opened BranchRanking
  import opened BranchRankingLaws
  import opened LadderProfiles
  import opened LadderWalk
  import opened RungClassification
  import opened Sequences
  import opened Sorting
  import V2 = MerchantRanking

  function CardOf(m: V2.RankableMerchant): MerchantCard {
    MerchantCard(m.id, m.businessName, m.avgRating, m.reviewCount)
  }

  function Owned(m: V2.RankableMerchant): Branch -> RankableBranch {
    b => RankableBranch(b, m.id, CardOf(m))
  }

  /** The same supply as V3 takes it: one row per branch. */
  function Flatten(merchants: seq<V2.RankableMerchant>): seq<RankableBranch> {
    if merchants == [] then []
    else Flatten(merchants[..|merchants| - 1]) + Map(merchants[|merchants| - 1].branches, Owned(merchants[|merchants| - 1]))
  }

  function AsV3(input: RankInput): RankInputV3 {
    RankInputV3(input, None, None)
  }

  function AsBranchTile(t: V2.RankedTile): RankedBranchTile {
    RankedBranchTile(t.contextBranchId, t.merchantId, t.businessName, t.supplyRung, t.supplyTier, t.proximityBand, t.distanceMetres)
  }

  function MerchantOf(t: RankedBranchTile): int {
    t.merchantId
  }

  /** Merchant ids identify merchants, and branch ids identify branches. */
  ghost predicate IdsAreUnique(merchants: seq<V2.RankableMerchant>) {
    && (forall m, n | m in merchants && n in merchants && m.id == n.id :: m == n)
    && IdsIdentify(Flatten(merchants))
  }

  /** V2's comparator does not separate the two: same rung, and both without coordinates or equal in distance and name. */
  predicate V2CannotSeparate(e: EffectiveLocation, a: V2.MerchantEntry, b: V2.MerchantEntry) {
    && a.contextBranch.rung == b.contextBranch.rung
    && V2.EntryDistance(e, a) == V2.EntryDistance(e, b)
    && (V2.EntryDistance(e, a).Some? ==> a.businessName == b.businessName)
  }

  predicate NameThenId(a: V2.MerchantEntry, b: V2.MerchantEntry) {
    || a.businessName < b.businessName
    || (a.businessName == b.businessName && a.contextBranch.branch.id <= b.contextBranch.branch.id)
  }

  /** Merchants that V2 cannot separate are collected by name, then by context branch id. */
  predicate TiesCollectedInOrder(entries: seq<V2.MerchantEntry>, e: EffectiveLocation) {
    forall i, j | 0 <= i < j < |entries| && V2CannotSeparate(e, entries[i], entries[j]) :: NameThenId(entries[i], entries[j])
  }

  // ---------------------------------------------------------------- one order for both lists

  function CompareRanked(a: Collected, b: Collected): int {
    if a.rung != b.rung then RungOrdinal(a.rung) - RungOrdinal(b.rung) else CompareDistance(a, b)
  }

  function Ranking(): (Collected, Collected) -> int {
    (a, b) => CompareRanked(a, b)
  }

  function AsCollected(e: EffectiveLocation): V2.MerchantEntry -> Collected {
    (m: V2.MerchantEntry) =>
      Collected(RankableBranch(m.contextBranch.branch, m.id, MerchantCard(m.id, m.businessName, m.avgRating, m.reviewCount)),
                m.contextBranch.rung, V2.EntryDistance(e, m))
  }

  function EntryRanking(e: EffectiveLocation): (V2.MerchantEntry, V2.MerchantEntry) -> int {
    (a, b) => CompareRanked(AsCollected(e)(a), AsCollected(e)(b))
  }

  function MerchantIdOf(c: Collected): int {
    c.item.merchantId
  }

  lemma SameOrdinalSameRung(r: SupplyRung, s: SupplyRung)
    ensures RungOrdinal(r) == RungOrdinal(s) ==> r == s
  {
  }

  lemma RankingTiesShareTheId(a: Collected, b: Collected)
    requires CompareRanked(a, b) <= 0 && CompareRanked(b, a) <= 0
    ensures a.rung == b.rung && a.item.branch.id == b.item.branch.id
  {
  }

  lemma RankingIsAntisymmetric()
    ensures forall a, b | Ranking()(a, b) < 0 :: Ranking()(b, a) > 0
    ensures forall a, b | Ranking()(a, b) == 0 :: Ranking()(b, a) == 0
  {
  }

  // ---------------------------------------------------------------- the branch list

  lemma {:induction false} FlattenContents(merchants: seq<V2.RankableMerchant>, item: RankableBranch)
    ensures item in Flatten(merchants) <==> exists m | m in merchants :: item.branch in m.branches && item == Owned(m)(item.branch)
  {
    if merchants != [] {
      var most, last := merchants[..|merchants| - 1], merchants[|merchants| - 1];
      assert merchants == most + [last];
      FlattenContents(most, item);
      OwnedContents(last, item);
    }
  }

  lemma OwnedContents(m: V2.RankableMerchant, item: RankableBranch)
    ensures item in Map(m.branches, Owned(m)) <==> item.branch in m.branches && item == Owned(m)(item.branch)
  {
  }

  /** Collected branches that tie are the same branch. */
  lemma CollectedDoNotTie(branches: seq<RankableBranch>, input: RankInput, cs: seq<Collected>)
    requires IdsIdentify(branches) && forall c | c in cs :: IsCollected(c, branches, input)
    ensures NoTies(cs, Ranking())
  {
  }

  /** The uncapped V3 list in one order. */
  lemma BranchListIsSorted(merchants: seq<V2.RankableMerchant>, input: RankInput, ranked: seq<Collected>)
    requires input.categoryIntent == LOCAL && Uncapped(Flatten(merchants), AsV3(input))
    requires ranked == Ranked(Flatten(merchants), AsV3(input))
    ensures Sorted(ranked, Ranking())
    ensures forall c :: c in ranked <==> IsCollected(c, Flatten(merchants), input)
  {
    var branches, cmp := Flatten(merchants), Ranking();
    UncappedRankingIsTheJoin(branches, AsV3(input));
    forall c ensures c in ranked <==> IsCollected(c, branches, input) {
      JoinedContents(branches, AsV3(input), Ladder(branches, AsV3(input)), c);
    }
    forall i, j | 0 <= i < j < |ranked| ensures cmp(ranked[i], ranked[j]) <= 0 {
      ListIsInPromisedOrder(branches, AsV3(input), i, j);
      DistanceMeansNoFarther(ranked[i], ranked[j]);
    }
  }

  /** Its reduction to first branches is strictly sorted and holds each merchant's best branch. */
  lemma FirstBranches(merchants: seq<V2.RankableMerchant>, input: RankInput, firsts: seq<Collected>)
    requires input.categoryIntent == LOCAL && IdsAreUnique(merchants) && Uncapped(Flatten(merchants), AsV3(input))
    requires firsts == FirstWithKey(Ranked(Flatten(merchants), AsV3(input)), MerchantIdOf)
    ensures StrictlySorted(firsts, Ranking())
    ensures forall c :: c in firsts <==> IsBestBranch(c, Flatten(merchants), input)
  {
    var branches := Flatten(merchants);
    var ranked, cmp := Ranked(branches, AsV3(input)), Ranking();
    BranchListIsSorted(merchants, input, ranked);
    FirstWithKeyStaysSorted(ranked, MerchantIdOf, cmp);
    CollectedDoNotTie(branches, input, ranked);
    CollectedDoNotTie(branches, input, firsts);
    RankingIsAntisymmetric();
    StrictlySortedWithoutTies(firsts, cmp);
    forall c ensures c in firsts <==> IsBestBranch(c, branches, input) {
      FirstWithKeyIsLeast(ranked, MerchantIdOf, cmp, c);
    }
  }

  /** Collected, and no branch of the same merchant ranks before it. */
  ghost predicate IsBestBranch(c: Collected, branches: seq<RankableBranch>, input: RankInput) {
    && IsCollected(c, branches, input)
    && forall d | IsCollected(d, branches, input) && d.item.merchantId == c.item.merchantId :: CompareRanked(c, d) <= 0
  }

  // ---------------------------------------------------------------- the merchant list

  lemma {:induction false} CandidatesContents(merchants: seq<V2.RankableMerchant>, input: RankInput, c: V2.Candidate)
    ensures c in V2.Candidates(merchants, input) <==>
      && AdmittedRung(c.matched.branch, input) == Some(c.matched.rung)
      && exists m | m in merchants :: m.id == c.merchantId && c.matched.branch in m.branches
  {
    if merchants != [] {
      var most, last := merchants[..|merchants| - 1], merchants[|merchants| - 1];
      assert merchants == most + [last];
      CandidatesContents(most, input, c);
      OwnCandidates(last, input, c);
    }
  }

  lemma OwnCandidates(m: V2.RankableMerchant, input: RankInput, c: V2.Candidate)
    ensures c in V2.CandidatesOf(m, input) <==>
      m.id == c.merchantId && c.matched.branch in m.branches && AdmittedRung(c.matched.branch, input) == Some(c.matched.rung)
  {
    var maker := V2.MatchMaker(m.id, input);
    FilterMapContents(m.branches, maker, c);
    assert forall b :: maker(b) == Some(c) <==>
      b == c.matched.branch && m.id == c.merchantId && AdmittedRung(b, input) == Some(c.matched.rung);
  }

  lemma GroupContents(cs: seq<V2.Candidate>, id: int, x: V2.Matched)
    ensures x in V2.Group(cs, id) <==> V2.Candidate(id, x) in cs
  {
    FilterMapContents(cs, V2.Ungroup(id), x);
    assert V2.Ungroup(id)(V2.Candidate(id, x)) == Some(x);
    assert forall c :: V2.Ungroup(id)(c) == Some(x) ==> c == V2.Candidate(id, x);
  }

  function MatchedAsCollected(m: V2.RankableMerchant, x: V2.Matched, e: EffectiveLocation): Collected {
    Collected(Owned(m)(x.branch), x.rung, DistanceTo(x.branch, e))
  }

  /** A merchant's candidate branches are its collected branches. */
  lemma GroupIsCollected(merchants: seq<V2.RankableMerchant>, input: RankInput, m: V2.RankableMerchant, x: V2.Matched)
    requires IdsAreUnique(merchants) && m in merchants
    ensures x in V2.Group(V2.Candidates(merchants, input), m.id) <==>
      IsCollected(MatchedAsCollected(m, x, input.effLoc), Flatten(merchants), input)
  {
    GroupContents(V2.Candidates(merchants, input), m.id, x);
    CandidatesContents(merchants, input, V2.Candidate(m.id, x));
    FlattenContents(merchants, Owned(m)(x.branch));
  }

  lemma {:induction false} MerchantByIdFinds(merchants: seq<V2.RankableMerchant>, id: int)
    ensures var m := V2.MerchantById(merchants, id); m.Some? ==> m.value in merchants && m.value.id == id
  {
    if merchants != [] {
      MerchantByIdFinds(merchants[..|merchants| - 1], id);
    }
  }

  lemma ContextOrderIsConsistent(e: EffectiveLocation)
    ensures Consistent(V2.ContextComparator(e))
  {
    forall a, b, c ensures V2.CompareContext(e, a, b) <= 0 && V2.CompareContext(e, b, c) <= 0 ==> V2.CompareContext(e, a, c) <= 0 {
      SameOrdinalSameRung(a.rung, b.rung);
      SameOrdinalSameRung(b.rung, c.rung);
      SameOrdinalSameRung(a.rung, c.rung);
    }
    assert forall a, b :: V2.ContextComparator(e)(a, b) <= 0 || V2.ContextComparator(e)(b, a) <= 0;
  }

  lemma ContextBranchIsLeast(group: seq<V2.Matched>, e: EffectiveLocation)
    requires group != []
    ensures V2.ContextBranch(group, e) in group
    ensures forall x | x in group :: V2.CompareContext(e, V2.ContextBranch(group, e), x) <= 0
  {
    var cmp := V2.ContextComparator(e);
    var sorted := Sort(group, cmp);
    ContextOrderIsConsistent(e);
    SortSorts(group, cmp);
    SortPermutes(group, cmp);
    SameElements(group, sorted);
    forall x | x in group ensures cmp(sorted[0], x) <= 0 {
      var i :| 0 <= i < |sorted| && sorted[i] == x;
      assert i > 0 ==> cmp(sorted[0], sorted[i]) <= 0;
    }
  }

  /** Within one merchant the context order is V3's order. */
  lemma ContextOrderIsRanking(m: V2.RankableMerchant, e: EffectiveLocation, a: V2.Matched, b: V2.Matched)
    ensures V2.CompareContext(e, a, b) == CompareRanked(MatchedAsCollected(m, a, e), MatchedAsCollected(m, b, e))
  {
  }

  lemma EntryMerchant(merchants: seq<V2.RankableMerchant>, input: RankInput, entry: V2.MerchantEntry)
    returns (m: V2.RankableMerchant)
    requires entry in V2.Entries(merchants, input)
    ensures m in merchants && m.id == entry.id
    ensures V2.Group(V2.Candidates(merchants, input), m.id) != []
    ensures entry.contextBranch == V2.ContextBranch(V2.Group(V2.Candidates(merchants, input), m.id), input.effLoc)
    ensures AsCollected(input.effLoc)(entry) == MatchedAsCollected(m, entry.contextBranch, input.effLoc)
  {
    var cs, entries := V2.Candidates(merchants, input), V2.Entries(merchants, input);
    V2.KeysAreKnown(merchants, input);
    var i :| 0 <= i < |entries| && entries[i] == entry;
    var id := V2.KeyOrder(cs)[i];
    assert V2.Known(merchants, cs, id);
    MerchantByIdFinds(merchants, id);
    m := V2.MerchantById(merchants, id).value;
  }

  /** Every entry's context branch is its merchant's best branch. */
  lemma EntryIsBest(merchants: seq<V2.RankableMerchant>, input: RankInput, entry: V2.MerchantEntry)
    requires IdsAreUnique(merchants) && entry in V2.Entries(merchants, input)
    ensures IsBestBranch(AsCollected(input.effLoc)(entry), Flatten(merchants), input)
  {
    var e, branches := input.effLoc, Flatten(merchants);
    var m := EntryMerchant(merchants, input, entry);
    var group := V2.Group(V2.Candidates(merchants, input), m.id);
    var c := AsCollected(e)(entry);
    ContextBranchIsLeast(group, e);
    GroupIsCollected(merchants, input, m, entry.contextBranch);
    forall d | IsCollected(d, branches, input) && d.item.merchantId == c.item.merchantId ensures CompareRanked(c, d) <= 0 {
      var x := CollectedInGroup(merchants, input, m, d);
      ContextOrderIsRanking(m, e, entry.contextBranch, x);
    }
  }

  lemma CollectedInGroup(merchants: seq<V2.RankableMerchant>, input: RankInput, m: V2.RankableMerchant, d: Collected)
    returns (x: V2.Matched)
    requires IdsAreUnique(merchants) && m in merchants
    requires IsCollected(d, Flatten(merchants), input) && d.item.merchantId == m.id
    ensures x in V2.Group(V2.Candidates(merchants, input), m.id) && d == MatchedAsCollected(m, x, input.effLoc)
  {
    FlattenContents(merchants, d.item);
    var n :| n in merchants && d.item.branch in n.branches && d.item == Owned(n)(d.item.branch);
    assert n == m;
    x := V2.Matched(d.item.branch, d.rung);
    GroupIsCollected(merchants, input, m, x);
  }

  /** Every merchant's best branch is the context branch of an entry. */
  lemma BestIsEntry(merchants: seq<V2.RankableMerchant>, input: RankInput, c: Collected)
    requires IdsAreUnique(merchants) && IsBestBranch(c, Flatten(merchants), input)
    ensures exists entry | entry in V2.Entries(merchants, input) :: AsCollected(input.effLoc)(entry) == c
  {
    var cs := V2.Candidates(merchants, input);
    FlattenContents(merchants, c.item);
    var m :| m in merchants && c.item.branch in m.branches && c.item == Owned(m)(c.item.branch);
    var x := CollectedInGroup(merchants, input, m, c);
    V2.KeysHaveGroups(cs, m.id);
    V2.KeysAreKnown(merchants, input);
    var i :| 0 <= i < |V2.KeyOrder(cs)| && V2.KeyOrder(cs)[i] == m.id;
    var entry := V2.Entries(merchants, input)[i];
    var b := AsCollected(input.effLoc)(entry);
    EntryIsBest(merchants, input, entry);
    assert CompareRanked(c, b) <= 0 && CompareRanked(b, c) <= 0;
    RankingTiesShareTheId(c, b);
  }

  // ---------------------------------------------------------------- the merchant list in order

  lemma DistanceOrderIsConsistent(input: RankInput, rung: SupplyRung)
    requires input.categoryIntent == LOCAL
    ensures Consistent(V2.EntryComparator(input, rung))
  {
    var e, cmp := input.effLoc, V2.EntryComparator(input, rung);
    forall a, b, c ensures V2.CompareByDistance(e, a, b) <= 0 && V2.CompareByDistance(e, b, c) <= 0 ==> V2.CompareByDistance(e, a, c) <= 0 {
    }
    assert forall a, b :: cmp(a, b) == V2.CompareByDistance(e, a, b);
    assert forall a, b :: cmp(a, b) <= 0 || cmp(b, a) <= 0;
  }

  /** V2's ties, and what V3 makes of them. */
  lemma TiesOfV2(input: RankInput, a: V2.MerchantEntry, b: V2.MerchantEntry)
    requires input.categoryIntent == LOCAL && a.contextBranch.rung == b.contextBranch.rung
    ensures var cmp, fine := V2.EntryComparator(input, a.contextBranch.rung), EntryRanking(input.effLoc);
      if cmp(a, b) <= 0 && cmp(b, a) <= 0
      then V2CannotSeparate(input.effLoc, a, b) && (fine(a, b) <= 0 <==> NameThenId(a, b))
      else !V2CannotSeparate(input.effLoc, a, b) && (cmp(a, b) <= 0 ==> fine(a, b) <= 0)
  {
    var e, rung := input.effLoc, a.contextBranch.rung;
    var x, y := AsCollected(e)(a), AsCollected(e)(b);
    assert x.rung == y.rung && x.distance == V2.EntryDistance(e, a) && y.distance == V2.EntryDistance(e, b);
    assert EntryRanking(e)(a, b) == CompareDistance(x, y);
    assert V2.EntryComparator(input, rung)(a, b) == V2.CompareByDistance(e, a, b);
    assert V2.EntryComparator(input, rung)(b, a) == V2.CompareByDistance(e, b, a);
  }

  lemma OnRungContents(entries: seq<V2.MerchantEntry>, rung: SupplyRung)
    ensures forall m :: m in V2.EntriesOn(entries, rung) <==> m in entries && m.contextBranch.rung == rung
  {
    FilterContents(entries, V2.OnRung(rung));
  }

  /** Two entries of one rung that V2 cannot separate stand in V3's order. */
  predicate KeepsTieOrder(input: RankInput, rung: SupplyRung, a: V2.MerchantEntry, b: V2.MerchantEntry) {
    a.contextBranch.rung == rung && V2CannotSeparate(input.effLoc, a, b) ==> NameThenId(a, b)
  }

  /** `KeepsTieOrder` as a relation. */
  function TieOrder(input: RankInput, rung: SupplyRung): (V2.MerchantEntry, V2.MerchantEntry) -> bool {
    (a, b) => KeepsTieOrder(input, rung, a, b)
  }

  lemma TiesInOrderMeansTieOrder(here: seq<V2.MerchantEntry>, input: RankInput, rung: SupplyRung)
    requires input.categoryIntent == LOCAL && forall m | m in here :: m.contextBranch.rung == rung
    ensures TiesInOrder(here, V2.EntryComparator(input, rung), EntryRanking(input.effLoc)) <==> Ordered(here, TieOrder(input, rung))
  {
    var cmp, fine, kept := V2.EntryComparator(input, rung), EntryRanking(input.effLoc), TieOrder(input, rung);
    forall i, j | 0 <= i < j < |here|
      ensures kept(here[i], here[j]) <==> (cmp(here[i], here[j]) <= 0 && cmp(here[j], here[i]) <= 0 ==> fine(here[i], here[j]) <= 0)
    {
      assert here[i] in here && here[j] in here;
      TiesOfV2(input, here[i], here[j]);
    }
  }

  lemma EntriesOnKeepTieOrder(entries: seq<V2.MerchantEntry>, input: RankInput, rung: SupplyRung)
    ensures Ordered(V2.EntriesOn(entries, rung), TieOrder(input, rung)) <==> Ordered(entries, TieOrder(input, rung))
  {
    OrderedFilter(entries, V2.OnRung(rung), TieOrder(input, rung), TieOrder(input, rung));
  }

  lemma SortedRungMeetsRanking(here: seq<V2.MerchantEntry>, input: RankInput, rung: SupplyRung)
    requires input.categoryIntent == LOCAL && forall m | m in here :: m.contextBranch.rung == rung
    ensures Sorted(Sort(here, V2.EntryComparator(input, rung)), EntryRanking(input.effLoc)) <==> Ordered(here, TieOrder(input, rung))
  {
    var cmp, fine := V2.EntryComparator(input, rung), EntryRanking(input.effLoc);
    forall a, b | a in here && b in here && cmp(a, b) <= 0 && cmp(b, a) > 0 ensures fine(a, b) <= 0 {
      TiesOfV2(input, a, b);
    }
    DistanceOrderIsConsistent(input, rung);
    StableSortMeetsFinerOrder(here, cmp, fine);
    TiesInOrderMeansTieOrder(here, input, rung);
  }

  lemma RungMeetsRanking(entries: seq<V2.MerchantEntry>, input: RankInput, rung: SupplyRung)
    requires input.categoryIntent == LOCAL
    ensures Sorted(V2.SortedEntries(entries, input, rung), EntryRanking(input.effLoc)) <==> Ordered(entries, TieOrder(input, rung))
  {
    OnRungContents(entries, rung);
    SortedRungMeetsRanking(V2.EntriesOn(entries, rung), input, rung);
    EntriesOnKeepTieOrder(entries, input, rung);
  }

  ghost predicate AllOnLadder(entries: seq<V2.MerchantEntry>, input: RankInput) {
    forall m | m in entries :: RungOrdinal(m.contextBranch.rung) <= MaxOrdinal(input)
  }

  lemma SortedEntriesContents(entries: seq<V2.MerchantEntry>, input: RankInput, rung: SupplyRung)
    ensures forall m :: m in V2.SortedEntries(entries, input, rung) <==> m in entries && m.contextBranch.rung == rung
  {
    OnRungContents(entries, rung);
    SortPermutes(V2.EntriesOn(entries, rung), V2.EntryComparator(input, rung));
    SameElements(V2.EntriesOn(entries, rung), V2.SortedEntries(entries, input, rung));
  }

  lemma LadderContents(entries: seq<V2.MerchantEntry>, input: RankInput, i: nat, m: V2.MerchantEntry)
    requires i <= MaxOrdinal(input)
    ensures m in V2.EntryLadder(entries, input)[i] <==> m in entries && RungOrdinal(m.contextBranch.rung) == i
  {
    SortedEntriesContents(entries, input, RUNG_ORDER[i]);
    OrdinalIsPosition(i);
    SameOrdinalSameRung(m.contextBranch.rung, RUNG_ORDER[i]);
  }

  lemma LadderSeparatesRungs(entries: seq<V2.MerchantEntry>, input: RankInput, before: (V2.MerchantEntry, V2.MerchantEntry) -> bool)
    requires forall a: V2.MerchantEntry, b: V2.MerchantEntry | RungOrdinal(a.contextBranch.rung) < RungOrdinal(b.contextBranch.rung) :: before(a, b)
    ensures RungsOrdered(V2.EntryLadder(entries, input), MaxOrdinal(input) + 1, before)
  {
    var ladder := V2.EntryLadder(entries, input);
    forall i, j, a, b | 0 <= i < j < |ladder| && a in ladder[i] && b in ladder[j] ensures before(a, b) {
      LadderContents(entries, input, i, a);
      LadderContents(entries, input, j, b);
    }
  }

  lemma JoinedEntries(entries: seq<V2.MerchantEntry>, input: RankInput, ladder: seq<seq<V2.MerchantEntry>>, m: V2.MerchantEntry)
    requires AllOnLadder(entries, input) && ladder == V2.EntryLadder(entries, input)
    ensures m in JoinFirst(ladder, |ladder|) <==> m in entries
  {
    JoinContents(ladder, |ladder|, m);
    forall i | 0 <= i < |ladder| ensures m in ladder[i] <==> m in entries && RungOrdinal(m.contextBranch.rung) == i {
      LadderContents(entries, input, i, m);
    }
  }

  lemma JoinedEntriesDistinct(entries: seq<V2.MerchantEntry>, input: RankInput, ladder: seq<seq<V2.MerchantEntry>>)
    requires Distinct(entries) && ladder == V2.EntryLadder(entries, input)
    ensures Distinct(JoinFirst(ladder, |ladder|))
  {
    var differ := (a: V2.MerchantEntry, b: V2.MerchantEntry) => a != b;
    forall i | 0 <= i < |ladder| ensures Ordered(ladder[i], differ) {
      var rung := RUNG_ORDER[i];
      OrderedFilter(entries, V2.OnRung(rung), differ, (a, b) => V2.OnRung(rung)(a).Some? && V2.OnRung(rung)(b).Some? ==> a != b);
      assert Distinct(V2.EntriesOn(entries, rung));
      SortKeepsDistinct(V2.EntriesOn(entries, rung), V2.EntryComparator(input, rung));
    }
    LadderSeparatesRungs(entries, input, differ);
    JoinOrdered(ladder, |ladder|, differ);
  }

  lemma TieOrderOnEveryRung(entries: seq<V2.MerchantEntry>, input: RankInput)
    requires AllOnLadder(entries, input)
    ensures TiesCollectedInOrder(entries, input.effLoc) <==>
      forall i | 0 <= i <= MaxOrdinal(input) :: Ordered(entries, TieOrder(input, RUNG_ORDER[i]))
  {
  }

  /** The joined rungs are in V3's order exactly when ties were collected in it. */
  lemma JoinedEntriesMeetRanking(entries: seq<V2.MerchantEntry>, input: RankInput, ladder: seq<seq<V2.MerchantEntry>>)
    requires input.categoryIntent == LOCAL && AllOnLadder(entries, input) && ladder == V2.EntryLadder(entries, input)
    ensures Sorted(JoinFirst(ladder, |ladder|), EntryRanking(input.effLoc)) <==> TiesCollectedInOrder(entries, input.effLoc)
  {
    var before := NotAfter(input.effLoc);
    EarlierRungsComeFirst(input.effLoc);
    LadderSeparatesRungs(entries, input, before);
    JoinOrdered(ladder, |ladder|, before);
    forall i | 0 <= i < |ladder| ensures Ordered(ladder[i], before) <==> Ordered(entries, TieOrder(input, RUNG_ORDER[i])) {
      RungMeetsRanking(entries, input, RUNG_ORDER[i]);
      OrderedMeansSorted(ladder[i], input.effLoc);
    }
    TieOrderOnEveryRung(entries, input);
    OrderedMeansSorted(JoinFirst(ladder, |ladder|), input.effLoc);
  }

  function NotAfter(e: EffectiveLocation): (V2.MerchantEntry, V2.MerchantEntry) -> bool {
    (a, b) => EntryRanking(e)(a, b) <= 0
  }

  lemma EarlierRungsComeFirst(e: EffectiveLocation)
    ensures forall a: V2.MerchantEntry, b: V2.MerchantEntry | RungOrdinal(a.contextBranch.rung) < RungOrdinal(b.contextBranch.rung) :: NotAfter(e)(a, b)
  {
    forall a: V2.MerchantEntry, b: V2.MerchantEntry | RungOrdinal(a.contextBranch.rung) < RungOrdinal(b.contextBranch.rung) ensures NotAfter(e)(a, b) {
      assert EntryRanking(e)(a, b) == CompareRanked(AsCollected(e)(a), AsCollected(e)(b));
    }
  }

  lemma OrderedMeansSorted(entries: seq<V2.MerchantEntry>, e: EffectiveLocation)
    ensures Ordered(entries, NotAfter(e)) <==> Sorted(entries, EntryRanking(e))
  {
  }

  // ---------------------------------------------------------------- bounds

  lemma {:induction false} KeysAreDistinct(cs: seq<V2.Candidate>)
    ensures Distinct(V2.KeyOrder(cs)) && |V2.KeyOrder(cs)| <= |cs|
  {
    if cs != [] {
      KeysAreDistinct(cs[..|cs| - 1]);
    }
  }

  lemma {:induction false} CandidatesNoMoreThanBranches(merchants: seq<V2.RankableMerchant>, input: RankInput)
    ensures |V2.Candidates(merchants, input)| <= |Flatten(merchants)|
  {
    if merchants != [] {
      var last := merchants[|merchants| - 1];
      CandidatesNoMoreThanBranches(merchants[..|merchants| - 1], input);
      FilterMapNoLonger(last.branches, V2.MatchMaker(last.id, input));
    }
  }

  /** One entry per merchant, each on the ladder, no more of them than branches. */
  lemma EntriesAreDistinct(merchants: seq<V2.RankableMerchant>, input: RankInput)
    requires IdsAreUnique(merchants)
    ensures Distinct(V2.Entries(merchants, input)) && AllOnLadder(V2.Entries(merchants, input), input)
    ensures |V2.Entries(merchants, input)| <= |Flatten(merchants)|
  {
    var entries := V2.Entries(merchants, input);
    KeysAreDistinct(V2.Candidates(merchants, input));
    CandidatesNoMoreThanBranches(merchants, input);
    V2.KeysAreKnown(merchants, input);
    forall m | m in entries ensures RungOrdinal(m.contextBranch.rung) <= MaxOrdinal(input) {
      EntryIsBest(merchants, input, m);
    }
  }

  function RankOfEntry(): V2.MerchantEntry -> int {
    (m: V2.MerchantEntry) => RungOrdinal(m.contextBranch.rung)
  }

  lemma EntryRungSize(entries: seq<V2.MerchantEntry>, input: RankInput, i: nat)
    requires i <= MaxOrdinal(input)
    ensures |V2.EntryLadder(entries, input)[i]| + CountBelow(entries, RankOfEntry(), i) == CountBelow(entries, RankOfEntry(), i + 1)
  {
    var rung := RUNG_ORDER[i];
    OrdinalIsPosition(i);
    forall m | m in entries ensures V2.OnRung(rung)(m).Some? <==> RankOfEntry()(m) == i {
      SameOrdinalSameRung(m.contextBranch.rung, rung);
    }
    BucketSize(entries, V2.OnRung(rung), RankOfEntry(), i);
  }

  lemma UncappedMerchantWalk(entries: seq<V2.MerchantEntry>, input: RankInput, ladder: seq<seq<V2.MerchantEntry>>)
    requires |entries| <= input.targetCount && |entries| <= input.hardCap && ladder == V2.EntryLadder(entries, input)
    ensures Walk(ladder, input.targetCount, input.hardCap) == JoinFirst(ladder, |ladder|)
  {
    forall i | 0 <= i < |ladder|
      ensures |ladder[i]| + CountBelow(entries, RankOfEntry(), i) == CountBelow(entries, RankOfEntry(), i + 1)
    {
      EntryRungSize(entries, input, i);
    }
    JoinSize(ladder, |ladder|, entries, RankOfEntry());
    UncappedWalkIsEverything(ladder, input.targetCount, input.hardCap);
  }

  // ---------------------------------------------------------------- the theorem

  /** The joined entries as V3 would collect them. */
  function CollectedEntries(merchants: seq<V2.RankableMerchant>, input: RankInput): seq<Collected> {
    var ladder := V2.EntryLadder(V2.Entries(merchants, input), input);
    Map(JoinFirst(ladder, |ladder|), AsCollected(input.effLoc))
  }

  lemma MapContents<S, T>(s: seq<S>, f: S -> T, y: T)
    ensures y in Map(s, f) <==> exists x | x in s :: f(x) == y
  {
  }

  lemma CollectedEntriesAreBest(merchants: seq<V2.RankableMerchant>, input: RankInput, c: Collected)
    requires IdsAreUnique(merchants)
    ensures c in CollectedEntries(merchants, input) <==> IsBestBranch(c, Flatten(merchants), input)
  {
    var entries := V2.Entries(merchants, input);
    var ladder := V2.EntryLadder(entries, input);
    EntriesAreDistinct(merchants, input);
    MapContents(JoinFirst(ladder, |ladder|), AsCollected(input.effLoc), c);
    if c in CollectedEntries(merchants, input) {
      var m :| m in JoinFirst(ladder, |ladder|) && AsCollected(input.effLoc)(m) == c;
      JoinedEntries(entries, input, ladder, m);
      EntryIsBest(merchants, input, m);
    }
    if IsBestBranch(c, Flatten(merchants), input) {
      BestIsEntry(merchants, input, c);
      var m :| m in entries && AsCollected(input.effLoc)(m) == c;
      JoinedEntries(entries, input, ladder, m);
    }
  }

  lemma SortedThroughCollected(joined: seq<V2.MerchantEntry>, e: EffectiveLocation)
    ensures Sorted(Map(joined, AsCollected(e)), Ranking()) <==> Sorted(joined, EntryRanking(e))
  {
  }

  /** An entry's id is its collected merchant id, so distinct entries stay distinct. */
  lemma EntriesWithOneIdAreOne(merchants: seq<V2.RankableMerchant>, input: RankInput, a: V2.MerchantEntry, b: V2.MerchantEntry)
    requires a in V2.Entries(merchants, input) && b in V2.Entries(merchants, input) && a.id == b.id
    ensures a == b
  {
  }

  lemma CollectedEntriesAreDistinct(merchants: seq<V2.RankableMerchant>, input: RankInput)
    requires IdsAreUnique(merchants)
    ensures Distinct(CollectedEntries(merchants, input))
  {
    var entries := V2.Entries(merchants, input);
    var ladder := V2.EntryLadder(entries, input);
    var joined := JoinFirst(ladder, |ladder|);
    EntriesAreDistinct(merchants, input);
    JoinedEntriesDistinct(entries, input, ladder);
    forall i, j | 0 <= i < j < |joined| ensures AsCollected(input.effLoc)(joined[i]) != AsCollected(input.effLoc)(joined[j]) {
      JoinedEntries(entries, input, ladder, joined[i]);
      JoinedEntries(entries, input, ladder, joined[j]);
      if joined[i].id == joined[j].id {
        EntriesWithOneIdAreOne(merchants, input, joined[i], joined[j]);
      }
    }
  }

  lemma CollectedEntriesInOrder(merchants: seq<V2.RankableMerchant>, input: RankInput)
    requires input.categoryIntent == LOCAL && IdsAreUnique(merchants)
    ensures StrictlySorted(CollectedEntries(merchants, input), Ranking()) <==>
      TiesCollectedInOrder(V2.Entries(merchants, input), input.effLoc)
  {
    var entries := V2.Entries(merchants, input);
    var ladder := V2.EntryLadder(entries, input);
    EntriesAreDistinct(merchants, input);
    JoinedEntriesMeetRanking(entries, input, ladder);
    SortedThroughCollected(JoinFirst(ladder, |ladder|), input.effLoc);
    CollectedEntriesAreDistinct(merchants, input);
    forall c | c in CollectedEntries(merchants, input) ensures IsCollected(c, Flatten(merchants), input) {
      CollectedEntriesAreBest(merchants, input, c);
    }
    CollectedDoNotTie(Flatten(merchants), input, CollectedEntries(merchants, input));
    RankingIsAntisymmetric();
    StrictlySortedWithoutTies(CollectedEntries(merchants, input), Ranking());
  }

  lemma TilesOfV2(merchants: seq<V2.RankableMerchant>, input: RankInput)
    requires IdsAreUnique(merchants) && Uncapped(Flatten(merchants), AsV3(input))
    ensures Map(V2.Tiles(merchants, input), AsBranchTile) == Map(CollectedEntries(merchants, input), TileMaker(input.effLoc.densityClass))
  {
    var entries := V2.Entries(merchants, input);
    EntriesAreDistinct(merchants, input);
    UncappedMerchantWalk(entries, input, V2.EntryLadder(entries, input));
  }

  lemma TilesDecideOrder(cs: seq<Collected>, ds: seq<Collected>, d: DensityClass)
    requires Map(cs, TileMaker(d)) == Map(ds, TileMaker(d)) && StrictlySorted(ds, Ranking())
    ensures StrictlySorted(cs, Ranking())
  {
  }

  /**
   * The merchant list is the branch list reduced to each merchant's first tile (same branch,
   * rung, tier, band and distance, in the same order) if and only if merchants that V2's
   * comparator cannot separate were collected by name and then by context branch id.
   */
  lemma MerchantListReducesBranchList(merchants: seq<V2.RankableMerchant>, input: RankInput)
    requires input.categoryIntent == LOCAL && IdsAreUnique(merchants)
    requires |Flatten(merchants)| <= input.targetCount && |Flatten(merchants)| <= input.hardCap
    ensures Map(V2.Tiles(merchants, input), AsBranchTile) == FirstWithKey(Tiles(Flatten(merchants), AsV3(input)), MerchantOf)
      <==> TiesCollectedInOrder(V2.Entries(merchants, input), input.effLoc)
  {
    var d := input.effLoc.densityClass;
    var ranked := Ranked(Flatten(merchants), AsV3(input));
    var firsts, mine := FirstWithKey(ranked, MerchantIdOf), CollectedEntries(merchants, input);
    TilesOfV2(merchants, input);
    FirstWithKeyOfMap(ranked, TileMaker(d), MerchantIdOf, MerchantOf);
    FirstBranches(merchants, input, firsts);
    CollectedEntriesInOrder(merchants, input);
    if StrictlySorted(mine, Ranking()) {
      forall c ensures c in mine <==> c in firsts {
        CollectedEntriesAreBest(merchants, input, c);
      }
      RankingIsAntisymmetric();
      StrictlySortedIsUnique(mine, firsts, Ranking());
    } else if Map(mine, TileMaker(d)) == Map(firsts, TileMaker(d)) {
      TilesDecideOrder(mine, firsts, d);
    }
  }

  /** In particular when no two merchants on one rung tie in distance and name, and at most one there lacks coordinates. */
  lemma MerchantListReducesBranchListWithoutTies(merchants: seq<V2.RankableMerchant>, input: RankInput)
    requires input.categoryIntent == LOCAL && IdsAreUnique(merchants)
    requires |Flatten(merchants)| <= input.targetCount && |Flatten(merchants)| <= input.hardCap
    requires var entries := V2.Entries(merchants, input);
      forall i, j | 0 <= i < j < |entries| :: !V2CannotSeparate(input.effLoc, entries[i], entries[j])
    ensures Map(V2.Tiles(merchants, input), AsBranchTile) == FirstWithKey(Tiles(Flatten(merchants), AsV3(input)), MerchantOf)
  {
    MerchantListReducesBranchList(merchants, input);
  }

  // ---------------------------------------------------------------- where the two lists part

  /** A shop without coordinates in the locality "town". */
  function Shop(id: int, businessName: int): V2.RankableMerchant {
    V2.RankableMerchant(id, businessName, None, 0,
      [Branch(id, None, None, true, MERCHANT_CONFIRMED, Some("town"), None, None, None, None, None)])
  }

  lemma ShopCandidate(id: int, businessName: int, input: RankInput)
    requires input.effLoc.locality.id == "town"
    ensures V2.CandidatesOf(Shop(id, businessName), input) ==
      [V2.Candidate(id, V2.Matched(Shop(id, businessName).branches[0], CATCHMENT))]
  {
    var branches, maker := Shop(id, businessName).branches, V2.MatchMaker(id, input);
    assert RungOrdinal(LAD) <= MaxOrdinal(input);
    assert AdmittedRung(branches[0], input) == Some(CATCHMENT);
    assert maker(branches[0]) == Some(V2.Candidate(id, V2.Matched(branches[0], CATCHMENT)));
    assert FilterMap(branches, maker) == [maker(branches[0]).value] + FilterMap(branches[1..], maker);
    assert branches[1..] == [];
  }

  lemma ShopEntries(input: RankInput)
    requires input.effLoc.locality.id == "town"
    ensures var entries := V2.Entries([Shop(1, 9), Shop(2, 5)], input);
      && |entries| == 2
      && entries[0] == V2.MerchantEntry(1, 9, None, 0, V2.Matched(Shop(1, 9).branches[0], CATCHMENT))
      && entries[1] == V2.MerchantEntry(2, 5, None, 0, V2.Matched(Shop(2, 5).branches[0], CATCHMENT))
  {
    var merchants := [Shop(1, 9), Shop(2, 5)];
    var a := V2.Candidate(1, V2.Matched(Shop(1, 9).branches[0], CATCHMENT));
    var b := V2.Candidate(2, V2.Matched(Shop(2, 5).branches[0], CATCHMENT));
    ShopCandidates(input, a, b);
    TwoGroups(a, b);
    assert merchants[..1] == [Shop(1, 9)];
    assert V2.MerchantById(merchants[..1], 1) == Some(Shop(1, 9));
    OneCandidate(a.matched, input.effLoc);
    OneCandidate(b.matched, input.effLoc);
    V2.KeysAreKnown(merchants, input);
  }

  lemma ShopCandidates(input: RankInput, a: V2.Candidate, b: V2.Candidate)
    requires input.effLoc.locality.id == "town"
    requires a == V2.Candidate(1, V2.Matched(Shop(1, 9).branches[0], CATCHMENT))
    requires b == V2.Candidate(2, V2.Matched(Shop(2, 5).branches[0], CATCHMENT))
    ensures V2.Candidates([Shop(1, 9), Shop(2, 5)], input) == [a, b]
  {
    var merchants := [Shop(1, 9), Shop(2, 5)];
    ShopCandidate(1, 9, input);
    ShopCandidate(2, 5, input);
    assert merchants[..1] == [Shop(1, 9)] && merchants[..1][..0] == [];
    assert V2.Candidates(merchants[..1], input) == [a];
  }

  lemma TwoGroups(a: V2.Candidate, b: V2.Candidate)
    requires a.merchantId != b.merchantId
    ensures V2.KeyOrder([a, b]) == [a.merchantId, b.merchantId]
    ensures V2.Group([a, b], a.merchantId) == [a.matched] && V2.Group([a, b], b.merchantId) == [b.matched]
  {
    var cs := [a, b];
    assert cs[..1] == [a] && cs[..1][..0] == [];
    assert V2.KeyOrder(cs[..1]) == [a.merchantId];
    assert cs[1..] == [b] && cs[1..][1..] == [];
    assert FilterMap(cs[1..], V2.Ungroup(a.merchantId)) == [];
    assert FilterMap(cs[1..], V2.Ungroup(b.merchantId)) == [b.matched];
    assert V2.Group(cs, b.merchantId) == [] + FilterMap(cs[1..], V2.Ungroup(b.merchantId));
  }

  lemma OneCandidate(m: V2.Matched, e: EffectiveLocation)
    ensures V2.ContextBranch([m], e) == m
  {
  }

  /** Two coordinate-less shops collected against their names: V2 keeps that order, V3 sorts by name. */
  lemma CoordinatelessShopsPartTheLists(input: RankInput)
    requires input.categoryIntent == LOCAL && input.effLoc.locality.id == "town"
    requires 2 <= input.targetCount && 2 <= input.hardCap
    ensures var merchants := [Shop(1, 9), Shop(2, 5)];
      Map(V2.Tiles(merchants, input), AsBranchTile) != FirstWithKey(Tiles(Flatten(merchants), AsV3(input)), MerchantOf)
  {
    var merchants := [Shop(1, 9), Shop(2, 5)];
    ShopEntries(input);
    var rows := [Owned(Shop(1, 9))(Shop(1, 9).branches[0]), Owned(Shop(2, 5))(Shop(2, 5).branches[0])];
    assert merchants[..1] == [Shop(1, 9)] && merchants[..1][..0] == [];
    assert Flatten(merchants[..1]) == rows[..1];
    assert Flatten(merchants) == rows;
    var entries := V2.Entries(merchants, input);
    assert V2CannotSeparate(input.effLoc, entries[0], entries[1]) && !NameThenId(entries[0], entries[1]);
    MerchantListReducesBranchList(merchants, input);
  }
}
