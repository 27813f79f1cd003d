/** `rankMerchantsV2`, the merchant-first ladder-walk ranker of src/api/lib/ranking.ts. */
module MerchantRanking {
  import opened Base
  import opened LadderProfiles
  import opened LadderWalk
  import opened RungClassification
  import opened RungStitching
  import opened Sequences
  import opened Sorting

  datatype RankableMerchant = RankableMerchant(
    id: int,
    businessName: int,
    avgRating: Option<real>,
    reviewCount: int,
    branches: seq<Branch>)

  /** A branch with its `matchedRung`. */
  datatype Matched = Matched(branch: Branch, rung: SupplyRung)

  datatype Candidate = Candidate(merchantId: int, matched: Matched)

  /** `bestRung` is the context branch's rung. */
  datatype MerchantEntry = MerchantEntry(
    id: int,
    businessName: int,
    avgRating: Option<real>,
    reviewCount: int,
    contextBranch: Matched)

  datatype RankedTile = RankedTile(
    merchantId: int,
    businessName: int,
    supplyRung: SupplyRung,
    supplyTier: SupplyTier,
    proximityBand: ProximityBand,
    distanceMetres: Option<real>,
    contextBranchId: int)

  datatype RankMerchantsResult = RankMerchantsResult(tiles: seq<RankedTile>, rungCounts: map<SupplyRung, nat>)

  // ---------------------------------------------------------------- comparators

  function CompareContext(e: EffectiveLocation, a: Matched, b: Matched): int {
    if a.rung != b.rung then RungOrdinal(a.rung) - RungOrdinal(b.rung)
    else
      var d := CompareMetres(DistanceTo(a.branch, e), DistanceTo(b.branch, e));
      if d != 0 then d else a.branch.id - b.branch.id
  }

  function ContextComparator(e: EffectiveLocation): (Matched, Matched) -> int {
    (a, b) => CompareContext(e, a, b)
  }

  function EntryDistance(e: EffectiveLocation, a: MerchantEntry): Option<real> {
    DistanceTo(a.contextBranch.branch, e)
  }

  /**
   * Two unknown distances subtract to NaN, which is not 0: the name is then not consulted and
   * the sort treats the pair as tied.
   */
  function CompareByDistance(e: EffectiveLocation, a: MerchantEntry, b: MerchantEntry): int {
    if EntryDistance(e, a).None? && EntryDistance(e, b).None? then 0
    else
      var d := CompareMetres(EntryDistance(e, a), EntryDistance(e, b));
      if d != 0 then d else a.businessName - b.businessName
  }

  predicate IsRated(m: MerchantEntry) {
    m.reviewCount >= MIN_REVIEW_COUNT_FOR_RATING_SORT
  }

  function RatingOrZero(m: MerchantEntry): real {
    if m.avgRating.Some? then m.avgRating.value else 0.0
  }

  function CompareByQuality(a: MerchantEntry, b: MerchantEntry): int {
    if IsRated(a) && IsRated(b) then Sign(RatingOrZero(b) - RatingOrZero(a))
    else if IsRated(a) then -1
    else if IsRated(b) then 1
    else a.businessName - b.businessName
  }

  predicate SortsByDistance(input: RankInput, rung: SupplyRung) {
    input.categoryIntent == LOCAL || (input.categoryIntent == MIXED && rung == NEARBY)
  }

  function CompareEntries(input: RankInput, rung: SupplyRung, a: MerchantEntry, b: MerchantEntry): int {
    if SortsByDistance(input, rung) then CompareByDistance(input.effLoc, a, b) else CompareByQuality(a, b)
  }

  function EntryComparator(input: RankInput, rung: SupplyRung): (MerchantEntry, MerchantEntry) -> int {
    (a, b) => CompareEntries(input, rung, a, b)
  }

  // ---------------------------------------------------------------- what is ranked

  function MatchMaker(merchantId: int, input: RankInput): Branch -> Option<Candidate> {
    b => match AdmittedRung(b, input)
         case None => None
         case Some(rung) => Some(Candidate(merchantId, Matched(b, rung)))
  }

  function CandidatesOf(m: RankableMerchant, input: RankInput): seq<Candidate> {
    FilterMap(m.branches, MatchMaker(m.id, input))
  }

  function Candidates(merchants: seq<RankableMerchant>, input: RankInput): seq<Candidate> {
    if merchants == [] then []
    else Candidates(merchants[..|merchants| - 1], input) + CandidatesOf(merchants[|merchants| - 1], input)
  }

  /** The merchant ids in the order in which a candidate first appears for them: a Map's key order. */
  function KeyOrder(cs: seq<Candidate>): seq<int> {
    if cs == [] then []
    else
      var keys := KeyOrder(cs[..|cs| - 1]);
      var id := cs[|cs| - 1].merchantId;
      if id in keys then keys else keys + [id]
  }

  function Ungroup(id: int): Candidate -> Option<Matched> {
    (c: Candidate) => if c.merchantId == id then Some(c.matched) else None
  }

  function Group(cs: seq<Candidate>, id: int): seq<Matched> {
    FilterMap(cs, Ungroup(id))
  }

  /** `merchantById`: a later merchant with the same id replaces an earlier one. */
  function MerchantById(merchants: seq<RankableMerchant>, id: int): Option<RankableMerchant> {
    if merchants == [] then None
    else if merchants[|merchants| - 1].id == id then Some(merchants[|merchants| - 1])
    else MerchantById(merchants[..|merchants| - 1], id)
  }

  function ContextBranch(group: seq<Matched>, e: EffectiveLocation): Matched
    requires group != []
  {
    Sort(group, ContextComparator(e))[0]
  }

  /** What step 2 needs of a key: a bucket and a merchant. */
  ghost predicate Known(merchants: seq<RankableMerchant>, cs: seq<Candidate>, id: int) {
    Group(cs, id) != [] && MerchantById(merchants, id).Some?
  }

  function EntryOf(merchants: seq<RankableMerchant>, cs: seq<Candidate>, e: EffectiveLocation, id: int): MerchantEntry
    requires Known(merchants, cs, id)
  {
    var m := MerchantById(merchants, id).value;
    MerchantEntry(id, m.businessName, m.avgRating, m.reviewCount, ContextBranch(Group(cs, id), e))
  }

  lemma {:induction false} KeysHaveGroups(cs: seq<Candidate>, id: int)
    ensures id in KeyOrder(cs) <==> Group(cs, id) != []
  {
    if cs != [] {
      var most, last := cs[..|cs| - 1], cs[|cs| - 1];
      KeysHaveGroups(most, id);
      assert cs == most + [last];
      FilterMapAppend(most, [last], Ungroup(id));
    }
  }

  lemma {:induction false} CandidateMerchantsExist(merchants: seq<RankableMerchant>, input: RankInput, c: Candidate)
    requires c in Candidates(merchants, input)
    ensures MerchantById(merchants, c.merchantId).Some?
  {
    var most, last := merchants[..|merchants| - 1], merchants[|merchants| - 1];
    if c in Candidates(most, input) {
      CandidateMerchantsExist(most, input, c);
    } else {
      FilterMapContents(last.branches, MatchMaker(last.id, input), c);
    }
  }

  lemma KeysHaveMerchants(merchants: seq<RankableMerchant>, input: RankInput, id: int)
    requires Group(Candidates(merchants, input), id) != []
    ensures MerchantById(merchants, id).Some?
  {
    var cs := Candidates(merchants, input);
    var m := Group(cs, id)[0];
    FilterMapContents(cs, Ungroup(id), m);
    var c :| c in cs && Ungroup(id)(c) == Some(m);
    CandidateMerchantsExist(merchants, input, c);
  }

  lemma KeysAreKnown(merchants: seq<RankableMerchant>, input: RankInput)
    ensures forall id | id in KeyOrder(Candidates(merchants, input)) :: Known(merchants, Candidates(merchants, input), id)
  {
    forall id | id in KeyOrder(Candidates(merchants, input)) ensures Known(merchants, Candidates(merchants, input), id) {
      KeysHaveGroups(Candidates(merchants, input), id);
      KeysHaveMerchants(merchants, input, id);
    }
  }

  function EntriesFor(merchants: seq<RankableMerchant>, cs: seq<Candidate>, e: EffectiveLocation, keys: seq<int>): (es: seq<MerchantEntry>)
    requires forall id | id in keys :: Known(merchants, cs, id)
    ensures |es| == |keys|
    ensures forall i | 0 <= i < |keys| :: Known(merchants, cs, keys[i]) && es[i] == EntryOf(merchants, cs, e, keys[i])
  {
    seq(|keys|, i requires 0 <= i < |keys| => assert Known(merchants, cs, keys[i]); EntryOf(merchants, cs, e, keys[i]))
  }

  function Entries(merchants: seq<RankableMerchant>, input: RankInput): seq<MerchantEntry> {
    KeysAreKnown(merchants, input);
    EntriesFor(merchants, Candidates(merchants, input), input.effLoc, KeyOrder(Candidates(merchants, input)))
  }

  function OnRung(rung: SupplyRung): MerchantEntry -> Option<MerchantEntry> {
    (entry: MerchantEntry) => if entry.contextBranch.rung == rung then Some(entry) else None
  }

  function EntriesOn(entries: seq<MerchantEntry>, rung: SupplyRung): seq<MerchantEntry> {
    FilterMap(entries, OnRung(rung))
  }

  function SortedEntries(entries: seq<MerchantEntry>, input: RankInput, rung: SupplyRung): seq<MerchantEntry> {
    Sort(EntriesOn(entries, rung), EntryComparator(input, rung))
  }

  function EntryLadder(entries: seq<MerchantEntry>, input: RankInput): (rungs: seq<seq<MerchantEntry>>)
    ensures |rungs| == MaxOrdinal(input) + 1
    ensures forall i | 0 <= i < |rungs| :: rungs[i] == SortedEntries(entries, input, RUNG_ORDER[i])
  {
    seq(MaxOrdinal(input) + 1, i requires 0 <= i <= MaxOrdinal(input) => SortedEntries(entries, input, RUNG_ORDER[i]))
  }

  function TileOf(m: MerchantEntry, e: EffectiveLocation): RankedTile {
    var rung := m.contextBranch.rung;
    RankedTile(m.id, m.businessName, rung, LegacyTier(rung), ProximityBandOf(rung, e.densityClass),
               EntryDistance(e, m), m.contextBranch.branch.id)
  }

  function TileMaker(e: EffectiveLocation): MerchantEntry -> RankedTile {
    m => TileOf(m, e)
  }

  function RungOf(tile: RankedTile): SupplyRung {
    tile.supplyRung
  }

  function Tiles(merchants: seq<RankableMerchant>, input: RankInput): seq<RankedTile> {
    Map(Walk(EntryLadder(Entries(merchants, input), input), input.targetCount, input.hardCap), TileMaker(input.effLoc))
  }

  // ---------------------------------------------------------------- the algorithm

  /** `candidateBranchesByMerchant` with its insertion order spelled out. */
  datatype CandidateMap = CandidateMap(keys: seq<int>, buckets: map<int, seq<Matched>>)

  ghost predicate Holds(m: CandidateMap, cs: seq<Candidate>) {
    && m.keys == KeyOrder(cs)
    && forall id ::
      && (id in m.buckets <==> id in m.keys)
      && (id in m.buckets ==> m.buckets[id] == Group(cs, id))
  }

  function Push(m: CandidateMap, c: Candidate): CandidateMap {
    if c.merchantId in m.buckets
    then m.(buckets := m.buckets[c.merchantId := m.buckets[c.merchantId] + [c.matched]])
    else CandidateMap(m.keys + [c.merchantId], m.buckets[c.merchantId := [c.matched]])
  }

  lemma PushHolds(m: CandidateMap, cs: seq<Candidate>, c: Candidate)
    requires Holds(m, cs)
    ensures Holds(Push(m, c), cs + [c])
  {
    assert (cs + [c])[..|cs|] == cs;
    forall id
      ensures Group(cs + [c], id) == Group(cs, id) + (if c.merchantId == id then [c.matched] else [])
    {
      FilterMapAppend(cs, [c], Ungroup(id));
    }
    KeysHaveGroups(cs, c.merchantId);
  }

  /** Step 1, inner loop: the branches of one merchant. */
  method CollectBranches(merchant: RankableMerchant, input: RankInput, m: CandidateMap, ghost before: seq<Candidate>)
    returns (r: CandidateMap)
    requires Holds(m, before)
    ensures Holds(r, before + CandidatesOf(merchant, input))
  {
    var maker := MatchMaker(merchant.id, input);
    r := m;
    ghost var cs := before;
    assert before + FilterMap(merchant.branches[..0], maker) == before;
    for j := 0 to |merchant.branches|
      invariant cs == before + FilterMap(merchant.branches[..j], maker)
      invariant Holds(r, cs)
    {
      FilterMapAppend(merchant.branches[..j], [merchant.branches[j]], maker);
      assert merchant.branches[..j + 1] == merchant.branches[..j] + [merchant.branches[j]];
      var candidate := maker(merchant.branches[j]);
      if candidate.Some? {
        PushHolds(r, cs, candidate.value);
        cs, r := cs + [candidate.value], Push(r, candidate.value);
      }
    }
    assert merchant.branches[..|merchant.branches|] == merchant.branches;
  }

  /** Step 1. */
  method CollectCandidates(merchants: seq<RankableMerchant>, input: RankInput) returns (m: CandidateMap)
    ensures Holds(m, Candidates(merchants, input))
  {
    m := CandidateMap([], map[]);
    for i := 0 to |merchants|
      invariant Holds(m, Candidates(merchants[..i], input))
    {
      assert merchants[..i + 1][..i] == merchants[..i];
      m := CollectBranches(merchants[i], input, m, Candidates(merchants[..i], input));
    }
    assert merchants[..|merchants|] == merchants;
  }

  method IndexMerchants(merchants: seq<RankableMerchant>) returns (merchantById: map<int, RankableMerchant>)
    ensures forall id :: (if id in merchantById then Some(merchantById[id]) else None) == MerchantById(merchants, id)
  {
    merchantById := map[];
    for i := 0 to |merchants|
      invariant forall id :: (if id in merchantById then Some(merchantById[id]) else None) == MerchantById(merchants[..i], id)
    {
      assert merchants[..i + 1][..i] == merchants[..i];
      merchantById := merchantById[merchants[i].id := merchants[i]];
    }
    assert merchants[..|merchants|] == merchants;
  }

  /** Step 2. */
  method BuildEntries(merchants: seq<RankableMerchant>, input: RankInput, m: CandidateMap) returns (entries: seq<MerchantEntry>)
    requires Holds(m, Candidates(merchants, input))
    ensures entries == Entries(merchants, input)
  {
    ghost var cs := Candidates(merchants, input);
    KeysAreKnown(merchants, input);
    var merchantById := IndexMerchants(merchants);
    entries := [];
    for i := 0 to |m.keys|
      invariant |entries| == i
      invariant forall j | 0 <= j < i :: Known(merchants, cs, m.keys[j]) && entries[j] == EntryOf(merchants, cs, input.effLoc, m.keys[j])
    {
      var id := m.keys[i];
      assert Known(merchants, cs, id);
      var merchant := merchantById[id];
      var contextBranch := ContextBranch(m.buckets[id], input.effLoc);
      entries := entries + [MerchantEntry(id, merchant.businessName, merchant.avgRating, merchant.reviewCount, contextBranch)];
    }
  }

  function BucketIn(byRung: map<SupplyRung, seq<MerchantEntry>>, rung: SupplyRung): seq<MerchantEntry> {
    if rung in byRung then byRung[rung] else []
  }

  lemma EntriesOnGrows(entries: seq<MerchantEntry>, i: nat, rung: SupplyRung)
    requires i < |entries|
    ensures EntriesOn(entries[..i + 1], rung) == EntriesOn(entries[..i], rung) + (if entries[i].contextBranch.rung == rung then [entries[i]] else [])
  {
    assert entries[..i + 1] == entries[..i] + [entries[i]];
    FilterMapAppend(entries[..i], [entries[i]], OnRung(rung));
  }

  /** Step 3. */
  method GroupByRung(entries: seq<MerchantEntry>) returns (byRung: map<SupplyRung, seq<MerchantEntry>>)
    ensures forall rung :: BucketIn(byRung, rung) == EntriesOn(entries, rung)
  {
    byRung := map[];
    for i := 0 to |entries|
      invariant forall rung :: BucketIn(byRung, rung) == EntriesOn(entries[..i], rung)
    {
      var entry := entries[i];
      ghost var before := byRung;
      byRung := byRung[entry.contextBranch.rung := BucketIn(byRung, entry.contextBranch.rung) + [entry]];
      forall rung ensures BucketIn(byRung, rung) == EntriesOn(entries[..i + 1], rung) {
        assert BucketIn(before, rung) == EntriesOn(entries[..i], rung);
        EntriesOnGrows(entries, i, rung);
      }
    }
    assert entries[..|entries|] == entries;
  }

  method RankMerchantsV2(merchants: seq<RankableMerchant>, input: RankInput) returns (r: RankMerchantsResult)
    ensures r.tiles == Tiles(merchants, input)
    ensures forall rung :: rung in r.rungCounts && r.rungCounts[rung] == CountOn(r.tiles, RungOf, rung)
  {
    var candidates := CollectCandidates(merchants, input);
    var entries := BuildEntries(merchants, input, candidates);
    var byRung := GroupByRung(entries);
    var sortWithinRung := (rung: SupplyRung) => Sort(BucketIn(byRung, rung), EntryComparator(input, rung));
    assert SortedLadder(sortWithinRung, MaxOrdinal(input)) == EntryLadder(entries, input);
    var tiles, rungCounts := WalkRungs(sortWithinRung, MaxOrdinal(input), input.targetCount, input.hardCap, TileMaker(input.effLoc), RungOf);
    return RankMerchantsResult(tiles, rungCounts);
  }
}
