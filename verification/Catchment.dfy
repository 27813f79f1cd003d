/**
 * The writers of catchment edges: the heuristic seeder (prisma/seed-data/catchment-heuristic.ts),
 * the curated overrides (prisma/seed-data/catchmentOverrides.ts) and the owner's replacement
 * script (prisma/set-locality-catchment.ts), over a table with a unique (source, target) pair.
 */
module Catchment {
  import opened Base
  import opened LadderWalk
  import opened Sequences
  import opened Sorting

  datatype PopulationTier = UNKNOWN | HAMLET | VILLAGE | SMALL_TOWN | TOWN | LARGE_TOWN | CITY | METRO_CORE

  datatype Locality = Locality(id: int, slug: string, lat: real, lng: real, country: string, populationTier: PopulationTier)

  /** The columns under the unique pair. */
  datatype Pair = Pair(source: int, target: int)
  datatype Edge = Edge(rank: nat, isCurated: bool)
  type Edges = map<Pair, Edge>

  /** A row to be inserted. */
  datatype NewEdge = NewEdge(pair: Pair, edge: Edge)

  const K_METRES: real := 12.0 * 1609.344
  const MAX_EDGES_PER_SOURCE: int := 3
  const CREATEMANY_BATCH: int := 1000

  function TierRank(t: PopulationTier): int {
    match t case METRO_CORE => 4 case CITY => 3 case LARGE_TOWN => 2 case TOWN => 1 case _ => 0
  }

  predicate IsTarget(l: Locality) {
    l.populationTier in {TOWN, LARGE_TOWN, CITY, METRO_CORE}
  }

  predicate IsSource(l: Locality) {
    l.populationTier in {HAMLET, VILLAGE, SMALL_TOWN, UNKNOWN}
  }

  /** Great-circle distance, uninterpreted. */
  type Metric = (Locality, Locality) -> real

  datatype Candidate = Candidate(id: int, distMetres: real, populationTier: PopulationTier)

  // ---------------------------------------------------------------- choosing the targets of one source

  function CompareCandidates(a: Candidate, b: Candidate): int {
    var dt := TierRank(b.populationTier) - TierRank(a.populationTier);
    if dt != 0 then dt else if a.distMetres < b.distMetres then -1 else if a.distMetres > b.distMetres then 1 else 0
  }

  function ByTierThenDistance(): (Candidate, Candidate) -> int {
    (a, b) => CompareCandidates(a, b)
  }

  /** The bucket's own chain: distance, then the radius filter. */
  function InRadius(src: Locality, metres: Metric): Locality -> Option<Candidate> {
    (t: Locality) => if metres(src, t) <= K_METRES then Some(Candidate(t.id, metres(src, t), t.populationTier)) else None
  }

  function FromBucket(src: Locality, bucket: seq<Locality>, metres: Metric): seq<Candidate> {
    Take(Sort(FilterMap(bucket, InRadius(src, metres)), ByTierThenDistance()), MAX_EDGES_PER_SOURCE)
  }

  function OfCountry(country: string): Locality -> Option<Locality> {
    (t: Locality) => if t.country == country then Some(t) else None
  }

  function Bucket(targets: seq<Locality>, country: string): seq<Locality> {
    FilterMap(targets, OfCountry(country))
  }

  /** A scan over all targets, country included in the test. */
  function InReach(src: Locality, metres: Metric): Locality -> Option<Candidate> {
    (t: Locality) =>
      if t.country == src.country && metres(src, t) <= K_METRES then Some(Candidate(t.id, metres(src, t), t.populationTier)) else None
  }

  function Reachable(src: Locality, targets: seq<Locality>, metres: Metric): seq<Candidate> {
    FilterMap(targets, InReach(src, metres))
  }

  /** The first three of the full scan, by tier and then by distance. */
  function Chosen(src: Locality, targets: seq<Locality>, metres: Metric): seq<Candidate> {
    Take(Sort(Reachable(src, targets, metres), ByTierThenDistance()), MAX_EDGES_PER_SOURCE)
  }

  /** Bucketing by country changes nothing: the bucketed pass is the full scan. */
  lemma {:induction false} BucketedPassIsFullScan(src: Locality, targets: seq<Locality>, metres: Metric)
    ensures FilterMap(Bucket(targets, src.country), InRadius(src, metres)) == Reachable(src, targets, metres)
    ensures FromBucket(src, Bucket(targets, src.country), metres) == Chosen(src, targets, metres)
  {
    if targets != [] {
      BucketedPassIsFullScan(src, targets[1..], metres);
      var rest := Bucket(targets[1..], src.country);
      if targets[0].country == src.country {
        assert Bucket(targets, src.country) == [targets[0]] + rest;
        FilterMapAppend([targets[0]], rest, InRadius(src, metres));
      } else {
        assert Bucket(targets, src.country) == [] + rest == rest;
      }
    }
  }

  lemma TierThenDistanceIsConsistent()
    ensures Consistent(ByTierThenDistance())
  {
  }

  /** A metropolitan core before a city, a city before a large town, a large town before a town, a town before the rest. */
  predicate LargerTier(p: PopulationTier, q: PopulationTier) {
    || (p == METRO_CORE && q != METRO_CORE)
    || (p == CITY && q != METRO_CORE && q != CITY)
    || (p == LARGE_TOWN && q !in {METRO_CORE, CITY, LARGE_TOWN})
    || (p == TOWN && q !in {METRO_CORE, CITY, LARGE_TOWN, TOWN})
  }

  /** A larger tier, or no smaller one and no farther. */
  predicate NoWorse(a: Candidate, b: Candidate) {
    || LargerTier(a.populationTier, b.populationTier)
    || (!LargerTier(b.populationTier, a.populationTier) && a.distMetres <= b.distMetres)
  }

  lemma SortedByPreference(cs: seq<Candidate>, sorted: seq<Candidate>)
    requires sorted == Sort(cs, ByTierThenDistance())
    ensures multiset(sorted) == multiset(cs)
    ensures forall i, j | 0 <= i < j < |sorted| :: NoWorse(sorted[i], sorted[j])
  {
    TierThenDistanceIsConsistent();
    SortSorts(cs, ByTierThenDistance());
    SortPermutes(cs, ByTierThenDistance());
    forall i, j | 0 <= i < j < |sorted| ensures NoWorse(sorted[i], sorted[j]) {
      assert ByTierThenDistance()(sorted[i], sorted[j]) <= 0;
    }
  }

  /** Three reachable targets, or all of them if fewer, in order, and none left over would have been better. */
  lemma ChosenAreTheBestThree(src: Locality, targets: seq<Locality>, metres: Metric)
    ensures var chosen, reachable := Chosen(src, targets, metres), Reachable(src, targets, metres);
      && |chosen| == Min(MAX_EDGES_PER_SOURCE, |reachable|)
      && (forall i, j | 0 <= i < j < |chosen| :: NoWorse(chosen[i], chosen[j]))
      && exists rest :: multiset(chosen + rest) == multiset(reachable) && forall c, d | c in chosen && d in rest :: NoWorse(c, d)
  {
    var chosen, reachable := Chosen(src, targets, metres), Reachable(src, targets, metres);
    var sorted := Sort(reachable, ByTierThenDistance());
    SortedByPreference(reachable, sorted);
    SameElements(reachable, sorted);
    assert chosen == sorted[..|chosen|];
    var rest := sorted[|chosen|..];
    assert chosen + rest == sorted;
    forall c, d | c in chosen && d in rest ensures NoWorse(c, d) {
      var i :| 0 <= i < |chosen| && chosen[i] == c;
      var j :| 0 <= j < |rest| && rest[j] == d;
      assert NoWorse(sorted[i], sorted[|chosen| + j]);
    }
  }

  /** What is reachable: targets of the same country within twelve miles. */
  lemma ReachableContents(src: Locality, targets: seq<Locality>, metres: Metric, c: Candidate)
    ensures c in Reachable(src, targets, metres) <==>
      exists t | t in targets :: t.country == src.country && metres(src, t) <= K_METRES && c == Candidate(t.id, metres(src, t), t.populationTier)
  {
    FilterMapContents(targets, InReach(src, metres), c);
    assert forall t :: InReach(src, metres)(t) == Some(c) <==>
      (t.country == src.country && metres(src, t) <= K_METRES && c == Candidate(t.id, metres(src, t), t.populationTier));
  }

  // ---------------------------------------------------------------- planned rows

  /** The rows of one source, ranked from 1. */
  function EdgesOf(src: Locality, targets: seq<Locality>, metres: Metric): (rows: seq<NewEdge>)
    ensures |rows| == |Chosen(src, targets, metres)|
    ensures forall i | 0 <= i < |rows| :: rows[i] == NewEdge(Pair(src.id, Chosen(src, targets, metres)[i].id), Edge(i + 1, false))
  {
    var chosen := Chosen(src, targets, metres);
    seq(|chosen|, i requires 0 <= i < |chosen| => NewEdge(Pair(src.id, chosen[i].id), Edge(i + 1, false)))
  }

  function PlannedEdges(sources: seq<Locality>, targets: seq<Locality>, metres: Metric): seq<NewEdge> {
    if sources == [] then []
    else PlannedEdges(sources[..|sources| - 1], targets, metres) + EdgesOf(sources[|sources| - 1], targets, metres)
  }

  // ---------------------------------------------------------------- inserting

  /** `createMany` with `skipDuplicates`: a row whose pair exists is skipped. */
  function InsertNew(edges: Edges, rows: seq<NewEdge>): Edges {
    if rows == [] then edges
    else
      var before := InsertNew(edges, rows[..|rows| - 1]);
      var last := rows[|rows| - 1];
      if last.pair in before then before else before[last.pair := last.edge]
  }

  lemma {:induction false} InsertInBatches(edges: Edges, a: seq<NewEdge>, b: seq<NewEdge>)
    ensures InsertNew(edges, a + b) == InsertNew(InsertNew(edges, a), b)
  {
    if b == [] {
      assert a + b == a;
    } else {
      InsertInBatches(edges, a, b[..|b| - 1]);
      assert (a + b)[..|a + b| - 1] == a + b[..|b| - 1];
    }
  }

  /** Inserting never alters or removes an existing edge. */
  lemma {:induction false} InsertKeepsExisting(edges: Edges, rows: seq<NewEdge>)
    ensures forall p | p in edges :: p in InsertNew(edges, rows) && InsertNew(edges, rows)[p] == edges[p]
    ensures forall row | row in rows :: row.pair in InsertNew(edges, rows)
    ensures forall p | p in InsertNew(edges, rows) :: p in edges || NewEdge(p, InsertNew(edges, rows)[p]) in rows
  {
    if rows != [] {
      var most, last := rows[..|rows| - 1], rows[|rows| - 1];
      assert rows == most + [last];
      InsertKeepsExisting(edges, most);
    }
  }

  /** When every pair is there already, inserting changes nothing. */
  lemma {:induction false} InsertOfKnownIsNothing(edges: Edges, rows: seq<NewEdge>)
    requires forall row | row in rows :: row.pair in edges
    ensures InsertNew(edges, rows) == edges
  {
    if rows != [] {
      var most, last := rows[..|rows| - 1], rows[|rows| - 1];
      assert rows == most + [last];
      InsertOfKnownIsNothing(edges, most);
    }
  }

  /** The heuristic seeder. */
  function Heuristic(edges: Edges, localities: seq<Locality>, metres: Metric): Edges {
    InsertNew(edges, PlannedEdges(Sources(localities), Targets(localities), metres))
  }

  function KeepIf(keep: Locality -> bool): Locality -> Option<Locality> {
    (l: Locality) => if keep(l) then Some(l) else None
  }

  function Sources(localities: seq<Locality>): seq<Locality> {
    FilterMap(localities, KeepIf(IsSource))
  }

  function Targets(localities: seq<Locality>): seq<Locality> {
    FilterMap(localities, KeepIf(IsTarget))
  }

  lemma KeptContents(localities: seq<Locality>, keep: Locality -> bool, l: Locality)
    ensures l in FilterMap(localities, KeepIf(keep)) <==> l in localities && keep(l)
  {
    FilterMapContents(localities, KeepIf(keep), l);
    if m :| m in localities && KeepIf(keep)(m) == Some(l) {
      assert m == l;
    }
    assert keep(l) ==> KeepIf(keep)(l) == Some(l);
  }

  /** Towns and larger places are targets, all others sources: no locality is both or neither. */
  lemma SourcesAndTargetsPartition(localities: seq<Locality>, l: Locality)
    ensures l in Targets(localities) <==> l in localities && LargerTier(l.populationTier, SMALL_TOWN)
    ensures l in Sources(localities) <==> l in localities && l !in Targets(localities)
  {
    KeptContents(localities, IsTarget, l);
    KeptContents(localities, IsSource, l);
    assert IsTarget(l) <==> LargerTier(l.populationTier, SMALL_TOWN);
    assert IsSource(l) <==> !IsTarget(l);
  }

  /** The heuristic adds heuristic edges only and never touches an existing one, curated or not. */
  lemma HeuristicNeverAlters(edges: Edges, localities: seq<Locality>, metres: Metric)
    ensures forall p | p in edges :: p in Heuristic(edges, localities, metres) && Heuristic(edges, localities, metres)[p] == edges[p]
    ensures forall p | p in Heuristic(edges, localities, metres) && p !in edges :: !Heuristic(edges, localities, metres)[p].isCurated
  {
    var rows := PlannedEdges(Sources(localities), Targets(localities), metres);
    InsertKeepsExisting(edges, rows);
    PlannedAreHeuristic(Sources(localities), Targets(localities), metres);
  }

  lemma {:induction false} PlannedAreHeuristic(sources: seq<Locality>, targets: seq<Locality>, metres: Metric)
    ensures forall row | row in PlannedEdges(sources, targets, metres) :: !row.edge.isCurated
  {
    if sources != [] {
      PlannedAreHeuristic(sources[..|sources| - 1], targets, metres);
    }
  }

  ghost predicate DistinctIds(localities: seq<Locality>) {
    forall i, j | 0 <= i < j < |localities| :: localities[i].id != localities[j].id
  }

  /** The pairs of one source's rows differ. */
  ghost predicate DistinctPairs(rows: seq<NewEdge>) {
    forall i, j | 0 <= i < j < |rows| :: rows[i].pair != rows[j].pair
  }

  lemma {:induction false} InsertDistinctRow(edges: Edges, rows: seq<NewEdge>, i: nat)
    requires DistinctPairs(rows) && i < |rows| && rows[i].pair !in edges
    ensures rows[i].pair in InsertNew(edges, rows) && InsertNew(edges, rows)[rows[i].pair] == rows[i].edge
  {
    var most := rows[..|rows| - 1];
    if i < |most| {
      InsertDistinctRow(edges, most, i);
    } else {
      InsertKeepsExisting(edges, most);
      forall row | row in most ensures row.pair != rows[i].pair {
        var j :| 0 <= j < |most| && most[j] == row;
        assert rows[j].pair != rows[i].pair;
      }
    }
  }

  lemma {:induction false} ReachableIdsDistinct(src: Locality, targets: seq<Locality>, metres: Metric)
    requires DistinctIds(targets)
    ensures forall i, j | 0 <= i < j < |Reachable(src, targets, metres)| ::
      Reachable(src, targets, metres)[i].id != Reachable(src, targets, metres)[j].id
  {
    if targets != [] {
      var rest := targets[1..];
      assert forall i | 0 <= i < |rest| :: rest[i] == targets[i + 1];
      ReachableIdsDistinct(src, rest, metres);
      forall c | c in Reachable(src, rest, metres) ensures c.id != targets[0].id {
        ReachableContents(src, rest, metres, c);
        var t :| t in rest && c.id == t.id;
        var i :| 0 <= i < |rest| && rest[i] == t;
        assert targets[i + 1].id != targets[0].id;
      }
      if InReach(src, metres)(targets[0]).Some? {
        OrderedPrepend(InReach(src, metres)(targets[0]).value, Reachable(src, rest, metres), (a: Candidate, b: Candidate) => a.id != b.id);
      } else {
        assert Reachable(src, targets, metres) == [] + Reachable(src, rest, metres) == Reachable(src, rest, metres);
      }
    }
  }

  ghost predicate DistinctCandidates(cs: seq<Candidate>) {
    forall i, j | 0 <= i < j < |cs| :: cs[i].id != cs[j].id
  }

  lemma SortKeepsIdsDistinct(cs: seq<Candidate>)
    requires DistinctCandidates(cs)
    ensures DistinctCandidates(Sort(cs, ByTierThenDistance()))
  {
    var sorted := Sort(cs, ByTierThenDistance());
    SortKeepsDistinct(cs, ByTierThenDistance());
    SortPermutes(cs, ByTierThenDistance());
    SameElements(cs, sorted);
    forall i, j | 0 <= i < j < |sorted| ensures sorted[i].id != sorted[j].id {
      IdIdentifies(cs, sorted[i], sorted[j]);
    }
  }

  lemma IdIdentifies(cs: seq<Candidate>, a: Candidate, b: Candidate)
    requires DistinctCandidates(cs) && a in cs && b in cs
    ensures a.id == b.id ==> a == b
  {
  }

  lemma ChosenIdsDistinct(src: Locality, targets: seq<Locality>, metres: Metric)
    requires DistinctIds(targets)
    ensures DistinctPairs(EdgesOf(src, targets, metres))
  {
    ReachableIdsDistinct(src, targets, metres);
    SortKeepsIdsDistinct(Reachable(src, targets, metres));
  }

  lemma {:induction false} PlannedPairs(sources: seq<Locality>, targets: seq<Locality>, metres: Metric)
    requires DistinctIds(sources) && DistinctIds(targets)
    ensures DistinctPairs(PlannedEdges(sources, targets, metres))
    ensures forall row | row in PlannedEdges(sources, targets, metres) :: exists s | s in sources :: row.pair.source == s.id
    ensures forall s | s in sources :: forall row | row in EdgesOf(s, targets, metres) :: row in PlannedEdges(sources, targets, metres)
  {
    if sources != [] {
      var most, last := sources[..|sources| - 1], sources[|sources| - 1];
      assert sources == most + [last];
      PlannedPairs(most, targets, metres);
      ChosenIdsDistinct(last, targets, metres);
      var a, b := PlannedEdges(most, targets, metres), EdgesOf(last, targets, metres);
      forall x, y | x in a && y in b ensures x.pair != y.pair {
        var s :| s in most && x.pair.source == s.id;
        var i :| 0 <= i < |most| && most[i] == s;
        assert sources[i].id != last.id;
      }
      OrderedAppend(a, b, (x: NewEdge, y: NewEdge) => x.pair != y.pair);
    }
  }

  lemma {:induction false} PlannedRowIsOfItsSource(sources: seq<Locality>, targets: seq<Locality>, metres: Metric, row: NewEdge) returns (s: Locality)
    requires row in PlannedEdges(sources, targets, metres)
    ensures s in sources && row in EdgesOf(s, targets, metres) && row.pair.source == s.id
  {
    var most, last := sources[..|sources| - 1], sources[|sources| - 1];
    assert sources == most + [last];
    if row in EdgesOf(last, targets, metres) {
      s := last;
    } else {
      s := PlannedRowIsOfItsSource(most, targets, metres, row);
    }
  }

  ghost predicate IsChosen(src: Locality, targets: seq<Locality>, metres: Metric, target: int) {
    exists c | c in Chosen(src, targets, metres) :: c.id == target
  }

  /**
   * After the heuristic a source has the edges it had and its best three targets, and no other;
   * a new edge carries its rank, one that was there stays as it was.
   */
  lemma HeuristicGivesTheBestThree(edges: Edges, localities: seq<Locality>, metres: Metric, src: Locality)
    requires DistinctIds(Sources(localities)) && DistinctIds(Targets(localities)) && src in Sources(localities)
    ensures var after := Heuristic(edges, localities, metres);
      forall p: Pair | p.source == src.id :: p in after <==> p in edges || IsChosen(src, Targets(localities), metres, p.target)
    ensures var chosen, after := Chosen(src, Targets(localities), metres), Heuristic(edges, localities, metres);
      forall i | 0 <= i < |chosen| :: Pair(src.id, chosen[i].id) in after
        && after[Pair(src.id, chosen[i].id)] == if Pair(src.id, chosen[i].id) in edges then edges[Pair(src.id, chosen[i].id)] else Edge(i + 1, false)
  {
    var chosen, after := Chosen(src, Targets(localities), metres), Heuristic(edges, localities, metres);
    var rows := PlannedEdges(Sources(localities), Targets(localities), metres);
    InsertKeepsExisting(edges, rows);
    forall i | 0 <= i < |chosen|
      ensures Pair(src.id, chosen[i].id) in after
      ensures after[Pair(src.id, chosen[i].id)] == if Pair(src.id, chosen[i].id) in edges then edges[Pair(src.id, chosen[i].id)] else Edge(i + 1, false)
    {
      ChosenIsInserted(edges, localities, metres, src, i);
    }
    forall p: Pair | p.source == src.id ensures p in after <==> p in edges || IsChosen(src, Targets(localities), metres, p.target) {
      if p in after && p !in edges {
        InsertedIsChosen(localities, metres, src, NewEdge(p, after[p]));
      }
      if c :| c in chosen && c.id == p.target {
        var i :| 0 <= i < |chosen| && chosen[i] == c;
        ChosenIsInserted(edges, localities, metres, src, i);
      }
    }
  }

  lemma InsertedIsChosen(localities: seq<Locality>, metres: Metric, src: Locality, row: NewEdge)
    requires DistinctIds(Sources(localities)) && src in Sources(localities) && row.pair.source == src.id
    requires row in PlannedEdges(Sources(localities), Targets(localities), metres)
    ensures IsChosen(src, Targets(localities), metres, row.pair.target)
  {
    var s := PlannedRowIsOfItsSource(Sources(localities), Targets(localities), metres, row);
    assert s == src;
    var i :| 0 <= i < |EdgesOf(src, Targets(localities), metres)| && EdgesOf(src, Targets(localities), metres)[i] == row;
    assert Chosen(src, Targets(localities), metres)[i].id == row.pair.target;
  }

  lemma ChosenIsInserted(edges: Edges, localities: seq<Locality>, metres: Metric, src: Locality, i: nat)
    requires DistinctIds(Sources(localities)) && DistinctIds(Targets(localities))
    requires src in Sources(localities) && i < |Chosen(src, Targets(localities), metres)|
    ensures var pair, after := Pair(src.id, Chosen(src, Targets(localities), metres)[i].id), Heuristic(edges, localities, metres);
      pair in after && after[pair] == if pair in edges then edges[pair] else Edge(i + 1, false)
  {
    var rows := PlannedEdges(Sources(localities), Targets(localities), metres);
    PlannedPairs(Sources(localities), Targets(localities), metres);
    var row := EdgesOf(src, Targets(localities), metres)[i];
    assert row in rows;
    var k :| 0 <= k < |rows| && rows[k] == row;
    InsertKeepsExisting(edges, rows);
    if row.pair !in edges {
      InsertDistinctRow(edges, rows, k);
    }
  }

  // ---------------------------------------------------------------- curated overrides

  datatype Override = Override(sourceSlug: string, targetSlugs: seq<string>)

  /** `findUnique({ where: { slug } })` */
  function IdOf(localities: seq<Locality>, slug: string): Option<int> {
    if localities == [] then None else if localities[0].slug == slug then Some(localities[0].id) else IdOf(localities[1..], slug)
  }

  /** The rows that one override writes: resolved targets, each with its position as rank. */
  function RowsOf(localities: seq<Locality>, o: Override): seq<NewEdge> {
    var source := IdOf(localities, o.sourceSlug);
    if source.None? then [] else TargetRows(localities, source.value, o.targetSlugs)
  }

  function TargetRows(localities: seq<Locality>, source: int, slugs: seq<string>): seq<NewEdge> {
    if slugs == [] then []
    else
      var target := IdOf(localities, slugs[|slugs| - 1]);
      TargetRows(localities, source, slugs[..|slugs| - 1]) +
        (if target.None? then [] else [NewEdge(Pair(source, target.value), Edge(|slugs|, true))])
  }

  function CuratedRows(localities: seq<Locality>, overrides: seq<Override>): seq<NewEdge> {
    if overrides == [] then []
    else CuratedRows(localities, overrides[..|overrides| - 1]) + RowsOf(localities, overrides[|overrides| - 1])
  }

  /** Update or create, one row after the other. */
  function PutAll(edges: Edges, rows: seq<NewEdge>): Edges {
    if rows == [] then edges else PutAll(edges, rows[..|rows| - 1])[rows[|rows| - 1].pair := rows[|rows| - 1].edge]
  }

  function Curated(edges: Edges, localities: seq<Locality>, overrides: seq<Override>): Edges {
    PutAll(edges, CuratedRows(localities, overrides))
  }

  /** The last row for a pair decides. */
  function LastFor(rows: seq<NewEdge>, pair: Pair): Option<Edge> {
    if rows == [] then None
    else if rows[|rows| - 1].pair == pair then Some(rows[|rows| - 1].edge)
    else LastFor(rows[..|rows| - 1], pair)
  }

  lemma {:induction false} PutAllLookup(edges: Edges, rows: seq<NewEdge>, pair: Pair)
    ensures pair in PutAll(edges, rows) <==> pair in edges || LastFor(rows, pair).Some?
    ensures LastFor(rows, pair).Some? ==> PutAll(edges, rows)[pair] == LastFor(rows, pair).value
    ensures LastFor(rows, pair).None? && pair in edges ==> PutAll(edges, rows)[pair] == edges[pair]
  {
    if rows != [] {
      PutAllLookup(edges, rows[..|rows| - 1], pair);
    }
  }

  /** Writing the overrides twice is writing them once. */
  lemma CuratedIsIdempotent(edges: Edges, localities: seq<Locality>, overrides: seq<Override>)
    ensures Curated(Curated(edges, localities, overrides), localities, overrides) == Curated(edges, localities, overrides)
  {
    var rows := CuratedRows(localities, overrides);
    var once := PutAll(edges, rows);
    forall pair ensures pair in PutAll(once, rows) <==> pair in once
                ensures pair in once ==> PutAll(once, rows)[pair] == once[pair] {
      PutAllLookup(edges, rows, pair);
      PutAllLookup(once, rows, pair);
    }
  }

  /** The `i`-th target slug of override `k` and its source slug name the localities of `pair`. */
  predicate Lists(localities: seq<Locality>, overrides: seq<Override>, k: nat, i: nat, pair: Pair) {
    && k < |overrides| && i < |overrides[k].targetSlugs|
    && IdOf(localities, overrides[k].sourceSlug) == Some(pair.source)
    && IdOf(localities, overrides[k].targetSlugs[i]) == Some(pair.target)
  }

  predicate LaterListing(k: nat, i: nat, k': nat, i': nat) {
    k < k' || (k == k' && i < i')
  }

  lemma {:induction false} LastForAppend(a: seq<NewEdge>, b: seq<NewEdge>, pair: Pair)
    ensures LastFor(a + b, pair) == if LastFor(b, pair).Some? then LastFor(b, pair) else LastFor(a, pair)
  {
    if b == [] {
      assert a + b == a;
    } else {
      LastForAppend(a, b[..|b| - 1], pair);
      assert (a + b)[..|a + b| - 1] == a + b[..|b| - 1];
    }
  }

  predicate NamesTarget(localities: seq<Locality>, slug: string, pair: Pair) {
    IdOf(localities, slug) == Some(pair.target)
  }

  lemma TargetRowsGrow(localities: seq<Locality>, source: int, slugs: seq<string>, pair: Pair)
    requires slugs != []
    ensures
      var last := |slugs| - 1;
      LastFor(TargetRows(localities, source, slugs), pair) ==
        if pair.source == source && NamesTarget(localities, slugs[last], pair) then Some(Edge(last + 1, true))
        else LastFor(TargetRows(localities, source, slugs[..last]), pair)
  {
    var target := IdOf(localities, slugs[|slugs| - 1]);
    var rows := if target.None? then [] else [NewEdge(Pair(source, target.value), Edge(|slugs|, true))];
    LastForAppend(TargetRows(localities, source, slugs[..|slugs| - 1]), rows, pair);
  }

  lemma {:induction false} NoTargetRow(localities: seq<Locality>, source: int, slugs: seq<string>, pair: Pair)
    requires pair.source != source || forall i | 0 <= i < |slugs| :: !NamesTarget(localities, slugs[i], pair)
    ensures LastFor(TargetRows(localities, source, slugs), pair) == None
  {
    if slugs != [] {
      TargetRowsGrow(localities, source, slugs, pair);
      NoTargetRow(localities, source, slugs[..|slugs| - 1], pair);
    }
  }

  lemma {:induction false} LastTargetRow(localities: seq<Locality>, slugs: seq<string>, pair: Pair, i: nat)
    requires i < |slugs| && NamesTarget(localities, slugs[i], pair)
    requires forall j | i < j < |slugs| :: !NamesTarget(localities, slugs[j], pair)
    ensures LastFor(TargetRows(localities, pair.source, slugs), pair) == Some(Edge(i + 1, true))
  {
    TargetRowsGrow(localities, pair.source, slugs, pair);
    if i < |slugs| - 1 {
      LastTargetRow(localities, slugs[..|slugs| - 1], pair, i);
    }
  }

  lemma ListsInMost(localities: seq<Locality>, overrides: seq<Override>, k: nat, i: nat, pair: Pair)
    requires overrides != []
    ensures Lists(localities, overrides[..|overrides| - 1], k, i, pair) <==> k < |overrides| - 1 && Lists(localities, overrides, k, i, pair)
  {
  }

  lemma RowsOfUnlisted(localities: seq<Locality>, overrides: seq<Override>, k: nat, pair: Pair)
    requires k < |overrides| && forall i: nat :: !Lists(localities, overrides, k, i, pair)
    ensures LastFor(RowsOf(localities, overrides[k]), pair) == None
  {
    var o := overrides[k];
    if IdOf(localities, o.sourceSlug).Some? {
      if pair.source == IdOf(localities, o.sourceSlug).value {
        assert forall i: nat | i < |o.targetSlugs| :: Lists(localities, overrides, k, i, pair) <==> NamesTarget(localities, o.targetSlugs[i], pair);
      }
      NoTargetRow(localities, IdOf(localities, o.sourceSlug).value, o.targetSlugs, pair);
    }
  }

  lemma {:induction false} NoCuratedRow(localities: seq<Locality>, overrides: seq<Override>, pair: Pair)
    requires forall k: nat, i: nat :: !Lists(localities, overrides, k, i, pair)
    ensures LastFor(CuratedRows(localities, overrides), pair) == None
  {
    if overrides != [] {
      var n := |overrides| - 1;
      forall k: nat, i: nat ensures !Lists(localities, overrides[..n], k, i, pair) {
        ListsInMost(localities, overrides, k, i, pair);
      }
      NoCuratedRow(localities, overrides[..n], pair);
      RowsOfUnlisted(localities, overrides, n, pair);
      LastForAppend(CuratedRows(localities, overrides[..n]), RowsOf(localities, overrides[n]), pair);
    }
  }

  lemma {:induction false} LastCuratedRow(localities: seq<Locality>, overrides: seq<Override>, pair: Pair, k: nat, i: nat)
    requires Lists(localities, overrides, k, i, pair)
    requires forall k': nat, i': nat | LaterListing(k, i, k', i') :: !Lists(localities, overrides, k', i', pair)
    ensures LastFor(CuratedRows(localities, overrides), pair) == Some(Edge(i + 1, true))
  {
    var n := |overrides| - 1;
    LastForAppend(CuratedRows(localities, overrides[..n]), RowsOf(localities, overrides[n]), pair);
    if k == n {
      var slugs := overrides[n].targetSlugs;
      forall j | i < j < |slugs| ensures !NamesTarget(localities, slugs[j], pair) {
        assert LaterListing(k, i, n, j);
      }
      LastTargetRow(localities, slugs, pair, i);
    } else {
      forall j: nat ensures !Lists(localities, overrides, n, j, pair) {
        assert LaterListing(k, i, n, j);
      }
      RowsOfUnlisted(localities, overrides, n, pair);
      ListsInMost(localities, overrides, k, i, pair);
      forall k': nat, i': nat | LaterListing(k, i, k', i') ensures !Lists(localities, overrides[..n], k', i', pair) {
        ListsInMost(localities, overrides, k', i', pair);
      }
      LastCuratedRow(localities, overrides[..n], pair, k, i);
    }
  }

  /** A pair that no override lists stays as it was. */
  lemma CuratedLeavesOthers(edges: Edges, localities: seq<Locality>, overrides: seq<Override>, pair: Pair)
    requires forall k: nat, i: nat :: !Lists(localities, overrides, k, i, pair)
    ensures pair in Curated(edges, localities, overrides) <==> pair in edges
    ensures pair in edges ==> Curated(edges, localities, overrides)[pair] == edges[pair]
  {
    PutAllLookup(edges, CuratedRows(localities, overrides), pair);
    NoCuratedRow(localities, overrides, pair);
  }

  /** A pair that an override lists is a curated edge, promoted or new, ranked by its last listing. */
  lemma CuratedRanksByLastListing(edges: Edges, localities: seq<Locality>, overrides: seq<Override>, pair: Pair, k: nat, i: nat)
    requires Lists(localities, overrides, k, i, pair)
    requires forall k': nat, i': nat | LaterListing(k, i, k', i') :: !Lists(localities, overrides, k', i', pair)
    ensures pair in Curated(edges, localities, overrides) && Curated(edges, localities, overrides)[pair] == Edge(i + 1, true)
  {
    PutAllLookup(edges, CuratedRows(localities, overrides), pair);
    LastCuratedRow(localities, overrides, pair, k, i);
  }

  /** With distinct slugs, a slug names the one locality that carries it. */
  lemma {:induction false} SlugNamesItsLocality(localities: seq<Locality>, slug: string, id: int)
    requires forall i, j | 0 <= i < j < |localities| :: localities[i].slug != localities[j].slug
    ensures IdOf(localities, slug) == Some(id) <==> exists l | l in localities :: l.slug == slug && l.id == id
  {
    if localities != [] {
      var rest := localities[1..];
      assert forall i | 0 <= i < |rest| :: rest[i] == localities[i + 1];
      SlugNamesItsLocality(rest, slug, id);
      assert localities == [localities[0]] + rest;
      if localities[0].slug == slug {
        assert forall l | l in rest :: l.slug != slug;
      }
    }
  }

  /** Seeding heuristic and curated edges again changes nothing. */
  lemma SeedingTwiceIsSeedingOnce(edges: Edges, localities: seq<Locality>, metres: Metric, overrides: seq<Override>)
    ensures var seeded := Curated(Heuristic(edges, localities, metres), localities, overrides);
      Heuristic(seeded, localities, metres) == seeded && Curated(Heuristic(seeded, localities, metres), localities, overrides) == seeded
  {
    var rows := PlannedEdges(Sources(localities), Targets(localities), metres);
    var heuristic := Heuristic(edges, localities, metres);
    var seeded := Curated(heuristic, localities, overrides);
    InsertKeepsExisting(edges, rows);
    forall row | row in rows ensures row.pair in seeded {
      PutAllLookup(heuristic, CuratedRows(localities, overrides), row.pair);
    }
    InsertOfKnownIsNothing(seeded, rows);
    CuratedIsIdempotent(heuristic, localities, overrides);
  }

  // ---------------------------------------------------------------- replacing one source's edges

  function Resolved(localities: seq<Locality>): string -> Option<int> {
    slug => IdOf(localities, slug)
  }

  function WithoutSource(edges: Edges, source: int): Edges {
    map p | p in edges && p.source != source :: edges[p]
  }

  datatype Creation = Creation(edges: Edges, failed: bool)

  /** `create` row by row, ranked from 1; a second row for a pair violates the unique pair and ends the script. */
  function CreateRanked(edges: Edges, source: int, targets: seq<int>): Creation {
    if targets == [] then Creation(edges, false)
    else
      var before := CreateRanked(edges, source, targets[..|targets| - 1]);
      var pair := Pair(source, targets[|targets| - 1]);
      if before.failed then before
      else if pair in before.edges then Creation(before.edges, true)
      else Creation(before.edges[pair := Edge(|targets|, true)], false)
  }

  datatype SetError = SourceNotFound | DuplicateEdge

  function SetCatchment(edges: Edges, localities: seq<Locality>, sourceSlug: string, centreSlugs: seq<string>, dryRun: bool)
    : (Edges, Option<SetError>)
  {
    var source := IdOf(localities, sourceSlug);
    if source.None? then (edges, Some(SourceNotFound))
    else if dryRun then (edges, None)
    else
      var created := CreateRanked(WithoutSource(edges, source.value), source.value, FilterMap(centreSlugs, Resolved(localities)));
      (created.edges, if created.failed then Some(DuplicateEdge) else None)
  }

  ghost predicate DistinctTargets(targets: seq<int>) {
    forall i, j | 0 <= i < j < |targets| :: targets[i] != targets[j]
  }

  /** The targets before the first repeated one. */
  function DistinctPrefix(targets: seq<int>): (prefix: seq<int>)
    ensures prefix <= targets && DistinctTargets(prefix)
    ensures |prefix| < |targets| ==> targets[|prefix|] in prefix
  {
    if targets == [] then []
    else
      var before := DistinctPrefix(targets[..|targets| - 1]);
      if |before| == |targets| - 1 && targets[|targets| - 1] !in before then targets else before
  }

  lemma DistinctPrefixIsAll(targets: seq<int>)
    ensures DistinctPrefix(targets) == targets <==> DistinctTargets(targets)
  {
    var prefix := DistinctPrefix(targets);
    if |prefix| < |targets| {
      var i :| 0 <= i < |prefix| && prefix[i] == targets[|prefix|];
      assert targets[i] == targets[|prefix|];
    }
  }

  /** Creating stops at the first repeated target: the edges of the source are then exactly the targets before it, ranked by position. */
  lemma {:induction false} CreatedExactly(edges: Edges, source: int, targets: seq<int>)
    requires forall p | p in edges :: p.source != source
    ensures CreateRanked(edges, source, targets).failed <==> DistinctPrefix(targets) != targets
    ensures forall p: Pair | p.source != source :: p in CreateRanked(edges, source, targets).edges <==> p in edges
    ensures forall p | p in edges :: CreateRanked(edges, source, targets).edges[p] == edges[p]
    ensures forall t :: Pair(source, t) in CreateRanked(edges, source, targets).edges <==> t in DistinctPrefix(targets)
    ensures forall i | 0 <= i < |DistinctPrefix(targets)| ::
      CreateRanked(edges, source, targets).edges[Pair(source, DistinctPrefix(targets)[i])] == Edge(i + 1, true)
  {
    if targets != [] {
      var most, last := targets[..|targets| - 1], targets[|targets| - 1];
      assert targets == most + [last];
      CreatedExactly(edges, source, most);
    }
  }

  /**
   * The replacement fails if and only if two centres resolve to one locality. The old edges of the
   * source are gone either way: it has exactly the centres before the first repeated one, curated
   * and ranked in argument order, which are all of them when it succeeds. Other sources' edges
   * are never touched.
   */
  lemma ReplacementFailsExactlyOnDuplicates(edges: Edges, localities: seq<Locality>, sourceSlug: string, centreSlugs: seq<string>)
    requires IdOf(localities, sourceSlug).Some?
    ensures var source := IdOf(localities, sourceSlug).value;
      var centres := FilterMap(centreSlugs, Resolved(localities));
      var kept := DistinctPrefix(centres);
      var (after, error) := SetCatchment(edges, localities, sourceSlug, centreSlugs, false);
      && (error == Some(DuplicateEdge) <==> !DistinctTargets(centres)) && (error.None? <==> kept == centres)
      && (forall p: Pair | p.source != source :: p in after <==> p in edges)
      && (forall p | p in after && p.source != source :: after[p] == edges[p])
      && (forall t :: Pair(source, t) in after <==> t in kept)
      && (forall i | 0 <= i < |kept| :: after[Pair(source, kept[i])] == Edge(i + 1, true))
  {
    var source := IdOf(localities, sourceSlug).value;
    var centres := FilterMap(centreSlugs, Resolved(localities));
    CreatedExactly(WithoutSource(edges, source), source, centres);
    DistinctPrefixIsAll(centres);
  }

  /** A dry run, or an unknown source, changes no edge; the source is reported missing if and only if no locality has its slug. */
  lemma DryRunAndUnknownSourceWriteNothing(edges: Edges, localities: seq<Locality>, sourceSlug: string, centreSlugs: seq<string>, dryRun: bool)
    ensures var (after, error) := SetCatchment(edges, localities, sourceSlug, centreSlugs, dryRun);
      && (error == Some(SourceNotFound) <==> forall l | l in localities :: l.slug != sourceSlug)
      && (dryRun || error == Some(SourceNotFound) ==> after == edges && error != Some(DuplicateEdge))
  {
    UnknownSlug(localities, sourceSlug);
  }

  lemma {:induction false} UnknownSlug(localities: seq<Locality>, slug: string)
    ensures IdOf(localities, slug).None? <==> forall l | l in localities :: l.slug != slug
  {
    if localities != [] {
      UnknownSlug(localities[1..], slug);
      assert localities == [localities[0]] + localities[1..];
    }
  }

  /** Two centres that resolve to one locality: the script fails, and the old edge to a third is lost. */
  lemma FailedReplacementLosesEdges(s: Locality, a: Locality, c: Locality)
    requires s.slug == "s" && a.slug == "a" && c.id != a.id
    ensures SetCatchment(map[Pair(s.id, c.id) := Edge(1, false)], [s, a, c], "s", ["a", "a"], false)
         == (map[Pair(s.id, a.id) := Edge(1, true)], Some(DuplicateEdge))
  {
    var localities, slugs := [s, a, c], ["a", "a"];
    assert "s"[0] != "a"[0];
    assert localities[1..] == [a, c] && IdOf(localities, "s") == Some(s.id);
    assert IdOf(localities, "a") == IdOf(localities[1..], "a") == Some(a.id);
    assert slugs[1..] == ["a"] && slugs[1..][1..] == [];
    var centres := FilterMap(slugs, Resolved(localities));
    assert centres == [a.id] + FilterMap(slugs[1..], Resolved(localities)) == [a.id, a.id];
    assert WithoutSource(map[Pair(s.id, c.id) := Edge(1, false)], s.id) == map[];
    assert centres[..1] == [a.id] && centres[..1][..0] == [];
    assert CreateRanked(map[], s.id, centres[..1]) == Creation(map[Pair(s.id, a.id) := Edge(1, true)], false);
  }

  lemma BucketGrows(targets: seq<Locality>, i: nat, country: string)
    requires i < |targets|
    ensures Bucket(targets[..i + 1], country) == Bucket(targets[..i], country) + (if targets[i].country == country then [targets[i]] else [])
  {
    assert targets[..i + 1] == targets[..i] + [targets[i]];
    FilterMapAppend(targets[..i], [targets[i]], OfCountry(country));
  }

  lemma NextBatch(edges: Edges, rows: seq<NewEdge>, i: nat, end: nat)
    requires i <= end <= |rows|
    ensures InsertNew(InsertNew(edges, rows[..i]), rows[i..end]) == InsertNew(edges, rows[..end])
  {
    InsertInBatches(edges, rows[..i], rows[i..end]);
    assert rows[..i] + rows[i..end] == rows[..end];
  }

  lemma PutOne(edges: Edges, rows: seq<NewEdge>, row: NewEdge)
    ensures PutAll(edges, rows + [row]) == PutAll(edges, rows)[row.pair := row.edge]
  {
  }

  // ---------------------------------------------------------------- the writers, row by row

  class EdgeTable {
    var edges: Edges

    constructor (edges: Edges)
      ensures this.edges == edges
    {
      this.edges := edges;
    }

    /** `createMany({ data, skipDuplicates: true })`: how many rows were new. */
    method CreateMany(rows: seq<NewEdge>) returns (inserted: nat)
      modifies this
      ensures edges == InsertNew(old(edges), rows) && |edges| == |old(edges)| + inserted
    {
      inserted := 0;
      for i := 0 to |rows|
        invariant |edges| == |old(edges)| + inserted
        invariant edges == InsertNew(old(edges), rows[..i])
      {
        assert rows[..i + 1][..i] == rows[..i];
        if rows[i].pair !in edges {
          edges := edges[rows[i].pair := rows[i].edge];
          inserted := inserted + 1;
        }
      }
      assert rows[..|rows|] == rows;
    }

    static method BucketByCountry(targets: seq<Locality>) returns (targetsByCountry: map<string, seq<Locality>>)
      ensures forall c :: (if c in targetsByCountry then targetsByCountry[c] else []) == Bucket(targets, c)
    {
      targetsByCountry := map[];
      for i := 0 to |targets|
        invariant forall c :: (if c in targetsByCountry then targetsByCountry[c] else []) == Bucket(targets[..i], c)
      {
        var t := targets[i];
        var arr := if t.country in targetsByCountry then targetsByCountry[t.country] else [];
        ghost var before := targetsByCountry;
        targetsByCountry := targetsByCountry[t.country := arr + [t]];
        forall c ensures (if c in targetsByCountry then targetsByCountry[c] else []) == Bucket(targets[..i + 1], c) {
          assert (if c in before then before[c] else []) == Bucket(targets[..i], c);
          BucketGrows(targets, i, c);
        }
      }
      assert targets[..|targets|] == targets;
    }

    static method RankCandidates(src: Locality, candidates: seq<Candidate>) returns (rows: seq<NewEdge>)
      ensures |rows| == |candidates|
      ensures forall j | 0 <= j < |rows| :: rows[j] == NewEdge(Pair(src.id, candidates[j].id), Edge(j + 1, false))
    {
      rows := [];
      for j := 0 to |candidates|
        invariant |rows| == j
        invariant forall k | 0 <= k < j :: rows[k] == NewEdge(Pair(src.id, candidates[k].id), Edge(k + 1, false))
      {
        rows := rows + [NewEdge(Pair(src.id, candidates[j].id), Edge(j + 1, false))];
      }
    }

    static method PlanEdges(sources: seq<Locality>, targets: seq<Locality>, metres: Metric) returns (rows: seq<NewEdge>)
      ensures rows == PlannedEdges(sources, targets, metres)
    {
      var targetsByCountry := BucketByCountry(targets);
      rows := [];
      for i := 0 to |sources|
        invariant rows == PlannedEdges(sources[..i], targets, metres)
      {
        var src := sources[i];
        var countryTargets := if src.country in targetsByCountry then targetsByCountry[src.country] else [];
        assert countryTargets == Bucket(targets, src.country);
        BucketedPassIsFullScan(src, targets, metres);
        var ranked := RankCandidates(src, FromBucket(src, countryTargets, metres));
        assert ranked == EdgesOf(src, targets, metres);
        assert sources[..i + 1][..i] == sources[..i];
        rows := rows + ranked;
      }
      assert sources[..|sources|] == sources;
    }

    method SeedHeuristic(localities: seq<Locality>, metres: Metric)
      modifies this
      ensures edges == Heuristic(old(edges), localities, metres)
    {
      var rows := PlanEdges(Sources(localities), Targets(localities), metres);
      var i := 0;
      while i < |rows|
        invariant 0 <= i <= |rows|
        invariant edges == InsertNew(old(edges), rows[..i])
      {
        var end := if i + CREATEMANY_BATCH <= |rows| then i + CREATEMANY_BATCH else |rows|;
        NextBatch(old(edges), rows, i, end);
        var _ := CreateMany(rows[i..end]);
        i := end;
      }
      assert rows[..|rows|] == rows;
    }

    /** One override: a missing locality is skipped, an existing edge is promoted, a new one created. */
    method SeedOverride(localities: seq<Locality>, o: Override)
      modifies this
      ensures edges == PutAll(old(edges), RowsOf(localities, o))
    {
      var source := IdOf(localities, o.sourceSlug);
      if source.None? {
        return;
      }
      for i := 0 to |o.targetSlugs|
        invariant edges == PutAll(old(edges), TargetRows(localities, source.value, o.targetSlugs[..i]))
      {
        assert o.targetSlugs[..i + 1][..i] == o.targetSlugs[..i];
        var target := IdOf(localities, o.targetSlugs[i]);
        ghost var rows := TargetRows(localities, source.value, o.targetSlugs[..i]);
        assert rows + [] == rows;
        if target.Some? {
          PutOne(old(edges), rows, NewEdge(Pair(source.value, target.value), Edge(i + 1, true)));
          edges := edges[Pair(source.value, target.value) := Edge(i + 1, true)];
        }
      }
      assert o.targetSlugs[..|o.targetSlugs|] == o.targetSlugs;
    }

    method SeedCurated(localities: seq<Locality>, overrides: seq<Override>)
      modifies this
      ensures edges == Curated(old(edges), localities, overrides)
    {
      for i := 0 to |overrides|
        invariant edges == PutAll(old(edges), CuratedRows(localities, overrides[..i]))
      {
        assert overrides[..i + 1][..i] == overrides[..i];
        PutAllAppend(old(edges), CuratedRows(localities, overrides[..i]), RowsOf(localities, overrides[i]));
        SeedOverride(localities, overrides[i]);
      }
      assert overrides[..|overrides|] == overrides;
    }

    method SetLocalityCatchment(localities: seq<Locality>, sourceSlug: string, centreSlugs: seq<string>, dryRun: bool)
      returns (error: Option<SetError>)
      modifies this
      ensures (edges, error) == SetCatchment(old(edges), localities, sourceSlug, centreSlugs, dryRun)
    {
      var source := IdOf(localities, sourceSlug);
      if source.None? {
        return Some(SourceNotFound);
      }
      if dryRun {
        return None;
      }
      var targets := FilterMap(centreSlugs, Resolved(localities));
      edges := WithoutSource(edges, source.value);
      ghost var kept := edges;
      for i := 0 to |targets|
        invariant CreateRanked(kept, source.value, targets[..i]) == Creation(edges, false)
      {
        assert targets[..i + 1][..i] == targets[..i];
        var pair := Pair(source.value, targets[i]);
        if pair in edges {
          FailureStays(kept, source.value, targets, i + 1);
          return Some(DuplicateEdge);
        }
        edges := edges[pair := Edge(i + 1, true)];
      }
      assert targets[..|targets|] == targets;
      return None;
    }
  }

  lemma {:induction false} PutAllAppend(edges: Edges, a: seq<NewEdge>, b: seq<NewEdge>)
    ensures PutAll(edges, a + b) == PutAll(PutAll(edges, a), b)
  {
    if b == [] {
      assert a + b == a;
    } else {
      PutAllAppend(edges, a, b[..|b| - 1]);
      assert (a + b)[..|a + b| - 1] == a + b[..|b| - 1];
    }
  }

  lemma {:induction false} FailureStays(edges: Edges, source: int, targets: seq<int>, k: nat)
    requires k <= |targets| && CreateRanked(edges, source, targets[..k]).failed
    ensures CreateRanked(edges, source, targets) == CreateRanked(edges, source, targets[..k])
  {
    if k == |targets| {
      assert targets[..k] == targets;
    } else {
      var most := targets[..|targets| - 1];
      assert most[..k] == targets[..k];
      FailureStays(edges, source, most, k);
    }
  }
}
