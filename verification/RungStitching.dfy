/**
 * The stitch step that `rankMerchantsV2` and `rankBranchesV3` share: sorted rungs are pushed as
 * tiles up to the hard cap, and the tiles of each rung are counted.
 */
module RungStitching {
  import opened LadderProfiles
  import opened LadderWalk
  import opened Sequences

  /** How many of the tiles stand on `rung`. */
  function CountOn<U>(tiles: seq<U>, rungOf: U -> SupplyRung, rung: SupplyRung): nat {
    if tiles == [] then 0
    else CountOn(tiles[..|tiles| - 1], rungOf, rung) + (if rungOf(tiles[|tiles| - 1]) == rung then 1 else 0)
  }

  function NoneCounted(): (counts: map<SupplyRung, nat>)
    ensures forall rung :: rung in counts && counts[rung] == 0
  {
    var counts: map<SupplyRung, nat> := map[
      NEARBY := 0, CATCHMENT := 0, POST_TOWN := 0, LAD := 0, COUNTY := 0, REGION := 0, COUNTRY := 0, NATIONAL := 0];
    assert forall rung :: rung == RUNG_ORDER[RungOrdinal(rung)] && rung in counts;
    counts
  }

  /** The inner stitch loop: one sorted rung is pushed until the hard cap is reached. */
  method PushRung<T, U>(sorted: seq<T>, hardCap: int, render: T -> U, rungOf: U -> SupplyRung, before: seq<U>, counted: map<SupplyRung, nat>)
    returns (tiles: seq<U>, rungCounts: map<SupplyRung, nat>)
    requires forall rung :: rung in counted && counted[rung] == CountOn(before, rungOf, rung)
    ensures tiles == before + Map(Take(sorted, hardCap - |before|), render)
    ensures forall rung :: rung in rungCounts && rungCounts[rung] == CountOn(tiles, rungOf, rung)
  {
    tiles, rungCounts := before, counted;
    var i := 0;
    while i < |sorted| && |tiles| < hardCap
      invariant 0 <= i <= |sorted|
      invariant i > 0 ==> |before| + i <= hardCap
      invariant tiles == before + Map(sorted[..i], render)
      invariant forall rung :: rung in rungCounts && rungCounts[rung] == CountOn(tiles, rungOf, rung)
    {
      var tile := render(sorted[i]);
      assert (tiles + [tile])[..|tiles|] == tiles;
      tiles := tiles + [tile];
      rungCounts := rungCounts[rungOf(tile) := rungCounts[rungOf(tile)] + 1];
      i := i + 1;
    }
    assert Take(sorted, hardCap - |before|) == sorted[..i];
  }

  /** The tiles once the first `k` rungs are walked. */
  ghost function TilesAfter<T, U>(ladder: seq<seq<T>>, k: nat, hardCap: int, render: T -> U): seq<U>
    requires k <= |ladder|
  {
    Map(Take(JoinFirst(ladder, k), hardCap), render)
  }

  lemma TilesAfterOneMore<T, U>(ladder: seq<seq<T>>, k: nat, hardCap: int, render: T -> U)
    requires k < |ladder|
    ensures TilesAfter(ladder, k + 1, hardCap, render) ==
      TilesAfter(ladder, k, hardCap, render) + Map(Take(ladder[k], hardCap - |TilesAfter(ladder, k, hardCap, render)|), render)
  {
  }

  /** The walk has not stopped before rung `k`. */
  ghost predicate Walking<T>(ladder: seq<seq<T>>, k: nat, targetCount: int, hardCap: int)
    requires k <= |ladder|
  {
    k > 0 ==>
      && StopAfter(ladder, targetCount, hardCap) == StopFrom(ladder, Min(targetCount, hardCap), k)
      && |JoinFirst(ladder, k)| < Min(targetCount, hardCap)
  }

  /** One rung further: the loop's two length tests decide where the walk stops. */
  lemma WalkAdvances<T, U>(ladder: seq<seq<T>>, k: nat, targetCount: int, hardCap: int, render: T -> U)
    requires k < |ladder| && Walking(ladder, k, targetCount, hardCap)
    ensures TilesAfter(ladder, k + 1, hardCap, render) ==
      TilesAfter(ladder, k, hardCap, render) + Map(Take(ladder[k], hardCap - |TilesAfter(ladder, k, hardCap, render)|), render)
    ensures var length := |TilesAfter(ladder, k + 1, hardCap, render)|;
      if length >= targetCount || length >= hardCap then StopAfter(ladder, targetCount, hardCap) == k + 1
      else Walking(ladder, k + 1, targetCount, hardCap)
  {
    TilesAfterOneMore(ladder, k, hardCap, render);
    CappedTotalReachesLimit(JoinFirst(ladder, k + 1), targetCount, hardCap);
    StopMovesOn(ladder, Min(targetCount, hardCap), k);
  }

  lemma WalkEndsAtTheTop<T>(ladder: seq<seq<T>>, targetCount: int, hardCap: int)
    requires ladder != [] && Walking(ladder, |ladder|, targetCount, hardCap)
    ensures StopAfter(ladder, targetCount, hardCap) == |ladder|
  {
  }

  /** The sorted rungs from NEARBY to the profile's longest rung. */
  function SortedLadder<T>(sortWithinRung: SupplyRung -> seq<T>, maxOrdinal: nat): (ladder: seq<seq<T>>)
    requires maxOrdinal < |RUNG_ORDER|
    ensures |ladder| == maxOrdinal + 1
    ensures forall i | 0 <= i <= maxOrdinal :: ladder[i] == sortWithinRung(RUNG_ORDER[i])
  {
    seq(maxOrdinal + 1, i requires 0 <= i <= maxOrdinal => sortWithinRung(RUNG_ORDER[i]))
  }

  /** The outer stitch loop: rungs are sorted and pushed until a length test or the longest rung stops it. */
  method WalkRungs<T, U>(sortWithinRung: SupplyRung -> seq<T>, maxOrdinal: nat, targetCount: int, hardCap: int,
                         render: T -> U, rungOf: U -> SupplyRung)
    returns (tiles: seq<U>, rungCounts: map<SupplyRung, nat>)
    requires maxOrdinal < |RUNG_ORDER|
    ensures tiles == Map(Walk(SortedLadder(sortWithinRung, maxOrdinal), targetCount, hardCap), render)
    ensures forall rung :: rung in rungCounts && rungCounts[rung] == CountOn(tiles, rungOf, rung)
  {
    ghost var ladder := SortedLadder(sortWithinRung, maxOrdinal);
    tiles, rungCounts := [], NoneCounted();
    var k := 0;
    while k < |RUNG_ORDER| && RungOrdinal(RUNG_ORDER[k]) <= maxOrdinal
      invariant 0 <= k <= |ladder|
      invariant tiles == TilesAfter(ladder, k, hardCap, render)
      invariant Walking(ladder, k, targetCount, hardCap)
      invariant forall rung :: rung in rungCounts && rungCounts[rung] == CountOn(tiles, rungOf, rung)
      decreases |RUNG_ORDER| - k
    {
      OrdinalIsPosition(k);
      var sorted := sortWithinRung(RUNG_ORDER[k]);
      WalkAdvances(ladder, k, targetCount, hardCap, render);
      tiles, rungCounts := PushRung(sorted, hardCap, render, rungOf, tiles, rungCounts);
      k := k + 1;
      if |tiles| >= targetCount || |tiles| >= hardCap {
        return;
      }
    }
    if k < |RUNG_ORDER| {
      OrdinalIsPosition(k);
    }
    WalkEndsAtTheTop(ladder, targetCount, hardCap);
  }

  function CountOnUpTo<U>(tiles: seq<U>, rungOf: U -> SupplyRung, k: nat): nat
    requires k <= |RUNG_ORDER|
    decreases k, tiles
  {
    if k == 0 then 0 else CountOnUpTo(tiles, rungOf, k - 1) + CountOn(tiles, rungOf, RUNG_ORDER[k - 1])
  }

  lemma {:induction false} NothingCounted<U>(rungOf: U -> SupplyRung, k: nat)
    requires k <= |RUNG_ORDER|
    ensures CountOnUpTo([], rungOf, k) == 0
  {
    if k > 0 {
      NothingCounted(rungOf, k - 1);
    }
  }

  lemma {:induction false} LastTileCountsOnce<U>(tiles: seq<U>, rungOf: U -> SupplyRung, k: nat)
    requires tiles != [] && k <= |RUNG_ORDER|
    ensures CountOnUpTo(tiles, rungOf, k) ==
      CountOnUpTo(tiles[..|tiles| - 1], rungOf, k) + (if RungOrdinal(rungOf(tiles[|tiles| - 1])) < k then 1 else 0)
  {
    if k > 0 {
      OrdinalIsPosition(k - 1);
      LastTileCountsOnce(tiles, rungOf, k - 1);
    }
  }

  /** The rung counts add up to the number of tiles. */
  lemma {:induction false} RungCountsAddUp<U>(tiles: seq<U>, rungOf: U -> SupplyRung)
    ensures CountOnUpTo(tiles, rungOf, |RUNG_ORDER|) == |tiles|
  {
    if tiles == [] {
      NothingCounted(rungOf, |RUNG_ORDER|);
    } else {
      RungCountsAddUp(tiles[..|tiles| - 1], rungOf);
      LastTileCountsOnce(tiles, rungOf, |RUNG_ORDER|);
    }
  }
}
