/**
 * The collect-first ladder walk that both rankers of src/api/lib/ranking.ts share: sorted
 * rungs are joined one after the other until a limit is reached, and the list is capped.
 */
module LadderWalk {
  import opened Sequences

  function Min(a: int, b: int): int {
    if a <= b then a else b
  }

  /** The first `n` elements, or all of them; none for a negative `n`. */
  function Take<T>(s: seq<T>, n: int): seq<T> {
    if n <= 0 then [] else if n >= |s| then s else s[..n]
  }

  function JoinFirst<T>(rungs: seq<seq<T>>, k: nat): seq<T>
    requires k <= |rungs|
  {
    if k == 0 then [] else JoinFirst(rungs, k - 1) + rungs[k - 1]
  }

  /** How many rungs are walked when the first `k` already are. */
  function StopFrom<T>(rungs: seq<seq<T>>, limit: int, k: nat): (stop: nat)
    requires k <= |rungs|
    ensures k <= stop <= |rungs|
    decreases |rungs| - k
  {
    if k == |rungs| || |JoinFirst(rungs, k)| >= limit then k else StopFrom(rungs, limit, k + 1)
  }

  /** The first rung is always walked; the walk stops once both bounds' minimum is reached. */
  function StopAfter<T>(rungs: seq<seq<T>>, targetCount: int, hardCap: int): (stop: nat)
    requires |rungs| > 0
    ensures 1 <= stop <= |rungs|
  {
    StopFrom(rungs, Min(targetCount, hardCap), 1)
  }

  function Walk<T>(rungs: seq<seq<T>>, targetCount: int, hardCap: int): seq<T>
    requires |rungs| > 0
  {
    Take(JoinFirst(rungs, StopAfter(rungs, targetCount, hardCap)), hardCap)
  }

  lemma {:induction false} JoinGrows<T>(rungs: seq<seq<T>>, k: nat, m: nat)
    requires k <= m <= |rungs|
    ensures JoinFirst(rungs, k) <= JoinFirst(rungs, m)
  {
    if k < m {
      JoinGrows(rungs, k, m - 1);
    }
  }

  /** The walk stops at the first rung, from the first on, whose running total reaches the limit. */
  lemma {:induction false} StopsAtTheFirstReached<T>(rungs: seq<seq<T>>, limit: int, k: nat, j: nat)
    requires k <= |rungs|
    ensures StopFrom(rungs, limit, k) < |rungs| ==> |JoinFirst(rungs, StopFrom(rungs, limit, k))| >= limit
    ensures k <= j < StopFrom(rungs, limit, k) ==> |JoinFirst(rungs, j)| < limit
    decreases |rungs| - k
  {
    if k < |rungs| && |JoinFirst(rungs, k)| < limit {
      StopsAtTheFirstReached(rungs, limit, k + 1, j);
    }
  }

  lemma {:induction false} StopGrows<T>(rungs: seq<seq<T>>, limit: int, limit': int, k: nat)
    requires k <= |rungs| && limit <= limit'
    ensures StopFrom(rungs, limit, k) <= StopFrom(rungs, limit', k)
    decreases |rungs| - k
  {
    if k < |rungs| && |JoinFirst(rungs, k)| < limit {
      StopGrows(rungs, limit, limit', k + 1);
    }
  }

  lemma StopMovesOn<T>(rungs: seq<seq<T>>, limit: int, k: nat)
    requires k < |rungs|
    ensures |JoinFirst(rungs, k)| < limit ==> StopFrom(rungs, limit, k) == StopFrom(rungs, limit, k + 1)
    ensures |JoinFirst(rungs, k + 1)| >= limit ==> StopFrom(rungs, limit, k + 1) == k + 1
  {
  }

  /** Stopping on the capped total is stopping on the running total at the smaller bound. */
  lemma CappedTotalReachesLimit<T>(joined: seq<T>, targetCount: int, hardCap: int)
    ensures |Take(joined, hardCap)| >= targetCount || |Take(joined, hardCap)| >= hardCap
      <==> |joined| >= Min(targetCount, hardCap)
  {
  }

  lemma TakeGrows<T>(s: seq<T>, t: seq<T>, n: int, m: int)
    requires s <= t && n <= m
    ensures Take(s, n) <= Take(t, m)
  {
  }

  /** Raising either bound only extends the list: the shorter one is a prefix of the longer. */
  lemma RaisingBoundsExtends<T>(rungs: seq<seq<T>>, target: int, cap: int, target': int, cap': int)
    requires |rungs| > 0 && target <= target' && cap <= cap'
    ensures Walk(rungs, target, cap) <= Walk(rungs, target', cap')
  {
    StopGrows(rungs, Min(target, cap), Min(target', cap'), 1);
    JoinGrows(rungs, StopAfter(rungs, target, cap), StopAfter(rungs, target', cap'));
    TakeGrows(JoinFirst(rungs, StopAfter(rungs, target, cap)), JoinFirst(rungs, StopAfter(rungs, target', cap')), cap, cap');
  }

  /** Only the hard cap truncates the first rung; the target count never does. */
  lemma TargetNeverTruncatesTheFirstRung<T>(rungs: seq<seq<T>>, target: int, cap: int)
    requires |rungs| > 0
    ensures Take(rungs[0], cap) <= Walk(rungs, target, cap)
  {
    assert JoinFirst(rungs, 1) == rungs[0];
    JoinGrows(rungs, 1, StopAfter(rungs, target, cap));
    TakeGrows(rungs[0], JoinFirst(rungs, StopAfter(rungs, target, cap)), cap, cap);
  }

  /** With both bounds at least the total, the walk is the whole join. */
  lemma UncappedWalkIsEverything<T>(rungs: seq<seq<T>>, target: int, cap: int)
    requires |rungs| > 0
    requires |JoinFirst(rungs, |rungs|)| <= target && |JoinFirst(rungs, |rungs|)| <= cap
    ensures Walk(rungs, target, cap) == JoinFirst(rungs, |rungs|)
  {
    var stop := StopAfter(rungs, target, cap);
    JoinGrows(rungs, stop, |rungs|);
    StopsAtTheFirstReached(rungs, Min(target, cap), 1, 1);
  }

  /** A walk shorter than both bounds has joined every rung and cut nothing. */
  lemma ShortWalkIsEverything<T>(rungs: seq<seq<T>>, target: int, cap: int)
    requires |rungs| > 0 && |Walk(rungs, target, cap)| < Min(target, cap)
    ensures Walk(rungs, target, cap) == JoinFirst(rungs, |rungs|)
  {
    StopsAtTheFirstReached(rungs, Min(target, cap), 1, 1);
  }

  /** Every element of a rung comes before every element of a later one. */
  ghost predicate RungsOrdered<T>(rungs: seq<seq<T>>, k: nat, before: (T, T) -> bool)
    requires k <= |rungs|
  {
    forall i, j, a, b | 0 <= i < j < k && a in rungs[i] && b in rungs[j] :: before(a, b)
  }

  lemma {:induction false} JoinContents<T>(rungs: seq<seq<T>>, k: nat, x: T)
    requires k <= |rungs|
    ensures x in JoinFirst(rungs, k) <==> exists i | 0 <= i < k :: x in rungs[i]
  {
    if k > 0 {
      JoinContents(rungs, k - 1, x);
    }
  }

  lemma OrderedAppend<T>(s: seq<T>, t: seq<T>, before: (T, T) -> bool)
    requires forall a, b | a in s && b in t :: before(a, b)
    ensures Ordered(s + t, before) <==> Ordered(s, before) && Ordered(t, before)
  {
    var r := s + t;
    assert forall i | 0 <= i < |s| :: r[i] == s[i];
    assert forall i | 0 <= i < |t| :: r[|s| + i] == t[i];
    if Ordered(s, before) && Ordered(t, before) {
      forall i, j | 0 <= i < j < |r| ensures before(r[i], r[j]) {
        if i >= |s| {
          assert r[i] == t[i - |s|] && r[j] == t[j - |s|];
        } else if j >= |s| {
          assert r[i] in s && r[j] == t[j - |s|];
        }
      }
    }
  }

  /** When rungs follow one another, their join is ordered exactly when each of them is. */
  lemma {:induction false} JoinOrdered<T>(rungs: seq<seq<T>>, k: nat, before: (T, T) -> bool)
    requires k <= |rungs| && RungsOrdered(rungs, k, before)
    ensures Ordered(JoinFirst(rungs, k), before) <==> forall i | 0 <= i < k :: Ordered(rungs[i], before)
  {
    if k > 0 {
      JoinOrdered(rungs, k - 1, before);
      forall a, b | a in JoinFirst(rungs, k - 1) && b in rungs[k - 1] ensures before(a, b) {
        JoinContents(rungs, k - 1, a);
      }
      OrderedAppend(JoinFirst(rungs, k - 1), rungs[k - 1], before);
    }
  }

  /** Rungs that partition a sequence by rank join to as many elements as have a rank. */
  lemma {:induction false} JoinSize<S, T>(rungs: seq<seq<T>>, k: nat, s: seq<S>, rank: S -> int)
    requires k <= |rungs|
    requires forall i | 0 <= i < |rungs| :: |rungs[i]| + CountBelow(s, rank, i) == CountBelow(s, rank, i + 1)
    ensures |JoinFirst(rungs, k)| == CountBelow(s, rank, k)
  {
    if k == 0 {
      NoneBelowZero(s, rank);
    } else {
      JoinSize(rungs, k - 1, s, rank);
    }
  }
}
