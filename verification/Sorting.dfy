/**
 * `Array.prototype.sort` with a comparator: the stable sort that ECMAScript prescribes for a
 * consistent comparator. Only the sign of a comparator's result matters.
 */
module Sorting {
  import opened Sequences

  function Insert<T>(x: T, s: seq<T>, cmp: (T, T) -> int): (r: seq<T>)
    ensures |r| == |s| + 1
    ensures forall y | y in r :: y == x || y in s
  {
    if s == [] then [x]
    else if cmp(x, s[0]) <= 0 then [x] + s
    else [s[0]] + Insert(x, s[1..], cmp)
  }

  function Sort<T>(s: seq<T>, cmp: (T, T) -> int): (r: seq<T>)
    ensures |r| == |s|
  {
    if s == [] then [] else Insert(s[0], Sort(s[1..], cmp), cmp)
  }

  /** A comparator that ranks every pair, and ranks them consistently. */
  ghost predicate Consistent<T(!new)>(cmp: (T, T) -> int) {
    && (forall a, b :: cmp(a, b) <= 0 || cmp(b, a) <= 0)
    && (forall a, b, c :: cmp(a, b) <= 0 && cmp(b, c) <= 0 ==> cmp(a, c) <= 0)
  }

  ghost predicate Sorted<T>(s: seq<T>, cmp: (T, T) -> int) {
    forall i, j | 0 <= i < j < |s| :: cmp(s[i], s[j]) <= 0
  }

  /** No two different elements of `s` tie. */
  ghost predicate NoTies<T>(s: seq<T>, cmp: (T, T) -> int) {
    forall a, b | a in s && b in s && cmp(a, b) <= 0 && cmp(b, a) <= 0 :: a == b
  }

  lemma {:induction false} InsertPermutes<T>(x: T, s: seq<T>, cmp: (T, T) -> int)
    ensures multiset(Insert(x, s, cmp)) == multiset(s) + multiset{x}
  {
    if s != [] {
      assert s == [s[0]] + s[1..];
      if cmp(x, s[0]) > 0 {
        InsertPermutes(x, s[1..], cmp);
      }
    }
  }

  lemma {:induction false} SortPermutes<T>(s: seq<T>, cmp: (T, T) -> int)
    ensures multiset(Sort(s, cmp)) == multiset(s)
  {
    if s != [] {
      assert s == [s[0]] + s[1..];
      SortPermutes(s[1..], cmp);
      InsertPermutes(s[0], Sort(s[1..], cmp), cmp);
    }
  }

  /** A least element in front of a sorted sequence. */
  lemma PrependSorts<T>(x: T, s: seq<T>, cmp: (T, T) -> int)
    requires Sorted(s, cmp) && forall y | y in s :: cmp(x, y) <= 0
    ensures Sorted([x] + s, cmp)
  {
  }

  lemma HeadIsLeast<T(!new)>(x: T, s: seq<T>, cmp: (T, T) -> int)
    requires Consistent(cmp) && Sorted(s, cmp) && s != [] && cmp(x, s[0]) <= 0
    ensures forall y | y in s :: cmp(x, y) <= 0
  {
  }

  lemma {:induction false} InsertSorts<T(!new)>(x: T, s: seq<T>, cmp: (T, T) -> int)
    requires Consistent(cmp) && Sorted(s, cmp)
    ensures Sorted(Insert(x, s, cmp), cmp)
  {
    if s != [] {
      if cmp(x, s[0]) <= 0 {
        HeadIsLeast(x, s, cmp);
        PrependSorts(x, s, cmp);
      } else {
        var tail := s[1..];
        assert forall i | 0 <= i < |tail| :: tail[i] == s[i + 1] && cmp(s[0], s[i + 1]) <= 0;
        InsertSorts(x, tail, cmp);
        PrependSorts(s[0], Insert(x, tail, cmp), cmp);
      }
    }
  }

  lemma {:induction false} SortSorts<T(!new)>(s: seq<T>, cmp: (T, T) -> int)
    requires Consistent(cmp)
    ensures Sorted(Sort(s, cmp), cmp)
  {
    if s != [] {
      SortSorts(s[1..], cmp);
      InsertSorts(s[0], Sort(s[1..], cmp), cmp);
    }
  }

  lemma HeadsAgree<T>(s: seq<T>, t: seq<T>, cmp: (T, T) -> int)
    requires multiset(s) == multiset(t) && s != []
    requires Sorted(s, cmp) && Sorted(t, cmp) && NoTies(s, cmp)
    requires cmp(s[0], s[0]) <= 0
    ensures t != [] && s[0] == t[0]
  {
    SameElements(s, t);
    assert s[0] in t && t[0] in s;
    var i :| 0 <= i < |t| && t[i] == s[0];
    var j :| 0 <= j < |s| && s[j] == t[0];
    assert cmp(t[0], t[i]) <= 0 || i == 0;
    assert cmp(s[0], s[j]) <= 0 || j == 0;
  }

  lemma TailKeeps<T>(s: seq<T>, cmp: (T, T) -> int)
    requires Sorted(s, cmp) && s != []
    ensures Sorted(s[1..], cmp) && (NoTies(s, cmp) ==> NoTies(s[1..], cmp))
    ensures multiset(s[1..]) == multiset(s) - multiset{s[0]}
  {
    var tail := s[1..];
    assert forall i | 0 <= i < |tail| :: tail[i] == s[i + 1];
    assert forall a | a in tail :: a in s;
    assert s == [s[0]] + tail;
  }

  /** Sorted sequences with the same elements and no ties are equal. */
  lemma {:induction false} SortedIsUnique<T(!new)>(s: seq<T>, t: seq<T>, cmp: (T, T) -> int)
    requires multiset(s) == multiset(t) && forall a :: cmp(a, a) <= 0
    requires Sorted(s, cmp) && Sorted(t, cmp) && NoTies(s, cmp)
    ensures s == t
  {
    SameElements(s, t);
    if s != [] {
      HeadsAgree(s, t, cmp);
      TailKeeps(s, cmp);
      TailKeeps(t, cmp);
      SortedIsUnique(s[1..], t[1..], cmp);
    }
  }

  /** The order of the input does not matter when nothing ties. */
  lemma SortIgnoresInputOrder<T(!new)>(s: seq<T>, t: seq<T>, cmp: (T, T) -> int)
    requires Consistent(cmp) && multiset(s) == multiset(t) && NoTies(s, cmp)
    ensures Sort(s, cmp) == Sort(t, cmp)
  {
    SortSorts(s, cmp);
    SortSorts(t, cmp);
    SortPermutes(s, cmp);
    SortPermutes(t, cmp);
    SameElements(s, Sort(s, cmp));
    SortedIsUnique(Sort(s, cmp), Sort(t, cmp), cmp);
  }

  /** The elements of `s` that tie with `x`, in order. */
  function Ties<T>(s: seq<T>, x: T, cmp: (T, T) -> int): seq<T> {
    if s == [] then [] else (if cmp(x, s[0]) <= 0 && cmp(s[0], x) <= 0 then [s[0]] else []) + Ties(s[1..], x, cmp)
  }

  function OwnTie<T>(y: T, x: T, cmp: (T, T) -> int): seq<T> {
    if cmp(x, y) <= 0 && cmp(y, x) <= 0 then [y] else []
  }

  lemma TiesPrepend<T>(y: T, s: seq<T>, x: T, cmp: (T, T) -> int)
    ensures Ties([y] + s, x, cmp) == OwnTie(y, x, cmp) + Ties(s, x, cmp)
  {
    assert ([y] + s)[1..] == s;
  }

  lemma {:induction false} InsertKeepsTies<T(!new)>(y: T, s: seq<T>, x: T, cmp: (T, T) -> int)
    requires Consistent(cmp)
    ensures Ties(Insert(y, s, cmp), x, cmp) == Ties([y] + s, x, cmp)
  {
    if s != [] && cmp(y, s[0]) > 0 {
      InsertKeepsTies(y, s[1..], x, cmp);
      TiesPrepend(s[0], Insert(y, s[1..], cmp), x, cmp);
      TiesPrepend(y, s[1..], x, cmp);
      TiesPrepend(y, s, x, cmp);
      assert OwnTie(y, x, cmp) == [] || OwnTie(s[0], x, cmp) == [];
    }
  }

  /** Stability: elements that tie keep their order. */
  lemma {:induction false} SortIsStable<T(!new)>(s: seq<T>, x: T, cmp: (T, T) -> int)
    requires Consistent(cmp)
    ensures Ties(Sort(s, cmp), x, cmp) == Ties(s, x, cmp)
  {
    if s != [] {
      SortIsStable(s[1..], x, cmp);
      InsertKeepsTies(s[0], Sort(s[1..], cmp), x, cmp);
      assert ([s[0]] + Sort(s[1..], cmp))[1..] == Sort(s[1..], cmp);
    }
  }

  lemma {:induction false} TiesContents<T>(s: seq<T>, x: T, cmp: (T, T) -> int, y: T)
    ensures y in Ties(s, x, cmp) <==> y in s && cmp(x, y) <= 0 && cmp(y, x) <= 0
  {
    if s != [] {
      TiesContents(s[1..], x, cmp, y);
      assert s == [s[0]] + s[1..];
    }
  }

  /** A part of a sorted sequence is sorted. */
  lemma {:induction false} TiesStaySorted<T>(s: seq<T>, x: T, cmp: (T, T) -> int, fine: (T, T) -> int)
    requires Sorted(s, fine)
    ensures Sorted(Ties(s, x, cmp), fine)
  {
    if s != [] {
      TailKeeps(s, fine);
      TiesStaySorted(s[1..], x, cmp, fine);
      forall y | y in Ties(s[1..], x, cmp) ensures fine(s[0], y) <= 0 {
        TiesContents(s[1..], x, cmp, y);
        var i :| 0 <= i < |s[1..]| && s[1..][i] == y;
        assert s[i + 1] == y;
      }
      PrependSorts(s[0], Ties(s[1..], x, cmp), fine);
    }
  }

  lemma DropOneTie<T>(s: seq<T>, x: T, cmp: (T, T) -> int, fine: (T, T) -> int)
    requires s != [] && Sorted(Ties(s, x, cmp), fine)
    ensures Sorted(Ties(s[1..], x, cmp), fine)
  {
    var tail := Ties(s[1..], x, cmp);
    if Ties(s, x, cmp) != tail {
      assert Ties(s, x, cmp) == [s[0]] + tail;
      TailKeeps(Ties(s, x, cmp), fine);
    }
  }

  lemma {:induction false} SortedTiesOrderPairs<T>(s: seq<T>, x: T, cmp: (T, T) -> int, fine: (T, T) -> int, i: nat, j: nat)
    requires Sorted(Ties(s, x, cmp), fine) && i < j < |s|
    requires cmp(x, s[i]) <= 0 && cmp(s[i], x) <= 0 && cmp(x, s[j]) <= 0 && cmp(s[j], x) <= 0
    ensures fine(s[i], s[j]) <= 0
  {
    if i == 0 {
      var tail := Ties(s[1..], x, cmp);
      assert s[1..][j - 1] == s[j];
      TiesContents(s[1..], x, cmp, s[j]);
      var k :| 0 <= k < |tail| && tail[k] == s[j];
      var all := Ties(s, x, cmp);
      assert all == [s[0]] + tail;
      assert fine(all[0], all[k + 1]) <= 0;
    } else {
      DropOneTie(s, x, cmp, fine);
      SortedTiesOrderPairs(s[1..], x, cmp, fine, i - 1, j - 1);
    }
  }

  /** Elements that tie are listed in the finer order. */
  ghost predicate TiesInOrder<T>(s: seq<T>, cmp: (T, T) -> int, fine: (T, T) -> int) {
    forall i, j | 0 <= i < j < |s| && cmp(s[i], s[j]) <= 0 && cmp(s[j], s[i]) <= 0 :: fine(s[i], s[j]) <= 0
  }

  lemma {:induction false} TiesOfOrdered<T(!new)>(s: seq<T>, x: T, cmp: (T, T) -> int, fine: (T, T) -> int)
    requires Consistent(cmp) && TiesInOrder(s, cmp, fine)
    ensures Sorted(Ties(s, x, cmp), fine)
  {
    if s != [] {
      var rest := s[1..];
      assert forall i | 0 <= i < |rest| :: rest[i] == s[i + 1];
      TiesOfOrdered(rest, x, cmp, fine);
      if cmp(x, s[0]) <= 0 && cmp(s[0], x) <= 0 {
        forall y | y in Ties(rest, x, cmp) ensures fine(s[0], y) <= 0 {
          TiesContents(rest, x, cmp, y);
          var i :| 0 <= i < |rest| && rest[i] == y;
          assert cmp(s[0], s[i + 1]) <= 0 && cmp(s[i + 1], s[0]) <= 0;
        }
        PrependSorts(s[0], Ties(rest, x, cmp), fine);
      }
    }
  }

  lemma OrderedFromTies<T(!new)>(s: seq<T>, cmp: (T, T) -> int, fine: (T, T) -> int)
    requires Consistent(cmp) && forall x | x in s :: Sorted(Ties(s, x, cmp), fine)
    ensures TiesInOrder(s, cmp, fine)
  {
    forall i, j | 0 <= i < j < |s| && cmp(s[i], s[j]) <= 0 && cmp(s[j], s[i]) <= 0 ensures fine(s[i], s[j]) <= 0 {
      assert cmp(s[i], s[i]) <= 0;
      SortedTiesOrderPairs(s, s[i], cmp, fine, i, j);
    }
  }

  /**
   * A stable sort by a coarse comparator meets a finer order exactly when the input already
   * lists the elements that tie in the finer order.
   */
  lemma StableSortMeetsFinerOrder<T(!new)>(s: seq<T>, cmp: (T, T) -> int, fine: (T, T) -> int)
    requires Consistent(cmp)
    requires forall a, b | a in s && b in s && cmp(a, b) <= 0 && cmp(b, a) > 0 :: fine(a, b) <= 0
    ensures Sorted(Sort(s, cmp), fine) <==> TiesInOrder(s, cmp, fine)
  {
    var r := Sort(s, cmp);
    SortSorts(s, cmp);
    SortPermutes(s, cmp);
    SameElements(s, r);
    forall x { SortIsStable(s, x, cmp); }
    if Sorted(r, fine) {
      forall x | x in s ensures Sorted(Ties(s, x, cmp), fine) {
        TiesStaySorted(r, x, cmp, fine);
      }
      OrderedFromTies(s, cmp, fine);
    }
    if TiesInOrder(s, cmp, fine) {
      forall x | x in r ensures Sorted(Ties(r, x, cmp), fine) {
        TiesOfOrdered(s, x, cmp, fine);
      }
      OrderedFromTies(r, cmp, fine);
      forall i, j | 0 <= i < j < |r| ensures fine(r[i], r[j]) <= 0 {
        assert r[i] in s && r[j] in s;
      }
    }
  }

  ghost predicate StrictlySorted<T>(s: seq<T>, cmp: (T, T) -> int) {
    forall i, j | 0 <= i < j < |s| :: cmp(s[i], s[j]) < 0
  }

  lemma StrictTail<T>(s: seq<T>, cmp: (T, T) -> int)
    requires StrictlySorted(s, cmp) && s != [] && cmp(s[0], s[0]) >= 0
    ensures StrictlySorted(s[1..], cmp)
    ensures forall x :: x in s[1..] <==> x in s && x != s[0]
  {
  }

  lemma HeadsOfStrict<T(!new)>(s: seq<T>, t: seq<T>, cmp: (T, T) -> int)
    requires StrictlySorted(s, cmp) && StrictlySorted(t, cmp)
    requires forall x :: x in s <==> x in t
    requires forall a, b | cmp(a, b) < 0 :: cmp(b, a) > 0
    requires s != [] || t != []
    ensures s != [] && t != [] && s[0] == t[0]
  {
    var x := if s != [] then s[0] else t[0];
    assert x in s && x in t;
    assert s[0] in t && t[0] in s;
    var i :| 0 <= i < |t| && t[i] == s[0];
    var j :| 0 <= j < |s| && s[j] == t[0];
  }

  /** A strictly sorted sequence is determined by its elements. */
  lemma {:induction false} StrictlySortedIsUnique<T(!new)>(s: seq<T>, t: seq<T>, cmp: (T, T) -> int)
    requires StrictlySorted(s, cmp) && StrictlySorted(t, cmp)
    requires forall x :: x in s <==> x in t
    requires forall a, b | cmp(a, b) < 0 :: cmp(b, a) > 0
    ensures s == t
  {
    if s != [] || t != [] {
      HeadsOfStrict(s, t, cmp);
      StrictTail(s, cmp);
      StrictTail(t, cmp);
      StrictlySortedIsUnique(s[1..], t[1..], cmp);
    }
  }

  ghost predicate Distinct<T>(s: seq<T>) {
    forall i, j | 0 <= i < j < |s| :: s[i] != s[j]
  }

  lemma DistinctPrepend<T>(x: T, s: seq<T>)
    ensures Distinct([x] + s) <==> Distinct(s) && x !in s
  {
    OrderedPrepend(x, s, (a, b) => a != b);
  }

  lemma {:induction false} InsertKeepsDistinct<T>(x: T, s: seq<T>, cmp: (T, T) -> int)
    requires Distinct(s) && x !in s
    ensures Distinct(Insert(x, s, cmp))
  {
    DistinctPrepend(x, s);
    if s != [] && cmp(x, s[0]) > 0 {
      assert s == [s[0]] + s[1..];
      DistinctPrepend(s[0], s[1..]);
      InsertKeepsDistinct(x, s[1..], cmp);
      DistinctPrepend(s[0], Insert(x, s[1..], cmp));
    }
  }

  lemma {:induction false} SortKeepsDistinct<T>(s: seq<T>, cmp: (T, T) -> int)
    requires Distinct(s)
    ensures Distinct(Sort(s, cmp))
  {
    if s != [] {
      assert s == [s[0]] + s[1..];
      DistinctPrepend(s[0], s[1..]);
      SortKeepsDistinct(s[1..], cmp);
      SortPermutes(s[1..], cmp);
      SameElements(s[1..], Sort(s[1..], cmp));
      InsertKeepsDistinct(s[0], Sort(s[1..], cmp), cmp);
    }
  }

  lemma {:induction false} FirstWithKeyStaysSorted<T>(s: seq<T>, key: T -> int, cmp: (T, T) -> int)
    requires Sorted(s, cmp)
    ensures Sorted(FirstWithKey(s, key), cmp)
    ensures forall x | x in FirstWithKey(s, key) :: x in s
    ensures forall i, j | 0 <= i < j < |FirstWithKey(s, key)| :: key(FirstWithKey(s, key)[i]) != key(FirstWithKey(s, key)[j])
  {
    if s != [] {
      var most, last := s[..|s| - 1], s[|s| - 1];
      assert s == most + [last];
      FirstWithKeyStaysSorted(most, key, cmp);
      assert forall x | x in most :: cmp(x, last) <= 0;
      var r := FirstWithKey(most, key);
      assert forall i | 0 <= i < |r| :: r[i] in most;
    }
  }

  lemma LastIsGreatest<T>(most: seq<T>, last: T, cmp: (T, T) -> int)
    requires Sorted(most + [last], cmp)
    ensures forall x | x in most :: cmp(x, last) <= 0
  {
    var s := most + [last];
    forall x | x in most ensures cmp(x, last) <= 0 {
      var i :| 0 <= i < |most| && most[i] == x;
      assert s[i] == x && s[|most|] == last;
    }
  }

  lemma {:induction false} FirstIsLeast<T>(s: seq<T>, key: T -> int, cmp: (T, T) -> int, y: T)
    requires Sorted(s, cmp) && (forall x | x in s :: cmp(x, x) <= 0) && y in FirstWithKey(s, key)
    ensures y in s && forall x | x in s && key(x) == key(y) :: cmp(y, x) <= 0
  {
    var most, last := s[..|s| - 1], s[|s| - 1];
    assert s == most + [last];
    if y in FirstWithKey(most, key) {
      FirstIsLeast(most, key, cmp, y);
      LastIsGreatest(most, last, cmp);
    }
  }

  lemma {:induction false} LeastIsFirst<T>(s: seq<T>, key: T -> int, cmp: (T, T) -> int, y: T)
    requires Sorted(s, cmp) && NoTies(s, cmp) && y in s && forall x | x in s && key(x) == key(y) :: cmp(y, x) <= 0
    ensures y in FirstWithKey(s, key)
  {
    var most, last := s[..|s| - 1], s[|s| - 1];
    assert s == most + [last];
    if y in most {
      LeastIsFirst(most, key, cmp, y);
    } else {
      LastIsGreatest(most, last, cmp);
    }
  }

  /** In a sorted sequence the first element with a key is the least one with that key. */
  lemma FirstWithKeyIsLeast<T>(s: seq<T>, key: T -> int, cmp: (T, T) -> int, y: T)
    requires Sorted(s, cmp) && NoTies(s, cmp) && forall x | x in s :: cmp(x, x) <= 0
    ensures y in FirstWithKey(s, key) <==> y in s && forall x | x in s && key(x) == key(y) :: cmp(y, x) <= 0
  {
    if y in FirstWithKey(s, key) {
      FirstIsLeast(s, key, cmp, y);
    } else if y in s && forall x | x in s && key(x) == key(y) :: cmp(y, x) <= 0 {
      LeastIsFirst(s, key, cmp, y);
    }
  }

  /** A strictly sorted sequence is sorted; the other way round nothing may repeat or tie. */
  lemma StrictlySortedWithoutTies<T>(s: seq<T>, cmp: (T, T) -> int)
    requires Distinct(s) && NoTies(s, cmp)
    requires forall a, b | a in s && b in s && cmp(a, b) == 0 :: cmp(b, a) <= 0
    ensures StrictlySorted(s, cmp) <==> Sorted(s, cmp)
  {
  }

  lemma {:induction false} InsertAgrees<T(!new)>(x: T, s: seq<T>, cmp: (T, T) -> int, cmp': (T, T) -> int)
    requires forall a, b :: cmp(a, b) == cmp'(a, b)
    ensures Insert(x, s, cmp) == Insert(x, s, cmp')
  {
    if s != [] {
      InsertAgrees(x, s[1..], cmp, cmp');
    }
  }

  /** Only the values of a comparator matter. */
  lemma {:induction false} SortAgrees<T(!new)>(s: seq<T>, cmp: (T, T) -> int, cmp': (T, T) -> int)
    requires forall a, b :: cmp(a, b) == cmp'(a, b)
    ensures Sort(s, cmp) == Sort(s, cmp')
  {
    if s != [] {
      SortAgrees(s[1..], cmp, cmp');
      InsertAgrees(s[0], Sort(s[1..], cmp), cmp, cmp');
    }
  }
}
