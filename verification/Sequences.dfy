/** Filtering and mapping of sequences: `Array.prototype.map` / `filter` and `Map` buckets. */
module Sequences {
  import opened Base

  function Map<S, T>(s: seq<S>, f: S -> T): (r: seq<T>)
    ensures |r| == |s| && forall i | 0 <= i < |s| :: r[i] == f(s[i])
  {
    seq(|s|, i requires 0 <= i < |s| => f(s[i]))
  }

  lemma MapAppend<S, T>(s: seq<S>, t: seq<S>, f: S -> T)
    ensures Map(s + t, f) == Map(s, f) + Map(t, f)
  {
  }

  function FilterMap<S, T>(s: seq<S>, f: S -> Option<T>): seq<T> {
    if s == [] then []
    else (match f(s[0]) case None => [] case Some(t) => [t]) + FilterMap(s[1..], f)
  }

  lemma {:induction false} FilterMapAppend<S, T>(s: seq<S>, t: seq<S>, f: S -> Option<T>)
    ensures FilterMap(s + t, f) == FilterMap(s, f) + FilterMap(t, f)
  {
    if s == [] {
      assert s + t == t;
    } else {
      FilterMapAppend(s[1..], t, f);
      assert (s + t)[1..] == s[1..] + t;
    }
  }

  lemma {:induction false} FilterMapContents<S, T>(s: seq<S>, f: S -> Option<T>, y: T)
    ensures y in FilterMap(s, f) <==> exists x | x in s :: f(x) == Some(y)
  {
    if s != [] {
      FilterMapContents(s[1..], f, y);
      assert s == [s[0]] + s[1..];
    }
  }

  lemma {:induction false} FilterMapAgrees<S, T>(s: seq<S>, f: S -> Option<T>, g: S -> Option<T>)
    requires forall x | x in s :: f(x) == g(x)
    ensures FilterMap(s, f) == FilterMap(s, g)
  {
    if s != [] {
      FilterMapAgrees(s[1..], f, g);
    }
  }

  lemma {:induction false} FilterMapNoLonger<S, T>(s: seq<S>, f: S -> Option<T>)
    ensures |FilterMap(s, f)| <= |s|
  {
    if s != [] {
      FilterMapNoLonger(s[1..], f);
    }
  }

  lemma SameElements<T>(s: seq<T>, t: seq<T>)
    requires multiset(s) == multiset(t)
    ensures |s| == |t|
    ensures forall x :: x in s <==> x in t
  {
    assert |s| == |multiset(s)| == |multiset(t)| == |t|;
    forall x ensures x in s <==> x in t {
      assert x in s <==> x in multiset(s);
      assert x in t <==> x in multiset(t);
    }
  }

  lemma RemoveOne<T>(t: seq<T>, i: nat)
    requires i < |t|
    ensures multiset(t[..i] + t[i + 1..]) == multiset(t) - multiset{t[i]}
  {
    assert t == t[..i] + ([t[i]] + t[i + 1..]);
  }

  lemma FilterMapRemove<S, T>(t: seq<S>, i: nat, f: S -> Option<T>)
    requires i < |t|
    ensures multiset(FilterMap(t, f)) == multiset(FilterMap([t[i]], f)) + multiset(FilterMap(t[..i] + t[i + 1..], f))
  {
    FilterMapAppend(t[..i], t[i + 1..], f);
    FilterMapSplit(t, i, f);
  }

  lemma FilterMapAppendThree<S, T>(a: seq<S>, b: seq<S>, c: seq<S>, f: S -> Option<T>)
    ensures FilterMap(a + (b + c), f) == FilterMap(a, f) + (FilterMap(b, f) + FilterMap(c, f))
  {
    FilterMapAppend(a, b + c, f);
    FilterMapAppend(b, c, f);
  }

  lemma FilterMapSplit<S, T>(t: seq<S>, i: nat, f: S -> Option<T>)
    requires i < |t|
    ensures FilterMap(t, f) == FilterMap(t[..i], f) + (FilterMap([t[i]], f) + FilterMap(t[i + 1..], f))
  {
    FilterMapAppendThree(t[..i], [t[i]], t[i + 1..], f);
    assert t == t[..i] + ([t[i]] + t[i + 1..]);
  }

  lemma {:induction false} FilterMapPermutes<S, T>(s: seq<S>, t: seq<S>, f: S -> Option<T>)
    requires multiset(s) == multiset(t)
    ensures multiset(FilterMap(s, f)) == multiset(FilterMap(t, f))
  {
    SameElements(s, t);
    if s != [] {
      var i := IndexIn(t, s[0]);
      var rest := t[..i] + t[i + 1..];
      DropBoth(s, t, i);
      FilterMapPermutes(s[1..], rest, f);
      FilterMapRemove(t, i, f);
      FilterMapSplit(s, 0, f);
    }
  }

  lemma IndexIn<T>(t: seq<T>, x: T) returns (i: nat)
    requires x in t
    ensures i < |t| && t[i] == x
  {
    i :| 0 <= i < |t| && t[i] == x;
  }

  lemma DropBoth<T>(s: seq<T>, t: seq<T>, i: nat)
    requires multiset(s) == multiset(t) && s != [] && i < |t| && t[i] == s[0]
    ensures multiset(s[1..]) == multiset(t[..i] + t[i + 1..])
  {
    assert s == [s[0]] + s[1..];
    RemoveOne(t, i);
  }

  /** How many elements have a rank in `[0, k)`. */
  function CountBelow<S>(s: seq<S>, rank: S -> int, k: nat): (n: nat)
    ensures n <= |s|
  {
    if s == [] then 0 else (if 0 <= rank(s[0]) < k then 1 else 0) + CountBelow(s[1..], rank, k)
  }

  lemma {:induction false} NoneBelowZero<S>(s: seq<S>, rank: S -> int)
    ensures CountBelow(s, rank, 0) == 0
  {
    if s != [] {
      NoneBelowZero(s[1..], rank);
    }
  }

  /** The bucket of rank `k` holds the elements of exactly that rank. */
  lemma {:induction false} BucketSize<S, T>(s: seq<S>, f: S -> Option<T>, rank: S -> int, k: nat)
    requires forall x | x in s :: f(x).Some? <==> rank(x) == k
    ensures |FilterMap(s, f)| + CountBelow(s, rank, k) == CountBelow(s, rank, k + 1)
  {
    if s != [] {
      BucketSize(s[1..], f, rank, k);
    }
  }

  ghost predicate Ordered<T>(s: seq<T>, before: (T, T) -> bool) {
    forall i, j | 0 <= i < j < |s| :: before(s[i], s[j])
  }

  lemma OrderedPrepend<T>(x: T, s: seq<T>, before: (T, T) -> bool)
    ensures Ordered([x] + s, before) <==> Ordered(s, before) && forall y | y in s :: before(x, y)
  {
    var r := [x] + s;
    assert forall i | 0 <= i < |s| :: r[i + 1] == s[i];
    if Ordered(r, before) {
      forall y | y in s ensures before(x, y) {
        var i :| 0 <= i < |s| && s[i] == y;
        assert before(r[0], r[i + 1]);
      }
      forall i, j | 0 <= i < j < |s| ensures before(s[i], s[j]) {
        assert before(r[i + 1], r[j + 1]);
      }
    }
    if Ordered(s, before) && forall y | y in s :: before(x, y) {
      forall i, j | 0 <= i < j < |r| ensures before(r[i], r[j]) {
        assert r[j] == s[j - 1];
        assert i > 0 ==> r[i] == s[i - 1];
      }
    }
  }

  lemma FilterContents<S(!new)>(s: seq<S>, f: S -> Option<S>)
    requires forall x | x in s :: f(x) == None || f(x) == Some(x)
    ensures forall y :: y in FilterMap(s, f) <==> y in s && f(y).Some?
  {
  }

  /** A filtered sequence is ordered exactly when the elements it keeps are. */
  lemma {:induction false} OrderedFilter<S(!new)>(s: seq<S>, f: S -> Option<S>, before: (S, S) -> bool, kept: (S, S) -> bool)
    requires forall x | x in s :: f(x) == None || f(x) == Some(x)
    requires forall x, y :: kept(x, y) <==> (f(x).Some? && f(y).Some? ==> before(x, y))
    ensures Ordered(FilterMap(s, f), before) <==> Ordered(s, kept)
  {
    if s != [] {
      var x, rest := s[0], s[1..];
      assert s == [x] + rest;
      OrderedFilter(rest, f, before, kept);
      OrderedPrepend(x, rest, kept);
      if f(x).Some? {
        FilterContents(rest, f);
        OrderedPrepend(x, FilterMap(rest, f), before);
        assert FilterMap(s, f) == [x] + FilterMap(rest, f);
        assert (forall y | y in rest :: kept(x, y)) <==> forall y | y in FilterMap(rest, f) :: before(x, y);
      } else {
        assert FilterMap(s, f) == [] + FilterMap(rest, f) == FilterMap(rest, f);
        assert forall y | y in rest :: kept(x, y);
      }
    }
  }

  /** The first element with each key, in order. */
  function FirstWithKey<T(==)>(s: seq<T>, key: T -> int): seq<T> {
    if s == [] then []
    else
      var most, last := s[..|s| - 1], s[|s| - 1];
      FirstWithKey(most, key) + (if exists x | x in most :: key(x) == key(last) then [] else [last])
  }

  lemma {:induction false} FirstWithKeyOfMap<S, T>(s: seq<S>, f: S -> T, key: S -> int, key': T -> int)
    requires forall x | x in s :: key(x) == key'(f(x))
    ensures FirstWithKey(Map(s, f), key') == Map(FirstWithKey(s, key), f)
  {
    if s != [] {
      var most, last := s[..|s| - 1], s[|s| - 1];
      var mapped := Map(s, f);
      FirstWithKeyOfMap(most, f, key, key');
      assert mapped[..|mapped| - 1] == Map(most, f);
      KeysOfMap(most, f, key, key', key(last));
      MapAppend(FirstWithKey(most, key), [last], f);
    }
  }

  lemma KeysOfMap<S, T>(s: seq<S>, f: S -> T, key: S -> int, key': T -> int, k: int)
    requires forall x | x in s :: key(x) == key'(f(x))
    ensures (exists x | x in s :: key(x) == k) <==> exists y | y in Map(s, f) :: key'(y) == k
  {
  }

  /** `findIndex` by equality. */
  function IndexOf<T(==)>(s: seq<T>, x: T): (i: Option<nat>)
    ensures i.Some? ==> i.value < |s| && s[i.value] == x
    ensures i.None? <==> x !in s
  {
    if s == [] then None
    else if s[|s| - 1] == x && x !in s[..|s| - 1] then Some(|s| - 1)
    else IndexOf(s[..|s| - 1], x)
  }
}
