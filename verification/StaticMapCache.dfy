/**
 * `fetchStaticMap` of src/api/lib/googleStaticMap.ts as steps between awaits: a bounded,
 * insertion-ordered response cache in front of the usage gate, with any number of interleaved fetches.
 */
module StaticMapCache {
  import opened Base
  import U = UsageLedger

  const CACHE_TTL_MS: int := 5 * 60000
  const CACHE_MAX_ENTRIES: nat := 200

  // ---------------------------------------------------------------- keys

  /** `x.toFixed(5)`: a sign, and the nearest multiple of 0.00001, the larger of two. */
  datatype Fixed = Fixed(negative: bool, units: int)

  datatype Key = Key(lat: Fixed, lng: Fixed)

  function ToFixed5(x: real): Fixed {
    if x < 0.0 then Fixed(true, (-x * 100000.0 + 0.5).Floor) else Fixed(false, (x * 100000.0 + 0.5).Floor)
  }

  function CacheKey(lat: real, lng: real): Key {
    Key(ToFixed5(lat), ToFixed5(lng))
  }

  function Distance(x: real, y: real): real {
    if x < y then y - x else x - y
  }

  function ValueOf(f: Fixed): real {
    (if f.negative then -(f.units as real) else f.units as real) / 100000.0
  }

  /** The nearest multiple of 0.00001, the one farther from zero when two are as near, and the sign of the number. */
  lemma FixedIsNearest(x: real)
    ensures ToFixed5(x).negative <==> x < 0.0
    ensures ToFixed5(x).units >= 0
    ensures Distance(ValueOf(ToFixed5(x)), x) <= 0.000005
    ensures Distance(ValueOf(ToFixed5(x)), x) == 0.000005 ==> (if x < 0.0 then ValueOf(ToFixed5(x)) < x else ValueOf(ToFixed5(x)) > x)
  {
  }

  /** A key names the grid point nearest to the centre, latitude first. */
  lemma KeyIsTheNearestGridPoint(lat: real, lng: real)
    ensures Distance(ValueOf(CacheKey(lat, lng).lat), lat) <= 0.000005 && Distance(ValueOf(CacheKey(lat, lng).lng), lng) <= 0.000005
    ensures CacheKey(lat, lng).lat.negative <==> lat < 0.0
    ensures CacheKey(lat, lng).lng.negative <==> lng < 0.0
  {
    FixedIsNearest(lat);
    FixedIsNearest(lng);
  }

  /** Requests that share a key ask for centres less than 0.00001 degrees apart in each coordinate. */
  lemma SharedKeysAreClose(lat: real, lng: real, lat': real, lng': real)
    requires CacheKey(lat, lng) == CacheKey(lat', lng')
    ensures Distance(lat, lat') < 0.00001 && Distance(lng, lng') < 0.00001
  {
  }

  // ---------------------------------------------------------------- the insertion-ordered map

  datatype Image = Image(contentType: string, body: string)
  datatype Entry = Entry(image: Image, expiresAt: int)
  datatype Slot = Slot(key: Key, entry: Entry)

  function Find(cache: seq<Slot>, key: Key): Option<Entry> {
    if cache == [] then None else if cache[0].key == key then Some(cache[0].entry) else Find(cache[1..], key)
  }

  /** `Map.set`: an existing key keeps its place. */
  function Put(cache: seq<Slot>, key: Key, entry: Entry): seq<Slot> {
    if cache == [] then [Slot(key, entry)]
    else if cache[0].key == key then [Slot(key, entry)] + cache[1..]
    else [cache[0]] + Put(cache[1..], key, entry)
  }

  function EvictOldest(cache: seq<Slot>): seq<Slot> {
    if |cache| >= CACHE_MAX_ENTRIES then cache[1..] else cache
  }

  function Store(cache: seq<Slot>, key: Key, entry: Entry): seq<Slot> {
    Put(EvictOldest(cache), key, entry)
  }

  ghost predicate DistinctKeys(cache: seq<Slot>) {
    forall i, j | 0 <= i < j < |cache| :: cache[i].key != cache[j].key
  }

  lemma {:induction false} PutKeys(cache: seq<Slot>, key: Key, entry: Entry)
    ensures forall k :: Find(Put(cache, key, entry), k) == if k == key then Some(entry) else Find(cache, k)
    ensures |Put(cache, key, entry)| == |cache| + (if Find(cache, key).Some? then 0 else 1)
    ensures forall slot | slot in Put(cache, key, entry) :: slot.key == key || slot in cache
  {
    if cache != [] && cache[0].key != key {
      PutKeys(cache[1..], key, entry);
      assert Put(cache, key, entry)[1..] == Put(cache[1..], key, entry);
    } else if cache != [] {
      assert Put(cache, key, entry)[1..] == cache[1..];
    }
  }

  /** A key that is there keeps its place, a new one goes to the end. */
  lemma {:induction false} PutKeepsPlaces(cache: seq<Slot>, key: Key, entry: Entry)
    ensures |cache| <= |Put(cache, key, entry)| <= |cache| + 1
    ensures forall i | 0 <= i < |cache| :: Put(cache, key, entry)[i].key == cache[i].key
    ensures |Put(cache, key, entry)| > |cache| ==> Put(cache, key, entry)[|cache|] == Slot(key, entry)
  {
    if cache != [] && cache[0].key != key {
      PutKeepsPlaces(cache[1..], key, entry);
      assert forall i | 0 < i < |cache| :: Put(cache, key, entry)[i] == Put(cache[1..], key, entry)[i - 1] && cache[i] == cache[1..][i - 1];
    }
  }

  lemma {:induction false} PutKeepsDistinct(cache: seq<Slot>, key: Key, entry: Entry)
    requires DistinctKeys(cache)
    ensures DistinctKeys(Put(cache, key, entry))
  {
    if cache != [] {
      var rest := cache[1..];
      assert forall i | 0 <= i < |rest| :: rest[i] == cache[i + 1];
      PutKeepsDistinct(rest, key, entry);
      if cache[0].key != key {
        PutKeys(rest, key, entry);
        var put := Put(rest, key, entry);
        assert forall i | 0 <= i < |put| :: put[i] in put && put[i].key != cache[0].key;
      }
    }
  }

  lemma {:induction false} FindIsMembership(cache: seq<Slot>, key: Key)
    ensures Find(cache, key).Some? ==> Slot(key, Find(cache, key).value) in cache
    ensures Find(cache, key).None? ==> forall slot | slot in cache :: slot.key != key
  {
    if cache != [] {
      FindIsMembership(cache[1..], key);
      assert cache == [cache[0]] + cache[1..];
    }
  }

  /** Dropping the oldest entry loses only that entry. */
  lemma EvictionKeeps(cache: seq<Slot>, key: Key)
    requires DistinctKeys(cache)
    ensures DistinctKeys(EvictOldest(cache))
    ensures Find(EvictOldest(cache), key) == if |cache| >= CACHE_MAX_ENTRIES && cache[0].key == key then None else Find(cache, key)
  {
    if |cache| >= CACHE_MAX_ENTRIES {
      var rest := cache[1..];
      assert forall i | 0 <= i < |rest| :: rest[i] == cache[i + 1];
      FindIsMembership(rest, key);
    }
  }

  // ---------------------------------------------------------------- steps and runs

  datatype Completion = Completion(key: Key, image: Image, at: int)

  /** `pending` maps fetches in flight to their keys; `completions` are the successful responses so far. */
  datatype State = State(cache: seq<Slot>, usage: U.State, pending: map<nat, Key>, started: nat, completions: seq<Completion>)

  /** A call up to its fetch, and the end of a fetch: a stored image, or any failure. */
  datatype Step =
    | Begin(key: Key, now: int, call: U.Call)
    | Succeed(fetch: nat, image: Image, now: int)
    | Fail(fetch: nat)

  datatype Answer = Hit(image: Image) | Refused(why: U.CapFailure) | Started(fetch: nat)

  predicate Fresh(cache: seq<Slot>, key: Key, now: int) {
    Find(cache, key).Some? && Find(cache, key).value.expiresAt > now
  }

  function AnswerTo(s: State, caps: U.Caps, key: Key, now: int, call: U.Call): Answer {
    if Fresh(s.cache, key, now) then Hit(Find(s.cache, key).value.image)
    else
      var failure := U.Outcome(s.usage, caps, call);
      if failure.Some? then Refused(failure.value) else Started(s.started)
  }

  predicate Enabled(s: State, step: Step) {
    match step
    case Begin(key, now, call) => true
    case Succeed(fetch, image, now) => fetch in s.pending
    case Fail(fetch) => fetch in s.pending
  }

  function Next(s: State, caps: U.Caps, step: Step): State
    requires Enabled(s, step)
  {
    match step
    case Begin(key, now, call) =>
      (match AnswerTo(s, caps, key, now, call)
       case Hit(_) => s
       case Refused(_) => s.(usage := U.Next(s.usage, caps, call))
       case Started(fetch) => s.(usage := U.Next(s.usage, caps, call), pending := s.pending[fetch := key], started := s.started + 1))
    case Succeed(fetch, image, now) =>
      var key := s.pending[fetch];
      s.(cache := Store(s.cache, key, Entry(image, now + CACHE_TTL_MS)),
         pending := s.pending - {fetch},
         completions := s.completions + [Completion(key, image, now)])
    case Fail(fetch) => s.(pending := s.pending - {fetch})
  }

  /** The most recently completed successful response for a key. */
  function Latest(completions: seq<Completion>, key: Key): Option<Completion> {
    if completions == [] then None
    else if completions[|completions| - 1].key == key then Some(completions[|completions| - 1])
    else Latest(completions[..|completions| - 1], key)
  }

  /** The keys that ever completed. */
  function KeysOf(completions: seq<Completion>): set<Key> {
    set c | c in completions :: c.key
  }

  /** What the cache holds for a key is its most recent response. */
  ghost predicate HoldsLatest(s: State) {
    forall key | Find(s.cache, key).Some? ::
      var c := Latest(s.completions, key);
      c.Some? && Find(s.cache, key).value == Entry(c.value.image, c.value.at + CACHE_TTL_MS)
  }

  /** As long as fewer than 200 keys have completed, none has been evicted. */
  ghost predicate NoneEvictedYet(s: State) {
    |KeysOf(s.completions)| < CACHE_MAX_ENTRIES ==> forall key | key in KeysOf(s.completions) :: Find(s.cache, key).Some?
  }

  ghost predicate CacheInv(s: State) {
    && DistinctKeys(s.cache) && |s.cache| <= CACHE_MAX_ENTRIES
    && HoldsLatest(s) && NoneEvictedYet(s)
    && forall slot | slot in s.cache :: slot.key in KeysOf(s.completions)
  }

  /** One attempt is counted for each fetch started. */
  ghost predicate CountInv(s: State) {
    |s.usage.attempts| == s.started && forall fetch | fetch in s.pending :: fetch < s.started
  }

  ghost predicate Inv(s: State) {
    CacheInv(s) && CountInv(s)
  }

  lemma {:induction false} KeysBoundCache(cache: seq<Slot>, keys: set<Key>)
    requires DistinctKeys(cache) && forall slot | slot in cache :: slot.key in keys
    ensures |cache| <= |keys|
  {
    if cache != [] {
      var rest := cache[1..];
      assert forall i | 0 <= i < |rest| :: rest[i] == cache[i + 1];
      forall slot | slot in rest ensures slot.key in keys - {cache[0].key} {
        var i :| 0 <= i < |rest| && rest[i] == slot;
      }
      KeysBoundCache(rest, keys - {cache[0].key});
    }
  }

  lemma KeysOfAppend(completions: seq<Completion>, c: Completion)
    ensures KeysOf(completions + [c]) == KeysOf(completions) + {c.key}
    ensures forall key :: Latest(completions + [c], key) == if c.key == key then Some(c) else Latest(completions, key)
  {
  }

  predicate IsOldestOfFull(cache: seq<Slot>, key: Key) {
    |cache| >= CACHE_MAX_ENTRIES && cache[0].key == key
  }

  /**
   * A store into a full cache drops the oldest entry, even when it only refreshes another key;
   * everything else keeps its entry, and the stored key has the new one.
   */
  lemma StoreEvictsExactly(cache: seq<Slot>, key: Key, entry: Entry, k: Key)
    requires DistinctKeys(cache)
    ensures Find(Store(cache, key, entry), k) == (if k == key then Some(entry) else if IsOldestOfFull(cache, k) then None else Find(cache, k))
    ensures |cache| == CACHE_MAX_ENTRIES && Find(cache, key).Some? && key != cache[0].key ==> |Store(cache, key, entry)| == |cache| - 1
  {
    PutKeys(EvictOldest(cache), key, entry);
    EvictionKeeps(cache, key);
    EvictionKeeps(cache, k);
  }

  lemma StoredEntries(cache: seq<Slot>, key: Key, entry: Entry)
    requires DistinctKeys(cache)
    ensures DistinctKeys(Store(cache, key, entry)) && (|cache| <= CACHE_MAX_ENTRIES ==> |Store(cache, key, entry)| <= CACHE_MAX_ENTRIES)
    ensures forall slot | slot in Store(cache, key, entry) :: slot.key == key || slot in cache
  {
    var evicted := EvictOldest(cache);
    EvictionKeeps(cache, key);
    PutKeys(evicted, key, entry);
    PutKeepsDistinct(evicted, key, entry);
    assert forall slot | slot in evicted :: slot in cache;
  }

  /** What one step does to the cache, and what it does to the usage file. */
  predicate CacheMoves(s: State, step: Step, s': State)
    requires Enabled(s, step)
  {
    if step.Succeed? then
      var key := s.pending[step.fetch];
      && s'.cache == Store(s.cache, key, Entry(step.image, step.now + CACHE_TTL_MS))
      && s'.completions == s.completions + [Completion(key, step.image, step.now)]
    else s'.cache == s.cache && s'.completions == s.completions
  }

  predicate PassesGate(s: State, step: Step) {
    step.Begin? && !Fresh(s.cache, step.key, step.now)
  }

  lemma StepMoves(s: State, caps: U.Caps, step: Step, s': State)
    requires Enabled(s, step) && s' == Next(s, caps, step)
    ensures CacheMoves(s, step, s')
    ensures s'.usage == if PassesGate(s, step) then U.Next(s.usage, caps, step.call) else s.usage
    ensures CountInv(s) ==> CountInv(s')
  {
  }

  lemma FindAfterStore(cache: seq<Slot>, key: Key, entry: Entry)
    requires DistinctKeys(cache)
    ensures forall k :: Find(Store(cache, key, entry), k) == (if k == key then Some(entry) else if IsOldestOfFull(cache, k) then None else Find(cache, k))
  {
    forall k ensures Find(Store(cache, key, entry), k) == (if k == key then Some(entry) else if IsOldestOfFull(cache, k) then None else Find(cache, k)) {
      StoreEvictsExactly(cache, key, entry, k);
    }
  }

  lemma StoreHoldsLatest(s: State, step: Step, s': State)
    requires DistinctKeys(s.cache) && HoldsLatest(s) && Enabled(s, step) && step.Succeed? && CacheMoves(s, step, s')
    ensures HoldsLatest(s')
  {
    FindAfterStore(s.cache, s.pending[step.fetch], Entry(step.image, step.now + CACHE_TTL_MS));
    KeysOfAppend(s.completions, Completion(s.pending[step.fetch], step.image, step.now));
  }

  lemma StoreEvictsNoneYet(s: State, step: Step, s': State)
    requires CacheInv(s) && Enabled(s, step) && step.Succeed? && CacheMoves(s, step, s')
    ensures NoneEvictedYet(s')
  {
    FindAfterStore(s.cache, s.pending[step.fetch], Entry(step.image, step.now + CACHE_TTL_MS));
    KeysOfAppend(s.completions, Completion(s.pending[step.fetch], step.image, step.now));
    KeysBoundCache(s.cache, KeysOf(s.completions));
    SubsetIsNoLarger(KeysOf(s.completions), KeysOf(s'.completions));
  }

  lemma StoreKeepsCache(s: State, step: Step, s': State)
    requires CacheInv(s) && Enabled(s, step) && step.Succeed? && CacheMoves(s, step, s')
    ensures CacheInv(s')
  {
    StoredEntries(s.cache, s.pending[step.fetch], Entry(step.image, step.now + CACHE_TTL_MS));
    KeysOfAppend(s.completions, Completion(s.pending[step.fetch], step.image, step.now));
    StoreHoldsLatest(s, step, s');
    StoreEvictsNoneYet(s, step, s');
  }

  lemma SubsetIsNoLarger(a: set<Key>, b: set<Key>)
    requires a <= b
    ensures |a| <= |b|
  {
    assert b == a + (b - a);
  }

  lemma StepKeepsInv(s: State, caps: U.Caps, step: Step, s': State)
    requires Inv(s) && Enabled(s, step) && s' == Next(s, caps, step)
    ensures Inv(s')
  {
    StepMoves(s, caps, step, s');
    if step.Succeed? {
      StoreKeepsCache(s, step, s');
    } else {
      assert CacheInv(s');
    }
  }

  ghost predicate StepAt(states: seq<State>, caps: U.Caps, steps: seq<Step>, i: nat)
    requires |states| == |steps| + 1 && i < |steps|
  {
    Enabled(states[i], steps[i]) && states[i + 1] == Next(states[i], caps, steps[i])
  }

  /** A run from an empty cache and a missing usage file, with fetches interleaved in any way and any clock. */
  ghost predicate IsRun(states: seq<State>, caps: U.Caps, steps: seq<Step>) {
    && |states| == |steps| + 1
    && states[0] == State([], U.State(None, [], states[0].usage.clock), map[], 0, [])
    && forall i | 0 <= i < |steps| :: StepAt(states, caps, steps, i)
  }

  lemma {:induction false} RunKeepsInv(states: seq<State>, caps: U.Caps, steps: seq<Step>, i: nat)
    requires IsRun(states, caps, steps) && i < |states|
    ensures Inv(states[i])
  {
    if i == 0 {
      assert KeysOf([]) == {};
    } else {
      RunKeepsInv(states, caps, steps, i - 1);
      assert StepAt(states, caps, steps, i - 1);
      StepKeepsInv(states[i - 1], caps, steps[i - 1], states[i]);
    }
  }

  /** A hit is the most recently completed response for its key, less than five minutes old, and changes nothing: no quota is spent. */
  lemma HitIsTheLatestResponse(states: seq<State>, caps: U.Caps, steps: seq<Step>, i: nat, key: Key, now: int, call: U.Call)
    requires IsRun(states, caps, steps) && i < |steps| && steps[i] == Begin(key, now, call)
    requires AnswerTo(states[i], caps, key, now, call).Hit?
    ensures var c := Latest(states[i].completions, key);
      c.Some? && AnswerTo(states[i], caps, key, now, call) == Hit(c.value.image) && now < c.value.at + CACHE_TTL_MS
    ensures states[i + 1] == states[i]
  {
    RunKeepsInv(states, caps, steps, i);
    assert StepAt(states, caps, steps, i);
  }

  /** The step stores a response for `key`. */
  predicate Completes(s: State, step: Step, key: Key) {
    step.Succeed? && step.fetch in s.pending && s.pending[step.fetch] == key
  }

  /** The step stores a response for another key and drops the entry of `key`, the oldest. */
  predicate Evicts(s: State, step: Step, key: Key) {
    step.Succeed? && !Completes(s, step, key) && IsOldestOfFull(s.cache, key)
  }

  /** The entry of `key` was evicted in step `e`, and no response for it has completed since. */
  ghost predicate EvictedSince(states: seq<State>, steps: seq<Step>, e: nat, i: nat, key: Key)
    requires |states| == |steps| + 1 && e < i < |states|
  {
    Evicts(states[e], steps[e], key) && forall m | e < m < i :: !Completes(states[m], steps[m], key)
  }

  ghost predicate Evicted(states: seq<State>, steps: seq<Step>, i: nat, key: Key)
    requires |states| == |steps| + 1 && i < |states|
  {
    exists e | 0 <= e < i :: EvictedSince(states, steps, e, i, key)
  }

  /** The same, step by step. */
  ghost predicate Gone(states: seq<State>, steps: seq<Step>, i: nat, key: Key)
    requires |states| == |steps| + 1 && i < |states|
  {
    i > 0 && (Evicts(states[i - 1], steps[i - 1], key) || (Gone(states, steps, i - 1, key) && !Completes(states[i - 1], steps[i - 1], key)))
  }

  lemma {:induction false} GoneIsEvicted(states: seq<State>, steps: seq<Step>, i: nat, key: Key)
    requires |states| == |steps| + 1 && i < |states|
    ensures Gone(states, steps, i, key) <==> Evicted(states, steps, i, key)
  {
    if i > 0 {
      var last := i - 1;
      GoneIsEvicted(states, steps, last, key);
      if Evicts(states[last], steps[last], key) {
        assert EvictedSince(states, steps, last, i, key);
      } else if e: nat :| e < last && EvictedSince(states, steps, e, last, key) && !Completes(states[last], steps[last], key) {
        assert EvictedSince(states, steps, e, i, key);
      }
      if e: nat :| e < last && EvictedSince(states, steps, e, i, key) {
        assert EvictedSince(states, steps, e, last, key);
      }
    }
  }

  lemma FindStep(s: State, step: Step, s': State, key: Key)
    requires CacheInv(s) && Enabled(s, step) && CacheMoves(s, step, s')
    ensures Find(s'.cache, key).Some? <==> Completes(s, step, key) || (Find(s.cache, key).Some? && !Evicts(s, step, key))
    ensures Latest(s'.completions, key).Some? <==> Completes(s, step, key) || Latest(s.completions, key).Some?
  {
    if step.Succeed? {
      StoreEvictsExactly(s.cache, s.pending[step.fetch], Entry(step.image, step.now + CACHE_TTL_MS), key);
      KeysOfAppend(s.completions, Completion(s.pending[step.fetch], step.image, step.now));
    }
  }

  lemma {:induction false} CachedUnlessGone(states: seq<State>, caps: U.Caps, steps: seq<Step>, i: nat, key: Key)
    requires IsRun(states, caps, steps) && i < |states|
    ensures Find(states[i].cache, key).Some? <==> Latest(states[i].completions, key).Some? && !Gone(states, steps, i, key)
  {
    if i > 0 {
      RunKeepsInv(states, caps, steps, i - 1);
      CachedUnlessGone(states, caps, steps, i - 1, key);
      assert StepAt(states, caps, steps, i - 1);
      StepMoves(states[i - 1], caps, steps[i - 1], states[i]);
      FindStep(states[i - 1], steps[i - 1], states[i], key);
    }
  }

  /**
   * A call is a hit if and only if its key's latest response is less than five minutes old and has
   * not been evicted; while fewer than 200 keys have completed nothing has been.
   */
  lemma HitsExactlyWhileFresh(states: seq<State>, caps: U.Caps, steps: seq<Step>, i: nat, key: Key, now: int, call: U.Call)
    requires IsRun(states, caps, steps) && i < |states|
    ensures var c := Latest(states[i].completions, key);
      AnswerTo(states[i], caps, key, now, call).Hit? <==>
        c.Some? && now < c.value.at + CACHE_TTL_MS && !Evicted(states, steps, i, key)
    ensures |KeysOf(states[i].completions)| < CACHE_MAX_ENTRIES && Latest(states[i].completions, key).Some? ==> !Evicted(states, steps, i, key)
  {
    RunKeepsInv(states, caps, steps, i);
    CachedUnlessGone(states, caps, steps, i, key);
    GoneIsEvicted(states, steps, i, key);
    LatestIsAmongKeys(states[i].completions, key);
  }

  lemma {:induction false} LatestIsAmongKeys(completions: seq<Completion>, key: Key)
    ensures Latest(completions, key).Some? <==> key in KeysOf(completions)
  {
    if completions != [] {
      var most, last := completions[..|completions| - 1], completions[|completions| - 1];
      LatestIsAmongKeys(most, key);
      KeysOfAppend(most, last);
      assert completions == most + [last];
    } else {
      assert KeysOf(completions) == {};
    }
  }

  /** The step starts fetch number `fetch`, for `key`. */
  predicate Starts(s: State, caps: U.Caps, step: Step, fetch: nat, key: Key) {
    step.Begin? && step.key == key && AnswerTo(s, caps, key, step.now, step.call) == Started(fetch)
  }

  predicate Ends(step: Step, fetch: nat) {
    (step.Succeed? || step.Fail?) && step.fetch == fetch
  }

  /** Fetch number `fetch` was started for `key` before step `i` and has not ended since. */
  ghost predicate InFlight(states: seq<State>, caps: U.Caps, steps: seq<Step>, i: nat, fetch: nat, key: Key)
    requires |states| == |steps| + 1 && i < |states|
  {
    i > 0 && (Starts(states[i - 1], caps, steps[i - 1], fetch, key) ||
              (InFlight(states, caps, steps, i - 1, fetch, key) && !Ends(steps[i - 1], fetch)))
  }

  lemma PendingStep(s: State, caps: U.Caps, step: Step, s': State, fetch: nat, key: Key)
    requires CountInv(s) && Enabled(s, step) && s' == Next(s, caps, step)
    ensures
      (fetch in s'.pending && s'.pending[fetch] == key) <==>
        Starts(s, caps, step, fetch, key) || (fetch in s.pending && s.pending[fetch] == key && !Ends(step, fetch))
  {
  }

  /** The fetches in flight are those that started and have not ended, each under the key it was started for. */
  lemma {:induction false} PendingExactly(states: seq<State>, caps: U.Caps, steps: seq<Step>, i: nat, fetch: nat, key: Key)
    requires IsRun(states, caps, steps) && i < |states|
    ensures (fetch in states[i].pending && states[i].pending[fetch] == key) <==> InFlight(states, caps, steps, i, fetch, key)
  {
    if i > 0 {
      RunKeepsInv(states, caps, steps, i - 1);
      PendingExactly(states, caps, steps, i - 1, fetch, key);
      assert StepAt(states, caps, steps, i - 1);
      PendingStep(states[i - 1], caps, steps[i - 1], states[i], fetch, key);
    }
  }

  lemma ResponseStep(s: State, caps: U.Caps, step: Step, s': State, key: Key)
    requires DistinctKeys(s.cache) && step.Succeed? && step.fetch in s.pending && s.pending[step.fetch] == key
    requires s' == Next(s, caps, step)
    ensures Latest(s'.completions, key) == Some(Completion(key, step.image, step.now))
    ensures Find(s'.cache, key) == Some(Entry(step.image, step.now + 5 * 60000))
    ensures step.fetch !in s'.pending
  {
    var entry := Entry(step.image, step.now + CACHE_TTL_MS);
    assert s'.cache == Store(s.cache, key, entry);
    StoreEvictsExactly(s.cache, key, entry, key);
    assert s'.completions == s.completions + [Completion(key, step.image, step.now)];
    KeysOfAppend(s.completions, Completion(key, step.image, step.now));
  }

  /** A response is stored under the key for which its fetch was started, and its fetch is then over. */
  lemma ResponseIsStoredUnderItsKey(states: seq<State>, caps: U.Caps, steps: seq<Step>, i: nat, key: Key)
    requires IsRun(states, caps, steps) && i < |steps| && steps[i].Succeed?
    requires InFlight(states, caps, steps, i, steps[i].fetch, key)
    ensures Latest(states[i + 1].completions, key) == Some(Completion(key, steps[i].image, steps[i].now))
    ensures Find(states[i + 1].cache, key) == Some(Entry(steps[i].image, steps[i].now + 5 * 60000))
    ensures steps[i].fetch !in states[i + 1].pending
  {
    PendingExactly(states, caps, steps, i, steps[i].fetch, key);
    CacheIsBoundedAndFetchesAreCounted(states, caps, steps, i);
    assert StepAt(states, caps, steps, i);
    ResponseStep(states[i], caps, steps[i], states[i + 1], key);
  }

  /** In every state: at most 200 entries under different keys, and one attempt counted per fetch started. */
  lemma CacheIsBoundedAndFetchesAreCounted(states: seq<State>, caps: U.Caps, steps: seq<Step>, i: nat)
    requires IsRun(states, caps, steps) && i < |states|
    ensures |states[i].cache| <= CACHE_MAX_ENTRIES && DistinctKeys(states[i].cache)
    ensures |states[i].usage.attempts| == states[i].started
  {
    RunKeepsInv(states, caps, steps, i);
  }

  /** The calls that reach the usage gate read a clock that never goes back. */
  ghost predicate GateClockInOrder(states: seq<State>, caps: U.Caps, steps: seq<Step>)
    requires |states| == |steps| + 1
  {
    forall j | 0 <= j < |steps| && PassesGate(states[j], steps[j]) :: U.InOrder(states[j].usage, steps[j].call)
  }

  lemma {:induction false} RunKeepsUsage(states: seq<State>, caps: U.Caps, steps: seq<Step>, i: nat)
    requires IsRun(states, caps, steps) && GateClockInOrder(states, caps, steps) && i < |states|
    ensures U.Inv(states[i].usage, caps)
  {
    if i > 0 {
      RunKeepsUsage(states, caps, steps, i - 1);
      assert StepAt(states, caps, steps, i - 1);
      StepMoves(states[i - 1], caps, steps[i - 1], states[i]);
      if PassesGate(states[i - 1], steps[i - 1]) {
        U.CallKeepsInv(states[i - 1].usage, caps, steps[i - 1].call);
      }
    }
  }

  /** However fetches interleave, the number that went out stays within the caps, as exactly as the gate alone does. */
  lemma FetchesStayWithinCaps(states: seq<State>, caps: U.Caps, steps: seq<Step>, i: nat, date: U.Date)
    requires IsRun(states, caps, steps) && GateClockInOrder(states, caps, steps) && i < |states|
    ensures U.AttemptsOn(states[i].usage.attempts, date) <= caps.daily + U.StraddlesOn(states[i].usage.attempts, date)
    ensures U.AttemptsIn(states[i].usage.attempts, date.month) <= caps.monthly + U.StraddlesIn(states[i].usage.attempts, date.month)
    ensures U.StraddlesIn(states[i].usage.attempts, date.month) <= 1
  {
    RunKeepsUsage(states, caps, steps, i);
  }

  // ---------------------------------------------------------------- the module's cache, updated in place

  class ResponseCache {
    var entries: seq<Slot>

    constructor ()
      ensures entries == []
    {
      entries := [];
    }

    /** `responseCache.get(key)` with the expiry test. */
    method Lookup(key: Key, now: int) returns (image: Option<Image>)
      ensures image == if Fresh(entries, key, now) then Some(Find(entries, key).value.image) else None
    {
      var i := 0;
      while i < |entries| && entries[i].key != key
        invariant 0 <= i <= |entries|
        invariant Find(entries, key) == Find(entries[i..], key)
      {
        assert entries[i..][1..] == entries[i + 1..];
        i := i + 1;
      }
      if i < |entries| && entries[i].entry.expiresAt > now {
        return Some(entries[i].entry.image);
      }
      return None;
    }

    /** Evicts the oldest entry of a full cache, then sets the key. */
    method Populate(key: Key, image: Image, now: int)
      modifies this
      ensures entries == Store(old(entries), key, Entry(image, now + CACHE_TTL_MS))
    {
      if |entries| >= CACHE_MAX_ENTRIES {
        entries := entries[1..];
      }
      entries := Put(entries, key, Entry(image, now + CACHE_TTL_MS));
    }
  }
}
