/**
 * Locality slugs: `slugify`, the escalation ladder of `uniqueSlug` and the emission loop of
 * prisma/scripts/build-locality-seed.ts, and `buildLocalitySlug` of src/api/lib/findOrCreateLocality.ts.
 */
module Slugs {
  import opened Base
  import opened Text

  /** `toLowerCase`: any function on strings that leaves lower-case letters, digits and dashes alone. */
  type Lowering = string -> string

  predicate IsSlugChar(c: char) {
    'a' <= c <= 'z' || '0' <= c <= '9'
  }

  /** Slugs are written in the lower-case Latin letters and the digits. */
  lemma SlugCharacters(c: char)
    ensures IsSlugChar(c) <==> c in "abcdefghijklmnopqrstuvwxyz" + "0123456789"
  {
    var letters, digits := "abcdefghijklmnopqrstuvwxyz", "0123456789";
    assert forall k | 0 <= k < 26 :: letters[k] as int == 'a' as int + k;
    assert forall k | 0 <= k < 10 :: digits[k] as int == '0' as int + k;
    if 'a' <= c <= 'z' {
      assert letters[c as int - 'a' as int] == c;
    } else if '0' <= c <= '9' {
      assert digits[c as int - '0' as int] == c;
    }
  }

  predicate IsSlugText(s: string) {
    forall i | 0 <= i < |s| :: IsSlugChar(s[i]) || s[i] == '-'
  }

  ghost predicate KeepsSlugText(lower: Lowering) {
    forall s | IsSlugText(s) :: lower(s) == s
  }

  // ---------------------------------------------------------------- slugify

  /** `replace(/[^a-z0-9]+/g, '-')` */
  function Collapse(s: string): string {
    if s == "" then ""
    else
      var rest := Collapse(s[1..]);
      if IsSlugChar(s[0]) then [s[0]] + rest
      else if rest != "" && rest[0] == '-' then rest
      else "-" + rest
  }

  /** `replace(/^-|-$/g, '')` */
  function Trim(s: string): string {
    var t := if s != "" && s[0] == '-' then s[1..] else s;
    if t != "" && t[|t| - 1] == '-' then t[..|t| - 1] else t
  }

  function Slugify(name: string, lower: Lowering): string {
    Trim(Collapse(lower(name)))
  }

  /** Letters, digits and single dashes. */
  predicate IsCollapsed(s: string) {
    IsSlugText(s) && forall i | 0 <= i < |s| - 1 :: s[i] != '-' || s[i + 1] != '-'
  }

  /** A slug: collapsed, with no dash at either end. */
  predicate IsSlug(s: string) {
    IsCollapsed(s) && (s != "" ==> s[0] != '-' && s[|s| - 1] != '-')
  }

  lemma {:induction false} CollapseCollapses(s: string)
    ensures IsCollapsed(Collapse(s))
  {
    if s != "" {
      CollapseCollapses(s[1..]);
      var rest, r := Collapse(s[1..]), Collapse(s);
      assert forall i | 0 <= i < |rest| :: |r| == |rest| + 1 ==> r[i + 1] == rest[i];
    }
  }

  lemma {:induction false} CollapsedStays(s: string)
    requires IsCollapsed(s)
    ensures Collapse(s) == s
  {
    if s != "" {
      var rest := s[1..];
      assert forall i | 0 <= i < |rest| :: rest[i] == s[i + 1];
      CollapsedStays(rest);
      assert s == [s[0]] + rest;
    }
  }

  lemma TrimMakesSlug(s: string)
    requires IsCollapsed(s)
    ensures IsSlug(Trim(s))
  {
  }

  /** Slugs are slugs, and slugifying one again changes nothing. */
  lemma SlugifyIsIdempotent(name: string, lower: Lowering)
    requires KeepsSlugText(lower)
    ensures IsSlug(Slugify(name, lower))
    ensures Slugify(Slugify(name, lower), lower) == Slugify(name, lower)
  {
    CollapseCollapses(lower(name));
    TrimMakesSlug(Collapse(lower(name)));
    CollapsedStays(Slugify(name, lower));
  }

  /** The letters and digits of a text. */
  function Kept(s: string): string {
    if s == "" then "" else (if IsSlugChar(s[0]) then [s[0]] else "") + Kept(s[1..])
  }

  lemma {:induction false} KeptAppend(s: string, t: string)
    ensures Kept(s + t) == Kept(s) + Kept(t)
  {
    if s == "" {
      assert s + t == t;
    } else {
      KeptAppend(s[1..], t);
      var first := if IsSlugChar(s[0]) then [s[0]] else "";
      assert (s + t)[0] == s[0] && (s + t)[1..] == s[1..] + t;
      assert first + (Kept(s[1..]) + Kept(t)) == (first + Kept(s[1..])) + Kept(t);
    }
  }

  lemma {:induction false} CollapseKeeps(s: string)
    ensures Kept(Collapse(s)) == Kept(s)
  {
    if s != "" {
      CollapseKeeps(s[1..]);
      var rest := Collapse(s[1..]);
      KeptAppend([s[0]], rest);
      KeptAppend("-", rest);
      assert Kept("-") == "";
    }
  }

  lemma TrimKeeps(s: string)
    ensures Kept(Trim(s)) == Kept(s)
  {
    var t := if s != "" && s[0] == '-' then s[1..] else s;
    if t != "" && t[|t| - 1] == '-' {
      KeptAppend(t[..|t| - 1], "-");
      assert t == t[..|t| - 1] + "-" && Kept("-") == "";
    }
  }

  /** A slug has the letters and digits of the lowered name, all of them and in order. */
  lemma SlugifyKeepsLettersAndDigits(name: string, lower: Lowering)
    ensures Kept(Slugify(name, lower)) == Kept(lower(name))
  {
    CollapseKeeps(lower(name));
    TrimKeeps(Collapse(lower(name)));
  }

  predicate IsGap(s: string) {
    s != "" && forall i | 0 <= i < |s| :: !IsSlugChar(s[i])
  }

  lemma {:induction false} CollapseGap(gap: string, t: string)
    requires IsGap(gap)
    ensures Collapse(gap + t) == "-" + (var rest := Collapse(t); if rest != "" && rest[0] == '-' then rest[1..] else rest)
  {
    assert (gap + t)[1..] == gap[1..] + t;
    if |gap| > 1 {
      CollapseGap(gap[1..], t);
    } else {
      assert gap[1..] + t == t;
    }
  }

  /** `r` without a dash in front of it. */
  function WithoutLead(r: string): string {
    if r != "" && r[0] == '-' then r[1..] else r
  }

  lemma {:induction false} CollapseAroundGap(a: string, gap: string, b: string)
    requires IsGap(gap) && a != "" && IsSlugChar(a[|a| - 1])
    ensures Collapse(a + gap + b) == Collapse(a) + "-" + WithoutLead(Collapse(b))
  {
    var whole := a + gap + b;
    assert whole[1..] == a[1..] + gap + b;
    if |a| > 1 {
      CollapseAroundGap(a[1..], gap, b);
      CollapsedNotEmpty(a[1..]);
    } else {
      assert a[1..] + gap + b == gap + b;
      CollapseGap(gap, b);
    }
  }

  lemma {:induction false} CollapsedNotEmpty(s: string)
    ensures Collapse(s) == "" <==> s == ""
  {
  }

  lemma {:induction false} CollapseEnds(s: string)
    requires s != ""
    ensures Collapse(s) != ""
    ensures IsSlugChar(s[0]) ==> Collapse(s)[0] == s[0]
    ensures IsSlugChar(s[|s| - 1]) ==> Collapse(s)[|Collapse(s)| - 1] == s[|s| - 1]
  {
    if |s| > 1 {
      CollapseEnds(s[1..]);
    }
  }

  /** Words stay apart: what lies between them becomes one dash, and nothing else changes. */
  lemma WordsStayApart(name: string, lower: Lowering, a: string, gap: string, b: string)
    requires lower(name) == a + gap + b && IsGap(gap)
    requires a != "" && b != "" && IsSlugChar(a[|a| - 1]) && IsSlugChar(b[0])
    ensures Slugify(name, lower) == Trim(Collapse(a)) + "-" + Trim(Collapse(b))
  {
    CollapseAroundGap(a, gap, b);
    CollapseEnds(a);
    CollapseEnds(b);
    var (x, y) := (Collapse(a), Collapse(b));
    assert WithoutLead(y) == y;
    TrimBetween(x, y);
  }

  lemma TrimBetween(x: string, y: string)
    requires x != "" && y != "" && x[|x| - 1] != '-' && y[0] != '-'
    ensures Trim(x + "-" + y) == Trim(x) + "-" + Trim(y)
  {
    TrimLead(x, "-" + y);
    assert x + "-" + y == x + ("-" + y);
    TrimTail(WithoutLead(x) + "-", y);
    assert WithoutLead(x) + ("-" + y) == WithoutLead(x) + "-" + y;
  }

  /** `r` without a dash at its end. */
  function WithoutTail(r: string): string {
    if r != "" && r[|r| - 1] == '-' then r[..|r| - 1] else r
  }

  lemma TrimLead(x: string, rest: string)
    requires x != ""
    ensures WithoutLead(x + rest) == WithoutLead(x) + rest
  {
  }

  lemma TrimTail(rest: string, y: string)
    requires y != ""
    ensures WithoutTail(rest + y) == rest + WithoutTail(y)
  {
  }

  /** `buildLocalitySlug`, with `ladDistrict` optional and an empty one counting as absent. */
  function BuildLocalitySlug(name: string, ladDistrict: Option<string>, lower: Lowering): string {
    if ladDistrict.None? || ladDistrict.value == "" then Slugify(name, lower)
    else Slugify(name, lower) + "-" + Slugify(ladDistrict.value, lower)
  }

  // ---------------------------------------------------------------- the ladder

  datatype Place = Place(name: string, ladDistrict: string, country: string)

  const LAST_SUFFIX: nat := 99
  const LADDER_LENGTH: nat := LAST_SUFFIX + 2

  /** The candidates in order: base, with LAD, with country, then the suffixes 2 to 99. */
  function CandidateAt(p: Place, lower: Lowering, k: nat): string {
    var base := Slugify(p.name, lower);
    var withLad := base + "-" + Slugify(p.ladDistrict, lower);
    var withCountry := withLad + "-" + Slugify(p.country, lower);
    if k == 0 then base else if k == 1 then withLad else if k == 2 then withCountry
    else withCountry + "-" + Decimal(k - 1)
  }

  /** The runtime slugs are the ladder's first two rungs, the second exactly for a non-empty LAD. */
  lemma RuntimeSlugsAreTheFirstRungs(p: Place, lower: Lowering)
    ensures BuildLocalitySlug(p.name, None, lower) == CandidateAt(p, lower, 0)
    ensures BuildLocalitySlug(p.name, Some(p.ladDistrict), lower) == CandidateAt(p, lower, 1) <==> p.ladDistrict != ""
  {
  }

  /** No two rungs of one ladder offer the same slug. */
  lemma CandidatesAreDistinct(p: Place, lower: Lowering, j: nat, k: nat)
    ensures CandidateAt(p, lower, j) == CandidateAt(p, lower, k) <==> j == k
  {
    var withCountry := CandidateAt(p, lower, 2);
    if j > 2 && k > 2 {
      var a, b := withCountry + "-" + Decimal(j - 1), withCountry + "-" + Decimal(k - 1);
      assert a[|withCountry| + 1..] == Decimal(j - 1) && b[|withCountry| + 1..] == Decimal(k - 1);
      DecimalIsInjective(j - 1, k - 1);
    } else {
      assert |CandidateAt(p, lower, 0)| < |CandidateAt(p, lower, 1)| < |withCountry|;
      assert j > 2 ==> |CandidateAt(p, lower, j)| > |withCountry|;
      assert k > 2 ==> |CandidateAt(p, lower, k)| > |withCountry|;
    }
  }

  /** The first unused candidate from rung `k` on. */
  function FirstUnused(p: Place, lower: Lowering, used: set<string>, k: nat): (rung: Option<nat>)
    requires k <= LADDER_LENGTH
    ensures rung.Some? ==> k <= rung.value < LADDER_LENGTH && CandidateAt(p, lower, rung.value) !in used
    ensures forall j | k <= j < LADDER_LENGTH && (rung.None? || j < rung.value) :: CandidateAt(p, lower, j) in used
    decreases LADDER_LENGTH - k, used
  {
    if k == LADDER_LENGTH then None
    else if CandidateAt(p, lower, k) !in used then Some(k)
    else FirstUnused(p, lower, used, k + 1)
  }

  function Rung(p: Place, lower: Lowering, used: set<string>): Option<nat> {
    FirstUnused(p, lower, used, 0)
  }

  /** A place is refused only after at least 101 other slugs. */
  lemma RefusalNeedsAFullLadder(p: Place, lower: Lowering, used: set<string>)
    requires Rung(p, lower, used).None?
    ensures |used| >= LADDER_LENGTH == 101
  {
    LadderFillsSet(p, lower, used, LADDER_LENGTH);
  }

  lemma {:induction false} LadderFillsSet(p: Place, lower: Lowering, used: set<string>, k: nat)
    requires forall j | 0 <= j < k :: CandidateAt(p, lower, j) in used
    ensures |used| >= k
  {
    if k > 0 {
      var last := CandidateAt(p, lower, k - 1);
      forall j | 0 <= j < k - 1 ensures CandidateAt(p, lower, j) in used - {last} {
        CandidatesAreDistinct(p, lower, j, k - 1);
      }
      LadderFillsSet(p, lower, used - {last}, k - 1);
      assert used == (used - {last}) + {last};
    }
  }

  // ---------------------------------------------------------------- emission

  datatype RungCounts = RungCounts(base: nat, withLad: nat, withCountry: nat, numeric: nat)

  datatype Emission = Emission(slugs: seq<string>, counts: RungCounts)

  datatype SlugError = TooManyCollisions(place: Place)

  function Counted(c: RungCounts, rung: nat): RungCounts {
    if rung == 0 then c.(base := c.base + 1)
    else if rung == 1 then c.(withLad := c.withLad + 1)
    else if rung == 2 then c.(withCountry := c.withCountry + 1)
    else c.(numeric := c.numeric + 1)
  }

  function SetOf(slugs: seq<string>): set<string> {
    set s | s in slugs
  }

  /** One slug per place, each the first unused of its ladder; the first refusal ends the run. */
  function Emit(places: seq<Place>, lower: Lowering): (r: Result<Emission, SlugError>)
    ensures r.Ok? ==> |r.value.slugs| == |places|
  {
    if places == [] then Ok(Emission([], RungCounts(0, 0, 0, 0)))
    else
      var most, p := places[..|places| - 1], places[|places| - 1];
      var done := Emit(most, lower);
      if done.Err? then done
      else
        var rung := Rung(p, lower, SetOf(done.value.slugs));
        if rung.None? then Err(TooManyCollisions(p))
        else Ok(Emission(done.value.slugs + [CandidateAt(p, lower, rung.value)], Counted(done.value.counts, rung.value)))
  }

  ghost predicate DistinctSlugs(slugs: seq<string>) {
    forall i, j | 0 <= i < j < |slugs| :: slugs[i] != slugs[j]
  }

  /** The slug of place `i` is the first candidate of its ladder that no earlier place took. */
  ghost predicate IsFirstUnused(places: seq<Place>, lower: Lowering, slugs: seq<string>, i: nat)
    requires i < |places| == |slugs|
  {
    exists k | 0 <= k < LADDER_LENGTH ::
      && slugs[i] == CandidateAt(places[i], lower, k) && slugs[i] !in slugs[..i]
      && forall j | 0 <= j < k :: CandidateAt(places[i], lower, j) in slugs[..i]
  }

  lemma LastSlugIsFirstUnused(places: seq<Place>, lower: Lowering, before: seq<string>, slugs: seq<string>)
    requires places != [] && |before| == |places| - 1
    requires Rung(places[|before|], lower, SetOf(before)).Some?
    requires slugs == before + [CandidateAt(places[|before|], lower, Rung(places[|before|], lower, SetOf(before)).value)]
    ensures IsFirstUnused(places, lower, slugs, |before|) && slugs[|before|] !in before
  {
  }

  lemma EarlierSlugsStayFirstUnused(places: seq<Place>, lower: Lowering, before: seq<string>, slugs: seq<string>, i: nat)
    requires i < |before| == |places| - 1 && |slugs| == |places| && slugs[..|before|] == before
    requires IsFirstUnused(places[..|before|], lower, before, i)
    ensures IsFirstUnused(places, lower, slugs, i)
  {
  }

  /** Every emitted slug is different, each the first unused of its ladder, and the rung counts add up. */
  lemma {:induction false} EmittedSlugsAreUnique(places: seq<Place>, lower: Lowering)
    requires Emit(places, lower).Ok?
    ensures var r := Emit(places, lower).value;
      && DistinctSlugs(r.slugs)
      && (forall i | 0 <= i < |places| :: IsFirstUnused(places, lower, r.slugs, i))
      && r.counts.base + r.counts.withLad + r.counts.withCountry + r.counts.numeric == |places|
  {
    if places != [] {
      var most, n := places[..|places| - 1], |places| - 1;
      EmittedSlugsAreUnique(most, lower);
      var before, slugs := Emit(most, lower).value.slugs, Emit(places, lower).value.slugs;
      LastSlugIsFirstUnused(places, lower, before, slugs);
      forall i | 0 <= i < n ensures IsFirstUnused(places, lower, slugs, i) {
        EarlierSlugsStayFirstUnused(places, lower, before, slugs, i);
      }
    }
  }

  /** How many places got the candidate of rung `k`. */
  function CountAtRung(places: seq<Place>, lower: Lowering, slugs: seq<string>, k: nat): nat
    requires |places| == |slugs|
    decreases |places|, slugs, lower
  {
    if places == [] then 0
    else
      var n := |places| - 1;
      CountAtRung(places[..n], lower, slugs[..n], k) + if slugs[n] == CandidateAt(places[n], lower, k) then 1 else 0
  }

  lemma OneMoreAtRung(places: seq<Place>, lower: Lowering, before: seq<string>, rung: nat, k: nat)
    requires |places| == |before| + 1
    ensures
      CountAtRung(places, lower, before + [CandidateAt(places[|before|], lower, rung)], k)
        == CountAtRung(places[..|before|], lower, before, k) + if k == rung then 1 else 0
  {
    CandidatesAreDistinct(places[|before|], lower, rung, k);
    var slugs := before + [CandidateAt(places[|before|], lower, rung)];
    assert slugs[..|before|] == before;
  }

  lemma CountedExactly(c: RungCounts, rung: nat)
    ensures var d := Counted(c, rung);
      && d.base == c.base + (if rung == 0 then 1 else 0) && d.withLad == c.withLad + (if rung == 1 then 1 else 0)
      && d.withCountry == c.withCountry + (if rung == 2 then 1 else 0) && d.numeric == c.numeric + (if rung > 2 then 1 else 0)
  {
  }

  /** The summary counts how many slugs are bare, carry the LAD, or carry LAD and country; the others carry a number. */
  lemma {:induction false} RungCountsAreExact(places: seq<Place>, lower: Lowering)
    requires Emit(places, lower).Ok?
    ensures var r := Emit(places, lower).value;
      && r.counts.base == CountAtRung(places, lower, r.slugs, 0)
      && r.counts.withLad == CountAtRung(places, lower, r.slugs, 1)
      && r.counts.withCountry == CountAtRung(places, lower, r.slugs, 2)
      && r.counts.numeric == |places| - r.counts.base - r.counts.withLad - r.counts.withCountry
  {
    if places != [] {
      var n := |places| - 1;
      RungCountsAreExact(places[..n], lower);
      var before := Emit(places[..n], lower).value;
      var rung := Rung(places[n], lower, SetOf(before.slugs)).value;
      CountedExactly(before.counts, rung);
      OneMoreAtRung(places, lower, before.slugs, rung, 0);
      OneMoreAtRung(places, lower, before.slugs, rung, 1);
      OneMoreAtRung(places, lower, before.slugs, rung, 2);
    }
  }

  /** The places before `i` are emitted, and place `i` finds its whole ladder taken. */
  ghost predicate BlockedAt(places: seq<Place>, lower: Lowering, i: nat)
    requires i < |places|
  {
    Emit(places[..i], lower).Ok? && LadderTaken(places[i], lower, Emit(places[..i], lower).value.slugs)
  }

  lemma BlockedInPrefix(places: seq<Place>, lower: Lowering, n: nat, i: nat)
    requires i < n <= |places|
    ensures BlockedAt(places[..n], lower, i) <==> BlockedAt(places, lower, i)
  {
    assert places[..n][..i] == places[..i];
  }

  lemma LastPlaceDecides(places: seq<Place>, lower: Lowering)
    requires places != [] && Emit(places[..|places| - 1], lower).Ok?
    ensures Emit(places, lower).Err? <==> BlockedAt(places, lower, |places| - 1)
  {
  }

  /** The run fails exactly when some place, after the places before it, finds its whole ladder taken. */
  lemma {:induction false} EmissionFailsExactly(places: seq<Place>, lower: Lowering)
    ensures Emit(places, lower).Err? <==> exists i | 0 <= i < |places| :: BlockedAt(places, lower, i)
  {
    if places != [] {
      var n := |places| - 1;
      var most := places[..n];
      EmissionFailsExactly(most, lower);
      forall i | 0 <= i < n ensures BlockedAt(most, lower, i) <==> BlockedAt(places, lower, i) {
        BlockedInPrefix(places, lower, n, i);
      }
      if Emit(most, lower).Ok? {
        LastPlaceDecides(places, lower);
      } else {
        var i :| 0 <= i < |most| && BlockedAt(most, lower, i);
        assert BlockedAt(places, lower, i);
      }
    }
  }

  ghost predicate LadderTaken(p: Place, lower: Lowering, slugs: seq<string>) {
    forall k | 0 <= k < LADDER_LENGTH :: CandidateAt(p, lower, k) in slugs
  }

  /** Up to 101 places are never refused. */
  lemma {:induction false} ShortListsSucceed(places: seq<Place>, lower: Lowering)
    requires |places| <= LADDER_LENGTH
    ensures Emit(places, lower).Ok?
  {
    if places != [] {
      var most, p := places[..|places| - 1], places[|places| - 1];
      ShortListsSucceed(most, lower);
      var slugs := Emit(most, lower).value.slugs;
      SetOfIsNoLarger(slugs);
      if Rung(p, lower, SetOf(slugs)).None? {
        RefusalNeedsAFullLadder(p, lower, SetOf(slugs));
      }
    }
  }

  lemma {:induction false} SetOfIsNoLarger(slugs: seq<string>)
    ensures |SetOf(slugs)| <= |slugs|
  {
    if slugs == [] {
      assert SetOf(slugs) == {};
    } else {
      var most := slugs[..|slugs| - 1];
      SetOfIsNoLarger(most);
      assert SetOf(slugs) == SetOf(most) + {slugs[|slugs| - 1]};
    }
  }

  lemma OneMorePlace(places: seq<Place>, lower: Lowering, i: nat)
    requires i < |places| && Emit(places[..i], lower).Ok?
    ensures var done := Emit(places[..i], lower).value;
      var rung := Rung(places[i], lower, SetOf(done.slugs));
      && Emit(places[..i + 1], lower) ==
        (if rung.None? then Err(TooManyCollisions(places[i]))
         else Ok(Emission(done.slugs + [CandidateAt(places[i], lower, rung.value)], Counted(done.counts, rung.value))))
      && (rung.Some? ==> SetOf(done.slugs + [CandidateAt(places[i], lower, rung.value)]) == SetOf(done.slugs) + {CandidateAt(places[i], lower, rung.value)})
  {
    assert places[..i + 1][..i] == places[..i];
  }

  // ---------------------------------------------------------------- the generator

  class Generator {
    var used: set<string>

    constructor ()
      ensures used == {}
    {
      used := {};
    }

    /** `uniqueSlug`: tries the ladder and records what it returns. */
    method UniqueSlug(p: Place, lower: Lowering) returns (slug: Option<string>)
      modifies this
      ensures slug == (var rung := Rung(p, lower, old(used)); if rung.Some? then Some(CandidateAt(p, lower, rung.value)) else None)
      ensures used == if slug.Some? then old(used) + {slug.value} else old(used)
      ensures slug.Some? ==> |used| == |old(used)| + 1
    {
      var base := Slugify(p.name, lower);
      assert base == CandidateAt(p, lower, 0);
      if base !in used {
        used := used + {base};
        return Some(base);
      }
      var withLad := base + "-" + Slugify(p.ladDistrict, lower);
      assert withLad == CandidateAt(p, lower, 1) && Rung(p, lower, used) == FirstUnused(p, lower, used, 1);
      if withLad !in used {
        used := used + {withLad};
        return Some(withLad);
      }
      var withCountry := withLad + "-" + Slugify(p.country, lower);
      assert withCountry == CandidateAt(p, lower, 2) && Rung(p, lower, used) == FirstUnused(p, lower, used, 2);
      if withCountry !in used {
        used := used + {withCountry};
        return Some(withCountry);
      }
      for i := 2 to LAST_SUFFIX + 1
        invariant used == old(used)
        invariant Rung(p, lower, used) == FirstUnused(p, lower, used, i + 1)
      {
        var candidate := withCountry + "-" + Decimal(i);
        assert candidate == CandidateAt(p, lower, i + 1);
        if candidate !in used {
          used := used + {candidate};
          return Some(candidate);
        }
      }
      return None;
    }

    /** The rung a slug is booked under, told by comparing it with the ladder's first candidates. */
    static function BookedRung(p: Place, lower: Lowering, slug: string): nat {
      if slug == Slugify(p.name, lower) then 0
      else if slug == Slugify(p.name, lower) + "-" + Slugify(p.ladDistrict, lower) then 1
      else if slug == Slugify(p.name, lower) + "-" + Slugify(p.ladDistrict, lower) + "-" + Slugify(p.country, lower) then 2
      else 3
    }

    /** Comparing slugs books every slug under the rung it came from. */
    static lemma BookedUnderItsRung(p: Place, lower: Lowering, k: nat)
      ensures BookedRung(p, lower, CandidateAt(p, lower, k)) == if k < 3 then k else 3
    {
    }

    /** The emission loop of `main`. */
    method EmitAll(places: seq<Place>, lower: Lowering) returns (r: Result<Emission, SlugError>)
      requires used == {}
      modifies this
      ensures r == Emit(places, lower)
    {
      var slugs: seq<string> := [];
      var counts := RungCounts(0, 0, 0, 0);
      for i := 0 to |places|
        invariant Emit(places[..i], lower) == Ok(Emission(slugs, counts))
        invariant used == SetOf(slugs)
      {
        var slug := UniqueSlug(places[i], lower);
        OneMorePlace(places, lower, i);
        if slug.None? {
          RefusalEndsTheRun(places, lower, i + 1);
          return Err(TooManyCollisions(places[i]));
        }
        BookedUnderItsRung(places[i], lower, Rung(places[i], lower, SetOf(slugs)).value);
        counts := Counted(counts, BookedRung(places[i], lower, slug.value));
        slugs := slugs + [slug.value];
      }
      assert places[..|places|] == places;
      return Ok(Emission(slugs, counts));
    }
  }

  lemma {:induction false} RefusalEndsTheRun(places: seq<Place>, lower: Lowering, k: nat)
    requires k <= |places| && Emit(places[..k], lower).Err?
    ensures Emit(places, lower) == Emit(places[..k], lower)
  {
    if k == |places| {
      assert places[..k] == places;
    } else {
      var most := places[..|places| - 1];
      assert most[..k] == places[..k];
      RefusalEndsTheRun(most, lower, k);
    }
  }
}
