/**
 * The supply-rung classifier of src/api/lib/ranking.ts and the parts that both ladder-walk
 * rankers share. Great-circle distance stays uninterpreted: a location carries it as a function.
 */
module RungClassification {
  import opened Base
  import opened LadderProfiles

  datatype LocationConfidence =
    MANUALLY_CONFIRMED | ADDRESS_GEOCODED | MERCHANT_CONFIRMED | POSTCODE_CENTROID | NEEDS_REVIEW

  /** `id` is the branch id's place in `localeCompare` order. */
  datatype Branch = Branch(
    id: int,
    latitude: Option<real>,
    longitude: Option<real>,
    isActive: bool,
    locationConfidence: LocationConfidence,
    localityId: Option<string>,
    postTown: Option<string>,
    ladDistrict: Option<string>,
    adminCounty: Option<string>,
    region: Option<string>,
    locationCountry: Option<string>)

  datatype Locality = Locality(
    id: string,
    postTown: Option<string>,
    ladDistrict: string,
    adminCounty: Option<string>,
    region: Option<string>,
    country: string)

  /** `haversineMetres` takes the location's own coordinates first. */
  datatype EffectiveLocation = EffectiveLocation(
    lat: real,
    lng: real,
    locality: Locality,
    densityClass: DensityClass,
    haversineMetres: (real, real, real, real) -> real)

  datatype CategoryIntent = LOCAL | MIXED | DESTINATION

  datatype RankInput = RankInput(
    effLoc: EffectiveLocation,
    ladderProfile: LadderProfile,
    outgoingCatchmentTargetIds: seq<string>,
    categoryIntent: CategoryIntent,
    targetCount: int,
    hardCap: int)

  const MILES_TO_METRES: real := 1609.344
  const MIN_REVIEW_COUNT_FOR_RATING_SORT: int := 3

  /** A string used as a condition: absent and empty strings count as false. */
  predicate Truthy(s: Option<string>) {
    s.Some? && s.value != ""
  }

  predicate IsLocationConfirmed(b: Branch) {
    b.locationConfidence in {MANUALLY_CONFIRMED, ADDRESS_GEOCODED, MERCHANT_CONFIRMED}
  }

  function DistanceTo(b: Branch, e: EffectiveLocation): Option<real> {
    if b.latitude.Some? && b.longitude.Some?
    then Some(e.haversineMetres(e.lat, e.lng, b.latitude.value, b.longitude.value))
    else None
  }

  function ClassifyRung(b: Branch, e: EffectiveLocation, nearbyRadiusMiles: real, targets: seq<string>): Option<SupplyRung> {
    if !b.isActive then None
    else if !IsLocationConfirmed(b) then None
    else if DistanceTo(b, e).Some? && DistanceTo(b, e).value <= nearbyRadiusMiles * MILES_TO_METRES then Some(NEARBY)
    else if Truthy(b.localityId) && (b.localityId.value == e.locality.id || b.localityId.value in targets) then Some(CATCHMENT)
    else if Truthy(b.postTown) && Truthy(e.locality.postTown) && b.postTown == e.locality.postTown then Some(POST_TOWN)
    else if Truthy(b.ladDistrict) && b.ladDistrict == Some(e.locality.ladDistrict) then Some(LAD)
    else if Truthy(b.adminCounty) && Truthy(e.locality.adminCounty) && b.adminCounty == e.locality.adminCounty then Some(COUNTY)
    else if Truthy(b.region) && Truthy(e.locality.region) && b.region == e.locality.region then Some(REGION)
    else if Truthy(b.locationCountry) && b.locationCountry == Some(e.locality.country) then Some(COUNTRY)
    else Some(NATIONAL)
  }

  /** Two known, non-empty names that agree. */
  predicate SameName(a: Option<string>, b: Option<string>) {
    a.Some? && b.Some? && a.value == b.value != ""
  }

  /** What it means for a branch to lie within a rung, each rung on its own. */
  predicate LiesWithin(b: Branch, e: EffectiveLocation, radius: real, targets: seq<string>, rung: SupplyRung) {
    match rung
    case NEARBY => b.latitude.Some? && b.longitude.Some?
      && e.haversineMetres(e.lat, e.lng, b.latitude.value, b.longitude.value) <= radius * MILES_TO_METRES
    case CATCHMENT => b.localityId.Some? && b.localityId.value != "" && b.localityId.value in targets + [e.locality.id]
    case POST_TOWN => SameName(b.postTown, e.locality.postTown)
    case LAD => SameName(b.ladDistrict, Some(e.locality.ladDistrict))
    case COUNTY => SameName(b.adminCounty, e.locality.adminCounty)
    case REGION => SameName(b.region, e.locality.region)
    case COUNTRY => SameName(b.locationCountry, Some(e.locality.country))
    case NATIONAL => true
  }

  lemma FinerRungsRefused(b: Branch, e: EffectiveLocation, radius: real, targets: seq<string>, rung: SupplyRung)
    requires ClassifyRung(b, e, radius, targets) == Some(rung)
    ensures forall finer | RungOrdinal(finer) < RungOrdinal(rung) :: !LiesWithin(b, e, radius, targets, finer)
  {
  }

  /** Exactly the active branches with a confirmed position are ranked, each on its most specific rung. */
  lemma ClassifiedOnMostSpecificRung(b: Branch, e: EffectiveLocation, radius: real, targets: seq<string>, rung: SupplyRung)
    ensures ClassifyRung(b, e, radius, targets) == Some(rung) <==>
      && b.isActive
      && b.locationConfidence !in {POSTCODE_CENTROID, NEEDS_REVIEW}
      && LiesWithin(b, e, radius, targets, rung)
      && forall finer | RungOrdinal(finer) < RungOrdinal(rung) :: !LiesWithin(b, e, radius, targets, finer)
  {
    var found := ClassifyRung(b, e, radius, targets);
    if found.Some? {
      var f := found.value;
      assert LiesWithin(b, e, radius, targets, f);
      FinerRungsRefused(b, e, radius, targets, f);
      assert RUNG_ORDER[RungOrdinal(rung)] == rung && RUNG_ORDER[RungOrdinal(f)] == f;
      assert RungOrdinal(f) < RungOrdinal(rung) || RungOrdinal(f) > RungOrdinal(rung) || f == rung;
    } else {
      assert b.isActive ==> b.locationConfidence == POSTCODE_CENTROID || b.locationConfidence == NEEDS_REVIEW;
    }
  }

  /** A larger radius and more catchment targets never lose a branch or coarsen its rung. */
  lemma WideningNeverCoarsens(b: Branch, e: EffectiveLocation, r: real, r': real, targets: seq<string>, targets': seq<string>)
    requires r <= r' && forall t | t in targets :: t in targets'
    ensures ClassifyRung(b, e, r, targets).Some? <==> ClassifyRung(b, e, r', targets').Some?
    ensures ClassifyRung(b, e, r, targets).Some? ==>
      RungOrdinal(ClassifyRung(b, e, r', targets').value) <= RungOrdinal(ClassifyRung(b, e, r, targets).value)
  {
  }

  function MaxOrdinal(input: RankInput): nat
    ensures MaxOrdinal(input) < |RUNG_ORDER|
  {
    RungOrdinal(MaxRung(input.ladderProfile, input.effLoc.densityClass))
  }

  /** The rung on which a ranker collects the branch; none beyond the profile's longest rung. */
  function AdmittedRung(b: Branch, input: RankInput): (rung: Option<SupplyRung>)
    ensures rung.Some? ==> RungOrdinal(rung.value) <= MaxOrdinal(input)
  {
    var radius := NearbyRadiusMiles(input.ladderProfile, input.effLoc.densityClass);
    var rung := ClassifyRung(b, input.effLoc, radius, input.outgoingCatchmentTargetIds);
    if rung.Some? && RungOrdinal(rung.value) > MaxOrdinal(input) then None else rung
  }

  /**
   * Exactly the active branches with a confirmed position are ranked, each on its most specific rung
   * by the profile's radius, as long as that rung is none beyond the profile's longest, itself included.
   */
  lemma AdmittedUpToTheLongestRung(b: Branch, input: RankInput, rung: SupplyRung)
    ensures
      var (e, targets) := (input.effLoc, input.outgoingCatchmentTargetIds);
      var radius := NearbyRadiusMiles(input.ladderProfile, e.densityClass);
      AdmittedRung(b, input) == Some(rung) <==>
        && b.isActive && b.locationConfidence !in {POSTCODE_CENTROID, NEEDS_REVIEW}
        && LiesWithin(b, e, radius, targets, rung)
        && (forall finer | RungOrdinal(finer) < RungOrdinal(rung) :: !LiesWithin(b, e, radius, targets, finer))
        && RungOrdinal(rung) <= RungOrdinal(MaxRung(input.ladderProfile, e.densityClass))
  {
    var radius := NearbyRadiusMiles(input.ladderProfile, input.effLoc.densityClass);
    ClassifiedOnMostSpecificRung(b, input.effLoc, radius, input.outgoingCatchmentTargetIds, rung);
  }

  function Sign(x: real): int {
    if x < 0.0 then -1 else if x > 0.0 then 1 else 0
  }

  /** Ascending distance with an unknown distance as infinity. */
  function CompareMetres(a: Option<real>, b: Option<real>): int {
    match (a, b)
    case (Some(x), Some(y)) => Sign(x - y)
    case (Some(_), None) => -1
    case (None, Some(_)) => 1
    case (None, None) => 0
  }
}
