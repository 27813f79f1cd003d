/** The ladder-profile matrices (src/api/lib/ladderProfiles.ts) and what their rows promise. */
module LadderProfiles {

  datatype LadderProfile = LOCAL_TIGHT | LOCAL_NORMAL | MIXED_NORMAL | DESTINATION_LOCAL | DESTINATION_WIDE
  datatype DensityClass = URBAN | SUBURBAN | RURAL
  datatype SupplyRung = NEARBY | CATCHMENT | POST_TOWN | LAD | COUNTY | REGION | COUNTRY | NATIONAL
  datatype ProximityBand = BAND_NEARBY | IN_YOUR_AREA | A_LITTLE_FURTHER | NEAREST_ON_REDEEMO
  datatype SupplyTier = TIER_NEARBY | TIER_CITY | TIER_DISTANT

  const RUNG_ORDER: seq<SupplyRung> := [NEARBY, CATCHMENT, POST_TOWN, LAD, COUNTY, REGION, COUNTRY, NATIONAL]

  /** `RUNG_ORDER.indexOf(r)` */
  function RungOrdinal(r: SupplyRung): (i: nat)
    ensures i < |RUNG_ORDER| && RUNG_ORDER[i] == r
  {
    match r
    case NEARBY => 0
    case CATCHMENT => 1
    case POST_TOWN => 2
    case LAD => 3
    case COUNTY => 4
    case REGION => 5
    case COUNTRY => 6
    case NATIONAL => 7
  }

  lemma OrdinalIsPosition(i: nat)
    requires i < |RUNG_ORDER|
    ensures RungOrdinal(RUNG_ORDER[i]) == i
  {
  }

  function NearbyRadiusMiles(p: LadderProfile, d: DensityClass): real {
    match p
    case LOCAL_TIGHT => (match d case URBAN => 1.5 case SUBURBAN => 4.0 case RURAL => 7.0)
    case LOCAL_NORMAL => (match d case URBAN => 3.0 case SUBURBAN => 6.0 case RURAL => 10.0)
    case MIXED_NORMAL => (match d case URBAN => 5.0 case SUBURBAN => 10.0 case RURAL => 15.0)
    case DESTINATION_LOCAL => (match d case URBAN => 8.0 case SUBURBAN => 15.0 case RURAL => 20.0)
    case DESTINATION_WIDE => (match d case URBAN => 15.0 case SUBURBAN => 25.0 case RURAL => 35.0)
  }

  function MaxRung(p: LadderProfile, d: DensityClass): SupplyRung {
    match p
    case LOCAL_TIGHT => (match d case URBAN => LAD case SUBURBAN => COUNTY case RURAL => COUNTY)
    case LOCAL_NORMAL => (match d case URBAN => COUNTY case SUBURBAN => COUNTY case RURAL => REGION)
    case MIXED_NORMAL => (match d case URBAN => REGION case SUBURBAN => REGION case RURAL => COUNTRY)
    case DESTINATION_LOCAL => (match d case URBAN => COUNTRY case SUBURBAN => COUNTRY case RURAL => NATIONAL)
    case DESTINATION_WIDE => NATIONAL
  }

  function ProximityBandOf(r: SupplyRung, d: DensityClass): ProximityBand {
    match r
    case NEARBY => BAND_NEARBY
    case CATCHMENT => IN_YOUR_AREA
    case POST_TOWN => IN_YOUR_AREA
    case LAD => (match d case URBAN => A_LITTLE_FURTHER case _ => IN_YOUR_AREA)
    case COUNTY => (match d case URBAN => NEAREST_ON_REDEEMO case _ => A_LITTLE_FURTHER)
    case REGION => (match d case RURAL => A_LITTLE_FURTHER case _ => NEAREST_ON_REDEEMO)
    case COUNTRY => NEAREST_ON_REDEEMO
    case NATIONAL => NEAREST_ON_REDEEMO
  }

  function LegacyTier(r: SupplyRung): SupplyTier {
    match r
    case NEARBY => TIER_NEARBY
    case CATCHMENT => TIER_CITY
    case POST_TOWN => TIER_CITY
    case _ => TIER_DISTANT
  }

  /** Position of a profile from tight to wide. */
  function Width(p: LadderProfile): nat {
    match p case LOCAL_TIGHT => 0 case LOCAL_NORMAL => 1 case MIXED_NORMAL => 2 case DESTINATION_LOCAL => 3 case DESTINATION_WIDE => 4
  }

  /** Position of a band from most to least specific. */
  function Coarseness(b: ProximityBand): nat {
    match b case BAND_NEARBY => 0 case IN_YOUR_AREA => 1 case A_LITTLE_FURTHER => 2 case NEAREST_ON_REDEEMO => 3
  }

  /** A wider profile has a larger radius and a ladder at least as long. */
  lemma WiderProfileReachesFurther(p: LadderProfile, q: LadderProfile, d: DensityClass)
    requires Width(p) <= Width(q)
    ensures NearbyRadiusMiles(p, d) <= NearbyRadiusMiles(q, d)
    ensures RungOrdinal(MaxRung(p, d)) <= RungOrdinal(MaxRung(q, d))
  {
  }

  /** A less specific rung never has a more specific band. */
  lemma BandsFollowRungs(r: SupplyRung, s: SupplyRung, d: DensityClass)
    requires RungOrdinal(r) <= RungOrdinal(s)
    ensures Coarseness(ProximityBandOf(r, d)) <= Coarseness(ProximityBandOf(s, d))
  {
  }

  /** Where supply is sparser the radius is larger and the ladder at least as long. */
  lemma SparserSupplyReachesFurther(p: LadderProfile)
    ensures NearbyRadiusMiles(p, URBAN) < NearbyRadiusMiles(p, SUBURBAN) < NearbyRadiusMiles(p, RURAL)
    ensures RungOrdinal(MaxRung(p, URBAN)) <= RungOrdinal(MaxRung(p, SUBURBAN)) <= RungOrdinal(MaxRung(p, RURAL))
  {
  }

  /** Where supply is sparser a rung never has a less specific band. */
  lemma SparserSupplySoftensBands(r: SupplyRung)
    ensures Coarseness(ProximityBandOf(r, RURAL)) <= Coarseness(ProximityBandOf(r, SUBURBAN)) <= Coarseness(ProximityBandOf(r, URBAN))
  {
  }

  /** The legacy tier is what the urban band says, its two outer bands taken together. */
  lemma LegacyTierIsTheUrbanBand(r: SupplyRung)
    ensures LegacyTier(r) == TIER_NEARBY <==> ProximityBandOf(r, URBAN) == BAND_NEARBY
    ensures LegacyTier(r) == TIER_CITY <==> ProximityBandOf(r, URBAN) == IN_YOUR_AREA
  {
  }
}
