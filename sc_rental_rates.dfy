/**
 * The regional rent table for South Carolina: a fixed table of market areas,
 * each with the monthly rent of an 1800 sqft home and one multiplier per size
 * tier, and `get_rental_rate_for_location`, which picks the size tier, finds
 * the first market area whose keyword occurs in the address, and scales the
 * 1800 sqft rent to the property's size.
 */
module RegionalRents {
  import opened Wrappers
  import opened Text
  import opened Numeric

  datatype SizeTier = Small | Medium | Standard | Large | VeryLarge

  /** The size tier of a property: each tier holds exactly on its band of square footage. */
  function SizeTierOf(sqft: int): (tier: SizeTier)
    ensures tier == Small <==> sqft < 1000
    ensures tier == Medium <==> 1000 <= sqft < 1500
    ensures tier == Standard <==> 1500 <= sqft < 2000
    ensures tier == Large <==> 2000 <= sqft < 2500
    ensures tier == VeryLarge <==> 2500 <= sqft
  {
    if sqft < 1000 then Small
    else if sqft < 1500 then Medium
    else if sqft < 2000 then Standard
    else if sqft < 2500 then Large
    else VeryLarge
  }

  /** The order of the tiers, smallest first. */
  function TierRank(tier: SizeTier): nat {
    match tier
    case Small => 0
    case Medium => 1
    case Standard => 2
    case Large => 3
    case VeryLarge => 4
  }

  /** A larger property never falls in a smaller tier. */
  lemma SizeTierMonotone(sqft: int, sqft': int)
    requires sqft <= sqft'
    ensures TierRank(SizeTierOf(sqft)) <= TierRank(SizeTierOf(sqft'))
  {
  }

  /** The market areas of `SC_RENTAL_RATES`, one per key, in the order the table lists them. */
  datatype Area =
    | HiltonHead
    | Kiawah
    | IsleOfPalms
    | Seabrook
    | SullivansIsland
    | FrippIsland
    | DanielIsland
    | CharlestonDowntown
    | Charleston
    | MountPleasant
    | JamesIsland
    | WestAshley
    | Summerville
    | NorthCharleston
    | MyrtleBeach
    | NorthMyrtleBeach
    | LittleRiver
    | SurfsideBeach
    | Surfside
    | MurrellsInlet
    | PawleysIsland
    | GardenCity
    | Beaufort
    | Edisto
    | FollyBeach
    | Georgetown
    | Columbia
    | Lexington
    | Irmo
    | ForestAcres
    | Greenville
    | Spartanburg
    | Anderson
    | Clemson
    | Simpsonville
    | Greer
    | DefaultSC

  /** The area's key in `SC_RENTAL_RATES`, which the result reports as its location. */
  function AreaName(area: Area): string {
    match area
    case HiltonHead => "Hilton Head"
    case Kiawah => "Kiawah"
    case IsleOfPalms => "Isle of Palms"
    case Seabrook => "Seabrook"
    case SullivansIsland => "Sullivans Island"
    case FrippIsland => "Fripp Island"
    case DanielIsland => "Daniel Island"
    case CharlestonDowntown => "Charleston Downtown"
    case Charleston => "Charleston"
    case MountPleasant => "Mount Pleasant"
    case JamesIsland => "James Island"
    case WestAshley => "West Ashley"
    case Summerville => "Summerville"
    case NorthCharleston => "North Charleston"
    case MyrtleBeach => "Myrtle Beach"
    case NorthMyrtleBeach => "North Myrtle Beach"
    case LittleRiver => "Little River"
    case SurfsideBeach => "Surfside Beach"
    case Surfside => "Surfside"
    case MurrellsInlet => "Murrells Inlet"
    case PawleysIsland => "Pawleys Island"
    case GardenCity => "Garden City"
    case Beaufort => "Beaufort"
    case Edisto => "Edisto"
    case FollyBeach => "Folly Beach"
    case Georgetown => "Georgetown"
    case Columbia => "Columbia"
    case Lexington => "Lexington"
    case Irmo => "Irmo"
    case ForestAcres => "Forest Acres"
    case Greenville => "Greenville"
    case Spartanburg => "Spartanburg"
    case Anderson => "Anderson"
    case Clemson => "Clemson"
    case Simpsonville => "Simpsonville"
    case Greer => "Greer"
    case DefaultSC => "Default SC"
  }

  /** The area's `target_1800_sqft`: the monthly rent of an 1800 sqft home, between $1700 and $3600. */
  function Target1800Sqft(area: Area): (target: int)
    ensures 1700 <= target <= 3600
  {
    match area
    case HiltonHead => 3600
    case Kiawah => 3600
    case IsleOfPalms => 3600
    case Seabrook => 3600
    case SullivansIsland => 3500
    case FrippIsland => 3200
    case DanielIsland => 3400
    case CharlestonDowntown => 3400
    case Charleston => 2800
    case MountPleasant => 2700
    case JamesIsland => 2500
    case WestAshley => 2300
    case Summerville => 2200
    case NorthCharleston => 2000
    case MyrtleBeach => 2200
    case NorthMyrtleBeach => 2250
    case LittleRiver => 2100
    case SurfsideBeach => 2100
    case Surfside => 2100
    case MurrellsInlet => 2150
    case PawleysIsland => 2400
    case GardenCity => 2000
    case Beaufort => 2300
    case Edisto => 2200
    case FollyBeach => 2800
    case Georgetown => 2000
    case Columbia => 1950
    case Lexington => 1900
    case Irmo => 1850
    case ForestAcres => 2000
    case Greenville => 1900
    case Spartanburg => 1750
    case Anderson => 1700
    case Clemson => 1950
    case Simpsonville => 1850
    case Greer => 1800
    case DefaultSC => 2000
  }

  /** A market area's entry: the monthly rent of an 1800 sqft home, and a multiplier per size tier. */
  datatype MarketRate = MarketRate(target1800Sqft: int, tierMultipliers: map<SizeTier, real>)

  /** The tier multipliers, the same in every entry of the table. */
  const StandardMultipliers: map<SizeTier, real> :=
    map[Small := 1.19, Medium := 1.09, Standard := 1.0, Large := 0.89, VeryLarge := 0.78]

  /** `SC_RENTAL_RATES[area]`. */
  function ScRentalRate(area: Area): MarketRate {
    MarketRate(Target1800Sqft(area), StandardMultipliers)
  }

  /** The standard multipliers cover all five tiers, each with a positive factor. */
  lemma MultipliersComplete()
    ensures forall tier: SizeTier :: tier in StandardMultipliers && StandardMultipliers[tier] > 0.0
  {
    forall tier: SizeTier ensures tier in StandardMultipliers && StandardMultipliers[tier] > 0.0 {
      match tier
      case Small =>
      case Medium =>
      case Standard =>
      case Large =>
      case VeryLarge =>
    }
  }

  /** A larger tier never has a larger multiplier: bigger homes rent for less per square foot. */
  lemma MultipliersDecrease(tier: SizeTier, tier': SizeTier)
    requires TierRank(tier) <= TierRank(tier')
    ensures tier in StandardMultipliers && tier' in StandardMultipliers
    ensures StandardMultipliers[tier'] <= StandardMultipliers[tier]
  {
    MultipliersComplete();
  }

  /** A check: one keyword, or a list of keywords any one of which will do. */
  datatype LocationCheck = Keyword(keyword: string) | AnyKeyword(keywords: seq<string>)

  /** The location checks, in the order they are tried: specific areas before the general ones. */
  const LocationChecks: seq<(LocationCheck, Area)> := [
    (Keyword("HILTON HEAD"), HiltonHead),
    (Keyword("KIAWAH"), Kiawah),
    (Keyword("ISLE OF PALMS"), IsleOfPalms),
    (Keyword("SEABROOK"), Seabrook),
    (Keyword("SULLIVANS ISLAND"), SullivansIsland),
    (Keyword("FRIPP ISLAND"), FrippIsland),
    (Keyword("DANIEL ISLAND"), DanielIsland),
    (Keyword("FOLLY BEACH"), FollyBeach),
    (Keyword("JAMES ISLAND"), JamesIsland),
    (Keyword("WEST ASHLEY"), WestAshley),
    (Keyword("MOUNT PLEASANT"), MountPleasant),
    (Keyword("SUMMERVILLE"), Summerville),
    (Keyword("NORTH CHARLESTON"), NorthCharleston),
    (AnyKeyword(["DOWNTOWN", "PENINSULA", "BATTERY", "WATERFRONT"]), CharlestonDowntown),
    (Keyword("CHARLESTON"), Charleston),
    (Keyword("NORTH MYRTLE"), NorthMyrtleBeach),
    (Keyword("LITTLE RIVER"), LittleRiver),
    (Keyword("SURFSIDE"), Surfside),
    (Keyword("MURRELLS INLET"), MurrellsInlet),
    (Keyword("PAWLEYS ISLAND"), PawleysIsland),
    (Keyword("GARDEN CITY"), GardenCity),
    (Keyword("MYRTLE BEACH"), MyrtleBeach),
    (Keyword("BEAUFORT"), Beaufort),
    (Keyword("EDISTO"), Edisto),
    (Keyword("GEORGETOWN"), Georgetown),
    (Keyword("FOREST ACRES"), ForestAcres),
    (Keyword("LEXINGTON"), Lexington),
    (Keyword("IRMO"), Irmo),
    (Keyword("COLUMBIA"), Columbia),
    (Keyword("SIMPSONVILLE"), Simpsonville),
    (Keyword("GREER"), Greer),
    (Keyword("CLEMSON"), Clemson),
    (Keyword("SPARTANBURG"), Spartanburg),
    (Keyword("ANDERSON"), Anderson),
    (Keyword("GREENVILLE"), Greenville)
  ]

  /** A check matches when its keyword, or any one of its keywords, is a substring of the address. */
  predicate Matches(addressUpper: string, check: LocationCheck) {
    match check
    case Keyword(keyword) => Contains(addressUpper, keyword)
    case AnyKeyword(keywords) => ContainsAny(addressUpper, keywords)
  }

  /**
   * The position of the first check in `checks` that matches, or the number
   * of checks when none does.
   */
  function FirstMatch(addressUpper: string, checks: seq<(LocationCheck, Area)>): (k: nat)
    ensures k <= |checks|
  {
    if |checks| == 0 then 0
    else if Matches(addressUpper, checks[0].0) then 0
    else 1 + FirstMatch(addressUpper, checks[1..])
  }

  /** The first match matches, and no check before it does. */
  lemma {:induction false} FirstMatchSpec(addressUpper: string, checks: seq<(LocationCheck, Area)>)
    ensures var k := FirstMatch(addressUpper, checks);
            && (k < |checks| ==> Matches(addressUpper, checks[k].0))
            && (forall j :: 0 <= j < k ==> !Matches(addressUpper, checks[j].0))
  {
    if |checks| > 0 && !Matches(addressUpper, checks[0].0) {
      FirstMatchSpec(addressUpper, checks[1..]);
      var k := FirstMatch(addressUpper, checks);
      assert forall j :: 1 <= j < k ==> checks[j] == checks[1..][j - 1];
    }
  }

  /** The first match is the least matching position. */
  lemma FirstMatchIs(addressUpper: string, checks: seq<(LocationCheck, Area)>, k: nat)
    requires k <= |checks|
    requires k < |checks| ==> Matches(addressUpper, checks[k].0)
    requires forall j :: 0 <= j < k ==> !Matches(addressUpper, checks[j].0)
    ensures FirstMatch(addressUpper, checks) == k
  {
    FirstMatchSpec(addressUpper, checks);
  }

  /** The area named by the first check in `checks` that matches, else the default area. */
  function LocationIn(checks: seq<(LocationCheck, Area)>, addressUpper: string): Area {
    var k := FirstMatch(addressUpper, checks);
    if k < |checks| then checks[k].1 else DefaultSC
  }

  /** When no check matches, the address falls back to "Default SC". */
  lemma NoMatchFallsBack(addressUpper: string, checks: seq<(LocationCheck, Area)>)
    requires forall j :: 0 <= j < |checks| ==> !Matches(addressUpper, checks[j].0)
    ensures LocationIn(checks, addressUpper) == DefaultSC
  {
    FirstMatchIs(addressUpper, checks, |checks|);
  }

  /** The market area of an upper-cased address: the first check that matches, else "Default SC". */
  function LocationFor(addressUpper: string): Area {
    LocationIn(LocationChecks, addressUpper)
  }

  /** The area's rent per square foot for a tier: its 1800 sqft rent spread over 1800 sqft, times the tier's multiplier. */
  function RatePerSqft(data: MarketRate, tier: SizeTier): real
    requires tier in data.tierMultipliers
  {
    data.target1800Sqft as real / 1800.0 * data.tierMultipliers[tier]
  }

  /** With a non-negative 1800 sqft rent, a smaller multiplier gives a smaller rate. */
  lemma RateFollowsMultiplier(data: MarketRate, tier: SizeTier, tier': SizeTier)
    requires tier in data.tierMultipliers && tier' in data.tierMultipliers
    requires data.target1800Sqft >= 0
    requires data.tierMultipliers[tier'] <= data.tierMultipliers[tier]
    ensures RatePerSqft(data, tier') <= RatePerSqft(data, tier)
  {
    var base := data.target1800Sqft as real / 1800.0;
    ScaleMonotone(base, data.tierMultipliers[tier'], data.tierMultipliers[tier]);
  }

  /** The unrounded monthly rent of `sqft` square feet at the area's rate for the tier. */
  function RentAt(data: MarketRate, tier: SizeTier, sqft: int): real
    requires tier in data.tierMultipliers
  {
    sqft as real * RatePerSqft(data, tier)
  }

  /** The dictionary `get_rental_rate_for_location` returns. */
  datatype RentalRate = RentalRate(
    location: string,
    ratePerSqft: real,
    estimatedRent: real,
    sizeTier: SizeTier,
    baseline1800Sqft: int)

  /**
   * The rate reported for a property of `sqft` square feet in an area: the
   * rounded rate per square foot, the rent of `sqft` square feet at the
   * unrounded rate (then rounded), the size tier and the area's 1800 sqft
   * rent.
   */
  function RateFor(area: Area, sqft: int): RentalRate {
    var data := ScRentalRate(area);
    var tier := SizeTierOf(sqft);
    MultipliersComplete();
    RentalRate(AreaName(area), Round2(RatePerSqft(data, tier)), Round2(RentAt(data, tier, sqft)), tier, data.target1800Sqft)
  }

  /** The rate reports the area's key, the size tier and the area's 1800 sqft rent as they are. */
  lemma RateReportsArea(area: Area, sqft: int)
    ensures RateFor(area, sqft).location == AreaName(area)
    ensures RateFor(area, sqft).sizeTier == SizeTierOf(sqft)
    ensures RateFor(area, sqft).baseline1800Sqft == Target1800Sqft(area)
  {
  }

  /** What the lookup reports for an address: the rate of the area its upper-cased form resolves to. */
  function RentalRateOf(address: string, sqft: int): RentalRate {
    RateFor(LocationFor(ToUpper(address)), sqft)
  }

  /**
   * The location step of `get_rental_rate_for_location`: walks the checks in
   * order, stops at the first whose keyword occurs in the address and looks
   * its area up in the table, and falls back to "Default SC" when none does.
   */
  method MatchLocation(addressUpper: string, checks: seq<(LocationCheck, Area)>)
    returns (locationData: MarketRate, matchedLocation: Area)
    ensures matchedLocation == LocationIn(checks, addressUpper)
    ensures locationData == ScRentalRate(matchedLocation)
  {
    var found: Option<MarketRate> := None;
    matchedLocation := DefaultSC;
    var i := 0;
    while i < |checks|
      invariant 0 <= i <= |checks|
      invariant found == None
      invariant forall j :: 0 <= j < i ==> !Matches(addressUpper, checks[j].0)
    {
      var (check, locationName) := checks[i];
      if check.AnyKeyword? {
        if ContainsAny(addressUpper, check.keywords) {
          found := Some(ScRentalRate(locationName));
          matchedLocation := locationName;
          break;
        }
      } else {
        if Contains(addressUpper, check.keyword) {
          found := Some(ScRentalRate(locationName));
          matchedLocation := locationName;
          break;
        }
      }
      i := i + 1;
    }
    FirstMatchIs(addressUpper, checks, i);

    if found == None {
      found := Some(ScRentalRate(DefaultSC));
      matchedLocation := DefaultSC;
    }
    locationData := found.value;
  }

  /**
   * The pricing step of `get_rental_rate_for_location`: the area's 1800 sqft
   * rent spread over 1800 sqft and scaled by the tier's multiplier, and the
   * property's rent at that rate, both rounded to cents.
   */
  method PriceProperty(locationData: MarketRate, sizeTier: SizeTier, sqft: int)
    returns (ratePerSqft: real, estimatedRent: real)
    requires sizeTier in locationData.tierMultipliers
    ensures ratePerSqft == Round2(RatePerSqft(locationData, sizeTier))
    ensures estimatedRent == Round2(RentAt(locationData, sizeTier, sqft))
  {
    var baselineRent1800 := locationData.target1800Sqft;
    var tierMultiplier := locationData.tierMultipliers[sizeTier];
    var baselineRatePerSqft := baselineRent1800 as real / 1800.0;
    var adjustedRatePerSqft := baselineRatePerSqft * tierMultiplier;
    var unroundedRent := sqft as real * adjustedRatePerSqft;
    assert adjustedRatePerSqft == RatePerSqft(locationData, sizeTier);
    assert unroundedRent == RentAt(locationData, sizeTier, sqft);
    ratePerSqft := Round2(adjustedRatePerSqft);
    estimatedRent := Round2(unroundedRent);
  }

  /**
   * `get_rental_rate_for_location`: classifies the size, finds the area and
   * prices the property in it.
   */
  method GetRentalRateForLocation(address: string, sqft: int) returns (result: RentalRate)
    ensures result == RentalRateOf(address, sqft)
  {
    var addressUpper := ToUpper(address);
    var sizeTier := SizeTierOf(sqft);
    var locationData, matchedLocation := MatchLocation(addressUpper, LocationChecks);
    MultipliersComplete();
    var ratePerSqft, estimatedRent := PriceProperty(locationData, sizeTier, sqft);
    result := RentalRate(AreaName(matchedLocation), ratePerSqft, estimatedRent, sizeTier, locationData.target1800Sqft);
    assert RentalRateOf(address, sqft) == RateFor(matchedLocation, sqft);
  }

  /** An 1800 sqft property rents for exactly its area's 1800 sqft figure. */
  lemma BaselineAt1800(area: Area)
    ensures RateFor(area, 1800).estimatedRent == Target1800Sqft(area) as real
    ensures RateFor(area, 1800).baseline1800Sqft == Target1800Sqft(area)
  {
    var target := Target1800Sqft(area);
    assert 1800.0 * RatePerSqft(ScRentalRate(area), Standard) == target as real;
    Round2OfWhole(target);
  }

  /** Pricing a non-negative size at a non-negative rent and multiplier gives non-negative amounts. */
  lemma PriceNonNegative(data: MarketRate, tier: SizeTier, sqft: int)
    requires tier in data.tierMultipliers
    requires data.target1800Sqft >= 0 && data.tierMultipliers[tier] >= 0.0 && sqft >= 0
    ensures Round2(RatePerSqft(data, tier)) >= 0.0
    ensures Round2(RentAt(data, tier, sqft)) >= 0.0
  {
    ScaleMonotone(data.target1800Sqft as real / 1800.0, 0.0, data.tierMultipliers[tier]);
    ScaleMonotone(sqft as real, 0.0, RatePerSqft(data, tier));
    Round2NonNegative(RatePerSqft(data, tier));
    Round2NonNegative(RentAt(data, tier, sqft));
  }

  /** A property of non-negative size gets a non-negative rate and rent, in every area. */
  lemma RentNonNegative(area: Area, sqft: int)
    requires sqft >= 0
    ensures RateFor(area, sqft).ratePerSqft >= 0.0
    ensures RateFor(area, sqft).estimatedRent >= 0.0
  {
    MultipliersComplete();
    PriceNonNegative(ScRentalRate(area), SizeTierOf(sqft), sqft);
  }

  /** In one area, a larger property never gets a higher rate per square foot. */
  lemma RateDecreasesWithSize(area: Area, sqft: int, sqft': int)
    requires sqft <= sqft'
    ensures RateFor(area, sqft').ratePerSqft <= RateFor(area, sqft).ratePerSqft
  {
    var tier, tier' := SizeTierOf(sqft), SizeTierOf(sqft');
    SizeTierMonotone(sqft, sqft');
    MultipliersDecrease(tier, tier');
    var data := ScRentalRate(area);
    RateFollowsMultiplier(data, tier, tier');
    Round2Monotone(RatePerSqft(data, tier'), RatePerSqft(data, tier));
  }

  /** An address that no check matches falls back to "Default SC" and its 2000 baseline. */
  lemma NoMatchIsDefault(address: string, sqft: int)
    requires forall j :: 0 <= j < |LocationChecks| ==> !Matches(ToUpper(address), LocationChecks[j].0)
    ensures RentalRateOf(address, sqft).location == "Default SC"
    ensures RentalRateOf(address, sqft).baseline1800Sqft == 2000
  {
    NoMatchFallsBack(ToUpper(address), LocationChecks);
    RateReportsArea(DefaultSC, sqft);
  }

  /**
   * No check names "Surfside Beach", so no address resolves to it: an
   * address containing "SURFSIDE BEACH" matches the "SURFSIDE" check first.
   */
  lemma SurfsideBeachUnreachable(addressUpper: string)
    ensures LocationFor(addressUpper) != SurfsideBeach
  {
    assert forall j :: 0 <= j < |LocationChecks| ==> LocationChecks[j].1 != SurfsideBeach;
  }

  /**
   * "NORTH CHARLESTON" wins over the general "CHARLESTON" check: an address
   * naming it, and none of the twelve areas tried before it, is North
   * Charleston, although "CHARLESTON" occurs in it too.
   */
  lemma NorthCharlestonBeforeCharleston(addressUpper: string)
    requires Contains(addressUpper, "NORTH CHARLESTON")
    requires forall j :: 0 <= j < 12 ==> !Matches(addressUpper, LocationChecks[j].0)
    ensures LocationFor(addressUpper) == NorthCharleston
  {
    assert LocationChecks[12] == (Keyword("NORTH CHARLESTON"), NorthCharleston);
    FirstMatchIs(addressUpper, LocationChecks, 12);
  }

  /**
   * "NORTH MYRTLE" wins over "MYRTLE BEACH": an address naming it, and none
   * of the fifteen checks tried before it, is North Myrtle Beach.
   */
  lemma NorthMyrtleBeforeMyrtleBeach(addressUpper: string)
    requires Contains(addressUpper, "NORTH MYRTLE")
    requires forall j :: 0 <= j < 15 ==> !Matches(addressUpper, LocationChecks[j].0)
    ensures LocationFor(addressUpper) == NorthMyrtleBeach
  {
    assert LocationChecks[15] == (Keyword("NORTH MYRTLE"), NorthMyrtleBeach);
    FirstMatchIs(addressUpper, LocationChecks, 15);
  }

  /**
   * None of the twelve checks tried before "NORTH CHARLESTON" can match an
   * address without the letters I, B, M and Y.
   */
  lemma EarlyChecksNeedLetters(addressUpper: string)
    requires 'I' !in addressUpper && 'B' !in addressUpper && 'M' !in addressUpper && 'Y' !in addressUpper
    ensures forall j :: 0 <= j < 12 ==> !Matches(addressUpper, LocationChecks[j].0)
  {
    MissingChar(addressUpper, "HILTON HEAD", 1);
    MissingChar(addressUpper, "KIAWAH", 1);
    MissingChar(addressUpper, "ISLE OF PALMS", 0);
    MissingChar(addressUpper, "SEABROOK", 3);
    MissingChar(addressUpper, "SULLIVANS ISLAND", 4);
    MissingChar(addressUpper, "FRIPP ISLAND", 2);
    MissingChar(addressUpper, "DANIEL ISLAND", 3);
    MissingChar(addressUpper, "FOLLY BEACH", 4);
    MissingChar(addressUpper, "JAMES ISLAND", 2);
    MissingChar(addressUpper, "WEST ASHLEY", 10);
    MissingChar(addressUpper, "MOUNT PLEASANT", 0);
    MissingChar(addressUpper, "SUMMERVILLE", 2);
  }

  /** An address that names North Charleston and so also contains "CHARLESTON". */
  const NorthCharlestonAddress := "NORTH CHARLESTON, SC"

  /** It names North Charleston at its start. */
  lemma NorthCharlestonAddressNamed()
    ensures Contains(NorthCharlestonAddress, "NORTH CHARLESTON")
  {
    ContainsAt(NorthCharlestonAddress, "NORTH CHARLESTON", 0);
  }

  /** The letters that rule the earlier checks out are absent from it. */
  lemma NorthCharlestonAddressLetters()
    ensures 'I' !in NorthCharlestonAddress && 'B' !in NorthCharlestonAddress
    ensures 'M' !in NorthCharlestonAddress && 'Y' !in NorthCharlestonAddress
  {
  }

  /** "NORTH CHARLESTON, SC" is North Charleston, not Charleston. */
  lemma NorthCharlestonExample()
    ensures LocationFor(NorthCharlestonAddress) == NorthCharleston
  {
    NorthCharlestonAddressNamed();
    NorthCharlestonAddressLetters();
    EarlyChecksNeedLetters(NorthCharlestonAddress);
    NorthCharlestonBeforeCharleston(NorthCharlestonAddress);
  }
}
