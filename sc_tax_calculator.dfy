/**
 * The South Carolina rental property-tax resolver: detects the county of an
 * address (a state marker, then an ordered city-to-county table, then the
 * county names of the millage data), looks the county's millage rate up and
 * applies the fixed 6% assessment ratio, reporting `ok`, `county_not_found`
 * or `missing_value` with explicit nulls.
 */
module ScTax {
  import opened Wrappers
  import opened Text
  import opened Numeric

  /** `SCTaxCalculator.ASSESSMENT_RATIO`: rental property is assessed at 6% of its value. */
  const AssessmentRatio: real := 0.06

  /**
   * The millage data, in file order: each county's name and its
   * `millage_rate`, or None when its entry has no rate. An empty table is
   * what a missing or unreadable file leaves.
   */
  type MillageTable = seq<(string, Option<real>)>

  /** The city-to-county table, in the order its entries are tried. */
  const CityToCounty: seq<(string, string)> := [
    ("CHARLESTON", "Charleston County"),
    ("COLUMBIA", "Richland County"),
    ("GREENVILLE", "Greenville County"),
    ("MYRTLE BEACH", "Horry County"),
    ("LITTLE RIVER", "Horry County"),
    ("NORTH MYRTLE BEACH", "Horry County"),
    ("SURFSIDE BEACH", "Horry County"),
    ("GARDEN CITY", "Horry County"),
    ("PAWLEYS ISLAND", "Georgetown County"),
    ("HILTON HEAD", "Beaufort County"),
    ("HILTON HEAD ISLAND", "Beaufort County"),
    ("ROCK HILL", "York County"),
    ("MOUNT PLEASANT", "Charleston County"),
    ("SUMMERVILLE", "Dorchester County"),
    ("NORTH CHARLESTON", "Charleston County"),
    ("SPARTANBURG", "Spartanburg County"),
    ("FLORENCE", "Florence County"),
    ("ANDERSON", "Anderson County"),
    ("AIKEN", "Aiken County"),
    ("SUMTER", "Sumter County"),
    ("GOOSE CREEK", "Berkeley County"),
    ("LEXINGTON", "Lexington County"),
    ("CLEMSON", "Pickens County"),
    ("BEAUFORT", "Beaufort County"),
    ("CONWAY", "Horry County"),
    ("GREER", "Greenville County"),
    ("EASLEY", "Pickens County"),
    ("SIMPSONVILLE", "Greenville County"),
    ("HANAHAN", "Berkeley County"),
    ("MAULDIN", "Greenville County"),
    ("BLUFFTON", "Beaufort County"),
    ("WEST COLUMBIA", "Lexington County"),
    ("CAYCE", "Lexington County"),
    ("IRMO", "Lexington County"),
    ("FOLLY BEACH", "Charleston County"),
    ("ISLE OF PALMS", "Charleston County"),
    ("SULLIVAN'S ISLAND", "Charleston County"),
    ("JOHNS ISLAND", "Charleston County"),
    ("JAMES ISLAND", "Charleston County"),
    ("DANIEL ISLAND", "Charleston County"),
    ("KIAWAH ISLAND", "Charleston County"),
    ("SEABROOK ISLAND", "Charleston County")
  ]

  /** The address names South Carolina: it contains "SC" or "SOUTH CAROLINA" as a plain substring. */
  predicate HasStateMarker(addressUpper: string) {
    Contains(addressUpper, "SC") || Contains(addressUpper, "SOUTH CAROLINA")
  }

  /** The county of the first city in `cities` that occurs in the address, if any. */
  function CountyByCity(addressUpper: string, cities: seq<(string, string)>): (county: Option<string>)
    ensures county.Some? ==> exists i :: 0 <= i < |cities| && cities[i].1 == county.value
  {
    if |cities| == 0 then None
    else if Contains(addressUpper, cities[0].0) then Some(cities[0].1)
    else
      var rest := CountyByCity(addressUpper, cities[1..]);
      assert rest.Some? ==> exists i :: 0 <= i < |cities| && cities[i].1 == rest.value by {
        if rest.Some? {
          var i :| 0 <= i < |cities[1..]| && cities[1..][i].1 == rest.value;
          assert cities[i + 1].1 == rest.value;
        }
      }
      rest
  }

  /** The city search stops at the first city that occurs in the address. */
  lemma {:induction false} CountyByCityAt(addressUpper: string, cities: seq<(string, string)>, k: nat)
    requires k < |cities| && Contains(addressUpper, cities[k].0)
    requires forall j :: 0 <= j < k ==> !Contains(addressUpper, cities[j].0)
    ensures CountyByCity(addressUpper, cities) == Some(cities[k].1)
  {
    if k > 0 {
      assert forall j :: 0 <= j < k - 1 ==> cities[1..][j] == cities[j + 1];
      CountyByCityAt(addressUpper, cities[1..], k - 1);
    }
  }

  /** The city search finds nothing exactly when no city occurs in the address. */
  lemma {:induction false} CountyByCityNone(addressUpper: string, cities: seq<(string, string)>)
    ensures CountyByCity(addressUpper, cities).None? <==> forall j :: 0 <= j < |cities| ==> !Contains(addressUpper, cities[j].0)
  {
    if |cities| > 0 {
      CountyByCityNone(addressUpper, cities[1..]);
      assert forall j :: 1 <= j < |cities| ==> cities[j] == cities[1..][j - 1];
    }
  }

  /** `county_name.replace(' County', '').upper()`: the name searched for in the address. */
  function CountyBase(countyName: string): string {
    ToUpper(ReplaceAll(countyName, " County", ""))
  }

  /** The first county of the millage data whose base name occurs in the address, if any. */
  function CountyByName(addressUpper: string, millage: MillageTable): (county: Option<string>)
    ensures county.Some? ==> exists i :: 0 <= i < |millage| && millage[i].0 == county.value
                                         && Contains(addressUpper, CountyBase(county.value))
  {
    if |millage| == 0 then None
    else if Contains(addressUpper, CountyBase(millage[0].0)) then Some(millage[0].0)
    else
      var rest := CountyByName(addressUpper, millage[1..]);
      assert rest.Some? ==> exists i :: 0 <= i < |millage| && millage[i].0 == rest.value by {
        if rest.Some? {
          var i :| 0 <= i < |millage[1..]| && millage[1..][i].0 == rest.value;
          assert millage[i + 1].0 == rest.value;
        }
      }
      rest
  }

  /**
   * `_detect_county_from_address`: None for an empty address or one without
   * a state marker; otherwise the first city match, else the first county of
   * the millage data named in the address. A county it reports always comes
   * from one of the two tables.
   */
  function DetectCounty(address: string, millage: MillageTable): (county: Option<string>)
    ensures county.Some? ==> |address| > 0 && HasStateMarker(ToUpper(address))
    ensures county.Some? ==> (exists i :: 0 <= i < |CityToCounty| && CityToCounty[i].1 == county.value)
                             || (exists i :: 0 <= i < |millage| && millage[i].0 == county.value)
  {
    if |address| == 0 then None
    else
      var addressUpper := ToUpper(address);
      if !HasStateMarker(addressUpper) then None
      else
        match CountyByCity(addressUpper, CityToCounty)
        case Some(county) => Some(county)
        case None => CountyByName(addressUpper, millage)
  }

  /**
   * `millage_data.get(county)['millage_rate']`, None when the county has no
   * entry or its entry has no rate. As in a dictionary read from JSON, a
   * county listed twice keeps its last entry.
   */
  function MillageRateOf(millage: MillageTable, county: string): (rate: Option<real>)
    ensures rate.Some? ==> exists i :: 0 <= i < |millage| && millage[i] == (county, rate)
    ensures (forall i :: 0 <= i < |millage| ==> millage[i].0 != county) ==> rate.None?
  {
    if |millage| == 0 then None
    else if millage[|millage| - 1].0 == county then millage[|millage| - 1].1
    else
      var prefix := millage[..|millage| - 1];
      var rate := MillageRateOf(prefix, county);
      assert rate.Some? ==> exists i :: 0 <= i < |millage| && millage[i] == (county, rate) by {
        if rate.Some? {
          var i :| 0 <= i < |prefix| && prefix[i] == (county, rate);
          assert millage[i] == prefix[i];
        }
      }
      assert (forall i :: 0 <= i < |millage| ==> millage[i].0 != county) ==> rate.None? by {
        if forall i :: 0 <= i < |millage| ==> millage[i].0 != county {
          assert forall i :: 0 <= i < |prefix| ==> prefix[i] == millage[i];
        }
      }
      rate
  }

  /** Formula 1: the taxable value is the value times the assessment ratio. */
  function TaxableValue(propertyValue: real): real {
    propertyValue * AssessmentRatio
  }

  /** Formula 2: the annual taxes are the taxable value times the millage rate. */
  function AnnualTaxes(taxableValue: real, millageRate: real): real {
    taxableValue * millageRate
  }

  /** Formula 3: the monthly taxes are a twelfth of the annual taxes. */
  function MonthlyTaxes(annualTaxes: real): (monthly: real)
    ensures monthly * 12.0 == annualTaxes
  {
    annualTaxes / 12.0
  }

  /** The three outcomes of a tax calculation. */
  datatype TaxAccuracy = Ok | CountyNotFound | MissingValue

  /** The dictionary `calculate_sc_rental_tax` returns; None stands for null. */
  datatype TaxResult = TaxResult(
    countyName: Option<string>,
    millageRate: Option<real>,
    assessmentRatio: Option<real>,
    taxableValue: Option<real>,
    annualTaxes: Option<real>,
    monthlyTaxes: Option<real>,
    taxAccuracy: TaxAccuracy)

  /** Every numeric field is present. */
  predicate HasAllFigures(r: TaxResult) {
    r.millageRate.Some? && r.assessmentRatio.Some? && r.taxableValue.Some? && r.annualTaxes.Some? && r.monthlyTaxes.Some?
  }

  /** Every numeric field is null. */
  predicate HasNoFigures(r: TaxResult) {
    r.millageRate.None? && r.assessmentRatio.None? && r.taxableValue.None? && r.annualTaxes.None? && r.monthlyTaxes.None?
  }

  /** A property value the calculation accepts: present and positive. */
  predicate IsValidValue(propertyValue: Option<real>) {
    propertyValue.Some? && propertyValue.value > 0.0
  }

  /** The county a calculation uses: the detected one, unless none (or an empty name) was detected. */
  function UsableCounty(address: string, millage: MillageTable): Option<string> {
    var county := DetectCounty(address, millage);
    if county.Some? && |county.value| > 0 then county else None
  }

  /**
   * `calculate_sc_rental_tax`: `missing_value` for an absent or non-positive
   * value, before anything else; `county_not_found` with every field null
   * when no county is detected, or with only the county set when the
   * millage data has no rate for it; otherwise `ok` with the table's own
   * rate, the value assessed at 6%, the annual tax at that rate and a
   * twelfth of it per month.
   */
  function CalculateScRentalTax(address: string, propertyValue: Option<real>, millage: MillageTable): (r: TaxResult)
    ensures r.taxAccuracy == MissingValue <==> !IsValidValue(propertyValue)
    ensures r.taxAccuracy == MissingValue ==> r.countyName.None? && HasNoFigures(r)
    ensures r.taxAccuracy == CountyNotFound <==>
              IsValidValue(propertyValue)
              && (UsableCounty(address, millage).None?
                  || MillageRateOf(millage, UsableCounty(address, millage).value).None?)
    ensures r.taxAccuracy == CountyNotFound ==> r.countyName == UsableCounty(address, millage) && HasNoFigures(r)
    ensures r.taxAccuracy == Ok <==> HasAllFigures(r)
    ensures r.taxAccuracy == Ok ==>
              && r.countyName == UsableCounty(address, millage)
              && r.countyName.Some?
              && r.millageRate == MillageRateOf(millage, r.countyName.value)
              && r.assessmentRatio == Some(AssessmentRatio)
              && r.taxableValue == Some(TaxableValue(propertyValue.value))
              && r.annualTaxes == Some(AnnualTaxes(r.taxableValue.value, r.millageRate.value))
              && r.monthlyTaxes.value * 12.0 == r.annualTaxes.value
  {
    if !IsValidValue(propertyValue) then
      TaxResult(None, None, None, None, None, None, MissingValue)
    else
      var countyName := UsableCounty(address, millage);
      if countyName.None? then
        TaxResult(None, None, None, None, None, None, CountyNotFound)
      else
        match MillageRateOf(millage, countyName.value)
        case None => TaxResult(countyName, None, None, None, None, None, CountyNotFound)
        case Some(millageRate) =>
          var taxableValue := TaxableValue(propertyValue.value);
          var annualTaxes := AnnualTaxes(taxableValue, millageRate);
          var monthlyTaxes := MonthlyTaxes(annualTaxes);
          TaxResult(countyName, Some(millageRate), Some(AssessmentRatio), Some(taxableValue),
                    Some(annualTaxes), Some(monthlyTaxes), Ok)
  }

  /** Once a city matches, the millage data plays no part in the county detected. */
  lemma CityMatchIgnoresMillage(address: string, millage: MillageTable, millage': MillageTable)
    requires CountyByCity(ToUpper(address), CityToCounty).Some?
    ensures DetectCounty(address, millage) == DetectCounty(address, millage')
  {
  }

  /** Without millage data (the file missing or unreadable) no calculation is ever `ok`. */
  lemma NoMillageNeverOk(address: string, propertyValue: Option<real>)
    ensures CalculateScRentalTax(address, propertyValue, []).taxAccuracy != Ok
  {
    var county := UsableCounty(address, []);
    if county.Some? {
      assert MillageRateOf([], county.value).None?;
    }
  }

  /** Formulas 1 and 2 together never decrease in the value, at a non-negative rate. */
  lemma AnnualTaxesMonotone(value: real, value': real, millageRate: real)
    requires value <= value' && millageRate >= 0.0
    ensures AnnualTaxes(TaxableValue(value), millageRate) <= AnnualTaxes(TaxableValue(value'), millageRate)
  {
    ScaleMonotone(AssessmentRatio, value, value');
    ScaleMonotone(millageRate, TaxableValue(value), TaxableValue(value'));
  }

  /** With a non-negative millage rate, a larger value never owes less tax. */
  lemma TaxesGrowWithValue(address: string, value: real, value': real, millage: MillageTable)
    requires 0.0 < value <= value'
    requires CalculateScRentalTax(address, Some(value), millage).taxAccuracy == Ok
    requires CalculateScRentalTax(address, Some(value), millage).millageRate.value >= 0.0
    ensures CalculateScRentalTax(address, Some(value'), millage).taxAccuracy == Ok
    ensures CalculateScRentalTax(address, Some(value), millage).annualTaxes.value
            <= CalculateScRentalTax(address, Some(value'), millage).annualTaxes.value
  {
    var county := UsableCounty(address, millage);
    var rate := MillageRateOf(millage, county.value).value;
    AnnualTaxesMonotone(value, value', rate);
  }

  /**
   * The "WEST COLUMBIA" entry never decides: "COLUMBIA" comes earlier in
   * the table and occurs in every address that names West Columbia, so such
   * an address is placed in Charleston County (when it also names
   * Charleston) or Richland County, never Lexington County.
   */
  lemma WestColumbiaIsNeverLexington(address: string, millage: MillageTable)
    requires Contains(ToUpper(address), "WEST COLUMBIA") && HasStateMarker(ToUpper(address))
    ensures DetectCounty(address, millage) == Some("Charleston County")
            || DetectCounty(address, millage) == Some("Richland County")
  {
    var addressUpper := ToUpper(address);
    ContainsPiece(addressUpper, "WEST COLUMBIA", 5, 13);
    assert "WEST COLUMBIA"[5..13] == "COLUMBIA";
    assert CityToCounty[0] == ("CHARLESTON", "Charleston County");
    assert CityToCounty[1] == ("COLUMBIA", "Richland County");
    if Contains(addressUpper, "CHARLESTON") {
      CountyByCityAt(addressUpper, CityToCounty, 0);
    } else {
      CountyByCityAt(addressUpper, CityToCounty, 1);
    }
  }

  /** An address naming Myrtle Beach, and lacking the letters O and G of the three cities tried first, is in Horry County. */
  lemma MyrtleBeachCity(addressUpper: string)
    requires Contains(addressUpper, "MYRTLE BEACH") && 'O' !in addressUpper && 'G' !in addressUpper
    ensures CountyByCity(addressUpper, CityToCounty) == Some("Horry County")
  {
    MissingChar(addressUpper, "CHARLESTON", 8);
    MissingChar(addressUpper, "COLUMBIA", 1);
    MissingChar(addressUpper, "GREENVILLE", 0);
    assert CityToCounty[3] == ("MYRTLE BEACH", "Horry County");
    CountyByCityAt(addressUpper, CityToCounty, 3);
  }

  /** An address naming Hilton Head, and lacking the letters R, M and P of the nine cities tried first, is in Beaufort County. */
  lemma HiltonHeadCity(addressUpper: string)
    requires Contains(addressUpper, "HILTON HEAD")
    requires 'R' !in addressUpper && 'M' !in addressUpper && 'P' !in addressUpper
    ensures CountyByCity(addressUpper, CityToCounty) == Some("Beaufort County")
  {
    MissingChar(addressUpper, "CHARLESTON", 3);
    MissingChar(addressUpper, "COLUMBIA", 4);
    MissingChar(addressUpper, "GREENVILLE", 1);
    MissingChar(addressUpper, "MYRTLE BEACH", 0);
    MissingChar(addressUpper, "LITTLE RIVER", 11);
    MissingChar(addressUpper, "NORTH MYRTLE BEACH", 2);
    MissingChar(addressUpper, "SURFSIDE BEACH", 2);
    MissingChar(addressUpper, "GARDEN CITY", 2);
    MissingChar(addressUpper, "PAWLEYS ISLAND", 0);
    assert CityToCounty[9] == ("HILTON HEAD", "Beaufort County");
    CountyByCityAt(addressUpper, CityToCounty, 9);
  }

  /** The result for a positive value and a county the millage data has a rate for. */
  lemma TaxForCounty(address: string, value: real, millage: MillageTable, county: string, rate: real)
    requires value > 0.0
    requires UsableCounty(address, millage) == Some(county) && MillageRateOf(millage, county) == Some(rate)
    ensures CalculateScRentalTax(address, Some(value), millage)
            == TaxResult(Some(county), Some(rate), Some(AssessmentRatio), Some(TaxableValue(value)),
                         Some(AnnualTaxes(TaxableValue(value), rate)), Some(MonthlyTaxes(AnnualTaxes(TaxableValue(value), rate))), Ok)
  {
    var r := CalculateScRentalTax(address, Some(value), millage);
    assert r.taxAccuracy == Ok;
  }

  /** The result for a positive value and an address in which no county is detected. */
  lemma NoCountyForAddress(address: string, value: real, millage: MillageTable)
    requires value > 0.0 && DetectCounty(address, millage).None?
    ensures CalculateScRentalTax(address, Some(value), millage) == TaxResult(None, None, None, None, None, None, CountyNotFound)
  {
  }

  /** An address carrying the state marker is placed by the first city it names. */
  lemma DetectedByCity(address: string, millage: MillageTable, county: string)
    requires HasStateMarker(ToUpper(address)) && CountyByCity(ToUpper(address), CityToCounty) == Some(county)
    ensures DetectCounty(address, millage) == Some(county)
  {
  }

  /** An address without the state marker gets no county. */
  lemma NotDetectedWithoutMarker(address: string, millage: MillageTable)
    requires !HasStateMarker(ToUpper(address))
    ensures DetectCounty(address, millage).None?
  {
  }

  /** Both state markers contain a C, so an address without one has no marker. */
  lemma NoMarkerWithoutC(addressUpper: string)
    requires 'C' !in addressUpper
    ensures !HasStateMarker(addressUpper)
  {
    MissingChar(addressUpper, "SC", 1);
    MissingChar(addressUpper, "SOUTH CAROLINA", 6);
  }

  /** An address naming Columbia but not Charleston is in Richland County. */
  lemma ColumbiaCity(addressUpper: string)
    requires Contains(addressUpper, "COLUMBIA") && !Contains(addressUpper, "CHARLESTON")
    ensures CountyByCity(addressUpper, CityToCounty) == Some("Richland County")
  {
    assert CityToCounty[0] == ("CHARLESTON", "Charleston County");
    assert CityToCounty[1] == ("COLUMBIA", "Richland County");
    CountyByCityAt(addressUpper, CityToCounty, 1);
  }

  /** Addresses used by the worked cases below, as given and upper-cased. */
  const MyrtleBeachAddress := "Myrtle Beach, SC 29577"
  const MyrtleBeachUpper := "MYRTLE BEACH, SC 29577"
  const HiltonHeadIslandAddress := "Hilton Head Island, SC"
  const HiltonHeadIslandUpper := "HILTON HEAD ISLAND, SC"
  const WestColumbiaAddress := "West Columbia, SC"
  const WestColumbiaUpper := "WEST COLUMBIA, SC"
  const AustinAddress := "123 Main St, Austin, TX 78701"
  const AustinUpper := "123 MAIN ST, AUSTIN, TX 78701"

  lemma MyrtleBeachUpperCase()
    ensures ToUpper(MyrtleBeachAddress) == MyrtleBeachUpper
  {
  }

  /** What the upper-cased Myrtle Beach address contains, and which letters it lacks. */
  lemma MyrtleBeachUpperFacts()
    ensures Contains(MyrtleBeachUpper, "MYRTLE BEACH") && Contains(MyrtleBeachUpper, "SC")
    ensures 'O' !in MyrtleBeachUpper && 'G' !in MyrtleBeachUpper
  {
    ContainsAt(MyrtleBeachUpper, "MYRTLE BEACH", 0);
    ContainsAt(MyrtleBeachUpper, "SC", 14);
  }

  /** "Myrtle Beach, SC 29577" is in Horry County, whatever the millage data. */
  lemma MyrtleBeachIsHorry(millage: MillageTable)
    ensures DetectCounty(MyrtleBeachAddress, millage) == Some("Horry County")
  {
    MyrtleBeachUpperCase();
    MyrtleBeachUpperFacts();
    MyrtleBeachCity(MyrtleBeachUpper);
    DetectedByCity(MyrtleBeachAddress, millage, "Horry County");
  }

  /** A $400,000 property in Myrtle Beach is taxed on $24,000 at Horry County's own rate. */
  lemma MyrtleBeachTax(millage: MillageTable, rate: real)
    requires MillageRateOf(millage, "Horry County") == Some(rate)
    ensures CalculateScRentalTax(MyrtleBeachAddress, Some(400000.0), millage)
            == TaxResult(Some("Horry County"), Some(rate), Some(0.06), Some(24000.0),
                         Some(AnnualTaxes(24000.0, rate)), Some(MonthlyTaxes(AnnualTaxes(24000.0, rate))), Ok)
  {
    MyrtleBeachIsHorry(millage);
    assert UsableCounty(MyrtleBeachAddress, millage) == Some("Horry County");
    TaxForCounty(MyrtleBeachAddress, 400000.0, millage, "Horry County", rate);
    assert TaxableValue(400000.0) == 24000.0;
  }

  lemma HiltonHeadIslandUpperCase()
    ensures ToUpper(HiltonHeadIslandAddress) == HiltonHeadIslandUpper
  {
  }

  /** What the upper-cased Hilton Head Island address contains, and which letters it lacks. */
  lemma HiltonHeadIslandUpperFacts()
    ensures Contains(HiltonHeadIslandUpper, "HILTON HEAD") && Contains(HiltonHeadIslandUpper, "SC")
    ensures 'R' !in HiltonHeadIslandUpper && 'M' !in HiltonHeadIslandUpper && 'P' !in HiltonHeadIslandUpper
  {
    ContainsAt(HiltonHeadIslandUpper, "HILTON HEAD", 0);
    ContainsAt(HiltonHeadIslandUpper, "SC", 20);
  }

  /** "Hilton Head Island, SC" is in Beaufort County: the "HILTON HEAD" entry decides it. */
  lemma HiltonHeadIslandIsBeaufort(millage: MillageTable)
    ensures DetectCounty(HiltonHeadIslandAddress, millage) == Some("Beaufort County")
  {
    HiltonHeadIslandUpperCase();
    HiltonHeadIslandUpperFacts();
    HiltonHeadCity(HiltonHeadIslandUpper);
    DetectedByCity(HiltonHeadIslandAddress, millage, "Beaufort County");
  }

  /** A $600,000 property on Hilton Head Island is taxed on $36,000 at Beaufort County's own rate. */
  lemma HiltonHeadIslandTax(millage: MillageTable, rate: real)
    requires MillageRateOf(millage, "Beaufort County") == Some(rate)
    ensures CalculateScRentalTax(HiltonHeadIslandAddress, Some(600000.0), millage)
            == TaxResult(Some("Beaufort County"), Some(rate), Some(0.06), Some(36000.0),
                         Some(AnnualTaxes(36000.0, rate)), Some(MonthlyTaxes(AnnualTaxes(36000.0, rate))), Ok)
  {
    HiltonHeadIslandIsBeaufort(millage);
    assert UsableCounty(HiltonHeadIslandAddress, millage) == Some("Beaufort County");
    TaxForCounty(HiltonHeadIslandAddress, 600000.0, millage, "Beaufort County", rate);
    assert TaxableValue(600000.0) == 36000.0;
  }

  lemma WestColumbiaUpperCase()
    ensures ToUpper(WestColumbiaAddress) == WestColumbiaUpper
  {
  }

  /** What the upper-cased West Columbia address contains, and that it does not name Charleston. */
  lemma WestColumbiaUpperFacts()
    ensures Contains(WestColumbiaUpper, "COLUMBIA") && Contains(WestColumbiaUpper, "SC")
    ensures !Contains(WestColumbiaUpper, "CHARLESTON")
  {
    ContainsAt(WestColumbiaUpper, "COLUMBIA", 5);
    ContainsAt(WestColumbiaUpper, "SC", 15);
    MissingChar(WestColumbiaUpper, "CHARLESTON", 1);
  }

  /** "West Columbia, SC" is placed in Richland County, not Lexington County: "COLUMBIA" is tried first. */
  lemma WestColumbiaIsRichland(millage: MillageTable)
    ensures DetectCounty(WestColumbiaAddress, millage) == Some("Richland County")
  {
    WestColumbiaUpperCase();
    WestColumbiaUpperFacts();
    ColumbiaCity(WestColumbiaUpper);
    DetectedByCity(WestColumbiaAddress, millage, "Richland County");
  }

  lemma AustinUpperCase()
    ensures ToUpper(AustinAddress) == AustinUpper
  {
  }

  /** The upper-cased Texas address names neither "SC" nor "SOUTH CAROLINA". */
  lemma AustinUpperLacksC()
    ensures 'C' !in AustinUpper
  {
  }

  lemma AustinUpperFacts()
    ensures !HasStateMarker(AustinUpper)
  {
    AustinUpperLacksC();
    NoMarkerWithoutC(AustinUpper);
  }

  /** A Texas address has no state marker, so its result is `county_not_found` with every field null. */
  lemma AustinIsNotFound(millage: MillageTable)
    ensures CalculateScRentalTax(AustinAddress, Some(400000.0), millage)
            == TaxResult(None, None, None, None, None, None, CountyNotFound)
  {
    AustinUpperCase();
    AustinUpperFacts();
    NotDetectedWithoutMarker(AustinAddress, millage);
    NoCountyForAddress(AustinAddress, 400000.0, millage);
  }
}
