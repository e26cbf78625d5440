/**
  Visa policy lookup (`TravelDocumentationService.get_visa_requirements`):
  a fixed table keyed by the ordered pair (origin, destination) of lower-cased
  country names, with a conservative "visa required" default for every pair
  the table does not list.
*/
module VisaPolicy {
  import opened Wrappers
  import opened Casing

  /**
    The facts a lookup returns. A field the table entry does not carry is
    `None`, as `dict.get` returns `None` for a missing key.
  */
  datatype Policy = Policy(
    visaRequired: bool,
    visaType: Option<string>,
    maxStay: Option<string>,
    processingTime: Option<string>,
    fee: Option<string>)

  /** A visa-free entry of the table: only the flag and the maximum stay. */
  function VisaFree(maxStay: string): Policy
  {
    Policy(false, None, Some(maxStay), None, None)
  }

  /** A visa-required entry: every field is present. */
  function VisaNeeded(visaType: string, maxStay: string, processingTime: string, fee: string): Policy
  {
    Policy(true, Some(visaType), Some(maxStay), Some(processingTime), Some(fee))
  }

  type CountryPair = (string, string)

  /** The bilateral table; it is directional, origin first. */
  const PolicyTable: map<CountryPair, Policy> := map[
    ("canada", "japan") := VisaFree("90 days"),
    ("canada", "uk") := VisaFree("6 months"),
    ("canada", "usa") := VisaFree("6 months"),
    ("canada", "germany") := VisaFree("90 days"),
    ("usa", "japan") := VisaFree("90 days"),
    ("usa", "uk") := VisaFree("6 months"),
    ("usa", "germany") := VisaFree("90 days"),
    ("china", "japan") := VisaNeeded("Tourist Visa", "30 days", "5-7 business days", "$30 USD"),
    ("india", "japan") := VisaNeeded("Tourist Visa", "90 days", "5-10 business days", "$50 USD"),
    ("china", "usa") := VisaNeeded("B-2 Tourist Visa", "6 months", "3-5 weeks", "$160 USD"),
    ("india", "usa") := VisaNeeded("B-2 Tourist Visa", "6 months", "3-5 weeks", "$160 USD")
  ]

  /** The pairs whose table entry says no visa is needed. */
  const VisaFreePairs: set<CountryPair> := {
    ("canada", "japan"), ("canada", "uk"), ("canada", "usa"), ("canada", "germany"),
    ("usa", "japan"), ("usa", "uk"), ("usa", "germany")
  }

  /** What an unlisted pair gets. */
  const DefaultPolicy: Policy := VisaNeeded("Tourist Visa", "30 days", "5-10 business days", "$50-150 USD")

  /** The lookup key: both names lower-cased, origin first. */
  function Key(fromCountry: string, toCountry: string): CountryPair
  {
    (Lower(fromCountry), Lower(toCountry))
  }

  /**
    The lookup. No visa is needed exactly for the listed visa-free pairs; a
    pair that is not listed never reads as visa-free; and whenever a visa is
    needed the policy names its type, processing time and fee.
  */
  function GetVisaRequirements(fromCountry: string, toCountry: string): (p: Policy)
    ensures !p.visaRequired <==> Key(fromCountry, toCountry) in VisaFreePairs
    ensures Key(fromCountry, toCountry) !in PolicyTable ==> p == DefaultPolicy
    ensures p.maxStay.Some?
    ensures p.visaRequired ==> p.visaType.Some? && p.processingTime.Some? && p.fee.Some?
  {
    var key := Key(fromCountry, toCountry);
    if key in PolicyTable then PolicyTable[key] else DefaultPolicy
  }

  /** The lookup sees only the lower-cased names: any spelling of the same pair gets the same policy. */
  lemma CaseInsensitive(fromCountry: string, toCountry: string)
    ensures GetVisaRequirements(fromCountry, toCountry) == GetVisaRequirements(Lower(fromCountry), Lower(toCountry))
  {
    LowerIdempotent(fromCountry);
    LowerIdempotent(toCountry);
  }

  /** Canada to Japan is listed as visa-free for 90 days. */
  lemma CanadaToJapanVisaFree()
    ensures GetVisaRequirements("Canada", "Japan") == VisaFree("90 days")
  {
    assert Lower("Canada") == "canada";
    assert Lower("Japan") == "japan";
  }

  /** The table is directional: Japan to Canada is not listed and falls to the default. */
  lemma JapanToCanadaDefault()
    ensures GetVisaRequirements("japan", "canada") == DefaultPolicy
  {
    assert Lower("japan") == "japan";
    assert Lower("canada") == "canada";
  }

  /** China to the USA needs a B-2 visa: six months' stay, three to five weeks, $160. */
  lemma ChinaToUsaB2Visa()
    ensures GetVisaRequirements("China", "USA") == VisaNeeded("B-2 Tourist Visa", "6 months", "3-5 weeks", "$160 USD")
  {
    assert Lower("China") == "china";
    assert Lower("USA") == "usa";
  }

  /** An unlisted pair such as Brazil to Kenya gets exactly the default policy. */
  lemma UnlistedPairGetsDefault()
    ensures var p := GetVisaRequirements("Brazil", "Kenya");
      p.visaRequired && p.visaType == Some("Tourist Visa") && p.maxStay == Some("30 days")
      && p.processingTime == Some("5-10 business days") && p.fee == Some("$50-150 USD")
  {
    assert Lower("Brazil") == "brazil";
    assert Lower("Kenya") == "kenya";
  }
}
