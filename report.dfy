/**
  Report assembly (`get_requirements`): converts the trip duration, builds
  the document list, splits it into required and optional entries keeping
  their order, and summarises the counts; a duration that cannot be
  converted yields a one-field error object instead.
*/
module Report {
  import opened Wrappers
  import opened Casing
  import opened VisaPolicy
  import opened Documents

  /** The `trip_duration` argument as the caller hands it over. */
  datatype DurationInput =
    | IntValue(n: int)
    | FloatValue(x: real)
    /** Anything `int()` rejects; `message` is the text of the exception it raises. */
    | Unconvertible(message: string)

  /** Python's `int(x)` on a float: drop the fraction, rounding toward zero. */
  function TruncateTowardZero(x: real): (n: int)
    ensures 0.0 <= x ==> 0 <= n && n as real <= x < n as real + 1.0
    ensures x < 0.0 ==> n <= 0 && n as real - 1.0 < x <= n as real
  {
    if x >= 0.0 then x.Floor else -((-x).Floor)
  }

  /**
    `int(trip_duration)`: `None` exactly where the conversion raises; an
    integer is kept and a float loses its fraction toward zero. No sign or
    range check is made.
  */
  function ConvertDuration(d: DurationInput): (r: Option<int>)
    ensures r.None? <==> d.Unconvertible?
    ensures d.IntValue? ==> r == Some(d.n)
    ensures d.FloatValue? ==>
      && r.Some?
      && (0.0 <= d.x ==> 0 <= r.value && r.value as real <= d.x < r.value as real + 1.0)
      && (d.x < 0.0 ==> r.value <= 0 && r.value as real - 1.0 < d.x <= r.value as real)
  {
    match d
    case IntValue(n) => Some(n)
    case FloatValue(x) => Some(TruncateTowardZero(x))
    case Unconvertible(_) => None
  }

  /** The echo of the request; names are title-cased for display. */
  datatype TripInfo = TripInfo(fromCountry: string, toCountry: string, durationDays: int, purpose: string)

  datatype Summary = Summary(requiredCount: nat, optionalCount: nat, visaNeeded: bool)

  /** The object `get_requirements` returns: a full report, or only an error message. */
  datatype Response =
    | Report(
        tripInfo: TripInfo,
        visaRequirements: Policy,
        requiredDocuments: seq<Document>,
        optionalDocuments: seq<Document>,
        totalDocuments: nat,
        summary: Summary)
    | Error(error: string)

  /** The required entries of `docs`, in their order. */
  function RequiredOf(docs: seq<Document>): (r: seq<Document>)
    ensures |r| <= |docs|
    ensures forall i :: 0 <= i < |r| ==> r[i].required
  {
    if docs == [] then []
    else (if docs[0].required then [docs[0]] else []) + RequiredOf(docs[1..])
  }

  /** The entries of `docs` that are not required, in their order. */
  function OptionalOf(docs: seq<Document>): (r: seq<Document>)
    ensures |r| <= |docs|
    ensures forall i :: 0 <= i < |r| ==> !r[i].required
  {
    if docs == [] then []
    else (if docs[0].required then [] else [docs[0]]) + OptionalOf(docs[1..])
  }

  /**
    Both filters distribute over concatenation, so each keeps the relative
    order of the entries it selects.
  */
  lemma {:induction false} RequiredOfDistributes(a: seq<Document>, b: seq<Document>)
    ensures RequiredOf(a + b) == RequiredOf(a) + RequiredOf(b)
  {
    if a == [] {
      assert a + b == b;
    } else {
      assert (a + b)[0] == a[0];
      assert (a + b)[1..] == a[1..] + b;
      RequiredOfDistributes(a[1..], b);
    }
  }

  lemma {:induction false} OptionalOfDistributes(a: seq<Document>, b: seq<Document>)
    ensures OptionalOf(a + b) == OptionalOf(a) + OptionalOf(b)
  {
    if a == [] {
      assert a + b == b;
    } else {
      assert (a + b)[0] == a[0];
      assert (a + b)[1..] == a[1..] + b;
      OptionalOfDistributes(a[1..], b);
    }
  }

  /** The required part holds exactly the required entries of the list, the optional part the others. */
  lemma {:induction false} FilterMembers(docs: seq<Document>, d: Document)
    ensures d in RequiredOf(docs) <==> d in docs && d.required
    ensures d in OptionalOf(docs) <==> d in docs && !d.required
  {
    if docs != [] {
      FilterMembers(docs[1..], d);
      assert docs == [docs[0]] + docs[1..];
    }
  }

  /** Every entry lands in exactly one of the two parts. */
  lemma {:induction false} PartitionSizes(docs: seq<Document>)
    ensures |RequiredOf(docs)| + |OptionalOf(docs)| == |docs|
  {
    if docs != [] {
      PartitionSizes(docs[1..]);
    }
  }

  /** A list of required entries passes the required filter whole and the optional one not at all. */
  lemma {:induction false} AllRequiredFilters(docs: seq<Document>)
    requires forall i :: 0 <= i < |docs| ==> docs[i].required
    ensures RequiredOf(docs) == docs
    ensures OptionalOf(docs) == []
  {
    if docs != [] {
      AllRequiredFilters(docs[1..]);
    }
  }

  /**
    `get_requirements`. A duration `int()` rejects gives exactly the error
    object; otherwise a report whose two parts hold the required and the
    optional entries of the document list, whose counts add up to the
    list's length, and whose visa flag is the lookup's.
  */
  function GetRequirements(fromCountry: string, toCountry: string, tripDuration: DurationInput, tripPurpose: string)
    : (r: Response)
    ensures r.Error? <==> tripDuration.Unconvertible?
    ensures tripDuration.Unconvertible? ==> r == Error(tripDuration.message)
    ensures r.Report? ==>
      var docs := DocumentList(fromCountry, toCountry, tripPurpose);
      var policy := GetVisaRequirements(fromCountry, toCountry);
      && r.totalDocuments == |docs|
      && r.summary.requiredCount == |r.requiredDocuments|
      && r.summary.optionalCount == |r.optionalDocuments|
      && r.summary.requiredCount + r.summary.optionalCount == r.totalDocuments
      && r.requiredDocuments == RequiredOf(docs)
      && r.optionalDocuments == OptionalOf(docs)
      && r.visaRequirements == policy
      && r.summary.visaNeeded == r.visaRequirements.visaRequired == policy.visaRequired
      && Some(r.tripInfo.durationDays) == ConvertDuration(tripDuration)
      && r.tripInfo.fromCountry == Title(fromCountry)
      && r.tripInfo.toCountry == Title(toCountry)
      && r.tripInfo.purpose == Title(tripPurpose)
      && Lower(r.tripInfo.fromCountry) == Lower(fromCountry)
      && Lower(r.tripInfo.toCountry) == Lower(toCountry)
      && Lower(r.tripInfo.purpose) == Lower(tripPurpose)
  {
    match ConvertDuration(tripDuration)
    case None => Error(tripDuration.message)
    case Some(days) =>
      var requirements := DocumentList(fromCountry, toCountry, tripPurpose);
      var visaInfo := GetVisaRequirements(fromCountry, toCountry);
      var requiredDocs := RequiredOf(requirements);
      var optionalDocs := OptionalOf(requirements);
      PartitionSizes(requirements);
      LowerOfTitle(fromCountry);
      LowerOfTitle(toCountry);
      LowerOfTitle(tripPurpose);
      Report(
        TripInfo(Title(fromCountry), Title(toCountry), days, Title(tripPurpose)),
        visaInfo,
        requiredDocs,
        optionalDocs,
        |requirements|,
        Summary(|requiredDocs|, |optionalDocs|, visaInfo.visaRequired))
  }

  /** Filtering a list whose entries are all required except perhaps one. */
  lemma FilterAroundOne(a: seq<Document>, x: Document, b: seq<Document>)
    requires forall i :: 0 <= i < |a| ==> a[i].required
    requires forall i :: 0 <= i < |b| ==> b[i].required
    ensures RequiredOf(a + [x] + b) == if x.required then a + [x] + b else a + b
    ensures OptionalOf(a + [x] + b) == if x.required then [] else [x]
  {
    AllRequiredFilters(a);
    AllRequiredFilters(b);
    assert [x][1..] == [];
    RequiredOfDistributes(a + [x], b);
    RequiredOfDistributes(a, [x]);
    OptionalOfDistributes(a + [x], b);
    OptionalOfDistributes(a, [x]);
    if x.required {
      assert RequiredOf([x]) == [x];
      assert OptionalOf([x]) == [];
    } else {
      assert RequiredOf([x]) == [];
      assert OptionalOf([x]) == [x];
      assert a + [] == a;
    }
  }

  /**
    The split of a document list: the optional part is the recommended
    insurance entry when the destination does not mandate insurance and is
    empty otherwise; the required part is the whole list without that entry.
  */
  lemma ListPartition(policy: Policy, toCountry: string, purpose: Purpose)
    ensures var docs := BuildList(policy, toCountry, purpose);
      var k := InsuranceIndex(policy);
      && k < |docs|
      && OptionalOf(docs) == (if InsuranceRequired(toCountry) then [] else [RecommendedInsuranceEntry])
      && RequiredOf(docs) == (if InsuranceRequired(toCountry) then docs else docs[..k] + docs[k + 1..])
  {
    var docs := BuildList(policy, toCountry, purpose);
    var k := InsuranceIndex(policy);
    var before := [PassportEntry] + VisaDocuments(policy);
    var after := [TicketEntry, FundsEntry(toCountry), AccommodationEntry] + PurposeDocuments(purpose);
    assert docs == before + [InsuranceEntry(toCountry)] + after;
    assert |before| == k;
    FilterAroundOne(before, InsuranceEntry(toCountry), after);
    assert docs[..k] == before && docs[k + 1..] == after;
  }

  /**
    In every report the optional part is the recommended insurance entry or
    nothing, so the optional count is 0 for a destination that mandates
    insurance and 1 otherwise, and the required count is the rest.
  */
  lemma ReportPartition(fromCountry: string, toCountry: string, tripDuration: DurationInput, tripPurpose: string)
    requires !tripDuration.Unconvertible?
    ensures var r := GetRequirements(fromCountry, toCountry, tripDuration, tripPurpose);
      var docs := DocumentList(fromCountry, toCountry, tripPurpose);
      var k := InsuranceIndex(GetVisaRequirements(fromCountry, toCountry));
      && r.Report?
      && k < |docs|
      && r.optionalDocuments == (if InsuranceRequired(toCountry) then [] else [RecommendedInsuranceEntry])
      && r.requiredDocuments == (if InsuranceRequired(toCountry) then docs else docs[..k] + docs[k + 1..])
      && r.summary.optionalCount == (if InsuranceRequired(toCountry) then 0 else 1)
      && r.summary.requiredCount == r.totalDocuments - r.summary.optionalCount
  {
    ListPartition(GetVisaRequirements(fromCountry, toCountry), toCountry, ClassifyPurpose(tripPurpose));
  }

  /** The duration is only echoed: two convertible durations give reports that differ in nothing else. */
  lemma DurationOnlyEchoed(fromCountry: string, toCountry: string, d1: DurationInput, d2: DurationInput, tripPurpose: string)
    requires !d1.Unconvertible? && !d2.Unconvertible?
    ensures var r1 := GetRequirements(fromCountry, toCountry, d1, tripPurpose);
      var r2 := GetRequirements(fromCountry, toCountry, d2, tripPurpose);
      r1 == r2.(tripInfo := r2.tripInfo.(durationDays := r1.tripInfo.durationDays))
  {
  }

  /**
    A visa-free trip to a destination that does not mandate insurance, for a
    purpose with no extra documents: five entries, four of them required,
    and the insurance entry the only optional one.
  */
  lemma VisaFreeOrdinaryTrip(fromCountry: string, toCountry: string, tripDuration: DurationInput, tripPurpose: string)
    requires !tripDuration.Unconvertible?
    requires !GetVisaRequirements(fromCountry, toCountry).visaRequired
    requires !InsuranceRequired(toCountry)
    requires ClassifyPurpose(tripPurpose) == OtherPurpose
    ensures var r := GetRequirements(fromCountry, toCountry, tripDuration, tripPurpose);
      && r.Report?
      && r.totalDocuments == 5
      && r.requiredDocuments == [PassportEntry, TicketEntry, FundsEntry(toCountry), AccommodationEntry]
      && r.optionalDocuments == [RecommendedInsuranceEntry]
      && r.summary == Summary(4, 1, false)
  {
    var docs := DocumentList(fromCountry, toCountry, tripPurpose);
    assert docs == [PassportEntry, RecommendedInsuranceEntry, TicketEntry, FundsEntry(toCountry), AccommodationEntry];
    ReportPartition(fromCountry, toCountry, tripDuration, tripPurpose);
  }

  /**
    A business trip that needs a visa, to a destination that does not mandate
    insurance: seven entries, six of them required with the visa second and
    the invitation letter last, and the insurance entry the only optional one.
  */
  lemma VisaBusinessTrip(fromCountry: string, toCountry: string, tripDuration: DurationInput, tripPurpose: string)
    requires !tripDuration.Unconvertible?
    requires GetVisaRequirements(fromCountry, toCountry).visaRequired
    requires !InsuranceRequired(toCountry)
    requires ClassifyPurpose(tripPurpose) == Business
    ensures var r := GetRequirements(fromCountry, toCountry, tripDuration, tripPurpose);
      var policy := GetVisaRequirements(fromCountry, toCountry);
      && r.Report?
      && r.totalDocuments == 7
      && r.requiredDocuments
         == [PassportEntry, VisaEntry(policy), TicketEntry, FundsEntry(toCountry), AccommodationEntry, InvitationEntry]
      && r.optionalDocuments == [RecommendedInsuranceEntry]
      && r.summary == Summary(6, 1, true)
  {
    var policy := GetVisaRequirements(fromCountry, toCountry);
    var docs := DocumentList(fromCountry, toCountry, tripPurpose);
    assert docs == [PassportEntry, VisaEntry(policy), RecommendedInsuranceEntry, TicketEntry, FundsEntry(toCountry),
                    AccommodationEntry, InvitationEntry];
    ReportPartition(fromCountry, toCountry, tripDuration, tripPurpose);
  }

  /** Japan does not mandate insurance and is a high-cost destination. */
  lemma JapanDestination()
    ensures !InsuranceRequired("Japan") && FinancialAmount("Japan") == "$100-150 per day"
  {
    assert Lower("Japan") == "japan";
  }

  /** The USA does not mandate insurance and takes the standard daily amount. */
  lemma UsaDestination()
    ensures !InsuranceRequired("USA") && FinancialAmount("USA") == "$50-100 per day"
  {
    assert Lower("USA") == "usa";
  }

  /** A tourism trip adds no purpose documents. */
  lemma TourismIsOrdinary()
    ensures ClassifyPurpose("tourism") == OtherPurpose
  {
    assert Lower("tourism") == "tourism";
  }

  /** Any casing of "business" selects the invitation letter. */
  lemma BusinessIsBusiness()
    ensures ClassifyPurpose("business") == Business && ClassifyPurpose("Business") == Business
  {
    assert Lower("business") == "business";
    assert Lower("Business") == "business";
  }

  /**
    Canada to Japan for ten days of tourism: no visa (90 days' stay), five
    documents, the insurance entry the only optional one, and the higher
    daily amount for Japan.
  */
  lemma CanadaToJapanTourism()
    ensures var r := GetRequirements("Canada", "Japan", IntValue(10), "tourism");
      && r.Report?
      && r.visaRequirements == VisaFree("90 days")
      && r.totalDocuments == 5
      && r.requiredDocuments == [PassportEntry, TicketEntry, FundsEntry("Japan"), AccommodationEntry]
      && r.optionalDocuments == [RecommendedInsuranceEntry]
      && r.summary == Summary(4, 1, false)
      && FinancialAmount("Japan") == "$100-150 per day"
  {
    CanadaToJapanVisaFree();
    JapanDestination();
    TourismIsOrdinary();
    VisaFreeOrdinaryTrip("Canada", "Japan", IntValue(10), "tourism");
  }

  /**
    China to the USA for twenty days of business: a B-2 visa for $160, seven
    documents of which six are required, the insurance entry optional
    (the USA does not mandate it), and the standard daily amount.
  */
  lemma ChinaToUsaBusiness()
    ensures var r := GetRequirements("China", "USA", IntValue(20), "business");
      var policy := VisaNeeded("B-2 Tourist Visa", "6 months", "3-5 weeks", "$160 USD");
      && r.Report?
      && r.visaRequirements == policy
      && r.totalDocuments == 7
      && r.requiredDocuments
         == [PassportEntry, VisaEntry(policy), TicketEntry, FundsEntry("USA"), AccommodationEntry, InvitationEntry]
      && r.optionalDocuments == [RecommendedInsuranceEntry]
      && r.summary == Summary(6, 1, true)
      && FinancialAmount("USA") == "$50-100 per day"
  {
    ChinaToUsaB2Visa();
    UsaDestination();
    BusinessIsBusiness();
    VisaBusinessTrip("China", "USA", IntValue(20), "business");
  }
}
