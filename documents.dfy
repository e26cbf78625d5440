/**
  The document list builder (`TravelDocumentationService.get_document_requirements`):
  a fixed sequence of entries, some of them present, required or worded
  according to the destination, the visa lookup and the trip purpose.
*/
module Documents {
  import opened Wrappers
  import opened Casing
  import opened VisaPolicy

  /** The kinds of entry the builder can emit; `Name` is the `document_type` text of each. */
  datatype DocumentKind =
    | Passport
    | Visa
    | TravelInsurance
    | ReturnTicket
    | FinancialProof
    | AccommodationProof
    | BusinessInvitationLetter
    | StudentPermit
    | AcceptanceLetter
  {
    function Name(): string
    {
      match this
      case Passport => "Passport"
      case Visa => "Visa"
      case TravelInsurance => "Travel Insurance"
      case ReturnTicket => "Return/Onward Ticket"
      case FinancialProof => "Financial Proof"
      case AccommodationProof => "Accommodation Proof"
      case BusinessInvitationLetter => "Business Invitation Letter"
      case StudentPermit => "Student Visa/Permit"
      case AcceptanceLetter => "Acceptance Letter"
    }
  }

  /** The fixed sentences of the entries; `Render` is the exact text of each. */
  datatype Sentence =
    | PassportDescription
    | PassportValidity
    | PassportNotes
    | MandatoryInsuranceDescription
    | MandatoryInsuranceNotes
    | RecommendedInsuranceDescription
    | RecommendedInsuranceNotes
    | TicketDescription
    | TicketNotes
    | FundsNotes
    | AccommodationDescription
    | AccommodationNotes
    | InvitationDescription
    | InvitationNotes
    | PermitDescription
    | PermitNotes
    | AcceptanceDescription
    | AcceptanceNotes
  {
    function Render(): string
    {
      match this
      case PassportDescription => "Valid passport with at least 6 months validity remaining"
      case PassportValidity => "At least 6 months from travel date"
      case PassportNotes => "Must have at least 2 blank pages for stamps"
      // The source file holds the euro sign mis-encoded; the text keeps it as written.
      case MandatoryInsuranceDescription => "Travel insurance with minimum â‚¬30,000 coverage"
      case MandatoryInsuranceNotes => "Required for Schengen area countries"
      case RecommendedInsuranceDescription => "Travel insurance (highly recommended)"
      case RecommendedInsuranceNotes => "Covers medical emergencies, trip cancellation, etc."
      case TicketDescription => "Proof of return or onward travel"
      case TicketNotes => "Flight confirmation or travel itinerary"
      case FundsNotes => "Bank statements, credit cards, or traveler's checks"
      case AccommodationDescription => "Hotel booking or invitation letter"
      case AccommodationNotes => "Confirmation of where you'll be staying"
      case InvitationDescription => "Letter from host company"
      case InvitationNotes => "Must include company details and purpose of visit"
      case PermitDescription => "Student visa or study permit"
      case PermitNotes => "Issued by educational institution"
      case AcceptanceDescription => "Letter of acceptance from educational institution"
      case AcceptanceNotes => "Must be from recognized institution"
    }
  }

  /** A text field of an entry: a fixed sentence, or one of the three interpolated forms. */
  datatype Text =
    | Fixed(sentence: Sentence)
    | RequiredVisa(visaType: string)
    | VisaFee(fee: string)
    | SufficientFunds(amount: string)
  {
    function Render(): string
    {
      match this
      case Fixed(s) => s.Render()
      case RequiredVisa(t) => "Required " + t
      case VisaFee(f) => "Fee: " + f
      case SufficientFunds(a) => "Proof of sufficient funds (" + a + ")"
    }
  }

  /**
    One entry of the list. `additionalNotes` is on every entry; the validity
    period only on the passport and the processing time only on the visa.
  */
  datatype Document = Document(
    documentType: DocumentKind,
    required: bool,
    description: Text,
    validityPeriod: Option<Text>,
    processingTime: Option<string>,
    additionalNotes: Text)

  const PassportEntry: Document :=
    Document(Passport, true, Fixed(PassportDescription), Some(Fixed(PassportValidity)), None, Fixed(PassportNotes))

  /**
    The visa entry for a policy: it names the policy's visa type, processing
    time and fee, with the same fallbacks as the source for absent fields.
  */
  function VisaEntry(policy: Policy): Document
  {
    Document(Visa, true,
             RequiredVisa(policy.visaType.GetOr("Tourist Visa")),
             None, Some(policy.processingTime.GetOr("5-10 business days")),
             VisaFee(policy.fee.GetOr("Varies by embassy")))
  }

  /** The destinations, lower-cased, for which travel insurance is mandatory. */
  const InsuranceRequiredCountries: seq<string> :=
    ["schengen", "germany", "france", "italy", "spain", "netherlands", "austria", "belgium"]

  predicate InsuranceRequired(toCountry: string)
  {
    Lower(toCountry) in InsuranceRequiredCountries
  }

  const MandatoryInsuranceEntry: Document :=
    Document(TravelInsurance, true, Fixed(MandatoryInsuranceDescription), None, None, Fixed(MandatoryInsuranceNotes))

  const RecommendedInsuranceEntry: Document :=
    Document(TravelInsurance, false, Fixed(RecommendedInsuranceDescription), None, None, Fixed(RecommendedInsuranceNotes))

  function InsuranceEntry(toCountry: string): Document
  {
    if InsuranceRequired(toCountry) then MandatoryInsuranceEntry else RecommendedInsuranceEntry
  }

  const TicketEntry: Document :=
    Document(ReturnTicket, true, Fixed(TicketDescription), None, None, Fixed(TicketNotes))

  /** The destinations, lower-cased, that call for the higher daily amount. */
  const HighCostCountries: seq<string> := ["japan", "switzerland", "norway"]

  const HighDailyAmount: string := "$100-150 per day"
  const StandardDailyAmount: string := "$50-100 per day"

  function FinancialAmount(toCountry: string): string
  {
    if Lower(toCountry) in HighCostCountries then HighDailyAmount else StandardDailyAmount
  }

  function FundsEntry(toCountry: string): Document
  {
    Document(FinancialProof, true, SufficientFunds(FinancialAmount(toCountry)), None, None, Fixed(FundsNotes))
  }

  const AccommodationEntry: Document :=
    Document(AccommodationProof, true, Fixed(AccommodationDescription), None, None, Fixed(AccommodationNotes))

  const InvitationEntry: Document :=
    Document(BusinessInvitationLetter, true, Fixed(InvitationDescription), None, None, Fixed(InvitationNotes))

  const PermitEntry: Document :=
    Document(StudentPermit, true, Fixed(PermitDescription), None, None, Fixed(PermitNotes))

  const AcceptanceEntry: Document :=
    Document(AcceptanceLetter, true, Fixed(AcceptanceDescription), None, None, Fixed(AcceptanceNotes))

  /** The trip purposes the builder tells apart; every other purpose adds nothing. */
  datatype Purpose = Business | Study | OtherPurpose

  /** The purpose text is compared after lower-casing, "business" first. */
  function ClassifyPurpose(tripPurpose: string): Purpose
  {
    if Lower(tripPurpose) == "business" then Business
    else if Lower(tripPurpose) == "study" then Study
    else OtherPurpose
  }

  /** The entries a trip purpose adds at the end of the list. */
  function PurposeDocuments(purpose: Purpose): seq<Document>
  {
    match purpose
    case Business => [InvitationEntry]
    case Study => [PermitEntry, AcceptanceEntry]
    case OtherPurpose => []
  }

  /** The visa entry, present only when the policy says a visa is required. */
  function VisaDocuments(policy: Policy): seq<Document>
  {
    if policy.visaRequired then [VisaEntry(policy)] else []
  }

  /**
    The list for a resolved policy, in its fixed order: passport, visa if
    required, insurance, ticket, funds, accommodation, purpose extras.
  */
  function BuildList(policy: Policy, toCountry: string, purpose: Purpose): seq<Document>
  {
    [PassportEntry]
    + VisaDocuments(policy)
    + [InsuranceEntry(toCountry), TicketEntry, FundsEntry(toCountry), AccommodationEntry]
    + PurposeDocuments(purpose)
  }

  /** The full list for a trip; the reference definition the builder is proved against. */
  function DocumentList(fromCountry: string, toCountry: string, tripPurpose: string): seq<Document>
  {
    BuildList(GetVisaRequirements(fromCountry, toCountry), toCountry, ClassifyPurpose(tripPurpose))
  }

  /** Index of the Travel Insurance entry: after the passport and the visa entry if any. */
  function InsuranceIndex(policy: Policy): nat
  {
    if policy.visaRequired then 2 else 1
  }

  /**
    The builder: it starts from the empty list and appends entry after entry.
    The trip duration is accepted and has no effect on the result.
  */
  method GetDocumentRequirements(fromCountry: string, toCountry: string, tripDuration: int, tripPurpose: string)
    returns (requirements: seq<Document>)
    ensures requirements == DocumentList(fromCountry, toCountry, tripPurpose)
  {
    requirements := [];
    requirements := requirements + [PassportEntry];

    var visaInfo := GetVisaRequirements(fromCountry, toCountry);
    if visaInfo.visaRequired {
      requirements := requirements + [VisaEntry(visaInfo)];
    }

    if Lower(toCountry) in InsuranceRequiredCountries {
      requirements := requirements + [MandatoryInsuranceEntry];
    } else {
      requirements := requirements + [RecommendedInsuranceEntry];
    }
    assert requirements == [PassportEntry] + VisaDocuments(visaInfo) + [InsuranceEntry(toCountry)];

    requirements := requirements + [TicketEntry];

    var financialAmount := if Lower(toCountry) in HighCostCountries then HighDailyAmount else StandardDailyAmount;
    requirements := requirements + [Document(FinancialProof, true, SufficientFunds(financialAmount), None, None, Fixed(FundsNotes))];

    requirements := requirements + [AccommodationEntry];
    assert requirements == [PassportEntry] + VisaDocuments(visaInfo)
      + [InsuranceEntry(toCountry), TicketEntry, FundsEntry(toCountry), AccommodationEntry];

    if Lower(tripPurpose) == "business" {
      requirements := requirements + [InvitationEntry];
    } else if Lower(tripPurpose) == "study" {
      requirements := requirements + [PermitEntry];
      requirements := requirements + [AcceptanceEntry];
    }
  }

  lemma PassportFirst(policy: Policy, toCountry: string, purpose: Purpose)
    ensures var docs := BuildList(policy, toCountry, purpose);
      |docs| > 0 && docs[0] == PassportEntry && docs[0].documentType == Passport && docs[0].required
  {
  }

  /**
    A Visa entry appears iff the policy says a visa is required; it is then
    the second entry, required, and interpolates the policy's visa type,
    processing time and fee.
  */
  lemma VisaEntryIffRequired(policy: Policy, toCountry: string, purpose: Purpose)
    ensures var docs := BuildList(policy, toCountry, purpose);
      && ((exists i :: 0 <= i < |docs| && docs[i].documentType == Visa) <==> policy.visaRequired)
      && (policy.visaRequired ==>
            && docs[1] == VisaEntry(policy)
            && docs[1].required
            && docs[1].description.Render() == "Required " + policy.visaType.GetOr("Tourist Visa")
            && docs[1].processingTime == Some(policy.processingTime.GetOr("5-10 business days"))
            && docs[1].additionalNotes.Render() == "Fee: " + policy.fee.GetOr("Varies by embassy"))
  {
    var docs := BuildList(policy, toCountry, purpose);
    var tail := [InsuranceEntry(toCountry), TicketEntry, FundsEntry(toCountry), AccommodationEntry]
                + PurposeDocuments(purpose);
    assert docs == [PassportEntry] + VisaDocuments(policy) + tail;
    assert forall i :: 0 <= i < |tail| ==> tail[i].documentType != Visa;
    if policy.visaRequired {
      assert docs[1].documentType == Visa;
    } else {
      assert docs == [PassportEntry] + tail;
      forall i | 0 <= i < |docs| ensures docs[i].documentType != Visa {
        if i > 0 { assert docs[i] == tail[i - 1]; }
      }
    }
  }

  /**
    For a looked-up policy the fallbacks of the Visa entry never apply: its
    description and notes carry the policy's own visa type and fee.
  */
  lemma VisaEntryUsesLookup(fromCountry: string, toCountry: string, tripPurpose: string)
    ensures var policy := GetVisaRequirements(fromCountry, toCountry);
      var docs := DocumentList(fromCountry, toCountry, tripPurpose);
      policy.visaRequired ==>
        && docs[1].description.Render() == "Required " + policy.visaType.value
        && docs[1].processingTime == policy.processingTime
        && docs[1].additionalNotes.Render() == "Fee: " + policy.fee.value
  {
    VisaEntryIffRequired(GetVisaRequirements(fromCountry, toCountry), toCountry, ClassifyPurpose(tripPurpose));
  }

  /**
    Exactly one entry is Travel Insurance: the one right after the passport
    and the visa entry if any. It is required iff the lower-cased destination
    is in the fixed membership list.
  */
  lemma TravelInsuranceExactlyOnce(policy: Policy, toCountry: string, purpose: Purpose)
    ensures var docs := BuildList(policy, toCountry, purpose);
      var k := InsuranceIndex(policy);
      && k < |docs|
      && (forall i :: 0 <= i < |docs| ==> (docs[i].documentType == TravelInsurance <==> i == k))
      && docs[k] == InsuranceEntry(toCountry)
      && (docs[k].required <==> Lower(toCountry) in InsuranceRequiredCountries)
  {
    var docs := BuildList(policy, toCountry, purpose);
    var k := InsuranceIndex(policy);
    var before := [PassportEntry] + VisaDocuments(policy);
    var after := [TicketEntry, FundsEntry(toCountry), AccommodationEntry] + PurposeDocuments(purpose);
    assert docs == before + [InsuranceEntry(toCountry)] + after;
    assert |before| == k;
    forall i | 0 <= i < |docs| && i != k ensures docs[i].documentType != TravelInsurance {
      if i < k {
        assert docs[i] == before[i];
      } else {
        assert docs[i] == after[i - k - 1];
      }
    }
  }

  /** Every entry other than Travel Insurance is required, so it is the only one that can be optional. */
  lemma OnlyInsuranceOptional(policy: Policy, toCountry: string, purpose: Purpose)
    ensures var docs := BuildList(policy, toCountry, purpose);
      forall i :: 0 <= i < |docs| && i != InsuranceIndex(policy) ==> docs[i].required
  {
    var docs := BuildList(policy, toCountry, purpose);
    var k := InsuranceIndex(policy);
    var before := [PassportEntry] + VisaDocuments(policy);
    var after := [TicketEntry, FundsEntry(toCountry), AccommodationEntry] + PurposeDocuments(purpose);
    assert docs == before + [InsuranceEntry(toCountry)] + after;
    assert |before| == k;
    forall i | 0 <= i < |docs| && i != k ensures docs[i].required {
      if i < k {
        assert docs[i] == before[i];
      } else {
        assert docs[i] == after[i - k - 1];
      }
    }
  }

  /**
    Return/Onward Ticket, Financial Proof and Accommodation Proof follow the
    insurance entry in that order and are required; the daily amount is the
    higher one iff the lower-cased destination is Japan, Switzerland or Norway.
  */
  lemma FixedEntriesAfterInsurance(policy: Policy, toCountry: string, purpose: Purpose)
    ensures var docs := BuildList(policy, toCountry, purpose);
      var k := InsuranceIndex(policy);
      && k + 3 < |docs|
      && docs[k + 1] == TicketEntry && docs[k + 1].required
      && docs[k + 2] == FundsEntry(toCountry) && docs[k + 2].required
      && docs[k + 3] == AccommodationEntry && docs[k + 3].required
      && docs[k + 2].description.Render() == "Proof of sufficient funds (" + FinancialAmount(toCountry) + ")"
      && (FinancialAmount(toCountry) == HighDailyAmount <==> Lower(toCountry) in HighCostCountries)
      && (FinancialAmount(toCountry) == StandardDailyAmount <==> Lower(toCountry) !in HighCostCountries)
  {
    var docs := BuildList(policy, toCountry, purpose);
    var k := InsuranceIndex(policy);
    var before := [PassportEntry] + VisaDocuments(policy);
    var rest := [InsuranceEntry(toCountry), TicketEntry, FundsEntry(toCountry), AccommodationEntry]
                + PurposeDocuments(purpose);
    assert docs == before + rest;
    assert docs[k + 2] == rest[2];
    assert HighDailyAmount != StandardDailyAmount by {
      assert HighDailyAmount[1] != StandardDailyAmount[1];
    }
  }

  /**
    The purpose-specific entries end the list: one Business Invitation Letter
    for business, Student Visa/Permit then Acceptance Letter for study,
    nothing for any other purpose; all of them are required. Hence the list
    length is 5, plus 1 for a visa, plus 1 or 2 for business or study.
  */
  lemma PurposeEntriesLast(policy: Policy, toCountry: string, purpose: Purpose)
    ensures var docs := BuildList(policy, toCountry, purpose);
      var base := 4 + InsuranceIndex(policy);
      && |docs| >= base
      && (purpose == Business ==> docs[base..] == [InvitationEntry])
      && (purpose == Study ==> docs[base..] == [PermitEntry, AcceptanceEntry])
      && (purpose == OtherPurpose ==> docs[base..] == [])
      && (forall i :: base <= i < |docs| ==> docs[i].required)
      && |docs| == (if policy.visaRequired then 6 else 5)
                   + (match purpose case Business => 1 case Study => 2 case OtherPurpose => 0)
  {
    var head := [PassportEntry] + VisaDocuments(policy)
                + [InsuranceEntry(toCountry), TicketEntry, FundsEntry(toCountry), AccommodationEntry];
    assert BuildList(policy, toCountry, purpose) == head + PurposeDocuments(purpose);
    assert |head| == 4 + InsuranceIndex(policy);
  }

  /**
    The purpose is matched case-insensitively: "Business", "BUSINESS" and
    "business" all classify alike, and only those two words are told apart.
  */
  lemma ClassifyPurposeCaseInsensitive(tripPurpose: string)
    ensures ClassifyPurpose(tripPurpose) == ClassifyPurpose(Lower(tripPurpose))
    ensures ClassifyPurpose(tripPurpose) == Business <==> Lower(tripPurpose) == "business"
    ensures ClassifyPurpose(tripPurpose) == Study <==> Lower(tripPurpose) == "study"
  {
    LowerIdempotent(tripPurpose);
  }
}
