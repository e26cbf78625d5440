# Travel documentation requirements: a Dafny model

This project models the requirement engine of `travel_mcp_server.py`:

- `TravelDocumentationService.get_visa_requirements` looks the ordered
  pair (origin, destination) up in a fixed table. Both names are lower-cased
  first. An unlisted pair gets a conservative "visa required" default.
- `TravelDocumentationService.get_document_requirements` builds, by
  successive appends, the list of documents a traveller needs. The list
  always holds passport, visa if required, travel insurance (mandatory or
  recommended), return ticket, proof of funds and accommodation proof,
  then the entries for a business or study trip.
- `get_requirements` converts the duration with `int()` and builds the list.
  It splits the list into required and optional entries, keeping their
  order, and returns a report with counts and a summary. If the conversion
  raises, it returns a one-field error object instead.

Files and modules:

- `wrappers.dfy` (`Wrappers`): `Option`, with `GetOr` for Python's `dict.get(key, default)`.
- `casing.dfy` (`Casing`): ASCII models of `str.lower` and `str.title`.
- `visa_policy.dfy` (`VisaPolicy`): the table, the default and the lookup.
- `documents.dfy` (`Documents`): the entries, the reference list
  `DocumentList`, and the imperative builder `GetDocumentRequirements`,
  which is proved to produce that list.
- `report.dfy` (`Report`): the duration conversion, the two filters, the
  report and the error object.

The service object has no fields: its methods only compute from their
arguments. So it is modelled as functions and one method, not as a class.

A dictionary of the source is a datatype here.
- A document entry is `Document`.
- A visa record is `Policy`. A key the record lacks is `None`.
- Each fixed English sentence of an entry is a constructor of `Sentence`.
  `Render` gives its exact text.
- The three interpolated texts (visa type, fee, daily amount) are
  constructors of `Text` that carry the interpolated value.

## Model

| member | source | states |
|---|---|---|
| Casing.Lower | travel_mcp_server.py:30 | `s.lower()` on ASCII, one character at a time; what it promises is stated by `LowerPointwise` |
| Casing.LowerPointwise | travel_mcp_server.py:30 | `lower()` keeps the length, maps each upper-case letter to its lower-case one, keeps every other character, and leaves no upper-case letter |
| Casing.LowerIdempotent | travel_mcp_server.py:30 | lower-casing an already lower-cased name changes nothing |
| Casing.TitleFrom | travel_mcp_server.py:161-164 | title-casing a suffix maps each character by whether the character before it is cased |
| Casing.Title | travel_mcp_server.py:161-164 | `title()` upper-cases a cased character at the start of a word, lower-cases one inside a word, keeps uncased characters and keeps the length |
| Casing.LowerOfTitle | travel_mcp_server.py:161-164 | lower-casing the title-cased echo of a name gives the lower-cased name |
| VisaPolicy.GetVisaRequirements | travel_mcp_server.py:16-41 | no visa is needed exactly for the seven visa-free pairs; an unlisted pair gets the default record; every record has a maximum stay; a visa-required record names type, processing time and fee |
| VisaPolicy.CaseInsensitive | travel_mcp_server.py:30-33 | the lookup depends only on the lower-cased names |
| VisaPolicy.CanadaToJapanVisaFree | travel_mcp_server.py:17 | Canada to Japan is visa-free for 90 days |
| VisaPolicy.JapanToCanadaDefault | travel_mcp_server.py:32-41 | the table is directional: Japan to Canada gets the default |
| VisaPolicy.ChinaToUsaB2Visa | travel_mcp_server.py:26 | China to the USA needs a B-2 visa: 6 months, 3-5 weeks, $160 USD |
| VisaPolicy.UnlistedPairGetsDefault | travel_mcp_server.py:34-41 | an unlisted pair gets Tourist Visa, 30 days, 5-10 business days, $50-150 USD |
| Documents.BuildList | travel_mcp_server.py:52-132 | the list for a resolved visa record, destination and purpose, in the builder's fixed order: passport, visa if required, insurance, ticket, funds, accommodation, purpose entries; the lemmas below state its promises |
| Documents.DocumentList | travel_mcp_server.py:43-132 | the reference list for a trip: `BuildList` on the looked-up visa record and the classified purpose; the builder is proved to produce it |
| Documents.GetDocumentRequirements | travel_mcp_server.py:43-132 | the step-by-step builder returns exactly the reference list `DocumentList` |
| Documents.PassportFirst | travel_mcp_server.py:54-60 | the list is never empty and starts with the required Passport entry |
| Documents.VisaEntryIffRequired | travel_mcp_server.py:62-71 | a Visa entry appears iff the lookup says a visa is required; it is then the second entry, is required, and interpolates type, processing time and fee with the source's fallbacks |
| Documents.VisaEntryUsesLookup | travel_mcp_server.py:64-71 | for a looked-up record the fallbacks never apply |
| Documents.TravelInsuranceExactlyOnce | travel_mcp_server.py:73-87 | exactly one Travel Insurance entry, right after passport and visa; it is required iff the lower-cased destination is one of the eight listed |
| Documents.OnlyInsuranceOptional | travel_mcp_server.py:54-130 | every entry except Travel Insurance is required |
| Documents.FixedEntriesAfterInsurance | travel_mcp_server.py:89-109 | ticket, funds and accommodation follow insurance in that order and are required; the daily amount is the higher one iff the destination is Japan, Switzerland or Norway |
| Documents.PurposeEntriesLast | travel_mcp_server.py:111-130 | business adds one invitation letter, study a permit then an acceptance letter, any other purpose nothing; the list has 5 entries, +1 with a visa, +1 or +2 for business or study |
| Documents.ClassifyPurposeCaseInsensitive | travel_mcp_server.py:111-118 | the purpose is matched after lower-casing, and only "business" and "study" are told apart |
| Report.TruncateTowardZero | travel_mcp_server.py:151 | `int()` of a float drops the fraction toward zero |
| Report.ConvertDuration | travel_mcp_server.py:151 | `int()` fails exactly on an unconvertible input; an integer is kept; a float gives the integer next to it toward zero |
| Report.RequiredOf | travel_mcp_server.py:156 | the required filter is no longer than its input and keeps only required entries |
| Report.OptionalOf | travel_mcp_server.py:157 | the optional filter is no longer than its input and keeps only optional entries |
| Report.RequiredOfDistributes | travel_mcp_server.py:156 | the required filter distributes over concatenation, so it keeps the order of the entries |
| Report.OptionalOfDistributes | travel_mcp_server.py:157 | the optional filter distributes over concatenation |
| Report.FilterMembers | travel_mcp_server.py:156-157 | an entry is in the required part iff it is in the list and required, and in the optional part iff it is in the list and not required |
| Report.PartitionSizes | travel_mcp_server.py:156-157 | the two parts together are as long as the list |
| Report.AllRequiredFilters | travel_mcp_server.py:156-157 | a list of required entries passes the required filter whole and the optional filter not at all |
| Report.GetRequirements | travel_mcp_server.py:149-186 | an unconvertible duration gives exactly `{"error": message}`; otherwise a report whose parts are the two filters of the document list, whose counts add up to the list's length, whose visa record and visa flag are the lookup's, whose duration is the converted one, and whose names are title-cased |
| Report.FilterAroundOne | travel_mcp_server.py:156-157 | filtering a list whose entries are all required except perhaps one |
| Report.ListPartition | travel_mcp_server.py:73-87 | the optional part is the recommended insurance entry, or empty when the destination mandates insurance; the required part is the list without that entry |
| Report.ReportPartition | travel_mcp_server.py:156-181 | in every report the optional count is 0 for a destination that mandates insurance and 1 otherwise, and the required count is the rest |
| Report.DurationOnlyEchoed | travel_mcp_server.py:150-163 | two convertible durations give reports that differ only in the echoed duration |
| Report.VisaFreeOrdinaryTrip | travel_mcp_server.py:149-181 | a visa-free trip without mandated insurance or purpose extras gives 5 entries, 4 required and the recommended insurance optional |
| Report.VisaBusinessTrip | travel_mcp_server.py:149-181 | a business trip needing a visa, without mandated insurance, gives 7 entries, 6 required, with the visa second and the invitation last |
| Report.JapanDestination | travel_mcp_server.py:73-96 | Japan does not mandate insurance and gets the higher daily amount |
| Report.UsaDestination | travel_mcp_server.py:73-96 | the USA does not mandate insurance and gets the standard daily amount |
| Report.TourismIsOrdinary | travel_mcp_server.py:111-118 | a tourism trip adds no purpose entries |
| Report.BusinessIsBusiness | travel_mcp_server.py:111 | "business" and "Business" select the invitation letter |
| Report.CanadaToJapanTourism | travel_mcp_server.py:149-181 | Canada to Japan, 10 days, tourism: visa-free for 90 days, 5 entries, summary (4, 1, no visa) |
| Report.ChinaToUsaBusiness | travel_mcp_server.py:149-181 | China to the USA, 20 days, business: B-2 visa, 7 entries, summary (6, 1, visa needed) |

## Left out

- The Gradio interface and its launch (`travel_mcp_server.py` lines 189-208): user interface and server I/O.
- `travel_mcp_client.py`: an MCP client and chat front end outside the requirement engine; it is not part of this model.
- Report.ConvertDuration: Python's `int()` is modelled on three shapes of input. An integer is kept and a float is truncated toward zero. A value that `int()` converts successfully in some other way, such as `"10"`, `" 7 "` or `True`, is given as the `IntValue` of its result. `Unconvertible` stands only for an input on which `int()` raises, and carries the exception's message as an opaque string. Parsing of strings is not modelled.
- Report.GetRequirements: any other exception inside the `try` cannot arise from the modelled code, so the error object is produced only by the duration conversion.
- No check that the duration is positive or in a range: the code makes none, and the interface's `minimum=1` (travel_mcp_server.py:194) is outside the model.
- Casing.Lower and Casing.Title: ASCII only. Python's full Unicode case mapping is not modelled (for example `title()` on letters outside A-Z, or characters whose case mapping changes the length).
- The prose of each entry is an enumerated `Sentence` whose `Render` gives the exact text. The proofs reason about the constructors, not about the characters of the sentences.
- VisaPolicy.GetVisaRequirements: the `trip_duration` parameter is unused by the source, so the modelled lookup does not take it. `GetDocumentRequirements` still accepts a duration and ignores it.
- `get_requirements` calls `int(trip_duration)` three times (travel_mcp_server.py:151, 154 and 163). The conversion is deterministic, so the model converts once and uses that value for the echoed duration; the two other results only feed arguments that do not affect the output. The visa record is looked up twice in the model as in the source: once inside `DocumentList` and once by `GetRequirements`.
- The `.get("visa_required", False)` default of the result object never applies, because every record carries that key. The `.get(key)` reads give `None` exactly where the record lacks the key, as for the visa type, processing time and fee of every visa-free record (travel_mcp_server.py:17-23). The model's `Policy` holds `None` in those fields, so the record is copied as it is.
