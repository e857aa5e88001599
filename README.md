# data-api-client, modelled in Dafny

data-api-client is a small read-only HTTP service in front of a document
store. This project models its core, which lives in `main.go`:

- **Filter translator** (`FilterTranslator`). The detail-data endpoint turns a
  collection name `q` and a free-text `filter` into a store query.
  - The filter is upper-cased first.
  - An empty filter selects a default view. Four collections have one; every
    other collection gets the empty query, which matches everything.
  - A non-empty filter becomes an `$or` of equalities over the collection's
    searchable fields. All-digit text is compared as the integer Atoi gives.
    Any other text is compared as the upper-cased text.
  - Three fields are exceptions:
    - the `phone` fields of `fithub` and `rupa2_customer` always get the text;
    - the `NAMA` field of `vehicle` gets the text plus one trailing space.
  - An unknown collection gets the empty query.
  - A missing `q` is rejected. The query asks for at most ten documents.
- **Code tables** (`CodeTables`). Seven forward tables map integer codes of
  the civil registry (religion, gender, blood type, education, marital
  status, occupation, family role) to labels. Each gives `"-"` for an
  undefined code. Four reverse lookups map labels back to codes, or to
  `(0, message)` for an unknown label.
- **Coercions** (`Coercions`). The three conversions from a dynamically typed
  document value to text, a 32-bit integer or a 64-bit integer.
- **Normalization** (`Dukcapil`). Each civil-registry record is rebuilt with
  exactly eighteen keys:
  - the coded fields are replaced by their labels;
  - an address is derived from the NIK (the national ID number);
  - the parents' names are copied as stored;
  - no records at all give a null list.
- **Search merge** (`Search`). The search endpoint sends the same filter to
  nineteen collections. It keeps the answers that hold documents, keyed by
  collection name.

`GoLib` holds the parts of Go's runtime and standard library these lean on:
- `int32` and `int64` with the wrap-around of a narrowing conversion;
- `strconv.FormatInt`, `strconv.ParseInt` and `strconv.Atoi` in base 10;
- `strings.ToUpper` and `unicode.IsDigit`, on ASCII.

The NIK-to-address parser lives in a package outside this model. It is a
parameter of the normalizer: a pure function from the 64-bit NIK to text.
The call the search endpoint makes to the detail-data endpoint is likewise a
parameter: for each collection it gives either a failure or a raw JSON body.

The two `phone` exceptions compare against the filter after upper-casing
(main.go:126), not against the text as the client sent it: upper-casing
happens before any field is compared.

## Model

| member | source | states |
|---|---|---|
| GoLib.WrapInt32 | main.go:665 | `int32(v)` keeps v modulo 2^32 and keeps every value already in the 32-bit range |
| GoLib.Digits | main.go:654 | the decimal spelling is non-empty, all digits, denotes n, and starts with 0 only when it is exactly "0" |
| GoLib.FormatInt | main.go:654 | strconv.FormatInt: a minus sign exactly for negative numbers, never a plus sign, then the shortest digit spelling of the absolute value (zero is exactly "0") |
| GoLib.ScanDigits | main.go:666 | scanning gives a value exactly for all-digit text, and that value is the number the digits denote |
| GoLib.ParseDecimal | main.go:666 | text parses exactly when it is an optional sign followed by at least one digit and nothing else, and its value is the digits' value, negated after a minus sign |
| GoLib.ParseInt | main.go:666-669 | strconv.ParseInt(s, 10, bitSize) succeeds exactly when the text is an optional sign and digits whose signed value fits the width, and then gives that value |
| GoLib.ParseFormat | main.go:654 | parsing the decimal text of any integer gives back that integer |
| GoLib.AtoiDigits | main.go:169 | Atoi on all-digit text gives a value between 0 and the largest 64-bit int |
| GoLib.AtoiAgreesWithParse | main.go:169 | Atoi equals the 64-bit ParseInt where that succeeds, and is clamped to the largest int where the digits overflow |
| GoLib.AtoiFormat | main.go:169 | Atoi undoes decimal formatting of any non-negative 64-bit value |
| GoLib.UpperChar | main.go:126 | a lower-case letter becomes the capital at the same place in the alphabet; every other character is kept |
| GoLib.Upper | main.go:126 | strings.ToUpper keeps the length, upper-cases each character in place, and leaves no lower-case letter |
| GoLib.UpperOfUpper | main.go:126 | text without lower-case letters is unchanged by upper-casing |
| GoLib.UpperIdempotent | main.go:126 | upper-casing twice is upper-casing once |
| GoLib.UpperKeepsDigits | main.go:126-168 | upper-casing keeps empty text empty, keeps all-digit text unchanged, and never turns text into all-digit text |
| FilterTranslator.DefaultView | main.go:138-164 | an empty filter gives the empty query exactly for collections without a default view, and never an `$or` |
| FilterTranslator.OrRules | main.go:174-320 | a collection has searchable fields exactly when it is one of the nineteen known collections |
| FilterTranslator.FilterValue | main.go:166-173 | the converted filter is an integer exactly for all-digit text; it is the Atoi value: the digits' value when that fits in 64 bits, and the largest 64-bit integer when it does not; any other text is kept as it is |
| FilterTranslator.OrFilter | main.go:174-320 | an unknown collection gets the empty query; a known one gets one equality per searchable field, in order, each against that field's operand |
| FilterTranslator.Translate | main.go:124-320 | an empty raw filter gives the default view; a non-empty one gives the empty query exactly for unknown collections and an `$or` for known ones |
| FilterTranslator.IsAllDigits | main.go:347-354 | isAllDigits answers true exactly when every character is a digit |
| FilterTranslator.DetailRequest | main.go:123-135 | a missing collection name is rejected; otherwise the store gets the translated filter, the limit of ten, and normalization only for the civil registry (main.go:330) |
| FilterTranslator.TranslateIgnoresCase | main.go:126 | translating an upper-cased filter gives the same query as translating the raw filter |
| FilterTranslator.OperandExceptions | main.go:223-306 | a field is compared against the plain text exactly for the two `phone` fields, and against the padded text exactly for the vehicle's `NAMA` |
| FilterTranslator.DigitFilterIsInteger | main.go:166-306 | an all-digit filter is compared as its Atoi integer in every field except the two phone fields (the text) and the vehicle name (text plus a space) |
| FilterTranslator.TextFilterIsUpperText | main.go:126-306 | any other filter is compared as upper-cased text in every field, plus a space for the vehicle name |
| FilterTranslator.SearchTextIsUpperCase | main.go:126-306 | no text compared against a field contains a lower-case letter |
| FilterTranslator.DefaultExamples | main.go:145-164 | the default view of bankraya_pinang_flexi, the empty query for a collection without one, and the empty query for an unknown collection |
| FilterTranslator.NameExample | main.go:216-221 | a name is searched upper-cased, as text, in both civil-registry fields |
| FilterTranslator.PhoneExample | main.go:223-229 | "0812" is searched as 812 in fithub's name and email but as "0812" in its phone field |
| CodeTables.ConvertReligion | main.go:390-407 | the label is the sentinel exactly for codes outside 1..6 |
| CodeTables.ConvertReligionString | main.go:408-423 | a known label gives a non-zero code whose forward label is that label; an unknown label gives 0 with the religion message |
| CodeTables.ReligionRoundTrip | main.go:390-423 | the reverse lookup of a defined code's label gives the code and no message |
| CodeTables.ReligionInjective | main.go:390-407 | no two defined religion codes share a label |
| CodeTables.ConvertJenisKelamin | main.go:438-447 | the label is the sentinel exactly for codes other than 1 and 2 |
| CodeTables.ConvertRJenisKelaminString | main.go:425-436 | only PRIA and WANITA are accepted, as codes 1 and 2; anything else gives 0 with the gender message |
| CodeTables.GenderDoesNotRoundTrip | main.go:425-447 | the reverse lookup of any forward gender label (M, F or the sentinel) fails |
| CodeTables.GenderInjective | main.go:438-447 | the two gender codes have different labels |
| CodeTables.ConvertBloodType | main.go:449-478 | the label is the sentinel exactly for codes outside 1..12 |
| CodeTables.BloodTypeInverse | main.go:449-478 | a reference inverse table gives back every defined blood-type code from its label |
| CodeTables.BloodTypeInjective | main.go:449-478 | no two defined blood-type codes share a label |
| CodeTables.ConvertEducation | main.go:479-504 | the label is the sentinel exactly for codes outside 1..10 |
| CodeTables.ConvertEducationString | main.go:506-526 | a known label gives a non-zero code whose forward label is that label; an unknown label gives 0 with the education message |
| CodeTables.EducationRoundTrip | main.go:479-526 | the reverse lookup of a defined code's label gives the code and no message |
| CodeTables.EducationInjective | main.go:479-504 | no two defined education codes share a label |
| CodeTables.ConvertMaritalStatus | main.go:528-541 | the label is the sentinel exactly for codes outside 1..4 |
| CodeTables.ConvertMaritalStatusString | main.go:542-556 | a known label gives a non-zero code whose forward label is that label; an unknown label gives 0 with the marital-status message |
| CodeTables.MaritalStatusRoundTrip | main.go:528-556 | the reverse lookup of a defined code's label gives the code and no message |
| CodeTables.MaritalStatusInjective | main.go:528-541 | no two defined marital-status codes share a label |
| CodeTables.ConvertOccupation | main.go:558-620 | the label is the sentinel exactly for codes outside the defined set, which skips 7 and 8 |
| CodeTables.OccupationInverse | main.go:558-620 | a reference inverse table gives back every defined occupation code from its label |
| CodeTables.OccupationInjective | main.go:558-620 | no two defined occupation codes share a label |
| CodeTables.ConvertStatusHubunganKeluarga | main.go:622-647 | the label is the sentinel exactly for codes outside 1..10 |
| CodeTables.FamilyRoleInverse | main.go:622-647 | a reference inverse table gives back every defined family-role code from its label |
| CodeTables.FamilyRoleInjective | main.go:622-647 | no two defined family-role codes share a label |
| CodeTables.UndefinedCodesAreSentinel | main.go:390-620 | 999, occupations 7 and 8, and blood type 0 have no label; occupation 15 is KARYAWAN SWASTA |
| Coercions.ConvertToString | main.go:649-658 | text is kept, a 32-bit integer becomes its strconv decimal spelling, which parses back to it, any other type becomes "-" |
| Coercions.ConvertToInt32 | main.go:660-673 | a 32-bit integer is kept, a native int is truncated modulo 2^32, text that parses at 32 bits gives its value, and everything else, a 64-bit integer included, gives 0 |
| Coercions.ConvertToInt64 | main.go:675-690 | the three integer types keep their value, text that parses at 64 bits gives its value, and everything else gives 0 |
| Coercions.DecimalTextRoundTrip | main.go:649-690 | the text form of a 32-bit integer reads back as the same number through both integer coercions |
| Coercions.NonNumericTextIsZero | main.go:660-690 | text that does not start like a signed decimal, the empty text included, coerces to 0 |
| Coercions.WideDecimalText | main.go:660-690 | the decimal text of a 64-bit value outside the 32-bit range, such as a NIK, gives 0 at 32 bits and its value at 64 bits |
| Dukcapil.Field | main.go:704-740 | reading a present key gives its stored value, and reading a missing key gives nil |
| Dukcapil.Enrich | main.go:704-749 | a coded field holds the sentinel exactly when the code read from it is undefined; the family-card number and parents' NIKs are read at 64 bits, the name, birthplace, birth date and village as text; the address is the parser's address for the NIK read; the parents' names are copied as stored |
| Dukcapil.ProcessDukcapilData | main.go:691-752 | no records give a null list; otherwise one normalized record per stored record, in the same order |
| Dukcapil.KeyCount | main.go:730-749 | the key enumeration has eighteen members, and their eighteen written names are distinct |
| Dukcapil.EnrichLabelsIdentifyCodes | main.go:704-726 | the label in a coded field identifies the code read: the reverse lookup or inverse table gives it back, and gender is M exactly for code 1 and F exactly for code 2 |
| Dukcapil.EnrichPassesThrough | main.go:704-718 | stored text names, places, dates and village numbers come out unchanged, and stored 64-bit card and parent NIKs keep their values |
| Dukcapil.EnrichMissingDefaults | main.go:704-718 | each of those seven fields that is missing from the record, or stored as null, comes out as "-" (the text fields) or 0 (the card number and the parents' NIKs) |
| Dukcapil.UnreadableCodesAreSentinel | main.go:709-716 | a coded field that is missing, a 64-bit integer or of another type is labelled with the sentinel |
| Search.FetchData | main.go:356-388 | a failure is an error; an empty list or null means no data; any other body is returned as it is |
| Search.SearchAll | main.go:80-120 | the merged result is exactly the searched collections whose answers hold documents, each mapped to its answer |
| Search.MergedKeepsExactlyData | main.go:106-114 | a collection is in the result exactly when its request succeeded with a non-empty body, and its entry is that body |
| Search.SearchedAreSearchable | main.go:83-89 | the nineteen searched collections are distinct and are exactly those the translator knows fields for |

## Left out

- HTTP wiring is not modelled: routing, CORS, logging, status codes and JSON encoding of responses. Neither are environment loading, the `/list-data` endpoint and `main`'s start-up.
- Store access is not modelled: the cursor, `Find` and the read of all documents, with their error paths (the 500 responses).
- In `Dukcapil.ProcessDukcapilData`, the cursor read and its error are outside the model. The method starts from the list of records already read.
- Search concurrency is not modelled: the goroutines, the wait group, the five-slot limiter, the five-second timeout, and the unsynchronised writes to the shared result map. A request that cannot get a limiter slot or that times out counts as a failed request. Results are merged in list order, which is enough because the result is a map.
- The search endpoint's HTTP call to itself is a parameter from collection and filter to a failure or a raw JSON body. URL escaping, the transport and JSON decoding happen inside that parameter.
- The NIK-to-address parser is a package outside this model, taken as a parameter.
- Debug printing is left out.
- `GoLib.Upper` and `GoLib.IsDigit` cover ASCII only. Go's `strings.ToUpper` and `unicode.IsDigit` also handle other scripts: special casings, and non-ASCII decimal digits, for which Atoi would fail and give 0.
- `GoLib.AtoiDigits` and `Coercions.Value.Int` assume Go's `int` is 64 bits wide.
- A normalized record is a datatype with one field per output key, not a Go map.
- `Dukcapil.ProcessDukcapilData` fills its pre-sized result list by index. The list is a sequence value, not an array, because the slice never escapes before it is full.
- A filter value is an unbounded integer or a string. Go's `int` range is enforced through `GoLib.AtoiDigits`.
