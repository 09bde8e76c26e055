# Credit report extraction: a Dafny model

CreditSea takes an Experian credit report that was uploaded as XML and parsed
by xml2js. It turns the report into a flat record with three parts:

- the basic details: name, mobile number, PAN and credit score;
- a seven-field report summary;
- one record per credit account.

Every leaf of that record is a string, and "" stands for "not in the document".
The upload page shows each field of the record under a label made from the
field's camelCase name.

The project has these modules:

- **Tree** (`tree.dfy`): the value xml2js produces. A node is a string, an
  array or an object. The module also covers JavaScript truthiness and the
  property access `v[key]`, which finds an object's own field or an array
  element named by its decimal index.
- **PathResolver** (`path_resolver.dfy`): `getNestedValue`. It is modelled as
  the imperative loop of the source (`GetNestedValue`), proved equal to a
  recursive specification (`NestedValue`). That specification splits the
  path on dots, walks the tree segment by segment, unwraps one level of array
  and coerces the value to a string.
- **CreditReport** (`credit_report.dfy`): `extractCreditReportData`, modelled
  as pure functions. Optional chaining becomes `Then` and `|| {}` becomes
  `OrEmpty`. `String.prototype.trim` uses the ECMAScript whitespace set. The
  result is a `Result`: the two places where the code throws a TypeError on
  a parsed tree are error values. A third, on a null document, is under
  "## Left out".
- **ReportProperties** and **ReportScenarios** (`report_properties.dfy`): what
  the extraction promises, field by field, and small documents worked through
  in full, on trees given by parameters.
- **TitleCase** (`title_case.dfy`): `camelCaseToTitleCase` of the upload page.
  It is modelled with the regular-expression replacement as `Spaced`, an
  inverse `Unspaced`, and the intended variant described under Findings.

The code does not guard the envelope. When `parsedXml.INProfileResponse` is
absent, `root.Current_Application` (creditsea-backend/src/utils/functions.ts:23)
reads a property of `undefined` and throws a TypeError. The model returns
`Err(MissingEnvelope)` there instead of an all-empty report.
`EmptyEnvelopeGivesBlankReport` proves that an envelope that is present but
holds none of the four sections read gives the all-empty report.

## Model

| member | source | states |
|---|---|---|
| Tree.GetElement | creditsea-backend/src/utils/functions.ts:5-6 | `value[key]` on an array finds element i exactly under the key `String(i)`, and that is the only key that names i |
| Tree.ParseIndexString | creditsea-backend/src/utils/functions.ts:5 | the key printed for an index parses back to that index |
| Tree.ParseIndexCanonical | creditsea-backend/src/utils/functions.ts:5 | every key that names an array index is the printed form of that index (no "07", no "") |
| Tree.ParseIndexZero | creditsea-backend/src/utils/functions.ts:23 | the key "0" (`?.[0]`) names the first element |
| PathResolver.Split | creditsea-backend/src/utils/functions.ts:2 | `path.split(".")` always yields at least one segment |
| PathResolver.SplitJoin | creditsea-backend/src/utils/functions.ts:2 | splitting a dot-joined list of dot-free segments gives the segments back |
| PathResolver.JoinSplit | creditsea-backend/src/utils/functions.ts:2 | joining the pieces of a split path with dots gives the path back |
| PathResolver.SplitPartsHaveNoDot | creditsea-backend/src/utils/functions.ts:2 | no piece of a split path holds a dot |
| PathResolver.SplitPrefix | creditsea-backend/src/utils/functions.ts:2 | a dot-free first segment is split off the front of a path intact |
| PathResolver.SplitNoDot | creditsea-backend/src/utils/functions.ts:2 | a path without a dot is one segment |
| PathResolver.GetNestedValue | creditsea-backend/src/utils/functions.ts:1-16 | the loop returns exactly the value of the recursive walk: "" on the first missing or falsy segment, otherwise the final value unwrapped once and coerced to a string |
| PathResolver.WalkAppend | creditsea-backend/src/utils/functions.ts:4-10 | walking a concatenated key list is walking the first part and then the second from where it ended |
| PathResolver.ResolveSegments | creditsea-backend/src/utils/functions.ts:1-16 | resolving a path given as its segments is the walk over those segments, then unwrapping and coercion |
| PathResolver.ResolveKey | creditsea-backend/src/utils/functions.ts:5-15 | a one-segment path is one loop step (`value && value[key]`), then unwrapping and coercion |
| PathResolver.MissingSegment | creditsea-backend/src/utils/functions.ts:5-8 | once the walk reaches a value in which the next segment is missing or falsy, the whole path resolves to "" |
| PathResolver.Decompose | creditsea-backend/src/utils/functions.ts:4-10 | resolving `k.rest` in obj is resolving `rest` in `obj[k]` when that is present and truthy, and "" otherwise |
| PathResolver.EmptyResolvesEmpty | creditsea-backend/src/utils/functions.ts:5-8 | `{}` and "" resolve every path to "" |
| PathResolver.ResolvesSingleton | creditsea-backend/src/utils/functions.ts:12-15 | a path that ends at `["X"]` or at `[{ _: "X", $: ... }]` resolves to "X" |
| PathResolver.ResolvesWrapper | creditsea-backend/src/utils/functions.ts:15 | a path that ends at a text wrapper `{ _: "X", ... }` resolves to "X" whatever the other fields hold |
| PathResolver.OneLevelOnly | creditsea-backend/src/utils/functions.ts:12-15 | an empty array, an array of arrays and an object without `_` all resolve to "": only one level is unwrapped |
| CreditReport.OrEmpty | creditsea-backend/src/utils/functions.ts:22-27 | the result of `x \|\| {}` is never falsy, so the next lookup never stops on the value itself; a present truthy value is kept and anything else becomes `{}` |
| CreditReport.TrimStartDropsPrefix | creditsea-backend/src/utils/functions.ts:30 | trimming the front drops a whitespace prefix and nothing else, and leaves no leading whitespace |
| CreditReport.TrimEndDropsSuffix | creditsea-backend/src/utils/functions.ts:30 | trimming the back drops a whitespace suffix and nothing else, and leaves no trailing whitespace |
| CreditReport.TrimIsSlice | creditsea-backend/src/utils/functions.ts:30 | `trim()` returns the slice between a whitespace prefix and a whitespace suffix, which neither starts nor ends with whitespace |
| CreditReport.MapEach | creditsea-backend/src/utils/functions.ts:64 | `.map` gives one result per element, in order, result i computed from element i alone |
| CreditReport.ExtractCreditReportData | creditsea-backend/src/utils/functions.ts:18-118 | a missing envelope throws; otherwise the call succeeds exactly when the account-detail node is absent, falsy or an array; on success the details, the summary and one record per account element, in order |
| ReportProperties.TrimJoin | creditsea-backend/src/utils/functions.ts:30 | `${first} ${last}`.trim() of two trimmed names is "first last", or the one name that is not empty |
| ReportProperties.NameJoin | creditsea-backend/src/utils/functions.ts:30 | the name joins first and last name with one space and drops the space when either is missing; it never starts or ends with whitespace |
| ReportProperties.PanFromFirstHolder | creditsea-backend/src/utils/functions.ts:25-27 | the PAN is read from the holder details of the first account-detail element |
| ReportProperties.ScoreFromFirstScore | creditsea-backend/src/utils/functions.ts:33 | the credit score is `BureauScore` of the first `SCORE` element, and "" when either is missing |
| ReportProperties.ScoreMissing | creditsea-backend/src/utils/functions.ts:33 | without a `SCORE` element the credit score is "" |
| ReportProperties.MissingSubtreeBlanksOwnFields | creditsea-backend/src/utils/functions.ts:37-59 | a missing `Credit_Account`, `Total_Outstanding_Balance` or `TotalCAPS_Summary` blanks exactly the summary fields read from it |
| ReportProperties.SummaryGroupsIndependent | creditsea-backend/src/utils/functions.ts:37-59 | each group of summary fields depends only on its own subtree |
| ReportProperties.BlankAddressOfEmpty | creditsea-backend/src/utils/functions.ts:65 | `{}` and "" give an address whose six fields are "" |
| ReportProperties.AddressFromFirstEntry | creditsea-backend/src/utils/functions.ts:65 | an account's address comes from the first entry of its own address array; later entries are ignored |
| ReportProperties.AddressBlankWithoutEntries | creditsea-backend/src/utils/functions.ts:65 | without an address entry all six address fields are "" |
| ReportProperties.AccountsFollowDetails | creditsea-backend/src/utils/functions.ts:62-111 | the account list is the account-detail array mapped element by element |
| ReportProperties.EmptyEnvelopeGivesBlankReport | creditsea-backend/src/utils/functions.ts:18-118 | an envelope that holds none of the four sections read gives a report of "" fields and no accounts |
| ReportScenarios.FieldFirst | creditsea-backend/src/utils/functions.ts:23 | `x?.key?.[0]` on `{ key: [v] }` is v |
| ReportScenarios.NamesOnlyFindsApplicant | creditsea-backend/src/utils/functions.ts:22-24 | the applicant chain reaches the applicant node of a minimal application |
| ReportScenarios.TextField | creditsea-backend/src/utils/functions.ts:12-15 | a field `{ k: ["x"] }` resolves to "x" |
| ReportScenarios.AbsentField | creditsea-backend/src/utils/functions.ts:5-8 | an absent field resolves to "" |
| ReportScenarios.NamesOnlyFields | creditsea-backend/src/utils/functions.ts:30-31 | the names-only applicant yields its first and last name and no mobile number |
| ReportScenarios.NamesOnlyFullName | creditsea-backend/src/utils/functions.ts:30 | the names-only applicant's name is "First Last" |
| ReportScenarios.NamesOnlyDetails | creditsea-backend/src/utils/functions.ts:29-34 | an applicant with only a first and last name gives the name "First Last" and three blank fields |
| ReportScenarios.ScenarioNamesOnly | creditsea-backend/src/utils/functions.ts:18-118 | the whole report of a names-only document: name "First Last", everything else "", no accounts |
| ReportScenarios.NumberedAccountRecord | creditsea-backend/src/utils/functions.ts:64-111 | an account element whose `Account_Number` is `[n]` and which has no address array yields n and a blank address |
| ReportScenarios.ScenarioTwoAccounts | creditsea-backend/src/utils/functions.ts:62-111 | two account elements with numbers n1, n2 and no address give two records, in that order, with blank addresses |
| ReportScenarios.ScenarioTotalOnly | creditsea-backend/src/utils/functions.ts:37-59 | a summary that sets only `CreditAccountTotal` gives that total and six "" siblings |
| TitleCase.CamelCaseToTitleCase | creditsea-frontend/src/App.tsx:80-90 | the label is "" exactly for "" |
| TitleCase.ToUpperFacts | creditsea-frontend/src/App.tsx:87 | upper-casing turns a lower-case letter into its capital, leaves other characters alone, and is idempotent |
| TitleCase.SpacedFacts | creditsea-frontend/src/App.tsx:84 | the replacement adds one character per capital, puts a space before every capital, and never yields a capital first |
| TitleCase.SpacedNoCapitals | creditsea-frontend/src/App.tsx:84 | without capitals the replacement changes nothing |
| TitleCase.UnspacedSpaced | creditsea-frontend/src/App.tsx:84 | removing the inserted spaces gives back the input: the replacement loses and reorders nothing |
| TitleCase.TitleCaseShape | creditsea-frontend/src/App.tsx:80-90 | the label is one character longer per capital, has a space before every capital, turns a leading capital C into " C" followed by the spaced rest, and otherwise upper-cases the first character and spaces the rest |
| TitleCase.TitleCaseNoCapitals | creditsea-frontend/src/App.tsx:84-87 | a name without capitals is only upper-cased at its first character |
| TitleCase.TitleCaseUnspaced | creditsea-frontend/src/App.tsx:80-90 | removing the inserted spaces from the label gives the input with its first character upper-cased |
| TitleCase.LeadingCapitalGetsSpace | creditsea-frontend/src/App.tsx:83-84 | as written, "Name" becomes " Name" |
| TitleCase.TitleCaseExceptStart | creditsea-frontend/src/App.tsx:83-87 | the intended label is "" exactly for "" |
| TitleCase.ExceptStartFacts | creditsea-frontend/src/App.tsx:83-87 | the intended label starts with the input's first character upper-cased, spaces every later capital, has one extra character per capital after the first position, and loses nothing else |
| TitleCase.ExceptStartAgrees | creditsea-frontend/src/App.tsx:80-90 | on inputs that do not start with a capital, the intended label equals the label as written |

## Left out

- The Express server, the upload route, the XML parser, the Mongoose model, the
  React rendering and the tests (`creditsea-backend/src/index.ts`,
  `creditsea-backend/src/models/xmlData.ts`, `creditsea-backend/src/tests/index.test.ts`,
  the rest of `creditsea-frontend/src/App.tsx`) are not part of this model.
  They do I/O, talk to a database or render UI.
- Tree.Get: string indexing (`"abc"[0]`) and inherited properties (`length`,
  `toString`, and the rest of a prototype) are treated as missing. Every path
  the extraction reads gives "" on a string either way.
- PathResolver.Coerce: a `_` field that is not a string gives "". JavaScript
  would return that object itself. xml2js only puts text under `_`.
- TitleCase.ToUpper: only the ASCII letters are upper-cased. `toUpperCase`
  also maps other Unicode letters, and some of them to several characters.
- The regular expression `[A-Z]` matches ASCII capitals only, so `IsUpper`
  matches the source exactly.
- A null `parsedXml` is not modelled: the model's `Node` has no null. xml2js
  produces null for an empty or whitespace-only document, and the upload
  handler (creditsea-backend/src/index.ts:66-70) passes it on unchecked, so
  `parsedXml.INProfileResponse` (creditsea-backend/src/utils/functions.ts:19)
  throws a TypeError there.

## Findings

| source | as written | input that shows it | evidently intended | confidence | as-written member | corrected member |
|---|---|---|---|---|---|---|
| creditsea-frontend/src/App.tsx:83-84 | the replacement puts a space before every capital, the first character included | "Name" gives " Name" | a space before every capital except at the start, as the comment says: "Name" gives "Name" | high; not executed | TitleCase.LeadingCapitalGetsSpace | TitleCase.ExceptStartFacts |
