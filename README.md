# find_university — a verified model of the search core

find_university is a Next.js application for looking up universities. A user
narrows a list of universities by region, name, tuition, world-ranking tier,
affordability band and institution age, optionally sorts by "value for
money", and compares two universities side by side. This project models the
three pieces of logic behind that, in Dafny, and proves what they promise:

* **The search endpoint** (`GET` in `src/app/api/route.ts`). It compiles the
  query parameters into a database filter; a known region overrides the
  country list and a top-tier cap overrides the ranking bounds. It then
  fetches, keeps the records whose affordability tier and age category were
  ticked, optionally sorts by value score (descending), optionally sorts
  stably by a field, and cuts out one page. Modules `Api` (tiers, ages,
  regional groups, the filter, each pipeline step as a specification
  function and as the imperative steps of `Get`) and `Seqs` (filtering,
  stable sort, tie order).
* **The comparison panel** (`src/components/CompareModal.tsx`). It shows a
  three-way verdict per metric (rank and fee lower-is-better, age and value
  higher-is-better), each university's list of advantages or
  "No advantages", and the cost difference text. Module `Compare`.
* **The filter page** (`src/components/UniversityFilters.tsx`). It holds the
  filter state and its transitions: every edit resets the page to 1, the
  checkboxes toggle, reset restores the initial state, and Previous/Next
  move the page. It also builds the query string with a sequence of
  conditional `URLSearchParams.append` calls. Module `Filters`. The
  `SearchParams` class and `BuildQuery` method model the imperative builder.

Module `Wire` connects the last piece to the first. It proves that a query
built from any reachable filter state reaches the endpoint as the user
meant it: the region's countries, the name search, the tuition bounds, the
top-tier cap, the ticked lists (joined by `,` on one side and split by `,`
on the other), the sort, and the page with 20 rows. It also proves that the
`applied` flag is truthy exactly when the user narrowed the listing.
Module `Records` holds the shared record and the value score. Module
`JsText` models the JavaScript built-ins the code relies on: whitespace
trimming, `split`/`join`, `parseInt`, `parseFloat`, integer `toString`, and
string `<`.

The database, the clock and the regex engine are parameters. The database
`find` is an abstract predicate `matches(filter, university)` over an input
sequence whose order is kept. The current year is an argument. The name and
location patterns stay uninterpreted strings inside the filter.

## Model

| member | source | states |
|---|---|---|
| Records.ValueScore | src/app/api/route.ts:147 | 0 for an unranked record; otherwise score × tuition = (1000 − ranking) × 1000, and the score is positive exactly when the ranking is under 1000 |
| Records.ValueScoreExamples | src/components/CompareModal.tsx:42-44 | an unranked record scores 0 at any fee; rank 500 at 10000 scores 50 |
| Records.ValueScoreMonotone | src/app/api/route.ts:147 | a better-or-equal ranking at a lower-or-equal fee never scores lower |
| JsText.TrimStart | src/app/api/route.ts:57 | the result is a suffix of the input, everything dropped is whitespace, and it does not start with whitespace |
| JsText.TrimEnd | src/app/api/route.ts:57 | the result is a prefix of the input, everything dropped is whitespace, and it does not end with whitespace |
| JsText.Trim | src/app/api/route.ts:57 | the result neither starts nor ends with whitespace, and it is the left-trimmed input with only whitespace dropped from its end |
| JsText.Split | src/app/api/route.ts:127 | at least one part, and no part contains the separator |
| JsText.JoinSplit | src/app/api/route.ts:127 | joining the parts of a split gives back the text |
| JsText.SplitJoin | src/components/UniversityFilters.tsx:68 | splitting a join of one or more separator-free parts gives back exactly those parts |
| JsText.NatToString | src/components/UniversityFilters.tsx:74-75 | a non-empty string of decimal digits whose value is the number |
| JsText.NatToStringCanonical | src/components/UniversityFilters.tsx:74-75 | zero prints as "0" and any other number without a leading zero |
| JsText.IntToString | src/components/UniversityFilters.tsx:74-75 | non-empty, with a leading minus exactly for negative numbers |
| JsText.IntToStringParseInt | src/app/api/route.ts:166-167 | `parseInt` of a printed integer is that integer |
| JsText.IntToStringParseFloat | src/app/api/route.ts:80-81 | `parseFloat` of a printed integer is that integer |
| JsText.ParseIntOfDecimal | src/app/api/route.ts:91-92 | `parseInt` of a digit string is its decimal value |
| JsText.ParseIntOne | src/app/api/route.ts:166 | the default page text "1" parses to 1 |
| JsText.ParseIntFifty | src/app/api/route.ts:167 | the default limit text "50" parses to 50 |
| JsText.ParseIntSkipsSpace | src/app/api/route.ts:91 | leading whitespace does not change what `parseInt` reads |
| JsText.StrLessIrreflexive | src/app/api/route.ts:159-160 | no string is below itself |
| JsText.StrLessTransitive | src/app/api/route.ts:159-160 | string `<` is transitive |
| JsText.StrLessTotal | src/app/api/route.ts:159-160 | of two different strings one is below the other |
| JsText.StrLessNegTransitive | src/app/api/route.ts:159-160 | if a < c then any b is above a or below c |
| Seqs.Keep | src/app/api/route.ts:128-130 | no longer than the input; every kept element passes the test and comes from the input |
| Seqs.KeepCount | src/app/api/route.ts:128-130 | each passing element keeps its multiplicity and each failing one is gone |
| Seqs.KeepMembers | src/app/api/route.ts:137-139 | an element is kept exactly when it is in the input and passes |
| Seqs.KeepIsSubsequence | src/app/api/route.ts:137-139 | the kept elements appear in their original order |
| Seqs.KeepAll | src/app/api/route.ts:128-130 | when every element passes, nothing is dropped |
| Seqs.KeepAppend | src/app/api/route.ts:128-130 | filtering a concatenation filters each part |
| Seqs.KeepSingle | src/app/api/route.ts:128-130 | filtering one element keeps it exactly when it passes |
| Seqs.KeepKeep | src/app/api/route.ts:120-140 | two filters in a row keep what one filter by both tests keeps |
| Seqs.KeepSame | src/app/api/route.ts:128-130 | tests that agree everywhere keep the same elements |
| Seqs.KeepThree | src/app/api/route.ts:120-140 | three filters in a row keep what one filter by the three tests together keeps |
| Seqs.Insert | src/app/api/route.ts:156-162 | one element longer, with the new element added to the multiset |
| Seqs.StableSort | src/app/api/route.ts:156-162 | same length and the same multiset: a permutation |
| Seqs.InsertSorted | src/app/api/route.ts:156-162 | inserting into a sorted sequence keeps it sorted |
| Seqs.SortSorted | src/app/api/route.ts:156-162 | for a strict weak order the result is sorted |
| Seqs.TiedWith | src/app/api/route.ts:161 | the elements tied with a key, every one of them equivalent to it |
| Seqs.TiedTransitive | src/app/api/route.ts:161 | for a strict weak order, elements tied with one key are tied with each other |
| Seqs.InsertTiedWith | src/app/api/route.ts:156-162 | insertion puts a tied element before the elements it ties with |
| Seqs.SortStable | src/app/api/route.ts:156-162 | the sort is stable: the elements tied with any key keep their relative order |
| Seqs.InsertTiesOrdered | src/app/api/route.ts:156-162 | insertion keeps a secondary order among ties |
| Seqs.SortKeepsTieOrder | src/app/api/route.ts:148 | an order the input was sorted by survives among the elements the new order ties |
| Seqs.SortWithoutOrder | src/app/api/route.ts:161 | a comparator that orders no two elements leaves the sequence unchanged |
| Seqs.InsertAgrees | src/app/api/route.ts:156-162 | comparators that agree on the elements insert alike |
| Seqs.SortAgrees | src/app/api/route.ts:156-162 | comparators that agree on the elements sort alike |
| Api.Lookup | src/app/api/route.ts:55 | `searchParams.get`: a found value belongs to a pair with that name; nothing is found only when no pair has the name |
| Api.LookupFirst | src/app/api/route.ts:55 | the first pair with the name wins and other names are skipped |
| Api.LookupAppend | src/app/api/route.ts:55 | looking up in a concatenation looks in the first part first |
| Api.AffordabilityTier | src/app/api/route.ts:19-24 | one of the four tiers, each exactly on its half-open band: below 10000, 10000–25000, 25000–50000, from 50000 |
| Api.TierMonotone | src/app/api/route.ts:19-24 | a higher fee never lands in a cheaper tier |
| Api.TierEdges | src/app/api/route.ts:19-24 | 9999 is budget, 10000 and 24999.5 are moderate, 25000 is premium, 50000 is luxury |
| Api.InstitutionAge | src/app/api/route.ts:27-34 | one of the four categories, each exactly on its band of current year minus founding year: below 50, 50–100, 100–200, from 200 |
| Api.AgeByDifference | src/app/api/route.ts:27-34 | a founding year in the future is modern; only the difference of the years matters |
| Api.KeyCount | src/app/api/route.ts:182 | at most six keys, and none exactly for the empty filter |
| Api.TrimAll | src/app/api/route.ts:57 | each country name trimmed, order and count kept |
| Api.BuildRange | src/app/api/route.ts:79-81 | the range built by the two conditional assignments is the one the filter records |
| Api.BasicFilters | src/app/api/route.ts:54-71 | the country, location and name predicates set exactly when their parameters are non-empty, other keys untouched |
| Api.RangeFilters | src/app/api/route.ts:75-109 | the fee, ranking and year predicates are the filter's own when the query sets them (the top tier written over the ranking bounds); other keys untouched |
| Api.CompileFilter | src/app/api/route.ts:50-117 | the filter built step by step is the filter of the query; a known region gives its group's countries; a top tier gives the cap alone |
| Api.RegionPrecedence | src/app/api/route.ts:114-117 | a known region decides the countries whatever the country list said; otherwise the trimmed country list stands |
| Api.RankingPrecedence | src/app/api/route.ts:87-99 | a top tier replaces the ranking range by the cap alone; otherwise exactly the supplied bounds are set |
| Api.EmptyFilterIff | src/app/api/route.ts:50-117 | the filter is empty exactly when no filter parameter is non-empty and the region is not a known group |
| Api.Plain | src/app/api/route.ts:120 | records carried as rows without a score, in order |
| Api.Scored | src/app/api/route.ts:145-147 | every record in order, each carrying its own value score |
| Api.Filtered | src/app/api/route.ts:120-140 | only records from the database |
| Api.FilteredIsKeep | src/app/api/route.ts:120-140 | fetching and the two list filters together keep what one filter by the admission test keeps |
| Api.FilteredIsAdmitted | src/app/api/route.ts:120-140 | the result is a subsequence of the database holding every admitted record as often as the database does and nothing else |
| Api.SortOrder | src/app/api/route.ts:153 | −1 exactly for "desc", otherwise 1 |
| Api.KeyLessIsStrict | src/app/api/route.ts:159-160 | the field comparison is irreflexive and transitive, and incomparability is transitive among keys of one kind |
| Api.FieldOrderMeaning | src/app/api/route.ts:156-162 | a row precedes another exactly when its key is smaller (ascending) or larger (descending) |
| Api.FieldOrderIsStrictWeak | src/app/api/route.ts:156-162 | sorting by a record field in either direction is a strict weak order |
| Api.ScoreOrderIsStrictWeak | src/app/api/route.ts:148 | ordering by value score is a strict weak order |
| Api.ScoredComparators | src/app/api/route.ts:148 | on scored rows the value comparator is the descending score order, and sorting by the `valueScore` field is the score order in the chosen direction |
| Api.ResultsPermutation | src/app/api/route.ts:143-163 | the sorted result is a permutation of the filtered rows; with neither sort requested, it is the filtered records unchanged |
| Api.ValueSortOrder | src/app/api/route.ts:143-149 | the value sort is a permutation whose scores never increase |
| Api.ValueOrder | src/app/api/route.ts:143-149 | with the value option every row comes from the database with its own score; without a field sort, scores never increase |
| Api.ScoredRowsCarryScores | src/app/api/route.ts:145-147 | every scored row carries its own record's score |
| Api.FieldSortOrder | src/app/api/route.ts:152-163 | with a field sort, no later row's key is smaller (ascending) or larger (descending) than an earlier row's |
| Api.FieldSortStable | src/app/api/route.ts:152-163 | rows with equal keys keep the order they had before the field sort |
| Api.ValueOrderBreaksTies | src/app/api/route.ts:143-163 | with both sorts, rows with equal keys stay in descending score order |
| Api.ScoreFieldOrder | src/app/api/route.ts:152-163 | sorting by `valueScore` after the value step orders the scores in the chosen direction |
| Api.UnorderedFieldKeepsOrder | src/app/api/route.ts:152-163 | sorting by an unknown field, or by `valueScore` without scores, leaves the order unchanged |
| Api.Window | src/app/api/route.ts:168-171 | at most `limit` rows, row i being result (page−1)×limit+i, and short only at the end of the results |
| Api.TotalPages | src/app/api/route.ts:179 | the ceiling of total / limit: pages × limit covers the total and one page fewer does not |
| Api.PageNonEmptyIff | src/app/api/route.ts:168-179 | a page has rows exactly when its number is at most the page count |
| Api.PagesPrefix | src/app/api/route.ts:168-171 | the first n pages together are the first n × limit results |
| Api.PagesCover | src/app/api/route.ts:168-179 | all the pages together are exactly the results |
| Api.PagingExample | src/app/api/route.ts:166-179 | 105 results at 20 per page make six pages, the sixth holds the last five and the seventh is empty |
| Api.PagingDefaults | src/app/api/route.ts:166-167 | without page and limit parameters the first page of 50 is served |
| Api.AppliedTruthy | src/app/api/route.ts:182 | `applied` is truthy exactly when the filter has a key or one of the three list/value parameters is non-empty; `valueForMoney=false` yields the string "false" |
| Api.Respond | src/app/api/route.ts:166-185 | the rows sent are the requested page window of the sorted results; pagination echoes the result count, the parsed page and limit and the page count; `applied` is the `||` chain over the filter's key count and the three post-query parameters; hence at most `limit` rows, and rows exactly when the page is within the page count |
| Api.PostQueryFilters | src/app/api/route.ts:124-140 | the affordability and then the age filter, each applied only when its parameter is non-empty |
| Api.SortSteps | src/app/api/route.ts:142-163 | the value step and then the field step |
| Api.Paginate | src/app/api/route.ts:166-171 | the slice is the page window |
| Api.Get | src/app/api/route.ts:46-186 | the response built step by step is the specified response |
| Compare.Capitalize | src/components/CompareModal.tsx:27-40 | a helper for stating the labels, not a step of the page: same length and the same text after the first character; a lower-case first letter becomes its upper-case letter and any other first character stays, so the result never starts with a lower-case letter |
| Compare.TierLabel | src/components/CompareModal.tsx:27-32 | one of the four capitalised labels, the endpoint's tier capitalised |
| Compare.AgeLabel | src/components/CompareModal.tsx:34-40 | one of the four capitalised labels, the endpoint's age category capitalised |
| Compare.BetterValue | src/components/CompareModal.tsx:47-53 | "equal" exactly for equal values; "first" exactly when the first is lower (lower-is-better) or higher (otherwise); "second" in the remaining case |
| Compare.BetterValueSwap | src/components/CompareModal.tsx:47-53 | exchanging the values exchanges "first" and "second" |
| Compare.LowerIsSwappedHigher | src/components/CompareModal.tsx:47-53 | lower-is-better equals higher-is-better on the exchanged values |
| Compare.Verdicts | src/components/CompareModal.tsx:60-65 | the first wins rank and fee exactly when smaller, age exactly when founded earlier, and value exactly when its score is higher; ties exactly on equality |
| Compare.CompareAll | src/components/CompareModal.tsx:21-23 | nothing unless exactly two universities are given, whatever the list holds; otherwise their verdicts |
| Compare.Advantages | src/components/CompareModal.tsx:252-283 | at most four metrics, exactly those whose verdict is this side |
| Compare.AdvantagesInOrder | src/components/CompareModal.tsx:252-283 | the advantages appear in the panel's order: ranking, fee, value, age |
| Compare.AdvantagesExclusive | src/components/CompareModal.tsx:252-329 | no metric is an advantage of both universities |
| Compare.Captions | src/components/CompareModal.tsx:257-281 | one caption per metric, in order |
| Compare.Summary | src/components/CompareModal.tsx:252-286 | one to four lines; exactly "No advantages" when no verdict is this side; otherwise the captions of the advantages |
| Compare.VerdictsSwap | src/components/CompareModal.tsx:60-65 | presenting the two the other way round exchanges every verdict and both scores |
| Compare.SummarySwap | src/components/CompareModal.tsx:252-329 | presenting the two the other way round exchanges their summaries |
| Compare.AgeVerdictTimeless | src/components/CompareModal.tsx:62 | the age verdict does not depend on the current year |
| Compare.DominanceKeepsValue | src/components/CompareModal.tsx:42-65 | a better-or-equal ranked, cheaper-or-equal university never loses on value |
| Compare.CostDifference | src/components/CompareModal.tsx:177 | non-negative, and one of the two differences of the fees |
| Compare.Cost | src/components/CompareModal.tsx:180-184 | first cheaper, second cheaper or same cost, each exactly on its comparison of the fees |
| Compare.CostText | src/components/CompareModal.tsx:180-184 | the cheaper university's name followed by " is cheaper", or "Same cost" |
| Compare.CostAgreesWithTuition | src/components/CompareModal.tsx:177-185 | the cost text agrees with the fee verdict, and "Same cost" exactly when the difference is 0 |
| Compare.ScenarioExample | src/components/CompareModal.tsx:42-65 | a worked pair (rank 10 at 50000 founded 1900 against rank 50 at 20000 founded 2000, in 2024): verdicts, scores 19.8 and 47.5, both summaries, difference 30000, "B is cheaper" |
| Filters.Reset | src/components/UniversityFilters.tsx:99-115 | empty texts and lists, value option off, sort by ranking ascending, page 1, 20 per page |
| Filters.ResetIsInitial | src/components/UniversityFilters.tsx:33-47 | resetting gives exactly the initial state |
| Filters.Toggle | src/components/UniversityFilters.tsx:89-94 | the value is present afterwards exactly when it was absent, no other value is affected, an absent value is appended at the end, and a present value is filtered out, every other entry kept in order |
| Filters.ToggleTwice | src/components/UniversityFilters.tsx:92-94 | toggling an absent value twice restores the list |
| Filters.ToggleRemoveIsSubsequence | src/components/UniversityFilters.tsx:93 | unticking keeps the remaining values in order |
| Filters.ToggleDistinct | src/components/UniversityFilters.tsx:92-94 | a list without repeats stays without repeats |
| Filters.KeepDistinct | src/components/UniversityFilters.tsx:93 | removing values from a list without repeats leaves none |
| Filters.Step | src/components/UniversityFilters.tsx:89-338 | every filter edit sets its own field to the new value and sets page 1; a checkbox toggles its list; reset gives the initial state; Previous and Next move the page by −1 and +1 |
| Filters.StepFrame | src/components/UniversityFilters.tsx:89-338 | a filter edit changes no field but its own and the page; Previous and Next change only the page |
| Filters.InitialGood | src/components/UniversityFilters.tsx:33-47 | the initial state satisfies the page's invariant |
| Filters.StepKeepsGood | src/components/UniversityFilters.tsx:141-338 | every event the page offers keeps the invariant: page at least 1, 20 per page, no country text, offered options only, lists without repeats |
| Filters.RunKeepsGood | src/components/UniversityFilters.tsx:141-338 | so does every sequence of offered events |
| Filters.NameInjective | src/components/UniversityFilters.tsx:63-75 | different fields are sent under different names |
| Filters.SearchParams.constructor | src/components/UniversityFilters.tsx:61 | a new parameter list is empty |
| Filters.SearchParams.Append | src/components/UniversityFilters.tsx:63-75 | adds one pair at the end and changes nothing else |
| Filters.AppendField | src/components/UniversityFilters.tsx:63-75 | one conditional append extends the list by that field's entry |
| Filters.BuildQuery | src/components/UniversityFilters.tsx:61-75 | a fresh parameter list holding exactly the state's query |
| Filters.EntriesSnoc | src/components/UniversityFilters.tsx:63-75 | one more field appends that field's entry |
| Filters.Keys | src/components/UniversityFilters.tsx:63-75 | the names of the pairs, in order |
| Filters.Names | src/components/UniversityFilters.tsx:63-75 | the parameter names of the fields, in order |
| Filters.EntriesKeys | src/components/UniversityFilters.tsx:63-75 | the names sent are the names of the fields with a non-empty value, in field order |
| Filters.QueryKeys | src/components/UniversityFilters.tsx:63-75 | the names sent follow the builder's fixed order |
| Filters.LookupEntries | src/components/UniversityFilters.tsx:63-75 | a field's name maps to its encoded value exactly when the field is listed and its value is non-empty, non-empty-list or true |
| Filters.QueryLookup | src/components/UniversityFilters.tsx:63-75 | the same for the whole query: lists joined by ",", the flag as "true", numbers printed |
| Filters.PageAndLimitLast | src/components/UniversityFilters.tsx:74-75 | page and limit are always sent, as the last two pairs |
| Filters.PagingEntries | src/components/UniversityFilters.tsx:74-75 | the page and limit entries end the list whatever precedes them |
| Wire.NumberParam | src/app/api/route.ts:166-167 | a parameter sent as a printed number parses back to it |
| Wire.PagingOf | src/app/api/route.ts:166-167 | a query carrying printed page and limit yields them, and passes the paging check exactly when both are at least 1 |
| Wire.PagingSent | src/components/UniversityFilters.tsx:74-75 | the query carries the page and the limit printed |
| Wire.ServerPaging | src/app/api/route.ts:166-167 | the endpoint reads back the state's page and limit |
| Wire.JoinNonEmpty | src/components/UniversityFilters.tsx:68 | a list starting with a non-empty entry joins to non-empty text |
| Wire.ListRoundTrip | src/app/api/route.ts:127 | a ticked list is sent as a non-empty parameter that the split turns back into the list |
| Wire.OptionsListable | src/components/UniversityFilters.tsx:191 | the ticked values are non-empty and hold no comma |
| Wire.ListsSent | src/components/UniversityFilters.tsx:68-70 | each list is absent when empty and joined with "," otherwise |
| Wire.AffordabilityOf | src/app/api/route.ts:125-131 | the tier step keeps exactly the records in a ticked tier; an empty list keeps all |
| Wire.AgeOf | src/app/api/route.ts:134-140 | the age step keeps exactly the records in a ticked category; an empty list keeps all |
| Wire.ServerLists | src/app/api/route.ts:124-140 | both list steps do so from any reachable state |
| Wire.SortSent | src/components/UniversityFilters.tsx:71-73 | the value flag is sent only as "true", and each sort choice exactly when non-empty |
| Wire.SortOf | src/app/api/route.ts:143-163 | the value sort runs exactly when the flag is sent; the field sort uses the chosen record field and direction |
| Wire.ServerSort | src/app/api/route.ts:143-163 | from any reachable state, the endpoint sorts as the user chose |
| Wire.Unsent | src/components/UniversityFilters.tsx:61-75 | a name no field has is never sent |
| Wire.TextsSent | src/components/UniversityFilters.tsx:63-65 | region, country and search texts are sent exactly when non-empty |
| Wire.BoundsSent | src/components/UniversityFilters.tsx:66-69 | tuition bounds and top tier are sent exactly when non-empty |
| Wire.NeverSent | src/components/UniversityFilters.tsx:61-75 | location, ranking bounds and year bounds are never sent |
| Wire.BoundsUnsent | src/components/UniversityFilters.tsx:61-75 | a pair of bound parameters no field is named after is never sent |
| Wire.NoSuchFields | src/components/UniversityFilters.tsx:61-75 | no field is named location, minRanking, maxRanking, minYear or maxYear |
| Wire.FilterFrom | src/app/api/route.ts:50-117 | a query with only the page's parameters compiles to the region's countries, the name search, the tuition bounds and the top-tier cap |
| Wire.ServerFilter | src/app/api/route.ts:50-117 | the same for the query of any reachable state |
| Wire.ListGiven | src/app/api/route.ts:126 | a sent list is a non-empty parameter exactly when the list is non-empty |
| Wire.ServerApplied | src/app/api/route.ts:182 | `applied` is truthy exactly when the user narrowed the listing |
| Wire.ServedPage | src/app/api/route.ts:166-185 | the endpoint accepts a reachable state's query and sends the state's page of the results at 20 per page, with the page count for 20 per page; it reports the state's page and limit 20, sends at most 20 rows, and flags `applied` exactly when the listing was narrowed |

## Left out

- The MongoDB connection (`src/app/lib/dbConnect.ts`), `find(...).toArray()` and `NextResponse.json` are I/O. `find` is the abstract `matches` predicate over an input sequence, applied in order; the JSON body is the `Response` datatype.
- `$regex` with option `i` for location and name (src/app/api/route.ts:64, 70) is a foreign regex engine. The filter records the pattern text, and what matches it is left to `matches`.
- `new Date().getFullYear()` is the `currentYear` argument.
- URL encoding: `URLSearchParams.toString()`, `fetch` and the endpoint's `new URL(...)` are taken to carry the list of name/value pairs unchanged. Percent-encoding and decoding are not modelled.
- React rendering, CSS class choice (`getComparisonClass`), `toLocaleString`, the loading flag, `fetch`/`async` and the `useEffect` refetch on every state change are not modelled. The static UI files (`UniversitySkeleton.tsx`, `layout.tsx`, `page.tsx`, `manifest.ts`, `loading.tsx`) hold no logic.
- Numbers are mathematical: tuition is `real`, ranking and years are `int`. JavaScript doubles, rounding and overflow are not modelled. `parseFloat` reads sign, digits, fraction and exponent, but not "Infinity". A NaN from `parseInt`/`parseFloat` is kept as a NaN bound in the filter, as the code does.
- Records.ValueScore: requires a positive tuition for a ranked record. Division by a zero tuition (Infinity or NaN in the value sort) is not modelled, so the value step requires it of the records that survive the query and the post-query filters (`Api.ScoresDefined`), and the comparison requires it of the two compared records.
- Compare.Score: the exact real score, without the `toFixed(2)`/`parseFloat` rounding at src/components/CompareModal.tsx:43, 63-64. The rounding can make two close scores compare equal.
- Compare.Verdicts: compares the exact scores, so it can answer first or second where the rounded scores tie.
- Api.Respond: requires a page and limit that parse to at least 1. `slice` with negative or NaN bounds and `Math.ceil` of a division by zero or NaN are not modelled.
- Api.Get: the same page and limit precondition as `Api.Respond`.
- Api.Window: requires page and limit of at least 1, for the same reason: `slice` with a negative or NaN start is not modelled.
- Api.TotalPages: requires a limit of at least 1: `Math.ceil(total / 0)` is not modelled.
- Api.FieldNamed: sorting knows the seven record fields and `valueScore`. Any other name compares as equal, which leaves the order unchanged. Comparisons between values of different JavaScript types are not modelled.
- JsText.StrLess: compares strings by code point, not by UTF-16 code unit. This differs from JavaScript only for characters beyond the Basic Multilingual Plane.
- Api.KnownRegion: only the six own keys of the regional groups count. Inherited object properties such as "constructor", which JavaScript indexing would also find, are not modelled.
- The in-place `results.sort` and `.filter`/`.map` reassignments are modelled as reassignment of a sequence variable, and the sort as a stable insertion sort. Aliasing of the array is not modelled.
- The countries text has no input on the filter page. The state keeps it (always empty), so it is never sent.
