# MBS item search and specialist fee estimate, modelled in Dafny

This project models the core of a small web app built on the Australian
Medicare Benefits Schedule (MBS). It has two parts.

- **The search endpoint** `GET /api/search-mbs?query=...` (`search_route.dfy`).
  - A missing or empty query is answered with status 400.
  - A query that matches the item-code pattern `/^\d{1,5}[A-Z]?$/i` is upper-cased and looked up exactly among the current rows of `mbs_items` (rows with no `effective_to`).
  - Any other query goes to the ranked keyword search, capped at 50 records.
  - A failing store is answered with status 500. A missing result list becomes `[]`.
- **The specialist fee estimate page** (`fee_estimate.dfy`).
  - It checks the item number and the charged fee, then fetches the item through the endpoint.
  - It splits the schedule fee into the Medicare rebate (the 75% benefit) and the health-fund rebate (the rest). The patient pays what the charged fee exceeds the schedule fee by.
  - For an item that allows a surgical assistant, it chooses assistant item 51300 or 51303 by the schedule fee, at a threshold of $636.05, and fetches that item's description.
  - It adds the assistant's gap fee to the patient's total.

The page's state cells are the fields of the class `EstimatePage`. The
handler `CalculateEstimate` is imperative, like `handleCalculateEstimate`.
It is proved against the pure function `Calculate`: the cells end up showing
`Calculate`'s outcome on the two inputs. `FetchEstimate` is the part after
the input checks, and the method `LoadEstimate` is proved against it.

Each fetch is a function parameter `lookup: string -> FetchOutcome`.
`ApiLookup(store)` composes that parameter with the endpoint model `Get`, so
lemmas such as `EstimateForItemCode` relate the page to the database.

The JavaScript built-ins the code depends on are modelled in `js_text.dfy`
and `js_number.dfy`:
- `trim`, with the ECMAScript white-space set;
- `toUpperCase`, on ASCII letters only (exact on ASCII strings; see "Left out");
- `split(' ')` and `join`;
- `parseFloat`, on decimal literals.

Amounts are exact decimals (`real`), and `None` stands for `NaN`. The page's
two error cells hold a `Notice` (which message is shown). `Text` gives each
notice's exact wording.

Where the code's own hints suggest other behaviour than it has, the model follows the code:
- The item-code pattern has the `i` flag, which suggests case-insensitive matching. Code lookups are not case-insensitive matches, though: the query is upper-cased and compared exactly (`route.ts:25`). `CodeLookupIgnoresCase` states the consequence: only the case of the query's letter is ignored.
- The keyword branch builds a `textSearch` query with a tsquery string. That query is then overwritten by the RPC query (`route.ts:31-46`). The tsquery string is modelled (`TsQuery`, `TsQueryTokens`), but the response comes from the RPC (`Store.rankedSearch`).

## Model

| member | source | states |
|---|---|---|
| JsText.TrimStartShape | src/app/specialist-fee-estimate/page.tsx:56 | the text left after leading white space is a suffix of the input; everything dropped is white space; it does not start with white space |
| JsText.TrimEndShape | src/app/specialist-fee-estimate/page.tsx:56 | the symmetric facts for trailing white space |
| JsText.TrimShape | src/app/specialist-fee-estimate/page.tsx:56 | `trim()` is a slice of the input with only white space outside it and no white space at its ends; it is empty exactly when the input is all white space (the `!s.trim()` test) |
| JsText.ToUpper | src/app/api/search-mbs/route.ts:25 | `toUpperCase` keeps the length, maps each character by `UpperChar` and leaves no ASCII lower-case letter |
| JsText.ToUpperIdempotent | src/app/api/search-mbs/route.ts:25 | upper-casing twice is upper-casing once |
| JsText.Split | src/app/api/search-mbs/route.ts:34 | `split(' ')` gives at least one piece, and no piece holds a space |
| JsText.JoinSplit | src/app/api/search-mbs/route.ts:34 | joining the pieces of `split(' ')` with a space gives the string back |
| JsText.SplitJoin | src/app/api/search-mbs/route.ts:34 | splitting a space-joined list of space-free pieces gives the pieces back |
| JsNumber.ParseFloatBlank | src/app/specialist-fee-estimate/page.tsx:61-62 | `parseFloat` of an empty or all-white-space string is `NaN` |
| JsNumber.ParseFloatNegative | src/app/specialist-fee-estimate/page.tsx:61-62 | a leading minus sign negates the value of whatever unsigned literal follows it, such as "-.5" |
| JsNumber.ParseCentsLiteral | src/app/specialist-fee-estimate/page.tsx:61 | a fee typed with two decimals (the inputs' `step="0.01"`) reads back as exactly that amount, negative amounts included |
| JsNumber.ParseNatLiteral | src/app/specialist-fee-estimate/page.tsx:61 | a whole-dollar fee reads back as that number |
| SearchRoute.ItemCodeIsCodeShaped | src/app/api/search-mbs/route.ts:6 | the character-by-character recogniser accepts exactly one to five digits followed by at most one letter of either case |
| SearchRoute.ItemCodeExamples | src/app/api/search-mbs/route.ts:6 | "30175", "105a" and "105A" are item codes; "", "123456", "A105" and "knee surgery" are not |
| SearchRoute.UpperKeepsItemCode | src/app/api/search-mbs/route.ts:20-25 | an item code upper-cases to an item code, so the lookup key is one; on ASCII strings the converse holds too |
| SearchRoute.PlanFor | src/app/api/search-mbs/route.ts:20-46 | the code lookup is chosen exactly for item codes, and its key is the upper-cased query, an item code with no lower-case letter; otherwise the keyword search gets the query unchanged, the limit 50 and the tsquery string `TsQuery` of the query |
| SearchRoute.WhitespaceQueryIsKeywordSearch | src/app/api/search-mbs/route.ts:12-20 | a query of only white space passes the `!query` check and goes to keyword search |
| SearchRoute.TsQueryTokens | src/app/api/search-mbs/route.ts:34 | the tsquery string read back at its spaces is each token of the query quoted verbatim, in order, with one `&` between neighbours |
| SearchRoute.CurrentRowsWithCode | src/app/api/search-mbs/route.ts:22-26 | the lookup keeps a row exactly when it is current and has the key, keeping each such row as often as the table holds it |
| SearchRoute.SelectAll | src/app/api/search-mbs/route.ts:24 | the selected columns of each row, in order |
| SearchRoute.Limit | src/app/api/search-mbs/route.ts:46 | `.limit(n)` keeps a prefix of at most `n` results, all of them when there are fewer |
| SearchRoute.Execute | src/app/api/search-mbs/route.ts:22-51 | a store fault, and only a fault, surfaces as an error or an exception; a code lookup yields the selected current rows with its key; with the store up, a keyword search replies with the first `limit` records of the ranked search, or with no data when it has none |
| SearchRoute.Respond | src/app/api/search-mbs/route.ts:51-65 | an exception gives 500 "Internal server error" with its message or "An unexpected error occurred"; a store error gives 500 "Error fetching data from Supabase" with the error; with no error the data is answered as it is, and no data gives `[]` |
| SearchRoute.Get | src/app/api/search-mbs/route.ts:8-67 | a missing or empty query gives 400 and nothing else does; every other failure is 500; any other query is answered with records exactly when the store does not fail; keyword answers hold at most 50 records; code answers hold only records whose code is the upper-cased query |
| SearchRoute.CodeLookupAnswers | src/app/api/search-mbs/route.ts:20-27 | with the store up, a code lookup answers the current rows with the upper-cased code, and a record is in the answer exactly when such a row exists |
| SearchRoute.CodeLookupIgnoresCase | src/app/api/search-mbs/route.ts:20-27 | two item codes that upper-case alike get the same answer |
| SearchRoute.KeywordSearchAnswers | src/app/api/search-mbs/route.ts:43-60 | with the store up, a keyword query is answered with the first 50 records of the ranked search, or `[]` when it gives no data |
| SearchRoute.StoreFaultAnswers | src/app/api/search-mbs/route.ts:51-66 | a store error gives 500 "Error fetching data from Supabase" with its message; an exception gives 500 "Internal server error" with its message or the fallback |
| SpecialistFeeEstimate.AssistantCode | src/app/specialist-fee-estimate/page.tsx:100 | 51300 exactly below a schedule fee of $636.05, 51303 exactly from $636.05 up |
| SpecialistFeeEstimate.PrimaryFailure | src/app/specialist-fee-estimate/page.tsx:71-76 | the item fetch fails exactly when it does not answer with a list of records; a failed response reports its `error` text as it is when non-empty, else the request-failed message with the status text; a thrown error reports its message, else the unknown-error message |
| SpecialistFeeEstimate.AssistantLookup | src/app/specialist-fee-estimate/page.tsx:105-121 | the assistant line keeps its code and has either a description or an error; the description is present exactly when the fetch returned a non-empty list, and it is the first record's; an empty list shows the assistant not-found notice, a failed response its `error` text or else the request-failed notice with the status text, and a thrown error its message or else the fetch-failed notice |
| SpecialistFeeEstimate.PriceItem | src/app/specialist-fee-estimate/page.tsx:88-90 | Medicare pays the 75% benefit, the two rebates add up to the schedule fee, and the out-of-pocket amount is the charged fee less the schedule fee, negative exactly when the fee is below the schedule fee |
| SpecialistFeeEstimate.FetchEstimate | src/app/specialist-fee-estimate/page.tsx:69-127 | after the checks, a lookup error happens exactly when the fetch fails or finds nothing; a failed fetch gives its `PrimaryFailure` notice and an empty list the not-found notice; an estimate is for the first record, with the rebate identities, and has an assistant line exactly for assist-eligible items, which is `AssistantLookup` of the fetch of the code `AssistantCode` picks |
| SpecialistFeeEstimate.Calculate | src/app/specialist-fee-estimate/page.tsx:56-127 | an input error happens exactly when an input trims to empty or the fee is `NaN` or negative, and blank inputs give the "enter both" message; an estimate carries the parsed fee (at least 0) and the first record fetched for the trimmed item number |
| SpecialistFeeEstimate.PatientTotal | src/app/specialist-fee-estimate/page.tsx:140 | the total is the out-of-pocket amount (0 when there is none), plus the parsed gap fee only while the assistant fields show and the gap input is a number; `TotalAfterEstimate` and `EstimatePage.ShownOutcome` relate it to an estimate |
| SpecialistFeeEstimate.GapFeeValue | src/app/specialist-fee-estimate/page.tsx:139 | the gap fee is the parsed input, or 0 when the input is not a number |
| SpecialistFeeEstimate.ChargedFeeCheck | src/app/specialist-fee-estimate/page.tsx:61-65 | with both inputs filled in, the invalid-fee message appears exactly when the fee is `NaN` or negative; a fee of 0 passes |
| SpecialistFeeEstimate.CentsFeeAccepted | src/app/specialist-fee-estimate/page.tsx:61-65 | a two-decimal fee is rejected exactly when it is negative, and an estimate uses its exact value |
| SpecialistFeeEstimate.InputErrorSkipsLookup | src/app/specialist-fee-estimate/page.tsx:56-67 | a calculation stopped by an input check does not depend on what any fetch returns |
| SpecialistFeeEstimate.EmptyLookupNotFound | src/app/specialist-fee-estimate/page.tsx:78-83 | an empty record list gives the not-found message for the trimmed item number |
| SpecialistFeeEstimate.FirstRecordOnly | src/app/specialist-fee-estimate/page.tsx:85 | only the first record fetched matters: two lookups that agree on it, and on the assistant items, give the same outcome |
| SpecialistFeeEstimate.TotalAfterEstimate | src/app/specialist-fee-estimate/page.tsx:139-140 | after an estimate, the patient's total is the charged fee less the schedule fee, plus the gap fee for assist-eligible items |
| SpecialistFeeEstimate.GapFeeInputs | src/app/specialist-fee-estimate/page.tsx:139 | a blank gap input counts as 0, and a two-decimal gap fee counts at its exact value |
| SpecialistFeeEstimate.Item30175Example | src/app/specialist-fee-estimate/page.tsx:88-90 | item 30175 (schedule fee $380.90, benefit $285.70) charged at $500: Medicare $285.70, health fund $95.20, out of pocket $119.10 |
| SpecialistFeeEstimate.EstimateForItemCode | src/app/specialist-fee-estimate/page.tsx:71-79 | served by the endpoint with the store up, an item-code input is estimated exactly when a current row has the upper-cased code, the estimated item is the selected columns of such a row, and otherwise the not-found message is shown |
| SpecialistFeeEstimate.StoreFaultShown | src/app/specialist-fee-estimate/page.tsx:71-131 | served by a failing endpoint, a calculation that passes the input checks shows the `error` text of the endpoint's error object as it is |
| SpecialistFeeEstimate.EstimatePage.constructor | src/app/specialist-fee-estimate/page.tsx:16-34 | the cells start empty, with no error, no estimate and the assistant fields hidden |
| SpecialistFeeEstimate.EstimatePage.SetItemNumberInput | src/app/specialist-fee-estimate/page.tsx:165 | typing sets the item number cell only |
| SpecialistFeeEstimate.EstimatePage.SetChargedFeeInput | src/app/specialist-fee-estimate/page.tsx:180 | typing sets the charged fee cell only |
| SpecialistFeeEstimate.EstimatePage.SetAssistantGapFeeInput | src/app/specialist-fee-estimate/page.tsx:198 | typing sets the gap fee cell only; the total is `PatientTotal` of the cells |
| SpecialistFeeEstimate.EstimatePage.ResetAssistantStates | src/app/specialist-fee-estimate/page.tsx:37-44 | every assistant cell is back at its initial value, and no other cell changes |
| SpecialistFeeEstimate.EstimatePage.LoadAssistantItem | src/app/specialist-fee-estimate/page.tsx:105-121 | the description and error cells end up as `AssistantLookup` of the response |
| SpecialistFeeEstimate.EstimatePage.ShowAssistantItem | src/app/specialist-fee-estimate/page.tsx:98-124 | the assistant fields show, with the chosen code and its description or error, and the assistant loading flag is lowered |
| SpecialistFeeEstimate.EstimatePage.ShownOutcome | src/app/specialist-fee-estimate/page.tsx:227-259 | cells that show an outcome render the results panel exactly when it is an estimate, and the total is then its out-of-pocket amount (0 otherwise) |
| SpecialistFeeEstimate.EstimatePage.CalculateEstimate | src/app/specialist-fee-estimate/page.tsx:46-137 | the cells end up showing `Calculate` of the two inputs, and the loading flag is lowered unless an input check returned first |
| SpecialistFeeEstimate.EstimatePage.LoadEstimate | src/app/specialist-fee-estimate/page.tsx:67-137 | from cleared cells, the cells end up showing `FetchEstimate` and the loading flag is lowered |

## Left out

- Floating point: amounts are exact decimals, so IEEE-754 rounding in the rebate subtraction, and in `parseFloat` of long literals, is not modelled.
- JsNumber.ParseFloat: the `Infinity` literal is not recognised. The number inputs of the page never produce it.
- JsText.ToUpper: only ASCII letters are upper-cased; other characters are left unchanged, whereas JavaScript maps them too. Item codes are ASCII, so the code-lookup key is exact. JavaScript also maps a few non-ASCII letters to ASCII ones (U+0131 to "I", U+017F to "S"), so a query such as "105\u0131" is not an item code but upper-cases to one; the model does not capture this, and `SearchRoute.UpperKeepsItemCode` states the converse direction only for ASCII strings.
- The ranked keyword search is the PostgreSQL function `search_mbs_items_by_description`, which is not part of this model. It is a function in `Store`, and only the 50-row limit on its result is modelled.
- The Supabase client and its environment checks, network I/O, URL encoding of the query and `console.error` logging are not modelled. The page's fetches are the `lookup` parameter.
- `.order('item_code')` on code lookups is not modelled. Every row in the answer has the same code, so the database's order among them is not specified, and the model keeps table order.
- React rendering, `formatCurrency` and the asynchronous interleaving of state updates are not modelled. Each handler runs to completion. The intermediate `isLoading`/`isLoadingAssistantItem` values are set but not stated.
- SpecialistFeeEstimate.EstimatePage.CalculateEstimate: the error cells hold a `Notice` rather than its text. `Text` gives the exact message, so an API error or a thrown message that spells out one of the page's own messages is not told apart from it.
- SpecialistFeeEstimate.PatientTotal: `outOfPocket || 0` also maps `NaN` to 0. Amounts are never `NaN` here.
- The other `MbsItem` columns (`category`, `raw_xml_fragment`, version tags, timestamps) are not read by the core and are not modelled.
- `src/app/page.tsx`, `src/components/ResultsDisplay.tsx` and the layout are not part of this model.
