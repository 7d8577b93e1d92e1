# Placements query model

A Dafny model of the `/placements` endpoint of a small Express + MongoDB
service. The endpoint has two variants: `src/app_without_index.js` and
`src/app.js`. Each variant turns the request's query string into a MongoDB
filter document and pages through the matching placements. The model covers:

- the JavaScript operations the two handlers rely on: `String.prototype.trim`,
  `split(',')`, and the global `parseInt(string, radix)` with its white space,
  sign, radix and `0x` rules (`JsStrings`, `JsParseInt`);
- the query, filter-value and filter-document shapes (`Filters`);
- the page arithmetic `page = parseInt(page) || 1`, `limit = parseInt(limit) || 20`,
  `skip = (page - 1) * limit` and `totalPages = Math.ceil(total / limit)` (`Pagination`);
- the collection, as an ordered sequence of documents with `find`, `skip`,
  `limit` and `countDocuments` (`Store`);
- variant A (`AppWithoutIndex`): `parseMultipleValues`, the seven `if` blocks
  that fill the filter, and the `data` + `metadata` response;
- variant B (`App`): the `addFilter` closure as a `FilterBuilder` object whose
  `filter` field it updates, its ten calls, the `.select` projection and the
  response with its fixed error message.

The two variants behave differently:

- A always stores `{ $in: [...] }`, even for one value. It trims every piece,
  and its string fields are case-insensitive regular expressions.
- B stores a bare value for one piece and `{ $in: [...] }` for several. It does
  not trim, and its string fields are exact strings.

Both handlers are modelled as the code is written. Variant B's handler takes the
parser for its integer fields as a parameter. With `ParseIntWithIndex` it is the
handler as written, including the `.map(parseInt)` defect described under
"## Findings". With `ParseIntOnly` it is the corrected handler.

Absent parameters are passed through literally. `parseInt(undefined)` parses the
string "undefined" and gives NaN, so the default applies. NaN is `None` in
`Int(n: Option<int>)` and equals no stored number.

## Model

| member | source | states |
|---|---|---|
| JsStrings.Trim | src/app_without_index.js:48 | the result is the text between the leading and the trailing white space; both ends of a non-empty result are non-space; it is empty exactly when the input is all white space |
| JsStrings.TrimIdempotent | src/app_without_index.js:48 | trimming a trimmed piece changes nothing |
| JsStrings.TrimSpaced | src/app_without_index.js:48 | one space before a character is removed (`" 7"` trims to `"7"`) |
| JsStrings.Split | src/app.js:64 | `split(',')` gives one piece more than there are commas, and no piece holds a comma |
| JsStrings.JoinSplit | src/app.js:64 | joining the pieces with commas gives back the original string (empty pieces are kept) |
| JsStrings.SplitJoin | src/app.js:64 | splitting the comma-join of comma-free pieces gives the pieces back |
| JsStrings.SplitNoComma | src/app.js:65 | a comma-free value is exactly one piece |
| JsParseInt.ParseIntRadix | src/app.js:64 | a radix other than 0 outside 2..36 gives NaN; `ParseIntInRadix` and `ParseIntRadixRoundTrip` state what a radix of 2..36 reads |
| JsParseInt.ParseIntInRadix | src/app.js:64 | in a radix of 2..36, `parseInt` reads the sign and the longest prefix of that radix's digits after the white space (past a `0x` prefix only in radix 16), and is NaN when there is no such digit |
| JsParseInt.ParseIntRadixRoundTrip | src/app.js:64 | `parseInt(n.toString(r), r) == n` for every integer and every radix of 2..36 |
| JsParseInt.ParseInt | src/app_without_index.js:63 | `parseInt(x)` with no radix; what it reads is stated by `ParseIntDecimal`, `ParseIntRoundTrip`, `ParseIntSkipsSpace` and `ParseIntNaN` |
| JsParseInt.ParseIntDecimal | src/app_without_index.js:54-55 | the decimal numeral of any integer followed by a non-digit is read back as that integer (`"12abc"` gives 12, `"2.5"` gives 2) |
| JsParseInt.ParseIntRoundTrip | src/app_without_index.js:63 | `parseInt(String(n)) == n` for every integer |
| JsParseInt.ParseIntSkipsSpace | src/app.js:64 | leading white space does not change what `parseInt` reads |
| JsParseInt.ParseIntNaN | src/app_without_index.js:54-55 | `parseInt` is NaN exactly when no decimal digit follows the space and the sign, or a `0x` prefix has no hexadecimal digit after it |
| JsParseInt.RadixOneIsNaN | src/app.js:64 | a radix of 1 gives NaN for every string |
| JsParseInt.UndefinedIsNaN | src/app_without_index.js:54-55 | an absent parameter parses to NaN |
| Pagination.OrDefault | src/app_without_index.js:54-55 | `x \|\| d` keeps a parsed non-zero number, negative ones included, and gives `d` for NaN or 0 |
| Pagination.Page | src/app_without_index.js:54 | `page` is the parameter's `parseInt` when that is a number other than 0, and 1 when the parameter is absent or parses to NaN or 0; never 0 |
| Pagination.Limit | src/app_without_index.js:55 | `limit` is the parameter's `parseInt` when that is a number other than 0, and 20 when the parameter is absent or parses to NaN or 0; never 0 |
| Pagination.Skip | src/app.js:57 | `(page - 1) * limit`: 0 on the first page, never negative for a positive page and limit; `SkipSteps` states the step between pages |
| Pagination.NoPageMeansNoSkip | src/app_without_index.js:56 | without a `page` parameter the skip is 0 |
| Pagination.SkipSteps | src/app_without_index.js:56 | the next page starts exactly `limit` records later; a positive page and limit give a non-negative skip |
| Pagination.TotalPages | src/app_without_index.js:105 | `Math.ceil(total / limit)`: for a positive limit, the least n with n·limit ≥ total, so 0 exactly when total is 0; the mirrored bounds for a negative limit |
| Pagination.PageInRange | src/app_without_index.js:56 | for a positive page and limit, the page's skip lies inside the results exactly when the page is not past `totalPages` |
| Store.Matching | src/app_without_index.js:91 | `find(filter)` returns only documents of the collection that satisfy the filter, and every such document |
| Store.MatchingOne | src/app_without_index.js:91 | a single document is returned exactly when it satisfies the filter |
| Store.MatchingAppend | src/app_without_index.js:91 | matching goes record by record: the matches of two runs of records are the matches of the first followed by those of the second, so store order is kept and each matching record appears once |
| Store.MatchingPair | src/app_without_index.js:91 | the matches among two documents, in store order |
| Store.EmptyFilterMatchesAll | src/app_without_index.js:59 | the empty filter matches the whole collection, in order |
| Store.Window | src/app_without_index.js:92-93 | `.skip(s).limit(l)` is the run of results starting at `s`, of length `min(\|l\|, remaining)`, or all the remaining ones for a limit of 0 |
| Store.WindowEmpty | src/app_without_index.js:92-93 | a window is empty exactly when it starts at or past the end of the results |
| Store.Find | src/app_without_index.js:91-94 | the fetch fails exactly when the store fails or the skip is negative; otherwise it holds only matching documents of the collection |
| Store.CountDocuments | src/app_without_index.js:97 | the count fails exactly when the store fails; otherwise it is the number of matching records, with no skip or limit, and at most the collection's size |
| AppWithoutIndex.ParseMultipleValues | src/app_without_index.js:47-49 | nothing for an absent or empty parameter; otherwise one trimmed item per comma-separated piece, empty pieces kept, so the count is the number of commas plus one |
| AppWithoutIndex.ParseMultipleValuesJoin | src/app_without_index.js:47-49 | trimmed, comma-free items come back unchanged from `parseMultipleValues` of their comma-join |
| AppWithoutIndex.TrimAll | src/app_without_index.js:48 | each item is its piece trimmed, in order |
| AppWithoutIndex.IdValues | src/app_without_index.js:63 | each value is `parseInt` of its item, in order |
| AppWithoutIndex.PatternValues | src/app_without_index.js:67 | each value is a case-insensitive pattern whose source is its item, in order |
| AppWithoutIndex.Entry | src/app_without_index.js:62-63 | a recognised parameter's constraint is always an `$in` list with one value per item of `parseMultipleValues`, never a bare value; `EntryValues` states the values |
| AppWithoutIndex.Block | src/app_without_index.js:61-64 | one `if (req.query.X)` block: `BlockTaken` and `BlockSkipped` state that it sets the field for a non-empty parameter and changes nothing otherwise |
| AppWithoutIndex.FilterSpec | src/app_without_index.js:59-88 | the seven blocks in source order; `FilterSpecByKey`, `FilterKeys` and `FilterEntries` state which fields it holds and what each holds |
| AppWithoutIndex.BuildFilter | src/app_without_index.js:59-88 | the seven `if` blocks, run on a map, build exactly the filter the blocks describe |
| AppWithoutIndex.FilterSpecByKey | src/app_without_index.js:59-88 | the order of the blocks does not matter: the filter is the key-by-key description |
| AppWithoutIndex.FilterKeys | src/app_without_index.js:59-88 | a field is constrained exactly when it is one of the seven and its parameter is a non-empty string |
| AppWithoutIndex.FilterEntries | src/app_without_index.js:61-88 | every constraint is an `$in` list, with one value per piece even for a single value; integer fields hold `parseInt` of the trimmed piece, string fields a case-insensitive pattern of the trimmed piece |
| AppWithoutIndex.EntryValues | src/app_without_index.js:61-64 | a non-empty parameter's entry has one value per comma-separated piece, in order, by field kind |
| AppWithoutIndex.IgnoresOtherParameters | src/app_without_index.js:59-88 | a parameter outside the seven does not change the filter |
| AppWithoutIndex.NoParametersMatchAll | src/app_without_index.js:59-91 | without any recognised parameter the filter is empty and every record matches |
| AppWithoutIndex.OnlyParameter | src/app_without_index.js:59-88 | a request with one recognised parameter constrains that field alone, or nothing when the value is empty |
| AppWithoutIndex.SingleSiteId | src/app_without_index.js:73-76 | `site_id=5` is the one-element list `[5]`, not a bare 5 |
| AppWithoutIndex.TwoSiteIds | src/app_without_index.js:73-76 | `site_id=5, 7` is the list `[5, 7]`: the space is trimmed away |
| AppWithoutIndex.Placements | src/app_without_index.js:52-111 | the response is an error exactly when the fetch or the count fails; otherwise `data` is the skip/limit window of the matching records, `total` their count, `page` and `limit` are echoed and `totalPages` is their ceiling quotient; at most `limit` records, none exactly past the last page; failures are status 500 with the store's error |
| App.Values | src/app.js:64 | `pieces.map(parseFunc)`: one value per piece, in order, each piece parsed with its own index passed along as `map`'s second argument |
| App.Entry | src/app.js:64-65 | the constraint is a bare value exactly when the value splits into one piece; otherwise an `$in` list with one value per piece |
| App.Add | src/app.js:62-67 | one `addFilter(key, parseFunc)` call; `AddFrame` states that a missing or empty parameter changes nothing and that no other key changes |
| App.FilterWith | src/app.js:69-79 | the ten calls in source order, with the integer fields parsed by the given parser; `FilterByKey`, `FilterKeys` and `FilterEntries` state which fields it holds and what each holds |
| App.FilterSpec | src/app.js:59-79 | the filter as written, integer fields parsed by `.map(parseInt)`; `SecondIdIsNaN`, `FiveSevenAsWritten` and `AsWrittenLosesSecondId` state its defect |
| App.IntendedFilterSpec | src/app.js:59-79 | the corrected filter, integer fields parsed in base 10; `IntendedIdsRoundTrip` states that id lists read back |
| App.AddFrame | src/app.js:62-67 | `addFilter` leaves the filter unchanged for a missing or empty parameter, and never touches another key |
| App.FilterBuilder.constructor | src/app.js:59 | the filter starts empty |
| App.FilterBuilder.AddFilter | src/app.js:62-67 | one call sets `filter[key]` for a non-empty parameter; all other keys keep their presence and values |
| App.BuildFilter | src/app.js:59-79 | the ten calls on one builder produce exactly the filter they describe |
| App.FilterByKey | src/app.js:69-79 | the order of the calls does not matter: the filter is the key-by-key description |
| App.FilterKeys | src/app.js:62-79 | a field is constrained exactly when it is one of the ten and its parameter is a non-empty string |
| App.FilterEntries | src/app.js:62-79 | one piece is stored bare, several as an `$in` list of the untrimmed pieces mapped in order; the four string fields keep the raw piece |
| App.EntrySingle | src/app.js:65 | a comma-free value is stored bare |
| App.IgnoresOtherParameters | src/app.js:69-79 | a parameter outside the ten does not change the filter |
| App.OnlyParameter | src/app.js:62-79 | a request with one recognised parameter constrains that field alone, or nothing when the value is empty |
| App.SingleSiteIdIsBare | src/app.js:75 | `site_id=5` is the bare value 5 |
| App.SecondIdIsNaN | src/app.js:64 | as written, an integer parameter with a comma always has NaN as its second value |
| App.FiveSevenAsWritten | src/app.js:64-65 | as written, `site_id=5,7` is `$in: [5, NaN]` |
| App.FiveSevenIntended | src/app.js:64-65 | parsed in base 10, `site_id=5,7` is `$in: [5, 7]` |
| App.AsWrittenLosesSecondId | src/app.js:64-65 | as written, no comma-joined list of two or more integers reads back as that list |
| App.FiveSevenMatches | src/app.js:82-89 | among placements with `site_id` 5 and 7, with NaN equal to no stored number, the `site_id=5,7` filter as written matches only the first placement, and the filter parsed in base 10 matches both |
| App.FiveSevenOneAsWritten | src/app.js:64-65 | as written, `site_id=5,7,1` is `$in: [5, NaN, 1]`: the third id is read in radix 2, where a 7 would be NaN |
| App.IntendedIdsRoundTrip | src/app.js:64-65 | parsed in base 10, the comma-join of the numerals of two or more integers reads back as exactly those integers, in order |
| App.AgreeOnSingleValues | src/app.js:64-65 | when no integer parameter holds a comma, the filter as written and the corrected one are the same |
| App.Project | src/app.js:83 | a projected record keeps only the selected fields and `_id`, with their values unchanged |
| App.ProjectIdempotent | src/app.js:83 | projecting twice is projecting once |
| App.ProjectAll | src/app.js:82-86 | every record of the page is projected, in order |
| App.PageFacts | src/app.js:82-94 | for a positive page and limit, a page holds at most `limit` records, and none exactly when it is past `totalPages` |
| App.Placements | src/app.js:53-101 | with `ids == ParseIntWithIndex`, the handler as written: the response is an error exactly when the fetch or the count fails; otherwise `placements` is the projected skip/limit window of the records matching the `.map(parseInt)` filter, `currentPage` is `page`, `totalItems` their count and `totalPages` its ceiling quotient; at most `limit` records, none exactly past the last page; every failure is status 500 with the fixed message. With `ids == ParseIntOnly`, the same for the corrected filter |

## Findings

| source | as written | input that shows it | evidently intended | confidence | as-written member | corrected member |
|---|---|---|---|---|---|---|
| src/app.js:64 | `.map(parseInt)` passes each piece's index as the radix, so the second piece is parsed in radix 1 (always NaN) and the third in radix 2 | `site_id=5,7` gives `{ $in: [5, NaN] }` | every id parsed in base 10, `{ $in: [5, 7] }` | not executed | App.FiveSevenAsWritten | App.IntendedIdsRoundTrip |

The filter as written is `App.FilterSpec`; `App.SecondIdIsNaN` and
`App.AsWrittenLosesSecondId` state the general case, and `App.FiveSevenOneAsWritten`
shows the third id read in radix 2. With NaN modelled as a value that equals no
stored number, `App.FiveSevenMatches` shows that the filter as written no longer
matches the second placement. The corrected filter is `App.IntendedFilterSpec`.
`App.Placements` runs the handler with either: `ParseIntWithIndex` as written,
`ParseIntOnly` corrected. `App.AgreeOnSingleValues` shows that the two filters
agree on every request without a comma in an integer parameter.

## Left out

- Express routing, `app.listen`, `mongoose.connect` and their logging, and `console.error`: process and network plumbing.
- The schema declarations and `Placement.createIndexes`: the store is an ordered sequence of documents whose fields are numbers, strings or other values.
- The MongoDB query engine: matching is equality on numbers and strings, `$in` as "any of", and regular expressions through a test function the store supplies. The JavaScript RegExp engine is not modelled.
- AppWithoutIndex.Placements: an invalid regular expression in a string parameter (where `new RegExp` throws and the handler answers 500) is not modelled, because patterns are kept uninterpreted.
- AppWithoutIndex.Placements: the `error.message` text is a store error value, not the driver's text.
- JavaScript numbers are mathematical integers. The model ignores floating-point precision for large numerals and the ToInt32 wrap of indices of 2^31 or more passed as a radix.
- Pagination.TotalPages: for a negative limit it is the ceiling of the exact quotient, and the store reads a negative limit as its magnitude. The JavaScript float division behind `Math.ceil` is not modelled.
- `async`/`await` ordering: the two store calls run one after the other against the same store state, and each may fail on its own.
- Repeated query keys, which Express turns into arrays: each parameter is a single string.
- `.lean()`: it only changes the document representation.
- App.Placements: a NaN id is kept in the filter as a value that equals no stored number. Whether the ODM's number cast instead rejects the query (a 500) is not modelled.
- AppWithoutIndex.Placements: a NaN id (from `site_id=abc`, or the empty piece of `site_id=5,`) is kept in the filter as a value that equals no stored number. Whether the ODM's number cast instead rejects the query (a 500) is not modelled.
