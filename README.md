# senkron-netsis invoice dashboard — a Dafny model

This project models the logic of a small invoice dashboard. An Express
server reads invoice lines ("fatura") from an ERP database, repairs
mis-encoded Turkish characters, and serves them as JSON envelopes. When the
database is missing or a query fails, it serves built-in sample data.
Alongside the invoices it serves two reference lists (material-slip types,
warehouses) and the next free material-slip ("fiş") number. A React client
keeps the list and applies a customer-code and date filter locally. It
shows two counters. A detail modal builds a draft fiş from the selected
invoice, and an order picker searches orders on four text fields.

The modules are:

- `JsBuiltins` models the JavaScript builtins the code relies on:
  - `parseInt` takes leading whitespace, an optional sign and the longest decimal digit prefix;
  - `Number#toString`;
  - `String#includes`;
  - `new Date(a) <= new Date(b)` on `YYYY-MM-DD` strings.
- `TextFix` models `fixTurkishChars` and `cleanData`.
- `ServerRoutes` models each route handler as a pure function of the test-mode flag and of what its connection pool yields. The pool can be absent, resolve to `null`, fail a query, or return a recordset.
- `App`, `FilterForm`, `OrderSelection` and `FisDraft` model the client components as classes whose fields are the components' React state. Each handler is one atomic step, and the server's reply is a parameter.
- `Stats` models the two counters as pure functions.
- `Sequences`, `Json`, `Types` and `Wrappers` hold shared definitions.

The model keeps these behaviours of the code:

- `latestFisNo` is the maximum of the parsed numbers even when that maximum is negative.
- `parseInt` accepts `"10a"` as 10.
- `cleanData` does not descend into nested objects.
- `/api/faturalar` with no pool promise answers in test mode.
- The live path of `/api/faturalar/filtreli` ignores the filters.
- The server's sample-data filter always requires a code match.

## Model

| member | source | states |
|---|---|---|
| TextFix.Replacement | server/index.js:20-53 | a character of the regex class becomes its non-empty map entry; every other character stays as it is; a replacement has one or two characters |
| TextFix.FixText | server/index.js:53 | one left-to-right pass of `Replacement`; the output is at least as long as the input and at most twice as long |
| TextFix.FixTurkishChars | server/index.js:17-54 | a non-string or empty value is returned unchanged; a non-empty string is rewritten by `FixText` |
| TextFix.FixTextAppend | server/index.js:53 | the substitution works on each character independently: fixing `a + b` is fixing `a`, then `b` |
| TextFix.FixTextUnmatched | server/index.js:53 | a string without characters of the class is returned unchanged |
| TextFix.UnmatchedKeysPassThrough | server/index.js:39-53 | `Á á É é Í í` have map entries that differ from themselves but are outside the class, so strings made of them pass through unchanged |
| TextFix.FixTextOutputs | server/index.js:20-53 | the only output characters that fall inside the class are the identity-mapped `Ü ü Ö ö Ç ç` |
| TextFix.FixTextIdempotent | server/index.js:20-53 | fixing twice equals fixing once |
| TextFix.FixTurkishCharsIdempotent | server/index.js:17-54 | `fixTurkishChars` is idempotent on every JSON value |
| TextFix.FixTextExamples | server/index.js:21-28 | `Ý` becomes `İ`, `Þ` becomes `Ş`, and `Æ` becomes the two letters `AE` |
| TextFix.Clean | server/index.js:57-72 | an array stays an array of the same length, an object stays an object with the same keys, and nothing else becomes an array or an object |
| TextFix.CleanArray | server/index.js:58-59 | an array is cleaned element by element, keeping its length and order |
| TextFix.CleanObject | server/index.js:60-69 | an object keeps exactly its keys; string values are fixed, and every other value is copied unchanged |
| TextFix.CleanDoesNotRecurseIntoObjects | server/index.js:60-69 | a string inside a nested object is not fixed |
| TextFix.CleanLeavesScalars | server/index.js:71 | a value that is neither an array nor an object is returned as it is |
| TextFix.CleanIdempotent | server/index.js:57-72 | cleaning twice equals cleaning once |
| TextFix.CleanObjectEntries | server/index.js:61-68 | the key-by-key `for..of` loop builds exactly the cleaned object |
| TextFix.CleanData | server/index.js:57-72 | the recursive method, with its loop over array elements, computes `Clean` |
| ServerRoutes.Faturalar | server/index.js:347-405 | always a success, with `count` equal to the data length. Test mode or no pool gives `test` with the cleaned samples. A null pool or a failed query gives `fallback` with a non-empty warning and the samples. Rows give `database` with the cleaned rows. Only `fallback` warns |
| ServerRoutes.FilterArguments | server/index.js:410-414 | an absent parameter takes the defaults `320 01 004`, `2025-07-01` or `2025-07-31`; a given parameter is used as it is |
| ServerRoutes.MockFilter | server/index.js:419-423 | a sample is kept exactly when its code equals the parameter and its date lies within both bounds; a kept sample appears exactly as often as in the input |
| ServerRoutes.MockFilterIsSubsequence | server/index.js:419-423 | the sample filter keeps the order of the samples |
| ServerRoutes.MockFilterAlwaysMatchesCode | server/index.js:420 | every kept sample carries exactly the requested code, even when that code is empty |
| ServerRoutes.MockFilterInclusive | server/index.js:421-422 | a sample dated on either bound is kept |
| ServerRoutes.FiltreliDefaultsKeepBothSamples | server/index.js:410-423 | with no parameters both sample invoices are returned |
| ServerRoutes.FaturalarFiltreli | server/index.js:408-493 | always a success that echoes the filters, with `count` equal to the data length. Live rows are returned unfiltered; every other path returns the filtered samples. The mode and the warning behave as for `/api/faturalar` |
| ServerRoutes.ReferenceList | server/index.js:180-279 | success exactly in test mode or with rows. A missing pool or a failed query gives `success: false`, mode `error`, a non-empty message and no data |
| ServerRoutes.MalzemeFisTipleri | server/index.js:180-228 | test mode gives the four fixed types; a failure is an `error` with a message |
| ServerRoutes.Depolar | server/index.js:230-279 | test mode gives the three fixed warehouses; a failure is an `error` with a message |
| ServerRoutes.NotNaN | server/index.js:320 | every number that parsed is kept, and only numbers that parsed are kept |
| ServerRoutes.Max | server/index.js:323 | the maximum is an element of the list and bounds every element |
| ServerRoutes.FisNumbers | server/index.js:313-326 | `(0, 1)` when no number parses; otherwise the latest is a parsed number bounding every parsed number, and next = latest + 1 |
| ServerRoutes.ComputeFisNumbers | server/index.js:313-326 | the imperative update of `latestFisNo` and `nextFisNo` computes `FisNumbers` |
| ServerRoutes.LatestFisNo | server/index.js:282-344 | test mode gives 1000/1001. Rows give `database` with `FisNumbers` of the rows. A success always has next = latest + 1. A failure gives `error` with no numbers |
| ServerRoutes.FisNumbersExample | server/index.js:313-326 | `["10","abc","","7","10a"]` gives 10 and 11, the lenient parse reading `10a` as 10; `[]` gives 0 and 1 |
| ServerRoutes.FisNumbersNegative | server/index.js:313-326 | `["-5"]` gives -5 and -4: a negative maximum is not raised to 0 |
| JsBuiltins.ParseInt | client/src/components/FaturaDetailModal.tsx:178 | the empty string and a string starting with a character that is not white space, a sign or a digit are NaN; a plain run of digits is read as its decimal value |
| JsBuiltins.ParseIntOrZero | client/src/components/FaturaDetailModal.tsx:178 | `parseInt(value)` with a fallback of 0: the parsed value, or 0 for NaN; its two ensures just name the two cases of the match |
| JsBuiltins.IntToString | client/src/components/FaturaDetailModal.tsx:77 | `Number#toString` on an integer; its only ensures is that the text is non-empty, and `ParseIntOfToString` is its partner |
| JsBuiltins.Includes | client/src/components/SiparisSelectionModal.tsx:51-54 | `String#includes`: a string found in `s` is no longer than `s`, and a prefix is always found |
| JsBuiltins.ParseIntOfToString | client/src/components/FaturaDetailModal.tsx:77 | `parseInt` reads back any integer written by `toString` |
| JsBuiltins.DateLe | client/src/App.tsx:50-51 | a comparison is true only between two well-formed `YYYY-MM-DD` dates |
| JsBuiltins.DateLeTransitive | client/src/App.tsx:50-51 | the date order is transitive |
| JsBuiltins.DateLeTotal | client/src/App.tsx:50-51 | any two well-formed dates are ordered one way or the other |
| App.ApplyFilters | client/src/App.tsx:46-55 | a record is kept exactly when the code is empty or equal, and a bound is empty or the date lies between the bounds; a kept record appears exactly as often as in the input, a dropped one never |
| App.ApplyFiltersAppend | client/src/App.tsx:46-55 | filtering a concatenation is concatenating the filtered parts, so repeated records are each kept or dropped on their own |
| App.ApplyFiltersIsSubsequence | client/src/App.tsx:46-55 | the filter keeps the order of the records |
| App.ApplyFiltersUnrestricted | client/src/App.tsx:48-51 | an empty code and at least one empty date bound keep every record |
| App.ResetShowsEverything | client/src/App.tsx:48-51 | the all-empty filters keep every record |
| App.ApplyFiltersInclusive | client/src/App.tsx:50-51 | a record dated exactly on the start or the end date is kept |
| App.ApplyFiltersExactCode | client/src/App.tsx:48 | a non-empty code keeps only records with exactly that code |
| App.ApplyFiltersIdempotent | client/src/App.tsx:46-55 | filtering twice with the same filters is filtering once |
| App.JulyFilterExample | client/src/App.tsx:46-55 | of three records with the code, dated 15 July, 31 July and 5 August 2025, the July filter keeps the first two, in order |
| App.InvoiceList.constructor | client/src/App.tsx:10-23 | empty lists, empty filters, no mode, warning, error or selection, not loading; the invariant holds |
| App.InvoiceList.HandleFilter | client/src/App.tsx:83-87 | the filters are replaced and the shown list is recomputed from `allData`; nothing else changes; the invariant is kept |
| App.InvoiceList.LoadInitialData | client/src/App.tsx:57-81 | success replaces the records, filters them with the current filters, sets the mode (default `database`) and sets the warning only if it is non-empty. A failure or a throw sets the error and keeps both lists. `loading` ends false, and the invariant is kept |
| App.InvoiceList.HandleRowClick | client/src/App.tsx:89-92 | the invoice is selected and the modal is open |
| App.InvoiceList.HandleCloseModal | client/src/App.tsx:94-97 | the modal is closed and the selection cleared |
| FilterForm.Set | client/src/components/FilterForm.tsx:24-29 | the named field takes the value and the other two are kept |
| FilterForm.SetOwnValue | client/src/components/FilterForm.tsx:24-29 | writing back a field's own value leaves the filters unchanged |
| FilterForm.SetTwice | client/src/components/FilterForm.tsx:24-29 | setting a field twice keeps only the last value |
| FilterForm.FieldsDetermineFilters | client/src/components/FilterForm.tsx:24-29 | filters agreeing on the three fields are equal, so `Set` is pinned down |
| FilterForm.Form.constructor | client/src/components/FilterForm.tsx:11-17 | the initial filters are the given ones, or `320 01 004`, `2025-07-01`, `2025-07-31` |
| FilterForm.Form.HandleSubmit | client/src/components/FilterForm.tsx:19-22 | the filters passed to `onFilter` are the current filters |
| FilterForm.Form.HandleInputChange | client/src/components/FilterForm.tsx:24-29 | only the named field changes |
| FilterForm.Form.ResetFilters | client/src/components/FilterForm.tsx:31-39 | the filters become all empty and the same all-empty filters are passed on |
| OrderSelection.FilteredSiparisler | client/src/components/SiparisSelectionModal.tsx:50-55 | an order is kept exactly when the lowercased term occurs in one of its four lowercased fields; a kept order appears exactly as often as in the list |
| OrderSelection.FilteredAppend | client/src/components/SiparisSelectionModal.tsx:50-55 | searching a concatenation is concatenating the searched parts |
| OrderSelection.FilteredIsSubsequence | client/src/components/SiparisSelectionModal.tsx:50-55 | the search keeps the order of the list |
| OrderSelection.EmptyTermKeepsAll | client/src/components/SiparisSelectionModal.tsx:50-55 | an empty term keeps every order |
| OrderSelection.SearchIgnoresCase | client/src/components/SiparisSelectionModal.tsx:51-54 | terms with the same lowercase select the same orders |
| OrderSelection.OrderNumberHitIsShown | client/src/components/SiparisSelectionModal.tsx:51 | an order whose lowercased number contains the lowercased term is shown |
| OrderSelection.Picker.constructor | client/src/components/SiparisSelectionModal.tsx:13-17 | the picker starts with no orders, not loading, no error, no selection and an empty search term |
| OrderSelection.Picker.Shown | client/src/components/SiparisSelectionModal.tsx:50-55 | the rendered rows are exactly the loaded orders that match the current search term |
| OrderSelection.Picker.LoadSiparisler | client/src/components/SiparisSelectionModal.tsx:25-41 | the error is cleared first. A success with data replaces the list. Otherwise the list is kept and the error is the message or a default. `loading` ends false |
| OrderSelection.Picker.SetSearchTerm | client/src/components/SiparisSelectionModal.tsx:98 | the term changes; the list and the selection do not |
| OrderSelection.Picker.SelectRow | client/src/components/SiparisSelectionModal.tsx:178-185 | the clicked order becomes the selection |
| OrderSelection.Picker.HandleSelect | client/src/components/SiparisSelectionModal.tsx:43-48 | without a selection nothing is emitted; with one, `onSelect(order)` then `onClose` |
| FisDraft.Draft | client/src/components/FaturaDetailModal.tsx:83-109 | the draft copies invoice number, date and customer code (or `''`) and takes the default type, currency, rate, term and warehouse |
| FisDraft.FisNoText | client/src/components/FaturaDetailModal.tsx:74-80 | the slip number text is never empty and always parses as a number |
| FisDraft.FisNoTextParsesBack | client/src/components/FaturaDetailModal.tsx:74-99 | on success the slip number text reads back as the server's `nextFisNo`; otherwise it is `'1'` |
| FisDraft.DraftShowsServerNextFisNo | client/src/components/FaturaDetailModal.tsx:73-94 | with the server route, a successful reply puts its next number in the draft; a failed one gives `'1'`; test mode gives 1001 |
| FisDraft.FallbackFisTipleriNumbered | client/src/components/FaturaDetailModal.tsx:124-139 | the fallback types are exactly four, numbered 1 to 4, and the first is the draft's default type |
| FisDraft.DepoOption | client/src/components/FaturaDetailModal.tsx:411 | an option value is the name, `" - "` and the address |
| FisDraft.DefaultDepoIsNoOption | client/src/components/FaturaDetailModal.tsx:409-412 | the default warehouse `ANA DEPO` never equals an option value |
| FisDraft.DefaultDovizIsNoOption | client/src/components/FaturaDetailModal.tsx:336-341 | the default currency `TRY` is not among the offered currencies |
| FisDraft.NewValue | client/src/components/FaturaDetailModal.tsx:177-178 | a checkbox yields `checked`, `vade` yields `parseInt(value) \|\| 0`, and any other field yields the raw string |
| FisDraft.Changed | client/src/components/FaturaDetailModal.tsx:173-180 | the named field takes `NewValue` and every other field is kept |
| FisDraft.FieldsDetermineForm | client/src/components/FaturaDetailModal.tsx:173-180 | forms agreeing on every field are equal, so `Changed` is pinned down |
| FisDraft.VadeTakesTypedNumber | client/src/components/FaturaDetailModal.tsx:178 | typing an integer into `vade` stores that integer; text that does not parse stores 0 |
| FisDraft.DetailModal.constructor | client/src/components/FaturaDetailModal.tsx:41-59 | empty strings, `TRY`, unchecked, rate 1 and term 30; empty lists; no flag set |
| FisDraft.DetailModal.LoadFisNoAndSetFormData | client/src/components/FaturaDetailModal.tsx:69-113 | the form becomes the draft built from the slip number text; `fisNoLoading` ends false; the lists are untouched |
| FisDraft.DetailModal.LoadFisTipleri | client/src/components/FaturaDetailModal.tsx:115-143 | a success stores the server's data as it is; otherwise the four fixed types are stored; the flag ends false |
| FisDraft.DetailModal.LoadDepolar | client/src/components/FaturaDetailModal.tsx:145-171 | the server's list is stored only when the reply succeeded with data; otherwise the three fixed warehouses are stored; the flag ends false |
| FisDraft.DetailModal.OpenEffect | client/src/components/FaturaDetailModal.tsx:61-67 | the three loads run only when there is an invoice and the modal is open; otherwise nothing changes |
| FisDraft.DetailModal.HandleInputChange | client/src/components/FaturaDetailModal.tsx:173-180 | the form becomes `Changed(form, event)` |
| FisDraft.DetailModal.HandleSubmit | client/src/components/FaturaDetailModal.tsx:182-191 | no form data changes, `loading` ends false, and `onClose` is emitted |
| Stats.FaturaNumbers | client/src/components/StatsCard.tsx:28 | the set holds exactly the invoice numbers of the records |
| Stats.RecordCount | client/src/components/StatsCard.tsx:40 | the record counter reads back as `data.length` |
| Stats.NumbersAtMostCount | client/src/components/StatsCard.tsx:28 | there are never more distinct invoice numbers than records |
| Stats.UniqueFaturas | client/src/components/StatsCard.tsx:28 | the distinct count never exceeds the record count and is 0 exactly when there are no records |
| Stats.AddDuplicateNumber | client/src/components/StatsCard.tsx:28 | adding a record whose invoice number is present leaves the distinct count unchanged |
| Stats.AddNewNumber | client/src/components/StatsCard.tsx:28 | adding a record with a new invoice number increases the distinct count by one |

## Left out

- Express setup, `listen`, the shutdown handler and connection-pool creation (server/index.js:1-11,98-133,495-520) are I/O. Pool availability and query results are parameters.
- The SQL text is opaque. A recordset is a given sequence of rows; for `/api/latest-fis-no` it is the sequence of `FisNo` strings.
- `/api/health` and `/api/db-test` are left out; one is a constant reply and the other is I/O.
- client/src/services/api.ts, the axios wrapper, is not part of this model. Every reply of the server reaches the client as a parameter.
- OrderSelection.Picker.LoadSiparisler: `getSiparisler` is not among the methods of api.ts, so at run time the call throws and only the `Thrown` branch can happen. The model keeps all branches.
- The order record's module is not part of this model. `Order` keeps only the four searched fields and the row key.
- `toLowerCase` is the parameter `lower`, with no further semantics. Unicode case mapping is not modelled.
- Rendering, `FaturaTable`, `formatDate`, `formatCurrency` and the API health indicator of `App` are presentation or locale calls.
- The StatsCard money sums (StatsCard.tsx:25-27) are floating-point and read fields that `FaturaData` does not have.
- Asynchrony and concurrency are left out: races between overlapping requests, React effect scheduling, and the one-second `setTimeout` of `handleSubmit` (FaturaDetailModal.tsx:187). Each handler is one atomic step. A loading flag that is set and cleared within one step is proved only to end false.
- OrderSelection.Picker: the effect that loads the orders when the picker opens (SiparisSelectionModal.tsx:19-23) is not modelled as its own method.
- JsBuiltins.ParseInt does not model the `0x` hexadecimal prefix. Its whitespace set is the common JavaScript white-space and line-terminator characters, not every Unicode space separator.
- JsBuiltins.DateLe, App.ApplyFilters, ServerRoutes.MockFilter: only `YYYY-MM-DD` strings are dates; they compare lexicographically, which is their chronological order. Every other string is treated as an invalid date, so every comparison with it is false. JavaScript's `Date` also accepts other formats, such as ISO date-times like `2025-07-15T00:00:00.000Z`, which a DATETIME column becomes after JSON serialisation. It compares those chronologically, so the code keeps such a record inside the range where the model drops it. `IsIsoDate` checks the digit shape only: a string like `2025-13-45` is an Invalid Date in JavaScript, so every comparison with it is false there, but the model compares it lexicographically.
- JavaScript objects are maps, so key order is not modelled.
- `FaturaData` has no null fields. The `RIGHT JOIN` of the invoice queries (server/index.js:377,451) can return rows with a null `FATIRS_NO` or `CARI_ISIM`, which the client guards with `fatura?.FATIRS_NO || ''`; null columns are not modelled.
- JavaScript numbers are IEEE doubles. A `JsNumber` holds an `int`, so a fractional live `STRA_GCMIK` quantity is not modelled. A typed `kur` is kept as the raw text of the input (`KurText`); only the initial `kur` is a number, and a fractional `kur` as a number is not modelled.
- JsBuiltins.IntToString, JsBuiltins.ParseIntOfToString, ServerRoutes.FisNumbers, ServerRoutes.LatestFisNo: numbers are exact unbounded integers, which matches JavaScript only below 2^53. From 1e21 up `toString` writes exponent notation (`"1e+21"`), which `parseInt` reads back as 1. From 2^53 up `parseInt` rounds, and `latestFisNo + 1` can equal `latestFisNo`. `Math.max(...numericFisNos)` throws a `RangeError` for a recordset larger than the engine's argument limit, and that error would produce the error envelope.
- ServerRoutes.FilterQuery: each query parameter is an optional string. Express also delivers a repeated parameter (`?carikod=a&carikod=b`) as an array, and that case is not modelled.
