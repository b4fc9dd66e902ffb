# Three-way matching of freight invoices: a Dafny model

This project models the back end of a freight-audit tool. Carriers' invoices
are checked against the purchase order (PO) that ordered the shipment and the
bill of lading (BOL) that records it. This is known as three-way matching.

The model covers:

- **The document store.** It has four tables: `purchase_orders`,
  `bills_of_lading`, `invoices` and `matching_results`. Their declared
  constraints are a primary key, `.unique()` business numbers, and
  `.references(...)` links between tables. Each table is a sequence of rows
  in storage order inside one `Store.Database` object. The services' create,
  lookup, status, approval and link operations are methods that update that
  object in place. Each method is specified by functions on the old tables
  (`SetStatus`, `Tables.UpdateByKey`, `NewRow`) and keeps the table constraints
  (`Database.Valid`).
- **Prefixed identifiers.** `generateId` takes its random nanoid suffix as a
  parameter.
- **The matching engine.**
  - `fetchRelatedDocuments` links the three documents by PO number.
  - `saveMatchingResult` builds the result row (charge comparison, totals,
    flag counts).
  - `updateDocumentStatuses` writes the status updates.
  - `runThreeWayMatch` (the service) and `run-matching` (the background
    job) run these stages in order and differ only in error handling.
  - `getMatchingResultByInvoice` is the lookup.
  - The language-model verdict is an oracle parameter (`MatchingService.Analyzer`).
- **The fuzzy matcher.** It filters pools of unmatched candidates. The
  model's pick by index is an oracle parameter. A pick is accepted at the
  thresholds 0.7 (PO) and 0.2 (BOL).
- **The chat helper.** This is the prompt `chat` assembles from a message
  list, and the defaults `generateText` fills in.

Clocks and random suffixes (`now`, `suffix`) are parameters of the operations
that use them. Amounts and confidences are `real`.

Where the code and its comments disagree, the model follows the code:

- The BOL acceptance threshold is 0.2, although the comment says 0.5 and the
  log message says 0.7.
- A not-matched verdict writes no status. The comment says the statuses
  "stay as is or → disputed", but no code path sets `disputed`.
- Charges that match exactly are stored with status `variance`.
- `match_status` is only ever `perfect_match` or `major_variance`.

## Model

| member | source | states |
|---|---|---|
| Ids.GenerateId | api/src/lib/id.ts:22-24 | the identifier is the entity's prefix, `_` and the suffix: it has the type `Id<e>`, and the suffix can be recovered from it |
| Ids.GenerateIdInjective | api/src/lib/id.ts:22-24 | two identifiers of one entity are equal exactly when their random suffixes are |
| Ids.FileAndFlagShareAPrefix | api/src/lib/id.ts:3-11 | `file` and `flag` both use prefix `f`, so equal suffixes give equal identifiers for different entities |
| Ids.IdDeterminesEntity | api/src/lib/id.ts:3-19 | apart from that pair, an identifier's prefix determines its entity |
| Fields.StringOrNull | api/src/service/bol/bol.service.ts:45 | `value \|\| null` stores NULL exactly when the string is absent or empty, and otherwise keeps it |
| Fields.NumberOrNull | api/src/service/bol/bol.service.ts:44 | `value \|\| null` on a number stores NULL exactly when it is absent or 0 |
| Fields.StringOr | api/src/service/bol/bol.service.ts:196 | `value \|\| fallback` yields the value when it is a non-empty string, and the fallback otherwise |
| BillsOfLading.SharedPoNumberAllowed | api/src/db/schema/bills-of-lading.db.ts:6-17 | `po_number` is not unique: two BOLs quoting one PO number satisfy every table constraint |
| MatchingResults.ManyResultsPerInvoice | api/src/db/schema/matching-results.db.ts:7-21 | nothing makes `invoice_id` unique: two results for one invoice satisfy every constraint |
| Tables.UniqueKeySelectsOne | api/src/db/schema/purchase-orders.db.ts:5-8 | under a primary or `.unique()` key, a lookup by that key selects at most one row |
| Tables.FirstWhereIsEarliest | api/src/service/po/po.service.ts:161-173 | `const [row] = select ... where` yields the earliest qualifying row in storage order |
| POService.NewRow | api/src/service/po/po.service.ts:130-147 | a new PO is `pending`, carries the given identifier and timestamp, and copies every field of the request |
| POService.SetStatus | api/src/service/po/po.service.ts:202-213 | the status update rewrites exactly the rows with that id (status and `updated_at`) and keeps the id and `po_number` columns |
| POService.SetStatusKeepsValid | api/src/service/po/po.service.ts:202-213 | a status update keeps the PO table's constraints |
| POService.CreatePO | api/src/service/po/po.service.ts:118-156 | inserts the new row under a fresh `po_` id; a taken id or PO number is refused and nothing changes; the other tables are untouched |
| POService.GetPOById | api/src/service/po/po.service.ts:161-173 | succeeds exactly when a PO has that id and returns it; otherwise the not-found message |
| POService.GetPOByNumber | api/src/service/po/po.service.ts:178-190 | succeeds exactly when a PO has that number and returns it; otherwise the not-found message |
| POService.UpdatePOStatus | api/src/service/po/po.service.ts:202-220 | the table becomes `SetStatus` of the old one; it returns the updated row, or not-found when no row had that id |
| BOLService.NewRow | api/src/service/bol/bol.service.ts:32-51 | a new BOL is `pending`; `po_id`, weight, item description, POD file and signing time are NULL exactly when the request leaves them absent or falsy; a given charge list, even an empty one, is kept |
| Tables.UpdateByKey | api/src/service/bol/bol.service.ts:168-181 | `update t set f where key = k`: exactly the rows carrying the key are rewritten, in place, and every other row is kept; shared by the BOL and invoice updates (invoice.service.ts:177-196) |
| BOLService.UpdateKeepsValid | api/src/service/bol/bol.service.ts:168-181 | an update that keeps the keys, and sets `po_id` only to an existing PO, keeps the BOL table's constraints and leaves its id and `bol_number` columns as they were |
| BOLService.UpdateReturning | api/src/service/bol/bol.service.ts:168-186 | `update ... returning` then `[updated]`: the table becomes `Tables.UpdateByKey` of the old one, and the rewritten row comes back exactly when a row had that id |
| BOLService.CreateBOL | api/src/service/bol/bol.service.ts:15-59 | inserts the new row; refused (in this order) on a taken id, a taken BOL number, or a `po_id` naming no PO, and then nothing changes |
| BOLService.GetBOLById | api/src/service/bol/bol.service.ts:64-76 | succeeds exactly when a BOL has that id; otherwise the not-found message |
| BOLService.GetBOLByNumber | api/src/service/bol/bol.service.ts:81-93 | succeeds exactly when a BOL has that number; otherwise the not-found message |
| BOLService.GetBOLsByPOId | api/src/service/bol/bol.service.ts:98-103 | returns exactly the BOLs linked to that PO id |
| BOLService.GetBOLsByPONumber | api/src/service/bol/bol.service.ts:108-113 | returns exactly the BOLs quoting that PO number |
| BOLService.UpdateBOLStatus | api/src/service/bol/bol.service.ts:168-186 | rewrites the status of the rows with that id; returns the updated row or not-found |
| BOLService.AttachPOD | api/src/service/bol/bol.service.ts:191-208 | returns the stored row with the proof-of-delivery file, the signing time (now when none or an empty one is given), status `delivered` and `updated_at` set, every other column kept; not-found when no row had that id |
| BOLService.LinkToPO | api/src/service/bol/bol.service.ts:213-228 | sets `po_id` on the BOL; refused with not-found for an unknown BOL and with a reference error for an unknown PO, and then nothing changes |
| InvoiceService.NewRow | api/src/service/invoice/invoice.service.ts:26-51 | a new invoice is `pending`, unapproved, with no match type and confidence 0; each optional field is NULL exactly when absent or falsy |
| InvoiceService.UpdateKeepsValid | api/src/service/invoice/invoice.service.ts:177-196 | an update that keeps the keys and references only existing POs and BOLs keeps the invoice table's constraints and leaves its id and `invoice_number` columns as they were |
| InvoiceService.UpdateReturning | api/src/service/invoice/invoice.service.ts:177-201 | `update ... returning` then `[updated]`: the table becomes `Tables.UpdateByKey` of the old one, and the rewritten row comes back exactly when a row had that id |
| InvoiceService.CreateInvoice | api/src/service/invoice/invoice.service.ts:12-59 | inserts the new row; refused (in this order) on a taken id or invoice number, or on a `po_id` or `bol_id` naming no row |
| InvoiceService.GetInvoiceById | api/src/service/invoice/invoice.service.ts:64-76 | succeeds exactly when an invoice has that id; otherwise the not-found message |
| InvoiceService.GetInvoiceByNumber | api/src/service/invoice/invoice.service.ts:81-93 | succeeds exactly when an invoice has that number; otherwise the not-found message |
| InvoiceService.GetInvoicesByPOId | api/src/service/invoice/invoice.service.ts:157-162 | returns exactly the invoices linked to that PO id |
| InvoiceService.GetInvoicesByBOLId | api/src/service/invoice/invoice.service.ts:167-172 | returns exactly the invoices linked to that BOL id |
| InvoiceService.UpdateInvoiceStatus | api/src/service/invoice/invoice.service.ts:177-201 | rewrites the status of the rows with that id; returns the updated row or not-found |
| InvoiceService.ApproveInvoice | api/src/service/invoice/invoice.service.ts:206-224 | returns the stored row with status `approved`, approver, approval time, the notes (NULL when absent or empty) and `updated_at` set, every other column kept; not-found when no row had that id |
| InvoiceService.LinkToPO | api/src/service/invoice/invoice.service.ts:229-244 | sets `po_id`; refused for an unknown invoice (not-found) or an unknown PO (reference error) |
| InvoiceService.LinkToBOL | api/src/service/invoice/invoice.service.ts:249-264 | sets `bol_id`; refused for an unknown invoice (not-found) or an unknown BOL (reference error) |
| InvoiceService.UpdateMatchInfo | api/src/service/invoice/invoice.service.ts:269-289 | records match type and confidence on the rows with that id; returns the updated row or not-found |
| MatchingService.FetchRelatedDocuments | api/src/service/matching/matching.service.ts:59-94 | raises exactly for an unknown invoice id; null exactly when no PO carries the invoice's PO number; otherwise a PO with that number, and a BOL with it or null exactly when there is none |
| MatchingService.NoPoIsNotAnError | api/src/service/matching/matching.service.ts:73-81 | a known invoice whose PO number matches no PO yields null, not an error |
| MatchingService.DiscrepancyEntries | api/src/service/matching/matching.service.ts:198-207 | one `variance` entry per discrepancy, in order: the field name, numeric values or NULL, and no BOL amount |
| MatchingService.FindChargeByDescription | api/src/service/matching/matching.service.ts:213-216 | finds an invoice charge whose description equals the given one ignoring case, or nothing exactly when there is none |
| MatchingService.MatchedChargeEntries | api/src/service/matching/matching.service.ts:209-226 | at most one entry per PO charge; each is `variance`, with equal PO and invoice amounts and no BOL amount |
| MatchingService.MatchedChargeEntriesSelectMatched | api/src/service/matching/matching.service.ts:209-226 | the pushed entries are exactly the PO charges whose first same-description invoice charge has the same amount, in PO order |
| MatchingService.MatchedEntriesComeFromBothDocuments | api/src/service/matching/matching.service.ts:212-224 | every pushed entry comes from a PO charge and an invoice charge with the same description (ignoring case) and equal amounts |
| MatchingService.ChargeComparisonOf | api/src/service/matching/matching.service.ts:198-226 | the discrepancy entries come first and the matched-charge entries follow; length between \|discrepancies\| and \|discrepancies\| + \|PO charges\|; every entry is `variance` |
| MatchingService.BuildChargeComparison | api/src/service/matching/matching.service.ts:198-226 | the map-then-push loop builds exactly `ChargeComparisonOf` |
| MatchingService.SignificanceIgnoresCase | api/src/service/matching/matching.service.ts:248-250 | whether a discrepancy counts as high severity does not depend on the letter case of its issue text |
| MatchingService.SumAmountsConcat | api/src/service/matching/matching.service.ts:238-241 | the summing reduce distributes over concatenation |
| MatchingService.BolTotal | api/src/service/matching/matching.service.ts:238-241 | `bol_total` is absent exactly when there is no BOL or it has no actual charges, and otherwise is their sum |
| MatchingService.BolId | api/src/service/matching/matching.service.ts:232 | `bol_id` is NULL exactly when there is no BOL or its id is empty |
| MatchingService.NewMatchingResult | api/src/service/matching/matching.service.ts:228-251 | `perfect_match` exactly when matched and `major_variance` otherwise; confidence, totals and variance are copied; `flags_count` = \|discrepancies\| and `high_severity_flags` ≤ it |
| MatchingService.SaveOutcome | api/src/db/schema/matching-results.db.ts:8-21 | the insert succeeds exactly when the id is new and the PO, BOL and invoice it names exist, and then returns the row |
| MatchingService.SaveMatchingResult | api/src/service/matching/matching.service.ts:193-259 | builds `NewMatchingResult` under a fresh `m_` id and inserts it under the constraints; the document tables are not touched |
| MatchingService.BuildResultRow | api/src/service/matching/matching.service.ts:198-251 | the row built equals `NewMatchingResult` |
| MatchingService.InsertResult | api/src/service/matching/matching.service.ts:253-258 | appends the row when `SaveOutcome` accepts it, and otherwise changes nothing |
| MatchingService.StatusesWrittenMarksMatched | api/src/service/matching/matching.service.ts:270-297 | after a match, the PO, the BOL (when present) and the invoice all read `matched` |
| MatchingService.UpdateDocumentStatuses | api/src/service/matching/matching.service.ts:267-299 | on a match, three updates by id set `matched`; without one, nothing is written; constraints kept |
| MatchingService.MarkPoMatched | api/src/service/matching/matching.service.ts:272-279 | the PO table becomes `SetStatus(..., matched, now)` |
| MatchingService.MarkBolMatched | api/src/service/matching/matching.service.ts:281-289 | the BOL table becomes its update by id to `matched` |
| MatchingService.MarkInvoiceMatched | api/src/service/matching/matching.service.ts:291-297 | the invoice table becomes its update by id to `matched` |
| MatchingService.FetchedRowsAreReferenceable | api/src/service/matching/matching.service.ts:228-236 | the documents read by the fetch satisfy the references the result row makes to them |
| MatchingService.MatchRun | api/src/service/matching/matching.service.ts:306-350 | the stages started are a prefix of fetch, analyze, save, update; early exit exactly when the fetch finds no PO; a raise at fetch is the invoice-not-found error |
| MatchingService.RunFrom | api/src/service/matching/matching.service.ts:323-333 | after a fetch, a run always reaches the analysis stage and never takes the early exit |
| MatchingService.SaveStage | api/src/service/matching/matching.service.ts:326-333 | a failed save stops after the save stage; a completed run carries the fetched documents and the verdict |
| MatchingService.RunFromEnds | api/src/service/matching/matching.service.ts:323-333 | a run raises after analysis exactly when the analyzer fails; a save can only fail on an id collision; a completed run saved the verdict's row |
| MatchingService.ServiceOutcome | api/src/service/matching/matching.service.ts:313-349 | succeeds exactly for a completed run, reporting `matched`, the row and the verdict; otherwise a failure with no result and the error message |
| MatchingService.RunThreeWayMatch | api/src/service/matching/matching.service.ts:306-350 | returns `ServiceOutcome` of the run; only a completed run appends its row and writes statuses, and any other run changes no table |
| MatchingService.RunFetched | api/src/service/matching/matching.service.ts:323-340 | the stages after a fetch, with the same outcome and writes as `RunFrom` |
| MatchingService.SaveThenUpdate | api/src/service/matching/matching.service.ts:326-333 | statuses are written only after the row is saved; a refused save changes nothing |
| MatchingService.EarliestOf | api/src/service/matching/matching.service.ts:358-363 | `orderBy(created_at).limit(1)`: no row exactly when none qualifies; otherwise a qualifying row created no later than any other |
| MatchingService.EarliestOfAppend | api/src/service/matching/matching.service.ts:358-363 | adding a row changes the earliest only when the new row is strictly earlier |
| MatchingService.RerunKeepsEarliestResult | api/src/service/matching/matching.service.ts:355-366 | a later run for the same invoice does not change what the lookup returns |
| MatchingService.GetMatchingResultByInvoice | api/src/service/matching/matching.service.ts:355-366 | null exactly when the invoice has no result; otherwise one of its results with the least `created_at` |
| MatchingJob.JobOutcomeOf | api/src/service/matching/matching.job.ts:23-64 | the job throws exactly when a stage raised (same message and stages); the early exit returns the fixed failure; a completed run returns success |
| MatchingJob.JobAgreesWithService | api/src/service/matching/matching.job.ts:23-64 | on every run that does not raise, job and service return the same outcome; when one raises, the service reports as a failure the message the job throws |
| MatchingJob.RunMatchingJob | api/src/service/matching/matching.job.ts:14-65 | ends as `JobOutcomeOf` of the same run and leaves the tables exactly as `RunThreeWayMatch` does |
| MatchingJob.RunSteps | api/src/service/matching/matching.job.ts:35-64 | the analyze, save and update steps, ending as `JobOutcomeOf(RunFrom(...))` |
| FuzzyMatcher.UnmatchedPOs | api/src/service/matching/fuzzy-matcher.service.ts:125-135 | the pool is exactly the POs in status `pending` or `bol_received` |
| FuzzyMatcher.UnmatchedBOLs | api/src/service/matching/fuzzy-matcher.service.ts:140-145 | the pool is exactly the `pending` BOLs |
| FuzzyMatcher.Lookup | api/src/service/matching/fuzzy-matcher.service.ts:210 | indexing yields a candidate exactly for an index inside the pool |
| FuzzyMatcher.Analyze | api/src/service/matching/fuzzy-matcher.service.ts:199-213 | fails on an oracle error, on a confidence outside [0, 1] (the schema) or on index -1; otherwise it passes the looked-up candidate, confidence and reasoning through |
| FuzzyMatcher.Accept | api/src/service/matching/fuzzy-matcher.service.ts:52-68 | a proposal is kept exactly when analysis succeeded with confidence at or above the threshold; any error becomes no match |
| FuzzyMatcher.FindMatchingPO | api/src/service/matching/fuzzy-matcher.service.ts:37-69 | no match with an empty pool; a match exactly when the oracle answers within the schema with an index other than -1 and confidence ≥ 0.7; a found candidate is an unmatched PO |
| FuzzyMatcher.FindMatchingBOL | api/src/service/matching/fuzzy-matcher.service.ts:74-120 | the same with the pending BOLs and threshold 0.2 |
| FuzzyMatcher.OutOfRangeIndexAccepted | api/src/service/matching/fuzzy-matcher.service.ts:209-213 | index 1 on a one-PO pool at confidence 0.9 is accepted as a match with no PO |
| FuzzyMatcher.NegativeIndexAcceptedForBol | api/src/service/matching/fuzzy-matcher.service.ts:292-296 | index -2 on a one-BOL pool at confidence 0.5 is accepted as a match with no BOL |
| FuzzyMatcher.AnalyzeChecked | api/src/service/matching/fuzzy-matcher.service.ts:205-213 | succeeds exactly when the index lies inside the pool, and returns that element |
| FuzzyMatcher.FindMatchingPOChecked | api/src/service/matching/fuzzy-matcher.service.ts:37-69 | a proposal is always an unmatched PO with confidence ≥ 0.7, and is made exactly when the index is inside the pool |
| FuzzyMatcher.FindMatchingBOLChecked | api/src/service/matching/fuzzy-matcher.service.ts:74-120 | a proposal is always a pending BOL with confidence ≥ 0.2, and is made exactly when the index is inside the pool |
| FuzzyMatcher.CheckedAgreesInRange | api/src/service/matching/fuzzy-matcher.service.ts:209-213 | whenever the written lookup finds a candidate, the checked version accepts the same proposal |
| AiService.ResolveDefaults | api/src/service/ai/Ai.service.ts:164-173 | an omitted model, temperature or token limit becomes FLASH, 1 or 2048, and a given one is kept; prompt and system prompt pass through |
| AiService.ResolveDefaultsIdempotent | api/src/service/ai/Ai.service.ts:164-173 | filling in defaults twice changes nothing, and fully specified settings are kept as they are |
| AiService.Conversation | api/src/service/ai/Ai.service.ts:284 | the conversation is exactly the non-system messages |
| AiService.SystemPrompt | api/src/service/ai/Ai.service.ts:283 | absent exactly when there is no system message; otherwise the content of the earliest one |
| AiService.Context | api/src/service/ai/Ai.service.ts:292-295 | the rendered history is empty exactly when the conversation has a single message |
| AiService.Chat | api/src/service/ai/Ai.service.ts:279-306 | raises "Last message must be from user" exactly when the conversation is empty or does not end with a user message; the prompt is the sole message, or the history, a blank line and `user: ` and the last message; defaults apply |
| AiService.PromptEndsWithLastMessage | api/src/service/ai/Ai.service.ts:297-299 | the prompt always ends with the last user message's content |
| AiService.SystemMessagesNotInPrompt | api/src/service/ai/Ai.service.ts:284-299 | removing a system message from anywhere changes neither acceptance nor the prompt |

## Left out

- Database I/O, drizzle and Postgres are modelled as in-memory sequences. Unordered `select`s return rows in storage order, and `[row]` takes the first of them.
- Concurrency between requests and jobs is left out. Each operation is atomic here.
- Inngest step memoisation and retries are left out, and so is `createMatchingJob`, which only enqueues an event.
- The language-model calls, their prompt text and the parsing of their replies are left out. That covers `analyzeMatchWithLLM`, `checkMatchWithLLM`, and the fence stripping and `JSON.parse`. Each is an oracle parameter that returns a typed verdict or an error.
- `generateObject` is left out. Its own defaults are FLASH and temperature 1, with no token default, so `ResolveDefaults` does not describe it.
- `nanoid` and `new Date().toISOString()` are parameters: a random suffix and one `now` per operation.
- Timestamps are compared as text, which is chronological for `toISOString` output.
- Text.ToLower folds ASCII letters only. JavaScript's `toLowerCase` also folds other scripts.
- Amounts and confidences are `real`. Floating-point rounding and `===` on floats are not modelled.
- FuzzyMatcher.Lookup: the model's `best_match_index` is an integer. A fractional index, which also yields `undefined`, is not modelled.
- The order of constraint errors in `CreateBOL`, `CreateInvoice` and `SaveOutcome` is fixed. The database reports one violation in an order the code does not control.
- References to the `files` table are not checked. `files.db.ts` and `flags.db.ts` are not part of this model.
- The `getAllPOs`, `getAllBOLs`, `getAllInvoices` and `getAllMatchingResults` queries are left out, along with their filters and file joins.
- The Elysia route tables and the request validation they do are left out.
- `generateText` and `streamText` are modelled only by the settings they pass to the model (`ResolveDefaults`). The call itself, the stream and the usage figures are left out.
- `createPO`'s `fileId` is dropped, because the `purchase_orders` schema has no column for it.
- The BOL services import their row type from `bol.db`, which is not part of this model. The modelled BOL row has the columns of `bills-of-lading.db.ts`, plus the required `file_id` that `createBOL` writes. That schema declares no `file_id`, so the service's row type, not that schema, decides this column.
- Store.Message: the texts for duplicate-key and foreign-key errors are stand-ins that name the violated column. The database driver's wording is not modelled, so the `error` of `ServiceOutcome` and the job's thrown message carry these stand-ins after a failed save. Only the not-found texts are the services' own.
- Nullable `match_confidence` and `flags_count` are modelled as always present, since every insert here sets them.
- MatchingService.Analyzer: a verdict is assumed to have the declared field types. A reply with other types, which `JSON.parse` would let through, is not modelled.

## Findings

| source | as written | input that shows it | evidently intended | confidence | as-written member | corrected member |
|---|---|---|---|---|---|---|
| api/src/service/matching/fuzzy-matcher.service.ts:205-213, 288-296 | only index -1 is rejected, and any other index is used to read the candidate list without a range check | one pending PO, and the model answers index 1 (or -2) with confidence 0.9: `findMatchingPO` returns a match whose `po` is `undefined` | an index outside the pool is treated as "no match", so an accepted candidate is always one of the unmatched documents | not executed | FuzzyMatcher.OutOfRangeIndexAccepted | FuzzyMatcher.FindMatchingPOChecked |
