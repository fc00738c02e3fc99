# DC MailPoet Manager — a verified model

DC MailPoet Manager is a WordPress admin screen over MailPoet's tables. It lists subscribers with
filters, sorting and pages, and it applies bulk actions to a selection in chunks: add or remove tags,
add or remove lists, unsubscribe, and export to CSV. This project models its server side (the PHP
query layer, the bulk engine, the request helpers and the REST callbacks) and its client side (the
`apiFetch` wrappers, the two hooks and the pagination, filter and bulk-bar controls). It proves what
each of them promises, alone and end to end.

The modules follow the source files:

| module | file | models |
|---|---|---|
| `Common` | common.dfy | Option, ASCII lower-casing, decimal digits, `array_slice`/`LIMIT … OFFSET` as `Window` |
| `Helpers` | helpers.php | PHP request values, truthiness, `(int)`, `absint`, `dcmm_sanitize_int_array`, `dcmm_validate_sort`, `dcmm_validate_order`, `dcmm_table` |
| `Store` | the MailPoet tables | the tables as row sequences in storage order; class `Database` (`$wpdb`) whose methods are the plugin's INSERT IGNORE, DELETE and UPDATE statements |
| `Queries` | class-queries.php | `detect_npa_field_id`; the WHERE builder (`BuildWhere`, step by step) with an evaluator of its clauses; ORDER BY; the main and COUNT queries; grouping of tags and lists; item assembly (`GetSubscribers`) |
| `Bulk` | class-bulk.php | `execute`, the five actions as methods on `Database`, and `export_csv` as the lines it writes |
| `Rest` | class-rest.php | `get_subscribers` parameter normalisation, `post_bulk` reading and validation, `get_meta` |
| `Filters` | useSubscribers.js | the client's filter object and `DEFAULT_FILTERS` |
| `Api` | api.js | class `SearchParams` and `fetchSubscribers`; `executeBulk` as a loop against `post_bulk` |
| `SubscribersHook` | useSubscribers.js | the `updateFilters` reducer, the debounce as explicit events, the request-id guard |
| `BulkHook` | useBulk.js | `run` and `reset` as a class with the hook's state |
| `Pagination`, `FiltersBar`, `BulkBar` | the three components | page arithmetic and buttons; pickers and handlers; guards, progress percentage, notices |

The two sides meet in the model. `Api.ExecuteBulk` drives `Rest.PostBulk`, which runs `Bulk.Execute`
on the `Database`. `Api.ServerReadsFilters` shows that the query string `fetchSubscribers` builds is
read by `get_subscribers` back into the same filters.

Some details of the code that the model keeps:
- the page size defaults to 25 (src/hooks/useSubscribers.js:9, includes/class-rest.php:65);
- the server caps a bulk chunk at 500 ids, read from the body key `chunk` (includes/class-rest.php:95);
- an empty slice reports `processed = offset` and nothing remaining (includes/class-bulk.php:36-41);
- the exact NPA filter compares strings and is ANDed with any range clause (includes/class-queries.php:131-146);
- the parameter naming the NPA field is `npa_field_id` (includes/class-queries.php:107-109);
- a failed chunk gets status 500 (includes/class-rest.php:113), and `apiFetch` rejects every non-2xx response, so `executeBulk` (src/api.js:59-63) sees a thrown error, never a body with `ok: false`.

## Model

| member | source | states |
|---|---|---|
| Common.Lower | includes/helpers.php:62 | the result has the input's length, and each character is the ASCII lower case of the input's |
| Common.Window | includes/class-bulk.php:36 | the slice holds max(0, min(limit, n − offset)) elements, and element i is input element offset + i |
| Helpers.StrToInt | includes/class-queries.php:139-146 | PHP 8's (int) of a string: leading white space, sign, digits, fraction and exponent; truncated toward zero; always within PHP_INT_MIN..PHP_INT_MAX; 0 when the string has no leading number |
| Helpers.ExponentScales | includes/class-queries.php:139-146 | digits, `e`, digits casts to whole × 10^exponent, saturated at PHP_INT_MAX (so "1e3" is 1000) |
| Helpers.FractionTruncated | includes/class-queries.php:139-146 | a decimal fraction casts to its whole part (so "2.5" is 2), saturated at PHP_INT_MAX |
| Helpers.NegativeOverflowSaturates | includes/class-queries.php:139-146 | a negative exponent form below PHP_INT_MIN casts to PHP_INT_MIN |
| Helpers.MinusTenToNineteen | includes/class-queries.php:139-146 | "-1e19" casts to PHP_INT_MIN |
| Helpers.AbsInt | includes/helpers.php:47 | absint is the absolute value of PHP 8's (int) cast of the value, exponent, fraction and saturation included |
| Helpers.DecimalStrToInt | includes/helpers.php:47 | a decimal string of a number within PHP_INT_MAX casts back to that number, so absint of it is the number |
| Helpers.KeepPositive | includes/helpers.php:47 | the kept values are no more than the input's elements, and each is > 0 |
| Helpers.SanitizeIntArray | includes/helpers.php:43-48 | a non-array gives []; every element of the result is > 0 |
| Helpers.SanitizeMembers | includes/helpers.php:47 | v is in the result iff v > 0 and some input element has absint v |
| Helpers.SanitizeExact | includes/helpers.php:47 | input whose elements are already positive comes back unchanged, order and duplicates included |
| Helpers.SanitizeIdempotent | includes/helpers.php:43-48 | a sanitized list, sent again as integers, sanitizes to itself |
| Helpers.ValidateSort | includes/helpers.php:53-56 | the result is on the allow-list; it equals the input iff the input is on it; otherwise it is created_at |
| Helpers.ValidateSortIdempotent | includes/helpers.php:53-56 | validating a validated sort changes nothing |
| Helpers.ValidateOrder | includes/helpers.php:61-63 | the result is ASC or DESC, and ASC iff the lower-cased input is asc |
| Helpers.ValidateOrderIdempotent | includes/helpers.php:61-63 | validating a validated order changes nothing |
| Helpers.MailPoetTable | includes/helpers.php:20-28 | exactly the seven aliases have a table, named mailpoet_ + alias |
| Helpers.Table | includes/helpers.php:17-35 | a known alias gives prefix + mailpoet_ + alias; any other aborts with "Unknown MailPoet table alias: " + alias |
| Store.NameOf | includes/class-queries.php:261-264 | the JOIN finds a name iff the catalogue has a row with that id, and the pair is a catalogue row |
| Store.ValueOf | includes/class-queries.php:196-201 | the LEFT JOIN finds a stored value for (subscriber, field), or there is none |
| Store.SetStatus | includes/class-bulk.php:189 | same length; a subscriber whose id is listed gets the new status, every other row and column is unchanged |
| Store.InsertIgnoreTagsEffect | includes/class-bulk.php:93-96 | INSERT IGNORE keeps the existing rows as a prefix, the pairs afterwards are the old ones plus the new ones, and no duplicate row appears |
| Store.InsertIgnoreTagsPresent | includes/class-bulk.php:93-96 | inserting rows that are all present changes nothing |
| Store.InsertIgnoreTagsContains | includes/class-bulk.php:93-96 | every inserted and every existing row is in the result |
| Store.DeleteTagsEffect | includes/class-bulk.php:116-120 | a link survives iff it was there and its subscriber or its tag is not listed; no duplicates appear |
| Store.InsertIgnoreSegmentsEffect | includes/class-bulk.php:148-151 | an existing membership keeps its status; a missing one takes the first inserted row's status |
| Store.InsertIgnoreSegmentsUnique | includes/class-bulk.php:148-151 | the keyed insert never duplicates a (subscriber, segment) key |
| Store.DeleteSegmentsEffect | includes/class-bulk.php:171-175 | a membership disappears iff its subscriber and its segment are both listed; no row is added |
| Store.DeleteSegmentsUnique | includes/class-bulk.php:171-175 | the delete keeps (subscriber, segment) keys unique |
| Store.Database.InsertIgnoreTagLinks | includes/class-bulk.php:96 | only subscriber_tag changes, to the INSERT IGNORE of the rows |
| Store.Database.DeleteTagLinks | includes/class-bulk.php:120 | only subscriber_tag changes, to the DELETE of the listed pairs |
| Store.Database.InsertIgnoreSegmentLinks | includes/class-bulk.php:151 | only subscriber_segment changes, to the keyed INSERT IGNORE of the rows |
| Store.Database.DeleteSegmentLinks | includes/class-bulk.php:175 | only subscriber_segment changes, to the DELETE of the listed pairs |
| Store.Database.UpdateStatus | includes/class-bulk.php:192 | only subscribers changes, with the listed ids set to the new status |
| Bulk.TagRowsFor | includes/class-bulk.php:86-90 | the inner loop appends one (subscriber, tag) row per tag, in tag order |
| Bulk.SegmentRowsFor | includes/class-bulk.php:140-145 | the inner loop appends one (subscriber, list, "subscribed") row per list, in list order |
| Bulk.TagRowsMembers | includes/class-bulk.php:85-91 | the insert rows are exactly chunk × tags |
| Bulk.SegmentRowsMembers | includes/class-bulk.php:139-146 | the insert rows are exactly chunk × lists, each with status subscribed |
| Bulk.SegmentRowsStatus | includes/class-bulk.php:139-146 | every pair of chunk × lists is sent with status subscribed, and no other pair is sent |
| Bulk.AddTags | includes/class-bulk.php:74-99 | no tag ids: "No tag IDs provided." and nothing written; otherwise ok, and subscriber_tag is the INSERT IGNORE of chunk × tags |
| Bulk.RemoveTags | includes/class-bulk.php:104-123 | no tag ids: the error and nothing written; otherwise ok, and the links in chunk × tags are deleted |
| Bulk.AddLists | includes/class-bulk.php:128-154 | no list ids: "No list IDs provided." and nothing written; otherwise ok, and the INSERT IGNORE of chunk × lists as subscribed |
| Bulk.RemoveLists | includes/class-bulk.php:159-178 | no list ids: the error and nothing written; otherwise ok, and the memberships in chunk × lists are deleted |
| Bulk.Unsubscribe | includes/class-bulk.php:183-195 | always ok; the chunk's subscribers become unsubscribed and nothing else changes |
| Bulk.ExecuteResponse | includes/class-bulk.php:35-69 | an empty slice is ok with processed = offset and remaining 0; otherwise ok with processed = offset + slice length and remaining = max(0, n − processed), or the failure whose message is one of the four; a download URL only on an export's first chunk |
| Bulk.ExecuteEffect | includes/class-bulk.php:40-56 | the catalogues and custom fields never change; each action touches only its own table |
| Bulk.Execute | includes/class-bulk.php:27-69 | the response, the new tables and the file written are those of ExecuteResponse, ExecuteEffect on the slice, and ExecuteFile |
| Bulk.RunAction | includes/class-bulk.php:44-52 | the match on the action: its outcome, its effect on the chunk, and the export file only at offset 0 when the file opens |
| Bulk.FailureWritesNothing | includes/class-bulk.php:51-56 | a failed response leaves every table and the file untouched |
| Bulk.AddTagPairs | includes/class-bulk.php:85-96 | after add_tag the pairs are the old ones plus chunk × tags, with no duplicate row |
| Bulk.RemoveTagLinks | includes/class-bulk.php:113-120 | after remove_tag a link is present iff it was there and is not in chunk × tags |
| Bulk.AddListStatus | includes/class-bulk.php:139-151 | after add_list a missing membership in chunk × lists is subscribed, and every existing one keeps its status |
| Bulk.RemoveListStatus | includes/class-bulk.php:168-175 | after remove_list exactly the memberships in chunk × lists are gone |
| Bulk.UnsubscribeStatus | includes/class-bulk.php:186-192 | a subscriber becomes unsubscribed iff its id is in the chunk; its other columns never change |
| Bulk.DeleteTagsIdempotent | includes/class-bulk.php:116-120 | deleting the same pairs again deletes nothing |
| Bulk.DeleteSegmentsIdempotent | includes/class-bulk.php:171-175 | deleting the same memberships again deletes nothing |
| Bulk.InsertIgnoreSegmentsPresent | includes/class-bulk.php:148-151 | inserting rows whose keys are all present changes nothing |
| Bulk.InsertIgnoreSegmentsIdempotent | includes/class-bulk.php:148-151 | inserting the same rows twice equals inserting them once |
| Bulk.InsertIgnoreTagsIdempotent | includes/class-bulk.php:93-96 | inserting the same rows twice equals inserting them once |
| Bulk.SetStatusIdempotent | includes/class-bulk.php:189-192 | setting the same status twice equals setting it once |
| Bulk.ExecuteIdempotent | includes/class-bulk.php:44-52 | running the same chunk of any action twice leaves the tables as running it once |
| Bulk.ExecutePreservesValid | includes/class-bulk.php:44-52 | every action keeps the tables' unique keys |
| Bulk.Batches | includes/class-bulk.php:245-246 | array_chunk: every batch is non-empty and holds at most 500 ids |
| Bulk.BatchesFlatten | includes/class-bulk.php:246 | the batches put back together are the id list |
| Bulk.BatchesCount | includes/class-bulk.php:246 | there are ⌈n / 500⌉ batches |
| Bulk.BatchesCover | includes/class-bulk.php:246-248 | an id is in some batch iff it is in the list |
| Bulk.RowsInMembers | includes/class-bulk.php:262-267 | a batch's SELECT returns a row iff it is a stored subscriber's joined row whose id is in the batch |
| Bulk.ExportRowsMembers | includes/class-bulk.php:248-270 | the rows of all batches are the stored subscribers' rows whose id is in some batch |
| Bulk.ExportCoversIds | includes/class-bulk.php:246-270 | the export writes a stored subscriber's row iff its id is among all the ids, not only the chunk's |
| Bulk.ExportSound | includes/class-bulk.php:262-267 | every exported row is a stored subscriber whose id was requested, with its NPA join |
| Bulk.CsvLine | includes/class-bulk.php:303-312 | one line has the header's eight columns |
| Bulk.LinesOf | includes/class-bulk.php:301-313 | one line per row, in row order, each the CSV line of the row's item |
| Bulk.ExportBatch | includes/class-bulk.php:249-313 | the loops over one batch write the lines of the batch's rows with their grouped tag and list names |
| Bulk.WriteBatches | includes/class-bulk.php:248-314 | the header, then the lines of every batch in turn |
| Bulk.ExportCsv | includes/class-bulk.php:208-319 | offset > 0: ok and nothing written; a file that cannot open: the error and nothing written; otherwise ok with the URL, and the file is the header plus one line per exported subscriber |
| Queries.DetectNpaFieldId | includes/class-queries.php:77-86 | some id iff some custom field's lower-cased name is npa, and it is the id of such a field |
| Queries.ResolveNpaField | includes/class-queries.php:107-109 | a non-empty explicit npa_field_id wins; otherwise the detected field |
| Queries.EvalWhereAppend | includes/class-queries.php:191 | appending clauses with their values ANDs their meaning onto the clauses before them |
| Queries.MembershipClause | includes/class-queries.php:150-189 | the clause and values appended for an id list mean the any/all membership rule |
| Queries.PieceMeaning | includes/class-queries.php:115-189 | each step's clauses and values evaluate to exactly that step's condition |
| Queries.BuiltMeaning | includes/class-queries.php:112-191 | the first k steps evaluate to the conjunction of the first k conditions |
| Queries.BuiltMatches | includes/class-queries.php:112-191 | the six steps evaluate to Matches, with placeholders and values in lockstep |
| Queries.ScalarClausePresence | includes/class-queries.php:116-134 | the search clause appears iff search ≠ ""; status iff status ≠ ""; exact NPA iff npa ≠ "" and a field is resolved |
| Queries.RangeClausePresence | includes/class-queries.php:137-147 | BETWEEN for both bounds, ≥ or ≤ for one, none without a resolved field or without bounds |
| Queries.MembershipClausePresence | includes/class-queries.php:150-189 | a tag (list) clause appears iff the id list is non-empty, the all form iff the mode is all; never for an empty list |
| Queries.SearchBindsThrice | includes/class-queries.php:116-122 | the search clause comes first and binds the search text three times |
| Queries.AddSearch | includes/class-queries.php:116-122 | appends the search step's clauses and values |
| Queries.AddStatus | includes/class-queries.php:125-128 | appends the status step's clauses and values |
| Queries.AddNpaExact | includes/class-queries.php:131-134 | appends the exact-NPA step's clauses and values |
| Queries.AddNpaRange | includes/class-queries.php:137-147 | appends the NPA range step's clauses and values, each bound being PHP 8's (int) cast of the given string |
| Queries.AddMembership | includes/class-queries.php:150-189 | appends the tag or list step's clauses and values |
| Queries.BuildWhere | includes/class-queries.php:111-191 | placeholders equal bound values, and the clauses evaluate exactly to Matches, for every row |
| Queries.AllModeWithDuplicatesMatchesNobody | includes/class-queries.php:153-160 | all mode with a repeated id matches no subscriber |
| Queries.AllModeMeansEvery | includes/class-queries.php:153-160 | with distinct ids, all mode holds iff every requested id is held; extra memberships never disqualify |
| Queries.AnyModeMeansSome | includes/class-queries.php:161-167 | any mode holds iff at least one requested id is held |
| Queries.EmptyIdsIgnoreMode | includes/class-queries.php:150 | an empty id list filters nothing, whatever the mode |
| Queries.OrderKey | includes/class-queries.php:205-214 | numeric NPA iff sort is npa and a field is resolved; never the virtual npa column; otherwise the requested column |
| Queries.NpaSortFallback | includes/class-queries.php:210-211 | npa without a resolved field sorts by created_at |
| Queries.GroupBySubscriber | includes/class-queries.php:268-274 | each subscriber's map entry holds its joined rows' entries in row order, and [] when absent |
| Queries.GroupOfJoin | includes/class-queries.php:260-293 | grouping the joined rows gives each listed subscriber exactly its own entries, in link order |
| Queries.GetSubscribers | includes/class-queries.php:99-313 | total is the number of matching subscribers, and items is the requested page of the ordered listing with each subscriber's tags and lists |
| Queries.MainQueryIsWindow | includes/class-queries.php:216-230 | the main query with [limit, offset] appended is the page's window of the listing |
| Queries.CountIsTotal | includes/class-queries.php:237-248 | the COUNT query with the same clauses and values counts the matching subscribers |
| Queries.AssembleItems | includes/class-queries.php:296-310 | one item per main row, in row order, with its tags and lists or [] |
| Queries.ListingMembers | includes/class-queries.php:221-230 | a subscriber's row is listed iff it matches |
| Queries.ListingSound | includes/class-queries.php:221-230 | every listed row is a stored subscriber's row that matches |
| Queries.ListingSorted | includes/class-queries.php:208-225 | the listing follows the ORDER BY key, and its ids are distinct |
| Queries.TotalIsListingLength | includes/class-queries.php:237-248 | the COUNT total is the length of the full listing |
| Queries.PageSize | includes/class-queries.php:216-226 | a page holds min(per_page, total − offset) items at offset (page − 1) × per_page, none past the end |
| Queries.ConsecutivePages | includes/class-queries.php:217-218 | page n followed by page n + 1 is the double-size window at page n's offset |
| Queries.EntriesMembers | includes/class-queries.php:260-274 | a subscriber's entries are the catalogue rows it has a link to |
| Queries.ItemMemberships | includes/class-queries.php:299-309 | an item's tags are exactly the catalogue tags its subscriber is linked to; its lists likewise |
| Rest.Param | includes/class-rest.php:88-93 | a missing body key reads as null |
| Rest.Coalesce | includes/class-rest.php:66-76 | `??` replaces only null |
| Rest.Elvis | includes/class-rest.php:64-65 | `?:` replaces every falsy value |
| Rest.Mode | includes/class-rest.php:69-71 | the mode is all iff the parameter is exactly the string all, otherwise any |
| Rest.PerPage | includes/class-rest.php:65 | per_page is never above 200 |
| Rest.IdsParam | includes/class-rest.php:68-70 | every id read is > 0 |
| Rest.QueryParamsNormalised | includes/class-rest.php:63-77 | whatever the request, page ≥ 0, per_page in 0..200, known modes, positive ids, an allowed sort, ASC or DESC, and no npa_field_id |
| Rest.TypedPagingInRange | includes/class-rest.php:121-124 | with integer-typed page and per_page, page ≥ 1, per_page in 1..200 and the offset ≥ 0 |
| Rest.QueryDefaults | includes/class-rest.php:63-77 | an empty query gives page 1, 25 per page, no filters, any, created_at, DESC |
| Rest.QueryFieldIsMetaField | includes/class-rest.php:46-79 | the listing always uses the NPA field get_meta reports |
| Rest.GetSubscribersRoute | includes/class-rest.php:60-82 | status 200, with the total of matching subscribers and the page of the normalised params |
| Rest.ReadBulk | includes/class-rest.php:88-95 | chunk ≤ 500, 500 when absent and 0 when 0; offset 0 when absent; positive ids |
| Rest.Rejection | includes/class-rest.php:97-108 | no ids, then more than 5000, then an action outside the six, each exactly when the earlier checks pass |
| Rest.PostBulkReply | includes/class-rest.php:97-115 | 400 iff rejected, with the message; otherwise execute's response, with 200 iff it is ok and 500 iff it failed |
| Rest.PostBulk | includes/class-rest.php:87-116 | a rejection writes nothing; otherwise the tables change by the chunk's effect and the file by the export's |
| Rest.AcceptedActionIsKnown | includes/class-rest.php:105-111 | an accepted request never gets "Unknown action." |
| Rest.ChunkNeverExceedsCap | includes/class-rest.php:95 | the server never runs more than 500 ids per request |
| Rest.GetMeta | includes/class-rest.php:46-55 | npa_field_id is set iff some custom field is named npa (any case), and names such a field |
| Api.SearchParams.Set | src/api.js:24-32 | set replaces the values of an existing key in place, or appends the key |
| Api.SearchParams.Append | src/api.js:35 | append adds one pair at the end |
| Api.SetEntryGet | src/api.js:24-32 | after set(k, v), get(k) is v and getAll(k) is [v]; other keys read as before |
| Api.Values | src/api.js:35 | one key=String(id) pair per id, in order |
| Api.SetIfTruthy | src/api.js:24-32 | the pair is added iff the value is truthy |
| Api.AppendMembership | src/api.js:34-41 | the ids are appended in order, then the mode, only for a non-empty list |
| Api.SetListing | src/api.js:24-29 | the listing keys: page, per_page, search, status, sort, order, each when truthy |
| Api.SetPaging | src/api.js:24-25 | page and per_page, each when non-zero |
| Api.SetSearch | src/api.js:26-29 | search, status, sort and order, each when non-empty |
| Api.SetNpa | src/api.js:30-32 | npa, npa_min, npa_max, each when non-empty |
| Api.FetchSubscribersQuery | src/api.js:21-43 | the query holds the truthy scalars, then the tag and list ids with their modes |
| Api.QueryCarriesFilters | src/api.js:24-41 | every scalar key carries exactly what the filters send for it: a truthy value, and a mode only beside its ids |
| Api.QueryCarriesIds | src/api.js:34-41 | the tag and list ids arrive whole and in order under tags[] and lists[] |
| Api.PageReadBack | includes/class-rest.php:64 | a positive page within PHP_INT_MAX sent as its decimal string is read back as itself |
| Api.PerPageReadBack | includes/class-rest.php:65 | a per_page in 1..200 sent as its decimal string is read back as itself |
| Api.IdsReadBack | includes/class-rest.php:68-70 | positive ids within PHP_INT_MAX sent as decimal strings sanitize back to the same list |
| Api.QueryCarries | src/api.js:24-41 | the query fetchSubscribers builds carries the filters |
| Api.ReceivedArrives | includes/class-rest.php:63-77 | the parameters PHP parses from a query that carries the filters hold each sent filter under its key, and nothing under an unsent one |
| Api.PagingRead | includes/class-rest.php:64-65 | page and page size sent as decimals are read back as themselves |
| Api.TextRead | includes/class-rest.php:66-74 | a text filter, sent only when non-empty, is read back as itself |
| Api.IdsRead | includes/class-rest.php:68-70 | an id list, sent only when non-empty, is read back as itself |
| Api.ModeRead | includes/class-rest.php:69-71 | a mode is read as sent beside its ids, and as any without them |
| Api.SortRead | includes/class-rest.php:75 | an allowed sort column is read back as itself |
| Api.OrderRead | includes/class-rest.php:76 | asc and desc are read back as ASC and DESC |
| Api.ArrivedRead | includes/class-rest.php:63-77 | get_subscribers reads the delivered parameters as the same filters, a mode without ids as any, the order upper-cased |
| Api.ServerReadsFilters | src/api.js:21-43 | round trip: the query sent for well-formed filters is read by get_subscribers back into the same filters |
| Api.ChunkOf | src/api.js:54 | `body.chunk \|\| 500`: never 0, the body's chunk when set, 500 otherwise |
| Api.SanitizedIds | includes/helpers.php:47 | the server's id list has no more ids than sent, each > 0 |
| Api.SanitizedInts | includes/helpers.php:43-48 | dcmm_sanitize_int_array of a JSON array of numbers is SanitizedIds |
| Api.WireOffset | src/api.js:59-63 | every request of a run reads as the first one except for its offset, and its chunk is in 1..500 |
| Api.ApiFetch | src/api.js:59-63 | apiFetch resolves iff the status is 2xx with a body from execute |
| Api.Advance | includes/class-bulk.php:35-38 | a chunk at m × c that leaves ids remaining ends at (m + 1) × c, inside the list; one that leaves none covers the list |
| Api.Request | src/api.js:59-63 | one POST: the tables change by the chunk's effect iff post_bulk accepts, and the outcome is post_bulk's answer through apiFetch |
| Api.RunningStep | src/api.js:71-75 | a response with ids remaining moves the loop to its processed count, strictly further and inside the list |
| Api.ThrownEnd | src/api.js:71-72 | a thrown request ends the run at a rejection or the first failure |
| Api.ResolvedEnd | src/api.js:71-78 | a resolved response with nothing remaining ends the run, covering the whole list |
| Api.FileStep | includes/class-bulk.php:210-212 | the export file of a run grows only with its first request |
| Api.ExecuteBulk | src/api.js:53-79 | offsets 0, c, 2c, …; onProgress sees every resolved answer; the loop ends at the first rejection, failure or response with nothing remaining; the tables are the run's chunks applied in order |
| Api.ChunksPrefix | src/api.js:55-75 | requests at 0, c, 2c, … process exactly the ids before the next multiple of c |
| Api.RunCoversIds | src/api.js:55-76 | the slices of a resolved run concatenate to the id list: every id once, in order |
| Api.ReportedProgress | src/api.js:65-75 | the k-th response reports min((k + 1) × c, n), and the counts strictly increase |
| Api.OnlyFirstRequestFails | includes/class-bulk.php:208-229 | an accepted run can fail only on its first request, and then it has changed no table |
| Api.FailureAtFirst | includes/class-bulk.php:44-56 | a chunk that fails at some offset fails at offset 0 too |
| Api.ChunkedAddTag | includes/class-bulk.php:85-96 | over any requests, add_tag leaves the old pairs plus every processed id with every tag |
| Api.ChunkedRemoveTag | includes/class-bulk.php:113-120 | over any requests, a link survives iff it was there and does not pair a processed id with a tag |
| Api.ChunkedAddList | includes/class-bulk.php:139-151 | over any requests, a missing membership of a processed id appears subscribed; every other keeps its status |
| Api.ChunkedRemoveList | includes/class-bulk.php:168-175 | over any requests, exactly the memberships of processed ids in the lists disappear |
| Api.ChunkedUnsubscribe | includes/class-bulk.php:186-192 | over any requests, exactly the processed ids become unsubscribed |
| Api.AddTagRun | src/api.js:55-76 | a resolved add_tag run links every tag to every id of the request, and adds no other pair |
| Api.RemoveTagRun | src/api.js:55-76 | a resolved remove_tag run removes exactly the links of the request's ids to its tags |
| Api.AddListRun | src/api.js:55-76 | a resolved add_list run subscribes every id of the request to every list that was missing, keeping existing statuses |
| Api.RemoveListRun | src/api.js:55-76 | a resolved remove_list run removes exactly the request's memberships |
| Api.UnsubscribeRun | src/api.js:55-76 | a resolved unsubscribe run unsubscribes exactly the request's ids |
| SubscribersHook.NextFilters | src/hooks/useSubscribers.js:54-61 | the merge of the update, with page 1 when a filter key is present and the update's page (or the old one) otherwise |
| SubscribersHook.PageResetRule | src/hooks/useSubscribers.js:57-61 | the page is reset iff one of the nine filter keys is present, even when the update sets page |
| SubscribersHook.PagingUpdateKeepsFilters | src/hooks/useSubscribers.js:57-61 | an update of only page, per_page, sort or order keeps every filter and the requested page |
| SubscribersHook.NextFiltersIdempotent | src/hooks/useSubscribers.js:54-61 | applying the same update twice equals applying it once |
| SubscribersHook.SubscribersHook.constructor | src/hooks/useSubscribers.js:24-29 | the first render: the default filters, no items, total 0, loading, no error, nothing pending |
| SubscribersHook.SubscribersHook.Load | src/hooks/useSubscribers.js:31-36 | a fresh id above every earlier one, loading on, error cleared, the fetch issued |
| SubscribersHook.SubscribersHook.Mount | src/hooks/useSubscribers.js:78-81 | the mount effect loads the initial filters: a fresh id, loading on, error cleared; filters, data and the pending load unchanged |
| SubscribersHook.SubscribersHook.Refresh | src/hooks/useSubscribers.js:83-85 | refresh loads the current filters now: a fresh id, loading on, error cleared; filters, data and the pending load unchanged |
| SubscribersHook.SubscribersHook.UpdateFilters | src/hooks/useSubscribers.js:52-75 | next filters, data unchanged, the pending load cancelled; then either one load now (fresh id, loading on, error cleared) or exactly one load scheduled (loading and error unchanged) |
| SubscribersHook.SubscribersHook.TimerFires | src/hooks/useSubscribers.js:70 | nothing is left pending; a scheduled load runs once (fresh id, loading on, error cleared), otherwise loading, error and ids are unchanged; filters and data unchanged |
| SubscribersHook.SubscribersHook.Resolve | src/hooks/useSubscribers.js:37-42 | a result is applied iff its id is the latest; a superseded one changes nothing |
| SubscribersHook.SubscribersHook.Reject | src/hooks/useSubscribers.js:43-48 | an error (or the default message) is shown iff its id is the latest |
| BulkHook.Processed | src/hooks/useBulk.js:22-27 | the count of each response onProgress saw, in order |
| BulkHook.RunSteps | src/hooks/useBulk.js:17-27 | the shown counts start at 0 and climb strictly, never past the number of ids |
| BulkHook.FinalUrl | src/hooks/useBulk.js:30-33 | as written: a URL iff executeBulk's final result is a progress response carrying a non-empty one (the truthiness test), and it is that one |
| BulkHook.SeenUrl | src/hooks/useBulk.js:30-33 | corrected: a URL iff some response onProgress saw carries one, and it is that response's |
| BulkHook.ExportUrlLost | src/hooks/useBulk.js:30-33 | as written, an export resolving over more than one chunk yields no URL, though its first response carried one |
| BulkHook.ExportUrlOneChunk | src/hooks/useBulk.js:30-33 | as written, an export whose ids fit in one chunk resolves in one request, and the final result's link is the file's (when non-empty) |
| BulkHook.ExportOf501Ids | src/hooks/useBulk.js:30-33 | 501 ids in chunks of 500: the first response carries the URL and the final one does not |
| BulkHook.ExportUrlSurfaced | src/hooks/useBulk.js:30-33 | corrected: every accepted export that resolves yields the URL of its file |
| BulkHook.NoUrlOutsideExport | src/hooks/useBulk.js:30-33 | other actions never yield a URL |
| BulkHook.Drive | src/hooks/useBulk.js:20-28 | executeBulk with useBulk's body: the run's tables, file and trace, and counts that climb |
| BulkHook.BulkHook.constructor | src/hooks/useBulk.js:8-11 | no progress, not running, no error, no link |
| BulkHook.BulkHook.Run | src/hooks/useBulk.js:13-43 | the run's effect on the tables; not running afterwards; the counts climbed from 0; resolved: no error, the final result's truthy `download_url` (FinalUrl) set and opened, if any, and onComplete called once; thrown: the message or the default and nothing opened |
| BulkHook.BulkHook.Finish | src/hooks/useBulk.js:22-42 | the onProgress calls, then the settling of the run, with the link taken from the final result (FinalUrl) |
| BulkHook.BulkHook.Show | src/hooks/useBulk.js:23-26 | each response's count replaces the shown one over the same total; nothing else changes |
| BulkHook.BulkHook.Settle | src/hooks/useBulk.js:30-42 | resolved: the link becomes FinalUrl of the outcome and is opened when present, onComplete once; thrown: the message or the default, nothing opened; running off either way |
| BulkHook.BulkHook.Reset | src/hooks/useBulk.js:45-49 | progress, error and link cleared; running untouched |
| Pagination.TotalPages | src/components/Pagination.js:8 | at least 1 page, enough pages for every row, no more than needed, and 1 when the rows fit one page |
| Pagination.EnabledTargetsInRange | src/components/Pagination.js:23-55 | from a page in range, every enabled button asks for another page in range |
| Pagination.AllDisabledIffSinglePage | src/components/Pagination.js:26-51 | all four buttons are disabled iff there is one page |
| Pagination.PageClickKeepsFilters | src/app.js:84 | a button click changes only the page, to the button's target |
| Pagination.ParseDigits | src/components/Pagination.js:67 | parseInt of digits is their value; of digits with a tail, the leading digits; of no digits, NaN |
| Pagination.ParseShownPerPage | src/components/Pagination.js:60-67 | the shown String(perPage) parses back to perPage |
| Pagination.PerPageChoices | src/components/Pagination.js:61-67 | every choice parses to a size of at most 200, kept as sent by the server, and goes to page 1 with the filters kept |
| FiltersBar.NameOf | src/components/FiltersBar.js:12 | a name iff some entry has the id, and it belongs to such an entry |
| FiltersBar.IdOf | src/components/FiltersBar.js:21 | an id iff some entry has the name, and it belongs to such an entry |
| FiltersBar.NamesForIds | src/components/FiltersBar.js:11-17 | no more names than ids, each non-empty and in the catalogue |
| FiltersBar.IdsForNames | src/components/FiltersBar.js:19-31 | no more ids than names, each non-zero and in the catalogue |
| FiltersBar.IdsNamesRoundTrip | src/components/FiltersBar.js:11-31 | known ids go to names and back unchanged |
| FiltersBar.NamesIdsRoundTrip | src/components/FiltersBar.js:11-31 | known names go to ids and back unchanged |
| FiltersBar.ImmediateRule | src/components/FiltersBar.js:23-151 | the search and NPA boxes are debounced; every other control reloads at once |
| FiltersBar.EveryEditResetsPage | src/components/FiltersBar.js:23-151 | every control edits a filter key, so each edit returns to page 1 |
| FiltersBar.NpaEditsExclusive | src/components/FiltersBar.js:125-151 | after any NPA edit an exact value and a bound are never both set; other edits keep them |
| FiltersBar.DefaultsNpaExclusive | src/hooks/useSubscribers.js:7-21 | the initial filters set no NPA value |
| FiltersBar.ResetRestoresDefaults | src/components/FiltersBar.js:33-46 | reset reloads at once with every filter and the page at their defaults, keeping page size and sort |
| FiltersBar.PickersStoreIds | src/components/FiltersBar.js:19-31 | picking names stores exactly their ids and touches no other filter |
| BulkBar.ApplyRule | src/components/BulkBar.js:23-38 | a run starts iff an action and a selection are present and a tag (list) action resolves some id; unused operands are [] |
| BulkBar.ApplyButtonGuards | src/components/BulkBar.js:94-98 | an enabled button starts a run of an action without operands; every run started is one the idle button allows |
| BulkBar.ApplyPassesServerChecks | src/components/BulkBar.js:23-37 | what the bar starts passes post_bulk's checks, and can fail only on an export file that cannot open |
| BulkBar.OperandChecksPass | includes/class-bulk.php:44-56 | an allowed action with its operand fails only on an export file that cannot open |
| BulkBar.AppliedBodyRead | src/components/BulkBar.js:37 | the server reads the started run's action, some ids and the operand the action needs |
| BulkBar.ProgressPercent | src/components/BulkBar.js:40-42 | 0 without progress; no number for a total of 0; otherwise the nearest integer to processed / total × 100 |
| BulkBar.PercentBounds | src/components/BulkBar.js:40-42 | the percentage is in 0..100, 0 at the start and 100 when done |
| BulkBar.PercentMonotone | src/components/BulkBar.js:40-42 | a larger count never shows a smaller percentage |
| BulkBar.ResolvedRunShowsAll | src/components/BulkBar.js:127-132 | a resolved run ends showing every id the server received |
| BulkBar.NoticesExclusive | src/components/BulkBar.js:121-142 | at most one notice; none iff no error and the run is going on or has no progress |
| BulkBar.DoneNoticeHidden | src/components/BulkBar.js:13-15 | as written: after a resolved run with the selection emptied, the Done notice is due but the bar is hidden |
| BulkBar.NoticesVisible | src/components/BulkBar.js:13-15 | corrected: every notice and the progress bar sit on a visible bar; dismissed with nothing selected, it hides |
| BulkBar.DoneNoticeShown | src/components/BulkBar.js:127-142 | corrected: after a resolved run with the selection emptied, the Done notice shows |

## Left out

- SQL text, `$wpdb->prepare` quoting and `esc_like` are not modelled. A query is its list of clauses and bound values, with an evaluator of what the engine does with them.
- `CAST(value AS UNSIGNED)` is a function parameter `cast`. The engine's ORDER BY is a parameter `ordered`, required to be sorted by the chosen key; ties may come in any order.
- Timestamps (`NOW()`, created_at/updated_at of links) are not modelled, and neither are database errors, latency or concurrent writers.
- The unique keys of MailPoet's tables live in its schema and are not part of these files. They are the assumption `Store.Valid`.
- CSV file handling (`wp_upload_dir`, `wp_mkdir_p`, `fopen`, `fputcsv` quoting, the random file name, the URL) is reduced to a parameter: whether the file opens and the URL it gets. The file is the sequence of lines written.
- `get_tags`, `get_lists` and `get_custom_fields` return their tables in table order. The ORDER BY name they ask of the engine is not modelled.
- `sanitize_text_field` is a function parameter `clean`.
- Helpers.StrToInt: computes exactly in decimal. PHP reads a string with a fraction or an exponent through an IEEE double, so a value needing more than 53 significant bits can round differently, and a value beyond the double range (about 1.8e308) casts to 0 in PHP but saturates here.
- AddNpaRange (Queries.AddNpaRange): its bounds are `Helpers.StrToInt` of the strings given, so they share the two gaps on the line above and no others.
- Helpers.AbsInt: for PHP_INT_MIN, PHP's `abs` returns the float 9.2233720368547758E+18; the model gives the integer 2^63.
- Helpers.IntVal: a JSON integer in a request body is unbounded here; PHP's JSON decoder reads one beyond the 64-bit range as a float.
- ListingSorted (Queries.ListingSorted): `SortedBy` compares strings by code point (`Queries.StrLe`). The engine's `_ci` collation ignores case and accents, so a listing sorted by email or name can come back in an order this premise does not describe; the theorem covers only engines that sort text by code point.
- Queries.EvalClause: the search LIKE folds ASCII case only (`Common.ContainsCI`), and the status and exact NPA `=` compare strings exactly. The engine's `_ci` collation also folds non-ASCII case and accents, and `=` ignores trailing spaces, so it can match rows the model does not.
- Row order of unordered queries: the export SELECT (includes/class-bulk.php:262-264) and the tag and list joins (includes/class-bulk.php:277-292, includes/class-queries.php:261-283) have no ORDER BY. The model returns their rows in table order (`Bulk.RowsIn`, `Queries.JoinRows`), one order the engine may use. The order of CSV lines within a batch, and of each subscriber's tags and lists, is therefore pinned to that order, which the engine does not promise.
- The route schema's own type coercion and its minimum/maximum checks are not modelled. `Rest.TypedPagingInRange` takes the integer typing as a precondition.
- Route registration, `check_permission`, nonces and the root-URL middleware are not modelled.
- The `apiFetch` transport is not modelled. `Api.ExecuteBulk` calls `Rest.PostBulk` directly, and a non-2xx status becomes a thrown error.
- URLSearchParams percent-encoding of the query string is not modelled. The query is its sequence of key/value pairs, and PHP's reading of it is `Api.Received`.
- PHP keeps the last of repeated scalar query keys; the model reads the first. `fetchSubscribers` never repeats a scalar key, so no case differs.
- Pagination.TotalPages: requires a positive page size; a page size of 0 gives Infinity in JavaScript.
- BulkBar.ProgressPercent: computes in exact rationals, not floating point; a total of 0 (NaN) is None.
- Pagination.ParseDigits: leading white space, which `parseInt` skips, is not modelled; the select only offers digit strings.
- Timers and promise interleaving are not modelled. The debounce timer firing and each response's arrival are method calls on `SubscribersHook.SubscribersHook`.
- React renders are not modelled. BulkBar's own state (the chosen action and the picked names) is a parameter of its functions.
- `window.open` is the field `openedUrls`, and `onComplete` is the counter `completions`.
- `array_slice` with negative arguments never occurs, since offset and chunk come from `absint`. `Window` takes naturals.
- assets/dc-mailpoet-manager.js is not part of this model. The plugin never loads it.
- src/app.js, src/index.js, src/hooks/useMeta.js, src/components/SubscribersTable.js and dc-mailpoet-manager.php are not part of this model, apart from the wiring of the `onPageChange`, `onPerPageChange` and `onComplete` callbacks.

## Findings

| source | as written | input that shows it | evidently intended | confidence | as-written member | corrected member |
|---|---|---|---|---|---|---|
| src/hooks/useBulk.js:30-33 | the link is read from `result?.download_url`, the last response of `executeBulk`; only the offset-0 response of an export carries it (includes/class-bulk.php:210-212) | an export of 501 ids: the chunk at 0 returns the URL, the chunk at 500 does not, and that one is the result | every export that resolves shows and opens its file's link | not executed; high for runs of more than one chunk (500 ids); latent in this app, whose selection is row indexes of one page of at most 200 rows (src/components/SubscribersTable.js:152, src/app.js:27-30), so every run it starts is one chunk and keeps its link (BulkHook.ExportUrlOneChunk) | BulkHook.ExportUrlLost | BulkHook.ExportUrlSurfaced |
| src/components/BulkBar.js:13-15 | the bar hides when nothing is selected, nothing runs and no error is shown; the app's `onComplete` empties the selection (src/app.js:22-25) | any run that resolves, for example unsubscribe of one selected subscriber: afterwards there is no selection, no run and no error | the "Done!" notice and its download link (src/components/BulkBar.js:127-142) show until dismissed | not executed; medium | BulkBar.DoneNoticeHidden | BulkBar.DoneNoticeShown |
