# CPC declaration collector — a Dafny model

CPC-DATA-EXTRACTION is a small Flask service that collects asset declarations of
public officials from the Armenian Corruption Prevention Commission (CPC) API. A user
solves an icon CAPTCHA and submits filters. The service then starts a background
collection, at most two at a time. Each collection lists the matching declarations,
downloads one detail section per declaration with three parallel requests, reshapes
each section into rows and merges them into flat records. The records, the failures
and some metadata are saved as a dataset. The user can poll the task's status and ask
it to stop.

This project models that core as pure Dafny functions over explicit values and proves
what each step guarantees:

- `values.dfy` (`Values`): the Python values the code works on. It covers JSON
  documents, dicts as insertion-ordered association lists with Python's overwrite and
  append rules, hashing (`True` and `1` are the same key; lists and dicts cannot be
  keys), `v[k]`, `.get`, iteration, `int()` and the exceptions these raise.
- `collector.dfy` (`Collector`): the collector's state, its constructor, and
  `get_declarations`, which builds the listing filter and narrows to retry ids.
- `fetch.dfy` (`Fetch`): `_fetch_single_row` and the poll loop of `get_row_data`.
  The loop becomes a fold over the rounds in which completions are observed.
- `normalize.dfy` (`Normalize`): `get_values` and `_extract_row_values`.
- `merge.dfy` (`Merge`): `merge_and_save`.
- `tasks.dfy` (`Tasks`): the task registry and its two-slot admission semaphore,
  plus `start_collection_task`, the progress callback, `get_task_status`,
  `stop_task` and `safe_int`.
- `worker.dfy` (`Worker`): the background worker `_worker` as one function from
  registry to registry and saved dataset. It also holds a server model of start
  requests and worker ends, used to prove the admission bound.
- `captcha.dfy` (`Captcha`): the 3x3 icon puzzle and the order-insensitive check of
  a selection.
- `home.dfy` (`Home`): the `start_process` route and the language, status and stop
  routes.
- `wrappers.dfy` (`Wrappers`): `Option` and `Result`.

Everything the running service gets from outside becomes a parameter. That covers
HTTP responses, the key chain configured for a row name, the order in which parallel
requests finish, the moment a stop request arrives, random draws, clocks and task ids.
A property proved for all parameter values therefore holds for every order in which
the parallel requests finish, for each modelled stop moment, and for every server answer.

Behaviours of the code worth noting:

- In a cell-wrapped section the LAST cell holding a table wins.
- `stop_task` also marks finished tasks as `stopping`.
- A stop that arrives before the listing call ends the task as `finished` with
  "No declarations found.".
- A progress callback after a stop request turns `stopping` back into `processing`.
- Finished tasks are never evicted from the registry.

## Model

| member | source | states |
|---|---|---|
| Values.ToKey | core/cpc_data_collector.py:156 | Hashing a value for use as a dict key fails exactly for lists and dicts. Ints and strings are keys of their own value. |
| Values.Store | core/cpc_data_collector.py:156 | `d[k] = v`: afterwards `k` maps to `v` and every other key keeps its entry. An existing key is overwritten in place, a new key is appended at the end, and no key is ever doubled. |
| Values.Subscript | core/cpc_data_collector.py:102-104 | `v[k]`: a dict yields the entry or KeyError for the hashed key. A list yields the item, or IndexError out of range. A string key on a list or string is a TypeError. Only these three exception kinds arise. |
| Values.Column | core/cpc_data_collector.py:84 | `[d[key] for d in items]` succeeds exactly when every item's lookup succeeds. It then has one element per item, each equal to that item's lookup. |
| Values.PyInt | app/services/task_manager.py:63-66 | `int(v)`: ints convert to themselves and booleans to 1 or 0. A string converts exactly when `ParseInt` reads it, and then to the number read, else ValueError. None, lists and dicts give TypeError. |
| Values.ParseInt | app/services/task_manager.py:63-66 | `int(s)` on text: it succeeds exactly for a digit run with an optional leading `-` or `+`. A digit run reads as its decimal value, `-` negates it and `+` keeps it. |
| Values.IntTextRoundTrip | app/services/task_manager.py:53 | The text an integer is rendered as, sign included, reads back as that integer. |
| Values.NatTextRoundTrip | app/services/task_manager.py:53 | The decimal text written into progress messages reads back as the number it renders. |
| Values.ColNameInjective | core/cpc_data_collector.py:188 | Distinct positions get distinct synthetic column names `col_<n>`. |
| Collector.ClampLimit | core/cpc_data_collector.py:26 | The stored page size never exceeds 100. A given size of at most 100 is kept; a missing or zero size becomes 100. |
| Collector.NewCollector | core/cpc_data_collector.py:15-37 | A new collector stores the year, the offset and the four criteria as given. Its limit is `ClampLimit` of the argument, so 100 when falsy and at most 100. Falsy retry ids become `[]`, and all result containers start empty. |
| Collector.AddIfGiven | core/cpc_data_collector.py:65-68 | An optional criterion is added to the filter exactly when it is truthy, with its value, and no other entry changes. |
| Collector.ApiFilter | core/cpc_data_collector.py:64 | The listing filter always carries the collector's year and never doubles a key. |
| Collector.ApiFilterCriteria | core/cpc_data_collector.py:64-68 | The listing filter carries each of the four optional criteria exactly when it is given, and carries no key besides them and the year. |
| Collector.ListingPayload | core/cpc_data_collector.py:70-73 | The listing body holds the filter under `filter` and the offset and clamped limit under `paging`. |
| Collector.IntSet | core/cpc_data_collector.py:80 | `set(map(int, retry_ids))` succeeds exactly when every retry id converts. Its members are exactly the converted values. |
| Collector.Narrow | core/cpc_data_collector.py:81 | Retry narrowing succeeds exactly when every entry has a hashable id. It keeps entries in listing order, and keeps an entry exactly when its id is an int in the retry set. Every copy of a kept entry is kept: each entry occurs in the result as often as in the listing, or not at all. |
| Collector.Listed | core/cpc_data_collector.py:77-81 | Without retry ids the kept entries are the body's `data` (`[]` when absent). A body that is not a dict is an error. |
| Collector.GetDeclarations | core/cpc_data_collector.py:58-89 | A set stop flag or a failed request changes nothing and returns empty lists. Otherwise the declaration list is extended by the kept entries. The id list is extended by their ids and both lists are returned. If an id cannot be read, the ids stay unchanged and empty lists are returned. Only the two lists change. |
| Collector.ListingKeptWhole | core/cpc_data_collector.py:75-85 | Without retry ids, a listing whose entries all have int ids is kept whole. The ids are its id column, in order. |
| Collector.ListingNarrowedToRetrySet | core/cpc_data_collector.py:79-84 | With retry ids, the listing is narrowed to exactly the entries whose id is among them, in listing order and with every duplicate kept. The ids follow the kept entries. |
| Collector.RetryNarrowingExample | core/cpc_data_collector.py:79-84 | A listing with ids 1, 2, 3 and retry ids `[3]` keeps only the entry with id 3. |
| Collector.ListingEntryWithoutIdIsKept | core/cpc_data_collector.py:83-89 | An entry without `id` is added to the declaration list before the id projection fails, so the call returns empty lists while the declaration list is not empty. |
| Fetch.PathKey | core/cpc_data_collector.py:103 | An all-digit key of the path becomes an integer index; any other key stays a string. |
| Fetch.Traverse | core/cpc_data_collector.py:102-104 | An empty key chain leaves the section as it is. A one-key chain is one subscript. Any failure is a KeyError, an IndexError or a TypeError. |
| Fetch.TraverseAppend | core/cpc_data_collector.py:102-104 | Following a key chain in two pieces is following the whole chain. An error in the first piece is the error of the whole. |
| Fetch.DigitKeyMissesDictEntry | core/cpc_data_collector.py:103-104 | A digit key meets a dict entry whose key is the digit text and misses it with KeyError, because the key became an integer. |
| Fetch.FetchSingleRow | core/cpc_data_collector.py:91-112 | A detail fetch has no reason exactly when the response decoded and the whole chain resolved, and the result is then the reached section. Otherwise the section is None and the reason is `Stopped`, `Invalid JSON`, `Data section not found` or the request's error text, matching the cause. |
| Fetch.Complete | core/cpc_data_collector.py:149-164 | Processing one done future removes it from the pending set, adds one to the count and reports `(count, total)`. |
| Fetch.CompletePreserves | core/cpc_data_collector.py:153-160 | Filing one result keeps the partition invariant. Each id is then in `rows_by_id` with its section or in `failed_items` with its reason, never both, and the sizes add up. |
| Fetch.ProcessDone | core/cpc_data_collector.py:149-164 | Processing one batch of done futures removes every listed index from the pending set. It keeps the counting and partition invariants. |
| Fetch.ProcessRounds | core/cpc_data_collector.py:135-164 | The poll loop ends with no pending future unless it broke on the stop signal. It breaks only when some round saw the stop. It keeps the counting and partition invariants. |
| Fetch.GetRowData | core/cpc_data_collector.py:114-166 | Without a key chain or without ids nothing happens. Otherwise only `rows_by_id` and `failed_items` change, progress is reported as `(1, n) .. (k, n)` with `k <= n`, and without a stop every id is processed. |
| Fetch.RowDataPartition | core/cpc_data_collector.py:125-164 | With distinct hashable ids, every processed id is on exactly one side: in `rows_by_id` with its section when a non-null section was reached, else in `failed_items` with its reason (None for a null section). Ids abandoned by a stop are on neither side. The two containers together hold as many entries as were processed. |
| Normalize.Table | core/cpc_data_collector.py:172-173 | A tabular dict yields its `rows` entry, and its headers are the `name` of each header item (none when `headerItems` is absent). |
| Normalize.ScanCellsOrigin | core/cpc_data_collector.py:174-179 | The scan over a section's cells yields the initial pair, or the table of one tabular cell value. |
| Normalize.ScanCellsFailure | core/cpc_data_collector.py:174-179 | A failing scan fails at one cell. That cell has no readable value, or its tabular value has headers that cannot be read. |
| Normalize.ScanCellsLastWins | core/cpc_data_collector.py:175-179 | Over a cell list the last cell whose value is a table decides headers and rows, whatever came before. |
| Normalize.ScanCellsNoTable | core/cpc_data_collector.py:175-179 | Cells without a tabular value leave headers and rows as they were. |
| Normalize.CellsSecondTableWins | core/cpc_data_collector.py:174-179 | A section wrapping two tables in its cells normalises to the second. |
| Normalize.Normalize | core/cpc_data_collector.py:170-182 | A tabular section gives its table. A list section is its own rows with no headers. Any other non-dict gives no rows. Only dict sections can fail. |
| Normalize.NormalizeEntries | core/cpc_data_collector.py:169-183 | The loop succeeds exactly when every section normalises. Each id keeps its position and gets its rows, its headers are recorded under the same id, and other ids' headers are untouched. |
| Normalize.GetValues | core/cpc_data_collector.py:168-184 | `get_values` changes only the rows and headers containers and fails exactly when some section fails to normalise. |
| Normalize.GetValuesListFixpoint | core/cpc_data_collector.py:168-184 | A collector whose row collections are all lists is a fixed point of `get_values` for its rows, and gets empty headers for each id. So a second pass over a first pass's list rows keeps them and forgets the headers found first. |
| Normalize.ColNamesDistinct | core/cpc_data_collector.py:188 | The synthetic headers of a list row are pairwise distinct. |
| Normalize.CellPairs | core/cpc_data_collector.py:190-192 | For a cell row, each cell gives its value and a header: its title when truthy, else `col_<position>`. It fails exactly when a cell is not a dict. |
| Normalize.ExtractRowValues | core/cpc_data_collector.py:186-194 | Headers and values always pair up. A list row gets synthetic headers and itself as values, a cell row gets titles and values, and anything else gives nothing. |
| Merge.FailedKeys | core/cpc_data_collector.py:198 | The failed-id set succeeds exactly when every failed id is hashable. It holds exactly their keys. |
| Merge.FillRowKeeps | core/cpc_data_collector.py:217-218 | A record key that no header hashes to keeps the declaration's value. |
| Merge.FillRowLastWins | core/cpc_data_collector.py:217-218 | The last header with a given key decides that key's value: the value at its position, or None past the end of the values. |
| Merge.FillRowShape | core/cpc_data_collector.py:209-218 | A record starts with the declaration's own keys in their order and never doubles a key. |
| Merge.FillRow | core/cpc_data_collector.py:217-218 | Filling a record from headers succeeds exactly when every header can be hashed as a dict key. |
| Merge.RowRecord | core/cpc_data_collector.py:214-219 | A row's record is the declaration filled from the section headers when there are any. Otherwise it is filled from the row's own headers. It fails when the row's values cannot be read. |
| Merge.ListRowRecord | core/cpc_data_collector.py:187-189 | In a section without headers, a list row's record holds each item under its column name `col_<i+1>`, even over a declaration field of that name. |
| Merge.RowRecords | core/cpc_data_collector.py:214-219 | One record per row, in row order, each being that row's `RowRecord`. The call fails exactly when one row's record fails. |
| Merge.DeclKey | core/cpc_data_collector.py:201 | Reading a declaration's id fails exactly when it has no `id` or the id is not hashable. |
| Merge.DeclRecords | core/cpc_data_collector.py:202-219 | A failed id gives no record. Otherwise there is one record when the rows are empty, else one per row. |
| Merge.DeclRecordsWithRows | core/cpc_data_collector.py:205-219 | A declaration whose id did not fail and whose row list is non-empty gives exactly `RowRecords` of its section headers and rows, in row order. |
| Merge.MergeAllSingle | core/cpc_data_collector.py:200-219 | A listing of one declaration gives exactly that declaration's records. |
| Merge.MergeDeclaration | core/cpc_data_collector.py:200-219 | A declaration contributes as many records as its reference count: none for a failed id, one without rows, one per row otherwise. |
| Merge.RecordsKeepDeclaration | core/cpc_data_collector.py:209-218 | Every record of a declaration starts with the declaration's own keys, in order. |
| Merge.EmptyRowsGiveOneRecord | core/cpc_data_collector.py:207-211 | A non-failed declaration without rows gives exactly one record. It has None under every header of its id and the declaration's value everywhere else. |
| Merge.MergeAllAppend | core/cpc_data_collector.py:200-220 | Merging a concatenation of listings concatenates their records, so records follow listing order. |
| Merge.MergeAllCount | core/cpc_data_collector.py:200-220 | The number of merged records is the sum of the per-declaration counts. |
| Merge.MergeAll | core/cpc_data_collector.py:200-219 | Merging all declarations succeeds exactly when each one's merge succeeds. |
| Merge.MergeAndSave | core/cpc_data_collector.py:196-221 | `merge_and_save` succeeds exactly when the failed ids hash and every declaration merges. It stores the records as `final_data`, returns the failures unchanged, and changes nothing else. |
| Merge.MergeExample | core/cpc_data_collector.py:196-221 | Ids 1, 2, 3 with 2 failed, 1 holding one row `[10, 20]` under headers A, B, and 3 without rows give exactly `{id: 1, A: 10, B: 20}` then `{id: 3}`. |
| Tasks.StatusNameRoundTrip | app/services/task_manager.py:28 | Every status word reads back as the status it names, so the six words are distinct. |
| Tasks.StartCollectionTask | app/services/task_manager.py:15-41 | A start is refused with the busy message exactly when both slots are held. Otherwise it takes one slot and registers an `initializing` record with zero counts, the given start time, an unset stop flag and "Starting collection...". |
| Tasks.Release | app/services/task_manager.py:149-152 | The worker's release gives one slot back and leaves the tasks alone. |
| Tasks.ProgressCallback | app/services/task_manager.py:48-53 | A progress call records the counts, sets `processing` and writes "Processed c of t items..." for a known id. It does nothing for an unknown id and touches no other task. |
| Tasks.ApplyReportsEffect | app/services/task_manager.py:48-53 | After a run of progress calls, the record shows the last call's counts and `processing`. Its stop flag, its start time and all other tasks are unchanged. |
| Tasks.GetTaskStatus | app/services/task_manager.py:155-166 | The status view exists exactly for registered ids and shows the record's status word, counts, message and start time. |
| Tasks.StopTask | app/services/task_manager.py:169-174 | A stop answers true exactly for registered ids. It sets the stop flag and `stopping` on that record only. |
| Tasks.StopTaskIdempotent | app/services/task_manager.py:169-174 | Stopping twice is the same as stopping once. |
| Tasks.StopAfterFinish | app/services/task_manager.py:169-174 | A finished task that is stopped afterwards reads as `stopping`. |
| Tasks.SafeInt | app/services/task_manager.py:59-66 | A missing or None filter value gives the default. Otherwise the value converts, or the default is used when it does not. |
| Tasks.SafeIntText | app/services/task_manager.py:59-66 | A filter value given as digit text is read as its number. |
| Worker.BuildCollector | app/services/task_manager.py:69-81 | The worker's collector uses year default 2026, offset default 0 and limit default 100 (clamped). The optional criteria are None unless they convert, and the containers start empty. |
| Worker.Finish | app/services/task_manager.py:112-140 | Formatting and saving either ends in `error` with no dataset, or saves records with metadata: total rows equal to the record count, the declaration count, `stopped_early` set to true on the stopped path and absent otherwise, and the matching status. A finished run also gets "Complete". |
| Worker.Fail | app/services/task_manager.py:142-145 | The `except` branch sets the task to `error` with message "Error: " and the exception text. Slots, the other tasks and the start time are unchanged. |
| Worker.Download | app/services/task_manager.py:101-108 | The download changes the task's counts, status, message and stop flag. Other tasks, the slot count and the start time are unchanged. After reports the task shows the last report's counts and its "Processed … of … items..." message; without reports they are unchanged. The status is `stopping` when a stop was seen or arrived right after, otherwise `processing` after reports. The stop flag is set afterwards only if it was set before, the loop saw a stop, or one arrived right after. |
| Worker.Conclude | app/services/task_manager.py:107-140 | After the download, a set stop flag leads to `stopped` with "Process stopped by user."; otherwise the run ends `finished` with "Complete". Either way the saved metadata matches the status, and a failure ends in `error` with no dataset. |
| Worker.AfterListing | app/services/task_manager.py:87-140 | An empty listing ends `finished` with "No declarations found." and an empty dataset. A `stopped` ending needs a non-empty listing and a stop request. |
| Worker.Collect | app/services/task_manager.py:55-145 | A run of a registered task ends in a terminal status, with a dataset exactly when it is not `error`. It ends `stopped` only when a stop arrived during or right after the download. |
| Worker.RunWorker | app/services/task_manager.py:44-152 | Every run gives its slot back, touches no other task, and keeps the task's start time. A registered task ends in `finished`, `stopped` or `error`, with a dataset exactly when not `error`. The dataset's row count and status agree with the task. It ends `stopped` only if the poll loop saw a stop or one arrived right after the download. |
| Worker.StopBeforeListingFinishes | app/services/task_manager.py:83-99 | A stop requested before the listing call skips the listing. The task ends `finished` with "No declarations found." and an empty dataset, or `error` if saving fails. |
| Worker.MissingRowNameFails | app/services/task_manager.py:69-70 | Filters without a row name end the run in `error` with "Error: 'row_name'" and no dataset. |
| Worker.RunAdmitted | app/services/task_manager.py:12-22 | Over any sequence of start requests and worker ends, held slots equal the number of running workers, and that number never exceeds two. |
| Worker.BusyExactlyWhenFull | app/services/task_manager.py:20-22 | From an empty registry, a start request is refused exactly when two workers are running. |
| Captcha.IconClassesDistinct | app/routes/home.py:11-21 | The nine icon classes are pairwise distinct. |
| Captcha.Distractors | app/routes/home.py:72 | The distractors are the eight other icons and never the target. |
| Captcha.TargetName | app/routes/home.py:67 | The target's name is the translation for the language and key, or "Icon" when either is missing. |
| Captcha.FillGrid | app/routes/home.py:70-75 | Before shuffling the grid has nine cells: exactly `num_correct` targets, every other cell a distractor. |
| Captcha.Shuffle | app/routes/home.py:77 | Shuffling permutes the grid without changing its contents. |
| Captcha.MatchingIndices | app/routes/home.py:79 | The correct indices are strictly increasing, point at target cells, include every target cell, and are as many as the targets. |
| Captcha.GetCaptchaPuzzle | app/routes/home.py:56-85 | A puzzle has nine cells, between two and four of them the target. The stored solution is ascending and holds an index exactly when that cell is the target. The target name comes from the translations, else "Icon". |
| Captcha.Sort | app/routes/home.py:103 | `sorted` returns an ascending permutation of its input. |
| Captcha.SortedUnique | app/routes/home.py:103-105 | Two ascending sequences with the same elements are equal. |
| Captcha.SelectionOrderIrrelevant | app/routes/home.py:103-106 | For a sorted solution, the CAPTCHA comparison passes exactly when the selection has the solution's elements, in any order. |
| Home.SetLanguage | app/routes/home.py:24-29 | Only `en` and `hy` are stored as the session language. Any other code leaves the session unchanged. |
| Home.RememberPuzzle | app/routes/home.py:80 | The puzzle route replaces the session's solution with the new puzzle's solution. |
| Home.CleanInt | app/routes/home.py:110-116 | Falsy values, text that `int()` rejects, and non-positive numbers give None. A positive conversion is kept. Other conversion errors propagate. |
| Home.RequiredInt | app/routes/home.py:118-122 | Any conversion failure gives 0. Otherwise the converted value. |
| Home.SelectionInts | app/routes/home.py:103 | The selection converts exactly when each element does, element by element. |
| Home.BuildFilters | app/routes/home.py:124-134 | Building the filters fails exactly when one of the four optional criteria raises a conversion error other than ValueError. |
| Home.FilterEntries | app/routes/home.py:124-134 | The filters dict has nine string keys and none of them is doubled. |
| Home.FiltersCarry | app/routes/home.py:124-134 | The filters hold the body's row name and its year and offset as `required_int` reads them. They hold the four criteria as `clean_int` reads them, the limit with 100 used for a falsy value, and the retry ids (`[]` when absent). |
| Home.StartProcess | app/routes/home.py:88-143 | A falsy body gets 400 "No JSON data received" with nothing changed. A non-dict body gets 500. Any dict body consumes the stored solution. Rejections leave the registry unchanged. A start registers the task under the given id, with complete filters and a non-empty solution. |
| Home.RejectionReplies | app/routes/home.py:96-143 | For a non-empty dict body: no pending solution, an empty solution or a falsy selection gives 400 CAPTCHA_FAIL. A selection that does not convert gives 500. A converted selection that does not sort to the solution gives 400 CAPTCHA_FAIL. After a passed CAPTCHA, filters that raise give 500 with the error text, and filters without a row name or year give 400 MISSING_FIELDS. |
| Home.StartedExactly | app/routes/home.py:88-143 | A collection starts exactly when all of the following hold: the body is a non-empty dict, a puzzle solution is pending, the selection is non-empty and converts, it holds the solution's cells in any order, the filters build with a row name and a non-zero year, and a slot is free. |
| Home.CaptchaSingleUse | app/routes/home.py:96-101 | After any request whose body is a non-empty dict, the next request cannot start a collection, whatever it sends. |
| Home.BusyRefused | app/routes/home.py:139-143 | While two collections run nothing starts. A request an idle server would accept gets 500 with the busy message. |
| Home.StatusRoute | app/routes/home.py:152-157 | The status route answers 404 exactly for unknown ids and 200 with the task view otherwise. |
| Home.StopRoute | app/routes/home.py:160-163 | The stop route reports success exactly for registered ids. It sets the task's stop flag and marks it `stopping`; no other task and no slot changes, and an unknown id changes nothing. |

## Left out

- HTTP: `_safe_request` and its retry adapter (core/cpc_data_collector.py:39-56). A
  request's outcome is an input: a decoded body, undecodable JSON, or a failure
  with its message text.
- The key chain: the `rows_dict` table and the regular expression that turns a path
  string into keys (core/cpc_data_collector.py:116-119). core/row_config.py is not
  part of this model. The chain is an input, and `None` stands for a row name
  without a configured path.
- Threads: the thread pool, the 0.5-second poll timeout and `executor.shutdown` are
  replaced by an input sequence of rounds. Each round says whether the stop flag was
  seen and which futures were reported done. Futures still pending after the last
  round complete in submission order. The per-request stop check is an input
  (`SawStop`) that is not tied to the loop's own check.
- The moments at which a user's stop request reaches a running worker: before the
  listing call, during the poll loop, or just before the worker's stop check. Other
  interleavings of status polls with worker writes are not modelled. The model
  records only the worker's final record.
- `save_dataset`, `get_history` and the rest of `cache_service`, and the
  `collector_service` wrapper. A save is an input that either succeeds or fails
  with a message.
- The request body: `start_process` sees the decoded JSON body. A request without a
  JSON content type makes `request.json` raise in recent Flask versions, so it is
  answered 500 rather than 400 "No JSON data received"; that answer depends on the
  Flask version and is not modelled. Only a falsy JSON body reaches the 400 here.
- Flask wiring: templates, redirects, JSON encoding, rate limiting, translations
  content (an input table), and the `index`, `tool` and `history` pages.
- Randomness, uuids and clocks: the puzzle's draws, the task id and the start time
  are inputs.
- Floats: JSON numbers are integers here, so `int()` of a float is not modelled.
- `int()` on text: surrounding whitespace, `_` digit separators and non-ASCII digits
  are rejected here, though Python accepts them. `str.isdigit` is likewise ASCII-only.
- Exception texts: `str(e)` of a KeyError is the key's repr as in Python. The other
  exception kinds carry one fixed text each instead of Python's exact wording, for
  example for an unhashable id.
- A row name that cannot be hashed (the `rows_dict.get` TypeError) is not modelled.
- BoundedSemaphore over-release: releasing a full semaphore raises ValueError. The
  model instead leaves the count unchanged, which no admitted run reaches.
- `Values.PyInt`, `Home.CleanInt`, `Tasks.SafeInt`: these do not model `int()` of
  floats, nor the text forms listed above, because values here carry no floats.
