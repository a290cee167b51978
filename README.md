# mem-claude core, modelled in Dafny

mem-claude gives an AI coding assistant a persistent memory. Hooks capture tool
executions and session summaries. A worker stores them in a SQLite database. At
session start, the context generator turns the most recent observations and
summaries into a compact context block. A web viewer searches and pages through
what has been stored.

This project models the deterministic core of that system and proves properties
of it:

- **Context synthesis** (`context`, `timeline`, `sorting`, `settings`, `json`):
  - the settings overlay and its integer parsing;
  - the project-name helper;
  - candidate selection and the token economics (read tokens, work tokens, savings, percent);
  - summary time anchoring;
  - the stable merge of observations and summaries, grouped into day buckets;
  - which observations render in full.
  The output is structured rows, not formatted text.
- **Keyword search** (`keywords`, `text`): the bundled `validateKeywords` and
  `buildFTS5Query`, the test copy with its wider whitelist, and the
  `limit + 1` / `hasMore` paging of AI responses.
- **Session store** (`store`, `store_imports`, `store_queries`, `session_store`).
  The `SessionStore` class updates its tables in place. It covers:
  - the session upsert;
  - the write-once SDK session id;
  - the prompt counter;
  - reactivation and completion;
  - auto-creation of a session row on store;
  - idempotent imports;
  - the file-list union;
  - the two timeline windows.
- **Schema migrations** (`schema`, `migration_runner`, `migration_props`,
  `legacy_migrations`, `legacy_props`):
  - a schema value changed by DDL statements;
  - `MigrationRunner` with its 13 self-guarding migrations and its version ledger;
  - the fresh-database baseline;
  - the older `migration001`–`migration008` list, including the index and FTS health check.
- **Session completion** (`completion`): draining pending messages into
  observations, then completing the session by database id or by Claude
  session id. The collaborators are abstract state.
- **Enhancement service** (`enhancement`):
  - the analysis-task state machine with its retry bound;
  - tag usage counting and tag updates;
  - keyword auto-tagging;
  - summary text assembly.
- **Error handling** (`errors`): the ordered substring classifier, the severity
  and action tables, `createError`, `standardizeError`, the `wrap*` helpers and
  the `handleErrors` decorator.
- **HTTP middleware** (`middleware`):
  - the sliding-window `RateLimiter` class;
  - the localhost and static-asset bypasses;
  - `requireLocalhost`;
  - `summarizeRequestBody`.
- **Viewer utilities**:
  - merge and deduplicate, truncation and batching (`viewer_data`);
  - query validation, endpoint building and stale-result discarding (`search_types`);
  - the pagination state machine (`pagination`);
  - move-to-front search history and suggestions (`suggestions`);
  - the card helpers (`cards`).
- **Duplicate cleanup** (`cleanup`): group by key, keep the minimum id, delete
  the rest.
- **Demo mode** (`demo`): the in-memory filters of the Python demo client.

Time is always a `now` parameter. `JSON.parse` is an abstract partial function.
Collaborators the code calls but does not define are explicit state.

## Model

| member | source | states |
|---|---|---|
| Keywords.ValidateSound | plugin/scripts/context-generator.cjs:288 | every surviving keyword is the trimmed form of an input keyword that passes all of `validateKeywords`' tests |
| Keywords.ValidateComplete | plugin/scripts/context-generator.cjs:288 | every input keyword that passes all the tests survives, trimmed |
| Keywords.ValidateAppend | tests/fts5-validation.test.ts:11-44 | validation works keyword by keyword, so survivors keep their input order |
| Keywords.ValidateOne | tests/fts5-validation.test.ts:11-44 | a single keyword yields its trimmed self exactly when it is admissible, and nothing otherwise |
| Keywords.WhitelistExcludesOperatorChars | plugin/scripts/context-generator.cjs:288 | neither whitelist admits `"`, `(` or `*`, so on a whitelisted keyword the `NEAR(` and wildcard tests never fire |
| Keywords.AdmissibleReduced | plugin/scripts/context-generator.cjs:288 | the filter is equivalent to: non-blank, at most 100 characters, whitelisted, and no whole-word `or`/`not` |
| Keywords.EscapeQuotes | plugin/scripts/context-generator.cjs:288 | the quote doubling never shortens a keyword and leaves one without `"` unchanged |
| Keywords.BuildFTS5Query | plugin/scripts/context-generator.cjs:288 | fails, with "No valid keywords after validation", exactly when no keyword survives validation |
| Keywords.SurvivorsNeedNoEscaping | plugin/scripts/context-generator.cjs:288 | a surviving keyword holds no `"`, so its phrase is the keyword between two quotes |
| Keywords.BuildFTS5QueryReadsBack | tests/fts5-validation.test.ts:46-57 | reading the compiled query back as quoted phrases separated by " AND "/" OR " yields exactly the survivors, in order |
| Keywords.WholeWordDrops | tests/fts5-validation.test.ts:122-125 | a keyword with a whole-word `or` or `not`, in any case, is dropped |
| Keywords.OutsideCharDrops | tests/fts5-validation.test.ts:107-110 | a keyword with any character outside the whitelist is dropped |
| Keywords.TooLongDrops | tests/fts5-validation.test.ts:96-100 | a keyword over 100 characters is dropped |
| Keywords.BlankDrops | tests/fts5-validation.test.ts:102-105 | an empty or whitespace-only keyword is dropped |
| Keywords.SurvivesWhen | tests/fts5-validation.test.ts:61-69 | an untrimmable, whitelisted keyword of at most 100 characters that lacks a letter of `or` and of `not` survives unchanged |
| Keywords.ExampleAlphanumericPasses | tests/fts5-validation.test.ts:61-64 | "user123" passes unchanged |
| Keywords.ExampleEmailPasses | tests/fts5-validation.test.ts:66-69 | "test@email.com" passes unchanged |
| Keywords.ExampleSingleQuotePassesTestCopy | tests/fts5-validation.test.ts:139-143 | the test copy's whitelist admits "test'quote" |
| Keywords.ExampleSingleQuoteDroppedBundled | plugin/scripts/context-generator.cjs:288 | the bundled whitelist drops "test'quote" |
| Keywords.ExampleNearWithoutParenthesisSurvives | tests/fts5-validation.test.ts:86-90 | "test NEAR query" survives |
| Keywords.ExampleLowerCaseOrDropped | tests/fts5-validation.test.ts:122-125 | "test or" is dropped |
| Keywords.ExampleUpperCaseNotDropped | tests/fts5-validation.test.ts:122-125 | "TEST NOT" is dropped |
| Keywords.ExampleNearCallDropped | tests/fts5-validation.test.ts:180-184 | "test NEAR(query)" and "test NEAR/5 password" are dropped |
| Keywords.ExampleWildcardDropped | tests/fts5-validation.test.ts:122-125 | "TeSt*" is dropped |
| Keywords.ExampleOutsideCharactersDropped | tests/fts5-validation.test.ts:197-201 | "test$keyword", "test#tag" and a word with a dotless i are dropped |
| Keywords.ExampleLongAndBlankDropped | tests/fts5-validation.test.ts:96-105 | a 101-character keyword, "" and "   " are dropped |
| Keywords.SearchPage | plugin/scripts/context-generator.cjs:301 | the keyword page holds at most `limit` rows |
| Keywords.SearchPageWindow | plugin/scripts/context-generator.cjs:301 | fetching `limit + 1` rows gives exactly the window `[offset, offset + limit)`, and `hasMore` holds iff rows lie beyond it |
| Keywords.RecentPage | plugin/scripts/context-generator.cjs:288 | the no-keyword page, with the project filter applied before the window: at most `limit` rows, `total` the project's row count, `hasMore` iff rows lie beyond the window |
| Keywords.RecentPagesTile | plugin/scripts/context-generator.cjs:288 | two consecutive pages are the next `2 * limit` rows of the project, in order, and the page after one without `hasMore` is empty |
| Keywords.RecentPageAgreesWithoutProject | plugin/scripts/context-generator.cjs:288 | without a project filter the bundle's window and `hasMore` equal the corrected ones |
| Keywords.RecentPageAsWrittenLosesRows | plugin/scripts/context-generator.cjs:288 | with two newer rows of another project, the bundle's one-row first page is empty with total 0 while the project has a row |
| Keywords.GetAiResponsesWithKeywords | plugin/scripts/context-generator.cjs:288-301 | at most `limit` items; with no keywords, the bundle's path: the `offset + limit + 1` newest rows of all projects are filtered by project and then paged, so `total` never exceeds `offset + limit + 1`, every item is of the project, and without a project the page is the plain window of the newest rows; when keywords are given but none survives, the empty page with `hasMore` false; otherwise the window of the project's matches with `total` and `hasMore` as above |
| Settings.Defaults | plugin/scripts/context-generator.cjs:4 | the defaults table holds every key, each as a string |
| Settings.Overlay | plugin/scripts/context-generator.cjs:4 | every key takes the file's value under its name when present, else its default |
| Settings.LoadFromFile | plugin/scripts/context-generator.cjs:4 | a missing file, unparsable text or a parsed `null` give the defaults with no rewrite; a rewrite happens exactly for a file nesting its settings under an object `env` |
| Settings.LoadFromFileOverlay | plugin/scripts/context-generator.cjs:4 | for a parsed file, each setting comes from the flat object (the nested `env` when there is one) when it holds the key, else from the defaults, and the rewrite is that flat object |
| Settings.SaveThenLoad | plugin/scripts/context-generator.cjs:4 | writing the loaded settings out flat and loading them again gives the same settings and no rewrite |
| Settings.MigrationIdempotent | plugin/scripts/context-generator.cjs:4 | loading the rewritten flat file gives the same settings as the nested one and no further rewrite |
| Settings.ContextSettings | plugin/scripts/context-generator.cjs:634 | a non-string type or concept list makes `split` throw, giving the fallback; otherwise counts are `parseInt` of the stored text, flags hold exactly for the string "true", and lists are the trimmed non-empty comma-separated names |
| Settings.ListSettingOfJoin | plugin/scripts/context-generator.cjs:634 | comma-joining clean names and reading them back as a list setting gives the same set of names |
| Settings.ReadBack | plugin/scripts/context-generator.cjs:634 | counts stored as decimal strings and lists stored comma-joined read back as exactly those counts and name sets |
| Settings.ReadsAsFallback | plugin/scripts/context-generator.cjs:634 | settings that spell out the fallback's values read back as the fallback |
| Settings.DefaultsMatchFallback | plugin/scripts/context-generator.cjs:634 | with no settings file the configuration equals the fallback, value for value |
| Settings.DefaultsEncoded | plugin/scripts/context-generator.cjs:4 | the default counts are the strings "50", "5" and "10" |
| Settings.NumericCount | plugin/scripts/context-generator.cjs:634 | a count stored as a JSON number or as its decimal string is read as that number |
| Errors.CreateError | src/utils/error-handler.ts:52-87 | the error carries the given type and message, severity defaults to MEDIUM, action to LOG_ONLY, and it is recoverable exactly when the action is RETRY or FALLBACK |
| Errors.CreateErrorDefaults | src/utils/error-handler.ts:63-78 | with no options an error is MEDIUM, LOG_ONLY and not recoverable |
| Errors.InferErrorTypeFirstMatch | src/utils/error-handler.ts:157-203 | the database, network, file-system and parsing answers each hold exactly when a word of that rule occurs in the lower-cased message and none of an earlier rule does; SYSTEM_ERROR exactly when no rule's word occurs |
| Errors.InferNeverAuthorization | src/utils/error-handler.ts:172-189 | AUTHORIZATION_ERROR is never inferred, because the file-system rule claims every message mentioning "permission" first |
| Errors.InferInvalidNeverValidation | src/utils/error-handler.ts:177-199 | a message mentioning "invalid" is never classified as VALIDATION_ERROR |
| Errors.DetermineSeverity | src/utils/error-handler.ts:208-221 | CRITICAL exactly for database and system errors, HIGH exactly for the two auth types, never LOW |
| Errors.DetermineAction | src/utils/error-handler.ts:226-244 | RETRY exactly for network, FALLBACK exactly for database and file system, ABORT exactly for configuration, USER_NOTIFICATION exactly for the auth types |
| Errors.StandardizeError | src/utils/error-handler.ts:124-152 | an error with type and severity is returned unchanged; any other is rebuilt with its message, the inferred type, and the original as its cause |
| Errors.StandardizeIdempotent | src/utils/error-handler.ts:124-128 | standardising twice is standardising once |
| Errors.StandardizedRecoverable | src/utils/error-handler.ts:138-151 | a plain error comes out recoverable exactly when classified as network, database or file-system, and never LOW |
| Errors.Handle | src/utils/error-handler.ts:105-130 | a thrown error object comes back standardised; a thrown non-object makes `'type' in error` throw a `TypeError` |
| Errors.Wrap | src/utils/error-handler.ts:314-343 | the operation's value when it returns; null when it throws an error object; the `TypeError` of `handle` escapes when it throws a non-object |
| Errors.HandleErrors | src/utils/error-handler.ts:363-376 | the caller sees the method's own outcome unless it threw a non-object, whose `TypeError` from `handle` replaces it; a thrown error object is standardised, exactly then, and rethrown unchanged |
| Errors.WrapAgreesWithDecorator | src/utils/error-handler.ts:314-376 | the wrapper returns null exactly when the decorator rethrows the method's own error, and both let out the same `TypeError` for a thrown non-object |
| Context.ProjectName | plugin/scripts/context-generator.cjs:634 | `Me` never yields an empty name, and a blank directory gives "unknown-project" |
| Context.ProjectNameOfDirectory | plugin/scripts/context-generator.cjs:634 | the project of a POSIX directory is its last component, whatever the parent |
| Context.ProjectNameOfRoot | plugin/scripts/context-generator.cjs:634 | the POSIX root gives "unknown-project" |
| Context.ProjectNameOfDriveRoot | plugin/scripts/context-generator.cjs:634 | a Windows drive root gives "drive-" and the upper-cased drive letter |
| Context.ArrayColumn | plugin/scripts/context-generator.cjs:634 | `de`: a null or empty column, unparsable text and a parsed non-array give the empty list; a parsed array gives its elements |
| Context.FileLabel | plugin/scripts/context-generator.cjs:634 | `ve`: "General" for an empty file list; the first modified file itself (not its directory) when `path.isAbsolute` rejects it; otherwise `path.relative(cwd, file)`, with absoluteness decided by the platform's rule (on Windows a leading `/` or `\`, or a drive letter, colon and separator) |
| Context.AbsoluteOnWindows | plugin/scripts/context-generator.cjs:634 | every POSIX-absolute path is Windows-absolute; `C:\x` is absolute only on Windows; a drive-relative `C:x` is absolute on neither |
| Context.CandidatesQualify | plugin/scripts/context-generator.cjs:635-649 | at most `limit` candidates, each a row of the project with an enabled type and a shared concept, newest first |
| Context.ConceptlessNeverSelected | plugin/scripts/context-generator.cjs:643-646 | an observation with an empty concept list is never a candidate |
| Context.CandidatesNewest | plugin/scripts/context-generator.cjs:647-648 | a qualifying row left out by the limit is no newer than any candidate |
| Context.Fetched | plugin/scripts/context-generator.cjs:649-655 | at most `count` summaries are fetched |
| Context.OfProject | plugin/scripts/context-generator.cjs:652 | exactly the summaries of the project |
| Context.FetchedNewestFirst | plugin/scripts/context-generator.cjs:649-655 | the fetched summaries are rows of the project, newest first |
| Context.Utf16Length | plugin/scripts/context-generator.cjs:662 | a string's `.length` lies between its character count and twice that |
| Context.FactsLength | plugin/scripts/context-generator.cjs:634 | the stringified facts are at least two characters long, exactly two ("[]") when the column is null or empty |
| Context.ReadTokens | plugin/scripts/context-generator.cjs:634 | the read cost is the ceiling of the counted characters over four, and at least one token |
| Context.BareObservationReadsOneToken | plugin/scripts/context-generator.cjs:634 | an observation with only null text columns still costs one token |
| Context.ReadTotal | plugin/scripts/context-generator.cjs:662 | the read total is at least one token per observation |
| Context.TotalsAppend | plugin/scripts/context-generator.cjs:662 | both totals add up over any split of the list |
| Context.Percent | plugin/scripts/context-generator.cjs:662 | with positive work, savings over work times 100 rounded half up; zero without work |
| Context.PercentBounds | plugin/scripts/context-generator.cjs:662 | the percentage is at most 100, and non-negative when savings are |
| Context.Thousands | plugin/scripts/context-generator.cjs:663 | the footer's thousands are the work tokens over 1000, rounded half up |
| Context.EconomicsConsistent | plugin/scripts/context-generator.cjs:662 | the economics block shows exactly when a flag is on; its read cost is at least one token per observation; a savings line needs positive work, its amount is work minus read, and its percentage is at most 100 |
| Context.FooterNeedsSavings | plugin/scripts/context-generator.cjs:663 | a footer needs positive savings, repeats the block's read cost, comes with a savings line when a savings flag is on, and then the percentage is non-negative |
| Context.Anchor | plugin/scripts/context-generator.cjs:662 | exactly the first `sessionCount` fetched summaries are rendered, in fetched order |
| Context.AnchorShiftsBack | plugin/scripts/context-generator.cjs:662 | the newest rendered summary keeps its own time; the one at index h >= 1 shows the time of fetched summary h+1; no summary is shown later than its own time |
| Context.AnchorOrdered | plugin/scripts/context-generator.cjs:662 | on any newest-first list the same three facts hold |
| Sorting.SortBySorted | plugin/scripts/context-generator.cjs:662 | the sort by epoch puts the entries in ascending key order |
| Sorting.SortByStable | plugin/scripts/context-generator.cjs:662 | the sort is stable: the entries carrying any one key keep their input order |
| Sorting.SortBySortedIdentity | plugin/scripts/context-generator.cjs:662 | sorting an already ordered list changes nothing |
| Timeline.DayOfMonotone | plugin/scripts/context-generator.cjs:662 | a later epoch never falls on an earlier day |
| Timeline.MergedOrder | plugin/scripts/context-generator.cjs:662 | the merged list is ordered by effective epoch, holds every observation and shown summary once, and at one epoch lists the observations before the summaries, each in their own order |
| Timeline.AddToExisting | plugin/scripts/context-generator.cjs:662 | an entry whose day already has a bucket is appended to that bucket and nothing else changes |
| Timeline.AddToFresh | plugin/scripts/context-generator.cjs:662 | an entry of a new day opens a last bucket holding just it |
| Timeline.GroupSpec | plugin/scripts/context-generator.cjs:662 | the buckets' days are distinct, every entry's day has a bucket, and a day's bucket holds exactly that day's entries in list order |
| Timeline.GroupAscending | plugin/scripts/context-generator.cjs:662 | for entries ordered by epoch, the buckets come out in ascending day order |
| Timeline.GroupSortIdentity | plugin/scripts/context-generator.cjs:662 | for entries ordered by epoch, the final sort of the buckets by day is the identity |
| Timeline.GroupByDay | plugin/scripts/context-generator.cjs:662 | the loop filling the day map in list order and then sorting its entries by day yields the grouping of the list, sorted by day |
| Timeline.Body | plugin/scripts/context-generator.cjs:663 | a full observation's body is never empty, and with the "narrative" field it is the narrative when non-empty |
| Timeline.RenderDay | plugin/scripts/context-generator.cjs:663 | the day loop, carrying the file label, the last shown time and the open-table flag, emits exactly the day's rows |
| Timeline.DayRowsIds | plugin/scripts/context-generator.cjs:663 | a day shows each of its observations and summaries exactly once, in entry order |
| Timeline.DayRowsFull | plugin/scripts/context-generator.cjs:663 | an observation row is in full exactly when its id is among the full ids, and only a full row has a body |
| Timeline.DayRowsClusters | plugin/scripts/context-generator.cjs:663 | in a run of compact observations a file row opens exactly where the label differs from the one before |
| Timeline.Line | plugin/scripts/context-generator.cjs:663 | a last-summary line is shown exactly when its field is non-empty |
| Timeline.FirstOther | plugin/scripts/context-generator.cjs:655 | the index of the newest observation from another session, or none when all belong to the current session |
| Timeline.Previously | plugin/scripts/context-generator.cjs:655 | the "Previously" block appears only when enabled and non-empty, and is the transcript message of a session other than the current one |
| Timeline.RenderAll | plugin/scripts/context-generator.cjs:662-663 | one day per bucket, in bucket order, each holding that bucket's rows |
| Timeline.RenderDays | plugin/scripts/context-generator.cjs:662-663 | the outer loop over the buckets renders each day in turn |
| Timeline.ContextOf | plugin/scripts/context-generator.cjs:635-663 | a throw when the observation or session count is not an integer, since `LIMIT NULL` fails; otherwise the fixed "no previous sessions" output exactly when neither observations nor summaries are selected; the header alone exactly when only summaries are; a throw exactly when a file label cannot be computed; otherwise the project, the economics block and the footer over the selected observations |
| Timeline.Generate | plugin/scripts/context-generator.cjs:635-663 | `tt` produces the output described by `ContextOf` |
| Timeline.RenderedDays | plugin/scripts/context-generator.cjs:662-663 | rendered days are strictly ascending, one for every day an entry falls on, and each lists exactly that day's observations and summaries in epoch order |
| Timeline.RenderedFull | plugin/scripts/context-generator.cjs:662-663 | an observation row is in full exactly when it is among the first `fullObservationCount` selected observations, counted as `slice(0, n)` does: a negative count from the end, a non-integer as none |
| Timeline.NegativeTotalSelectsAll | plugin/scripts/context-generator.cjs:649 | a negative observation count is `LIMIT` without a limit: every qualifying observation of the project is selected |
| Timeline.NegativeSessionCount | plugin/scripts/context-generator.cjs:655-662 | a session count of -1 fetches no summary; one below -1 fetches every summary of the project and renders all but the last `-sessionCount` |
| Store.FindFirst | plugin/scripts/context-generator.cjs:415-431 | `.get()` answers the first row in rowid order satisfying the condition, or none when no row does |
| Store.SessionFor | plugin/scripts/context-generator.cjs:431-436 | `findAnySDKSession`: a row of the session's Claude id when one exists, none otherwise |
| Store.FindActive | plugin/scripts/context-generator.cjs:426-431 | `findActiveSDKSession` answers a row exactly when the Claude id's row exists and is active, and then that row |
| Store.SessionById | plugin/scripts/context-generator.cjs:415-420 | `getSessionById`: the row with that id when one exists, none otherwise |
| Store.CreateSession | plugin/scripts/context-generator.cjs:448-458 | the upsert fails, on the unique `sdk_session_id`, exactly when the Claude id has no row and another row already owns it as its SDK id |
| Store.CreateSessionEffect | plugin/scripts/context-generator.cjs:448-458 | after a successful upsert the Claude id has exactly the returned row (new and active, or the old one with non-blank arguments written over project and prompt); no other row or table changes and the table grows only by an insert |
| Store.CreateSessionTwice | plugin/scripts/context-generator.cjs:448-458 | repeating the same upsert returns the same id and changes nothing |
| Store.UpdateSdkId | plugin/scripts/context-generator.cjs:458-462 | a row changes exactly when the id exists, its SDK id is still NULL and no other row owns the new one; with that id owned it fails; no change leaves the tables as they were |
| Store.UpdateSdkIdOnce | plugin/scripts/context-generator.cjs:458-462 | once set, the SDK session id is never overwritten: a second update reports no change |
| Store.CreatedSessionKeepsSdkId | plugin/scripts/context-generator.cjs:448-462 | a session `createSDKSession` inserted already has its SDK id, so `updateSDKSessionId` never changes it |
| Store.PromptCounter | plugin/scripts/context-generator.cjs:446-448 | `getPromptCounter` answers 0 for a missing session |
| Store.IncrementPromptCounter | plugin/scripts/context-generator.cjs:440-446 | a missing session answers 1 and stores nothing |
| Store.IncrementThenRead | plugin/scripts/context-generator.cjs:440-448 | incrementing an existing session's counter returns the new value, which the getter reads back, one more than before; only that counter changes |
| Store.UpdateRowEffect | plugin/scripts/context-generator.cjs:436-510 | an UPDATE by id of non-key columns changes only that row, keeps the store valid, and changes nothing for a missing id |
| Store.ReactivateEffect | plugin/scripts/context-generator.cjs:436-440 | reactivating sets status active, the new prompt and no worker port, and leaves the other tables alone |
| Store.FinishEffect | plugin/scripts/context-generator.cjs:502-510 | marking a session completed or failed sets its status and completion time; a missing id changes nothing |
| Store.ReactivateAfterFinish | plugin/scripts/context-generator.cjs:426-440 | a completed session is no longer found as active, and after reactivation it is again, with the same id |
| Store.SessionOfClaude | plugin/scripts/context-generator.cjs:415-436 | in a valid store the row with a given id is the row of its Claude id |
| Store.PromptNumberColumn | plugin/scripts/context-generator.cjs:480-491 | `n \|\| null` stores a prompt number exactly when it is given and non-zero |
| Store.EnsureSession | plugin/scripts/context-generator.cjs:480-491 | the auto-create does nothing when a row owns the SDK id, and fails exactly when none does but a row has it as its Claude id |
| Store.EnsureSessionEffect | plugin/scripts/context-generator.cjs:480-491 | afterwards a row owns the SDK id, no row is lost, the other tables are untouched, and a missing session gets exactly one new row |
| Store.StoreObservation | plugin/scripts/context-generator.cjs:480-491 | the call fails exactly when the auto-create fails or the kind is outside the table's CHECK |
| Store.StoreObservationEffect | plugin/scripts/context-generator.cjs:480-491 | success appends exactly one observation with the returned id, the input's fields JSON-encoded, the given tokens and the current time, whose session row owns the SDK id; failure adds no observation; existing rows never change |
| Store.StoreAutoCreates | plugin/scripts/context-generator.cjs:480-491 | with no session of that id, exactly one active row with both ids set to it is added, whether or not the insert then fails |
| Store.StoreSummary | plugin/scripts/context-generator.cjs:491-502 | the call fails exactly when the auto-create fails |
| Store.StoreSummaryEffect | plugin/scripts/context-generator.cjs:491-502 | success appends exactly one summary carrying the returned id and the input's fields; failure leaves the tables as they were |
| StoreImports.TokensColumn | plugin/scripts/context-generator.cjs:611-617 | `discovery_tokens \|\| 0` keeps a given count and writes 0 for a missing one |
| StoreImports.ImportSession | plugin/scripts/context-generator.cjs:606-611 | a Claude id that already has a row answers `imported: false` with that row's id and writes nothing; the insert fails exactly when the id is new but its SDK id is taken |
| StoreImports.ImportSessionEffect | plugin/scripts/context-generator.cjs:606-611 | an imported session is the record appended with the next rowid, found afterwards by its Claude id |
| StoreImports.ImportSessionTwice | plugin/scripts/context-generator.cjs:606-611 | importing a session a second time finds the first import's row and writes nothing |
| StoreImports.ImportSummary | plugin/scripts/context-generator.cjs:611-617 | with foreign keys on (line 185), a summary with that SDK id answers `imported: false` with its id and writes nothing; otherwise the insert fails on the foreign key exactly when no session owns the SDK id, and else appends the record with the next rowid |
| StoreImports.ImportSummaryTwice | plugin/scripts/context-generator.cjs:611-617 | an accepted summary import keeps the store valid, and a second import finds the first and writes nothing |
| StoreImports.ImportObservationBy | plugin/scripts/context-generator.cjs:617-626 | with foreign keys on (line 185), a matching row answers `imported: false` with its id and writes nothing; otherwise the insert fails exactly when the kind fails the CHECK or no session owns the SDK id (the foreign key), with that error; an insert appends the record with the next rowid |
| StoreImports.ImportObservationNullSafe | plugin/scripts/context-generator.cjs:617-626 | with the title compared by `IS`, an answer of `imported: false` writes nothing |
| StoreImports.NoNullTitleMatch | plugin/scripts/context-generator.cjs:617-626 | with a NULL title the lookup as written matches no row |
| StoreImports.ImportObservationByEffect | plugin/scripts/context-generator.cjs:617-626 | an insert keeps the store valid, and a repeat import then finds the inserted row whenever the lookup matches it |
| StoreImports.ImportObservationNullSafeTwice | plugin/scripts/context-generator.cjs:617-626 | with the NULL-safe lookup every import is idempotent |
| StoreImports.ImportObservationTitledTwice | plugin/scripts/context-generator.cjs:617-626 | as written, importing a titled observation twice finds the first import's row |
| StoreImports.ImportObservationNullTitleDuplicates | plugin/scripts/context-generator.cjs:617-626 | as written, importing an untitled observation twice inserts it twice, both times reporting `imported: true` |
| StoreImports.SessionFirstSatisfiesKey | plugin/scripts/context-generator.cjs:606-626 | once `importSdkSession` has inserted a session with an SDK id, summaries and observations (of an admitted kind) of that id are accepted |
| StoreImports.ImportPrompt | plugin/scripts/context-generator.cjs:626-634 | nothing is inserted exactly when a prompt with that Claude id and prompt number exists, and then nothing is written |
| StoreImports.ImportPromptTwice | plugin/scripts/context-generator.cjs:626-634 | a second import of a prompt finds the first and writes nothing |
| StoreQueries.ColumnItems | plugin/scripts/context-generator.cjs:411-415 | a list column the store wrote itself parses back to its list of strings |
| StoreQueries.Add | plugin/scripts/context-generator.cjs:411-415 | `Set.add` keeps the earlier elements in place, adds the value, and keeps the elements distinct |
| StoreQueries.AddAll | plugin/scripts/context-generator.cjs:411-415 | adding a list holds exactly the earlier elements and the list's, distinct and with the earlier ones first |
| StoreQueries.UnionDistinct | plugin/scripts/context-generator.cjs:411-415 | each file appears once in the union |
| StoreQueries.UnionMember | plugin/scripts/context-generator.cjs:411-415 | a value is in the union exactly when some row's parsed column holds it |
| StoreQueries.GetFilesForSession | plugin/scripts/context-generator.cjs:411-415 | the loop over the session's observations yields the two column unions |
| StoreQueries.AddEach | plugin/scripts/context-generator.cjs:411-415 | the inner `forEach` adds each element of a parsed list in turn |
| StoreQueries.FilesForSessionMembers | plugin/scripts/context-generator.cjs:411-415 | each file appears once, and exactly when some observation of the session lists it in that column |
| StoreQueries.StoredFilesReported | plugin/scripts/context-generator.cjs:411-491 | every file an observation was stored with is reported for its session afterwards |
| StoreQueries.PromptsIn | plugin/scripts/context-generator.cjs:525-565 | the prompts in the window are prompts of the table between the bounds, in the project |
| StoreQueries.WindowBetweenMembers | plugin/scripts/context-generator.cjs:525-565 | between two bounds the window holds exactly the project's observations and summaries in that range, and prompts in it, each table in epoch order |
| StoreQueries.TimelineMembers | plugin/scripts/context-generator.cjs:525-565 | whatever the anchor, only the project's rows, in epoch order, and every observation of the project between the two bounds unless both boundary queries came back empty |
| StoreQueries.TimestampLo | plugin/scripts/context-generator.cjs:525 | around a timestamp the older bound is at or before it, and is an observation's time when a row was fetched |
| StoreQueries.TimestampHi | plugin/scripts/context-generator.cjs:525 | around a timestamp the newer bound is at or after it, and is an observation's time when a row was fetched |
| StoreQueries.TimestampCandidates | plugin/scripts/context-generator.cjs:525 | a side has no candidates exactly when the project has no observation on that side of the timestamp |
| StoreQueries.TimestampWindow | plugin/scripts/context-generator.cjs:525 | the bounds enclose the anchor time; the answer is empty exactly when nothing lies at or after it and either `before` is 0 or nothing lies at or before it, and otherwise holds an observation |
| StoreQueries.AnchorKindsDiffer | plugin/scripts/context-generator.cjs:525 | with the same `before`, an id anchor reaches the older observation while a timestamp anchor does not, because it fetches one row fewer |
| SessionDb.SessionStore.CreateSDKSession | plugin/scripts/context-generator.cjs:448-458 | the method's answer and new tables are those of the upsert, and the store stays valid |
| SessionDb.SessionStore.UpdateSDKSessionId | plugin/scripts/context-generator.cjs:458-462 | answer and new tables as `UpdateSdkId`; a failure leaves the tables as they were |
| SessionDb.SessionStore.IncrementPromptCounter | plugin/scripts/context-generator.cjs:440-446 | answer and new tables as `IncrementPromptCounter` |
| SessionDb.SessionStore.GetPromptCounter | plugin/scripts/context-generator.cjs:446-448 | a missing session answers 0 |
| SessionDb.SessionStore.ReactivateSession | plugin/scripts/context-generator.cjs:436-440 | the tables become `Reactivate` of the old ones, still valid |
| SessionDb.SessionStore.MarkSessionCompleted | plugin/scripts/context-generator.cjs:502-506 | the tables become the old ones with the session finished as completed at `now` |
| SessionDb.SessionStore.MarkSessionFailed | plugin/scripts/context-generator.cjs:506-510 | the tables become the old ones with the session finished as failed at `now` |
| SessionDb.SessionStore.GetSessionById | plugin/scripts/context-generator.cjs:415-420 | an answered row is in the table and has that id |
| SessionDb.SessionStore.FindActiveSDKSession | plugin/scripts/context-generator.cjs:426-431 | an answered row is in the table, has that Claude id and is active |
| SessionDb.SessionStore.FindAnySDKSession | plugin/scripts/context-generator.cjs:431-436 | an answered row is in the table and has that Claude id |
| SessionDb.SessionStore.StoreObservation | plugin/scripts/context-generator.cjs:480-491 | the two statements, run in order, give the answer and tables of `StoreObservation` |
| SessionDb.SessionStore.StoreSummary | plugin/scripts/context-generator.cjs:491-502 | the two statements, run in order, give the answer and tables of `StoreSummary` |
| SessionDb.SessionStore.ImportSdkSession | plugin/scripts/context-generator.cjs:606-611 | answer and new tables as `ImportSession`; a failure writes nothing |
| SessionDb.SessionStore.ImportSessionSummary | plugin/scripts/context-generator.cjs:611-617 | answer and new tables as `ImportSummary`, which fails with the foreign-key error for an unknown SDK session; a failure writes nothing |
| SessionDb.SessionStore.ImportObservation | plugin/scripts/context-generator.cjs:617-626 | answer and new tables as the lookup as written, which fails on a type the CHECK rejects or on an unknown SDK session (foreign key); a failure writes nothing |
| SessionDb.SessionStore.ImportUserPrompt | plugin/scripts/context-generator.cjs:626-634 | answer and new tables as `ImportPrompt` |
| SessionDb.SessionStore.GetFilesForSession | plugin/scripts/context-generator.cjs:411-415 | the two unions of the session's file columns |
| SessionDb.SessionStore.GetTimeline | plugin/scripts/context-generator.cjs:525-565 | every returned observation is a row of the table in the project |
| Schema.RemoveOne | src/services/sqlite/migrations.ts:431-455 | the FTS 'delete' command removes one occurrence of the mirrored entry, and nothing when it is absent |
| Schema.InsertRow | src/services/sqlite/MigrationRunner.ts:386-390 | the columns a row leaves out take their declared defaults; the insert succeeds exactly when the table exists and the completed row meets its NOT NULL, CHECK and UNIQUE constraints, and then appends the completed row |
| Schema.WithDefaults | src/services/sqlite/MigrationRunner.ts:386-390 | a completed row keeps every value given, adds only declared columns, and gives each omitted column its default |
| Schema.ExecAll | src/services/sqlite/MigrationRunner.ts:183-191 | a statement list stops at its first failing statement; an empty list changes nothing |
| Schema.ExecAllAppend | src/services/sqlite/MigrationRunner.ts:183-191 | running two lists in sequence is running the first, then the second only if the first succeeded |
| Schema.Transaction | src/services/sqlite/MigrationRunner.ts:129-173 | `BEGIN`/`COMMIT`, with `ROLLBACK` restoring the prior database on failure; it succeeds exactly when its statements do |
| Schema.RebuildEffect | src/services/sqlite/MigrationRunner.ts:131-161 | the create/copy/drop/rename rebuild succeeds exactly when the copied columns exist and every row fits, and then keeps every row (projected, in order), leaves other tables and FTS tables alone, and drops the old table's indexes and triggers |
| Schema.IndexesOnEffect | src/services/sqlite/MigrationRunner.ts:163-167 | creating indexes adds exactly them on their table and touches nothing else |
| Schema.RebuildWithIndexes | src/services/sqlite/MigrationRunner.ts:131-167 | a rebuild followed by index creation fails when a row does not fit; on success the table holds the projected rows, its indexes are exactly the new ones, and other tables' indexes are unchanged |
| Schema.CreateIndexEffect | src/services/sqlite/migrations.ts:27-29 | a new index is created exactly when its table exists, has every indexed column and, for a UNIQUE index, holds no two rows with the same non-NULL key; only the index map changes |
| Schema.CreateGrows | src/services/sqlite/migrations.ts:12-115 | a create statement keeps every table and index that existed and adds its own |
| Schema.AdditiveCreated | src/services/sqlite/migrations.ts:12-115 | after a create-only list succeeds, everything it creates exists beside everything that existed before |
| Schema.CreatesOnlyNoop | src/services/sqlite/migrations.ts:12-115 | an `IF NOT EXISTS` create-only list changes nothing when all it creates is already there |
| Schema.CreatesOnlyIdempotent | src/services/sqlite/migrations.ts:12-115 | once an `IF NOT EXISTS` create-only list has run, running it again succeeds and changes nothing |
| Schema.InsertKeepsSync | src/services/sqlite/migrations.ts:438-442 | with the insert trigger in place, an insert keeps the FTS table an exact mirror of its source |
| Schema.DeleteKeepsSync | src/services/sqlite/migrations.ts:444-447 | with the delete trigger in place, a delete keeps the FTS table in step |
| Schema.UpdateKeepsSync | src/services/sqlite/migrations.ts:449-454 | with the update trigger in place, an update keeps the FTS table in step |
| Schema.AddColumnStep | src/services/sqlite/MigrationRunner.ts:96 | an added column keeps every existing column, adds the new one, and adds or drops no table, index or trigger |
| Schema.AddColumnsEffect | src/services/sqlite/MigrationRunner.ts:183-191 | a successful list of column additions keeps every existing column and adds each named one |
| Schema.InsertRowKeeps | src/services/sqlite/MigrationRunner.ts:435-443 | an insert touches only rows and FTS entries |
| MigrationRunner.Level | src/services/sqlite/MigrationRunner.ts:73-74 | the applied level is the largest recorded version, or 0 for an empty ledger |
| MigrationRunner.RecordVersion | src/services/sqlite/MigrationRunner.ts:80 | `INSERT OR IGNORE` adds the version, keeps every recorded one, and appends only a version not yet there |
| MigrationRunner.RecordVersionDistinct | src/services/sqlite/MigrationRunner.ts:80 | recording a version never creates a duplicate |
| MigrationRunner.InitializeSchema | plugin/scripts/context-generator.cjs:185-254 | with a non-zero level nothing happens; at level 0 a successful baseline records version 4, which becomes the level; a failure records nothing |
| MigrationRunner.LevelAppend | src/services/sqlite/MigrationRunner.ts:73-74 | a version above every recorded one becomes the level |
| MigrationRunner.AddIfMissing | src/services/sqlite/MigrationRunner.ts:91-99 | an existing column makes the migration a no-op; otherwise a success adds the column and keeps every other column and table; a failure means the table is missing and changes nothing |
| MigrationRunner.CreateIfMissing | src/services/sqlite/MigrationRunner.ts:246-268 | an existing table makes the migration a no-op; a success creates it and keeps every table that existed |
| MigrationRunner.DefaultTagRows | src/services/sqlite/MigrationRunner.ts:418-443 | one row per default tag, in list order, with its name, category, description and colour, `is_auto_generated` and `is_system_tag` 1, `created_at` the given time, the next id, and no `usage_count`, which the column default supplies |
| MigrationRunner.Registry | src/services/sqlite/MigrationRunner.ts:17-69 | thirteen registrations, versions 5 to 17 in insertion order |
| MigrationRunner.Due | src/services/sqlite/MigrationRunner.ts:76-77 | exactly the registered versions above the level, no more than there are registrations |
| MigrationRunner.Pending | src/services/sqlite/MigrationRunner.ts:76-77 | every pending version is a registered one above the level |
| MigrationRunner.MigrationRunner.RunPendingMigrations | src/services/sqlite/MigrationRunner.ts:72-89 | the loop over the registrations, 7 and 9 as written, leaves the database, ledger and outcome `RunPending` describes |
| MigrationRunner.RunLoop | src/services/sqlite/MigrationRunner.ts:76-88 | each registration above the level is applied and recorded in turn and the first failure stops the run, exactly as `RunFrom` states, whose ledger `RunFromLedger` characterises |
| MigrationRunner.Open | plugin/scripts/context-generator.cjs:185-254 | opening the store runs the baseline and then the runner, as `OpenSpec` describes |
| MigrationProps.RegistryShape | tests/services/migration-runner.test.ts:6-36 | the registry holds exactly the versions 5 to 17, thirteen of them, ascending |
| MigrationProps.DueAscending | src/services/sqlite/MigrationRunner.ts:76-77 | the due versions keep registration order |
| MigrationProps.DueAll | src/services/sqlite/MigrationRunner.ts:76-77 | when every registration is above the level, all of them are due |
| MigrationProps.RunFromLedger | src/services/sqlite/MigrationRunner.ts:76-87 | the loop records, in order, a prefix of the due versions, all of them exactly when it succeeds |
| MigrationProps.RunFromDue | src/services/sqlite/MigrationRunner.ts:76-77 | running only the due registrations is running them all |
| MigrationProps.RunFromAppend | src/services/sqlite/MigrationRunner.ts:76-87 | running two lists of registrations is running the first, then the second from where it stopped if it succeeded |
| MigrationProps.RunPendingLedger | src/services/sqlite/MigrationRunner.ts:72-89 | the ledger gains exactly the due versions before the first failure, ascending; the failing one and all later ones stay unrecorded |
| MigrationProps.StopsAtFailure | src/services/sqlite/MigrationRunner.ts:83-86 | a failing run stops at a due migration that failed after all earlier ones succeeded, with what it left and the ledger as it stood before it |
| MigrationProps.FirstFailure | src/services/sqlite/MigrationRunner.ts:83-86 | a failing loop has a first failing registration, before which the loop succeeded |
| MigrationProps.NothingDue | src/services/sqlite/MigrationRunner.ts:76-77 | when nothing is due the runner changes nothing |
| MigrationProps.RerunNoop | src/services/sqlite/MigrationRunner.ts:72-89 | after a successful run a second run changes nothing |
| MigrationProps.LedgerDistinct | src/services/sqlite/MigrationRunner.ts:80 | the ledger never holds a version twice |
| MigrationProps.AllPending | src/services/sqlite/MigrationRunner.ts:73-77 | with every recorded version below 5, every registered migration is due, in registration order |
| MigrationProps.AllDueLedger | src/services/sqlite/MigrationRunner.ts:72-89 | from a ledger below 5, a successful run records 5 to 17 |
| MigrationProps.FreshOpen | plugin/scripts/context-generator.cjs:185-254 | a fresh database gets the baseline and every migration: on success its ledger gains 4, 5, ..., 17 |
| MigrationProps.SummaryColumnsNotUnique | src/services/sqlite/MigrationRunner.ts:133-150 | no column of the rebuilt `session_summaries` is UNIQUE |
| MigrationProps.RemoveUniqueEffect | src/services/sqlite/MigrationRunner.ts:121-175 | migration 7 as the runner executes it: a no-op without a unique index; a row that does not fit rolls back; on success every row keeps its 14 columns in order, no unique index is left, and the indexes on the table are exactly the first three baseline ones |
| MigrationProps.RemoveUniqueFixedEffect | src/services/sqlite/MigrationRunner.ts:121-175 | migration 7 as evidently intended: a no-op without a unique index; a row that does not fit rolls back; on success every row keeps its 14 columns in order, no unique index is left, and all four baseline indexes are present |
| MigrationProps.RemoveUniqueAsWrittenLosesIndex | src/services/sqlite/MigrationRunner.ts:163-167 | as written, migration 7 leaves no `idx_session_summaries_project_created` on the table, although the baseline created it |
| MigrationProps.ObservationTextNullable | src/services/sqlite/MigrationRunner.ts:207-226 | `text` is nullable in the rebuilt `observations` |
| MigrationProps.TextNullableEffect | src/services/sqlite/MigrationRunner.ts:196-244 | migration 9 as the runner executes it: a no-op unless `text` is NOT NULL; a row that does not fit rolls back; on success every row keeps its 15 columns in order, `text` is nullable, and no index is left on `observations` |
| MigrationProps.TextNullableFixedEffect | src/services/sqlite/MigrationRunner.ts:196-244 | migration 9 as evidently intended: a no-op unless `text` is NOT NULL; a row that does not fit rolls back; on success every row keeps its 15 columns in order, `text` is nullable, and the six baseline indexes are present |
| MigrationProps.TextNullableAsWrittenDropsIndexes | src/services/sqlite/MigrationRunner.ts:228-237 | as written, migration 9 leaves no index at all on `observations`, although the baseline created six |
| MigrationProps.InsertIgnoringKeeps | src/services/sqlite/MigrationRunner.ts:434-443 | the default-tag inserts, errors ignored, keep every table, index and trigger |
| MigrationProps.PromptTrackingIdempotent | src/services/sqlite/MigrationRunner.ts:101-119 | migration 6 run again after success changes nothing |
| MigrationProps.HierarchicalIdempotent | src/services/sqlite/MigrationRunner.ts:177-194 | migration 8, guarded by `title` alone, run again after success changes nothing |
| MigrationProps.AiResponsesIdempotent | src/services/sqlite/MigrationRunner.ts:299-337 | migration 13 run again after success changes nothing |
| MigrationProps.ContentTagsIdempotent | src/services/sqlite/MigrationRunner.ts:373-447 | migration 15 run again after success changes nothing |
| MigrationProps.DefaultTagsSeeded | src/services/sqlite/MigrationRunner.ts:379-443 | on a database without `content_tags`, a successful migration 15 leaves the table holding exactly the thirteen default tags in order, each with its listed name and a usage count of 0 |
| MigrationProps.DefaultTagStored | src/services/sqlite/MigrationRunner.ts:379-442 | each default tag as stored has its listed name, category, description and colour, `is_system_tag` 1 and `usage_count` 0, and meets every constraint of the table |
| MigrationProps.DefaultTagsInsertable | src/services/sqlite/MigrationRunner.ts:380-442 | the default tags fit the fresh table and never repeat a `tag_name`, so no insert hits the ignored error |
| MigrationProps.InsertIgnoringAll | src/services/sqlite/MigrationRunner.ts:434-443 | when every row fits and none clashes, the error-ignoring inserts append all of them, completed with defaults, in order |
| MigrationProps.ContentTagsCreatedEmpty | src/services/sqlite/MigrationRunner.ts:379-413 | the statements of migration 15 on a database without `content_tags` create it empty with its twelve columns |
| MigrationProps.DefaultTagNamesDistinct | src/services/sqlite/MigrationRunner.ts:418-432 | the thirteen default tag names are pairwise different |
| MigrationProps.OnlyTagNameUnique | src/services/sqlite/MigrationRunner.ts:380-393 | `tag_name` is the only UNIQUE column of `content_tags` |
| MigrationProps.UpIdempotent | src/services/sqlite/MigrationRunner.ts:91-512 | every registered migration as the runner executes it, 7 and 9 as written included, guards itself: run again after success, it succeeds and changes nothing |
| MigrationProps.UpIntendedIdempotent | src/services/sqlite/MigrationRunner.ts:121-244 | with 7 and 9 recreating every index, each migration still succeeds and changes nothing when run again |
| MigrationProps.RemoveUniqueIdempotent | src/services/sqlite/MigrationRunner.ts:121-131 | migration 7 as written finds no unique index after it succeeded and changes nothing when run again |
| MigrationProps.TextNullableIdempotent | src/services/sqlite/MigrationRunner.ts:196-206 | migration 9 as written finds `text` nullable after it succeeded and changes nothing when run again |
| MigrationProps.BaselineCreatesOnly | plugin/scripts/context-generator.cjs:185-254 | the baseline only creates tables and indexes, each IF NOT EXISTS |
| MigrationProps.BaselineIdempotent | plugin/scripts/context-generator.cjs:185-254 | running the baseline over a database it built changes nothing |
| LegacyMigrations.Missing | src/services/sqlite/migrations.ts:544-553 | a name is reported missing exactly when it is expected and absent, in the order checked |
| LegacyMigrations.CollectMissing | src/services/sqlite/migrations.ts:544-553 | the lookup loop collects exactly the missing names, as `Missing` states |
| LegacyMigrations.RecreateEach | src/services/sqlite/migrations.ts:555-623 | the repair loop recreates the missing names in turn, a failure leaving the database alone |
| LegacyMigrations.CheckEach | src/services/sqlite/migrations.ts:628-650 | the FTS loop checks each expected table in turn and stops at a failing count query |
| LegacyMigrations.RunHealthCheck | src/services/sqlite/migrations.ts:505-653 | the health check collects, repairs, then checks the FTS tables |
| LegacyProps.Up001CreatesOnly | src/services/sqlite/migrations.ts:10-118 | migration 1 only creates tables and indexes, each IF NOT EXISTS |
| LegacyProps.Up001Idempotent | src/services/sqlite/migrations.ts:10-118 | migration 1 runs again without failing and without changing anything |
| LegacyProps.Up003CreatesOnly | src/services/sqlite/migrations.ts:169-197 | migration 3 only creates, IF NOT EXISTS |
| LegacyProps.Up003Idempotent | src/services/sqlite/migrations.ts:169-197 | migration 3 runs again without failing and without changing anything |
| LegacyProps.Up004CreatesOnly | src/services/sqlite/migrations.ts:212-297 | migration 4 only creates, IF NOT EXISTS |
| LegacyProps.Up004Idempotent | src/services/sqlite/migrations.ts:212-297 | migration 4 runs again without failing and without changing anything |
| LegacyProps.IndexesKeepTables | src/services/sqlite/migrations.ts:146-149 | creating indexes leaves every table and FTS table as it was |
| LegacyProps.HierarchyAdded | src/services/sqlite/migrations.ts:137-143 | after the unguarded ALTERs succeed, all five hierarchical columns exist on `memories` |
| LegacyProps.SecondUp002Fails | src/services/sqlite/migrations.ts:137-143 | with `title` already on `memories`, migration 2 fails and changes nothing |
| LegacyProps.Up002NotRerunnable | src/services/sqlite/migrations.ts:136-153 | migration 2 is not re-runnable: a second run fails on the first column the first run added |
| LegacyProps.Up007Defaults | src/services/sqlite/migrations.ts:481-489 | on tables without `discovery_tokens` migration 7 succeeds, and every existing row of both tables reads 0 in the new column and is otherwise unchanged |
| LegacyProps.Up007NotRerunnable | src/services/sqlite/migrations.ts:481-489 | migration 7 is not re-runnable: a second run fails on the column the first added |
| LegacyProps.Up005Drops | src/services/sqlite/migrations.ts:316-326 | migration 5 never fails, removes both superseded tables and keeps every other table |
| LegacyProps.Down005Restores | src/services/sqlite/migrations.ts:328-368 | migration 5's `down` after its `up` brings both tables back, empty, with their original columns |
| LegacyProps.FtsFill | src/services/sqlite/migrations.ts:376-394 | creating an external-content FTS table and filling it mirrors every row of its source |
| LegacyProps.TriggersAdded | src/services/sqlite/migrations.ts:397-414 | the insert, delete and update triggers are added and feed the FTS table from its source |
| LegacyProps.FtsSetupEffect | src/services/sqlite/migrations.ts:376-414 | on a ready database the FTS setup succeeds: the FTS table mirrors the source, all three triggers exist, nothing that existed changes |
| LegacyProps.Up006Effect | src/services/sqlite/migrations.ts:372-458 | on a ready database migration 6 succeeds and both FTS tables are searchable; no table or index changes |
| LegacyProps.Up006NeedsHierarchy | src/services/sqlite/migrations.ts:374-394 | migration 6 reads `narrative`: on an `observations` table without it the migration fails |
| LegacyProps.BaselineObservationsLackNarrative | src/services/sqlite/migrations.ts:255-272 | the `observations` table migration 4 creates has no `narrative` column |
| LegacyProps.DropTriggerStep | src/services/sqlite/migrations.ts:462-464 | DROP TRIGGER IF EXISTS removes the trigger, if any, and nothing else |
| LegacyProps.DropFtsStep | src/services/sqlite/migrations.ts:465 | DROP TABLE IF EXISTS on an FTS name removes that FTS table and nothing else |
| LegacyProps.FtsTeardown | src/services/sqlite/migrations.ts:461-471 | one table's half of migration 6's `down` removes its three triggers and its FTS table |
| LegacyProps.Down006Removes | src/services/sqlite/migrations.ts:460-472 | migration 6's `down` never fails and leaves neither FTS table nor any of its six triggers; tables and indexes stay |
| LegacyProps.RecreateOneEffect | src/services/sqlite/migrations.ts:555-623 | recreating one name adds that index exactly when its owner table exists and has the indexed columns, and nothing else changes |
| LegacyProps.RecreateAllEffect | src/services/sqlite/migrations.ts:555-623 | recreating a list adds at most its names; each name whose owner table exists and has the indexed columns is present afterwards, and no other is added; nothing else changes |
| LegacyProps.RecreateAllNoop | src/services/sqlite/migrations.ts:555-623 | names no branch knows, or whose table is gone or lacks an indexed column, leave the database alone |
| LegacyProps.DiffersAt | src/services/sqlite/migrations.ts:561 | a string that differs from a prefix at some position does not start with it |
| LegacyProps.ExpectedOwned | src/services/sqlite/migrations.ts:509-542 | every one of the 23 expected names has a recreate statement |
| LegacyProps.HealthCheckRepairs | src/services/sqlite/migrations.ts:505-653 | the health check repairs every expected index whose owner table exists and has the indexed columns, keeps every index that existed, adds no other name, and touches no table, FTS table or trigger |
| LegacyProps.RepairAll | src/services/sqlite/migrations.ts:544-623 | recreating the missing names of a list is the repair half of the health check, with that effect |
| LegacyProps.RepairTwice | src/services/sqlite/migrations.ts:544-623 | repairing twice is repairing once; the second pass finds missing exactly the names that were missing and whose table is gone or lacks an indexed column |
| LegacyProps.HealthCheckIdempotent | src/services/sqlite/migrations.ts:505-653 | a second health check changes nothing and reports the same; it finds missing exactly the expected names that were missing and whose table is gone or lacks an indexed column |
| LegacyProps.TitleIndexNeedsTitle | src/services/sqlite/migrations.ts:582-583 | on a `memories` table without `title`, the check finds `idx_memories_title` missing, cannot create it, and finds it missing again |
| LegacyProps.FtsCheckOk | src/services/sqlite/migrations.ts:628-650 | the FTS phase completes exactly when both counts of every expected FTS table that exists can be taken: its source table's, and its own, which as written needs its content table |
| LegacyProps.FtsCheckWarnings | src/services/sqlite/migrations.ts:628-650 | a completed FTS phase warns exactly about the missing tables and the ones whose compared count differs from the source's, with both counts; with the index's own entries counted this is the sync check the code means |
| LegacyProps.SyncWarningUnreachable | src/services/sqlite/migrations.ts:638-647 | as written, when each expected name is an FTS table whose content table is its stem, no sync warning is ever issued, only missing-table ones, because `COUNT(*)` of an external-content FTS table counts the content table |
| LegacyProps.LostEntryCaught | src/services/sqlite/migrations.ts:638-647 | an `observations_fts` one entry short of its source draws no warning as written, and the sync warning with both counts when the index's entries are counted |
| LegacyProps.SourceOfStem | src/services/sqlite/migrations.ts:640 | `replace('_fts', '')` on a name ending in `_fts`, with no earlier `_f`, gives the stem |
| LegacyProps.ExpectedSources | src/services/sqlite/migrations.ts:631-641 | the count query reads `observations` and `session_summaries` |
| LegacyProps.InSyncNoWarning | src/services/sqlite/migrations.ts:633-648 | an FTS table in step with its source draws no warning, whichever count is compared |
| LegacyProps.FtsPhaseClean | src/services/sqlite/migrations.ts:628-650 | with both FTS tables searchable, the FTS phase completes with no warning |
| LegacyProps.HealthyAfterUp006 | src/services/sqlite/migrations.ts:372-653 | after migration 6 on a ready database the health check's FTS phase completes and reports nothing |
| Completion.PendingOf | src/services/worker/session/SessionCompletionHandler.ts:33 | the session's pending messages are rows of the queue, of that session, still pending |
| Completion.MarkProcessed | src/services/worker/session/SessionCompletionHandler.ts:85 | the row with that id is marked processed; every other row is as it was |
| Completion.ToolOutput | src/services/worker/session/SessionCompletionHandler.ts:58-64 | `stdout` when truthy, else `stderr`, else the re-serialised response; an unparsable or null payload falls back to the raw text; a truthy non-string choice throws and gives no output |
| Completion.FindFirstPrefix | src/services/worker/session/SessionCompletionHandler.ts:48 | a first match in a prefix stays the first match when rows are appended |
| Completion.SessionByIdKept | src/services/worker/session/SessionCompletionHandler.ts:48 | appending session rows keeps every row found by id |
| Completion.DrainOneFrame | src/services/worker/session/SessionCompletionHandler.ts:44-105 | one message keeps the tables valid, changes only observations and the end of the sessions table, and either leaves the queue or marks exactly that message |
| Completion.DrainOneSkips | src/services/worker/session/SessionCompletionHandler.ts:45-56 | a summarize request is marked and stores nothing; any other non-tool message, a missing session row, or an output that throws leaves everything alone |
| Completion.DrainObservation | src/services/worker/session/SessionCompletionHandler.ts:45-97 | a tool observation is stored, exactly when `change` is admitted and the auto-create succeeds, as one `change` row titled after the tool with the 100-character subtitle, the whole output as narrative, empty lists and no tokens, under the session's Claude id and project, and its message marked; when the store throws, nothing is added and the message stays pending |
| Completion.DrainAllTables | src/services/worker/session/SessionCompletionHandler.ts:44-105 | the whole loop keeps the tables valid, does not touch the manager or the call log, and keeps summaries, prompts and existing session rows |
| Completion.DrainAllQueue | src/services/worker/session/SessionCompletionHandler.ts:44-105 | each queue row ends as it was or marked processed; a row no handled message names is as it was |
| Completion.DrainedOtherSessions | src/services/worker/session/SessionCompletionHandler.ts:31-37 | draining one session reads its queue once and leaves every other session's rows as they were |
| Completion.DrainOneRejects | src/services/worker/session/SessionCompletionHandler.ts:77-97 | when `change` is not admitted, no observation is added and a tool message is not marked |
| Completion.DrainRejectsChange | src/services/worker/session/SessionCompletionHandler.ts:66-83 | as written, with the kinds the type CHECK admits, no drained observation is stored and every tool message stays pending |
| Completion.DrainStoresChange | src/services/worker/session/SessionCompletionHandler.ts:66-85 | with `change` admitted, a tool observation of a session opened by `createSDKSession` is stored as `change` and its message marked |
| Completion.CompletedByDbIdEffect | src/services/worker/session/SessionCompletionHandler.ts:108-113 | `completeByDbId` drains, removes the session from the manager, marks it completed at `now` and broadcasts, in that order |
| Completion.CompletedByClaudeIdEffect | src/services/worker/session/SessionCompletionHandler.ts:115-138 | true exactly when the Claude id has an active row, which is then completed; otherwise only the matching row's queue is drained, nothing leaves the manager, and the row keeps its status |
| Completion.SessionOfClaudeById | src/services/worker/session/SessionCompletionHandler.ts:122-131 | the row found for a Claude session id is the row found by its own id |
| Completion.CompletionHandler.ProcessPendingMessages | src/services/worker/session/SessionCompletionHandler.ts:31-106 | the loop leaves the state `Drained` describes |
| Completion.CompletionHandler.HandleMessage | src/services/worker/session/SessionCompletionHandler.ts:45-104 | one loop pass leaves the state `DrainOne` describes |
| Completion.CompletionHandler.CompleteByDbId | src/services/worker/session/SessionCompletionHandler.ts:108-113 | the state `CompletedByDbId` describes |
| Completion.CompletionHandler.CompleteByClaudeId | src/services/worker/session/SessionCompletionHandler.ts:115-138 | the outcome and state `CompletedByClaudeId` describes |
| Enhancement.UpdateWhere | src/services/worker/EnhancementService.ts:312-316 | the rows with that id that meet the guard are rewritten; every other row stays |
| Enhancement.StartTask | src/services/worker/EnhancementService.ts:309-319 | only a pending task starts: the answer is whether one matched, and only that row becomes processing with its start time |
| Enhancement.CompleteTask | src/services/worker/EnhancementService.ts:321-331 | whatever its status, the task becomes completed with its output and end time; the answer is whether the id exists |
| Enhancement.FailTask | src/services/worker/EnhancementService.ts:333-343 | whatever its status, the task fails with its message, its retry count up by one and its end time set |
| Enhancement.RetryTask | src/services/worker/EnhancementService.ts:345-353 | exactly a failed task with retries left goes back to pending with start and end cleared |
| Enhancement.StartOnce | src/services/worker/EnhancementService.ts:309-319 | a started task cannot be started again |
| Enhancement.CompletedIsFinal | src/services/worker/EnhancementService.ts:309-353 | a completed task can be neither started nor retried |
| Enhancement.RetryAfterFail | src/services/worker/EnhancementService.ts:333-353 | after a failure the task can be retried exactly when it had more than one retry left |
| Enhancement.RetryBudget | src/services/worker/EnhancementService.ts:333-353 | a task survives n rounds of failing and retrying exactly when its retry count plus n stays below its maximum, and is then pending with n more retries counted |
| Enhancement.BumpUsage | src/services/worker/EnhancementService.ts:162-166 | the usage count of that tag goes up by one; every other tag is as it was |
| Enhancement.TagAllEffect | src/services/worker/EnhancementService.ts:213-241 | `tagConversation` counts exactly the inserts that succeed, adds one row per success for that item and tag, and raises each tag's usage once per successful insert of it |
| Enhancement.UpdateTags | src/services/worker/EnhancementService.ts:195 | the UPDATE writes the provided fields to the rows with that id and no other |
| Enhancement.ChangeTag | src/services/worker/EnhancementService.ts:168-197 | no field provided answers false and writes nothing; a name another tag has violates the unique constraint; otherwise the answer is whether the row exists and no other row changes |
| Enhancement.UpdateTagKeepsNamesUnique | src/services/worker/EnhancementService.ts:168-197 | an accepted `updateTag` keeps tag names unique |
| Enhancement.TagByName | src/services/worker/EnhancementService.ts:134-136 | the tag found has that name and is stored; none is found only when no tag has it |
| Enhancement.NamesAppend | src/services/worker/EnhancementService.ts:389-401 | the names of a concatenation are the concatenated names |
| Enhancement.FirstsAppend | src/services/worker/EnhancementService.ts:373-391 | the first components of concatenated pairs (table entry names, tally kinds) are the concatenated first components |
| Enhancement.AutoTagsAre | src/services/worker/EnhancementService.ts:362-402 | the auto-tags are, in table order, the stored tags of exactly those entries one of whose patterns occurs in the lower-cased content and whose name the item does not already carry |
| Enhancement.AutoTagsStored | src/services/worker/EnhancementService.ts:391-399 | every auto-tag is a stored tag the item does not already carry |
| Enhancement.Cut | src/services/worker/EnhancementService.ts:422-428 | each listed item is the first 200 characters of its entry's content |
| Enhancement.TallyEffect | src/services/worker/EnhancementService.ts:420 | a tally keeps the kinds, adding a new one at the end, and raises only that kind's count by one |
| Enhancement.CountsDistinct | src/services/worker/EnhancementService.ts:414-420 | the breakdown never lists a kind twice |
| Enhancement.CountsKinds | src/services/worker/EnhancementService.ts:414-420 | the breakdown lists exactly the kinds that occur |
| Enhancement.CountsAreCounts | src/services/worker/EnhancementService.ts:414-437 | the breakdown lists every kind that occurs, once each, with the number of entries of that kind, which is positive |
| Enhancement.CountAbsent | src/services/worker/EnhancementService.ts:420 | a kind that never occurs counts zero |
| Enhancement.Shown | src/services/worker/EnhancementService.ts:443 | at most three items are shown, the first ones |
| Enhancement.ReportFacts | src/services/worker/EnhancementService.ts:406-469 | a summary reports the number of entries, a non-empty breakdown, and per category the number of its entries; each item shown is at most 200 characters and starts the content of an entry of that category |
| Enhancement.CutFrom | src/services/worker/EnhancementService.ts:422-443 | every shown item starts the content of one of the entries and is at most 200 characters |
| Enhancement.CutAppend | src/services/worker/EnhancementService.ts:419-428 | cutting a concatenation is concatenating the cuts |
| Enhancement.CutStep | src/services/worker/EnhancementService.ts:419-428 | one category's list grows by the entry's cut content exactly when the entry belongs to it |
| Enhancement.SummaryStep | src/services/worker/EnhancementService.ts:419-428 | one loop pass tallies the entry's kind and adds its cut content to the one category it belongs to |
| Enhancement.EnhancementService.constructor | src/services/worker/EnhancementService.ts:17 | the service starts with the given tags and sessions, and no tasks or item tags |
| Enhancement.EnhancementService.Start | src/services/worker/EnhancementService.ts:309-319 | the answer and task table `StartTask` describes; tags untouched |
| Enhancement.EnhancementService.Complete | src/services/worker/EnhancementService.ts:321-331 | the answer and task table `CompleteTask` describes; tags untouched |
| Enhancement.EnhancementService.Fail | src/services/worker/EnhancementService.ts:333-343 | the answer and task table `FailTask` describes; tags untouched |
| Enhancement.EnhancementService.Retry | src/services/worker/EnhancementService.ts:345-353 | the answer and task table `RetryTask` describes; tags untouched |
| Enhancement.EnhancementService.TagConversation | src/services/worker/EnhancementService.ts:213-241 | the tag tables and count are those `Tagged` gives after every requested tag id, whose meaning `TagAllEffect` states; tasks untouched |
| Enhancement.TagLoop | src/services/worker/EnhancementService.ts:218-238 | after the loop over the requested tag ids the tag tables, last id and count are those `Tagged` gives for all of them |
| Enhancement.EnhancementService.UpdateTag | src/services/worker/EnhancementService.ts:168-197 | the answer and tag table `ChangeTag` describes; nothing else changes |
| Enhancement.EnhancementService.AutoTagContent | src/services/worker/EnhancementService.ts:362-402 | the loop returns the tags `AutoTags` describes over the whole keyword table |
| Enhancement.MatchTable | src/services/worker/EnhancementService.ts:391-399 | the collected tags are the `AutoTags` of the whole pattern table |
| Enhancement.AnyMatch | src/services/worker/EnhancementService.ts:392-393 | true exactly when some pattern occurs in the lower-cased content |
| Enhancement.EnhancementService.GenerateAutoSummary | src/services/worker/EnhancementService.ts:406-469 | the loop and the text building return `AutoSummary` |
| SummarySearch.LikePrefix | src/services/worker/EnhancementService.ts:73-77 | `q%` with no wildcard in `q` matches exactly the strings that start with `q`, ignoring ASCII case |
| SummarySearch.LikeInfix | src/services/worker/EnhancementService.ts:73-77 | `%q%` with no wildcard in `q` matches exactly the strings in which `q` occurs somewhere, ignoring ASCII case |
| SummarySearch.LikeContains | src/services/worker/EnhancementService.ts:73-77 | the query's `LIKE '%q%'` with a literal `q` is a case-insensitive `includes` |
| SummarySearch.UnderscoreMatchesAny | src/services/worker/EnhancementService.ts:73-77 | the query is not escaped: `a_c` matches `abc` and `axc`, neither of which contains `a_c` |
| SummarySearch.SearchSummariesSpec | src/services/worker/EnhancementService.ts:58-88 | every row returned is a table row passing every filter that was given (a missing or empty argument filters nothing, a NULL column never matches); rows come newest first; the page is exactly the matching rows sorted newest first (a stable sort: `Sorting.SortBySorted`, `Sorting.SortByStable`, and a permutation by `SortBy`'s contract) from the offset on (0 when negative), as many as `LIMIT` keeps (a negative limit keeps all); with no limit and no offset every matching row is returned |
| SummarySearch.QueryIsCaseInsensitiveIncludes | src/services/worker/EnhancementService.ts:73-77 | with a literal query, a row passes the text filter exactly when its content, keywords or key points contain the query, ignoring case, a NULL column never |
| Middleware.InWindow | src/services/worker/http/middleware.ts:47 | exactly the timestamps strictly after the window start are kept |
| Middleware.InWindowIdempotent | src/services/worker/http/middleware.ts:47 | filtering to the same window twice is filtering once |
| Middleware.Lookup | src/services/worker/http/middleware.ts:44 | an unknown IP has no timestamps |
| Middleware.Remaining | src/services/worker/http/middleware.ts:64-70 | the remaining quota is the maximum less the in-window count, never below 0; it is 0 exactly when the count reaches the maximum |
| Middleware.AdmitUsesQuota | src/services/worker/http/middleware.ts:39-59 | a request is refused exactly when no quota remains; an admitted one uses exactly one unit of it |
| Middleware.AdmitKeepsBound | src/services/worker/http/middleware.ts:39-59 | no stored list ever grows beyond the maximum |
| Middleware.Pruned | src/services/worker/http/middleware.ts:75-90 | cleanup keeps only IPs that have in-window timestamps, each with a non-empty list |
| Middleware.PrunedKeepsRemaining | src/services/worker/http/middleware.ts:75-90 | cleanup never changes any IP's remaining quota at the same instant |
| Middleware.RateLimiter.constructor | src/services/worker/http/middleware.ts:25-33 | the limiter starts with its window, its maximum and no requests |
| Middleware.RateLimiter.CheckLimit | src/services/worker/http/middleware.ts:39-59 | the answer and the map `Admit` describes |
| Middleware.RateLimiter.GetRemaining | src/services/worker/http/middleware.ts:64-70 | never more than the maximum |
| Middleware.RateLimiter.Cleanup | src/services/worker/http/middleware.ts:75-90 | the loop leaves the map `Pruned` describes |
| Middleware.PruneLoop | src/services/worker/http/middleware.ts:79-89 | the pass over the entries deletes the IPs with no request inside the window and prunes the rest, giving `Pruned` |
| Middleware.RateLimit | src/services/worker/http/middleware.ts:109-157 | localhost, `/health`, `/` and static assets go on and are not recorded; any other request is counted and answered 429 exactly when limited |
| Middleware.RequireLocalhost | src/services/worker/http/middleware.ts:235-257 | continue exactly for the four loopback spellings; otherwise 403 |
| Middleware.SummarizeRequestBody | src/services/worker/http/middleware.ts:263-285 | an empty body or an `/init` path gives ""; an observations request gives `tool=` and the formatted tool, `?` for a missing name; otherwise a summarize request gives "requesting summary"; only observations and summarize paths give text |
| ViewerData.TruncateArray | src/ui/viewer/utils/data.ts:22-25 | an array within the size is unchanged; a longer one is cut to its first `maxSize` items |
| ViewerData.DedupeFrom | src/ui/viewer/utils/data.ts:88-95 | the scan never adds items |
| ViewerData.DedupeDistinct | src/ui/viewer/utils/data.ts:88-95 | no kept id was seen before, and no two kept items share an id |
| ViewerData.DedupeIds | src/ui/viewer/utils/data.ts:88-95 | exactly the unseen ids of the input survive |
| ViewerData.DedupeOrigin | src/ui/viewer/utils/data.ts:88-95 | every kept item is the first occurrence of its id in the input |
| ViewerData.DedupeOrdered | src/ui/viewer/utils/data.ts:88-95 | kept items keep their input order |
| ViewerData.DeduplicateById | src/ui/viewer/utils/data.ts:88-95 | the filter with a `seen` set returns `Dedupe` of the input |
| ViewerData.MergeAsWrittenNeverReturns | src/ui/viewer/utils/data.ts:43-49 | as written, with 1000 or more items on either side the merge calls itself forever on 1000-item lists and never returns |
| ViewerData.MergeCounterexample | src/ui/viewer/utils/data.ts:43-49 | two 1000-item lists overflow the merge as written, while the corrected merge keeps every id |
| ViewerData.MergeSpecProperties | src/ui/viewer/utils/data.ts:38-64 | the intended merge returns distinct ids, exactly those of the truncated inputs, each the first of its id with live items first; within the limit it agrees with the code as written |
| ViewerData.MergeAndDeduplicateByProject | src/ui/viewer/utils/data.ts:38-64 | the corrected merge returns `MergeSpec`, with distinct ids |
| ViewerData.MergeMultipleAsWrittenThrows | src/ui/viewer/utils/data.ts:100-102 | as written, `mergeMultiple` passes no paginated list and always throws |
| ViewerData.MergeMultiple | src/ui/viewer/utils/data.ts:100-102 | the intended `mergeMultiple` merges the flattened lists, with distinct ids |
| ViewerData.ProcessInBatches | src/ui/viewer/utils/data.ts:70-83 | given a positive `batchSize`, the loop concatenates the processor's outputs on consecutive slices of `batchSize` items |
| ViewerData.BatchSizeZeroNeverEnds | src/ui/viewer/utils/data.ts:77 | with `batchSize` 0 or below and a non-empty array, the loop as written is still running after any number of iterations |
| ViewerData.BatchLoopAgrees | src/ui/viewer/utils/data.ts:76-82 | with a positive `batchSize` the loop as written ends within the expected number of iterations and returns what `Batched` describes |
| ViewerData.MapAppend | src/ui/viewer/utils/data.ts:79 | mapping a concatenation is concatenating the maps |
| ViewerData.BatchedElementwise | src/ui/viewer/utils/data.ts:70-83 | batching makes no difference to an element-wise processor: the result is the plain `map` |
| Cleanup.MinOf | src/bin/cleanup-duplicates.ts:39 | `Math.min` of the ids is one of them and no larger than any |
| Cleanup.KeepMin | src/bin/cleanup-duplicates.ts:4-5 | the intended end state holds exactly the rows that have the smallest id among the rows with their key |
| Cleanup.KeepMinUnique | src/bin/cleanup-duplicates.ts:4-5 | after a complete run no two rows share a grouping key, and every key present before is still present |
| Cleanup.DeleteIds | src/bin/cleanup-duplicates.ts:40 | the ids deleted are exactly the group's ids other than its minimum |
| Cleanup.FilterDropsOne | src/bin/cleanup-duplicates.ts:40 | without repeats, dropping the kept id shortens the list by exactly one |
| Cleanup.DeleteIdsCount | src/bin/cleanup-duplicates.ts:40-43 | a group deletes all of its ids but one |
| Cleanup.RemovedIff | src/bin/cleanup-duplicates.ts:37-52 | after i passes, exactly the non-minimal ids of the first i groups are gone |
| Cleanup.RemovedInTable | src/bin/cleanup-duplicates.ts:46-49 | only rows of the table are deleted |
| Cleanup.RemovedNotMin | src/bin/cleanup-duplicates.ts:37-52 | only rows of duplicated keys are deleted, never the minimum of a key |
| Cleanup.RemovedStep | src/bin/cleanup-duplicates.ts:46-50 | each pass deletes the group's size less one rows, none deleted before |
| Cleanup.RemovedAll | src/bin/cleanup-duplicates.ts:18-52 | after every pass, what is left is the minimum-id row of every key |
| Cleanup.Reached | src/bin/cleanup-duplicates.ts:42 | the loop gets through the groups up to the first whose title is null |
| Cleanup.TallyRemoved | src/bin/cleanup-duplicates.ts:36-52 | the count reported is the number of rows actually deleted |
| Cleanup.DeleteGroup | src/bin/cleanup-duplicates.ts:38-51 | one pass over a titled group deletes exactly its non-minimal ids and adds their number to the count |
| Cleanup.DeleteDuplicates | src/bin/cleanup-duplicates.ts:36-52 | the loop deletes the groups' non-minimal ids up to the first null title, where it aborts, and counts them |
| Cleanup.DeletedCount | src/bin/cleanup-duplicates.ts:36-52 | the count reported plus the rows left is the rows there were |
| Cleanup.DeleteDuplicatesSpec | src/bin/cleanup-duplicates.ts:18-52 | complete or not, rows are only deleted, the count is the number deleted, a unique or minimum row survives, and a complete run leaves exactly the minimum of every key |
| Cleanup.RunCleanup | src/bin/cleanup-duplicates.ts:10-102 | observations first, then summaries; without an abort each table keeps exactly the minimum row of every key and the total is the rows deleted from both; an abort in the observation pass leaves the summaries alone |
| Cards.FirstMarker | src/ui/viewer/components/ToolExecutionCard.tsx:12-20 | the first marker in list order that occurs in the path, or none |
| Cards.StripProjectRootSuffix | src/ui/viewer/components/ToolExecutionCard.tsx:10-31 | every branch returns a suffix of the path |
| Cards.StripProjectRootMarker | src/ui/viewer/components/ToolExecutionCard.tsx:14-20 | with a marker present, the result starts just after the leading slash of the first occurrence of the first marker in list order |
| Cards.StripProjectRootListOrder | src/ui/viewer/components/ToolExecutionCard.tsx:12-18 | list order decides, not position: `/src/` wins over an earlier `/docs/` |
| Cards.StripProjectRootProjectDir | src/ui/viewer/components/ToolExecutionCard.tsx:23-26 | with no marker but `claude-mem/`, the result is what follows its first occurrence |
| Cards.StripProjectRootSegments | src/ui/viewer/components/ToolExecutionCard.tsx:29-30 | with neither, a path of more than three segments gives exactly its last three, a shorter one comes back unchanged |
| Cards.ParseJsonSafely | src/ui/viewer/components/ToolExecutionCard.tsx:34-41 | an empty or null string, or text the parser rejects, gives `[]`; otherwise the parsed value |
| Cards.ToolField | src/ui/viewer/components/ToolExecutionCard.tsx:72-73 | a tool field is parsed only when present and non-empty; otherwise null |
| Cards.OperationOf | src/ui/viewer/components/ToolExecutionCard.tsx:45-53 | each of the four operation names, and only it, names its operation |
| Cards.FileOperationIcon | src/ui/viewer/components/ToolExecutionCard.tsx:44-57 | the page icon is given exactly for a string that names none of the four operations |
| Cards.FileOperationIconDistinct | src/ui/viewer/components/ToolExecutionCard.tsx:44-57 | each operation has an icon of its own; every other string gets the same page icon |
| Cards.ExecutionStatusStyle | src/ui/viewer/components/ToolExecutionCard.tsx:60-64 | green exactly on success, red exactly on failure |
| Cards.ResponseTypeStyle | src/ui/viewer/components/AiResponseCard.tsx:52-63 | blue exactly for `assistant`, green for `tool_result`, red for `error`, grey for anything else |
| Cards.StylesAgree | src/ui/viewer/components/AiResponseCard.tsx:52-63 | a tool result and a success are drawn alike, and an error and a failure alike, and nothing else matches |
| Demo.Upper | claude_mem_demo.py:212 | `upper` keeps the length |
| Demo.PySlice | claude_mem_demo.py:276 | a Python slice is no longer than the list and holds only its items |
| Demo.PySliceNatural | claude_mem_demo.py:276 | for non-negative bounds a Python slice is the clamped slice |
| Demo.SearchAiResponsesSpec | claude_mem_demo.py:250-276 | the demo search is one order-preserving filter by project, response type and keywords at once, then the page `[offset:offset + limit]` |
| Demo.NoKeywordsNoTextFilter | claude_mem_demo.py:261-273 | with no keywords the logic makes no difference |
| Demo.OneKeywordLogicsAgree | claude_mem_demo.py:262-273 | with one keyword AND and OR select the same responses |
| Demo.LexLeTotal | claude_mem_demo.py:176-177 | Python's string order is total |
| Demo.LexLeTrans | claude_mem_demo.py:176-177 | Python's string order is transitive |
| Demo.MinStr | claude_mem_demo.py:176 | `min` is one of the strings and no greater than any |
| Demo.MaxStr | claude_mem_demo.py:177 | `max` is one of the strings and no less than any |
| Demo.LexLeReflexive | claude_mem_demo.py:176-177 | Python's string order is reflexive |
| Demo.SessionIdsBound | claude_mem_demo.py:171-174 | there are never more distinct sessions than responses |
| Demo.ProjectStatsSpec | claude_mem_demo.py:169-178 | the statistics count exactly the matching responses, at least one and at most as many sessions, and bounds that are attained and enclose every matching timestamp, absent exactly when nothing matches |
| Demo.ToolExecutionsSound | claude_mem_demo.py:326-346 | every execution listed is a record meeting every given criterion, and no more than `limit` are listed |
| Demo.ToolExecutionsStaged | claude_mem_demo.py:326-346 | the four filters run in turn (project, tool name, success, any keyword in input, output or error) are one filter by their conjunction, then `[:limit]` |
| Demo.ToolExecutionsSpec | claude_mem_demo.py:326-346 | the listing is exactly the data's executions meeting every given criterion, in data order, then Python's `[:limit]` (negative limits count from the end) |
| Suggestions.Find | src/ui/viewer/hooks/useSearchSuggestions.ts:132 | the entry found is the first one equal to the query ignoring case; none is found only when no entry matches |
| Suggestions.AddedToHistory | src/ui/viewer/hooks/useSearchSuggestions.ts:128-137 | a blank query changes nothing; otherwise the history grows by at most one |
| Suggestions.AddedToHistorySpec | src/ui/viewer/hooks/useSearchSuggestions.ts:131-137 | after a non-blank query the front entry is the query up to case and the only such entry; the rest is the old history without its matches, in order |
| Suggestions.AddedToHistoryIdempotent | src/ui/viewer/hooks/useSearchSuggestions.ts:128-137 | adding the same query twice in a row is adding it once |
| Suggestions.AddedToHistoryKeeps | src/ui/viewer/hooks/useSearchSuggestions.ts:134-136 | every other entry is kept |
| Suggestions.HistoryPart | src/ui/viewer/hooks/useSearchSuggestions.ts:110-112 | at most three history entries, each containing the input ignoring case; exactly the first `min(3, matches)` matching entries, in history order |
| Suggestions.TypePart | src/ui/viewer/hooks/useSearchSuggestions.ts:102-107 | each `type:` shortcut names a popular type containing the lower-cased input |
| Suggestions.ResultsPart | src/ui/viewer/hooks/useSearchSuggestions.ts:94-108 | inputs under two characters get no tags or shortcuts; this part holds no history; it starts with the first `min(3, tags)` tags in the endpoint's order, and no other entry is a tag |
| Suggestions.Assemble | src/ui/viewer/hooks/useSearchSuggestions.ts:114 | at most eight suggestions |
| Suggestions.Recent | src/ui/viewer/hooks/useSearchSuggestions.ts:84 | a blank input shows the five most recent history entries |
| Suggestions.AssembleSpec | src/ui/viewer/hooks/useSearchSuggestions.ts:94-114 | history matches come first, at most three, each containing the input; a one-character input gets history only; each `type:` suggestion names a popular type containing the input |
| Suggestions.AssembleLength | src/ui/viewer/hooks/useSearchSuggestions.ts:110-114 | the list is the history matches (at most three) plus the results part, cut to eight |
| Suggestions.AssembleHistoryShown | src/ui/viewer/hooks/useSearchSuggestions.ts:110-114 | the history entries shown are the first three that contain the input, in history order |
| Suggestions.AssembleTagPositions | src/ui/viewer/hooks/useSearchSuggestions.ts:98-114 | tag suggestions take exactly the `min(3, tags)` positions right after the history matches, so there are at most three |
| Suggestions.AssembleTagsShown | src/ui/viewer/hooks/useSearchSuggestions.ts:98-114 | the tags shown are the first three the endpoint returned, in its order |
| Suggestions.AssembleAt | src/ui/viewer/hooks/useSearchSuggestions.ts:114 | each position comes from the history part exactly when it lies within it |
| Suggestions.SearchSuggestions.constructor | src/ui/viewer/hooks/useSearchSuggestions.ts:52-64 | on mount the history is the saved value parsed, or empty when it does not parse or nothing is saved |
| Suggestions.SearchSuggestions.SaveHistory | src/ui/viewer/hooks/useSearchSuggestions.ts:66-74 | with storage, the first ten entries are saved; nothing else changes |
| Suggestions.SearchSuggestions.AddToHistory | src/ui/viewer/hooks/useSearchSuggestions.ts:128-140 | the history `AddedToHistory` describes, saved when the query is not blank |
| Suggestions.SearchSuggestions.GetSuggestions | src/ui/viewer/hooks/useSearchSuggestions.ts:76-121 | a blank input shows `Recent`; otherwise the list `Assemble` describes, or the old list when the tag request fails |
| Suggestions.SearchSuggestions.ClearSuggestions | src/ui/viewer/hooks/useSearchSuggestions.ts:123-126 | nothing is shown and the query is emptied; the history stays |
| Pagination.RequestFor | src/ui/viewer/hooks/usePagination.ts:65-79 | offset and page size always; `project` exactly for a non-empty filter; `keywords` and `logic` (default AND) exactly for a non-empty keyword list |
| Pagination.Pager.constructor | src/ui/viewer/hooks/usePagination.ts:24-33 | offset 0, the current filter and keywords remembered, not loading, more pages assumed, the ref copy equal to the state |
| Pagination.Pager.LoadMore | src/ui/viewer/hooks/usePagination.ts:39-104 | as written: a changed filter or keyword list resets offset and both state copies and always loads; otherwise the load is skipped when the ref copy says loading or no more; a page advances the offset by the page size and records `hasMore`; a failure keeps the offset |
| Pagination.Pager.LoadMoreSynced | src/ui/viewer/hooks/usePagination.ts:52-57 | with the ref copy kept equal to the state, the skip test sees the last page's `hasMore`, and otherwise the load behaves as written |
| Pagination.LastPageStillRequested | src/ui/viewer/hooks/usePagination.ts:57 | as written, after the server reports no more pages the next load with the same filter still sends a request, for offset 20 |
| Pagination.LastPageSkipped | src/ui/viewer/hooks/usePagination.ts:52-57 | with the ref kept in step, the same sequence skips the second load |
| Pagination.LogicChangeKeepsOffset | src/ui/viewer/hooks/usePagination.ts:41-44 | a change of logic alone does not reset the offset |
| SearchTypes.ValidateQuery | src/ui/viewer/hooks/useSearchTypes.ts:51-81 | blank is valid; a query over 500 characters is too long; an operator (whole-word or/not, `NEAR(`, `*`) is rejected next, then characters outside the allowed class; valid exactly when none applies |
| SearchTypes.ValidQueryIsKeptKeyword | src/ui/viewer/hooks/useSearchTypes.ts:51-81 | a non-blank query of keyword length passes exactly when the store's keyword validator keeps it |
| SearchTypes.QueryValidWhen | src/ui/viewer/hooks/useSearchTypes.ts:51-81 | a query with allowed characters, no outer blanks and letters that cannot spell or/not is valid |
| SearchTypes.InvalidQueryNotBlank | src/ui/viewer/hooks/useSearchTypes.ts:150-155 | a rejected query is never blank, so an `INVALID_QUERY` error never says empty |
| SearchTypes.LookupSpec | src/ui/viewer/hooks/useSearchTypes.ts:91-99 | a parameter is found exactly when one has that name, and the first one |
| SearchTypes.EffectiveLimit | src/ui/viewer/hooks/useSearchTypes.ts:113 | an absent or zero limit falls back to 20 |
| SearchTypes.BaseParamsParts | src/ui/viewer/hooks/useSearchTypes.ts:94-99 | six optional parameters, in the order they are set |
| SearchTypes.LookupAppend | src/ui/viewer/hooks/useSearchTypes.ts:91-99 | a lookup over two parameter lists finds the first list's parameter first |
| SearchTypes.LookupWhen | src/ui/viewer/hooks/useSearchTypes.ts:94-99 | an optional parameter is found exactly when set and asked for by name |
| SearchTypes.BaseParamsLookup | src/ui/viewer/hooks/useSearchTypes.ts:94-99 | a lookup in the shared query string finds the first set parameter of that name |
| SearchTypes.BaseParamsScalars | src/ui/viewer/hooks/useSearchTypes.ts:94-96 | the query, project and limit are sent exactly when set |
| SearchTypes.BaseParamsLists | src/ui/viewer/hooks/useSearchTypes.ts:97-99 | concepts and files are sent comma-joined exactly when non-empty; the type exactly when non-empty |
| SearchTypes.RoutesGeneral | src/ui/viewer/hooks/useSearchTypes.ts:102-110 | the four listing types keep the shared query string on their own paths; standard and unknown types go to `/api/search` |
| SearchTypes.RoutesBy | src/ui/viewer/hooks/useSearchTypes.ts:111-128 | the by-types send only the query, under their own key and only when non-empty, and a limit that is always present |
| SearchTypes.ResultOf | src/ui/viewer/hooks/useSearchTypes.ts:197-202 | each missing list reads as empty and a missing total as 0 |
| SearchTypes.Searcher.constructor | src/ui/viewer/hooks/useSearchTypes.ts:33-37 | no search yet: sequence 0, no controllers, not loading, no error |
| SearchTypes.Searcher.Begin | src/ui/viewer/hooks/useSearchTypes.ts:138-170 | takes the next sequence number; an invalid query ends with an `INVALID_QUERY` error and no request; otherwise the type's previous controller is aborted and this one registered, loading, no error |
| SearchTypes.Searcher.Finish | src/ui/viewer/hooks/useSearchTypes.ts:171-236 | a result exactly for a body answering the latest search; an overtaken search changes nothing; the latest one reports its failure as `SEARCH_ERROR` (not an abort), stops loading and unregisters its controller |
| SearchTypes.OvertakenSearchDiscarded | src/ui/viewer/hooks/useSearchTypes.ts:184-188 | the first of two searches in flight, answered last, is dropped and the second's answer kept |
| SearchTypes.SameTypeAborts | src/ui/viewer/hooks/useSearchTypes.ts:161-169 | a new search of the same type aborts the previous one's controller |
| Keywords.ValidateKeywords | plugin/scripts/context-generator.cjs:288 | validation never adds keywords |
| Keywords.ReadJoinedPhrases | plugin/scripts/context-generator.cjs:288 | quote-free keywords joined as phrases read back as exactly those keywords, in order |
| Keywords.KeptUnchanged | plugin/scripts/context-generator.cjs:288 | an admissible keyword without outer blanks survives unchanged |
| Json.DigitsRoundTrip | plugin/scripts/context-generator.cjs:634 | the decimal digits of a number read back as that number |
| Json.ParseIntOfString | plugin/scripts/context-generator.cjs:634 | `parseInt(String(n), 10)` is `n` for every integer |
| Json.Get | plugin/scripts/context-generator.cjs:634 | a field is read exactly from an object that has it |
| Middleware.Admit | src/services/worker/http/middleware.ts:39-59 | a refused request stores nothing; an admitted one stores a list for its IP; no other IP's list changes |
| Store.UpsertExisting | plugin/scripts/context-generator.cjs:448 | updating the found row's project and prompt keeps the tables valid and the row found |
| Store.UpsertNew | plugin/scripts/context-generator.cjs:448 | appending a new row for an unknown Claude session id keeps the tables valid, and the new row is the one found |
| Timeline.MaterializeFresh | plugin/scripts/context-generator.cjs:662 | a day seen for the first time opens a new bucket at the end, as `AddTo` does |
| Timeline.MaterializeExisting | plugin/scripts/context-generator.cjs:662 | an entry of a day already seen is appended to that day's bucket, as `AddTo` does |

## Left out

- SQL execution itself is not modelled: FTS5 tokenisation and matching, bm25 ranking, trigger internals, column types and projections.
  - Row ids are modelled as the largest id plus one.
  - The order of rows that tie under `ORDER BY` follows table order.
  - The schema is modelled only at the level the migration guards inspect: table, column and index names, indexed columns, uniqueness, NOT NULL, column defaults and the observation type check.
  - Schema.CreateIndex: an index records its table and whether it is UNIQUE. The sort direction (`DESC`) is not modelled.
  - Schema.InsertRow: UNIQUE columns are enforced on insert, UNIQUE indexes are not. The only UNIQUE index, `idx_overviews_project_latest`, is on `overviews`, which no modelled operation inserts into.
  - MigrationRunner.DefaultTagRows: the id that `AUTOINCREMENT` assigns is written into each row. In the fresh `content_tags` table it is 1 to 13, in list order.
  - Store.Prompt: prompt rows have the columns that the store's queries and inserts name: `claude_session_id`, `created_at` and `created_at_epoch`. The `user_prompts` table that migration 10 creates (MigrationRunner.ts:253-261, context-generator.cjs:66-74) has `sdk_session_id`, `timestamp` and `timestamp_epoch` instead. The model assumes the queries' columns and does not capture the mismatch.
- `JSON.parse` and `JSON.stringify` are abstract functions. Parsed payloads are datatypes. The key order of JavaScript objects is not modelled.
- Clocks and timers are parameters: `Date.now` becomes `now`. The limiter's `setInterval` cleanup and the 200 ms suggestion debounce are left out.
- Day bucketing uses UTC days (`DayOf` is the epoch in milliseconds divided by 86 400 000). Time zones, `toLocaleString` dates and numbers, ANSI colours and Markdown layout are left out.
- Context.Percent: `Math.round(savings / work * 100)` is modelled as exact rounding half up, floor((200·savings + work) / (2·work)). A binary float can round differently near .5.
- Text handling is ASCII only. `toLowerCase`, the regex `/i` flag and Python's `lower`/`upper` fold ASCII letters only. No Unicode case folding or normalisation is modelled.
- Async and concurrency: `async`/`await` in the completion handler and the search hooks run sequentially. AbortController and SSE reconnection are left out; aborting is recorded as state.
- Completion: `SessionManager`, `DatabaseManager`, `PendingMessageStore` and `SessionEventBroadcaster` are not part of this model. They are modelled as a session map, a pending queue with statuses and an event log.
  - Completion.CompletionHandler.CompleteByDbId: `DatabaseManager.markSessionComplete` is assumed to mark the session completed, like `markSessionCompleted`.
  - Completion.CompletionHandler.ProcessPendingMessages: the pending queue is visited in stored order, and one `now` serves the whole drain.
- EnhancementService: these operations are plain CRUD with no logic beyond one statement, and are not modelled: `createSummary`, the `getSummary*` readers, `updateSummary`, `deleteSummary`, `createTag`, `getTagById`, `getAllTags`, `searchTags`, `deleteTag`, `getTagCategories`, `getTagsForItem`, `removeTag`, `removeAllTagsForItem`, `createAnalysisTask`, `getAnalysisTaskById`, `getPendingTasks`, `getTasksBySession` and `deleteTask`.
  - Enhancement.EnhancementService.TagConversation: an insert fails when the item type is not one the `item_type` CHECK admits, when the SDK session does not exist, or when the tag does not exist. Both foreign keys are assumed enforced. `conversation_tags` has no unique constraint, so a repeated tag is inserted again.
  - Enhancement.EnhancementService.AutoTagContent: the words, bigrams and keyword lists the source computes but never uses are left out.
- Completion.ToolOutput: the re-serialisation of a response without stdout or stderr is an abstract `stringify`.
- Errors.Wrap: `wrapSync` and `wrapAsync` are one function over an operation outcome. A thrown value is either an error object with a string message and name, or a primitive, shown by its text. An object without `message` or `name` is not modelled. Logging (`logError`, `executeRecovery`, the logger classes) is left out.
- SummarySearch.SearchSummaries: `limit` and `offset` are integers. A fractional number bound as text is not modelled. The `LIKE` pattern has no ESCAPE clause, so `%` and `_` in the query act as wildcards, as in the source.
- ViewerData.MergeAsWrittenNeverReturns: the non-terminating recursion is modelled with a fuel bound. Running out of fuel stands for the stack overflow.
- SearchTypes.BuildEndpoint: query-string percent-encoding (`URLSearchParams`) is left out. Parameters are kept as decoded name/value pairs, so the model does not show how reserved characters in a query are escaped.
- Middleware.RateLimiter.CheckLimit: response headers and the 429 body are left out. Only the decision and the stored timestamps are modelled.
- Hook processes, Express plumbing (helmet, cors, JSON and static serving), the enhancement HTTP routes, React rendering and UI-only components are left out.
- The Python database and HTTP clients, and the real-database branches of `claude_mem_demo.py`, are SQL-string wrappers and are left out. Only the demo-data branches are modelled.
- Filesystem access is left out: the settings file read and write, and transcript reading. The settings file's contents are an input.

## Findings

| source | as written | input that shows it | evidently intended | confidence | as-written member | corrected member |
|---|---|---|---|---|---|---|
| src/services/sqlite/MigrationRunner.ts:196-244 | the text-nullable rewrite of `observations` drops the old table and recreates no index on the new one | a database with the observation indexes and a NOT NULL `text` column | the rewritten table keeps its indexes, as the unique-constraint rewrite recreates its own | not executed | MigrationProps.TextNullableAsWrittenDropsIndexes | MigrationProps.TextNullableFixedEffect |
| src/services/sqlite/MigrationRunner.ts:163-167 | the unique-constraint removal recreates three indexes, but not `idx_session_summaries_project_created` | a `session_summaries` table with a unique index and that index | every index of the old table is there after the swap | not executed | MigrationProps.RemoveUniqueAsWrittenLosesIndex | MigrationProps.RemoveUniqueFixedEffect |
| plugin/scripts/context-generator.cjs:617-626 | `importObservation` looks for an existing row with `title = ?`, which never matches a NULL title | importing the same observation with a null title twice | a second import is a no-op whatever the title | not executed | StoreImports.ImportObservationNullTitleDuplicates | StoreImports.ImportObservationNullSafeTwice |
| src/services/worker/session/SessionCompletionHandler.ts:66-75 | drained messages are stored with type `'change'`, which the `observations` type check (MigrationRunner.ts:212) rejects | one pending observation message with `tool_name` and `tool_response` | the drained observation is stored and the message processed | not executed | Completion.DrainRejectsChange | Completion.DrainStoresChange |
| plugin/scripts/context-generator.cjs:288 | with no keywords and a project, the AI-response page applies `LIMIT`/`OFFSET` before filtering by project | a page whose first `limit` rows belong to another project | the page holds `limit` rows of the requested project | not executed | Keywords.RecentPageAsWrittenLosesRows | Keywords.RecentPage |
| src/ui/viewer/utils/data.ts:43-49 | an input of 1000 or more items is truncated to 1000, which fails `isSafeArraySize` again, so the recursion never ends | two lists of 1000 items each | truncate to a safe size and merge once | not executed | ViewerData.MergeAsWrittenNeverReturns | ViewerData.MergeAndDeduplicateByProject |
| src/ui/viewer/utils/data.ts:100-102 | `mergeMultiple` passes one argument, so `paginatedItems` is undefined and the merge throws | any list of arrays | merge all the lists into one deduplicated list | not executed | ViewerData.MergeMultipleAsWrittenThrows | ViewerData.MergeMultiple |
| src/ui/viewer/hooks/usePagination.ts:52-57 | the guard reads `stateRef`, which is assigned only on reset, so `hasMore = false` never reaches it | a load that answers `hasMore = false`, then another load with the same filter | no request once the last page was reached | not executed | Pagination.LastPageStillRequested | Pagination.Pager.LoadMoreSynced |
| src/services/sqlite/migrations.ts:638-647 | the sync check compares `COUNT(*)` of an FTS table with `COUNT(*)` of its source, but an external-content FTS5 table counts its content table, so the two always agree | `observations_fts` missing the index entry of one observation | compare the index's own entries with the source's rows, so a lost entry is reported | not executed | LegacyProps.SyncWarningUnreachable | LegacyProps.LostEntryCaught |
| src/ui/viewer/utils/data.ts:77 | `i += batchSize` with a `batchSize` of 0 never advances, so the loop never ends | a non-empty array with `batchSize` 0 | a positive `batchSize`, or a guard that rejects 0 | not executed | ViewerData.BatchSizeZeroNeverEnds | ViewerData.ProcessInBatches |
