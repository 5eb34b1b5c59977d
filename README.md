# SASPData in Dafny

A model of the deterministic core of SASPData, a set of Python scripts that
archive results of the SASP shooting-sports API in PostgreSQL and turn them
into a small warehouse.

*Bronze* scripts fetch scoreboards, schedules, competitions and teams over HTTP
and store each payload verbatim in a `raw_*` table. Most tables are content
addressed: the payload is serialised canonically (sorted keys, fixed
separators), the text is hashed, and the row is inserted with
`ON CONFLICT (source_hash) DO NOTHING`, so a repeat fetch is a no-op. The
team scripts upsert on the team id instead. Around the store sit:

- the fetch loops with their retry and backoff rules;
- the rate limiters of the two threaded team ingesters;
- work discovery: id ranges, ids found in listing payloads, URL templates
  built from an example URL, and the paged listing with its early stop;
- the counters each loop keeps.

*Silver* scripts read the raw payloads and fill dimension and fact tables:

- date and time keys, safe casts and the dimension upsert;
- the scoreboard, competition, team and schedule transforms;
- per-stage performance: drop the slowest of five strings, keep four, total
  and pad;
- the individual and squad rankings with their award ladders.

Every `.dfy` file is one module. A module models one source file, or the
logic several files share:

- `Json`, `Canonical`, `PyText`, `PyRegex` and `StableSort` model Python
  values, `json.dumps`, the string helpers, the regular-expression pieces and
  `sorted`;
- `RawStore` and `Tables` model PostgreSQL tables as values;
- `Http`, `FixedRetry`, `Partition` and `TeamFetch` hold the fetch outcomes,
  the retry loop and the chunking shared by several bronze scripts;
- `SqlSplit` is the SQL splitter that `src/silver.py` and both
  `apply_sql_file.py` copies share.

The network, the database's own verdicts (a refused statement, a cast that
raises), hashing, `float()` and `json.loads` are parameters: functions the
model receives, one value per call the script would make. Sleeps are the
lists of waits a loop asks for.

Objects whose fields the source updates in place are classes:
`ThreadedTeamIngester`, `ConcurrentTeamIngester` and `RankingsEtl`. Loops
are methods with invariants, each proved equal to a reference function.
The lemmas state what the source promises about those functions:

- idempotent inserts and upserts;
- counters that add up;
- slices that cover a range exactly;
- window bounds of the rate limiters;
- termination of the paged listing;
- key codecs that round-trip;
- dense ranks, awards and top-four squads.

Two behaviours of the code that are easy to misread:

- `match_number` in `src/ingest.py:64-66` is the `or` chain of three
  `.get` calls. When none is truthy it is the last looked-up value (for
  example `""` or `0`), not None. `Json.OrChainIsFirstTruthy` states this.
- The permanence rule of the URL health tracker is not in the code shown.
  `ingest.is_permanent_404` is an oracle with three outcomes: permanent,
  not permanent, and check failed.

One more remark, not a finding: the squad rankings of
`scripts/silver/etl_rankings.py` partition by
`dc.classification_name` (lines 218-225) but label each row with
`COALESCE(dc.division_name, 'Open')` (line 216). `Rankings.SquadPeers`
follows the partition as written.

## Model

| member | source | states |
|---|---|---|
| Json.Lookup | scripts/silver/transform_dimensions.py:30 | a dict lookup finds a value exactly when some item has the key, and the value found is that item's |
| Json.GetOr | scripts/silver/transform_dimensions.py:202 | `d.get(k, default)` is the default for an absent key and the stored value otherwise |
| Json.OrChainIsFirstTruthy | src/ingest.py:66 | Python's `a or b or c` is the first truthy operand; when none is truthy it is the last operand, not None |
| Json.GetFirstIsOrChain | src/ingest.py:66 | a chain of `d.get(k)` joined by `or` is the `or` of the looked-up values in order |
| Canonical.SortByKeyFacts | src/ingest.py:28 | `sort_keys=True` orders a dict's items ascending by key and keeps exactly the same items |
| Canonical.KeyOrderInvariant | src/ingest.py:27-28 | two dicts with the same items in any order normalise to the same value (the top-level step of NormalizeKeyOrder) |
| Canonical.NormalizeKeyOrder | src/ingest.py:27-28 | two payloads that differ only in the order of their dicts' items, at any depth, normalise to the same value |
| Canonical.SameUpToKeyOrderReflexive | src/ingest.py:27-28 | every well-formed payload (distinct keys in every dict) is related to itself, so the relation is not empty |
| Canonical.ReorderedIsSame | src/ingest.py:27-28 | a well-formed dict and any reordering of its items are related |
| Canonical.NormalizeIdempotent | src/ingest.py:27-28 | sorting the keys of an already sorted value changes nothing |
| Canonical.NormalizeSortsObject | src/ingest.py:28 | a normalised dict lists the same keys, each once, in strictly ascending code-point order |
| Canonical.CanonicalKeyOrderInvariant | src/ingest.py:27-28 | payloads that differ only in the order of their dicts' items, at any depth, print the same canonical text |
| Canonical.DumpsOfNormalized | src/ingest.py:27-28 | canonicalising a payload that was already canonicalised prints the same text |
| PyText.LStrip | src/silver.py:25 | the leading part removed by `strip` is all whitespace and what is left does not start with whitespace |
| PyText.RStrip | src/silver.py:29 | the trailing part removed by `strip` is all whitespace and what is left does not end with whitespace |
| PyText.NatToStringValue | src/SilverScoreboardTransform.py:108-109 | the decimal digits `str(n)` writes read back as `n` |
| PyText.ParseIntToString | src/SilverScoreboardTransform.py:108-109 | `int(str(n)) == n` for every integer, negative ones included |
| PyText.ParseIntOfDigits | src/SilverScoreboardTransform.py:108-109 | `int` of a string of decimal digits is the value those digits denote |
| PyText.Upper | scripts/silver/transform_utils.py:61 | `upper()` keeps the length and maps every character through the ASCII upper-case map |
| PyText.Lower | scripts/silver/transform_utils.py:111 | `lower()` keeps the length and maps every character through the ASCII lower-case map |
| PyText.FormatPlain | scripts/ingest_competitions.py:69 | a template without braces formats to itself |
| PyText.FormatPrefixField | scripts/ingest_competitions.py:69 | a brace-free prefix followed by `{}` or `{0}` formats to the prefix followed by `str(n)` |
| PyText.FormatField | scripts/ingest_competitions.py:69 | a lone `{}` or `{0}` field formats to `str(n)` |
| PyText.FormatMixedRaises | scripts/ingest_competitions.py:69 | automatic and manual field numbering cannot be mixed: `'{}{0}'.format(a, b)` raises |
| PyText.SplitLines | src/silver.py:24 | `splitlines()` yields lines that contain no line break |
| PyText.FirstLine | src/silver.py:45 | `s.split('\n', 1)[0]` is a prefix of `s` without a newline, and is either all of `s` or stops at its first newline |
| PyRegex.TrailingDigits | scripts/backfill_match_number.py:15 | the greedy `\d+` before `$` takes the longest run of digits that ends the text |
| PyRegex.BeforeEnd | scripts/backfill_match_number.py:15 | `$` matches at the end of the text or just before a final newline |
| PyRegex.DigitRunAfter | scripts/backfill_match_number.py:15 | after a prefix that does not end in a digit, a digit string with an optional `/` is exactly the run the pattern captures |
| StableSort.SortByPermutes | scripts/silver/etl_stage_performance.py:94 | `sorted(xs, key=…)` is a permutation of `xs` in ascending key order |
| StableSort.SortByStable | scripts/silver/etl_stage_performance.py:94 | the sort is stable: elements sharing a key keep their input order |
| StableSort.SortByLast | scripts/silver/etl_performance_aggregation.py:41-44 | the last sorted element is the last of the inputs with the largest key |
| StableSort.SortedCut | scripts/silver/etl_performance_aggregation.py:41-45 | cutting a sorted list splits its elements and leaves nothing after the cut with a smaller key than anything before it |
| StableSort.SortBySorted | scripts/silver/etl_performance_aggregation.py:41 | `sorted` leaves a list that is already in key order unchanged |
| Partition.ChunksCover | scripts/bronze/concurrent_scoreboard_ingest.py:283-284 | `[s[i:i + n] for i in range(0, len(s), n)]` put back together is `s`, in order |
| Partition.ChunksCount | scripts/bronze/concurrent_scoreboard_ingest.py:283-284 | there are ⌈len(s) / n⌉ slices, none only for an empty input |
| Partition.ChunksFull | scripts/bronze/concurrent_scoreboard_ingest.py:283-284 | every slice but the last holds exactly `n` elements |
| Partition.Chunks | scripts/bronze/concurrent_scoreboard_ingest.py:283-284 | each slice holds between 1 and `n` elements |
| Partition.Range | scripts/bronze/threaded_team_ingest.py:158 | `range(a, b + 1)` lists `a`, `a + 1`, … `b` |
| Partition.RangeSplit | scripts/bronze/threaded_team_ingest.py:156-158 | a range splits at any point inside it into two consecutive ranges |
| Tables.InsertDoNothing | src/ingest.py:68-73 | `ON CONFLICT DO NOTHING RETURNING id` returns a new id exactly for an absent key and then adds just that row; otherwise nothing changes |
| Tables.Upsert | src/SilverTeamTransform.py:46-58 | `ON CONFLICT DO UPDATE RETURNING id`: the key's row becomes the merge of old and new (or the new row) and its id is returned, the count growing only for a new key |
| Tables.UpsertNullable | src/SilverCompetitionTransform.py:73-80 | a NULL conflict column never conflicts, so the row is added under no key |
| Tables.InsertDoNothingRepeat | src/ingest.py:68-73 | repeating an insert-if-absent with the same key returns nothing and changes no row |
| Tables.UpsertFrame | src/SilverTeamTransform.py:46-58 | an upsert leaves every other row as it was |
| Tables.UpsertTwiceSameRow | src/SilverTeamTransform.py:46-58 | upserting one key twice keeps one row and returns the same id |
| Tables.KeyedUpsert | src/SilverTeamTransform.py:46-58 | after the upsert exactly the key's row changed (to the merge, or to the new row) |
| Tables.KeyedInsertIfAbsent | src/SilverTeamTransform.py:131-133 | `ON CONFLICT DO NOTHING` adds the row exactly when its key is absent, and never drops or changes a row |
| RawStore.StoreRaw | src/ingest.py:68-87 | the insert reports a new row exactly when it does not raise and the hash is new, in which case just that row is added; a raise changes nothing |
| RawStore.StoreRawGrows | src/ingest.py:68-87 | storing never drops or changes a stored row |
| RawStore.StoreRawRepeat | src/ingest.py:68-87 | a second row with a stored hash reports False and changes no row: the first row stays |
| RawStore.CanonicalHashKeyOrder | src/ingest.py:60-61 | payloads that differ only in the order of their dicts' items, at any depth, get the same source hash |
| Ingest.SourceHash | src/ingest.py:60-61 | the source hash depends on the payload only through its canonical text |
| Ingest.MatchNumberChoice | src/ingest.py:64-66 | for a dict the match number is the first truthy of the three keys' values, else the `matchNumber` value itself (None when absent); for a non-dict it is None |
| Ingest.IngestEndpoint | src/ingest.py:45-87 | True exactly for a 200 reply with JSON whose hash is new to the table and an insert that does not raise; only that table changes, by that one row |
| Ingest.RepeatIsNoOp | src/ingest.py:60-84 | ingesting a payload whose canonical text is already stored returns False and adds no row |
| Ingest.ReorderedRepeatIsNoOp | src/ingest.py:60-84 | the same holds for a payload whose dicts' items, at any depth, were merely reordered |
| Ingest.IngestAllCountsNewRows | src/ingest.py:93-99 | `inserted` equals the number of rows added to the tables |
| Ingest.IngestUrls | src/ingest.py:96-99 | the inner loop counts every URL tried and folds `ingest_endpoint` over them in order |
| Ingest.RunEndpoints | src/ingest.py:95-99 | the outer loop over the endpoints folds `ingest_endpoint` over every table's URLs in turn |
| Ingest.RunIngest | src/ingest.py:89-102 | `tried` is the number of configured URLs and `inserted` the number whose ingest returned True, never more than `tried` |
| SqlSplit.Kept | src/silver.py:24-27 | the lines kept are lines of the script, in order, none of them a `--` comment line |
| SqlSplit.TrimSemicolons | src/silver.py:30-31 | the trailing-semicolon loop leaves a prefix of the statement that does not end with `;` |
| SqlSplit.TrimTrailingSemicolons | src/silver.py:30-31 | the `while stmt.endswith(';')` loop computes `TrimSemicolons` |
| SqlSplit.SplitStatements | src/silver.py:22-38 | the splitting loop with its `cur_lines` buffer yields exactly `Statements(text)` |
| SqlSplit.GroupsPartition | src/silver.py:27-34 | the line groups read in order are the kept lines, each closed group ends at its only `;` line, the open tail has none, and there is one closed group per `;` line |
| SqlSplit.StatementsClean | src/silver.py:29-38 | every statement is non-empty and does not end with `;` |
| SqlSplit.CommentsDropped | src/silver.py:25-26 | no comment line takes part in any statement |
| SqlSplit.StatementCount | src/silver.py:28-38 | at most one statement per kept `;` line, plus one for the tail |
| SqlSplit.FirstFailure | src/silver.py:42-48 | the first statement the server rejects in a healthy transaction: every earlier one runs |
| SqlSplit.FailureSticks | src/silver.py:43-49 | a statement failure caught without a rollback makes every later statement fail, and the final commit applies nothing |
| SqlSplit.CommittedAll | src/silver.py:49 | the commit applies every statement exactly when each one ran |
| SilverDdl.ResultOf | src/silver.py:45-48 | a result is ok exactly when the statement ran, carries the statement's first line, and the error otherwise |
| SilverDdl.RunStatements | src/silver.py:40-49 | the execution loop records one result per statement, in order, and the commit makes durable what `Committed` says |
| SilverDdl.ApplyDdl | src/silver.py:18-50 | one result per split statement with its first line, ok exactly before the first rejected statement, that one with the server's error and every later one with the aborted-transaction error; the commit applies all statements or none |
| ApplySqlFile.RunStatements | scripts/apply_sql_file.py:33-46 | one `(ok, info)` pair per statement inside one transaction, the commit on leaving `with conn:` applying what `Committed` says |
| ApplySqlFile.ApplyFile | scripts/apply_sql_file.py:11-46 | `(True, first line)` before the first rejected statement, `(False, error)` for it and the aborted-transaction error for every later one; the commit applies all statements or none |
| ScheduleExample.InsertExample | scripts/insert_schedule_example.py:25-55 | a non-dict payload raises; otherwise the row of the canonical text's hash is returned, the existing one unchanged or a new row with the payload's `id`, the canonical text, the file name and the hash |
| ScheduleExample.StoredRowIsCanonical | scripts/insert_schedule_example.py:27-42 | the stored payload is the canonical text, its hash is the hash of that text, and its match number is the payload's `id` (None when absent) |
| ScheduleExample.RepeatReturnsExistingId | scripts/insert_schedule_example.py:35-47 | inserting the same content again returns the first id and changes no row |
| Backfill.TrailingNumberSound | scripts/backfill_match_number.py:15-27 | a number the extraction finds is a match of `/(\d+)(?:/?$)` and has its group's value |
| Backfill.TrailingNumberComplete | scripts/backfill_match_number.py:15-27 | every match of the pattern is found, with its group's value |
| Backfill.NoSlashNoNumber | scripts/backfill_match_number.py:25 | a source without `/`, and a NULL source, never yields a number |
| Backfill.Filled | scripts/backfill_match_number.py:25-29 | a row whose source yields a number takes it as match number; any other row is unchanged |
| Backfill.UpdateRow | scripts/backfill_match_number.py:25-29 | the per-row body raises exactly when the source yields a number and its UPDATE fails, leaving the row alone; otherwise it changes the row exactly when the source yields a number, writing `Filled` |
| Backfill.FirstFailure | scripts/backfill_match_number.py:23-28 | the position of the first selected row whose source yields a number and whose UPDATE fails: no earlier row fails, and the one there does |
| Backfill.BackfillTable | scripts/backfill_match_number.py:14-29 | the pass raises exactly when some selected row's UPDATE fails; the rows before the first such row are filled and the rest untouched (autocommit keeps them); with no failure every selected row becomes its backfilled version, no row appears or vanishes, and `updated` counts the rows that got a number |
| Backfill.BackfillTables | scripts/backfill_match_number.py:14-30 | the tables are backfilled in order, each independently, and every other table is left alone; it raises exactly when a table's SELECT or one of its UPDATEs fails, which leaves that table partly backfilled, keeps the finished tables, and leaves the later table untouched |
| Backfill.BackfillAll | scripts/backfill_match_number.py:14-30 | with the script's pattern, each finished table's count is the number of rows that got a number, each row being its backfilled version; a failing statement ends the run with the rows updated so far kept |
| Backfill.BackfillIdempotent | scripts/backfill_match_number.py:20 | a second run changes nothing |
| Backfill.CountInIsCard | scripts/backfill_match_number.py:29 | over distinct ids that include the changed ones, the counter equals the number of changed rows |
| FixedRetry.Backoffs | scripts/bronze/concurrent_scoreboard_ingest.py:146-150 | the pause after failed attempt `k` is `RATE_LIMIT_DELAY * BACKOFF_FACTOR ** k`, one per failed attempt |
| FixedRetry.Verdict | scripts/bronze/concurrent_scoreboard_ingest.py:130-138 | a 404 returns None; a 200 returns the parsed body unless the logging line after `response.json()` raises |
| FixedRetry.Fetch | scripts/bronze/concurrent_scoreboard_ingest.py:122-153 | at most `MAX_RETRIES` requests, stopping at the first 200 or 404; every earlier answer was neither; when none was decisive the result is None after exactly `MAX_RETRIES` requests; one backoff pause after every failed attempt but the last |
| FixedRetry.FirstAttemptOk | scripts/bronze/concurrent_scoreboard_ingest.py:128-134 | a 200 on the first attempt is returned at once, with no pause |
| FixedRetry.GiveUpPauses | scripts/bronze/concurrent_scoreboard_ingest.py:146-150 | giving up costs two pauses, of 3 s and 6 s |
| TeamFetch.NotFoundText | scripts/bronze/threaded_team_ingest.py:182 | the test `error == "NOT_FOUND"` picks out a 404 and nothing else, whatever an exception's text is |
| TeamFetch.ClassifySuccess | scripts/bronze/threaded_team_ingest.py:85-88 | a request counts as a success exactly on a 200 carrying a non-empty dict |
| TeamFetch.ClassifyNotFound | scripts/bronze/threaded_team_ingest.py:89-91 | a request counts as not found exactly on a 404 |
| TeamFetch.SuccessesAreResults | scripts/bronze/threaded_team_ingest.py:180-181 | every collected `(team_id, team_data)` pair is a successful result of the chunk |
| TeamFetch.ResultsAreSuccesses | scripts/bronze/threaded_team_ingest.py:180-181 | every successful result of the chunk is collected |
| TeamFetch.TallyResults | scripts/bronze/threaded_team_ingest.py:174-189 | every result is counted exactly once: as a success, as not found, or as an error |
| TeamFetch.Prune | scripts/bronze/threaded_team_ingest.py:54 | the pruned window keeps exactly the timestamps younger than 60 s |
| TeamFetch.PruneDrops | scripts/bronze/threaded_team_ingest.py:54 | pruning at a time some stored timestamp has outlived drops at least one entry |
| TeamFetch.IdChunksAreSlices | scripts/bronze/threaded_team_ingest.py:156-158 | the id chunks are the `batch_size` slices of `start..end` |
| TeamFetch.IdChunksPartition | scripts/bronze/threaded_team_ingest.py:156-158 | the chunks concatenate to `start..end` in ascending order, each holding 1 to `batch_size` ids |
| TeamsRange.IngestTeamsRange | scripts/ingest_teams_range.py:21-39 | the loop over `START..END` computes `RangeEffect`: a URL reported permanently missing is skipped, a failed check falls through, every other URL is ingested in order |
| TeamsRange.DefaultTemplatePlain | scripts/ingest_teams_range.py:19 | the default template is a brace-free prefix followed by `{}` |
| TeamsRange.PrefixUrls | scripts/ingest_teams_range.py:26-34 | through a template that writes each id after a fixed prefix, the URLs tried are those of the ids not reported permanently missing |
| TeamsRange.PlainTemplateUrls | scripts/ingest_teams_range.py:26-34 | with a brace-free prefix and `{}` or `{0}`, formatting never raises and the URLs tried are those of the ids not reported missing |
| TeamsRange.PlainTemplateRange | scripts/ingest_teams_range.py:21-39 | with such a template the run never raises and ingests, in ascending id order, the URLs of the ids not reported permanently missing |
| TeamsRange.InsertedBounded | scripts/ingest_teams_range.py:25-36 | `inserted` grows by at most one per id of the range |
| CompleteTeams.Arrow | scripts/bronze/complete_teams.py:29 | `j -> 'k'` is SQL NULL exactly when the key is absent |
| CompleteTeams.First | scripts/bronze/complete_teams.py:29 | `j -> 0` is SQL NULL unless `j` is a non-empty array |
| CompleteTeams.Int4 | scripts/bronze/complete_teams.py:29-34 | the `::int` cast fails outside the 32-bit range and keeps the value inside it |
| CompleteTeams.TextToInt4OfDigits | scripts/bronze/complete_teams.py:34 | the decimal text of an `int4` value casts back to it |
| CompleteTeams.EntIdOfFirstAthlete | scripts/bronze/complete_teams.py:29 | only the `ent_id` of the first athlete of a team's first discipline is read |
| CompleteTeams.NonNullMeaning | scripts/bronze/complete_teams.py:28-36 | an id the query keeps is exactly a value some cast produced |
| CompleteTeams.ScoreboardRefsMeaning | scripts/bronze/complete_teams.py:27-32 | a reference in the scoreboard column comes from some stored payload, and every payload's references are in it |
| CompleteTeams.ScoreboardRaises | scripts/bronze/complete_teams.py:27-32 | the scoreboard part of the query raises exactly when a stored payload has a non-array `teams` or a reference that does not cast |
| CompleteTeams.ExistingRaises | scripts/bronze/complete_teams.py:33-37 | the team part raises exactly when some stored payload's `id` does not cast |
| CompleteTeams.Unmatched | scripts/bronze/complete_teams.py:38-41 | `LEFT JOIN … WHERE et.team_id IS NULL AND st.team_id > 0` keeps exactly the positive ids without a match |
| CompleteTeams.MissingTeamIds | scripts/bronze/complete_teams.py:21-47 | the query yields ascending distinct ids, and raises exactly when one of its casts fails |
| CompleteTeams.MissingMeaning | scripts/bronze/complete_teams.py:21-47 | an id is missing exactly when it is positive, some stored scoreboard refers to it through the first athlete of a team's first discipline, and no stored team payload has it as its id |
| CompleteTeams.TeamUrls | scripts/bronze/complete_teams.py:57 | one team URL per id, in order |
| CompleteTeams.IngestTeamsByIds | scripts/bronze/complete_teams.py:51-69 | one `ingest_endpoint` per id in order; `success_count` counts the True results and never exceeds the number of ids |
| CompleteTeams.CompleteTeamsRun | scripts/bronze/complete_teams.py:71-84 | the run crashes exactly when the query raises, ingests nothing when nothing is missing, and otherwise ingests every missing id's URL once |
| ThreadedTeamIngest.Oldest | scripts/bronze/threaded_team_ingest.py:58 | `min(self.request_times)` is an entry of the window no later than any other |
| ThreadedTeamIngest.WindowAfterStep | scripts/bronze/threaded_team_ingest.py:49-68 | after a check the window ends with the recorded time and holds before it only old timestamps less than 60 s older than that time |
| ThreadedTeamIngest.FullWindowWaits | scripts/bronze/threaded_team_ingest.py:56-62 | a full window always makes the caller sleep, by more than a second |
| ThreadedTeamIngest.CrashCondition | scripts/bronze/threaded_team_ingest.py:56-58 | the check raises (`min` of an empty list) exactly when the limit is not positive and no request is younger than 60 s |
| ThreadedTeamIngest.WindowBound | scripts/bronze/threaded_team_ingest.py:49-68 | when the clock advances by at least the wait, a window of at most `limit` entries still holds at most `limit` entries |
| ThreadedTeamIngest.TeamHashInjective | scripts/bronze/threaded_team_ingest.py:125 | distinct team ids get distinct `team_{id}` keys, so each team has one row |
| ThreadedTeamIngest.UpsertAllHolds | scripts/bronze/threaded_team_ingest.py:114-133 | after the batch every team in it has its row, no row is lost, and at most one row per pair was added |
| ThreadedTeamIngest.ReingestAddsNoRow | scripts/bronze/threaded_team_ingest.py:117-119 | re-ingesting teams that already have rows adds no row |
| ThreadedTeamIngest.SecondRunAddsNoRow | scripts/bronze/threaded_team_ingest.py:117-119 | running the same batch twice adds no row the first run did not |
| ThreadedTeamIngest.FetchRunResults | scripts/bronze/threaded_team_ingest.py:70-104 | with a positive limit no check crashes and the k-th result is the classified response to the k-th id |
| ThreadedTeamIngest.ChunkStores | scripts/bronze/threaded_team_ingest.py:163-193 | when the insert does not raise, every id of the chunk answered by a non-empty dict has its row afterwards, and no row is lost |
| ThreadedTeamIngest.RangeRunKeepsRows | scripts/bronze/threaded_team_ingest.py:156-205 | a run of chunks never loses a row |
| ThreadedTeamIngest.RangeRunSnoc | scripts/bronze/threaded_team_ingest.py:156-198 | one more chunk extends the run by that chunk's fetches and insert |
| ThreadedTeamIngest.ThreadedTeamIngester.constructor | scripts/bronze/threaded_team_ingest.py:33-37 | the window starts empty, so the ingester is valid exactly when the limit is positive |
| ThreadedTeamIngest.ThreadedTeamIngester.CheckRateLimit | scripts/bronze/threaded_team_ingest.py:49-68 | the new window, the crash and the sleep are those of `RateLimitStep`; a call that keeps to the clock leaves the ingester valid |
| ThreadedTeamIngest.ThreadedTeamIngester.FetchTeam | scripts/bronze/threaded_team_ingest.py:70-104 | the check, then the classified response; a crash of the check escapes as the worker's exception |
| ThreadedTeamIngest.ThreadedTeamIngester.InsertTeamsBatch | scripts/bronze/threaded_team_ingest.py:106-144 | 0 and no change for an empty batch or a rolled-back transaction; otherwise `len(teams_data)` with every pair upserted on `team_{id}` |
| ThreadedTeamIngest.ThreadedTeamIngester.ProcessChunk | scripts/bronze/threaded_team_ingest.py:156-198 | every id is counted once, the insert reports at most the successes, the window and table are `ChunkRun`'s, and no row is lost |
| ThreadedTeamIngest.ThreadedTeamIngester.ProcessTeamRange | scripts/bronze/threaded_team_ingest.py:146-221 | every id of the range is processed and counted once; window, table and total are the chunks run in order; the closing log line raises exactly for an empty range |
| ConcurrentTeamIngest.RestoredPermits | scripts/bronze/concurrent_team_ingest.py:58-59 | `max(0, limit - used)`: never negative, never above a non-negative limit |
| ConcurrentTeamIngest.PermitsAndWindow | scripts/bronze/concurrent_team_ingest.py:54-62 | the restored permits never exceed what the limit leaves for the requests still in the window |
| ConcurrentTeamIngest.UpsertAllRows | scripts/bronze/concurrent_team_ingest.py:109-125 | after a batch exactly the stored ids and the batch's ids have a row, each batch team holds its new payload, and every other row is unchanged |
| ConcurrentTeamIngest.Clocks | scripts/bronze/concurrent_team_ingest.py:69 | each request records its own clock, in submission order |
| ConcurrentTeamIngest.Fetched | scripts/bronze/concurrent_team_ingest.py:161-168 | the gathered results of a chunk are the classified responses, in order |
| ConcurrentTeamIngest.RangeStoredSnoc | scripts/bronze/concurrent_team_ingest.py:154-198 | one more chunk extends the run by that chunk's insert |
| ConcurrentTeamIngest.ChunkStoresSuccesses | scripts/bronze/concurrent_team_ingest.py:172-193 | when the insert does not raise, every id answered by a non-empty dict has a row afterwards |
| ConcurrentTeamIngest.ChunkAddsOnlySuccesses | scripts/bronze/concurrent_team_ingest.py:172-193 | a chunk adds a row only for an id it fetched that was answered by a non-empty dict |
| ConcurrentTeamIngest.RangeKeepsRows | scripts/bronze/concurrent_team_ingest.py:154-198 | a run of chunks never loses a row |
| ConcurrentTeamIngest.ConcurrentTeamIngester.constructor | scripts/bronze/concurrent_team_ingest.py:32-37 | the window starts empty with `rate_limit_per_minute` permits |
| ConcurrentTeamIngest.ConcurrentTeamIngester.RateLimitReset | scripts/bronze/concurrent_team_ingest.py:49-62 | one round prunes the window and recreates the semaphore with the permits the pruned window leaves |
| ConcurrentTeamIngest.ConcurrentTeamIngester.FetchTeamAsync | scripts/bronze/concurrent_team_ingest.py:65-98 | the permit taken is given back, the request time is recorded and the response classified |
| ConcurrentTeamIngest.ConcurrentTeamIngester.InsertTeamsBatch | scripts/bronze/concurrent_team_ingest.py:100-136 | 0 and no change for an empty batch or a rolled-back transaction; otherwise `len(teams_data)` with every pair upserted on its id |
| ConcurrentTeamIngest.ConcurrentTeamIngester.ProcessChunk | scripts/bronze/concurrent_team_ingest.py:161-198 | every id is counted once, the window grows by the chunk's clocks, and the table and count are `ChunkStored`'s |
| ConcurrentTeamIngest.ConcurrentTeamIngester.ProcessTeamRange | scripts/bronze/concurrent_team_ingest.py:138-225 | every id of the range is fetched and counted once, in order; table and total are the chunk inserts run in order; no row is lost; the closing log line raises exactly for an empty range |
| ScoreboardIngest.FetchScoreboard | scripts/bronze/concurrent_scoreboard_ingest.py:111-153 | at most three requests; every request before the last was not decisive; a 200 or 404 ends the loop with its verdict, while an unexpected status or a request error is retried and gives None after the third attempt; the pauses are the backoffs of the retried attempts; result and pauses are those of the reference retry loop |
| ScoreboardIngest.InsertScoreboard | scripts/bronze/concurrent_scoreboard_ingest.py:156-193 | True exactly when the statement goes through and no stored row has the payload's canonical hash; then one row is added under that hash with the competition id, payload and scoreboard URL; otherwise the table is unchanged |
| ScoreboardIngest.InsertInSession | scripts/bronze/concurrent_scoreboard_ingest.py:179-193 | on the shared connection, the insert succeeds exactly when the transaction is not already aborted, the statement goes through and the hash is new; a failing statement aborts the transaction, and on an aborted one nothing changes |
| ScoreboardIngest.IdStep | scripts/bronze/concurrent_scoreboard_ingest.py:217-229 | one id: an exception escapes exactly when the fetch raises; otherwise the id is counted once as successful, duplicate or not found, `failed` is unchanged, the table grows by the success counted, and the transaction becomes aborted exactly when this INSERT was sent and failed |
| ScoreboardIngest.ProcessId | scripts/bronze/concurrent_scoreboard_ingest.py:217-229 | the loop body pauses for the rate limit and the fetch's backoffs and does what the reference step does |
| ScoreboardIngest.WorkerRunVisits | scripts/bronze/concurrent_scoreboard_ingest.py:217-229 | a worker fetches a prefix of its ids, all of them unless one raised, and its pauses are the per-id pauses of the ids fetched |
| ScoreboardIngest.WorkerRunCounts | scripts/bronze/concurrent_scoreboard_ingest.py:208-236 | inside a worker `failed` stays as it was, each id fetched without a raise is counted once, and the table grows by exactly the inserts counted successful |
| ScoreboardIngest.WorkerRunAborts | scripts/bronze/concurrent_scoreboard_ingest.py:179-193 | a worker leaves the transaction aborted exactly when it was already or one of the ids it fetched had a failing INSERT; an aborted transaction neither grows nor counts successes |
| ScoreboardIngest.AnyFailingAppend | scripts/bronze/concurrent_scoreboard_ingest.py:217-229 | a failing INSERT occurs among two runs of ids exactly when it occurs among one of them |
| ScoreboardIngest.WaitsOfAppend | scripts/bronze/concurrent_scoreboard_ingest.py:217-219 | the pauses of two runs of ids are the pauses of the first followed by those of the second |
| ScoreboardIngest.WorkerFacts | scripts/bronze/concurrent_scoreboard_ingest.py:196-236 | from the shared session, a worker visits all its ids or a non-empty prefix when one raised; without a raise `failed` is 0, every id is counted once and the table grows by the successes; the transaction is aborted afterwards exactly when it was or an INSERT of the visited ids failed |
| ScoreboardIngest.ProcessBatch | scripts/bronze/concurrent_scoreboard_ingest.py:196-236 | the worker loop returns exactly what the reference worker run gives: counts or None when an exception escaped, the session, the ids fetched and the pauses taken |
| ScoreboardIngest.NewIds | scripts/bronze/concurrent_scoreboard_ingest.py:255 | an id is kept exactly when it is listed and has no stored scoreboard |
| ScoreboardIngest.NewIdsInOrder | scripts/bronze/concurrent_scoreboard_ingest.py:255 | the kept ids are a subsequence of the listed ids, in their original order |
| ScoreboardIngest.WorkerSliceSize | scripts/bronze/concurrent_scoreboard_ingest.py:290 | each worker gets a slice of at least one id |
| ScoreboardIngest.RunSlice | scripts/bronze/concurrent_scoreboard_ingest.py:293-306 | one more worker slice runs on the shared session and its counts are added to the totals, a worker that raised adding 1 to `failed`; the transaction is aborted exactly when an INSERT among all ids fetched so far failed; the pauses are those of the ids fetched |
| ScoreboardIngest.SliceDone | scripts/bronze/concurrent_scoreboard_ingest.py:299-303 | after a worker that finished its slice, the totals are the sums over all slices so far |
| ScoreboardIngest.SliceRaised | scripts/bronze/concurrent_scoreboard_ingest.py:304-306 | after a worker that raised, `failed` grows by one and the other totals stay, the ids it fetched still counting for the transaction and the pauses |
| ScoreboardIngest.RunBatch | scripts/bronze/concurrent_scoreboard_ingest.py:283-310 | `failed` grows by the number of workers that raised; at most one count per id; with no failed worker every id of the batch is counted once; the batch is rolled back at the commit exactly when one of the INSERTs it sent failed, and then the table is what it was; otherwise it grows by at least the new successes; pauses are those of the ids fetched |
| ScoreboardIngest.RunBatchAt | scripts/bronze/concurrent_scoreboard_ingest.py:283-310 | the totals after one more batch are the sums over the batches so far, and the rows kept are the successes of the batches that committed |
| ScoreboardIngest.IngestScoreboards | scripts/bronze/concurrent_scoreboard_ingest.py:239-310 | no ids means nothing is done; nothing new means every listed id is stored; otherwise only the new ids are handled, each at most once, all of them when no worker failed; `failed` counts failed workers; the table grows by at least the successes of the committed batches, which are all successes when no INSERT failed; the pauses are the per-id pauses of the ids fetched |
| CompetitionIngest.FetchCompetitionPage | scripts/bronze/concurrent_competition_ingest.py:55-97 | at most three requests; a 404 or a 200 with a parsed body ends the loop with its verdict, while another status or a request error is retried with a backoff pause and gives None after the third attempt; a value returned is a dict; the result is that of the reference retry loop |
| CompetitionIngest.CurrentPage | scripts/bronze/concurrent_competition_ingest.py:115 | the chained `.get` raises exactly when the payload or its `meta` is not a dict, and defaults to page 1 without `meta` |
| CompetitionIngest.InsertCompetition | scripts/bronze/concurrent_competition_ingest.py:100-139 | 1 exactly when the insert succeeds and the canonical hash is new, and then one row with the page number, payload and page URL is added; 0 leaves the table as it was; a raising page lookup escapes |
| CompetitionIngest.DiscoverTotalPages | scripts/bronze/concurrent_competition_ingest.py:142-168 | `meta.last_page` of a 200 reply, and 1 for any other status, a missing `meta` or a raise |
| CompetitionIngest.HandlePage | scripts/bronze/concurrent_competition_ingest.py:240-256 | a page counts as successful exactly when its fetch returned a truthy payload whose page number lookup does not raise, duplicates and failed INSERTs included; a failed INSERT leaves the transaction aborted; on an open transaction the payload's hash is then stored, with a new row holding the page number, payload and page URL when the hash was new, and nothing else changes |
| CompetitionIngest.PageStep | scripts/bronze/concurrent_competition_ingest.py:237-256 | after one more page the counts, the aborted flag and the stored payloads are those of the pages requested so far |
| CompetitionIngest.IngestAllPages | scripts/bronze/concurrent_competition_ingest.py:202-259 | a page count that `range` refuses crashes the run, a count below 1 does nothing, otherwise pages 1..N are each requested once, the successful ones are exactly those whose handling succeeds and the rest are failed; the final commit is a rollback exactly when some INSERT failed, leaving the table as it was; otherwise every successful page's payload is stored |
| CompetitionIngest.IngestPages | scripts/bronze/concurrent_competition_ingest.py:229-256 | the pages 1..n are requested in order, with the counts, the aborted flag and the stored payloads those of all of them |
| CompetitionIngest.NextPage | scripts/bronze/concurrent_competition_ingest.py:237-256 | one more page is requested and counted |
| CompetitionIngest.AnyFailingPageSnoc | scripts/bronze/concurrent_competition_ingest.py:137-139 | a failing INSERT occurs among the pages and one more exactly when it occurs among the pages or on the new one |
| AllTeamsIngest.RetryCases | scripts/bronze/ingest_all_teams.py:62-110 | an attempt is retried exactly on a 429, a 5xx, a timeout, another request error or a 200 whose body does not parse |
| AllTeamsIngest.DoneIsValidTeam | scripts/bronze/ingest_all_teams.py:72-84 | a value is returned only for a 200 carrying a dict with a truthy `id`, and then it is that dict |
| AllTeamsIngest.RetryWait | scripts/bronze/ingest_all_teams.py:86-110 | the pause after attempt k is 60 s times 2^k for a 429, 10 s times 2^k for a timeout and 5 s times 2^k otherwise |
| AllTeamsIngest.Waits | scripts/bronze/ingest_all_teams.py:62-110 | one pause per attempt, each the one that attempt's answer calls for |
| AllTeamsIngest.FetchTeamWithRetry | scripts/bronze/ingest_all_teams.py:59-113 | the fetch meets its specification: the attempts, their pauses and the value follow the answers in order |
| AllTeamsIngest.FetchResultValid | scripts/bronze/ingest_all_teams.py:59-113 | whatever the server answers, the fetch returns None or a dict with a truthy id |
| AllTeamsIngest.RateLimitedThrice | scripts/bronze/ingest_all_teams.py:86-90 | three 429 answers cost pauses of 60, 120 and 240 seconds and give None |
| AllTeamsIngest.InsertTeam | scripts/bronze/ingest_all_teams.py:115-136 | `ON CONFLICT (id) DO UPDATE`: a successful call leaves exactly the new row under the id; a raising statement writes nothing and returns False |
| AllTeamsIngest.InsertTeamTwice | scripts/bronze/ingest_all_teams.py:123-127 | upserting the same id twice leaves one row, holding the second payload |
| AllTeamsIngest.LoadedIsPresent | scripts/bronze/ingest_all_teams.py:180-186 | a loaded team is found by the next existence check, so a later run skips it |
| AllTeamsIngest.BoolIdBreaksCheck | scripts/bronze/ingest_all_teams.py:181 | a stored payload whose `id` is `true` makes the `::int` cast of every later existence check raise |
| AllTeamsIngest.VisitTeam | scripts/bronze/ingest_all_teams.py:179-216 | a present id is skipped with no request; otherwise a 2.5 s pause, the fetch and the insert; not found, failed and loaded are told apart exactly; only a load changes the table |
| AllTeamsIngest.LoadStep | scripts/bronze/ingest_all_teams.py:201-203 | loading an id above every id loaded so far keeps the account of the table |
| AllTeamsIngest.PassStep | scripts/bronze/ingest_all_teams.py:182-198 | visiting an id without loading it keeps the account of the table |
| AllTeamsIngest.LoadKeepsState | scripts/bronze/ingest_all_teams.py:201-212 | a load keeps the loop state, committing when the tenth staged load arrives |
| AllTeamsIngest.PassKeepsState | scripts/bronze/ingest_all_teams.py:182-216 | visiting an id without loading it keeps the loop state |
| AllTeamsIngest.MainStep | scripts/bronze/ingest_all_teams.py:179-216 | one pass of the loop body keeps the loop state, and `failed` grows exactly when the insert of an absent id raised |
| AllTeamsIngest.HaltKeepsRun | scripts/bronze/ingest_all_teams.py:180-182 | stopping at an existence check that raises keeps the run invariant |
| AllTeamsIngest.AdvanceKeepsRun | scripts/bronze/ingest_all_teams.py:177-216 | moving past an id keeps the run invariant |
| AllTeamsIngest.MainIteration | scripts/bronze/ingest_all_teams.py:177-236 | one iteration keeps the run invariant and either moves to a later id or stops |
| AllTeamsIngest.IngestAllTeams | scripts/bronze/ingest_all_teams.py:145-241 | ids 1..4000 in order; a stop happens at an id in range and for its reason (interrupt, raising check after a swallowed insert error); the counters account for every visited id; the loads are ascending and are exactly what changed the table; the durable table holds every load after an interrupt or the end of the range, and only the batches committed before it when an insert error or a raising existence check aborted the transaction |
| Discovery.KeyValue | scripts/ingest_all_matches.py:52-54 | reading one key adds nothing, or its `int()`, and raises exactly when that conversion does |
| Discovery.KeyValuesRaise | scripts/ingest_all_matches.py:52-54 | one item's keys raise exactly when one of them is present, not None and not convertible |
| Discovery.KeyValuesYield | scripts/ingest_all_matches.py:52-54 | without a raise, one item's keys yield exactly the values converted from them |
| Discovery.ItemValuesRaise | scripts/ingest_all_matches.py:48-61 | discovery over a list of items fails exactly when some item's listed key does not convert |
| Discovery.ItemValuesYield | scripts/ingest_all_matches.py:48-61 | without a failure the ids are exactly the converted values of every listed key of every item |
| Discovery.InsertSorted | scripts/ingest_all_matches.py:47-54 | adding to the set kept as an ascending list keeps it ascending and adds exactly that member |
| Discovery.SortedOf | scripts/ingest_all_matches.py:62 | `sorted(set(...))` is ascending without repeats and holds exactly the values |
| Discovery.IncreasingUnique | scripts/ingest_all_matches.py:62 | two ascending lists with the same members are equal, so the sorted list is determined by the set |
| Discovery.DiscoveredIds | scripts/ingest_all_matches.py:39-65 | the result is ascending, holds exactly the discovered ids, and is `[]` when discovery fails |
| Discovery.TryDiscoverIds | scripts/ingest_all_matches.py:39-65 | ascending, exactly the values read, and `[]` without a 200 reply, a parsed body, or when a conversion raises |
| Discovery.ReadKeys | scripts/ingest_all_matches.py:52-54 | the key loop of one item raises exactly when the reference does, and otherwise adds exactly the item's values |
| Discovery.ReadKey | scripts/ingest_all_matches.py:53-54 | one key raises exactly when its conversion does, and otherwise adds its value |
| Discovery.LastLineStart | scripts/ingest_all_matches.py:70 | the last line starts after the last newline, and no newline follows |
| Discovery.AfterLastNewline | scripts/ingest_all_matches.py:70 | the text after the last newline is a newline-free suffix preceded by a newline or by nothing |
| Discovery.MakeTemplateNone | scripts/ingest_all_matches.py:68-74 | the pattern fails exactly when the URL, without a final '/' and newline, does not end in a digit |
| Discovery.MakeTemplateMatches | scripts/ingest_all_matches.py:68-74 | a template is the prefix of a real match: text up to a newline, a lazily matched prefix, a run of digits and what `/?$` accepts |
| Discovery.TemplateRoundTrip | scripts/ingest_all_matches.py:68-74 | for a one-line, brace-free prefix not ending in a digit followed by `str(n)`, the template is that prefix plus `{}`, and formatting it with n rebuilds the URL without its trailing '/' |
| Discovery.TemplateOfDigits | scripts/ingest_all_matches.py:68-74 | the template of a prefix, a digit string and an optional '/' is the prefix plus `{}` |
| Discovery.StripTrailingDigitsOf | scripts/ingest_all_matches.py:136 | `re.sub(r"/\d+/?$", '', url)` removes a final `/<digits>` or `/<digits>/` and gives back what came before |
| Discovery.StripTrailingIdOf | scripts/ingest_all_matches.py:136 | removing the id of `base/<n>` gives back `base`, whatever `base` is |
| Discovery.TemplateOr | scripts/ingest_all_matches.py:139 | the template when there is one, and `base + '/{}'` otherwise |
| Discovery.FormatStop | scripts/ingest_all_matches.py:100-101 | the loop formats every id before the stop and the format raises at the stop |
| Discovery.TriedUrlsMeaning | scripts/ingest_all_matches.py:98-116 | a URL is ingested exactly when it is the formatted URL of some id and is not reported permanently missing |
| Discovery.TriedPrefixMeaning | scripts/ingest_all_matches.py:98-116 | the same for the ids before the one whose format raised |
| Discovery.FormatEveryId | scripts/ingest_all_matches.py:101 | a brace-free prefix plus `{}` formats every id into the prefix followed by the id |
| Discovery.PrefixTemplateTried | scripts/ingest_all_matches.py:98-116 | through a brace-free prefix plus `{}` or `{0}` no format raises, and the ingested URLs are the prefix plus each id not reported permanently missing |
| Discovery.TriedUrlsSnoc | scripts/ingest_all_matches.py:100-109 | one more id adds its URL to the ingested ones unless it is reported permanently missing |
| Discovery.IdsStep | scripts/ingest_all_matches.py:100-115 | one id of the loop: skipped when permanently missing, otherwise counted in `tried` and ingested |
| Discovery.IdsEffectBounded | scripts/ingest_all_matches.py:98-116 | with a step that adds at most one True result, the loop adds at most one per id and keeps the set of tables |
| Discovery.IngestIdsLoop | scripts/ingest_all_matches.py:98-116 | the loop crashes exactly when some format raises; `tried` counts the URLs ingested before that; the state is their ingestion in order |
| Discovery.IngestIdsForUrl | scripts/ingest_all_matches.py:98-116 | `ingest_ids_for_url` with `ingest_endpoint` as its step: `inserted` counts the True results of ingesting exactly the tried URLs, and `inserted <= tried <= |ids|` |
| Discovery.IngestRangeForUrl | scripts/ingest_all_matches.py:77-95 | the same loop over `start..end` inclusive, with `inserted <= tried <= end - start + 1` |
| CompetitionsScript.ForceFlag | scripts/ingest_competitions.py:29 | the flag is set for "1", "true" and "yes", and only ever for a value of one to four characters |
| CompetitionsScript.LastMarkerBelow | scripts/ingest_competitions.py:121 | finds the last `page=` followed by a digit before position n, and there is none after it |
| CompetitionsScript.DigitRunEnd | scripts/ingest_competitions.py:121 | the digit run from i ends at the first non-digit |
| CompetitionsScript.PagedLine | scripts/ingest_competitions.py:121 | the paged pattern matches a line exactly when it holds `page=` followed by a digit |
| CompetitionsScript.PagedLineSplits | scripts/ingest_competitions.py:121-125 | a match splits the line into a prefix ending `page=` (greedy), the start page's digits and a suffix not starting with a digit |
| CompetitionsScript.PagedUrlSplits | scripts/ingest_competitions.py:121-125 | the same split for a whole URL, on the line the pattern reaches |
| CompetitionsScript.PagedLineOf | scripts/ingest_competitions.py:121-125 | round trip: text, `page=`, digits and a marker-free suffix not starting with a digit match with exactly those pieces |
| CompetitionsScript.PagedUrlOf | scripts/ingest_competitions.py:121-131 | round trip: the URL built from prefix, `str(n)` and suffix matches with start page n and the same prefix and suffix |
| CompetitionsScript.PageStep | scripts/ingest_competitions.py:131-181 | one page of the loop: the page always advances; a skip changes nothing else; a miss adds one to the empty counter; a stored page resets it and adds one insert; at most one `ingest_endpoint` call |
| CompetitionsScript.PaginateEnds | scripts/ingest_competitions.py:130-181 | the loop ends by its test or at a detected last page (never when pages are forced), visits one page per pass and reaches at most `max_pages + 1` |
| CompetitionsScript.PaginateForced | scripts/ingest_competitions.py:129-130 | with `FORCE_FULL_PAGES` every page from the start page through `max_pages` is visited |
| CompetitionsScript.CountOf | scripts/ingest_competitions.py:130-181 | an outcome occurs at most as often as the log is long |
| CompetitionsScript.SinceStored | scripts/ingest_competitions.py:173-177 | the position after the last stored page, with no stored page after it |
| CompetitionsScript.SinceStoredCons | scripts/ingest_competitions.py:173-177 | the empty counter's account composes over one more outcome |
| CompetitionsScript.PaginateCounter | scripts/ingest_competitions.py:144-177 | `consecutive_empty` at the end counts the missed pages since the last stored one, plus its starting value when none was stored |
| CompetitionsScript.PaginateCounts | scripts/ingest_competitions.py:172-178 | `total_inserted` grows by the stored pages; `ingest_endpoint` is called at most once per page not skipped |
| CompetitionsScript.PaginationLoop | scripts/ingest_competitions.py:127-181 | the `while` loop computes exactly the reference pagination, final page and last-page flag included |
| CompetitionsScript.VisitPage | scripts/ingest_competitions.py:131-181 | the loop body with its `continue`s computes one reference page step |
| CompetitionsScript.RangeFallback | scripts/ingest_competitions.py:186-199 | the id range `START_ID..END_ID` is ingested exactly when the URL is not paged, nothing is discovered and the URL has a template |
| CompetitionsScript.IngestCompetitionUrl | scripts/ingest_competitions.py:118-203 | the body of `main`'s loop for one URL computes the reference effect of that URL |
| CompetitionsScript.UrlsEffectGrows | scripts/ingest_competitions.py:117-203 | with a step that adds at most one True result the count never decreases and the tables stay the same |
| CompetitionsScript.UrlEffectGrows | scripts/ingest_competitions.py:118-203 | the same for one URL |
| CompetitionsScript.PaginateGrows | scripts/ingest_competitions.py:130-181 | the same for the pagination loop |
| CompetitionsScript.IngestAllUrls | scripts/ingest_competitions.py:117-203 | the loop over the configured URLs computes the reference effect |
| CompetitionsScript.CrashStays | scripts/ingest_competitions.py:117-203 | once a URL's `format` raised, the later URLs change nothing |
| CompetitionsScript.IngestCompetitions | scripts/ingest_competitions.py:105-207 | `main` is the reference effect of the configured URLs with `ingest_endpoint` as its step; no tables are created or dropped; no URLs means nothing is done |
| MatchesScript.ScheduleTemplate | scripts/ingest_all_matches.py:153-164 | there is a schedule template exactly when a schedule or scoreboard URL is configured, and it is never empty |
| MatchesScript.OnlyFirstScoreboard | scripts/ingest_all_matches.py:131-133 | only the first scoreboard URL matters: further ones change nothing |
| MatchesScript.ScoreboardIds | scripts/ingest_all_matches.py:127-152 | `scoreboard_ids` are the discovered ids when there are any, else `START_ID..END_ID` when the URL has a template, else none, always ascending |
| MatchesScript.ScheduleSkipped | scripts/ingest_all_matches.py:166-170 | with no scoreboard ids or no template, step 2 does nothing |
| MatchesScript.ScheduleFollowsScoreboard | scripts/ingest_all_matches.py:166-168 | step 2 ingests, in order, the schedule URL of every scoreboard id that formats, except those reported permanently missing |
| MatchesScript.DerivedScheduleTemplate | scripts/ingest_all_matches.py:155-159 | a scoreboard URL that ends in an id after the `sasp-scoreboard` replacement gives the schedule template prefix plus `{}` |
| MatchesScript.DerivedScheduleUrl | scripts/ingest_all_matches.py:155-159 | the derived schedule URL of id m is that prefix followed by m |
| MatchesScript.ScoreboardBounded | scripts/ingest_all_matches.py:127-152 | step 1 adds at most one True result per scoreboard id, or one for a single URL |
| MatchesScript.MainBounded | scripts/ingest_all_matches.py:119-176 | `total_inserted` counts at most one per scoreboard request and one per schedule request |
| MatchesScript.IngestScoreboards | scripts/ingest_all_matches.py:127-152 | step 1 as the script runs it computes the reference step |
| MatchesScript.IngestAllMatches | scripts/ingest_all_matches.py:119-186 | `main` computes the reference effect of both steps |
| TransformUtils.BeforeChar | scripts/silver/transform_utils.py:38 | `s.split(c)[0]` is the longest prefix without `c`, followed by `c` when it is shorter than `s` |
| TransformUtils.CleanDate | scripts/silver/transform_utils.py:41 | removing `-` and `/` from a date of three digit runs leaves the three runs joined |
| TransformUtils.CutAtT | scripts/silver/transform_utils.py:37-38 | cutting `date + "T" + rest` at the first `T` gives the date when it has no `T` |
| TransformUtils.DateKeyOfDigits | scripts/silver/transform_utils.py:31-45 | a date of 4 + 2 + 2 digits, separated by `-`, `/` or nothing and optionally followed by `T` and a time, gives the integer YYYYMMDD, without checking month or day |
| TransformUtils.ClockPrefix | scripts/silver/transform_utils.py:64 | `(\d{1,2}):(\d{2})` at the start reads an hour and a minute below 100, ending inside the text |
| TransformUtils.SkipSpaces | scripts/silver/transform_utils.py:61 | `\s*` stops at the first non-space at or after i |
| TransformUtils.TwelveHourUpper | scripts/silver/transform_utils.py:61 | matching the 12-hour pattern against `time_str.upper()` is what the model reads from the original text |
| TransformUtils.ClockPrefixUpper | scripts/silver/transform_utils.py:61-64 | upper-casing does not change the clock either pattern reads |
| TransformUtils.TimeKeyDefined | scripts/silver/transform_utils.py:55-68 | a time key exists exactly when the text starts with an `H:MM` clock |
| TransformUtils.MarkerText | scripts/silver/transform_utils.py:61 | the marker predicates say that `mark.upper()` is `AM` or `PM`, and which |
| TransformUtils.TwelveHourReads | scripts/silver/transform_utils.py:61-70 | the 12-hour pattern reads the hour, the minute and the marker of a text in that shape |
| TransformUtils.TimeKeyTwelveHour | scripts/silver/transform_utils.py:61-78 | 12 AM gives the minutes alone, 12 PM gives 12MM, another PM hour gains 12 and another AM hour is kept |
| TransformUtils.Hour24Key | scripts/silver/transform_utils.py:72-78 | the 24-hour conversion written as one formula gives the same four cases |
| TransformUtils.TimeKeyTwentyFour | scripts/silver/transform_utils.py:62-67 | without an AM/PM marker after the clock, the 24-hour reading gives H·100 + M |
| TransformUtils.DecodeTimeInverts | scripts/silver/transform_utils.py:247-250 | decoding inverts H·100 + M for every minute below 100, and the marker is PM exactly from hour 12 |
| TransformUtils.TimeKeyKeepsMarker | scripts/silver/transform_utils.py:61-78 | a 12-hour clock with hour 1..12 and minute below 60 decodes back to its own marker |
| TransformUtils.Pad2 | scripts/silver/transform_utils.py:219 | `f"{n:02d}"` is two characters |
| TransformUtils.Pad2OfDigits | scripts/silver/transform_utils.py:219 | two digits padded back are themselves |
| TransformUtils.NatToStringOfDigits | scripts/silver/transform_utils.py:215 | a digit string without a leading zero is `str` of its value |
| TransformUtils.DecodeDateKey | scripts/silver/transform_utils.py:213-219 | the key of a date YYYY-MM-DD whose year has no leading zero decodes to its year, month and day, and `full_date` is the date as written |
| TransformUtils.EnsureDate | scripts/silver/transform_utils.py:200-232 | nothing changes for key 0 or a key already present; otherwise at most the key is added, with its decoded row, and only when the date cast succeeds; other rows stay as they were |
| TransformUtils.EnsureTime | scripts/silver/transform_utils.py:234-263 | nothing changes for key 0, a failing insert or a present key; otherwise exactly the decoded row is added |
| TransformUtils.EnsureDateIn | scripts/silver/transform_utils.py:200-232 | on an open transaction the date rows are those of the reference; on an aborted one nothing is added; the transaction is aborted afterwards exactly when it was, or the key is non-zero, new, 8 characters long and its date cast fails |
| TransformUtils.EnsureTimeIn | scripts/silver/transform_utils.py:234-263 | on an open transaction the time rows are those of the reference; on an aborted one nothing is added; the transaction is aborted afterwards exactly when it was, or the key is non-zero, new and its insert fails |
| TransformUtils.SafeIntMeaning | scripts/silver/transform_utils.py:93-100 | `str(n)` converts back to n, and None comes exactly from None, a list, a dict or a string `int` rejects |
| TransformUtils.SafeFloatMeaning | scripts/silver/transform_utils.py:84-91 | an integer keeps its value, and None comes exactly from None, "", a list, a dict or a string `float` rejects |
| TransformUtils.SafeBoolTruthy | scripts/silver/transform_utils.py:104-109 | on None, booleans and numbers `safe_bool` is Python truthiness |
| TransformUtils.SafeBoolAnyCase | scripts/silver/transform_utils.py:110-111 | a string is read in any letter case |
| TransformUtils.SafeBoolFalseWords | scripts/silver/transform_utils.py:110-111 | "false" and "no" are false although they are truthy non-empty strings |
| TransformUtils.SafeBoolTrueWords | scripts/silver/transform_utils.py:110-111 | "TRUE" and "Yes" are true |
| TransformUtils.KeyFieldDefault | scripts/silver/transform_utils.py:130-131 | the default key field of `dim_<name>` is `<name>_key` when `<name>` holds no `dim_` |
| TransformUtils.FindRow | scripts/silver/transform_utils.py:136-138 | `fetchone()` gives the first matching row in storage order, or none when no row matches |
| TransformUtils.UpdateMatching | scripts/silver/transform_utils.py:146-147 | the `UPDATE … WHERE` gives every matching row the columns of `data` and leaves the others and all keys alone |
| TransformUtils.UpsertDimension | scripts/silver/transform_utils.py:114-170 | a failing statement or an unknown key field gives None and rolls back; a match updates every matching row and returns the first one's key; otherwise one row of `data` plus the natural key is inserted under the next key, which is returned |
| TransformUtils.GetDimensionKey | scripts/silver/transform_utils.py:172-198 | a key is found exactly when some row matches |
| TransformUtils.UpsertThenGet | scripts/silver/transform_utils.py:114-198 | after a successful upsert that keeps the natural key, the lookup finds the key returned, and a table that had a match gained no row |
| TransformUtils.UpsertTwice | scripts/silver/transform_utils.py:114-170 | upserting the same natural key twice returns the same key and adds at most one row |
| TransformUtils.NullKeyAlwaysInserts | scripts/silver/transform_utils.py:136-165 | a NULL natural key never matches `= %s`, so every successful upsert with it inserts a row |
| PerformanceAggregation.NoTotalBetween | scripts/silver/etl_performance_aggregation.py:41 | a string without a truthy total sorts as the float `999.999`: after every total up to 999.999 and before every total from 1000.000 on, since that double is slightly above the decimal 999.999 |
| PerformanceAggregation.DropSlowestAtTie | scripts/silver/etl_performance_aggregation.py:36-47 | of five strings with totals 0.001, 0.002, 0.003, 999.999 and NULL, the NULL string is dropped and the other four are kept in order |
| PerformanceAggregation.DropSlowestFew | scripts/silver/etl_performance_aggregation.py:36-37 | with four strings or fewer the list comes back unchanged and nothing is dropped |
| PerformanceAggregation.DropSlowestMany | scripts/silver/etl_performance_aggregation.py:40-47 | with five or more exactly one string is dropped, the last of those with the largest key after a stable sort; the rest come back ascending, equal keys in input order, and with the dropped one they are a permutation of the input |
| PerformanceAggregation.SumOfSortBy | scripts/silver/etl_performance_aggregation.py:116-118 | sorting does not change a sum over the strings |
| PerformanceAggregation.DroppedLeavesSums | scripts/silver/etl_performance_aggregation.py:116-118 | the totals over the kept strings are the totals over all strings less the dropped string's own values |
| PerformanceAggregation.Pad4 | scripts/silver/etl_performance_aggregation.py:121-122 | padding keeps the list as a prefix, fills with `(0, None, None, None)` and reaches at least four entries |
| PerformanceAggregation.PadStrings | scripts/silver/etl_performance_aggregation.py:121-122 | the `while` loop computes exactly the padded list |
| PerformanceAggregation.CountRawAppend | scripts/silver/etl_performance_aggregation.py:126 | the count of strings with a raw time is additive over concatenation |
| PerformanceAggregation.PadKeepsCount | scripts/silver/etl_performance_aggregation.py:121-126 | padding adds no string with a raw time, so `strings_count` counts the kept strings that have one |
| PerformanceAggregation.CountRawAll | scripts/silver/etl_performance_aggregation.py:126 | when every string has a raw time, the count is the length |
| PerformanceAggregation.GroupKeys | scripts/silver/etl_performance_aggregation.py:84-92 | the keys of `entries_stages` are exactly the keys of the rows, each once, in first-occurrence order |
| PerformanceAggregation.GroupOf | scripts/silver/etl_performance_aggregation.py:84-92 | a key's list is empty exactly when no row has that key |
| PerformanceAggregation.GroupOfRows | scripts/silver/etl_performance_aggregation.py:84-92 | every listed string comes from a row with that key |
| PerformanceAggregation.GroupRows | scripts/silver/etl_performance_aggregation.py:84-92 | the grouping loop builds exactly the reference keys and lists |
| PerformanceAggregation.StageRecordFacts | scripts/silver/etl_performance_aggregation.py:109-132 | a record holds the first four kept strings then blanks, totals over the kept strings, `strings_count` over those with a raw time, and from five strings on the dropped number with totals short of exactly its values |
| PerformanceAggregation.StageRecordsSound | scripts/silver/etl_performance_aggregation.py:97-132 | every record is the record of one group, built with its stage's `dim_stage` key, and there is at most one per group |
| PerformanceAggregation.StageRecordsComplete | scripts/silver/etl_performance_aggregation.py:97-132 | every group whose stage number has a `dim_stage` key yields a record |
| PerformanceAggregation.AggregateStagePerformance | scripts/silver/etl_performance_aggregation.py:49-150 | after the query the loop builds exactly the reference records, in group order; their number is the count returned |
| PerformanceAggregation.Members | scripts/silver/etl_performance_aggregation.py:349-356 | a partition's eligible rows are exactly the rows of its key with a positive total |
| PerformanceAggregation.TextLeTotal | scripts/silver/etl_performance_aggregation.py:336 | text order is total |
| PerformanceAggregation.TextLeTrans | scripts/silver/etl_performance_aggregation.py:336 | text order is transitive |
| PerformanceAggregation.TextLeRefl | scripts/silver/etl_performance_aggregation.py:336 | text order is reflexive |
| PerformanceAggregation.MaxDivisionMeaning | scripts/silver/etl_performance_aggregation.py:336 | `MAX(division_name)` is one of the names, no name is above it, and it is NULL exactly when all are |
| PerformanceAggregation.TopFourLowest | scripts/silver/etl_performance_aggregation.py:350-362 | `rn <= 4` keeps min(4, n) eligible rows, none of them above a row left out |
| PerformanceAggregation.SquadTopFour | scripts/silver/etl_performance_aggregation.py:288-362 | a squad is the four (or fewer) eligible rows of its partition with the lowest totals, and `members_count` is their number |
| PerformanceAggregation.SquadTableSizes | scripts/silver/etl_performance_aggregation.py:360-365 | every squad stored joins a known team and discipline and has 1 to 4 members |
| PerformanceAggregation.MixedMeaning | scripts/silver/etl_performance_aggregation.py:337-340 | `is_mixed_division` holds exactly when two members have different non-NULL division names |
| PerformanceAggregation.GhostMeaning | scripts/silver/etl_performance_aggregation.py:342-345 | `has_ghost_athletes` needs a Rookie member and fewer than four members; in an all-Rookie squad it holds exactly when there are fewer than four |
| PerformanceAggregation.SqlSumNull | scripts/silver/etl_performance_aggregation.py:300-302 | SQL `SUM` is NULL exactly when every value is NULL |
| StagePerformance.StageOrderMeaning | scripts/silver/etl_stage_performance.py:55-58 | each stage appears once in the order of first appearance, and exactly the stages of the rows appear |
| StagePerformance.ShotsOfMeaning | scripts/silver/etl_stage_performance.py:56-64 | a stage's list holds exactly one dict for each of its rows |
| StagePerformance.ShotsOfAbsent | scripts/silver/etl_stage_performance.py:57-58 | a stage that has not appeared has an empty list |
| StagePerformance.GroupStages | scripts/silver/etl_stage_performance.py:55-64 | the grouping loop builds exactly the reference order and lists |
| StagePerformance.ValidMeaning | scripts/silver/etl_stage_performance.py:93 | the valid strings are exactly the dicts with a positive total |
| StagePerformance.Padded | scripts/silver/etl_stage_performance.py:117-122 | padding keeps the list as a prefix and fills with zero dicts up to four entries |
| StagePerformance.BuildStageAsWritten | scripts/silver/etl_stage_performance.py:67-146 | the stage loop body as written, its padding loop lengthening `valid_strings` through the shared list, computes the as-written stage row |
| StagePerformance.BuildStage | scripts/silver/etl_stage_performance.py:67-146 | the corrected stage loop body computes the corrected stage row: same guards, totals and padding, the count of valid strings and the slowest string's number |
| StagePerformance.AsWrittenDiffersInCountOnly | scripts/silver/etl_stage_performance.py:102-141 | the as-written and corrected rows are inserted in the same cases and differ at most in `strings_count` and `dropped_string_number` |
| StagePerformance.StageResultShape | scripts/silver/etl_stage_performance.py:69-146 | no row for an unknown stage number, a missing stage key or no valid string; otherwise the row keeps the four fastest of exactly five valid strings and all of them otherwise, its totals are over those, it counts the valid strings, and it has four string groups padded with zeros |
| StagePerformance.KeptAreFastest | scripts/silver/etl_stage_performance.py:93-105 | of five valid strings the four kept are ascending, and the one left out is the slowest and completes the permutation |
| StagePerformance.ValidShots | scripts/silver/etl_stage_performance.py:59-64 | every valid dict has its string number and a positive total |
| StagePerformance.RecordDropsSlowest | scripts/silver/etl_stage_performance.py:102-141 | the corrected record counts the valid strings, names a dropped string exactly when there are five, and names the slowest one |
| StagePerformance.DroppedIsLiteralFive | scripts/silver/etl_stage_performance.py:105 | as written, the dropped number is 5 even when string 1 is the slowest and is the one left out of the totals |
| StagePerformance.CountIncludesPadding | scripts/silver/etl_stage_performance.py:108-141 | as written, a stage with two valid strings records a count of 4, because the padding loop lengthens `valid_strings` through the shared list |
| StagePerformance.ProcessEntry | scripts/silver/etl_stage_performance.py:44-146 | one entry: its rows are grouped and each stage's corrected row (see Findings) is inserted in stage order; a failing `get_stage_key` query or INSERT raises, giving None |
| StagePerformance.EntryRunMeaning | scripts/silver/etl_stage_performance.py:67-146 | the stage loop raises exactly when one of its stages' `get_stage_key` query or INSERT fails; otherwise it inserts every stage's row |
| StagePerformance.ProcessStageAggregation | scripts/silver/etl_stage_performance.py:20-166 | it raises exactly when the entry query, a per-entry statement or the count after the commit fails; the single commit keeps the reference result of inserting every entry's corrected stage rows (see Findings) unless a statement before it failed, in which case the rollback leaves the table as it was; with no failure every entry is processed |
| StagePerformance.EntriesRunMeaning | scripts/silver/etl_stage_performance.py:42-164 | the entry loop raises exactly when some entry's strings query or stage statements fail; otherwise it inserts every entry's stage rows |
| StagePerformance.InsertStagesKeeps | scripts/silver/etl_stage_performance.py:137 | `DO NOTHING`: a row already stored is never replaced |
| StagePerformance.InsertEntriesKeeps | scripts/silver/etl_stage_performance.py:137 | existing rows survive a whole run unchanged |
| StagePerformance.InsertEntriesAddsOnlyEntries | scripts/silver/etl_stage_performance.py:42-146 | every row a run adds belongs to a processed entry, under its own entry and stage key |
| StagePerformance.InsertStagesAddsOnly | scripts/silver/etl_stage_performance.py:67-146 | every row one entry adds is that entry's, under its own stage key |
| TransformFacts.Present | scripts/silver/transform_facts.py:110-111 | the columns an INSERT names are at most those of the dict |
| TransformFacts.PresentMembers | scripts/silver/transform_facts.py:110-111 | a column is named exactly when the dict holds it with a value other than None |
| TransformFacts.PresentAppend | scripts/silver/transform_facts.py:110-111 | the filter keeps dict order: it distributes over concatenation |
| TransformFacts.Evaluate | scripts/silver/transform_facts.py:84-106 | the dict built from a column table has one column per entry, in table order, each holding its computed value |
| TransformFacts.EntryColumns | scripts/silver/transform_facts.py:84-106 | the `fact_data` dict of an athlete has its 21 columns |
| TransformFacts.SingleEntry | scripts/silver/transform_facts.py:54-131 | only `fact_entry` changes; no id leaves it unchanged; an id is the next serial key, new, and adds exactly that row, keeping the others |
| TransformFacts.Names | scripts/silver/transform_facts.py:113 | the names an INSERT lists are those of its fields, in order |
| TransformFacts.FlagsNamed | scripts/silver/transform_facts.py:97-101 | `safe_bool` never gives None, so every flag column is named by every INSERT |
| TransformFacts.ValuePresent | scripts/silver/transform_facts.py:110-111 | a column whose value is not None is named, with that value |
| TransformFacts.NoneAbsent | scripts/silver/transform_facts.py:110-111 | a name only a None column carries is never named |
| TransformFacts.SingleEntryCreated | scripts/silver/transform_facts.py:54-131 | an entry is created exactly for a dict whose date and registration date evaluate without raising and whose insert succeeds |
| TransformFacts.RegDateBeforeSpace | scripts/silver/transform_facts.py:73 | the registration date key is that of the text before the first space |
| TransformFacts.PositionAt | scripts/silver/transform_facts.py:141-142 | step 5·(stage−1) + n − 1 of the nested loops is at stage `stage`, string n |
| TransformFacts.PosAtAscending | scripts/silver/transform_facts.py:141-142 | later steps visit later positions |
| TransformFacts.PositionsOrder | scripts/silver/transform_facts.py:141-142 | the 20 steps visit every position of stages 1-4 and strings 1-5 once, in stage-major ascending order |
| TransformFacts.FieldNamesDistinct | scripts/silver/transform_facts.py:145-147 | `spp{s}_{n}`, `spp{s}_pen{n}` and `spp{s}_tot{n}` are distinct, and two positions never share a name |
| TransformFacts.RowAt | scripts/silver/transform_facts.py:155-159 | the row inserted at a position carries that position and the entry id |
| TransformFacts.StringsRaised | scripts/silver/transform_facts.py:138-168 | once an insert raised, the rest of the loops do not run |
| TransformFacts.WrittenRows | scripts/silver/transform_facts.py:149-161 | every row written carries the entry id and a value and is the row of a position visited so far |
| TransformFacts.WrittenOrder | scripts/silver/transform_facts.py:141-142 | rows are written in ascending (stage, string) order |
| TransformFacts.WrittenComplete | scripts/silver/transform_facts.py:153-154 | without an exception, a visited position's row is written exactly when one of its three values parses |
| TransformFacts.TransformEntryStrings | scripts/silver/transform_facts.py:133-168 | the rows written are appended to the table; the count returned is their number, or 0 when an exception ended the loops (the rows written stay) |
| TransformFacts.StringLoops | scripts/silver/transform_facts.py:141-162 | the nested loops compute the reference run over the 20 positions |
| TransformFacts.StringPass | scripts/silver/transform_facts.py:144-162 | the loop body at one position is one step of the reference run |
| TransformFacts.StringsCount | scripts/silver/transform_facts.py:141-164 | a call inserts at most 20 rows, each with a value |
| TransformFacts.NoFailureNoRaise | scripts/silver/transform_facts.py:138-168 | without a failing insert the loops over a dict never raise |
| TransformFacts.DisciplinesConcat | scripts/silver/transform_facts.py:34-40 | the athletes of a team are its disciplines' athlete lists, concatenated in order |
| TransformFacts.AthleteStepOwned | scripts/silver/transform_facts.py:40-45 | an athlete step keeps every string row owned by a stored entry, and changes no dimension or schedule row |
| TransformFacts.AthletesOwned | scripts/silver/transform_facts.py:40-45 | the same over a list of athletes |
| TransformFacts.PayloadsOwned | scripts/silver/transform_facts.py:25-48 | string rows are created only for entries that got an id, over the whole run |
| TransformFacts.AthletesCount | scripts/silver/transform_facts.py:40-45 | `string_count` grows exactly by the string rows inserted, and `entry_count` by at most one per athlete |
| TransformFacts.VisitAthlete | scripts/silver/transform_facts.py:41-45 | the athlete loop body is one reference athlete step |
| TransformFacts.FinishAthlete | scripts/silver/transform_facts.py:42-45 | strings are transformed only for an entry that got an id, and counted |
| TransformFacts.TransformScoreboardToFacts | scripts/silver/transform_facts.py:15-52 | every payload and every athlete of it in loop order; the database and both logged counts are those of the reference run, an exception ending only its own payload |
| TransformFacts.ScheduleSpecs | scripts/silver/transform_facts.py:207-217 | nine columns; `competition_key` is always None and `slot_key` is the slot's key |
| TransformFacts.ScheduleColumns | scripts/silver/transform_facts.py:207-217 | the dict of a lineup entry has its nine columns |
| TransformFacts.LineupRowsShape | scripts/silver/transform_facts.py:200-228 | every inserted schedule row names `slot_key` and never `competition_key` |
| TransformFacts.SlotWithoutRid | scripts/silver/transform_facts.py:189-191 | a slot without a truthy `rid` adds no row and does not end the payload |
| TransformFacts.TransformScheduleToFacts | scripts/silver/transform_facts.py:170-237 | the schedule table gains exactly each payload's lineup rows, in order, and `schedule_count` is their number |
| TransformFacts.ScheduleAllSnoc | scripts/silver/transform_facts.py:179-233 | one more payload appends its own rows |
| ScoreboardTransform.DigitRun | src/SilverScoreboardTransform.py:106 | a greedy `\d+` takes the whole run of digits at the front and stops at a non-digit |
| ScoreboardTransform.DigitRunOf | src/SilverScoreboardTransform.py:106 | a digit string followed by a non-digit, or nothing, is exactly the greedy run |
| ScoreboardTransform.SppKeyOf | src/SilverScoreboardTransform.py:106-109 | `spp<stage>_<series>` parses back to its two numbers, with or without a final newline that `$` accepts |
| ScoreboardTransform.SppKeyRejectsTag | src/SilverScoreboardTransform.py:106 | a non-digit right after `spp<digits>_` gives no series result |
| ScoreboardTransform.SppKeyRejects | src/SilverScoreboardTransform.py:106 | the penalty and total columns `spp<s>_pen<n>` and `spp<s>_tot<n>` are not series results |
| ScoreboardTransform.SppKeyChars | src/SilverScoreboardTransform.py:106 | a series key consists of `s`, `p`, digits, `_` and newlines |
| ScoreboardTransform.SeriesCharsNotPenalty | src/SilverScoreboardTransform.py:118 | a text made of series characters holds none of the penalty words |
| ScoreboardTransform.SppKeyNotPenalty | src/SilverScoreboardTransform.py:106-128 | a series key is never also taken for a penalty |
| ScoreboardTransform.PenaltyGroupsOf | src/SilverScoreboardTransform.py:126-128 | after the prefix, `<a>` gives stage a and no series, `<a>_<b>` stage a and series b, and a leading `_` is skipped |
| ScoreboardTransform.PenaltyGroupsNone | src/SilverScoreboardTransform.py:127-128 | neither `_` nor a digit where the groups start gives stage 0 and no series |
| ScoreboardTransform.PenaltyPosOfPen | src/SilverScoreboardTransform.py:126-128 | `pen<stage>_<series>` and `pen<stage>` are filed under the numbers they carry |
| ScoreboardTransform.PenaltyPosOfPenalty | src/SilverScoreboardTransform.py:125-128 | corrected: `penalty_<stage>_<series>` is filed under the numbers it carries, as the comment on line 125 intends |
| ScoreboardTransform.PenaltyAsWrittenDropsNumbers | src/SilverScoreboardTransform.py:126-128 | as written, the `pen` alternative matches first, so `penalty_<stage>_<series>` is filed under stage 0 with no series |
| ScoreboardTransform.SppPenIsPenalty | src/SilverScoreboardTransform.py:118-128 | the column `spp<s>_pen<n>` is taken for a penalty and filed under stage 0 with no series |
| ScoreboardTransform.PenaltyPosAgrees | src/SilverScoreboardTransform.py:126-128 | the corrected and the as-written mappings agree on every key that does not start with `penalty` |
| ScoreboardTransform.SeriesValueIsSafeFloat | src/SilverScoreboardTransform.py:110-113 | the `None`/`''` guard changes nothing: the series value is the safe `float` conversion |
| ScoreboardTransform.SqlSumNone | src/SilverScoreboardTransform.py:146-156 | SQL `SUM` is NULL exactly when every value is NULL |
| ScoreboardTransform.SqlSumAppend | src/SilverScoreboardTransform.py:157-162 | the final time is the SUM over the stage's series values and penalties taken together |
| ScoreboardTransform.StageFinalMeaning | src/SilverScoreboardTransform.py:157-162 | the final time is NULL exactly when both sums are, and is the other sum when one of them is NULL |
| ScoreboardTransform.FindSeries | src/SilverScoreboardTransform.py:73-77 | the index of the first row holding a key, or the length of the rows when none does |
| ScoreboardTransform.UpsertSeriesMeaning | src/SilverScoreboardTransform.py:73-77 | the series upsert keeps keys unique, adds the key, writes value and payload to the one row holding it, changes no other row, and adds a row only for a new key |
| ScoreboardTransform.SeriesFieldsKeys | src/SilverScoreboardTransform.py:105-114 | the series loop keeps keys unique and adds exactly the keys the items name |
| ScoreboardTransform.SeriesFieldsNoGrowth | src/SilverScoreboardTransform.py:105-114 | items whose keys are all present add no row |
| ScoreboardTransform.SeriesReprocess | src/SilverScoreboardTransform.py:105-114 | processing the same items again adds no series row |
| ScoreboardTransform.PenaltyFields | src/SilverScoreboardTransform.py:117-129 | the penalty loop keeps earlier rows, and every added row is this athlete's, filed by a penalty key under its corrected position |
| ScoreboardTransform.StageTotalsAdd | src/SilverScoreboardTransform.py:144-166 | one more stage upserts its own total |
| ScoreboardTransform.WithTotalsMeaning | src/SilverScoreboardTransform.py:131-166 | every stage with a series result or a penalty gets a total whose final time is the SUM over both; totals of other athletes and scoreboards are unchanged |
| ScoreboardTransform.AthleteStep | src/SilverScoreboardTransform.py:100-166 | one athlete raises exactly when it is not a dict, and otherwise keeps the tables valid and the scoreboards unchanged |
| ScoreboardTransform.Children | src/SilverScoreboardTransform.py:90-99 | `x or []` iterates a list's items and nothing for a falsy value |
| ScoreboardTransform.ProcessRowScoreboard | src/SilverScoreboardTransform.py:24-37 | a processed row leaves its scoreboard row holding the payload's name and the raw id, under the payload's `id` when it is not None |
| ScoreboardTransform.Selected | src/SilverScoreboardTransform.py:177-182 | a falsy `raw_id` selects every row; a truthy one selects only rows with that id |
| ScoreboardTransform.Matching | src/SilverScoreboardTransform.py:178 | `WHERE id = %s` gives exactly the rows with that id |
| ScoreboardTransform.AthletesRaise | src/SilverScoreboardTransform.py:100-166 | once an athlete raises, the athlete loop has raised |
| ScoreboardTransform.DisciplinesRaise | src/SilverScoreboardTransform.py:96-166 | once a discipline raises, the discipline loop has raised |
| ScoreboardTransform.TeamsRaise | src/SilverScoreboardTransform.py:91-166 | once a team raises, the team loop has raised |
| ScoreboardTransform.RunRowsRaised | src/SilverScoreboardTransform.py:183-187 | once a row raises, later rows change nothing |
| ScoreboardTransform.PivotSeries | src/SilverScoreboardTransform.py:105-114 | the series loop computes exactly the reference series rows |
| ScoreboardTransform.InsertPenalties | src/SilverScoreboardTransform.py:117-129 | the penalty loop computes exactly the reference penalty rows, with the corrected penalty pattern (see Findings) |
| ScoreboardTransform.WriteTotals | src/SilverScoreboardTransform.py:144-166 | the stage loop, in whatever order the set yields the stages, computes exactly the reference totals |
| ScoreboardTransform.ProcessAthlete | src/SilverScoreboardTransform.py:100-166 | one athlete by the loop is the reference athlete step, with the corrected penalty pattern (see Findings) |
| ScoreboardTransform.ProcessDiscipline | src/SilverScoreboardTransform.py:96-166 | one discipline by the loop is the reference discipline step, with the corrected penalty pattern (see Findings) |
| ScoreboardTransform.ProcessTeam | src/SilverScoreboardTransform.py:92-166 | one team by the loop is the reference team step, with the corrected penalty pattern (see Findings) |
| ScoreboardTransform.ProcessRawRow | src/SilverScoreboardTransform.py:85-168 | `process_raw_row` by the loops is the reference row effect, with the corrected penalty pattern (see Findings) |
| ScoreboardTransform.RunOne | src/SilverScoreboardTransform.py:183-187 | one turn of the row loop processes the row or stops at a raise, and results follow the rows in order |
| ScoreboardTransform.Run | src/SilverScoreboardTransform.py:170-192 | with no raise the tables are those after every selected row (with the corrected penalty pattern) and there is one result per row; a raise rolls the transaction back to the tables as before, while the results of earlier rows are still written out |
| TransformDimensions.With | scripts/silver/transform_dimensions.py:15-341 | replacing one dimension table leaves every other table and the date rows as they were |
| TransformDimensions.UpsertInto | scripts/silver/transform_utils.py:114-170 | an upsert that fails rolls the connection back to the state at the transform's start |
| TransformDimensions.UpsertIntoMeaning | scripts/silver/transform_utils.py:114-170 | an upsert fails exactly when the database refuses it; a successful one leaves its natural key findable under the returned key, adds at most one row and changes no other table and no date |
| TransformDimensions.FirstSeenKeys | scripts/silver/transform_dimensions.py:95-96 | the seen-set guard issues each key at most once and never an already seen one, and issues every other key offered, by its first candidate |
| TransformDimensions.FirstSeenAppend | scripts/silver/transform_dimensions.py:78-129 | offering two lists in turn: the keys of the first are seen by the time the second is offered |
| TransformDimensions.ApplyAllAppend | scripts/silver/transform_dimensions.py:84-141 | issuing the upserts of two lists in turn is issuing their concatenation |
| TransformDimensions.Guard | scripts/silver/transform_dimensions.py:95-110 | `if key not in seen: seen.add(key); upsert_dimension(...)`: the key is added to the set, and the upsert is issued exactly when it was unseen |
| TransformDimensions.PayloadCompetitions | scripts/silver/transform_dimensions.py:30 | a dict without `data` is one competition, a dict with `data` iterates it, and a non-dict raises |
| TransformDimensions.CompetitionRangeLoop | scripts/silver/transform_dimensions.py:93-110 | the competitions of one payload keep the loop's facts up to an exception |
| TransformDimensions.CompetitionPayloadLoop | scripts/silver/transform_dimensions.py:84-112 | every competition payload, each up to its own exception, keeps the loop's facts |
| TransformDimensions.TeamRangeLoop | scripts/silver/transform_dimensions.py:118-142 | the team payloads complete the range upserts the loop's facts plan |
| TransformDimensions.TransformRanges | scripts/silver/transform_dimensions.py:74-145 | the upserts issued are exactly the first occurrence of every range id, competitions first, and the range table is what they leave |
| TransformDimensions.RangesUpsertedOnce | scripts/silver/transform_dimensions.py:78-129 | no range id is upserted twice, and every range id either phase offers is upserted |
| TransformDimensions.CompetitionRangesFirst | scripts/silver/transform_dimensions.py:84-129 | the competition ranges come first; a team's range is upserted only when no competition carried its id |
| TransformDimensions.TeamRangePlaceholder | scripts/silver/transform_dimensions.py:126-139 | a team with a non-zero integer `home_range_id` offers that range under the name `Range <id>` |
| TransformDimensions.CompetitionRangesTruthy | scripts/silver/transform_dimensions.py:95-109 | every range offered by a competition has a truthy, hashable id, which is also its natural key |
| TransformDimensions.TeamUpserts | scripts/silver/transform_dimensions.py:154-181 | at most one upsert per team payload |
| TransformDimensions.TeamUpsertsTruthy | scripts/silver/transform_dimensions.py:162-178 | only payloads with a truthy id reach `upsert_dimension`, each under that id |
| TransformDimensions.TransformTeams | scripts/silver/transform_dimensions.py:147-185 | one upsert per payload that is a dict with a truthy `id`, in order |
| TransformDimensions.SlotRaiseEndsPayload | scripts/silver/transform_dimensions.py:204-226 | a slot that is not a dict ends its payload: no later slot is upserted |
| TransformDimensions.SlotLoop | scripts/silver/transform_dimensions.py:204-224 | the slots of one payload issue their upserts, up to an exception |
| TransformDimensions.TransformScheduleSlots | scripts/silver/transform_dimensions.py:188-229 | one upsert per dict slot with a truthy `rid`, in loop order |
| TransformDimensions.NoRangeNoRangeId | scripts/silver/transform_dimensions.py:51 | without a range the competition's `range_id_nat` is NULL |
| TransformDimensions.EnsureDates | scripts/silver/transform_dimensions.py:61-64 | ensuring the dates keeps every date row there was; on an aborted transaction no row is added and it stays aborted |
| TransformDimensions.CompetitionStep | scripts/silver/transform_dimensions.py:54-59 | after a swallowed failure has aborted the transaction, the next competition's upsert rolls back to the transform's start and ensures no dates |
| TransformDimensions.FalsyIdSkipped | scripts/silver/transform_dimensions.py:33-34 | a competition with a falsy id changes nothing and does not end the payload |
| TransformDimensions.CompetitionStepMeaning | scripts/silver/transform_dimensions.py:32-66 | a competition with a truthy id whose upsert succeeds is findable by that id, changes no other dimension and keeps every date row; a failed upsert, or any upsert on an aborted transaction, returns to the transform's start with the transaction open again |
| TransformDimensions.CompetitionColumnsOmitKey | scripts/silver/transform_dimensions.py:36-53 | the natural key is not among the columns, so `upsert_dimension` adds it itself |
| TransformDimensions.EnsureDateLoop | scripts/silver/transform_dimensions.py:61-64 | the date loop computes exactly the reference date run |
| TransformDimensions.ProcessCompetition | scripts/silver/transform_dimensions.py:32-66 | one competition by the loop is the reference competition step |
| TransformDimensions.TransformCompetitions | scripts/silver/transform_dimensions.py:15-71 | `transform_competitions` by the loops is the reference run over the payloads, its final commit a rollback to the start when the transaction is still aborted |
| TransformDimensions.FreshCandidate | scripts/silver/transform_dimensions.py:259-273 | a fresh athlete yields an unseen pair of non-zero discipline and competition ids |
| TransformDimensions.DisciplinePickTakes | scripts/silver/transform_dimensions.py:258-277 | the first athlete with a fresh pair is the one taken |
| TransformDimensions.DisciplinePickRaises | scripts/silver/transform_dimensions.py:258-262 | a non-dict athlete before any fresh one raises |
| TransformDimensions.DisciplinePickSkips | scripts/silver/transform_dimensions.py:258-277 | with no fresh athlete and no non-dict the discipline issues nothing |
| TransformDimensions.DisciplinePickTaken | scripts/silver/transform_dimensions.py:262-273 | a taken pair is unseen, has two non-zero ids and is upserted under its discipline id with its name and competition id |
| TransformDimensions.Take1 | scripts/silver/transform_dimensions.py:262-273 | the pair is added to the set, logged and upserted |
| TransformDimensions.DisciplineStep | scripts/silver/transform_dimensions.py:253-277 | one discipline issues at most one upsert |
| TransformDimensions.DisciplinesRun | scripts/silver/transform_dimensions.py:252-277 | at most one upsert per discipline |
| TransformDimensions.DisciplinesUpsertedOnce | scripts/silver/transform_dimensions.py:232-282 | no pair is upserted twice, and the discipline table is what the upserts leave, each under non-zero discipline and competition ids |
| TransformDimensions.PickLoop | scripts/silver/transform_dimensions.py:258-277 | the athlete loop with its `break` computes exactly the reference pick |
| TransformDimensions.VisitDiscipline | scripts/silver/transform_dimensions.py:253-277 | one discipline by the loop is the reference discipline step |
| TransformDimensions.DisciplineLoop | scripts/silver/transform_dimensions.py:252-277 | the disciplines of one team by the loop are the reference run |
| TransformDimensions.TeamLoop | scripts/silver/transform_dimensions.py:250-277 | the teams of one payload by the loop are the reference run |
| TransformDimensions.TransformDisciplines | scripts/silver/transform_dimensions.py:232-282 | `extract_disciplines_from_scoreboard` returns the discipline table and the upserts of the reference run |
| TransformDimensions.AthleteUpsertsKeyed | scripts/silver/transform_dimensions.py:309-332 | every athlete candidate is keyed by a non-zero id, which is also its natural key |
| TransformDimensions.AthleteRaiseEndsPayload | scripts/silver/transform_dimensions.py:309-338 | an athlete that is not a dict ends its payload: no later athlete is upserted |
| TransformDimensions.AthletesUpsertedOnce | scripts/silver/transform_dimensions.py:289-313 | no athlete id is upserted twice, and every id offered is upserted |
| TransformDimensions.AthleteLoop | scripts/silver/transform_dimensions.py:309-332 | the athletes of one payload keep the loop's facts up to an exception |
| TransformDimensions.TransformAthletes | scripts/silver/transform_dimensions.py:285-341 | the upserts issued are the first occurrence of every athlete id, and the athlete table is what they leave |
| TransformDimensions.RangesStage | scripts/silver/transform_dimensions.py:74-145 | `transform_ranges` commits and writes only the range table |
| TransformDimensions.CompetitionsStage | scripts/silver/transform_dimensions.py:15-71 | `transform_competitions` writes only the competition table and the date rows |
| TransformDimensions.TeamsStage | scripts/silver/transform_dimensions.py:147-185 | `transform_teams` writes only the team table |
| TransformDimensions.SlotsStage | scripts/silver/transform_dimensions.py:188-229 | `transform_schedule_slots` writes only the slot table |
| TransformDimensions.DisciplinesStage | scripts/silver/transform_dimensions.py:232-282 | `extract_disciplines_from_scoreboard` writes only the discipline table |
| TransformDimensions.AthletesStage | scripts/silver/transform_dimensions.py:285-341 | `extract_athletes_from_scoreboard` writes only the athlete table |
| TransformDimensions.OwnTablesChain | scripts/silver/transform_dimensions.py:353-358 | tables a later transform leaves alone keep what their own transform wrote |
| TransformDimensions.DimensionsOwnTables | scripts/silver/transform_dimensions.py:344-365 | each transform commits before the next, so a later rollback never reaches an earlier table: every dimension ends as its own transform left it |
| TransformDimensions.TransformAll | scripts/silver/transform_dimensions.py:344-367 | `main()` runs the six transforms in dependency order, each on what the previous one committed |
| CompetitionTransform.NaturalDim | src/SilverCompetitionTransform.py:81-106 | a falsy object or a None id gives no key; a truthy non-dict raises; otherwise the id names the row, which is inserted with its columns when missing and left alone when present |
| CompetitionTransform.GetOrInsert | src/SilverCompetitionTransform.py:115-120 | a lookup that finds the key returns its row and writes nothing; otherwise `INSERT … RETURNING` adds one row under a new key |
| CompetitionTransform.CodeDim | src/SilverCompetitionTransform.py:109-134 | a falsy object or a None id gives no key; a truthy non-dict raises; a found external id is returned with nothing written |
| CompetitionTransform.TeamDim | src/SilverCompetitionTransform.py:32-79 | a falsy object or a None id gives no key; the team found by the schema's lookup value is returned unchanged; under the name schema a None name matches nothing and a row is inserted |
| CompetitionTransform.DimRepeat | src/SilverCompetitionTransform.py:19-134 | a second call with the same object returns the same key and changes nothing, except a None name under the name schema |
| CompetitionTransform.ExternalId | src/SilverCompetitionTransform.py:139 | `id or external_id or raw_id`: the first truthy of the two keys, else the raw id |
| CompetitionTransform.StageNameFallback | src/SilverCompetitionTransform.py:180-183 | the stage name is the first truthy of its three keys, else the value of the last |
| CompetitionTransform.StagePlanMeaning | src/SilverCompetitionTransform.py:179-185 | a new competition gets stage m in 1..4 exactly when its name is truthy, with that name, and no other stage row |
| CompetitionTransform.UpsertCompetition | src/SilverCompetitionTransform.py:137-187 | a competition already stored under its external id is returned and nothing is written; a new one gets its header row under a new key and its stage rows |
| CompetitionTransform.DimStep | src/SilverCompetitionTransform.py:207-218 | one lookup writes only dimension rows; the contact is looked up only when it is a dict |
| CompetitionTransform.InvitedStep | src/SilverCompetitionTransform.py:224-227 | one invited team adds only bridge rows for this competition and team rows |
| CompetitionTransform.InvitedRun | src/SilverCompetitionTransform.py:223-227 | the invited loop keeps existing bridge rows and adds only rows for this competition |
| CompetitionTransform.After | src/SilverCompetitionTransform.py:229 | the ids already collected go in front of the ids of the rest |
| CompetitionTransform.Items | src/SilverCompetitionTransform.py:196-203 | the items are the `data` list of a dict, a top-level list, or the payload alone |
| CompetitionTransform.Process | src/SilverCompetitionTransform.py:190-231 | a row that goes through returns one competition id per item |
| CompetitionTransform.Selected | src/SilverCompetitionTransform.py:239-244 | a truthy `raw_id` selects exactly the rows with that id; otherwise every row |
| CompetitionTransform.Tagged | src/SilverCompetitionTransform.py:251-253 | one `{raw_id, competition_id}` entry per competition id, in order |
| CompetitionTransform.RunRowsIds | src/SilverCompetitionTransform.py:245-253 | every result entry names the raw id of a row that was run |
| CompetitionTransform.Run | src/SilverCompetitionTransform.py:234-259 | an exception leaves the database as it was and writes no result file |
| CompetitionTransform.RunSelectedOnly | src/SilverCompetitionTransform.py:239-253 | with a truthy raw id every result entry is for that raw row |
| CompetitionTransform.DimStepFixed | src/SilverCompetitionTransform.py:207-218 | a lookup done once finds its entries again on any database that holds them and writes nothing |
| CompetitionTransform.DimsFrame | src/SilverCompetitionTransform.py:207-218 | the lookups write only dimension tables: competitions, stages, bridge rows and states are untouched |
| CompetitionTransform.TeamDimFixed | src/SilverCompetitionTransform.py:32-79 | a team looked up once is found again with the same key |
| CompetitionTransform.ItemStepFixed | src/SilverCompetitionTransform.py:205-229 | an item processed once is found again: same competition id, nothing written |
| CompetitionTransform.ProcessIdempotent | src/SilverCompetitionTransform.py:190-231 | when `dim_team` is not keyed by name (`Relookup`), processing a raw row again returns the same competition ids and leaves every table as it was; keyed by name, a team with no name matches `team_name = NULL` nowhere and is inserted again |
| CompetitionTransform.WriteStages | src/SilverCompetitionTransform.py:181-185 | the stage loop writes exactly the planned stage rows |
| CompetitionTransform.UpsertCompetitionRow | src/SilverCompetitionTransform.py:137-187 | `upsert_competition` by the loop is the reference upsert |
| CompetitionTransform.InvitedLoop | src/SilverCompetitionTransform.py:222-227 | the invited loop computes exactly the reference invited run |
| CompetitionTransform.RunLoop | src/SilverCompetitionTransform.py:234-259 | `run` by the loop is the reference run |
| CompetitionTransform.RowsLoop | src/SilverCompetitionTransform.py:245-253 | the row loop computes exactly the reference row run |
| CompetitionTransform.ProcessItem | src/SilverCompetitionTransform.py:205-229 | one item by the loop is the reference item step |
| CompetitionTransform.ProcessRawRow | src/SilverCompetitionTransform.py:190-231 | `process_raw_row` by the loop is the reference row effect |
| TeamTransform.FirstTruthy | src/SilverTeamTransform.py:143-147 | the first truthy value among the keys, or None |
| TeamTransform.ExtractId | src/SilverTeamTransform.py:141-147 | `extract_id_from_payload`: the first truthy of `id`, `ent_id`, `team_id`, else None |
| TeamTransform.SourceEntIdFallback | src/SilverTeamTransform.py:86 | the `source_ent_id` chain is the `str()` of the first truthy of `id`, `ent_id`, `team_id`, else of the raw id: the helper adds nothing |
| TeamTransform.TeamName | src/SilverTeamTransform.py:87-93 | the team name is the `or` chain ending in `source_ent_id`, a dict or list printed as JSON, and never a dict or list |
| TeamTransform.Place | src/SilverTeamTransform.py:94-102 | a dict or list place column becomes a string; any other value passes unchanged |
| TeamTransform.Without | src/SilverTeamTransform.py:106 | the comprehension keeps only fields of the payload whose key is not excluded |
| TeamTransform.Metadata | src/SilverTeamTransform.py:104-108 | `meta or metadata`: None builds the metadata from the payload, a dict is kept, any other value is wrapped under `value`; the result is always a dict |
| TeamTransform.WithoutLookup | src/SilverTeamTransform.py:106 | a key of the built metadata holds the payload's value exactly when it is not one of the excluded keys |
| TeamTransform.MetadataFromPayload | src/SilverTeamTransform.py:104-106 | without `meta`/`metadata`, the metadata holds exactly the payload's keys other than the ten column keys, with the payload's values |
| TeamTransform.Coalesced | src/SilverTeamTransform.py:39-46 | on conflict the name is overwritten and a NULL country, city, state or metadata keeps the stored value |
| TeamTransform.UpsertTeam | src/SilverTeamTransform.py:32-68 | the modern upsert by `(source, source_ent_id)` when it is not refused; otherwise a rollback to the transaction's start and the legacy upsert by `ent_id`, whose refusal raises |
| TeamTransform.ModernTeamStable | src/SilverTeamTransform.py:35-51 | upserting the same team twice under the modern schema returns the same `team_id` and updates that one row |
| TeamTransform.InsertSnapshot | src/SilverTeamTransform.py:71-77 | every call appends one snapshot under a new id with the payload's hash; a refused insert raises |
| TeamTransform.HashKeyOrder | src/SilverTeamTransform.py:24-29 | two payloads that differ only in the order of their dicts' items, at any depth, get the same hash |
| TeamTransform.Renames | src/SilverTeamTransform.py:124 | a person conflict overwrites the three names and keeps country and metadata |
| TeamTransform.MemberStep | src/SilverTeamTransform.py:116-136 | a member without an id is skipped; a non-dict raises; a refused person insert raises; mappings stored earlier stay |
| TeamTransform.MemberStepWrites | src/SilverTeamTransform.py:119-136 | a member with an id upserts its person and maps it, unless the database refuses the mapping |
| TeamTransform.MembersWithoutIds | src/SilverTeamTransform.py:119-121 | a roster whose members carry no id changes nothing |
| TeamTransform.MembersKeepMappings | src/SilverTeamTransform.py:131-134 | `ON CONFLICT DO NOTHING`: a mapping once stored keeps the raw id that first inserted it |
| TeamTransform.Process | src/SilverTeamTransform.py:80-138 | a payload that is not a dict raises; a row that goes through reports its raw id |
| TeamTransform.ProcessAppendsSnapshot | src/SilverTeamTransform.py:110-111 | a processed row appends exactly one snapshot on top of the state its team upsert left, and its `team_id` is the team's key |
| TeamTransform.FallbackDiscardsEarlierRows | src/SilverTeamTransform.py:52-68 | the legacy fallback's rollback discards the snapshots earlier rows of the run appended |
| TeamTransform.Selected | src/SilverTeamTransform.py:157-162 | a truthy `raw_id` selects exactly the rows with that id; every selected row is a row of the table |
| TeamTransform.SortedFromTable | src/SilverTeamTransform.py:161 | `ORDER BY id` gives the rows of the table, in ascending id order |
| TeamTransform.RunRowsResults | src/SilverTeamTransform.py:163-167 | one result per processed row, in order; all of them when no row raised |
| TeamTransform.Commit | src/SilverTeamTransform.py:155 | `with conn:` commits, and an aborted transaction is rolled back |
| TeamTransform.Run | src/SilverTeamTransform.py:150-172 | a raise rolls the whole run back; the results written out follow the selected rows and number all of them when no row raised |
| TeamTransform.ExtractIdFromPayload | src/SilverTeamTransform.py:141-147 | the key loop is the reference `extract_id_from_payload` |
| TeamTransform.MembersLoop | src/SilverTeamTransform.py:115-136 | the roster loop computes exactly the reference member run |
| TeamTransform.ProcessRawRow | src/SilverTeamTransform.py:80-138 | `process_raw_row` by the loop is the reference row effect |
| TeamTransform.RowsLoop | src/SilverTeamTransform.py:163-167 | the row loop computes exactly the reference row run |
| TeamTransform.RunTransform | src/SilverTeamTransform.py:150-172 | `run` by the loop is the reference run |
| ScheduleTransform.Columns | src/SilverScheduleTransform.py:36-41 | for a dict, one column per listed field holding `obj.get(field)` |
| ScheduleTransform.OverlayUpsert | src/SilverScheduleTransform.py:42-51 | an `ON CONFLICT … DO UPDATE` upsert writes exactly its one planned row |
| ScheduleTransform.OverlayThen | src/SilverScheduleTransform.py:88-101 | writing one plan and then another writes both, the later write winning |
| ScheduleTransform.OverlayFixed | src/SilverScheduleTransform.py:42-51 | writing rows the table already holds changes no row |
| ScheduleTransform.PlanAt | src/SilverScheduleTransform.py:92-101 | `enumerate(…, start=1)`: item j is written under index k + j with its own columns |
| ScheduleTransform.PlanKeys | src/SilverScheduleTransform.py:92-101 | no other key is written: every planned row is under the parent, at an index between k and k + n - 1 |
| ScheduleTransform.ItemsRunWrites | src/SilverScheduleTransform.py:95-101 | the flight or lineup loop raises exactly when an item is not a dict or a statement is refused; otherwise exactly the planned rows are written |
| ScheduleTransform.SlotStepWrites | src/SilverScheduleTransform.py:93-101 | one slot raises exactly when it does not go through, and otherwise writes its row, its flights and its lineup |
| ScheduleTransform.SlotsRunWrites | src/SilverScheduleTransform.py:92-101 | the slot loop raises exactly when a slot does not go through; otherwise the planned rows are written |
| ScheduleTransform.ProcessWrites | src/SilverScheduleTransform.py:88-102 | `process_raw_row` returns exactly when the payload goes through; the schedule is upserted under `raw_id` (a present row keeps its `schedule_id`), slots get indices 1..n in list order, and every slot's flights and lineup are numbered from 1 under that slot's key |
| ScheduleTransform.ProcessWithoutSlots | src/SilverScheduleTransform.py:90-91 | a payload with no truthy `slots` writes only its schedule row, and goes through exactly when that statement does |
| ScheduleTransform.ProcessIdempotent | src/SilverScheduleTransform.py:20-102 | reprocessing a raw row that went through returns the same `schedule_id` and changes no row of any table |
| ScheduleTransform.UpsertItems | src/SilverScheduleTransform.py:95-101 | the flight or lineup loop computes exactly the reference item run |
| ScheduleTransform.ProcessSlot | src/SilverScheduleTransform.py:93-101 | one slot by the loop is the reference slot step |
| ScheduleTransform.SlotLoop | src/SilverScheduleTransform.py:92-101 | the slot loop with `enumerate(slots, start=1)` is the reference slot run from index 1 |
| ScheduleTransform.ProcessRawRow | src/SilverScheduleTransform.py:88-102 | `process_raw_row` by the loops is the reference row effect |
| Rankings.SqlSum | scripts/silver/etl_rankings.py:195 | SQL `SUM` is NULL exactly when no value is non-NULL |
| Rankings.SqlAvg | scripts/silver/etl_rankings.py:81 | SQL `AVG` is taken over at least one non-NULL value, and is NULL otherwise |
| Rankings.InitCapFrom | scripts/silver/etl_rankings.py:120 | `INITCAP` changes only letter case: the text keeps its length |
| Rankings.DivisionOf | scripts/silver/etl_rankings.py:79-85 | `COALESCE(dc.division_name, 'Open')` through a left join is `Open` exactly when the class is missing, has no division name, or its division is named `Open` |
| Rankings.Award | scripts/silver/etl_rankings.py:137-145 | places 1-3 get `1st/2nd/3rd Place` with the suffix, ranks 4-5 `Top 5`, then `Top 10%` or `Top 25%` by percentile, and no award exactly when none applies |
| Rankings.StageRows | scripts/silver/etl_rankings.py:72-89 | the stage rows kept are exactly those of the selected competition whose athlete exists |
| Rankings.StageTimes | scripts/silver/etl_rankings.py:80-81 | every time of a group comes from a stage row of that group |
| Rankings.Performances | scripts/silver/etl_rankings.py:72-89 | one performance per competition, athlete and discipline of the selected rows, each with an existing athlete |
| Rankings.Peers | scripts/silver/etl_rankings.py:94-104 | the partition of a performance holds it, with its best time |
| Rankings.IndividualRankings | scripts/silver/etl_rankings.py:107-153 | every inserted row is of the selected competition and of an existing discipline |
| Rankings.SquadRows | scripts/silver/etl_rankings.py:165-186 | the squad rows kept are exactly those of the selected competition |
| Rankings.Members | scripts/silver/etl_rankings.py:181-184 | the rows of a team's partition are exactly the rows with its competition, team and discipline |
| Rankings.SquadPerformances | scripts/silver/etl_rankings.py:173-211 | one squad per competition, team and discipline of the selected rows |
| Rankings.SquadPeers | scripts/silver/etl_rankings.py:217-227 | the partition of a squad holds it, with its total |
| Rankings.SquadRankings | scripts/silver/etl_rankings.py:232-289 | every inserted row is of the selected competition, with an existing team and discipline |
| Rankings.Cleared | scripts/silver/etl_rankings.py:43-58 | a truthy key deletes exactly that competition's rows; otherwise every row goes |
| Rankings.SqlMinIsMinimum | scripts/silver/etl_rankings.py:80 | the best time is NULL exactly when every time is NULL, and otherwise is one of the times and no greater than any |
| Rankings.DenseRankFirst | scripts/silver/etl_rankings.py:94-97 | a row ranks first exactly when no row of its partition is ordered before it |
| Rankings.DenseRankOrder | scripts/silver/etl_rankings.py:94-97 | a row ordered before another ranks strictly higher; ties share a rank |
| Rankings.DenseRankBound | scripts/silver/etl_rankings.py:94-97 | a dense rank lies between 1 and the size of the partition |
| Rankings.PercentileRange | scripts/silver/etl_rankings.py:101-104 | `PERCENT_RANK() * 100` lies between 0 and 100 and is 0 for the rows ordered first |
| Rankings.HoaWinnerFastest | scripts/silver/etl_rankings.py:148 | an athlete is the HOA winner exactly when no athlete of the category has a better time |
| Rankings.FasterRanksHigher | scripts/silver/etl_rankings.py:94-97 | an athlete of the category with a faster best time ranks strictly higher |
| Rankings.RankWithinCategory | scripts/silver/etl_rankings.py:94-100 | an athlete's rank lies between 1 and the number of athletes of the category |
| Rankings.MissingDivisionIsOpen | scripts/silver/etl_rankings.py:79 | an athlete without a classification row is ranked as `Open` |
| Rankings.RankingsOfCompetition | scripts/silver/etl_rankings.py:86-88 | with a truthy competition key every inserted row belongs to that competition |
| Rankings.TimedUntimed | scripts/silver/etl_rankings.py:183 | splitting members into timed and untimed keeps every member once |
| Rankings.TopFourLowest | scripts/silver/etl_rankings.py:181-209 | a squad is its four fastest members, or all of them when fewer, with NULL times last, a permutation of the members numbered in order |
| Rankings.CompleteSquad | scripts/silver/etl_rankings.py:278 | a squad is complete exactly when its partition has at least four rows |
| Rankings.DivisionWinnerFastest | scripts/silver/etl_rankings.py:275 | a squad wins its division exactly when no squad of the partition has a better total |
| Rankings.ClearedThenInserted | scripts/silver/etl_rankings.py:297-319 | clearing one competition and inserting its rankings keeps every other competition's rows and leaves only the new rows for it |
| Rankings.RankingsEtl.constructor | scripts/silver/etl_rankings.py:31-41 | the connection starts on the ranking tables as they are |
| Rankings.RankingsEtl.ClearRankings | scripts/silver/etl_rankings.py:43-58 | the two deletes run in order under autocommit: a refused first statement changes nothing, a refused second one leaves the first done |
| Rankings.RankingsEtl.CalculateIndividualRankings | scripts/silver/etl_rankings.py:60-159 | the computed rows are inserted and their number returned; a refused insert raises and changes nothing |
| Rankings.RankingsEtl.CalculateSquadRankings | scripts/silver/etl_rankings.py:161-295 | the computed squads are inserted and their number returned; a refused insert raises and changes nothing |
| Rankings.RankingsEtl.RunFullRankingsEtl | scripts/silver/etl_rankings.py:297-319 | clear then both inserts: on success the tables hold the other competitions' rows as they were plus the new rankings, and the two counts; under autocommit a raise at any of the four statements leaves the earlier ones done (e.g. an individual insert that fails leaves both tables cleared) |

## Left out

- Real HTTP and PostgreSQL are not modelled. Responses and casts are oracles, and tables are values keyed by their conflict columns. A statement the database refuses is an oracle only where a member takes one as a parameter (the raw-table ingesters, `ApplySqlFile`, `SilverDdl`, `Rankings`, `StagePerformance`, `Backfill`, `TeamTransform`, `ScheduleTransform`, `TransformUtils`, `TransformDimensions` and `TransformFacts`). Elsewhere every statement is taken to succeed, in `CompetitionTransform` (below), `ScoreboardTransform` and `PerformanceAggregation`. So the rollback and re-raise of `run_full_pipeline` in `etl_performance_aggregation.py` is outside the model.
- Concurrency is not modelled. The threaded and asyncio ingesters (`ThreadedTeamIngest`, `ConcurrentTeamIngest`, `ScoreboardIngest`, `CompetitionIngest`) run one request at a time, in submission order. The thread lock, the semaphores and the background `rate_limit_reset` task are reduced to their bookkeeping. In `ScoreboardIngest` and `CompetitionIngest` this order also decides which INSERTs on the shared connection come after a failed one.
- Sleeps are not modelled. Clocks are integer milliseconds handed in as parameters. The pauses are returned as a list of waits by the retrying fetches (`FixedRetry.Fetch`, `ScoreboardIngest.FetchScoreboard`, `CompetitionIngest.FetchCompetitionPage`, `AllTeamsIngest.FetchTeamWithRetry`), by the per-team and per-id loops of `AllTeamsIngest` and `ScoreboardIngest`, and by the rate-limit check of `ThreadedTeamIngest`. The other pauses are left out and not returned: the `PAUSE_SEC` sleeps of `CompetitionsScript` and `MatchesScript`, the 0.1 s sleep per fetch and the 1 s sleep between chunks of `ThreadedTeamIngest`, the 1 s sleep between chunks of `ConcurrentTeamIngest`, and the per-page `RATE_LIMIT_DELAY / MAX_WORKERS` sleep of `CompetitionIngest`.
- The scripts add no jitter to their pauses and never read a `Retry-After` header, so the model has neither.
- The URL health tracker (`ingest.is_permanent_404`, `load_endpoints`, `http_get_with_backoff`) is not part of this model. Its verdicts are an oracle.
- SHA-256 and MD5 are a function parameter of the canonical text, and `json.loads` and `resp.json()` are oracles.
- Floating point is not modelled. NUMERIC times are integers in thousandths of a second.
  - The float sort key `999.999` of `drop_slowest_string` is placed strictly between the decimals 999.999 and 1000.000 (`PerformanceAggregation.NoTotal`), where the double nearest 999.999 lies.
  - `etl_stage_performance.py` converts to `float` before summing; its rounding is not modelled.
  - Inputs with more than three decimals are outside the model.
- `PERCENT_RANK()` and `AVG` are exact fractions in `Rankings`, compared and rounded exactly, not as double precision.
- Digits and letter case are ASCII only (`PyText`, `PyRegex`). Python's `int()`, `str.isdigit`, `\d`, `upper` and `lower` also accept non-ASCII digits and letters.
- PerformanceAggregation.TextLe: the squads' `MAX(division_name)` compares by code point, where PostgreSQL compares by the database collation.
- PyText.Format: `str.format` is modelled for `{}`, `{<n>}` and the conversions `!s`, `!r`, `!a` with integer arguments. Any other field (a format spec such as `{:05d}`, an attribute or an index) gives None, where Python would format it. So `TeamsRange.RangeEffect` and the URL templates of `Discovery` treat such a template as raising.
- TeamsRange.RangeEffect: a `TEAMS_URL_TEMPLATE` with a format spec is treated as raising, because of the `PyText.Format` limit above.
- TransformUtils.UpsertDimension: on an SQL error the source calls `conn.rollback()`, which discards the caller's whole open transaction. This member only returns None and leaves its own table unchanged. The rollback is modelled one level up: `TransformDimensions.UpsertInto` returns the warehouse to `start`, the state when the transform began.
- EnsureDate: states the effect on an open transaction only. The abort its swallowed cast failure leaves is `TransformUtils.EnsureDateIn`, which `TransformDimensions` uses; `TransformFacts` calls `EnsureDate` without it (see `transform_facts.py` below).
- EnsureTime: states the effect on an open transaction only. The abort its swallowed insert failure leaves is `TransformUtils.EnsureTimeIn`; `TransformFacts` calls `EnsureTime` without it.
- `transform_utils.py` `truncate_silver_tables`, `get_db_conn` and the SQL `EXTRACT(DOW/WEEK …)` columns of `ensure_date_dimension` are not modelled. The `strptime` fallback of `to_date_key` and the `::date` cast are oracles.
- `transform_facts.py`:
  - `build_team_performance_aggregates` is a pure SQL statement, and `main` only sequences the calls; neither is modelled.
  - A failing INSERT, or a failing statement of `ensure_date_dimension` or `ensure_time_dimension`, aborts the PostgreSQL transaction. The model instead treats each statement's failure as an independent oracle.
- `etl_performance_aggregation.py`:
  - `aggregate_match_performance` (an INSERT … SELECT), `run_full_pipeline`, `main` and the TRUNCATE statements are not modelled.
  - The squad rules of the last statement are modelled as functions.
- `etl_stage_performance.py` query details are not modelled: the `LIMIT` of the entry query and the database's `ORDER BY` ties. Rows come in the order given.
- `concurrent_competition_ingest.py` `extract_match_ids_from_competitions` is a SELECT only and is not modelled.
- `etl_rankings.py`:
  - `TRUNCATE … CASCADE` is modelled as clearing the two ranking tables only.
  - The `ORDER BY` of the inserts is not modelled.
  - `ROW_NUMBER()` ties are broken by table order.
  - Calculating without clearing first would insert duplicate rows; the model's tables are keyed by the grouping, so `RunFullRankingsEtl` (which clears first) is the modelled path.
- Fact and dimension keys are treated as non-NULL integers wherever the source joins on them.
- `TeamTransform` and `ScoreboardIngest`: a rollback also resets the serial counters in the model (the batch rollback of `ScoreboardIngest.RunBatch` restores the whole table, its next id included). PostgreSQL sequences are not rolled back, so the ids of the rows kept may differ.
- First-seen, last-seen and `now()` timestamps are not modelled, and `ingested_at` is not a column of the model.
- `CompetitionTransform` keys its lookups by the JSON values themselves, so `"5"` and `5` are different keys. PostgreSQL would coerce the parameter to the column type and find the same row for both.
- `CompetitionTransform`: a statement the database refuses (a value psycopg2 cannot adapt) is not modelled. Every statement is taken to succeed, unlike `ScheduleTransform` and `TeamTransform`.
- The order of an unordered `SELECT` is taken as table order.
- Logging, `print`, progress and ETA output, the `tmp_*.json` result files (the results they would hold are returned instead), `argparse`, environment lookups, `get_conn` and the CLI wrappers are not modelled.
- Duplicated file bodies: only the first copy in `scripts/ingest_competitions.py` and `scripts/ingest_all_matches.py` is modelled. `run` in `src/SilverScheduleTransform.py` is redefined as a no-op at lines 152-154, so only `process_raw_row` and its upsert helpers are modelled there.
- Admin, migration, inspection, dump and truncation scripts are outside the core and not modelled.
- ProcessEntry: inserts the corrected stage rows (the slowest string's number, the count of valid strings), not the as-written ones; StagePerformance.DroppedIsLiteralFive and StagePerformance.CountIncludesPadding show where the two differ.
- ProcessStageAggregation: runs the corrected ProcessEntry, so its table holds the corrected stage rows.
- InsertPenalties: files penalties by the corrected pattern (stage and series read from `penalty_<n>_<m>`); ScoreboardTransform.PenaltyAsWrittenDropsNumbers shows what the script as written does instead.
- ProcessAthlete: in ScoreboardTransform, built on the corrected InsertPenalties.
- ProcessDiscipline: in ScoreboardTransform, built on the corrected InsertPenalties.
- ProcessTeam: in ScoreboardTransform, built on the corrected InsertPenalties.
- ProcessRawRow: in ScoreboardTransform, built on the corrected InsertPenalties.
- Run: the scoreboard transform's run is built on the corrected InsertPenalties.

## Findings

| source | as written | input that shows it | evidently intended | confidence | as-written member | corrected member |
|---|---|---|---|---|---|---|
| scripts/silver/etl_stage_performance.py:102-105 | with five valid strings `dropped_string` is the literal 5 | five valid strings whose slowest is string 1: 5 is recorded although string 1 is left out of the totals | the number of the slowest string, the last after sorting, as the comment on line 103 says | not executed | StagePerformance.DroppedIsLiteralFive | StagePerformance.RecordDropsSlowest |
| scripts/silver/etl_stage_performance.py:108-141 | `fastest_4 = valid_strings` aliases the list, so the padding loop also lengthens `valid_strings`, and `len(valid_strings)` records the padded length | a stage with two valid strings records `strings_count` 4 | the number of valid strings, 2 | not executed | StagePerformance.CountIncludesPadding | StagePerformance.RecordDropsSlowest |
| src/SilverScoreboardTransform.py:125-128 | the pattern tries the alternative `pen` before `penalty`, and everything after the prefix is optional, so `penalty_1_2` captures no numbers | `penalty_3_2` is filed under stage 0 with no series | stage 3, series 2, as the comment on line 125 lists `penalty_1_2` | not executed | ScoreboardTransform.PenaltyAsWrittenDropsNumbers | ScoreboardTransform.PenaltyPosOfPenalty |
