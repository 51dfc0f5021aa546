# Changeset-to-test correlation of the per-test-coverage patch analysis

This project models, in Dafny, the core of `run()` in
`pertestcoverage/analysistypes/patch_analysis.py`. For a number of recent
changesets of a Mercurial branch, `run()` finds the tests whose per-test
coverage touches the files each changeset modifies. It has four parts:

- **The history walk** (module `History`). Starting at `startrev`, it fetches
  `json-log/<rev>` pages backwards. It keeps the 12-character short ID of
  every entry of a page except the last, and the last entry becomes the next
  cursor. It stops once `numpatches` IDs are collected and cuts the list to
  that length.
- **The query documents** (module `CoverageQuery`). There are two ActiveData
  documents, one for the mochitest task and one for the xpcshell task. In
  precise mode the file name of their first conjunct is overwritten for each
  file. In aggregate mode they are rewritten to group by test name over the
  set of the changeset's files. The module also gives the documents a
  row-selection meaning, so the lemmas can say what each query asks for.
- **The loop over the changesets** (module `PatchAnalysis`):
  - A changeset that modifies no file is skipped.
  - In precise mode (`analyze_files_with_missing_tests`), each file's two
    queries set its `tests_per_file` entry.
  - In aggregate mode, one grouped query per suite gives the changeset's
    tests.
  - Every changeset that is not skipped gets a summary in
    `tests_for_changeset` and one bar in each of the two histogram lists.
- **The derived results**: `files_with_no_tests` (the files whose entry is
  empty, in insertion order) and `ratioed_data` (tests per file, guarded
  against zero files).

The module `OrderedDict` models the insertion-ordered Python dictionaries
the loop updates. `Wrappers` gives `Option` and `Result`. `RunProperties`
states what a whole run promises.

The HTTP services are inputs, a `Services` value with four parts:

- the changelog pages, as a function from request URL to the pages' `node`
  fields;
- the `files` list of each `json-info` document;
- the reply of `query_activedata` to a precise query, which is either
  `ColumnsRaised` or a document whose `test` column may be absent;
- its reply to a grouped query, which is either `GroupsRaised` or rows.

The loops of the source are methods proved against specification
functions:

- `History.WalkHistory` is the `while` loop of lines 126-135;
- `PatchAnalysis.QueryEachFile` is the per-file loop of lines 160-176;
- `PatchAnalysis.Correlate` is the loop over the changesets;
- `PatchAnalysis.Run` chains the walk, the loop and the derived results.

The query documents and dictionaries the source mutates in place are
immutable values here. The loops reassign them as they go.

The model keeps four behaviours of the code that a reader might not expect:

- **A failed precise-mode query.** The code does not give the file an empty
  entry. The `except` only logs, and each of `mochi_tests` and `xpc_tests`
  keeps the column of the last reply for its own suite that answered. That
  reply may be for an earlier file, or for an earlier changeset. When only
  the xpcshell query raises, the file gets its own fresh mochitest column
  joined with a stale xpcshell column (`OnlyXpcshellStale`). If a suite never answered, reading
  its unbound variable raises `NameError` and ends the run. See `StaleColumnsReused`,
  `FirstFailureAborts` and `RunError.UnboundReply`.
- **`tests_per_file[file]` is overwritten, not unioned.** Each
  changeset that modifies a file replaces its entry. See `ScanFileWhenAnswered`
  and `OrderedDict.Put`.
- **The aggregate-mode `except` is shared.** If either grouped query raises, or
  a reply row has no first column (`testchunk[0]` raises `IndexError`), both
  suites' lists become empty. See `GroupedTests`.
- **The walk has no guard against a cursor that does not advance.** A page
  with one entry that points back at the cursor makes the loop spin forever.
  See `SelfPageStalls`. The model's walk therefore requires every page to
  have at least two entries (`History.Advancing`).

## Model

| member | source | states |
|---|---|---|
| History.Id12 | pertestcoverage/analysistypes/patch_analysis.py:131-133 | `node[:12]` is a prefix of the node, 12 characters long, or the whole node when it is shorter |
| History.ShortIds | pertestcoverage/analysistypes/patch_analysis.py:131 | the comprehension gives one short ID per node, and the i-th ID is `node[:12]` of the i-th node |
| History.Contribution | pertestcoverage/analysistypes/patch_analysis.py:131 | a page adds one ID for each of its entries but the last, in page order, the i-th cut from the i-th entry |
| History.NextCursor | pertestcoverage/analysistypes/patch_analysis.py:133 | the next cursor is `node[:12]` of the last entry: its first 12 characters, or the whole node when it is shorter |
| History.Collect | pertestcoverage/analysistypes/patch_analysis.py:126-133 | the walk's specification: the loop collects no ID exactly when no more IDs are needed, so its body runs only while `len(changesets) < numpatches` |
| History.CollectCovers | pertestcoverage/analysistypes/patch_analysis.py:126-133 | when every page has at least two entries, the loop accumulates at least `numpatches` IDs, so it terminates |
| History.CollectIsMinimalFetch | pertestcoverage/analysistypes/patch_analysis.py:126-133 | the accumulated list is exactly the concatenation, in fetch order, of every fetched page's entries but the last, cut to 12 characters; the loop stops at the first page after which enough IDs are there, because one page fewer gives fewer than `numpatches` |
| History.SelfPageStalls | pertestcoverage/analysistypes/patch_analysis.py:126-133 | a page whose only entry is the cursor itself adds no ID and leaves the cursor in place, so any number of further fetches collects nothing |
| History.WalkHistory | pertestcoverage/analysistypes/patch_analysis.py:121-135 | the walk returns exactly `max(numpatches, 0)` IDs, and they are a prefix of the pages' contributions in fetch order |
| OrderedDict.Empty | pertestcoverage/analysistypes/patch_analysis.py:137-138 | a new dictionary is well formed and has no entries |
| OrderedDict.Put | pertestcoverage/analysistypes/patch_analysis.py:175 | `d[k] = v` replaces any old value of `k`; every other key keeps its presence and value; older keys keep their order; the key list grows by one exactly when `k` is new |
| OrderedDict.KeysWhere | pertestcoverage/analysistypes/patch_analysis.py:221 | the comprehension over a dictionary lists exactly the keys whose value satisfies the condition, in insertion order, each once |
| CoverageQuery.Template | pertestcoverage/analysistypes/patch_analysis.py:87-119 | each template document has a file-name slot as its first conjunct, holding `None`, a `limit` of 1000, a `select` and no `groupby` |
| CoverageQuery.WithFileName | pertestcoverage/analysistypes/patch_analysis.py:161-162 | writing a file name changes only the first conjunct, which becomes `eq` on that file; the other conjuncts, the source, the limit, `select` and `groupby` are unchanged |
| CoverageQuery.WithFileNameForgetsEarlierFile | pertestcoverage/analysistypes/patch_analysis.py:161-162 | overwriting the file name of a document that differs from its template only in that name gives the same document as writing it into the template; nothing else of the document changes |
| CoverageQuery.PreciseQueryMeaning | pertestcoverage/analysistypes/patch_analysis.py:87-119 | a precise document selects a row if and only if the row is for that file, the suite's task revision and branch, and has covered lines |
| CoverageQuery.GroupedForgetsEarlierFiles | pertestcoverage/analysistypes/patch_analysis.py:178-189 | rewriting an already rewritten document gives the same document as rewriting the original; only the file list changes |
| CoverageQuery.Grouped | pertestcoverage/analysistypes/patch_analysis.py:178-189 | the rewritten document has no `select`, groups by test name, has `in` over the files as its first conjunct and keeps the other conjuncts, the source and the limit |
| CoverageQuery.GroupedQueryMeaning | pertestcoverage/analysistypes/patch_analysis.py:178-189 | an aggregate document selects a row if and only if the row is for one of the files, the suite's task revision and branch, and has covered lines |
| PatchAnalysis.AskBoth | pertestcoverage/analysistypes/patch_analysis.py:164-173 | when the mochitest query raises, both variables keep their old replies; when it answers, `mochi_tests` becomes its column (empty when absent); `xpc_tests` becomes the xpcshell column only when both answer and otherwise keeps its old reply; a variable is unbound afterwards only if it was unbound before |
| PatchAnalysis.ScanFile | pertestcoverage/analysistypes/patch_analysis.py:160-176 | one file's iteration keeps the documents rewritable and `tests_per_file` well formed |
| PatchAnalysis.ScanFiles | pertestcoverage/analysistypes/patch_analysis.py:160-176 | the per-file loop keeps the documents rewritable and `tests_per_file` well formed |
| PatchAnalysis.QueryEachFile | pertestcoverage/analysistypes/patch_analysis.py:160-176 | the per-file loop computes exactly the left fold of one file's iteration over the files, stopping at the first `NameError` |
| PatchAnalysis.ScanFileWhenAnswered | pertestcoverage/analysistypes/patch_analysis.py:160-176 | when both queries for a file answer, the file's entry is overwritten with the union of the two `test` columns (an absent column counting as empty), that union is added to `all_tests`, and the documents are the templates with this file's name |
| PatchAnalysis.ScanWhenAnswered | pertestcoverage/analysistypes/patch_analysis.py:160-176 | when every query answers, the loop succeeds; each file's entry is its own tests; other entries and the key order are kept; `all_tests` grows by the union over the files |
| PatchAnalysis.StaleColumnsReused | pertestcoverage/analysistypes/patch_analysis.py:164-175 | when the mochitest query raises, the file's entry is not reset to an empty list: it is the union of each suite's last column that answered, for an earlier file or an earlier changeset |
| PatchAnalysis.OnlyXpcshellStale | pertestcoverage/analysistypes/patch_analysis.py:164-176 | when the mochitest query answers and the xpcshell query raises, the file's entry is its fresh mochitest tests joined with the xpcshell tests of the last xpcshell reply that answered |
| PatchAnalysis.FirstFailureAborts | pertestcoverage/analysistypes/patch_analysis.py:164-170 | when the query raises before `mochi_tests` was ever assigned, the run ends with the unbound-variable error |
| PatchAnalysis.GroupedTests | pertestcoverage/analysistypes/patch_analysis.py:191-201 | `all_tests` in aggregate mode holds exactly the first column of the rows of both replies, and is empty when either query raised or either reply has a row without a column |
| PatchAnalysis.Record | pertestcoverage/analysistypes/patch_analysis.py:208-215 | the changeset's summary holds its patch link, number of files, number of distinct tests and the tests; other summaries keep their values; each histogram gains one bar at its end, the two bars naming the changeset and the summary's test count, the second also the number of files; nothing else of the state changes |
| PatchAnalysis.ProcessChangeset | pertestcoverage/analysistypes/patch_analysis.py:144-215 | one iteration of the changeset loop keeps both dictionaries well formed and the documents rewritable in the run's mode |
| PatchAnalysis.ProcessAll | pertestcoverage/analysistypes/patch_analysis.py:144-215 | the changeset loop, stopping at the first error, keeps the same state invariant |
| PatchAnalysis.Correlate | pertestcoverage/analysistypes/patch_analysis.py:137-215 | the loop over the changesets computes exactly the left fold of one iteration over the changesets, from empty dictionaries, empty histograms and the template documents |
| PatchAnalysis.FilesWithNoTests | pertestcoverage/analysistypes/patch_analysis.py:220-222 | a file is listed if and only if it has an entry in `tests_per_file` and the entry is empty; files are listed in insertion order, each once |
| PatchAnalysis.Ratios | pertestcoverage/analysistypes/patch_analysis.py:240 | one ratio per bar; the ratio is 0 for a bar without files, and otherwise the ratio times the number of files is the number of tests |
| PatchAnalysis.Walked | pertestcoverage/analysistypes/patch_analysis.py:121-135 | the walked changesets number exactly `max(numpatches, 0)` |
| PatchAnalysis.Run | pertestcoverage/analysistypes/patch_analysis.py:121-240 | `run()` without its I/O computes exactly the walk, then the changeset loop, then `files_with_no_tests` and `ratioed_data` |
| RunProperties.Recorded | pertestcoverage/analysistypes/patch_analysis.py:151-154 | a changeset is recorded if and only if it is walked and its `files` list is not empty |
| RunProperties.ProcessChangesetSummaries | pertestcoverage/analysistypes/patch_analysis.py:151-212 | one changeset adds a summary exactly when it modifies a file; the summary holds the patch link, the number of files and the number of distinct tests; every older summary keeps its key position and its whole value |
| RunProperties.ProcessChangesetBars | pertestcoverage/analysistypes/patch_analysis.py:151-215 | one changeset appends one bar to each histogram exactly when it modifies a file; the earlier bars are unchanged; the two new bars agree on tests and changeset, their test count is the `numtests` of the summary recorded with them, and the second counts the changeset's files |
| RunProperties.ProcessAllSummaries | pertestcoverage/analysistypes/patch_analysis.py:208-212 | after the loop, every summary belongs to a changeset with files and holds its patch link, its number of files and its number of distinct tests |
| RunProperties.ProcessAllBarsAgree | pertestcoverage/analysistypes/patch_analysis.py:214-215 | after the loop, the two histograms have the same length, agree bar by bar on tests and changeset, and no bar has zero files |
| RunProperties.ProcessAllBars | pertestcoverage/analysistypes/patch_analysis.py:144-215 | the histograms gain one bar per changeset that modifies a file, in walk order, and none for any other |
| RunProperties.ProcessAllSummaryKeys | pertestcoverage/analysistypes/patch_analysis.py:144-212 | after the loop, a changeset has a summary if and only if it had one before or is recorded; older keys keep their order |
| RunProperties.AggregateProcessAll | pertestcoverage/analysistypes/patch_analysis.py:177-201 | in aggregate mode the loop cannot fail and never touches `tests_per_file`; each recorded changeset's tests are what the grouped queries over its own files report, whatever earlier changesets did to the documents |
| RunProperties.PreciseProcessChangeset | pertestcoverage/analysistypes/patch_analysis.py:159-176 | in precise mode with every query answering, one changeset gives each of its files an entry holding that file's own tests, and leaves other entries and the key order alone |
| RunProperties.PreciseChangesetSummary | pertestcoverage/analysistypes/patch_analysis.py:157-212 | in precise mode with every query answering, a changeset's summary lists the union of its files' tests, and other summaries are kept |
| RunProperties.PreciseProcessAll | pertestcoverage/analysistypes/patch_analysis.py:144-176 | in precise mode with every query answering, the loop succeeds; a file has an entry if and only if some walked changeset modifies it (or it had one before); the entry is its own tests; keys are never removed or reordered |
| RunProperties.PreciseChangesetTests | pertestcoverage/analysistypes/patch_analysis.py:157-212 | in precise mode with every query answering, each recorded changeset's summary lists the union of its files' tests, and summaries of changesets not walked are kept |
| RunProperties.AnalysisRecords | pertestcoverage/analysistypes/patch_analysis.py:137-215 | a finished run has a summary for exactly the walked changesets that modify a file, each stating link, file count and test count, and one bar per such changeset in each histogram, in walk order |
| RunProperties.AnalysisRatios | pertestcoverage/analysistypes/patch_analysis.py:240 | a finished run has one ratio per bar, and the zero guard never applies: every ratio is the bar's tests divided by its files, which are more than zero |
| RunProperties.AggregateAnalysis | pertestcoverage/analysistypes/patch_analysis.py:177-222 | in aggregate mode the run cannot fail, `tests_per_file` stays empty, no file is listed as untested, and each recorded changeset's tests are the grouped answers over its files |
| RunProperties.PreciseAnalysis | pertestcoverage/analysistypes/patch_analysis.py:159-222 | in precise mode with every query answering, the run cannot fail; `tests_per_file` has an entry for exactly the files the walked changesets modify, each its own tests; `files_with_no_tests` lists exactly those files whose queries find no test; each summary lists the union over its files |
| RunProperties.AnsweredTestsMeaning | pertestcoverage/analysistypes/patch_analysis.py:87-176 | against a database that answers each query with the tests of at most `limit` (1000) of the records it selects, a file's recorded tests all cover that file in the mochitest or the xpcshell task; they are all such tests when neither task has more than 1000 covering records |
| RunProperties.HonestColumnsSatisfiable | pertestcoverage/analysistypes/patch_analysis.py:87-119 | a database that answers each precise document with the tests of its first `limit` selected records meets the assumption of `AnsweredTestsMeaning`, so that lemma is not vacuous |
| RunProperties.AggregateTestsMeaning | pertestcoverage/analysistypes/patch_analysis.py:178-201 | against a database that answers each grouped query with at most `limit` (1000) of the groups it selects, an aggregate summary lists only tests covering some of the changeset's files in either task; it lists all of them when neither task has more than 1000 such tests |
| RunProperties.HonestGroupsSatisfiable | pertestcoverage/analysistypes/patch_analysis.py:178-189 | a database that answers each grouped document with one row for each of its first `limit` distinct selected tests meets the assumption of `AggregateTestsMeaning`, so that lemma is not vacuous |

## Left out

- HTTP fetching (`get_http_json`, `query_activedata`) is not modelled. Its answers are inputs: a `Services` value of pure functions from the request to the reply.
- A `get_http_json` call that raises, in the walk or for a changeset's `json-info`, ends the run with an exception. This is not modelled: the log and info services always answer. A `query_activedata` call that raises is modelled (`ColumnsRaised`, `GroupsRaised`).
- Because `Services` holds pure functions, the coverage database answers the same query the same way every time. A file modified by two changesets then gets the same entry both times, and the overwrite of `tests_per_file` shows only through stale replies (`StaleColumnsReused`).
- `save_json` and its `time.time()` file-name prefixes are not modelled, because they only write files.
- Logging is not modelled, because it only writes output. This includes line 205, which computes a list only to log it.
- Command-line parsing (`AnalysisParser`) and the `if not config` exception of lines 73-78 are not modelled. The configuration is a typed `Config` value.
- The `KeyError`s raised for a missing configuration key, a missing `changesets`/`node` field or a missing `files` key are not modelled, because the modelled replies always have these fields.
- Replies of the wrong shape are not modelled: a precise reply that is not a dictionary, or a grouped reply that is not a list. The reply types exclude them.
- Plotting (`plot_histogram`, `plt.bar`, `plt.legend`, `plt.show`) and the unused `moving_average`/`running_mean` are not modelled. They are matplotlib and numpy floating-point code.
- `ratioed_data` uses exact rational numbers. Python's floating-point rounding of `numtests/numfiles` is not modelled.
- Test lists built as `list(set(...))` are modelled as sets, because the order of a Python set is unspecified. `numtests` is the set's size, which equals the length of the list.
- The in-place mutation of the shared query documents and dictionaries is modelled by reassigning immutable values. The code never observes the aliasing, because `in_entry` and `groupby_entry` are shared but never mutated afterwards.
- History.WalkHistory: requires every changelog page to have at least two entries. An empty page raises `IndexError` at `clog_csets_list[-1]`, and a page with one entry can make the loop spin forever (`SelfPageStalls`). The requirement also excludes some walks that do terminate, such as a history whose one-entry root page is never reached. So the model covers only part of the terminating walks.
- PatchAnalysis.Run: requires every changelog page to have at least two entries, for the same reason as `History.WalkHistory`.
- RunProperties.PreciseAnalysis: states the run's results only when every precise query answers. What happens when a query raises is stated one file at a time, by `StaleColumnsReused` and `FirstFailureAborts`.
- `pertestcoverage_view.py` is not part of this model. It is a filesystem-walking viewer script built on loaders the model cannot see.
