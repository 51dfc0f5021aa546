/**
 * The changeset-to-test correlation of run() in
 * pertestcoverage/analysistypes/patch_analysis.py: for every changeset of the
 * walk, the files it modifies and the tests that cover them, in one of two modes.
 *
 * Precise mode (`analyze_files_with_missing_tests`) sends one query per suite
 * and file and records, per file, the tests found; aggregate mode sends one
 * grouped query per suite over all the changeset's files.  Every changeset that
 * modifies a file gets a summary and one bar in each of two histograms; at the
 * end the files whose test list is empty are listed.
 *
 * The HTTP services are inputs (`Services`).  Test lists built as
 * `list(set(...))` are modelled as sets: their order is Python's set order.
 */
module PatchAnalysis {

  import opened Wrappers
  import opened OrderedDict
  import opened History
  import opened CoverageQuery

  /** The configuration keys run() reads (the output directory only names where results are saved). */
  datatype Config = Config(
    numpatches: int,
    startrev: string,
    analysisbranch: string,
    mochitestRev: string,
    mochitestBranch: string,
    xpcshellRev: string,
    xpcshellBranch: string,
    analyzeFilesWithMissingTests: bool)

  /** What `query_activedata` gives a precise query: an exception, or a document whose `test` column may be absent. */
  datatype ColumnsReply = ColumnsRaised | Columns(test: Option<seq<string>>)

  /** What `query_activedata` gives a grouped query: an exception, or its rows. */
  datatype GroupsReply = GroupsRaised | Groups(rows: seq<seq<string>>)

  /**
   * The remote services as functions of the request: the changelog pages
   * (`node` fields of `json-log/<rev>`), the modified files of a changeset
   * (`files` of `json-info/<changeset>`), and the coverage database.
   */
  datatype Services = Services(
    log: string -> seq<string>,
    info: string -> seq<string>,
    columns: Query -> ColumnsReply,
    groups: Query -> GroupsReply)

  function InfoUrl(branch: string, changeset: string): string {
    HgUrl + branch + "/json-info/" + changeset
  }

  function PatchLink(branch: string, changeset: string): string {
    HgUrl + branch + "/rev/" + changeset
  }

  /** The files a changeset modifies, as its `json-info` document lists them. */
  function FilesModified(cfg: Config, svc: Services, changeset: string): seq<string> {
    svc.info(InfoUrl(cfg.analysisbranch, changeset))
  }

  /** The entry of `tests_for_changeset`. */
  datatype Summary = Summary(patchLink: string, numfiles: nat, numtests: nat, tests: set<string>)

  /** An element of `histogram1_datalist`: `(len(all_tests), changeset)`. */
  datatype Bar = Bar(numtests: nat, changeset: string)

  /** An element of `histogram2_datalist`: `(len(all_tests), len(files_modified), changeset)`. */
  datatype RatioBar = RatioBar(numtests: nat, numfiles: nat, changeset: string)

  /** The two query documents, the mochitest one and the xpcshell one. */
  datatype Suites = Suites(mochitest: Query, xpcshell: Query)

  /**
   * The `test` columns held by `mochi_tests` and `xpc_tests` in precise mode;
   * `None` while the variable has never been assigned.  A query that raises
   * leaves the variable as it was.
   */
  datatype LastTests = LastTests(mochitest: Option<seq<string>>, xpcshell: Option<seq<string>>)

  /** The NameError raised when a test column is read before any query for it has answered. */
  datatype RunError = UnboundReply(file: string)

  function Elements(s: seq<string>): (r: set<string>)
    ensures forall x :: x in r <==> x in s
  {
    set x | x in s
  }

  /** The query documents as lines 87-119 build them from the configuration. */
  function Templates(cfg: Config): Suites {
    Suites(Template(cfg.mochitestRev, cfg.mochitestBranch), Template(cfg.xpcshellRev, cfg.xpcshellBranch))
  }

  // ---------------------------------------------------------------------------
  // Precise mode: one query per suite and file (lines 160-176)
  // ---------------------------------------------------------------------------

  /** The state the per-file loop changes: documents, last columns, `tests_per_file`, `all_tests`. */
  datatype Scan = Scan(queries: Suites, last: LastTests, testsPerFile: Dict<set<string>>, allTests: set<string>)

  predicate FileSlots(qs: Suites) {
    HasFileSlot(qs.mochitest) && HasFileSlot(qs.xpcshell)
  }

  /** Both documents with `file` filled in (lines 161-162). */
  function ForFile(qs: Suites, file: string): (r: Suites)
    requires FileSlots(qs)
    ensures FileSlots(r)
  {
    Suites(WithFileName(qs.mochitest, file), WithFileName(qs.xpcshell, file))
  }

  /**
   * The `try` of lines 164-167: the mochitest query, then the xpcshell query;
   * the first that raises ends the block, and each variable keeps its last
   * value.  A missing `test` column is replaced by `[]` (lines 170-173).
   */
  function AskBoth(svc: Services, qs: Suites, last: LastTests): (r: LastTests)
    ensures svc.columns(qs.mochitest).ColumnsRaised? ==> r == last
    ensures svc.columns(qs.mochitest).Columns? ==> r.mochitest == Some(svc.columns(qs.mochitest).test.GetOr([]))
    ensures svc.columns(qs.mochitest).Columns? && svc.columns(qs.xpcshell).Columns?
            ==> r.xpcshell == Some(svc.columns(qs.xpcshell).test.GetOr([]))
    ensures svc.columns(qs.xpcshell).ColumnsRaised? ==> r.xpcshell == last.xpcshell
    ensures r.mochitest.None? ==> last.mochitest.None?
    ensures r.xpcshell.None? ==> last.xpcshell.None?
  {
    match svc.columns(qs.mochitest)
    case ColumnsRaised => last
    case Columns(m) =>
      match svc.columns(qs.xpcshell)
      case ColumnsRaised => last.(mochitest := Some(m.GetOr([])))
      case Columns(x) => LastTests(Some(m.GetOr([])), Some(x.GetOr([])))
  }

  /** One iteration of the per-file loop. */
  function ScanFile(svc: Services, s: Scan, file: string): (r: Result<Scan, RunError>)
    requires FileSlots(s.queries) && Valid(s.testsPerFile)
    ensures r.Success? ==> FileSlots(r.value.queries) && Valid(r.value.testsPerFile)
  {
    var qs := ForFile(s.queries, file);
    var last := AskBoth(svc, qs, s.last);
    if last.mochitest.None? || last.xpcshell.None? then Failure(UnboundReply(file))
    else
      var tests := Elements(last.mochitest.value) + Elements(last.xpcshell.value);
      Success(Scan(qs, last, Put(s.testsPerFile, file, tests), s.allTests + tests))
  }

  /** The per-file loop over `files`, stopping at the first error. */
  function ScanFiles(svc: Services, s: Scan, files: seq<string>): (r: Result<Scan, RunError>)
    requires FileSlots(s.queries) && Valid(s.testsPerFile)
    ensures r.Success? ==> FileSlots(r.value.queries) && Valid(r.value.testsPerFile)
    decreases |files|
  {
    if files == [] then Success(s)
    else
      match ScanFile(svc, s, files[0])
      case Failure(e) => Failure(e)
      case Success(s') => ScanFiles(svc, s', files[1..])
  }

  /** The per-file loop (lines 160-176). */
  method QueryEachFile(svc: Services, s: Scan, files: seq<string>) returns (r: Result<Scan, RunError>)
    requires FileSlots(s.queries) && Valid(s.testsPerFile)
    ensures r == ScanFiles(svc, s, files)
  {
    var queries, last, testsPerFile, allTests := s.queries, s.last, s.testsPerFile, s.allTests;
    for i := 0 to |files|
      invariant FileSlots(queries) && Valid(testsPerFile)
      invariant ScanFiles(svc, s, files) == ScanFiles(svc, Scan(queries, last, testsPerFile, allTests), files[i..])
    {
      var file := files[i];
      assert files[i..][1..] == files[i + 1..];
      queries := ForFile(queries, file);
      match svc.columns(queries.mochitest) {
        case ColumnsRaised =>
        case Columns(m) =>
          last := last.(mochitest := Some(m.GetOr([])));
          match svc.columns(queries.xpcshell) {
            case ColumnsRaised =>
            case Columns(x) =>
              last := last.(xpcshell := Some(x.GetOr([])));
          }
      }
      if last.mochitest.None? || last.xpcshell.None? {
        return Failure(UnboundReply(file));
      }
      var tests := Elements(last.mochitest.value) + Elements(last.xpcshell.value);
      testsPerFile := Put(testsPerFile, file, tests);
      allTests := allTests + tests;
    }
    r := Success(Scan(queries, last, testsPerFile, allTests));
  }

  /** Both precise queries for `file` answer. */
  predicate Answers(svc: Services, t: Suites, file: string)
    requires FileSlots(t)
  {
    var qs := ForFile(t, file);
    svc.columns(qs.mochitest).Columns? && svc.columns(qs.xpcshell).Columns?
  }

  /** The tests the two precise queries for `file` report, when both answer. */
  function AnsweredTests(svc: Services, t: Suites, file: string): set<string>
    requires FileSlots(t) && Answers(svc, t, file)
  {
    var qs := ForFile(t, file);
    Elements(svc.columns(qs.mochitest).test.GetOr([])) + Elements(svc.columns(qs.xpcshell).test.GetOr([]))
  }

  /** The union of the answered tests over `files`. */
  function AnsweredUnion(svc: Services, t: Suites, files: seq<string>): (r: set<string>)
    requires FileSlots(t)
    requires forall f :: f in files ==> Answers(svc, t, f)
  {
    if files == [] then {} else AnsweredTests(svc, t, files[0]) + AnsweredUnion(svc, t, files[1..])
  }

  predicate RetargetsBoth(qs: Suites, t: Suites) {
    Retargets(qs.mochitest, t.mochitest) && Retargets(qs.xpcshell, t.xpcshell)
  }

  /**
   * What the per-file loop leaves when every precise query answers: each
   * file's entry is the tests its own two queries report, overwriting what
   * was there; other entries stay; keys keep their order and are never
   * removed; and `all_tests` grows by the union of the files' tests.
   */
  ghost predicate AnsweredScan(svc: Services, t: Suites, s: Scan, files: seq<string>, r: Scan)
    requires FileSlots(t)
    requires forall f :: f in files ==> Answers(svc, t, f)
  {
    && RetargetsBoth(r.queries, t)
    && r.allTests == s.allTests + AnsweredUnion(svc, t, files)
    && (forall f :: f in files ==>
          f in r.testsPerFile.entries && r.testsPerFile.entries[f] == AnsweredTests(svc, t, f))
    && (forall f :: f !in files ==> (f in r.testsPerFile.entries <==> f in s.testsPerFile.entries))
    && (forall f :: f !in files && f in s.testsPerFile.entries ==>
          r.testsPerFile.entries[f] == s.testsPerFile.entries[f])
    && s.testsPerFile.keys <= r.testsPerFile.keys
  }

  /** One answered file: both variables take the new columns and the file's entry is set. */
  lemma ScanFileWhenAnswered(svc: Services, s: Scan, t: Suites, file: string)
    requires FileSlots(t) && RetargetsBoth(s.queries, t) && Valid(s.testsPerFile)
    requires Answers(svc, t, file)
    ensures ScanFile(svc, s, file).Success?
    ensures ScanFile(svc, s, file).value
            == Scan(ForFile(t, file), ScanFile(svc, s, file).value.last,
                    Put(s.testsPerFile, file, AnsweredTests(svc, t, file)),
                    s.allTests + AnsweredTests(svc, t, file))
  {
    WithFileNameForgetsEarlierFile(s.queries.mochitest, t.mochitest, file);
    WithFileNameForgetsEarlierFile(s.queries.xpcshell, t.xpcshell, file);
  }

  /** When every precise query for the files answers, the loop succeeds with `AnsweredScan`. */
  lemma {:induction false} ScanWhenAnswered(svc: Services, s: Scan, t: Suites, files: seq<string>)
    requires FileSlots(t) && RetargetsBoth(s.queries, t) && Valid(s.testsPerFile)
    requires forall f :: f in files ==> Answers(svc, t, f)
    ensures ScanFiles(svc, s, files).Success?
    ensures AnsweredScan(svc, t, s, files, ScanFiles(svc, s, files).value)
    decreases |files|
  {
    if files != [] {
      var file := files[0];
      ScanFileWhenAnswered(svc, s, t, file);
      var s' := ScanFile(svc, s, file).value;
      WithFileNameForgetsEarlierFile(t.mochitest, t.mochitest, file);
      WithFileNameForgetsEarlierFile(t.xpcshell, t.xpcshell, file);
      var rest := files[1..];
      assert forall f :: f in files <==> f == file || f in rest;
      ScanWhenAnswered(svc, s', t, rest);
      var r := ScanFiles(svc, s', rest).value;
      assert ScanFiles(svc, s, files) == Success(r);
      assert AnsweredUnion(svc, t, files) == AnsweredTests(svc, t, file) + AnsweredUnion(svc, t, rest);
      forall f | f in files
        ensures f in r.testsPerFile.entries && r.testsPerFile.entries[f] == AnsweredTests(svc, t, f)
      {
        if f !in rest {
          assert f == file;
        }
      }
    } else {
      assert ScanFiles(svc, s, files) == Success(s);
    }
  }

  /**
   * A precise query that raises does not give the file an empty entry: each
   * suite's variable still holds the column of the last reply for that suite
   * that answered, for an earlier file or an earlier changeset, and that is
   * used again.
   */
  lemma StaleColumnsReused(svc: Services, s: Scan, file: string, m: seq<string>, x: seq<string>)
    requires FileSlots(s.queries) && Valid(s.testsPerFile)
    requires svc.columns(ForFile(s.queries, file).mochitest).ColumnsRaised?
    requires s.last == LastTests(Some(m), Some(x))
    ensures ScanFile(svc, s, file).Success?
    ensures ScanFile(svc, s, file).value.testsPerFile.entries[file] == Elements(m) + Elements(x)
  {
  }

  /**
   * When the mochitest query answers and the xpcshell query raises, the file's
   * entry joins its own fresh mochitest column with the stale xpcshell column.
   */
  lemma OnlyXpcshellStale(svc: Services, s: Scan, file: string, m: Option<seq<string>>, x: seq<string>)
    requires FileSlots(s.queries) && Valid(s.testsPerFile)
    requires svc.columns(ForFile(s.queries, file).mochitest) == Columns(m)
    requires svc.columns(ForFile(s.queries, file).xpcshell).ColumnsRaised?
    requires s.last.xpcshell == Some(x)
    ensures ScanFile(svc, s, file).Success?
    ensures ScanFile(svc, s, file).value.testsPerFile.entries[file] == Elements(m.GetOr([])) + Elements(x)
    ensures ScanFile(svc, s, file).value.last == LastTests(Some(m.GetOr([])), Some(x))
  {
  }

  /** A precise query that raises before either variable was ever assigned ends the run. */
  lemma FirstFailureAborts(svc: Services, s: Scan, file: string)
    requires FileSlots(s.queries) && Valid(s.testsPerFile)
    requires svc.columns(ForFile(s.queries, file).mochitest).ColumnsRaised?
    requires s.last.mochitest == None
    ensures ScanFile(svc, s, file) == Failure(UnboundReply(file))
  {
  }

  // ---------------------------------------------------------------------------
  // Aggregate mode: one grouped query per suite (lines 177-201)
  // ---------------------------------------------------------------------------

  /** Both aggregate documents rewritten for the changeset's files (lines 178-189). */
  function ForFiles(qs: Suites, files: seq<string>): Suites
    requires |qs.mochitest.conjuncts| >= 1 && |qs.xpcshell.conjuncts| >= 1
  {
    Suites(Grouped(qs.mochitest, files), Grouped(qs.xpcshell, files))
  }

  /** A reply whose every row has a first column, so `testchunk[0]` does not raise. */
  predicate Readable(reply: GroupsReply) {
    reply.Groups? && forall row :: row in reply.rows ==> |row| >= 1
  }

  /**
   * `set(mochi_tests) | set(xpc_tests)` after the `try` of lines 191-199: the
   * first column of both replies, or nothing at all when either query raised
   * or either reply has a row without a column.
   */
  function GroupedTests(mochitest: GroupsReply, xpcshell: GroupsReply): (tests: set<string>)
    ensures !Readable(mochitest) || !Readable(xpcshell) ==> tests == {}
    ensures Readable(mochitest) && Readable(xpcshell) ==>
              forall name :: name in tests <==>
                (exists row :: row in mochitest.rows && row[0] == name)
                || (exists row :: row in xpcshell.rows && row[0] == name)
  {
    if Readable(mochitest) && Readable(xpcshell) then
      (set row | row in mochitest.rows :: row[0]) + (set row | row in xpcshell.rows :: row[0])
    else {}
  }

  // ---------------------------------------------------------------------------
  // The loop over the changesets (lines 137-215)
  // ---------------------------------------------------------------------------

  /**
   * The variables the loop over the changesets changes: the two query
   * documents, the precise-mode test columns, `tests_for_changeset`,
   * `tests_per_file` and the two histogram lists.
   */
  datatype RunState = RunState(
    queries: Suites,
    last: LastTests,
    testsForChangeset: Dict<Summary>,
    testsPerFile: Dict<set<string>>,
    histogram1: seq<Bar>,
    histogram2: seq<RatioBar>)

  /** The state before the first changeset. */
  function Initial(cfg: Config): RunState {
    RunState(Templates(cfg), LastTests(None, None), Empty(), Empty(), [], [])
  }

  /** The dictionaries are well formed and the documents have the shape the mode's rewrite needs. */
  ghost predicate StateOk(cfg: Config, st: RunState) {
    && Valid(st.testsForChangeset) && Valid(st.testsPerFile)
    && if cfg.analyzeFilesWithMissingTests then FileSlots(st.queries)
       else |st.queries.mochitest.conjuncts| >= 1 && |st.queries.xpcshell.conjuncts| >= 1
  }

  /** Lines 208-215: the changeset's summary and one bar in each histogram. */
  function Record(cfg: Config, st: RunState, changeset: string, files: seq<string>, tests: set<string>): (r: RunState)
    requires Valid(st.testsForChangeset)
    ensures Valid(r.testsForChangeset) && changeset in r.testsForChangeset.entries
    ensures r.testsForChangeset.entries[changeset]
            == Summary(PatchLink(cfg.analysisbranch, changeset), |files|, |tests|, tests)
    ensures forall k :: k != changeset && k in st.testsForChangeset.entries ==>
              k in r.testsForChangeset.entries && r.testsForChangeset.entries[k] == st.testsForChangeset.entries[k]
    ensures st.histogram1 <= r.histogram1 && |r.histogram1| == |st.histogram1| + 1
    ensures st.histogram2 <= r.histogram2 && |r.histogram2| == |st.histogram2| + 1
    ensures r.histogram1[|st.histogram1|].numtests == r.histogram2[|st.histogram2|].numtests
            == r.testsForChangeset.entries[changeset].numtests
    ensures r.histogram1[|st.histogram1|].changeset == r.histogram2[|st.histogram2|].changeset == changeset
    ensures r.histogram2[|st.histogram2|].numfiles == |files|
    ensures r.queries == st.queries && r.last == st.last && r.testsPerFile == st.testsPerFile
  {
    st.(testsForChangeset := Put(st.testsForChangeset, changeset,
                                 Summary(PatchLink(cfg.analysisbranch, changeset), |files|, |tests|, tests)),
        histogram1 := st.histogram1 + [Bar(|tests|, changeset)],
        histogram2 := st.histogram2 + [RatioBar(|tests|, |files|, changeset)])
  }

  /** One iteration of the loop: skip a changeset without files, else query in the configured mode and record. */
  function ProcessChangeset(cfg: Config, svc: Services, st: RunState, changeset: string): (r: Result<RunState, RunError>)
    requires StateOk(cfg, st)
    ensures r.Success? ==> StateOk(cfg, r.value)
  {
    var files := FilesModified(cfg, svc, changeset);
    if files == [] then Success(st)
    else if cfg.analyzeFilesWithMissingTests then
      match ScanFiles(svc, Scan(st.queries, st.last, st.testsPerFile, {}), files)
      case Failure(e) => Failure(e)
      case Success(sc) =>
        Success(Record(cfg, st.(queries := sc.queries, last := sc.last, testsPerFile := sc.testsPerFile),
                       changeset, files, sc.allTests))
    else
      var qs := ForFiles(st.queries, files);
      Success(Record(cfg, st.(queries := qs), changeset, files,
                     GroupedTests(svc.groups(qs.mochitest), svc.groups(qs.xpcshell))))
  }

  /** The loop over `changesets`, stopping at the first error. */
  function ProcessAll(cfg: Config, svc: Services, st: RunState, changesets: seq<string>): (r: Result<RunState, RunError>)
    requires StateOk(cfg, st)
    ensures r.Success? ==> StateOk(cfg, r.value)
    decreases |changesets|
  {
    if changesets == [] then Success(st)
    else
      match ProcessChangeset(cfg, svc, st, changesets[0])
      case Failure(e) => Failure(e)
      case Success(st') => ProcessAll(cfg, svc, st', changesets[1..])
  }

  /** The loop over the changesets (lines 137-215). */
  method Correlate(cfg: Config, svc: Services, changesets: seq<string>) returns (r: Result<RunState, RunError>)
    ensures r == ProcessAll(cfg, svc, Initial(cfg), changesets)
  {
    var queries, last := Templates(cfg), LastTests(None, None);
    var testsForChangeset: Dict<Summary> := Empty();
    var testsPerFile: Dict<set<string>> := Empty();
    var histogram1: seq<Bar> := [];
    var histogram2: seq<RatioBar> := [];
    for i := 0 to |changesets|
      invariant StateOk(cfg, RunState(queries, last, testsForChangeset, testsPerFile, histogram1, histogram2))
      invariant ProcessAll(cfg, svc, Initial(cfg), changesets)
                == ProcessAll(cfg, svc, RunState(queries, last, testsForChangeset, testsPerFile, histogram1, histogram2),
                              changesets[i..])
    {
      var changeset := changesets[i];
      assert changesets[i..][1..] == changesets[i + 1..];
      var files := svc.info(InfoUrl(cfg.analysisbranch, changeset));
      if files == [] {
        continue;
      }
      var allTests: set<string>;
      if cfg.analyzeFilesWithMissingTests {
        var scan := QueryEachFile(svc, Scan(queries, last, testsPerFile, {}), files);
        if scan.Failure? {
          return Failure(scan.error);
        }
        queries, last, testsPerFile, allTests := scan.value.queries, scan.value.last, scan.value.testsPerFile, scan.value.allTests;
      } else {
        queries := ForFiles(queries, files);
        allTests := GroupedTests(svc.groups(queries.mochitest), svc.groups(queries.xpcshell));
      }
      testsForChangeset := Put(testsForChangeset, changeset,
                               Summary(PatchLink(cfg.analysisbranch, changeset), |files|, |allTests|, allTests));
      histogram1 := histogram1 + [Bar(|allTests|, changeset)];
      histogram2 := histogram2 + [RatioBar(|allTests|, |files|, changeset)];
    }
    r := Success(RunState(queries, last, testsForChangeset, testsPerFile, histogram1, histogram2));
  }

  // ---------------------------------------------------------------------------
  // What the run leaves behind (lines 220-240) and the whole run
  // ---------------------------------------------------------------------------

  /** The results run() saves and plots. */
  datatype Report = Report(
    testsForChangeset: Dict<Summary>,
    testsPerFile: Dict<set<string>>,
    filesWithNoTests: seq<string>,
    histogram1: seq<Bar>,
    histogram2: seq<RatioBar>,
    ratios: seq<real>)

  /** `files_with_no_tests["files"]`: the files, in insertion order, whose test list is empty. */
  function FilesWithNoTests(testsPerFile: Dict<set<string>>): (files: seq<string>)
    requires Valid(testsPerFile)
    ensures forall f :: f in files <==> f in testsPerFile.entries && testsPerFile.entries[f] == {}
    ensures Subsequence(files, testsPerFile.keys) && Distinct(files)
  {
    KeysWhere(testsPerFile.keys, testsPerFile.entries, (tests: set<string>) => tests == {})
  }

  /** `ratioed_data`: tests per modified file of each bar, 0 for a bar without files. */
  function Ratios(bars: seq<RatioBar>): (ratios: seq<real>)
    ensures |ratios| == |bars|
    ensures forall i :: 0 <= i < |bars| && bars[i].numfiles == 0 ==> ratios[i] == 0.0
    ensures forall i :: 0 <= i < |bars| && bars[i].numfiles > 0 ==>
              ratios[i] * bars[i].numfiles as real == bars[i].numtests as real
  {
    seq(|bars|, i requires 0 <= i < |bars| =>
      if bars[i].numfiles > 0 then bars[i].numtests as real / bars[i].numfiles as real else 0.0)
  }

  function Finish(st: RunState): Report
    requires Valid(st.testsPerFile)
  {
    Report(st.testsForChangeset, st.testsPerFile, FilesWithNoTests(st.testsPerFile),
           st.histogram1, st.histogram2, Ratios(st.histogram2))
  }

  /** The changesets the walk yields: the first `numpatches` IDs collected from `startrev`. */
  ghost function Walked(cfg: Config, svc: Services): (changesets: seq<string>)
    requires Advancing(svc.log)
    ensures |changesets| == if cfg.numpatches < 0 then 0 else cfg.numpatches
  {
    CollectCovers(svc.log, cfg.analysisbranch, cfg.startrev, cfg.numpatches);
    var collected := Collect(svc.log, cfg.analysisbranch, cfg.startrev, cfg.numpatches);
    if cfg.numpatches <= 0 then [] else collected[..cfg.numpatches]
  }

  /** The whole run: the walk, the loop over the changesets, and the derived results. */
  ghost function Analysis(cfg: Config, svc: Services): Result<Report, RunError>
    requires Advancing(svc.log)
  {
    assert StateOk(cfg, Initial(cfg));
    match ProcessAll(cfg, svc, Initial(cfg), Walked(cfg, svc))
    case Failure(e) => Failure(e)
    case Success(st) => Success(Finish(st))
  }

  /** run() without its I/O: walk, correlate, and derive the saved and plotted results. */
  method Run(cfg: Config, svc: Services) returns (r: Result<Report, RunError>)
    requires Advancing(svc.log)
    ensures r == Analysis(cfg, svc)
  {
    var changesets := WalkHistory(svc.log, cfg.analysisbranch, cfg.startrev, cfg.numpatches);
    assert changesets == Walked(cfg, svc);
    var st := Correlate(cfg, svc, changesets);
    assert StateOk(cfg, Initial(cfg));
    if st.Failure? {
      return Failure(st.error);
    }
    r := Success(Finish(st.value));
  }
}
