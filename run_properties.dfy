/**
 * What a whole run of the correlation promises: which changesets get a
 * summary and a bar, what each summary says, and what `tests_per_file`,
 * `files_with_no_tests` and the aggregate-mode summaries hold.
 */
module RunProperties {

  import opened Wrappers
  import opened OrderedDict
  import opened History
  import opened CoverageQuery
  import opened PatchAnalysis

  /** The changesets of `cs` whose `json-info` lists at least one file, in walk order. */
  function Recorded(cfg: Config, svc: Services, cs: seq<string>): (r: seq<string>)
    ensures forall c :: c in r <==> c in cs && FilesModified(cfg, svc, c) != []
  {
    if cs == [] then []
    else
      assert forall c :: c in cs <==> c == cs[0] || c in cs[1..];
      (if FilesModified(cfg, svc, cs[0]) != [] then [cs[0]] else []) + Recorded(cfg, svc, cs[1..])
  }

  /** The x-axis labels of the first histogram. */
  function BarChangesets(bars: seq<Bar>): (r: seq<string>)
    ensures |r| == |bars| && forall i :: 0 <= i < |bars| ==> r[i] == bars[i].changeset
  {
    seq(|bars|, i requires 0 <= i < |bars| => bars[i].changeset)
  }

  /** Every summary belongs to a changeset with files and says what lines 208-212 store. */
  ghost predicate SummariesFaithful(cfg: Config, svc: Services, d: Dict<Summary>) {
    forall c :: c in d.entries ==>
      && FilesModified(cfg, svc, c) != []
      && d.entries[c].patchLink == PatchLink(cfg.analysisbranch, c)
      && d.entries[c].numfiles == |FilesModified(cfg, svc, c)|
      && d.entries[c].numtests == |d.entries[c].tests|
  }

  /** The two histograms have one bar per recorded changeset each, and agree bar by bar. */
  ghost predicate BarsFaithful(cfg: Config, svc: Services, h1: seq<Bar>, h2: seq<RatioBar>) {
    && |h1| == |h2|
    && forall i :: 0 <= i < |h1| ==>
         && h1[i].changeset == h2[i].changeset
         && h1[i].numtests == h2[i].numtests
         && h2[i].numfiles == |FilesModified(cfg, svc, h2[i].changeset)|
         && h2[i].numfiles > 0
  }

  ghost predicate Faithful(cfg: Config, svc: Services, st: RunState) {
    SummariesFaithful(cfg, svc, st.testsForChangeset) && BarsFaithful(cfg, svc, st.histogram1, st.histogram2)
  }

  /** One successful step of the loop followed by the rest of it. */
  lemma ProcessAllCons(cfg: Config, svc: Services, st: RunState, cs: seq<string>)
    requires StateOk(cfg, st) && cs != []
    requires ProcessAll(cfg, svc, st, cs).Success?
    ensures ProcessChangeset(cfg, svc, st, cs[0]).Success?
    ensures ProcessAll(cfg, svc, st, cs) == ProcessAll(cfg, svc, ProcessChangeset(cfg, svc, st, cs[0]).value, cs[1..])
  {
  }

  /** `Recorded` splits between the first changeset and the rest. */
  lemma RecordedCons(cfg: Config, svc: Services, cs: seq<string>)
    requires cs != []
    ensures Recorded(cfg, svc, cs) == Recorded(cfg, svc, [cs[0]]) + Recorded(cfg, svc, cs[1..])
  {
    assert [cs[0]][1..] == [];
  }

  /** One changeset adds its summary, if it has files, and keeps the others faithful. */
  lemma ProcessChangesetSummaries(cfg: Config, svc: Services, st: RunState, c: string)
    requires StateOk(cfg, st) && SummariesFaithful(cfg, svc, st.testsForChangeset)
    requires ProcessChangeset(cfg, svc, st, c).Success?
    ensures SummariesFaithful(cfg, svc, ProcessChangeset(cfg, svc, st, c).value.testsForChangeset)
    ensures forall k :: (k in ProcessChangeset(cfg, svc, st, c).value.testsForChangeset.entries
                         <==> k in st.testsForChangeset.entries || k in Recorded(cfg, svc, [c]))
    ensures st.testsForChangeset.keys <= ProcessChangeset(cfg, svc, st, c).value.testsForChangeset.keys
    ensures forall k :: k != c && k in st.testsForChangeset.entries ==>
              ProcessChangeset(cfg, svc, st, c).value.testsForChangeset.entries[k] == st.testsForChangeset.entries[k]
  {
    var files := FilesModified(cfg, svc, c);
    if files == [] {
      assert Recorded(cfg, svc, [c]) == [];
    } else {
      assert Recorded(cfg, svc, [c]) == [c];
      if cfg.analyzeFilesWithMissingTests {
        var sc := ScanFiles(svc, Scan(st.queries, st.last, st.testsPerFile, {}), files).value;
        RecordSummary(cfg, svc, st.(queries := sc.queries, last := sc.last, testsPerFile := sc.testsPerFile), c, sc.allTests);
      } else {
        var qs := ForFiles(st.queries, files);
        RecordSummary(cfg, svc, st.(queries := qs), c, GroupedTests(svc.groups(qs.mochitest), svc.groups(qs.xpcshell)));
      }
    }
  }

  /** Recording a changeset with files adds its faithful summary and leaves the others alone. */
  lemma RecordSummary(cfg: Config, svc: Services, st: RunState, c: string, tests: set<string>)
    requires Valid(st.testsForChangeset) && SummariesFaithful(cfg, svc, st.testsForChangeset)
    requires FilesModified(cfg, svc, c) != []
    ensures SummariesFaithful(cfg, svc, Record(cfg, st, c, FilesModified(cfg, svc, c), tests).testsForChangeset)
    ensures forall k :: (k in Record(cfg, st, c, FilesModified(cfg, svc, c), tests).testsForChangeset.entries
                         <==> k in st.testsForChangeset.entries || k == c)
    ensures st.testsForChangeset.keys <= Record(cfg, st, c, FilesModified(cfg, svc, c), tests).testsForChangeset.keys
    ensures forall k :: k != c && k in st.testsForChangeset.entries ==>
              Record(cfg, st, c, FilesModified(cfg, svc, c), tests).testsForChangeset.entries[k] == st.testsForChangeset.entries[k]
  {
  }

  /**
   * One changeset appends one bar to each histogram if it has files, and none
   * otherwise; the earlier bars stay as they were, and the new bar counts the
   * tests of the summary recorded with it.
   */
  lemma ProcessChangesetBars(cfg: Config, svc: Services, st: RunState, c: string)
    requires StateOk(cfg, st) && BarsFaithful(cfg, svc, st.histogram1, st.histogram2)
    requires ProcessChangeset(cfg, svc, st, c).Success?
    ensures BarsFaithful(cfg, svc, ProcessChangeset(cfg, svc, st, c).value.histogram1,
                         ProcessChangeset(cfg, svc, st, c).value.histogram2)
    ensures BarChangesets(ProcessChangeset(cfg, svc, st, c).value.histogram1)
            == BarChangesets(st.histogram1) + Recorded(cfg, svc, [c])
    ensures st.histogram1 <= ProcessChangeset(cfg, svc, st, c).value.histogram1
    ensures st.histogram2 <= ProcessChangeset(cfg, svc, st, c).value.histogram2
    ensures FilesModified(cfg, svc, c) != [] ==>
              && c in ProcessChangeset(cfg, svc, st, c).value.testsForChangeset.entries
              && ProcessChangeset(cfg, svc, st, c).value.histogram1[|ProcessChangeset(cfg, svc, st, c).value.histogram1| - 1].numtests
                 == ProcessChangeset(cfg, svc, st, c).value.testsForChangeset.entries[c].numtests
  {
    var files := FilesModified(cfg, svc, c);
    if files == [] {
      assert Recorded(cfg, svc, [c]) == [];
    } else {
      assert Recorded(cfg, svc, [c]) == [c];
      if cfg.analyzeFilesWithMissingTests {
        var sc := ScanFiles(svc, Scan(st.queries, st.last, st.testsPerFile, {}), files).value;
        RecordBars(cfg, svc, st.(queries := sc.queries, last := sc.last, testsPerFile := sc.testsPerFile), c, sc.allTests);
      } else {
        var qs := ForFiles(st.queries, files);
        RecordBars(cfg, svc, st.(queries := qs), c, GroupedTests(svc.groups(qs.mochitest), svc.groups(qs.xpcshell)));
      }
    }
  }

  /** Recording a changeset with files appends one agreeing bar to each histogram. */
  lemma RecordBars(cfg: Config, svc: Services, st: RunState, c: string, tests: set<string>)
    requires Valid(st.testsForChangeset) && BarsFaithful(cfg, svc, st.histogram1, st.histogram2)
    requires FilesModified(cfg, svc, c) != []
    ensures BarsFaithful(cfg, svc, Record(cfg, st, c, FilesModified(cfg, svc, c), tests).histogram1,
                         Record(cfg, st, c, FilesModified(cfg, svc, c), tests).histogram2)
    ensures BarChangesets(Record(cfg, st, c, FilesModified(cfg, svc, c), tests).histogram1)
            == BarChangesets(st.histogram1) + [c]
    ensures st.histogram1 <= Record(cfg, st, c, FilesModified(cfg, svc, c), tests).histogram1
    ensures st.histogram2 <= Record(cfg, st, c, FilesModified(cfg, svc, c), tests).histogram2
    ensures c in Record(cfg, st, c, FilesModified(cfg, svc, c), tests).testsForChangeset.entries
    ensures Record(cfg, st, c, FilesModified(cfg, svc, c), tests).histogram1[|st.histogram1|].numtests
            == Record(cfg, st, c, FilesModified(cfg, svc, c), tests).testsForChangeset.entries[c].numtests
  {
  }

  /** Every summary states the changeset's link, its number of files and its number of distinct tests. */
  lemma {:induction false} ProcessAllSummaries(cfg: Config, svc: Services, st: RunState, cs: seq<string>)
    requires StateOk(cfg, st) && SummariesFaithful(cfg, svc, st.testsForChangeset)
    requires ProcessAll(cfg, svc, st, cs).Success?
    ensures SummariesFaithful(cfg, svc, ProcessAll(cfg, svc, st, cs).value.testsForChangeset)
    decreases |cs|
  {
    if cs != [] {
      ProcessAllCons(cfg, svc, st, cs);
      ProcessChangesetSummaries(cfg, svc, st, cs[0]);
      ProcessAllSummaries(cfg, svc, ProcessChangeset(cfg, svc, st, cs[0]).value, cs[1..]);
    }
  }

  /** The two histograms stay in step, bar by bar, and no bar has zero files. */
  lemma {:induction false} ProcessAllBarsAgree(cfg: Config, svc: Services, st: RunState, cs: seq<string>)
    requires StateOk(cfg, st) && BarsFaithful(cfg, svc, st.histogram1, st.histogram2)
    requires ProcessAll(cfg, svc, st, cs).Success?
    ensures BarsFaithful(cfg, svc, ProcessAll(cfg, svc, st, cs).value.histogram1,
                         ProcessAll(cfg, svc, st, cs).value.histogram2)
    decreases |cs|
  {
    if cs != [] {
      ProcessAllCons(cfg, svc, st, cs);
      ProcessChangesetBars(cfg, svc, st, cs[0]);
      ProcessAllBarsAgree(cfg, svc, ProcessChangeset(cfg, svc, st, cs[0]).value, cs[1..]);
    }
  }

  /**
   * The histograms get one bar each per changeset that modifies a file, in
   * walk order, and no bar for any other changeset.
   */
  lemma {:induction false} ProcessAllBars(cfg: Config, svc: Services, st: RunState, cs: seq<string>)
    requires StateOk(cfg, st) && BarsFaithful(cfg, svc, st.histogram1, st.histogram2)
    requires ProcessAll(cfg, svc, st, cs).Success?
    ensures BarChangesets(ProcessAll(cfg, svc, st, cs).value.histogram1)
            == BarChangesets(st.histogram1) + Recorded(cfg, svc, cs)
    decreases |cs|
  {
    if cs != [] {
      ProcessAllCons(cfg, svc, st, cs);
      ProcessChangesetBars(cfg, svc, st, cs[0]);
      var st' := ProcessChangeset(cfg, svc, st, cs[0]).value;
      ProcessAllBars(cfg, svc, st', cs[1..]);
      RecordedCons(cfg, svc, cs);
      var before, mine, later := BarChangesets(st.histogram1), Recorded(cfg, svc, [cs[0]]), Recorded(cfg, svc, cs[1..]);
      Assoc(before, mine, later);
    }
  }

  /**
   * A changeset has a summary exactly when it modifies a file (or had one
   * before); summaries keep the order in which their changesets first appeared.
   */
  lemma {:induction false} ProcessAllSummaryKeys(cfg: Config, svc: Services, st: RunState, cs: seq<string>)
    requires StateOk(cfg, st) && SummariesFaithful(cfg, svc, st.testsForChangeset)
    requires ProcessAll(cfg, svc, st, cs).Success?
    ensures forall k :: (k in ProcessAll(cfg, svc, st, cs).value.testsForChangeset.entries
                         <==> k in st.testsForChangeset.entries || k in Recorded(cfg, svc, cs))
    ensures st.testsForChangeset.keys <= ProcessAll(cfg, svc, st, cs).value.testsForChangeset.keys
    decreases |cs|
  {
    if cs != [] {
      ProcessAllCons(cfg, svc, st, cs);
      ProcessChangesetSummaries(cfg, svc, st, cs[0]);
      ProcessAllSummaryKeys(cfg, svc, ProcessChangeset(cfg, svc, st, cs[0]).value, cs[1..]);
      RecordedCons(cfg, svc, cs);
    }
  }

  // ---------------------------------------------------------------------------
  // Aggregate mode
  // ---------------------------------------------------------------------------

  predicate SameFiltersBoth(qs: Suites, t: Suites) {
    SameFilters(qs.mochitest, t.mochitest) && SameFilters(qs.xpcshell, t.xpcshell)
  }

  /** The tests the two grouped queries over the changeset's files report. */
  function AggregateTests(cfg: Config, svc: Services, changeset: string): set<string> {
    var qs := ForFiles(Templates(cfg), FilesModified(cfg, svc, changeset));
    GroupedTests(svc.groups(qs.mochitest), svc.groups(qs.xpcshell))
  }

  /**
   * In aggregate mode nothing can fail, `tests_per_file` is never touched, and
   * every recorded changeset's tests are what the grouped queries over its own
   * files report, whatever documents earlier changesets left behind.
   */
  lemma {:induction false} AggregateProcessAll(cfg: Config, svc: Services, st: RunState, cs: seq<string>)
    requires !cfg.analyzeFilesWithMissingTests
    requires StateOk(cfg, st) && SameFiltersBoth(st.queries, Templates(cfg))
    ensures ProcessAll(cfg, svc, st, cs).Success?
    ensures SameFiltersBoth(ProcessAll(cfg, svc, st, cs).value.queries, Templates(cfg))
    ensures ProcessAll(cfg, svc, st, cs).value.testsPerFile == st.testsPerFile
    ensures forall c :: c in Recorded(cfg, svc, cs) ==>
              c in ProcessAll(cfg, svc, st, cs).value.testsForChangeset.entries
              && ProcessAll(cfg, svc, st, cs).value.testsForChangeset.entries[c].tests == AggregateTests(cfg, svc, c)
    ensures forall c :: c !in cs && c in st.testsForChangeset.entries ==>
              c in ProcessAll(cfg, svc, st, cs).value.testsForChangeset.entries
              && ProcessAll(cfg, svc, st, cs).value.testsForChangeset.entries[c] == st.testsForChangeset.entries[c]
    decreases |cs|
  {
    if cs != [] {
      var c := cs[0];
      var files := FilesModified(cfg, svc, c);
      var st' := ProcessChangeset(cfg, svc, st, c).value;
      if files != [] {
        var t := Templates(cfg);
        GroupedForgetsEarlierFiles(st.queries.mochitest, t.mochitest, files);
        GroupedForgetsEarlierFiles(st.queries.xpcshell, t.xpcshell, files);
        assert st'.testsForChangeset.entries[c].tests == AggregateTests(cfg, svc, c);
      }
      AggregateProcessAll(cfg, svc, st', cs[1..]);
      assert forall k :: k in cs <==> k == c || k in cs[1..];
    }
  }

  // ---------------------------------------------------------------------------
  // Precise mode
  // ---------------------------------------------------------------------------

  /** Every file some changeset of `cs` modifies. */
  function TouchedFiles(cfg: Config, svc: Services, cs: seq<string>): (r: set<string>)
    ensures forall f :: f in r <==> exists c :: c in cs && f in FilesModified(cfg, svc, c)
  {
    if cs == [] then {}
    else
      assert forall c :: c in cs <==> c == cs[0] || c in cs[1..];
      Elements(FilesModified(cfg, svc, cs[0])) + TouchedFiles(cfg, svc, cs[1..])
  }

  /** Every precise query for every file of every changeset in `cs` answers. */
  ghost predicate AllAnswered(cfg: Config, svc: Services, cs: seq<string>) {
    && FileSlots(Templates(cfg))
    && forall f :: f in TouchedFiles(cfg, svc, cs) ==> Answers(svc, Templates(cfg), f)
  }

  /** The state after the precise scan of one changeset, when all its queries answer. */
  lemma PreciseProcessChangeset(cfg: Config, svc: Services, st: RunState, c: string)
    requires cfg.analyzeFilesWithMissingTests
    requires StateOk(cfg, st) && RetargetsBoth(st.queries, Templates(cfg))
    requires AllAnswered(cfg, svc, [c])
    ensures ProcessChangeset(cfg, svc, st, c).Success?
    ensures RetargetsBoth(ProcessChangeset(cfg, svc, st, c).value.queries, Templates(cfg))
    ensures forall f :: (f in ProcessChangeset(cfg, svc, st, c).value.testsPerFile.entries
                         <==> f in st.testsPerFile.entries || f in FilesModified(cfg, svc, c))
    ensures forall f :: f in FilesModified(cfg, svc, c) ==>
              ProcessChangeset(cfg, svc, st, c).value.testsPerFile.entries[f] == AnsweredTests(svc, Templates(cfg), f)
    ensures forall f :: f !in FilesModified(cfg, svc, c) && f in st.testsPerFile.entries ==>
              ProcessChangeset(cfg, svc, st, c).value.testsPerFile.entries[f] == st.testsPerFile.entries[f]
    ensures st.testsPerFile.keys <= ProcessChangeset(cfg, svc, st, c).value.testsPerFile.keys
  {
    var files := FilesModified(cfg, svc, c);
    var t := Templates(cfg);
    if files != [] {
      assert forall f :: f in files ==> f in TouchedFiles(cfg, svc, [c]);
      ScanWhenAnswered(svc, Scan(st.queries, st.last, st.testsPerFile, {}), t, files);
    }
  }

  /** The summary the precise scan of one changeset records, when all its queries answer. */
  lemma PreciseChangesetSummary(cfg: Config, svc: Services, st: RunState, c: string)
    requires cfg.analyzeFilesWithMissingTests
    requires StateOk(cfg, st) && RetargetsBoth(st.queries, Templates(cfg))
    requires AllAnswered(cfg, svc, [c])
    ensures ProcessChangeset(cfg, svc, st, c).Success?
    ensures RetargetsBoth(ProcessChangeset(cfg, svc, st, c).value.queries, Templates(cfg))
    ensures FilesModified(cfg, svc, c) != [] ==>
              c in ProcessChangeset(cfg, svc, st, c).value.testsForChangeset.entries
              && ProcessChangeset(cfg, svc, st, c).value.testsForChangeset.entries[c].tests
                 == AnsweredUnion(svc, Templates(cfg), FilesModified(cfg, svc, c))
    ensures forall k :: k != c && k in st.testsForChangeset.entries ==>
              k in ProcessChangeset(cfg, svc, st, c).value.testsForChangeset.entries
              && ProcessChangeset(cfg, svc, st, c).value.testsForChangeset.entries[k] == st.testsForChangeset.entries[k]
  {
    var files := FilesModified(cfg, svc, c);
    var t := Templates(cfg);
    if files != [] {
      assert forall f :: f in files ==> f in TouchedFiles(cfg, svc, [c]);
      ScanWhenAnswered(svc, Scan(st.queries, st.last, st.testsPerFile, {}), t, files);
    }
  }

  /**
   * In precise mode, when every query answers, the run cannot fail; a file has
   * an entry in `tests_per_file` exactly when some changeset modified it (or it
   * had one before), that entry is the tests its own two queries report, and
   * the older keys are neither removed nor reordered.
   */
  lemma {:induction false} PreciseProcessAll(cfg: Config, svc: Services, st: RunState, cs: seq<string>)
    requires cfg.analyzeFilesWithMissingTests
    requires StateOk(cfg, st) && RetargetsBoth(st.queries, Templates(cfg))
    requires AllAnswered(cfg, svc, cs)
    ensures ProcessAll(cfg, svc, st, cs).Success?
    ensures RetargetsBoth(ProcessAll(cfg, svc, st, cs).value.queries, Templates(cfg))
    ensures forall f :: (f in ProcessAll(cfg, svc, st, cs).value.testsPerFile.entries
                         <==> f in st.testsPerFile.entries || f in TouchedFiles(cfg, svc, cs))
    ensures forall f :: f in TouchedFiles(cfg, svc, cs) ==>
              ProcessAll(cfg, svc, st, cs).value.testsPerFile.entries[f] == AnsweredTests(svc, Templates(cfg), f)
    ensures forall f :: f !in TouchedFiles(cfg, svc, cs) && f in st.testsPerFile.entries ==>
              ProcessAll(cfg, svc, st, cs).value.testsPerFile.entries[f] == st.testsPerFile.entries[f]
    ensures st.testsPerFile.keys <= ProcessAll(cfg, svc, st, cs).value.testsPerFile.keys
    decreases |cs|
  {
    if cs != [] {
      var c, rest := cs[0], cs[1..];
      PreciseStep(cfg, svc, cs);
      PreciseProcessChangeset(cfg, svc, st, c);
      var st' := ProcessChangeset(cfg, svc, st, c).value;
      assert ProcessAll(cfg, svc, st, cs) == ProcessAll(cfg, svc, st', rest);
      PreciseProcessAll(cfg, svc, st', rest);
    }
  }

  /** In precise mode, when every query answers, each recorded changeset's tests are the union over its files. */
  lemma {:induction false} PreciseChangesetTests(cfg: Config, svc: Services, st: RunState, cs: seq<string>)
    requires cfg.analyzeFilesWithMissingTests
    requires StateOk(cfg, st) && RetargetsBoth(st.queries, Templates(cfg))
    requires AllAnswered(cfg, svc, cs)
    ensures ProcessAll(cfg, svc, st, cs).Success?
    ensures forall c :: c in Recorded(cfg, svc, cs) ==>
              c in ProcessAll(cfg, svc, st, cs).value.testsForChangeset.entries
              && ProcessAll(cfg, svc, st, cs).value.testsForChangeset.entries[c].tests
                 == AnsweredUnion(svc, Templates(cfg), FilesModified(cfg, svc, c))
    ensures forall c :: c !in cs && c in st.testsForChangeset.entries ==>
              c in ProcessAll(cfg, svc, st, cs).value.testsForChangeset.entries
              && ProcessAll(cfg, svc, st, cs).value.testsForChangeset.entries[c] == st.testsForChangeset.entries[c]
    decreases |cs|
  {
    if cs != [] {
      var c, rest := cs[0], cs[1..];
      PreciseStep(cfg, svc, cs);
      PreciseChangesetSummary(cfg, svc, st, c);
      var st' := ProcessChangeset(cfg, svc, st, c).value;
      assert ProcessAll(cfg, svc, st, cs) == ProcessAll(cfg, svc, st', rest);
      PreciseChangesetTests(cfg, svc, st', rest);
      var d := ProcessAll(cfg, svc, st', rest).value.testsForChangeset;
      assert ProcessAll(cfg, svc, st, cs).value.testsForChangeset == d;
      forall k | k in Recorded(cfg, svc, cs)
        ensures k in d.entries
        ensures d.entries[k].tests == AnsweredUnion(svc, Templates(cfg), FilesModified(cfg, svc, k))
      {
        if k !in rest {
          assert k == c;
        }
      }
      forall k | k !in cs && k in st.testsForChangeset.entries
        ensures k in d.entries && d.entries[k] == st.testsForChangeset.entries[k]
      {
        assert k != c && k !in rest;
      }
    }
  }

  /** The answered-queries condition splits between the first changeset and the rest. */
  lemma PreciseStep(cfg: Config, svc: Services, cs: seq<string>)
    requires cs != [] && AllAnswered(cfg, svc, cs)
    ensures AllAnswered(cfg, svc, [cs[0]]) && AllAnswered(cfg, svc, cs[1..])
    ensures TouchedFiles(cfg, svc, cs) == TouchedFiles(cfg, svc, [cs[0]]) + TouchedFiles(cfg, svc, cs[1..])
  {
    assert [cs[0]][1..] == [];
    assert TouchedFiles(cfg, svc, [cs[0]]) == Elements(FilesModified(cfg, svc, cs[0])) + TouchedFiles(cfg, svc, []);
  }

  // ---------------------------------------------------------------------------
  // The whole run
  // ---------------------------------------------------------------------------

  /** The final loop state of a successful run. */
  lemma AnalysisState(cfg: Config, svc: Services) returns (st: RunState)
    requires Advancing(svc.log) && Analysis(cfg, svc).Success?
    ensures StateOk(cfg, Initial(cfg))
    ensures ProcessAll(cfg, svc, Initial(cfg), Walked(cfg, svc)) == Success(st)
    ensures Analysis(cfg, svc) == Success(Finish(st))
  {
    assert StateOk(cfg, Initial(cfg));
    st := ProcessAll(cfg, svc, Initial(cfg), Walked(cfg, svc)).value;
  }

  /**
   * A finished run: one summary per walked changeset that modifies a file and
   * for no other, each stating its link, file count and test count; and one
   * bar per such changeset in each histogram, in walk order.
   */
  lemma AnalysisRecords(cfg: Config, svc: Services)
    requires Advancing(svc.log) && Analysis(cfg, svc).Success?
    ensures SummariesFaithful(cfg, svc, Analysis(cfg, svc).value.testsForChangeset)
    ensures BarsFaithful(cfg, svc, Analysis(cfg, svc).value.histogram1, Analysis(cfg, svc).value.histogram2)
    ensures BarChangesets(Analysis(cfg, svc).value.histogram1) == Recorded(cfg, svc, Walked(cfg, svc))
    ensures forall c :: (c in Analysis(cfg, svc).value.testsForChangeset.entries
                         <==> c in Recorded(cfg, svc, Walked(cfg, svc)))
  {
    var st := AnalysisState(cfg, svc);
    assert Faithful(cfg, svc, Initial(cfg));
    ProcessAllSummaries(cfg, svc, Initial(cfg), Walked(cfg, svc));
    ProcessAllBarsAgree(cfg, svc, Initial(cfg), Walked(cfg, svc));
    ProcessAllBars(cfg, svc, Initial(cfg), Walked(cfg, svc));
    ProcessAllSummaryKeys(cfg, svc, Initial(cfg), Walked(cfg, svc));
    assert BarChangesets(Initial(cfg).histogram1) == [];
  }

  /**
   * One ratio per bar of the second histogram, and its zero guard never
   * applies: every bar belongs to a changeset that modifies a file.
   */
  lemma AnalysisRatios(cfg: Config, svc: Services)
    requires Advancing(svc.log) && Analysis(cfg, svc).Success?
    ensures |Analysis(cfg, svc).value.ratios| == |Analysis(cfg, svc).value.histogram2|
    ensures forall i :: 0 <= i < |Analysis(cfg, svc).value.ratios| ==>
              Analysis(cfg, svc).value.histogram2[i].numfiles > 0
              && Analysis(cfg, svc).value.ratios[i]
                 == Analysis(cfg, svc).value.histogram2[i].numtests as real
                    / Analysis(cfg, svc).value.histogram2[i].numfiles as real
  {
    var st := AnalysisState(cfg, svc);
    assert Faithful(cfg, svc, Initial(cfg));
    ProcessAllBarsAgree(cfg, svc, Initial(cfg), Walked(cfg, svc));
    var h := st.histogram2;
    assert BarsFaithful(cfg, svc, st.histogram1, h);
    assert Analysis(cfg, svc).value.ratios == Ratios(h) && Analysis(cfg, svc).value.histogram2 == h;
  }

  /**
   * Aggregate mode: the run cannot fail, `tests_per_file` stays empty so no
   * file is listed as untested, and each recorded changeset's tests are what
   * the two grouped queries over its own files report.
   */
  lemma AggregateAnalysis(cfg: Config, svc: Services)
    requires Advancing(svc.log) && !cfg.analyzeFilesWithMissingTests
    ensures Analysis(cfg, svc).Success?
    ensures Analysis(cfg, svc).value.testsPerFile == Empty()
    ensures Analysis(cfg, svc).value.filesWithNoTests == []
    ensures forall c :: c in Recorded(cfg, svc, Walked(cfg, svc)) ==>
              c in Analysis(cfg, svc).value.testsForChangeset.entries
              && Analysis(cfg, svc).value.testsForChangeset.entries[c].tests == AggregateTests(cfg, svc, c)
  {
    var st := Initial(cfg);
    assert StateOk(cfg, st) && SameFiltersBoth(st.queries, Templates(cfg));
    AggregateProcessAll(cfg, svc, st, Walked(cfg, svc));
  }

  /**
   * Precise mode, every query answering: the run cannot fail; `tests_per_file`
   * has an entry for exactly the files the walked changesets modify, each the
   * tests its own queries report; `files_with_no_tests` lists exactly the
   * files whose queries report no test; and each summary's tests are the
   * union over the changeset's files.
   */
  lemma PreciseAnalysis(cfg: Config, svc: Services)
    requires Advancing(svc.log) && cfg.analyzeFilesWithMissingTests
    requires AllAnswered(cfg, svc, Walked(cfg, svc))
    ensures Analysis(cfg, svc).Success?
    ensures forall f :: (f in Analysis(cfg, svc).value.testsPerFile.entries
                         <==> f in TouchedFiles(cfg, svc, Walked(cfg, svc)))
    ensures forall f :: f in TouchedFiles(cfg, svc, Walked(cfg, svc)) ==>
              Analysis(cfg, svc).value.testsPerFile.entries[f] == AnsweredTests(svc, Templates(cfg), f)
    ensures forall f :: (f in Analysis(cfg, svc).value.filesWithNoTests
                         <==> f in TouchedFiles(cfg, svc, Walked(cfg, svc))
                              && AnsweredTests(svc, Templates(cfg), f) == {})
    ensures forall c :: c in Recorded(cfg, svc, Walked(cfg, svc)) ==>
              c in Analysis(cfg, svc).value.testsForChangeset.entries
              && Analysis(cfg, svc).value.testsForChangeset.entries[c].tests
                 == AnsweredUnion(svc, Templates(cfg), FilesModified(cfg, svc, c))
  {
    var st := Initial(cfg);
    assert StateOk(cfg, st) && RetargetsBoth(st.queries, Templates(cfg));
    PreciseProcessAll(cfg, svc, st, Walked(cfg, svc));
    PreciseChangesetTests(cfg, svc, st, Walked(cfg, svc));
  }

  // ---------------------------------------------------------------------------
  // What the rewritten documents ask an honest coverage database for
  // ---------------------------------------------------------------------------

  /** The tests of the rows a document selects. */
  function SelectedTests(rows: seq<Row>, q: Query): set<string> {
    set r | r in rows && Selects(q, r) :: r.test
  }

  /** How many records of `rows` a document selects. */
  function CountSelected(rows: seq<Row>, q: Query): nat {
    if rows == [] then 0 else (if Selects(q, rows[0]) then 1 else 0) + CountSelected(rows[1..], q)
  }

  /**
   * A database holding `rows` that answers every precise query with the
   * `test` column of at most `limit` of the records it selects (a name per
   * record): only tests of selected records, and all of them when no more
   * than `limit` records are selected.
   */
  ghost predicate HonestColumns(svc: Services, rows: seq<Row>) {
    forall q :: svc.columns(q).Columns? && svc.columns(q).test.Some?
                && (q.limit >= 0 ==>
                      && |svc.columns(q).test.value| <= q.limit
                      && Elements(svc.columns(q).test.value) <= SelectedTests(rows, q)
                      && (CountSelected(rows, q) <= q.limit
                          ==> Elements(svc.columns(q).test.value) == SelectedTests(rows, q)))
  }

  /** The rows covering `file` in a suite's task revision and branch. */
  predicate Covers(r: Row, file: string, rev: string, branch: string) {
    r.file == file && r.changeset == rev && r.branch == branch && r.totalCovered > 0
  }

  /** The tests of the rows covering `file` in a suite's task. */
  function FileTests(rows: seq<Row>, file: string, rev: string, branch: string): set<string> {
    set r | r in rows && Covers(r, file, rev, branch) :: r.test
  }

  /** How many rows cover `file` in a suite's task. */
  function CountCovering(rows: seq<Row>, file: string, rev: string, branch: string): nat {
    if rows == [] then 0 else (if Covers(rows[0], file, rev, branch) then 1 else 0) + CountCovering(rows[1..], file, rev, branch)
  }

  /** A precise document for `file` selects as many records as cover the file in the suite's task. */
  lemma {:induction false} CountSelectedCovering(rows: seq<Row>, q: Query, file: string, rev: string, branch: string)
    requires forall r :: r in rows ==> (Selects(q, r) <==> Covers(r, file, rev, branch))
    ensures CountSelected(rows, q) == CountCovering(rows, file, rev, branch)
  {
    if rows != [] {
      CountSelectedCovering(rows[1..], q, file, rev, branch);
    }
  }

  /**
   * Against an honest database, the tests recorded for a file are tests of
   * rows covering it in the mochitest or the xpcshell task; they are all such
   * tests when neither task has more covering records than the documents'
   * `limit`.
   */
  lemma AnsweredTestsMeaning(cfg: Config, svc: Services, rows: seq<Row>, file: string)
    requires HonestColumns(svc, rows)
    ensures FileSlots(Templates(cfg)) && Answers(svc, Templates(cfg), file)
    ensures AnsweredTests(svc, Templates(cfg), file)
            <= FileTests(rows, file, cfg.mochitestRev, cfg.mochitestBranch)
               + FileTests(rows, file, cfg.xpcshellRev, cfg.xpcshellBranch)
    ensures CountCovering(rows, file, cfg.mochitestRev, cfg.mochitestBranch) <= Limit
            && CountCovering(rows, file, cfg.xpcshellRev, cfg.xpcshellBranch) <= Limit
            ==> AnsweredTests(svc, Templates(cfg), file)
                == FileTests(rows, file, cfg.mochitestRev, cfg.mochitestBranch)
                   + FileTests(rows, file, cfg.xpcshellRev, cfg.xpcshellBranch)
  {
    var t := Templates(cfg);
    var qs := ForFile(t, file);
    assert svc.columns(qs.mochitest).Columns? && svc.columns(qs.xpcshell).Columns?;
    forall r | r in rows
      ensures Selects(qs.mochitest, r) <==> Covers(r, file, cfg.mochitestRev, cfg.mochitestBranch)
      ensures Selects(qs.xpcshell, r) <==> Covers(r, file, cfg.xpcshellRev, cfg.xpcshellBranch)
    {
      PreciseQueryMeaning(t.mochitest, cfg.mochitestRev, cfg.mochitestBranch, file, r);
      PreciseQueryMeaning(t.xpcshell, cfg.xpcshellRev, cfg.xpcshellBranch, file, r);
    }
    assert SelectedTests(rows, qs.mochitest) == FileTests(rows, file, cfg.mochitestRev, cfg.mochitestBranch);
    assert SelectedTests(rows, qs.xpcshell) == FileTests(rows, file, cfg.xpcshellRev, cfg.xpcshellBranch);
    CountSelectedCovering(rows, qs.mochitest, file, cfg.mochitestRev, cfg.mochitestBranch);
    CountSelectedCovering(rows, qs.xpcshell, file, cfg.xpcshellRev, cfg.xpcshellBranch);
    assert qs.mochitest.limit == Limit && qs.xpcshell.limit == Limit;
  }

  /**
   * A database holding `rows` that answers every grouped query with at most
   * `limit` groups, one per test it selects: only selected tests, and all of
   * them when no more than `limit` are selected.
   */
  ghost predicate HonestGroups(svc: Services, rows: seq<Row>) {
    forall q :: svc.groups(q).Groups?
                && (forall row :: row in svc.groups(q).rows ==> |row| >= 1)
                && (q.limit >= 0 ==>
                      && |svc.groups(q).rows| <= q.limit
                      && (set row | row in svc.groups(q).rows :: row[0]) <= SelectedTests(rows, q)
                      && (|SelectedTests(rows, q)| <= q.limit
                          ==> (set row | row in svc.groups(q).rows :: row[0]) == SelectedTests(rows, q)))
  }

  /** The tests of the rows covering any of `files` in a suite's task. */
  function FilesTests(rows: seq<Row>, files: seq<string>, rev: string, branch: string): set<string> {
    set r | r in rows && r.file in files && Covers(r, r.file, rev, branch) :: r.test
  }

  /**
   * Against an honest database, an aggregate-mode summary lists tests of rows
   * covering the changeset's files in either task; it lists all such tests
   * when neither task has more of them than the documents' `limit`.
   */
  lemma AggregateTestsMeaning(cfg: Config, svc: Services, rows: seq<Row>, changeset: string)
    requires HonestGroups(svc, rows)
    ensures AggregateTests(cfg, svc, changeset)
            <= FilesTests(rows, FilesModified(cfg, svc, changeset), cfg.mochitestRev, cfg.mochitestBranch)
               + FilesTests(rows, FilesModified(cfg, svc, changeset), cfg.xpcshellRev, cfg.xpcshellBranch)
    ensures |FilesTests(rows, FilesModified(cfg, svc, changeset), cfg.mochitestRev, cfg.mochitestBranch)| <= Limit
            && |FilesTests(rows, FilesModified(cfg, svc, changeset), cfg.xpcshellRev, cfg.xpcshellBranch)| <= Limit
            ==> AggregateTests(cfg, svc, changeset)
                == FilesTests(rows, FilesModified(cfg, svc, changeset), cfg.mochitestRev, cfg.mochitestBranch)
                   + FilesTests(rows, FilesModified(cfg, svc, changeset), cfg.xpcshellRev, cfg.xpcshellBranch)
  {
    var t := Templates(cfg);
    var files := FilesModified(cfg, svc, changeset);
    var qs := ForFiles(t, files);
    var m, x := svc.groups(qs.mochitest), svc.groups(qs.xpcshell);
    assert Readable(m) && Readable(x);
    forall r | r in rows
      ensures Selects(qs.mochitest, r) <==> r.file in files && Covers(r, r.file, cfg.mochitestRev, cfg.mochitestBranch)
      ensures Selects(qs.xpcshell, r) <==> r.file in files && Covers(r, r.file, cfg.xpcshellRev, cfg.xpcshellBranch)
    {
      GroupedQueryMeaning(t.mochitest, cfg.mochitestRev, cfg.mochitestBranch, files, r);
      GroupedQueryMeaning(t.xpcshell, cfg.xpcshellRev, cfg.xpcshellBranch, files, r);
    }
    assert SelectedTests(rows, qs.mochitest) == FilesTests(rows, files, cfg.mochitestRev, cfg.mochitestBranch);
    assert SelectedTests(rows, qs.xpcshell) == FilesTests(rows, files, cfg.xpcshellRev, cfg.xpcshellBranch);
    assert qs.mochitest.limit == Limit && qs.xpcshell.limit == Limit;
  }

  // ---------------------------------------------------------------------------
  // An honest database exists
  // ---------------------------------------------------------------------------

  /** The `test` column of the records a document selects, one name per record, in row order. */
  function SelectedColumn(rows: seq<Row>, q: Query): (col: seq<string>)
    ensures |col| == CountSelected(rows, q)
    ensures Elements(col) == SelectedTests(rows, q)
  {
    if rows == [] then []
    else
      var rest := SelectedColumn(rows[1..], q);
      assert forall r :: r in rows <==> r == rows[0] || r in rows[1..];
      (if Selects(q, rows[0]) then [rows[0].test] else []) + rest
  }

  /** The first `n` elements of `s`, or all of them when there are fewer. */
  function Take(s: seq<string>, n: nat): (r: seq<string>)
    ensures |r| <= n && Elements(r) <= Elements(s)
    ensures |s| <= n ==> r == s
  {
    if n < |s| then s[..n] else s
  }

  /** `s` with every repeated element dropped. */
  function Dedup(s: seq<string>): (r: seq<string>)
    ensures Elements(r) == Elements(s) && Distinct(r)
  {
    if s == [] then []
    else
      var rest := Dedup(s[1..]);
      assert forall x :: x in s <==> x == s[0] || x in s[1..];
      if s[0] in rest then rest else [s[0]] + rest
  }

  /** A sequence without repeats has as many elements as its set. */
  lemma {:induction false} DistinctCardinality(s: seq<string>)
    requires Distinct(s)
    ensures |Elements(s)| == |s|
  {
    if s != [] {
      assert Distinct(s[1..]);
      DistinctCardinality(s[1..]);
      assert Elements(s) == {s[0]} + Elements(s[1..]);
      assert s[0] !in Elements(s[1..]);
    }
  }

  /** One group row per test name. */
  function GroupRows(tests: seq<string>): (rows: seq<seq<string>>)
    ensures |rows| == |tests|
    ensures forall row :: row in rows ==> |row| == 1
    ensures (set row | row in rows :: row[0]) == Elements(tests)
  {
    var rows := seq(|tests|, i requires 0 <= i < |tests| => [tests[i]]);
    RowHeads(tests, rows);
    rows
  }

  /** Rows that each hold one test name, position by position, have exactly those names as heads. */
  lemma RowHeads(tests: seq<string>, rows: seq<seq<string>>)
    requires |rows| == |tests| && forall i :: 0 <= i < |rows| ==> rows[i] == [tests[i]]
    ensures forall row :: row in rows ==> |row| == 1
    ensures (set row | row in rows :: row[0]) == Elements(tests)
  {
    var heads := set row | row in rows :: row[0];
    forall x ensures x in heads <==> x in tests {
      if x in tests {
        var i :| 0 <= i < |tests| && tests[i] == x;
        assert rows[i] in rows;
      }
      if x in heads {
        var row :| row in rows && row[0] == x;
        var i :| 0 <= i < |rows| && rows[i] == row;
      }
    }
  }

  /**
   * A database holding `rows` that answers each precise query with the tests
   * of the first `limit` records it selects, and each grouped query with the
   * first `limit` distinct tests it selects.
   */
  function HonestDatabase(rows: seq<Row>): Services {
    Services(
      _ => [],
      _ => [],
      q => Columns(Some(Take(SelectedColumn(rows, q), if q.limit < 0 then 0 else q.limit))),
      q => Groups(GroupRows(Take(Dedup(SelectedColumn(rows, q)), if q.limit < 0 then 0 else q.limit))))
  }

  /** Some database answers precise queries honestly. */
  lemma HonestColumnsSatisfiable(rows: seq<Row>)
    ensures HonestColumns(HonestDatabase(rows), rows)
  {
  }

  /** Some database answers grouped queries honestly. */
  lemma HonestGroupsSatisfiable(rows: seq<Row>)
    ensures HonestGroups(HonestDatabase(rows), rows)
  {
    var svc := HonestDatabase(rows);
    forall q: Query | q.limit >= 0
      ensures |SelectedTests(rows, q)| <= q.limit
              ==> (set row | row in svc.groups(q).rows :: row[0]) == SelectedTests(rows, q)
    {
      var d := Dedup(SelectedColumn(rows, q));
      DistinctCardinality(d);
    }
  }
}
