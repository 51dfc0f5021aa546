/**
 * The coverage-database query documents of run() (patch_analysis.py, lines
 * 87-119) and the two ways the analysis rewrites them: precise mode puts one
 * file name into the first `where` conjunct (lines 161-162); aggregate mode
 * drops `select`, groups by test name and makes the first conjunct a
 * membership test over all the changeset's files (lines 178-189).
 *
 * `Selects` gives a document its meaning: which coverage rows its `where`
 * clause keeps.  The lemmas say what each rewritten document asks for.
 */
module CoverageQuery {

  import opened Wrappers

  const FileField := "source.file.name"
  const RevField := "repo.changeset.id12"
  const BranchField := "repo.branch.name"
  const CoveredField := "source.file.total_covered"

  /** A JSON scalar in a predicate: `None`, a string or a number. */
  datatype Scalar = Null | Str(s: string) | Num(n: int)

  /** One member of `where.and`: `{"eq": …}`, `{"in": …}` or `{"gt": …}`, each on one field. */
  datatype Conjunct =
    | Eq(field: string, value: Scalar)
    | In(field: string, values: seq<string>)
    | Gt(field: string, value: Scalar)

  /** A named projection, `{"name": …, "value": …}`, as in `select` and `groupby`. */
  datatype Projection = Projection(name: string, value: string)

  /** A query document: `from`, `where.and`, `limit`, and optional `select` and `groupby`. */
  datatype Query = Query(
    source: string,
    conjuncts: seq<Conjunct>,
    limit: int,
    select: Option<seq<Projection>>,
    groupby: Option<seq<Projection>>)

  /** The `limit` both documents carry: at most this many records (or groups) come back. */
  const Limit := 1000

  /** The grouping both aggregate queries use: one group per test name. */
  const TestGroups := [Projection("test", "test.name")]

  /**
   * The document both suites start from, for the suite's task revision and
   * branch: no file chosen yet, covered lines only, test names with their coverage.
   */
  function Template(rev: string, branch: string): (q: Query)
    ensures HasFileSlot(q) && q.conjuncts[0].value == Null && q.limit == Limit
    ensures q.select.Some? && q.groupby.None?
  {
    Query(
      "coverage",
      [ Eq(FileField, Null),
        Eq(RevField, Str(rev)),
        Eq(BranchField, Str(branch)),
        Gt(CoveredField, Num(0)) ],
      Limit,
      Some([Projection("test", "test.name"), Projection("coverage", "source.file.covered")]),
      None)
  }

  /** The first conjunct is an equality on the file name, so `['and'][0]['eq'][…]` exists. */
  predicate HasFileSlot(q: Query) {
    |q.conjuncts| >= 1 && q.conjuncts[0].Eq? && q.conjuncts[0].field == FileField
  }

  /** `q['where']['and'][0]['eq']['source.file.name'] = file`. */
  function WithFileName(q: Query, file: string): (r: Query)
    requires HasFileSlot(q)
    ensures Retargets(r, q) && r.conjuncts[0] == Eq(FileField, Str(file))
  {
    q.(conjuncts := q.conjuncts[0 := Eq(FileField, Str(file))])
  }

  /**
   * The aggregate rewrite: delete `select` when present, set `groupby`, and
   * replace the first conjunct with `{"in": {"source.file.name": files}}`.
   */
  function Grouped(q: Query, files: seq<string>): (r: Query)
    requires |q.conjuncts| >= 1
    ensures r.select == None && r.groupby == Some(TestGroups)
    ensures |r.conjuncts| == |q.conjuncts|
    ensures r.conjuncts[0] == In(FileField, files)
    ensures SameFilters(r, q)
  {
    q.(select := None, groupby := Some(TestGroups), conjuncts := q.conjuncts[0 := In(FileField, files)])
  }

  /** `q` is `t` with at most the file name of its first conjunct changed. */
  predicate Retargets(q: Query, t: Query) {
    && HasFileSlot(q) && HasFileSlot(t)
    && |q.conjuncts| == |t.conjuncts|
    && q.conjuncts[1..] == t.conjuncts[1..]
    && q.source == t.source && q.limit == t.limit
    && q.select == t.select && q.groupby == t.groupby
  }

  /** `q` and `t` agree on everything the aggregate rewrite keeps. */
  predicate SameFilters(q: Query, t: Query) {
    && |q.conjuncts| == |t.conjuncts| >= 1
    && q.conjuncts[1..] == t.conjuncts[1..]
    && q.source == t.source && q.limit == t.limit
  }

  /**
   * Setting the file name twice leaves what setting it once to the second name
   * leaves: each precise query depends only on the template and the current
   * file, never on the files before it.
   */
  lemma WithFileNameForgetsEarlierFile(q: Query, t: Query, file: string)
    requires Retargets(q, t)
    ensures WithFileName(q, file) == WithFileName(t, file)
    ensures Retargets(WithFileName(q, file), t)
  {
    assert WithFileName(q, file).conjuncts == WithFileName(t, file).conjuncts by {
      assert q.conjuncts == [q.conjuncts[0]] + q.conjuncts[1..];
      assert t.conjuncts == [t.conjuncts[0]] + t.conjuncts[1..];
    }
  }

  /**
   * Re-applying the aggregate rewrite changes nothing but the file list: the
   * result depends only on the filters the template started with.
   */
  lemma GroupedForgetsEarlierFiles(q: Query, t: Query, files: seq<string>)
    requires SameFilters(q, t)
    ensures Grouped(q, files) == Grouped(t, files)
    ensures SameFilters(Grouped(q, files), t)
  {
    assert Grouped(q, files).conjuncts == Grouped(t, files).conjuncts by {
      assert q.conjuncts == [q.conjuncts[0]] + q.conjuncts[1..];
      assert t.conjuncts == [t.conjuncts[0]] + t.conjuncts[1..];
    }
  }

  /** One coverage record: a test that covered lines of a file in a task's revision and branch. */
  datatype Row = Row(file: string, changeset: string, branch: string, totalCovered: int, test: string)

  /** The value a row has for a field, `None` for a field it does not have. */
  function FieldValue(row: Row, field: string): Scalar {
    if field == FileField then Str(row.file)
    else if field == RevField then Str(row.changeset)
    else if field == BranchField then Str(row.branch)
    else if field == CoveredField then Num(row.totalCovered)
    else Null
  }

  /** Whether a row satisfies one conjunct; an equality with `None` matches no stored value. */
  predicate Holds(c: Conjunct, row: Row) {
    match c
    case Eq(f, v) => v != Null && FieldValue(row, f) == v
    case In(f, vs) => exists i :: 0 <= i < |vs| && FieldValue(row, f) == Str(vs[i])
    case Gt(f, v) => v.Num? && FieldValue(row, f).Num? && FieldValue(row, f).n > v.n
  }

  /** The rows the `where` clause keeps: those satisfying every conjunct. */
  predicate Selects(q: Query, row: Row) {
    forall i :: 0 <= i < |q.conjuncts| ==> Holds(q.conjuncts[i], row)
  }

  /**
   * A precise query asks for exactly the covering rows of the one file in the
   * suite's revision and branch.
   */
  lemma PreciseQueryMeaning(q: Query, rev: string, branch: string, file: string, row: Row)
    requires Retargets(q, Template(rev, branch))
    ensures Selects(WithFileName(q, file), row)
            <==> row.file == file && row.changeset == rev && row.branch == branch && row.totalCovered > 0
  {
    var t := Template(rev, branch);
    WithFileNameForgetsEarlierFile(q, t, file);
    var p := WithFileName(t, file);
    if row.file == file && row.changeset == rev && row.branch == branch && row.totalCovered > 0 {
      forall i | 0 <= i < |p.conjuncts| ensures Holds(p.conjuncts[i], row) {
        assert i in {0, 1, 2, 3};
      }
    } else {
      if row.file != file { assert !Holds(p.conjuncts[0], row); }
      else if row.changeset != rev { assert !Holds(p.conjuncts[1], row); }
      else if row.branch != branch { assert !Holds(p.conjuncts[2], row); }
      else { assert !Holds(p.conjuncts[3], row); }
    }
  }

  /**
   * An aggregate query, however many times the document was rewritten before,
   * asks for exactly the covering rows of any of the changeset's files in the
   * suite's revision and branch.
   */
  lemma GroupedQueryMeaning(q: Query, rev: string, branch: string, files: seq<string>, row: Row)
    requires SameFilters(q, Template(rev, branch))
    ensures Selects(Grouped(q, files), row)
            <==> row.file in files && row.changeset == rev && row.branch == branch && row.totalCovered > 0
  {
    var t := Template(rev, branch);
    GroupedForgetsEarlierFiles(q, t, files);
    var g := Grouped(t, files);
    assert Holds(g.conjuncts[0], row) <==> row.file in files by {
      if row.file in files {
        var i :| 0 <= i < |files| && files[i] == row.file;
        assert FieldValue(row, FileField) == Str(files[i]);
      }
    }
    if row.file in files && row.changeset == rev && row.branch == branch && row.totalCovered > 0 {
      forall i | 0 <= i < |g.conjuncts| ensures Holds(g.conjuncts[i], row) {
        assert i in {0, 1, 2, 3};
      }
    } else {
      if row.file !in files { assert !Holds(g.conjuncts[0], row); }
      else if row.changeset != rev { assert !Holds(g.conjuncts[1], row); }
      else if row.branch != branch { assert !Holds(g.conjuncts[2], row); }
      else { assert !Holds(g.conjuncts[3], row); }
    }
  }
}
