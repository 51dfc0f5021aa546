/**
 * The backward walk through a branch's changelog (patch_analysis.py, run(),
 * lines 121-135).  The changelog service answers `json-log/<rev>` with a page
 * of changeset descriptors; the model takes that answer as an input: `log`
 * maps a request URL to the `node` fields of the page's `changesets`, in order.
 */
module History {

  const HgUrl := "https://hg.mozilla.org/"

  /** The request for the page that starts at `rev`. */
  function LogUrl(branch: string, rev: string): string {
    HgUrl + branch + "/json-log/" + rev
  }

  /** `node[:12]`: the short changeset ID, or the whole node when it is shorter. */
  function Id12(node: string): (id: string)
    ensures |id| == if |node| < 12 then |node| else 12
    ensures id <= node
  {
    if |node| <= 12 then node else node[..12]
  }

  /** `[el['node'][:12] for el in page]`: one short ID per node, each cut from the node at its position. */
  function ShortIds(nodes: seq<string>): (ids: seq<string>)
    ensures |ids| == |nodes|
    ensures forall i {:trigger ids[i]} :: 0 <= i < |nodes| ==> ids[i] == Id12(nodes[i])
  {
    if nodes == [] then [] else [Id12(nodes[0])] + ShortIds(nodes[1..])
  }

  /** What one page contributes: the short IDs of every entry but the last. */
  function Contribution(page: seq<string>): (ids: seq<string>)
    requires |page| >= 1
    ensures |ids| == |page| - 1
    ensures forall i {:trigger ids[i]} :: 0 <= i < |ids| ==> ids[i] == Id12(page[i])
  {
    ShortIds(page[..|page| - 1])
  }

  /** Where the next page starts: the short ID of the page's last entry. */
  function NextCursor(page: seq<string>): (cursor: string)
    requires |page| >= 1
    ensures cursor <= page[|page| - 1] && |cursor| <= 12
    ensures 12 <= |page[|page| - 1]| ==> |cursor| == 12
    ensures |page[|page| - 1]| < 12 ==> cursor == page[|page| - 1]
  {
    Id12(page[|page| - 1])
  }

  /** Every page the service can answer has at least two entries, so every page adds an ID. */
  ghost predicate Advancing(log: string -> seq<string>) {
    forall url :: |log(url)| >= 2
  }

  /** Every page has at least one entry, so `clog_csets_list[-1]` never raises. */
  ghost predicate NonEmptyPages(log: string -> seq<string>) {
    forall url :: |log(url)| >= 1
  }

  /**
   * The IDs the loop accumulates starting at `cursor` while fewer than `need`
   * are still wanted: whole pages, in fetch order, until the count is reached.
   */
  ghost function Collect(log: string -> seq<string>, branch: string, cursor: string, need: int): (ids: seq<string>)
    requires Advancing(log)
    ensures ids == [] <==> need <= 0
    decreases need
  {
    if need <= 0 then []
    else
      var page := log(LogUrl(branch, cursor));
      Contribution(page) + Collect(log, branch, NextCursor(page), need - (|page| - 1))
  }

  /** The IDs contributed by the first `k` pages fetched from `cursor`, whatever their sizes. */
  ghost function Fetched(log: string -> seq<string>, branch: string, cursor: string, k: nat): seq<string>
    requires NonEmptyPages(log)
    decreases k
  {
    if k == 0 then []
    else
      var page := log(LogUrl(branch, cursor));
      Contribution(page) + Fetched(log, branch, NextCursor(page), k - 1)
  }

  /** How many pages the loop fetches from `cursor` before `need` IDs are collected. */
  ghost function PagesFetched(log: string -> seq<string>, branch: string, cursor: string, need: int): nat
    requires Advancing(log)
    decreases need
  {
    if need <= 0 then 0
    else
      var page := log(LogUrl(branch, cursor));
      1 + PagesFetched(log, branch, NextCursor(page), need - (|page| - 1))
  }

  /** One more page: what it contributes comes first, then what is collected from the next cursor. */
  lemma CollectStep(log: string -> seq<string>, branch: string, cursor: string, need: int)
    requires Advancing(log) && need > 0
    ensures |log(LogUrl(branch, cursor))| >= 2
    ensures Collect(log, branch, cursor, need)
            == Contribution(log(LogUrl(branch, cursor)))
               + Collect(log, branch, NextCursor(log(LogUrl(branch, cursor))), need - (|log(LogUrl(branch, cursor))| - 1))
  {
  }

  /** The loop collects at least as many IDs as it needs. */
  lemma {:induction false} CollectCovers(log: string -> seq<string>, branch: string, cursor: string, need: int)
    requires Advancing(log)
    ensures |Collect(log, branch, cursor, need)| >= need
    decreases need
  {
    if need > 0 {
      var page := log(LogUrl(branch, cursor));
      CollectCovers(log, branch, NextCursor(page), need - (|page| - 1));
    }
  }

  /**
   * The accumulated list is exactly the concatenation, in fetch order, of the
   * contributions of the pages fetched, and the loop stops at the first page
   * after which enough IDs are there: one page fewer would not have been enough.
   */
  lemma {:induction false} CollectIsMinimalFetch(log: string -> seq<string>, branch: string, cursor: string, need: int)
    requires Advancing(log)
    ensures NonEmptyPages(log)
    ensures Collect(log, branch, cursor, need) == Fetched(log, branch, cursor, PagesFetched(log, branch, cursor, need))
    ensures need > 0 ==> PagesFetched(log, branch, cursor, need) >= 1
    ensures need > 0 ==> |Fetched(log, branch, cursor, PagesFetched(log, branch, cursor, need) - 1)| < need
    decreases need
  {
    assert NonEmptyPages(log) by {
      forall url ensures |log(url)| >= 1 { assert |log(url)| >= 2; }
    }
    if need > 0 {
      var page := log(LogUrl(branch, cursor));
      var next := NextCursor(page);
      var rest := need - (|page| - 1);
      CollectIsMinimalFetch(log, branch, next, rest);
      var k := PagesFetched(log, branch, next, rest);
      assert PagesFetched(log, branch, cursor, need) == k + 1;
      assert Collect(log, branch, cursor, need) == Contribution(page) + Collect(log, branch, next, rest);
      assert Fetched(log, branch, cursor, k + 1) == Contribution(page) + Fetched(log, branch, next, k);
      if rest > 0 {
        assert Fetched(log, branch, cursor, k) == Contribution(page) + Fetched(log, branch, next, k - 1);
      }
    }
  }

  /**
   * A page whose only entry is the cursor itself (the root of the history)
   * adds nothing and leaves the cursor where it was: however many pages the
   * loop fetches from there it collects no ID, so for `numpatches > 0` the
   * walk never ends.
   */
  lemma {:induction false} SelfPageStalls(log: string -> seq<string>, branch: string, cursor: string, k: nat)
    requires NonEmptyPages(log)
    requires |log(LogUrl(branch, cursor))| == 1
    requires Id12(log(LogUrl(branch, cursor))[0]) == cursor
    ensures Fetched(log, branch, cursor, k) == []
  {
    if k > 0 {
      var page := log(LogUrl(branch, cursor));
      assert NextCursor(page) == cursor;
      SelfPageStalls(log, branch, cursor, k - 1);
    }
  }

  /** The loop's step: the page at the cursor moves its contribution from what is left to what is held. */
  lemma {:induction false} WalkStep(log: string -> seq<string>, branch: string, cursor: string, held: seq<string>, numpatches: int)
    requires Advancing(log) && |held| < numpatches
    ensures |log(LogUrl(branch, cursor))| >= 2
    ensures held + Collect(log, branch, cursor, numpatches - |held|)
            == (held + Contribution(log(LogUrl(branch, cursor))))
               + Collect(log, branch, NextCursor(log(LogUrl(branch, cursor))),
                         numpatches - |held + Contribution(log(LogUrl(branch, cursor)))|)
  {
    var page := log(LogUrl(branch, cursor));
    var ids := Contribution(page);
    var rest := Collect(log, branch, NextCursor(page), numpatches - |held| - |ids|);
    CollectStep(log, branch, cursor, numpatches - |held|);
    Assoc(held, ids, rest);
  }

  /**
   * Associativity of concatenation, which Dafny knows already; stated apart so
   * that the walk's step and `ProcessAllBars` use it as one fact instead of
   * searching for it, which keeps those proofs cheap.
   */
  lemma Assoc<T>(a: seq<T>, b: seq<T>, c: seq<T>)
    ensures (a + b) + c == a + (b + c)
  {
  }

  /**
   * The walk: fetch pages backwards from `startrev` until `numpatches` IDs are
   * collected, then cut the list to `numpatches`.
   */
  method WalkHistory(log: string -> seq<string>, branch: string, startrev: string, numpatches: int)
    returns (changesets: seq<string>)
    requires Advancing(log)
    ensures |changesets| == if numpatches < 0 then 0 else numpatches
    ensures changesets <= Collect(log, branch, startrev, numpatches)
  {
    changesets := [];
    var currrev := startrev;
    ghost var want := Collect(log, branch, startrev, numpatches);
    while |changesets| < numpatches
      invariant changesets + Collect(log, branch, currrev, numpatches - |changesets|) == want
      decreases numpatches - |changesets|
    {
      var page := log(LogUrl(branch, currrev));
      WalkStep(log, branch, currrev, changesets, numpatches);
      changesets := changesets + Contribution(page);
      currrev := NextCursor(page);
    }
    assert changesets == want;
    CollectCovers(log, branch, startrev, numpatches);
    if numpatches > 0 {
      changesets := changesets[..numpatches];
    }
  }
}
