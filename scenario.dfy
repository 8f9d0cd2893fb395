/**
 * The two-project run used as the worked example of the collector: project
 * A has two commits by x@y.com, project B one by x@y.com and one by
 * z@y.com, every diff fetched, each listing ending on its second page.
 */
module Scenario {
  import opened Wrappers
  import opened Api
  import opened Tally
  import Paging
  import Commits
  import Coordinator

  const A1 := Commit("a1", "x@y.com")
  const A2 := Commit("a2", "x@y.com")
  const B1 := Commit("b1", "x@y.com")
  const B2 := Commit("b2", "z@y.com")

  /** The diff statistics of the four commits. */
  function Diffs(c: Commit): Option<DiffStats>
  {
    if c.id == "a1" then Some(DiffStats(3, 1, 4))
    else if c.id == "a2" then Some(DiffStats(2, 0, 2))
    else if c.id == "b1" then Some(DiffStats(5, 5, 10))
    else if c.id == "b2" then Some(DiffStats(1, 1, 2))
    else None
  }

  /** A listing whose first page holds `commits` and whose second page is empty. */
  function OnePage(commits: seq<Commit>): nat -> Result<seq<Commit>, Error>
  {
    (page: nat) => if page == 1 then Success(commits) else Success([])
  }

  /** A listing that stops at its second page, empty, tallies its first page. */
  lemma OnePageTally(pages: nat -> Result<seq<Commit>, Error>, commits: seq<Commit>, diff: Commit -> Option<DiffStats>)
    requires commits != [] && pages(1) == Success(commits) && pages(2) == Success([])
    ensures Paging.Ends(pages)
    ensures Commits.TalliedListing(pages, diff) == Success(Tallied(map[], commits, diff))
  {
    assert Paging.Stops(pages(2));
    assert Paging.Ends(pages);
    Paging.ListingContinues(pages, 1);
    Paging.ListingStopsAt(pages, 2);
    assert Paging.Collected(pages, 1) == [];
    assert Paging.Collected(pages, 2) == commits;
    assert Paging.Listing(pages) == Success(commits);
  }

  lemma TallyA()
    ensures Tallied(map[], [A1, A2], Diffs) == map["x@y.com" := Counts(5, 1, 6)]
  {
    assert [A1, A2][..1] == [A1];
    assert [A1][..0] == [];
    assert Diffs(A1) == Some(DiffStats(3, 1, 4)) && Diffs(A2) == Some(DiffStats(2, 0, 2));
    assert Tallied(map[], [], Diffs) == map[];
    var t1 := Tallied(map[], [A1], Diffs);
    assert t1 == Add(map[], "x@y.com", Counts(3, 1, 4));
    assert Tallied(map[], [A1, A2], Diffs) == Add(t1, "x@y.com", Counts(2, 0, 2));
  }

  lemma TallyB()
    ensures Tallied(map[], [B1, B2], Diffs) == map["x@y.com" := Counts(5, 5, 10), "z@y.com" := Counts(1, 1, 2)]
  {
    assert [B1, B2][..1] == [B1];
    assert [B1][..0] == [];
    assert Diffs(B1) == Some(DiffStats(5, 5, 10)) && Diffs(B2) == Some(DiffStats(1, 1, 2));
    assert Tallied(map[], [], Diffs) == map[];
    var t1 := Tallied(map[], [B1], Diffs);
    assert t1 == Add(map[], "x@y.com", Counts(5, 5, 10));
    assert t1 == map["x@y.com" := Counts(5, 5, 10)];
    assert "z@y.com" !in t1;
    assert Tallied(map[], [B1, B2], Diffs) == Add(t1, "z@y.com", Counts(1, 1, 2));
    assert Add(t1, "z@y.com", Counts(1, 1, 2)) == t1["z@y.com" := Counts(1, 1, 2)];
  }

  lemma CombinedSum(combined: Tally)
    requires combined == map["x@y.com" := Counts(10, 6, 16), "z@y.com" := Counts(1, 1, 2)]
    ensures Sum(combined) == Counts(11, 7, 18)
  {
    SumOverTake(combined, combined.Keys, "x@y.com");
    assert combined.Keys - {"x@y.com"} == {"z@y.com"};
    SumOverTake(combined, {"z@y.com"}, "z@y.com");
  }

  lemma MergeBoth(ta: Tally, tb: Tally)
    requires ta == map["x@y.com" := Counts(5, 1, 6)]
    requires tb == map["x@y.com" := Counts(5, 5, 10), "z@y.com" := Counts(1, 1, 2)]
    ensures Merge(ta, tb) == map["x@y.com" := Counts(10, 6, 16), "z@y.com" := Counts(1, 1, 2)]
  {
    var m := Merge(ta, tb);
    var combined := map["x@y.com" := Counts(10, 6, 16), "z@y.com" := Counts(1, 1, 2)];
    assert m.Keys == combined.Keys;
    assert "z@y.com" !in ta;
    MergeAt(ta, tb, "x@y.com");
    MergeAt(ta, tb, "z@y.com");
    assert m["x@y.com"] == combined["x@y.com"];
    assert m["z@y.com"] == combined["z@y.com"];
  }

  /**
   * The combined tally gives x@y.com 10 added, 6 removed, 16 in total and
   * z@y.com 1, 1, 2; the grand totals are 11, 7 and 18.
   */
  lemma TwoProjects()
    ensures Paging.Ends(OnePage([A1, A2])) && Paging.Ends(OnePage([B1, B2]))
    ensures
      var a := Commits.TalliedListing(OnePage([A1, A2]), Diffs);
      var b := Commits.TalliedListing(OnePage([B1, B2]), Diffs);
      && a.Success? && b.Success?
      && Coordinator.MergeSeq([a.value, b.value]) == map["x@y.com" := Counts(10, 6, 16), "z@y.com" := Counts(1, 1, 2)]
      && Sum(Coordinator.MergeSeq([a.value, b.value])) == Counts(11, 7, 18)
  {
    OnePageTally(OnePage([A1, A2]), [A1, A2], Diffs);
    OnePageTally(OnePage([B1, B2]), [B1, B2], Diffs);
    TallyA();
    TallyB();
    var ta := Tallied(map[], [A1, A2], Diffs);
    var tb := Tallied(map[], [B1, B2], Diffs);
    var combined := map["x@y.com" := Counts(10, 6, 16), "z@y.com" := Counts(1, 1, 2)];
    assert Coordinator.MergeSeq([ta]) == ta by {
      assert [ta][..0] == [];
      MergeCommutes(map[], ta);
      MergeEmpty(ta);
    }
    assert [ta, tb][..1] == [ta];
    assert Coordinator.MergeSeq([ta, tb]) == Merge(ta, tb);
    MergeBoth(ta, tb);
    CombinedSum(combined);
  }
}
