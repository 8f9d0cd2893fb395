/**
 * The part of `main` that runs `getChangedLines` for every listed project
 * and folds the project tallies into `allChangesCombined`
 * (main.go:188-227), then sums the combined tally (main.go:229-238).
 *
 * Go runs one goroutine per project and serialises the merges with a
 * mutex, so the merges happen one at a time in whatever order the
 * goroutines finish. The model runs them sequentially and lets the
 * verifier pick the next project arbitrarily (`:|`); the contracts hold
 * for every such order.
 */
module Coordinator {
  import opened Wrappers
  import opened Api
  import opened Tally
  import Paging
  import Commits

  /** The shared map `allChangesCombined` the goroutines merge into under the mutex. */
  class CombinedTally {
    var entries: Tally

    constructor()
      ensures entries == map[]
    {
      entries := map[];
    }

    /**
     * One goroutine's critical section (main.go:213-221): every author of
     * `changes`, visited in map order, gets its entry created at zero if
     * absent and then each of its three fields increased.
     */
    method MergeProject(changes: Tally)
      modifies this
      ensures entries == Merge(old(entries), changes)
    {
      ghost var start := entries;
      var pending := changes.Keys;
      assert changes - pending == map[];
      MergeEmpty(start);
      while pending != {}
        invariant pending <= changes.Keys
        invariant entries == Merge(start, changes - pending)
        decreases pending
      {
        var author :| author in pending;
        var counts := changes[author];
        ghost var before := entries;
        if author !in entries {
          entries := entries[author := Zero];
        }
        var entry := entries[author];
        entry := entry.(added := entry.added + counts.added);
        entry := entry.(removed := entry.removed + counts.removed);
        entry := entry.(total := entry.total + counts.total);
        entries := entries[author := entry];
        assert entries == Add(before, author, counts);
        MergeStep(start, changes, pending, author);
        pending := pending - {author};
      }
      assert changes - {} == changes;
    }
  }

  /** The project indices `0 .. n-1`. */
  function Below(n: nat): (r: set<nat>)
    ensures forall i | i in r :: i < n
  {
    if n == 0 then {} else Below(n - 1) + {n - 1}
  }

  /** The indices below `n` are exactly the naturals less than `n`. */
  lemma {:induction false} BelowMembers(n: nat)
    ensures forall i: nat :: i in Below(n) <==> i < n
  {
    if n > 0 {
      BelowMembers(n - 1);
    }
  }

  /** Merging the tallies `ts[i]` for the indices `i` of `idx`, in no particular order. */
  ghost function MergeOver(ts: seq<Tally>, idx: set<nat>): Tally
    requires forall i | i in idx :: i < |ts|
    decreases idx
  {
    if idx == {} then map[]
    else
      var i :| i in idx;
      Merge(MergeOver(ts, idx - {i}), ts[i])
  }

  /** Merging the tallies from first to last. */
  function MergeSeq(ts: seq<Tally>): Tally
  {
    if ts == [] then map[] else Merge(MergeSeq(ts[..|ts| - 1]), ts[|ts| - 1])
  }

  /** Any one of the tallies can be the one merged last. */
  lemma {:induction false} MergeOverTake(ts: seq<Tally>, idx: set<nat>, i: nat)
    requires forall j | j in idx :: j < |ts|
    requires i in idx
    ensures MergeOver(ts, idx) == Merge(MergeOver(ts, idx - {i}), ts[i])
    decreases idx
  {
    var j :| j in idx && MergeOver(ts, idx) == Merge(MergeOver(ts, idx - {j}), ts[j]);
    if j != i {
      var rest := idx - {i} - {j};
      assert MergeOver(ts, idx - {j}) == Merge(MergeOver(ts, rest), ts[i]) by {
        assert idx - {j} - {i} == rest;
        MergeOverTake(ts, idx - {j}, i);
      }
      assert MergeOver(ts, idx - {i}) == Merge(MergeOver(ts, rest), ts[j]) by {
        MergeOverTake(ts, idx - {i}, j);
      }
      MergeSwap(MergeOver(ts, rest), ts[i], ts[j]);
    }
  }

  /** One more tally merged in, whichever of the pending ones it is. */
  lemma MergeOverStep(ts: seq<Tally>, all: set<nat>, pending: set<nat>, i: nat, before: Tally)
    requires forall j | j in all :: j < |ts|
    requires pending <= all && i in pending
    requires before == MergeOver(ts, all - pending)
    ensures Merge(before, ts[i]) == MergeOver(ts, all - (pending - {i}))
  {
    var done := all - pending;
    assert all - (pending - {i}) == done + {i};
    assert done + {i} - {i} == done;
    MergeOverTake(ts, done + {i}, i);
  }

  lemma BelowStep(n: nat)
    requires n > 0
    ensures Below(n) - {n - 1} == Below(n - 1)
    ensures forall i | i in Below(n) :: i < n
  {
    BelowMembers(n);
    BelowMembers(n - 1);
  }

  /** Merging in any order gives what merging from first to last gives. */
  lemma {:induction false} MergeOverAll(ts: seq<Tally>, n: nat)
    requires n <= |ts|
    ensures MergeOver(ts, Below(n)) == MergeSeq(ts[..n])
  {
    if n > 0 {
      BelowStep(n);
      MergeOverAll(ts, n - 1);
      MergeOverTake(ts, Below(n), n - 1);
      assert ts[..n][..n - 1] == ts[..n - 1];
    }
  }

  /** An author is in the merge of the tallies exactly when it is in one of them. */
  lemma {:induction false} MergeSeqMembers(ts: seq<Tally>, author: string)
    ensures author in MergeSeq(ts) <==> exists i :: 0 <= i < |ts| && author in ts[i]
  {
    if ts != [] {
      var init := ts[..|ts| - 1];
      MergeSeqMembers(init, author);
      if author in MergeSeq(ts) && author !in ts[|ts| - 1] {
        var i :| 0 <= i < |init| && author in init[i];
        assert ts[i] == init[i];
      }
      if exists i :: 0 <= i < |ts| && author in ts[i] {
        var i :| 0 <= i < |ts| && author in ts[i];
        if i < |init| {
          assert init[i] == ts[i];
        }
      }
    }
  }

  /** The field-wise sum of one author's entries across the tallies. */
  function AuthorTotal(ts: seq<Tally>, author: string): Counts
  {
    if ts == [] then Zero else Plus(AuthorTotal(ts[..|ts| - 1], author), Get(ts[|ts| - 1], author))
  }

  /** Each author's combined entry is the sum of its entries in the project tallies. */
  lemma {:induction false} MergeSeqAt(ts: seq<Tally>, author: string)
    ensures Get(MergeSeq(ts), author) == AuthorTotal(ts, author)
  {
    if ts != [] {
      MergeSeqAt(ts[..|ts| - 1], author);
      MergeAt(MergeSeq(ts[..|ts| - 1]), ts[|ts| - 1], author);
    }
  }

  /** The field-wise sum of the grand totals of the tallies. */
  ghost function TotalOfSums(ts: seq<Tally>): Counts
  {
    if ts == [] then Zero else Plus(TotalOfSums(ts[..|ts| - 1]), Sum(ts[|ts| - 1]))
  }

  /** The grand totals of the combined tally is the sum of the projects' grand totals. */
  lemma {:induction false} SumMergeSeq(ts: seq<Tally>)
    ensures Sum(MergeSeq(ts)) == TotalOfSums(ts)
  {
    if ts != [] {
      SumMergeSeq(ts[..|ts| - 1]);
      SumMerge(MergeSeq(ts[..|ts| - 1]), ts[|ts| - 1]);
    }
  }

  /** Every listed project's commit listing ends (an error page or an empty page). */
  ghost predicate Fetchable(svc: Services, gitlabURL: string, privateToken: string, since: string, projects: seq<Project>)
  {
    forall i :: 0 <= i < |projects| ==> Paging.Ends(Commits.CommitPages(svc, gitlabURL, privateToken, projects[i].id, since))
  }

  /**
   * What one project adds to the combined tally: its tally when
   * `getChangedLines` succeeds, nothing when it fails (main.go:207-211).
   */
  ghost function Contribution(svc: Services, gitlabURL: string, privateToken: string, since: string, project: Project): Tally
    requires Paging.Ends(Commits.CommitPages(svc, gitlabURL, privateToken, project.id, since))
  {
    var r := Commits.ChangedLines(svc, gitlabURL, privateToken, project.id, since);
    if r.Success? then r.value else map[]
  }

  ghost function Contributions(svc: Services, gitlabURL: string, privateToken: string, since: string, projects: seq<Project>): seq<Tally>
    requires Fetchable(svc, gitlabURL, privateToken, since, projects)
  {
    seq(|projects|, i requires 0 <= i < |projects| => Contribution(svc, gitlabURL, privateToken, since, projects[i]))
  }

  /**
   * Project `i` contributes its tally when `getChangedLines` succeeds for
   * it and an empty tally when it fails (main.go:207-211).
   */
  lemma ContributionsAt(svc: Services, gitlabURL: string, privateToken: string, since: string, projects: seq<Project>, i: nat)
    requires Fetchable(svc, gitlabURL, privateToken, since, projects)
    requires i < |projects|
    ensures
      var r := Commits.ChangedLines(svc, gitlabURL, privateToken, projects[i].id, since);
      Contributions(svc, gitlabURL, privateToken, since, projects)[i] == if r.Success? then r.value else map[]
  {
  }

  /** A project that contributes nothing leaves the combined tally as the other projects make it. */
  lemma FailedAddsNothing(ts: seq<Tally>, all: set<nat>, i: nat)
    requires forall j | j in all :: j < |ts|
    requires i in all && ts[i] == map[]
    ensures MergeOver(ts, all) == MergeOver(ts, all - {i})
  {
    MergeOverTake(ts, all, i);
    MergeEmpty(MergeOver(ts, all - {i}));
  }

  /**
   * Fetching every project's tally and merging the successful ones into a
   * fresh combined tally, the projects finishing in an arbitrary order
   * (main.go:190, 196-227).
   */
  method CollectAll(svc: Services, gitlabURL: string, privateToken: string, since: string, projects: seq<Project>)
    returns (combined: CombinedTally)
    requires Fetchable(svc, gitlabURL, privateToken, since, projects)
    ensures fresh(combined)
    ensures combined.entries == MergeSeq(Contributions(svc, gitlabURL, privateToken, since, projects))
  {
    ghost var ts := Contributions(svc, gitlabURL, privateToken, since, projects);
    combined := new CombinedTally();
    var all := Below(|projects|);
    BelowMembers(|projects|);
    var pending := all;
    assert all - pending == {};
    while pending != {}
      invariant pending <= all
      invariant combined.entries == MergeOver(ts, all - pending)
      decreases pending
    {
      var i :| i in pending;
      var project := projects[i];
      ghost var before := combined.entries;
      assert Paging.Ends(Commits.CommitPages(svc, gitlabURL, privateToken, project.id, since));
      var changes, _ := Commits.GetChangedLines(svc, project.id, gitlabURL, privateToken, since);
      assert ts[i] == if changes.Success? then changes.value else map[];
      if changes.Success? {
        combined.MergeProject(changes.value);
      } else {
        MergeEmpty(before);
      }
      MergeOverStep(ts, all, pending, i, before);
      pending := pending - {i};
    }
    assert all - pending == Below(|ts|);
    MergeOverAll(ts, |ts|);
    assert ts[..|ts|] == ts;
  }

  /**
   * The grand-total loop (main.go:229-238): every author's three fields
   * added into the three totals, the authors visited in map order.
   */
  method GrandTotals(combined: Tally) returns (totalAdded: int, totalRemoved: int, total: int)
    ensures Counts(totalAdded, totalRemoved, total) == Sum(combined)
  {
    totalAdded, totalRemoved, total := 0, 0, 0;
    var remaining := combined.Keys;
    while remaining != {}
      invariant remaining <= combined.Keys
      invariant Plus(Counts(totalAdded, totalRemoved, total), SumOver(combined, remaining)) == Sum(combined)
      decreases remaining
    {
      var author :| author in remaining;
      var counts := combined[author];
      ghost var acc := Counts(totalAdded, totalRemoved, total);
      SumOverTake(combined, remaining, author);
      PlusRegroup(acc, counts, SumOver(combined, remaining - {author}));
      totalAdded := totalAdded + counts.added;
      totalRemoved := totalRemoved + counts.removed;
      total := total + counts.total;
      remaining := remaining - {author};
    }
  }
}
