/** Commit listing and the per-author fold of one project: `getChangedLines` (main.go:34-89). */
module Commits {
  import opened Wrappers
  import opened Api
  import opened Tally
  import Paging

  /** The `since` query parameter: added only when the since string is not empty (main.go:44-46). */
  function SinceParam(since: string): (r: Option<string>)
    ensures r.Some? <==> since != ""
    ensures r.Some? ==> r.value == since
  {
    if since != "" then Some(since) else None
  }

  /** What page `page` of a project's commit listing decodes to (main.go:43-56). */
  function CommitPage(svc: Services, gitlabURL: string, privateToken: string, projectID: int, since: string, page: nat): (r: Result<seq<Commit>, Error>)
    ensures
      var resp := svc.http(Request(gitlabURL, privateToken, CommitsPage(projectID, page, SinceParam(since))));
      && (resp.Failure? ==> r == Failure(resp.error))
      && (resp.Success? && svc.decodeCommits(resp.value).Failure? ==>
            r == Failure(Wrapped("failed to parse commits", svc.decodeCommits(resp.value).error)))
      && (r.Success? <==> resp.Success? && svc.decodeCommits(resp.value).Success?)
      && (r.Success? ==> r.value == svc.decodeCommits(resp.value).value)
  {
    match svc.http(Request(gitlabURL, privateToken, CommitsPage(projectID, page, SinceParam(since))))
    case Failure(e) => Failure(e)
    case Success(body) =>
      match svc.decodeCommits(body)
      case Failure(e) => Failure(Wrapped("failed to parse commits", e))
      case Success(commits) => Success(commits)
  }

  function CommitPages(svc: Services, gitlabURL: string, privateToken: string, projectID: int, since: string): nat -> Result<seq<Commit>, Error>
  {
    (page: nat) => CommitPage(svc, gitlabURL, privateToken, projectID, since, page)
  }

  /**
   * The statistics of one commit (main.go:62-75): `None` when the request
   * fails or when its body does not decode.
   */
  function CommitStats(svc: Services, gitlabURL: string, privateToken: string, projectID: int, c: Commit): (r: Option<DiffStats>)
    ensures
      var resp := svc.http(Request(gitlabURL, privateToken, CommitDiff(projectID, c.id)));
      && (r.Some? <==> resp.Success? && svc.decodeStats(resp.value).Success?)
      && (r.Some? ==> r.value == svc.decodeStats(resp.value).value)
  {
    match svc.http(Request(gitlabURL, privateToken, CommitDiff(projectID, c.id)))
    case Failure(_) => None
    case Success(body) =>
      match svc.decodeStats(body)
      case Failure(_) => None
      case Success(stats) => Some(stats)
  }

  function StatsOf(svc: Services, gitlabURL: string, privateToken: string, projectID: int): Commit -> Option<DiffStats>
  {
    (c: Commit) => CommitStats(svc, gitlabURL, privateToken, projectID, c)
  }

  /** A listing of commits folded into a fresh tally. */
  ghost function TalliedListing(pages: nat -> Result<seq<Commit>, Error>, diff: Commit -> Option<DiffStats>): Result<Tally, Error>
    requires Paging.Ends(pages)
  {
    match Paging.Listing(pages)
    case Failure(e) => Failure(e)
    case Success(commits) => Success(Tallied(map[], commits, diff))
  }

  /** What `getChangedLines` returns. */
  ghost function ChangedLines(svc: Services, gitlabURL: string, privateToken: string, projectID: int, since: string): Result<Tally, Error>
    requires Paging.Ends(CommitPages(svc, gitlabURL, privateToken, projectID, since))
  {
    TalliedListing(CommitPages(svc, gitlabURL, privateToken, projectID, since), StatsOf(svc, gitlabURL, privateToken, projectID))
  }

  lemma TalliedListingStopsAt(pages: nat -> Result<seq<Commit>, Error>, diff: Commit -> Option<DiffStats>, n: nat)
    requires Paging.Ends(pages)
    requires 1 <= n <= Paging.FirstStop(pages) && Paging.Stops(pages(n))
    ensures Paging.FirstStop(pages) == n
    ensures TalliedListing(pages, diff) ==
      if pages(n).Failure? then Failure(pages(n).error)
      else Success(Tallied(map[], Paging.Collected(pages, n), diff))
  {
    Paging.ListingStopsAt(pages, n);
  }

  /**
   * A successful listing's tally holds exactly the authors of the commits
   * whose statistics were obtained, each with the sum of those commits'
   * statistics.
   */
  lemma TalliedListingTotals(pages: nat -> Result<seq<Commit>, Error>, diff: Commit -> Option<DiffStats>, author: string)
    requires Paging.Ends(pages)
    requires TalliedListing(pages, diff).Success?
    ensures TalliedListing(pages, diff).value.Keys == Contributors(Paging.Collected(pages, Paging.FirstStop(pages)), diff)
    ensures Get(TalliedListing(pages, diff).value, author) == AuthorSum(Paging.Collected(pages, Paging.FirstStop(pages)), diff, author)
  {
    var commits := Paging.Collected(pages, Paging.FirstStop(pages));
    assert TalliedListing(pages, diff).value == Tallied(map[], commits, diff);
    TalliedKeys(map[], commits, diff);
    var empty: Tally := map[];
    assert empty.Keys + Contributors(commits, diff) == Contributors(commits, diff);
    TalliedAt(map[], commits, diff, author);
    var sum := AuthorSum(commits, diff, author);
    assert Plus(Get(map[], author), sum) == sum;
  }

  /**
   * The commit loop of main.go:61-84: each commit whose statistics are
   * obtained is added to its author's entry, created at zero first; a
   * commit whose statistics fail is skipped and the loop goes on.
   */
  method TallyPage(changes: Tally, commits: seq<Commit>, diff: Commit -> Option<DiffStats>) returns (r: Tally)
    ensures r == Tallied(changes, commits, diff)
  {
    r := changes;
    for i := 0 to |commits|
      invariant r == Tallied(changes, commits[..i], diff)
    {
      assert commits[..i + 1][..i] == commits[..i];
      var commit := commits[i];
      var stats := diff(commit);
      if stats.None? {
        continue;
      }
      if commit.authorEmail !in r {
        r := r[commit.authorEmail := Zero];
      }
      var counts := r[commit.authorEmail];
      r := r[commit.authorEmail := Counts(counts.added + stats.value.additions, counts.removed + stats.value.deletions, counts.total + stats.value.total)];
    }
    assert commits[..|commits|] == commits;
  }

  /**
   * The listing loop of `getChangedLines` (main.go:40-88) against a server
   * described by `pages`: requests pages 1, 2, ... (`requested`) until one
   * fails or is empty; a failed page discards everything tallied so far.
   */
  method TallyCommits(pages: nat -> Result<seq<Commit>, Error>, diff: Commit -> Option<DiffStats>)
    returns (r: Result<Tally, Error>, requested: seq<nat>)
    requires Paging.Ends(pages)
    ensures requested == Paging.PagesUpTo(Paging.FirstStop(pages))
    ensures r == TalliedListing(pages, diff)
  {
    ghost var stop := Paging.FirstStop(pages);
    var allChanges: Tally := map[];
    var page: nat := 1;
    requested := [];
    while true
      invariant 1 <= page <= stop
      invariant requested == Paging.PagesUpTo(page - 1)
      invariant allChanges == Tallied(map[], Paging.Collected(pages, page), diff)
      decreases stop - page
    {
      requested := requested + [page];
      var commits := pages(page);
      if commits.Failure? {
        TalliedListingStopsAt(pages, diff, page);
        return Failure(commits.error), requested;
      }
      if |commits.value| == 0 {
        TalliedListingStopsAt(pages, diff, page);
        break;
      }
      Paging.ListingContinues(pages, page);
      TalliedAppend(map[], Paging.Collected(pages, page), commits.value, diff);
      allChanges := TallyPage(allChanges, commits.value, diff);
      page := page + 1;
    }
    return Success(allChanges), requested;
  }

  /** `getChangedLines` for one project, since date and server. */
  method GetChangedLines(svc: Services, projectID: int, gitlabURL: string, privateToken: string, since: string)
    returns (r: Result<Tally, Error>, requested: seq<nat>)
    requires Paging.Ends(CommitPages(svc, gitlabURL, privateToken, projectID, since))
    ensures requested == Paging.PagesUpTo(Paging.FirstStop(CommitPages(svc, gitlabURL, privateToken, projectID, since)))
    ensures r == ChangedLines(svc, gitlabURL, privateToken, projectID, since)
  {
    r, requested := TallyCommits(CommitPages(svc, gitlabURL, privateToken, projectID, since), StatsOf(svc, gitlabURL, privateToken, projectID));
  }
}
