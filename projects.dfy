/** Project enumeration with the name/path filter: `getAllProjects` (main.go:91-124). */
module Projects {
  import opened Wrappers
  import opened Api
  import Paging

  /** What page `page` of the project listing decodes to (main.go:101-111). */
  function ProjectPage(svc: Services, gitlabURL: string, privateToken: string, page: nat): (r: Result<seq<Project>, Error>)
    ensures
      var resp := svc.http(Request(gitlabURL, privateToken, ProjectsPage(page)));
      && (resp.Failure? ==> r == Failure(resp.error))
      && (resp.Success? && svc.decodeProjects(resp.value).Failure? ==>
            r == Failure(Wrapped("failed to parse projects", svc.decodeProjects(resp.value).error)))
      && (r.Success? <==> resp.Success? && svc.decodeProjects(resp.value).Success?)
      && (r.Success? ==> r.value == svc.decodeProjects(resp.value).value)
  {
    match svc.http(Request(gitlabURL, privateToken, ProjectsPage(page)))
    case Failure(e) => Failure(e)
    case Success(body) =>
      match svc.decodeProjects(body)
      case Failure(e) => Failure(Wrapped("failed to parse projects", e))
      case Success(projects) => Success(projects)
  }

  function ProjectPages(svc: Services, gitlabURL: string, privateToken: string): nat -> Result<seq<Project>, Error>
  {
    (page: nat) => ProjectPage(svc, gitlabURL, privateToken, page)
  }

  /** The filter of main.go:116: the verdict of matching the name followed directly by the path; the error is ignored. */
  predicate Keeps(svc: Services, patternToFind: string, p: Project)
  {
    svc.matchString(patternToFind, p.name + p.pathWithNamespace).matched
  }

  /** The kept projects of `ps`, in their order. */
  function Filter(svc: Services, patternToFind: string, ps: seq<Project>): seq<Project>
  {
    if ps == [] then []
    else
      var last := ps[|ps| - 1];
      Filter(svc, patternToFind, ps[..|ps| - 1]) + (if Keeps(svc, patternToFind, last) then [last] else [])
  }

  /** A listing with the filter applied to what it collects. */
  ghost function FilteredListing(svc: Services, patternToFind: string, pages: nat -> Result<seq<Project>, Error>): Result<seq<Project>, Error>
    requires Paging.Ends(pages)
  {
    match Paging.Listing(pages)
    case Failure(e) => Failure(e)
    case Success(ps) => Success(Filter(svc, patternToFind, ps))
  }

  lemma FilteredListingStopsAt(svc: Services, patternToFind: string, pages: nat -> Result<seq<Project>, Error>, n: nat)
    requires Paging.Ends(pages)
    requires 1 <= n <= Paging.FirstStop(pages) && Paging.Stops(pages(n))
    ensures Paging.FirstStop(pages) == n
    ensures FilteredListing(svc, patternToFind, pages) ==
      if pages(n).Failure? then Failure(pages(n).error)
      else Success(Filter(svc, patternToFind, Paging.Collected(pages, n)))
  {
    Paging.ListingStopsAt(pages, n);
  }

  /** What `getAllProjects` returns. */
  ghost function AllProjects(svc: Services, gitlabURL: string, privateToken: string, patternToFind: string): Result<seq<Project>, Error>
    requires Paging.Ends(ProjectPages(svc, gitlabURL, privateToken))
  {
    FilteredListing(svc, patternToFind, ProjectPages(svc, gitlabURL, privateToken))
  }

  /** Filtering a concatenation filters each part: page order, then order within a page. */
  lemma {:induction false} FilterAppend(svc: Services, patternToFind: string, a: seq<Project>, b: seq<Project>)
    ensures Filter(svc, patternToFind, a + b) == Filter(svc, patternToFind, a) + Filter(svc, patternToFind, b)
    decreases |b|
  {
    if b == [] {
      assert a + b == a;
    } else {
      var b' := b[..|b| - 1];
      assert (a + b)[..|a + b| - 1] == a + b';
      FilterAppend(svc, patternToFind, a, b');
    }
  }

  /** A project is kept exactly when it is listed and its name+path matches. */
  lemma {:induction false} FilterMembers(svc: Services, patternToFind: string, ps: seq<Project>, p: Project)
    ensures p in Filter(svc, patternToFind, ps) <==> p in ps && Keeps(svc, patternToFind, p)
    decreases |ps|
  {
    if ps != [] {
      var init := ps[..|ps| - 1];
      FilterMembers(svc, patternToFind, init, p);
      assert ps == init + [ps[|ps| - 1]];
    }
  }

  /** When every project matches, filtering keeps all of them, in their order. */
  lemma {:induction false} FilterAllKept(svc: Services, patternToFind: string, ps: seq<Project>)
    requires forall i :: 0 <= i < |ps| ==> Keeps(svc, patternToFind, ps[i])
    ensures Filter(svc, patternToFind, ps) == ps
    decreases |ps|
  {
    if ps != [] {
      FilterAllKept(svc, patternToFind, ps[..|ps| - 1]);
    }
  }

  /**
   * A matcher that fails on every project (an invalid pattern: Go reports
   * `false` with the error) leaves nothing, and the listing still succeeds.
   */
  lemma {:induction false} FilterMatchErrors(svc: Services, patternToFind: string, ps: seq<Project>)
    requires forall i :: 0 <= i < |ps| ==>
      svc.matchString(patternToFind, ps[i].name + ps[i].pathWithNamespace).err.Some? &&
      !svc.matchString(patternToFind, ps[i].name + ps[i].pathWithNamespace).matched
    ensures Filter(svc, patternToFind, ps) == []
    decreases |ps|
  {
    if ps != [] {
      FilterMatchErrors(svc, patternToFind, ps[..|ps| - 1]);
    }
  }

  /**
   * A successful enumeration returns exactly the matching projects of the
   * pages before the first empty one.
   */
  lemma AllProjectsMembers(svc: Services, gitlabURL: string, privateToken: string, patternToFind: string, p: Project)
    requires Paging.Ends(ProjectPages(svc, gitlabURL, privateToken))
    requires AllProjects(svc, gitlabURL, privateToken, patternToFind).Success?
    ensures p in AllProjects(svc, gitlabURL, privateToken, patternToFind).value <==>
      Keeps(svc, patternToFind, p) &&
      exists m: nat :: 1 <= m < Paging.FirstStop(ProjectPages(svc, gitlabURL, privateToken)) &&
        p in Paging.Items(ProjectPage(svc, gitlabURL, privateToken, m))
  {
    var pages := ProjectPages(svc, gitlabURL, privateToken);
    var n := Paging.FirstStop(pages);
    var listed := Paging.Collected(pages, n);
    assert AllProjects(svc, gitlabURL, privateToken, patternToFind).value == Filter(svc, patternToFind, listed);
    FilterMembers(svc, patternToFind, listed, p);
    Paging.CollectedMembers(pages, n, p);
    assert forall m: nat :: pages(m) == ProjectPage(svc, gitlabURL, privateToken, m);
  }

  /** The inner loop of main.go:115-119: append the matching projects of one page. */
  method AppendMatching(svc: Services, patternToFind: string, allProjects: seq<Project>, projects: seq<Project>)
    returns (r: seq<Project>)
    ensures r == allProjects + Filter(svc, patternToFind, projects)
  {
    r := allProjects;
    for i := 0 to |projects|
      invariant r == allProjects + Filter(svc, patternToFind, projects[..i])
    {
      assert projects[..i + 1][..i] == projects[..i];
      if svc.matchString(patternToFind, projects[i].name + projects[i].pathWithNamespace).matched {
        r := r + [projects[i]];
      }
    }
    assert projects[..|projects|] == projects;
  }

  /**
   * The listing loop of `getAllProjects` (main.go:98-123) against a server
   * described by `pages`: requests pages 1, 2, ... (`requested`), stops at the
   * first page that fails or is empty, and returns either that page's error or
   * the kept projects of all earlier pages.
   */
  method ListProjects(svc: Services, patternToFind: string, pages: nat -> Result<seq<Project>, Error>)
    returns (r: Result<seq<Project>, Error>, requested: seq<nat>)
    requires Paging.Ends(pages)
    ensures requested == Paging.PagesUpTo(Paging.FirstStop(pages))
    ensures r == FilteredListing(svc, patternToFind, pages)
  {
    ghost var stop := Paging.FirstStop(pages);
    var allProjects: seq<Project> := [];
    var page: nat := 1;
    requested := [];
    while true
      invariant 1 <= page <= stop
      invariant requested == Paging.PagesUpTo(page - 1)
      invariant allProjects == Filter(svc, patternToFind, Paging.Collected(pages, page))
      decreases stop - page
    {
      requested := requested + [page];
      var projects := pages(page);
      if projects.Failure? {
        FilteredListingStopsAt(svc, patternToFind, pages, page);
        return Failure(projects.error), requested;
      }
      if |projects.value| == 0 {
        FilteredListingStopsAt(svc, patternToFind, pages, page);
        break;
      }
      Paging.ListingContinues(pages, page);
      FilterAppend(svc, patternToFind, Paging.Collected(pages, page), projects.value);
      allProjects := AppendMatching(svc, patternToFind, allProjects, projects.value);
      page := page + 1;
    }
    return Success(allProjects), requested;
  }

  /**
   * `getAllProjects`: the listing loop against the project pages of
   * `gitlabURL` seen with `privateToken`.
   */
  method GetAllProjects(svc: Services, gitlabURL: string, privateToken: string, patternToFind: string)
    returns (r: Result<seq<Project>, Error>, requested: seq<nat>)
    requires Paging.Ends(ProjectPages(svc, gitlabURL, privateToken))
    ensures requested == Paging.PagesUpTo(Paging.FirstStop(ProjectPages(svc, gitlabURL, privateToken)))
    ensures r == AllProjects(svc, gitlabURL, privateToken, patternToFind)
  {
    r, requested := ListProjects(svc, patternToFind, ProjectPages(svc, gitlabURL, privateToken));
  }
}
