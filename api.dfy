/**
 * The records the GitLab REST API returns (main.go:17-32) and the abstract
 * services the collector talks to: one HTTP round trip (`makeRequest`), the
 * three JSON decodings and `regexp.MatchString`.  None of them is modelled;
 * each is a total function the caller supplies.
 */
module Api {
  import opened Wrappers

  /** A commit as listed on a commits page. */
  datatype Commit = Commit(id: string, authorEmail: string)

  /** The `stats` object of one commit; `total` is passed through as reported. */
  datatype DiffStats = DiffStats(additions: int, deletions: int, total: int)

  /** A project as listed on a projects page in `simple` mode. */
  datatype Project = Project(id: int, name: string, pathWithNamespace: string)

  /** A response body. */
  type Body = seq<bv8>

  /**
   * Errors are opaque messages; `Wrapped` is `fmt.Errorf("<context>: %w", cause)`.
   */
  datatype Error = Failed(message: string) | Wrapped(context: string, cause: Error)

  /** Which endpoint a request goes to (the path and query string built in main.go). */
  datatype Target =
    | ProjectsPage(page: nat)
      /** `since` is `None` when the since string is empty and no `&since=` is added. */
    | CommitsPage(projectID: int, page: nat, since: Option<string>)
    | CommitDiff(projectID: int, commitID: string)

  /** A GET request: base URL, bearer token and target. */
  datatype Request = Request(gitlabURL: string, privateToken: string, target: Target)

  /** What `regexp.MatchString(pattern, s)` returns: a verdict and maybe an error. */
  datatype Match = Match(matched: bool, err: Option<Error>)

  /** The world outside the collector. */
  datatype Services = Services(
    http: Request -> Result<Body, Error>,
    decodeProjects: Body -> Result<seq<Project>, Error>,
    decodeCommits: Body -> Result<seq<Commit>, Error>,
    decodeStats: Body -> Result<DiffStats, Error>,
    matchString: (string, string) -> Match)
}
