/**
 * The whole run of `main` (main.go:154-241) once the environment is read:
 * resolve the configuration, list the matching projects, collect and merge
 * their tallies, and sum the combined tally.
 */
module Collector {
  import opened Wrappers
  import opened Api
  import opened Tally
  import Config
  import Paging
  import Projects
  import Commits
  import Coordinator

  /**
   * The listings `main` starts all end: the project listing of the
   * resolved server, and the commit listing of each project it yields.
   * Go would otherwise keep requesting pages for ever.
   */
  ghost predicate Terminates(svc: Services, env: Config.Env, dateDaysAgo: int -> string)
  {
    var startup := Config.Resolve(env);
    startup.Start? ==>
      var c := startup.config;
      && Paging.Ends(Projects.ProjectPages(svc, c.gitlabURL, c.privateToken))
      && var listing := Projects.AllProjects(svc, c.gitlabURL, c.privateToken, c.patternToFind);
         listing.Success? ==> Coordinator.Fetchable(svc, c.gitlabURL, c.privateToken, dateDaysAgo(c.sinceDays), listing.value)
  }

  /**
   * The combined tally of a started run. The error from `getAllProjects`
   * is never checked (main.go:186), so a failed listing leaves no projects
   * to visit and the combined tally empty.
   */
  ghost function Combined(svc: Services, c: Config.Config, since: string): Tally
    requires Paging.Ends(Projects.ProjectPages(svc, c.gitlabURL, c.privateToken))
    requires var listing := Projects.AllProjects(svc, c.gitlabURL, c.privateToken, c.patternToFind);
      listing.Success? ==> Coordinator.Fetchable(svc, c.gitlabURL, c.privateToken, since, listing.value)
  {
    var listing := Projects.AllProjects(svc, c.gitlabURL, c.privateToken, c.patternToFind);
    if listing.Failure? then map[]
    else Coordinator.MergeSeq(Coordinator.Contributions(svc, c.gitlabURL, c.privateToken, since, listing.value))
  }

  /**
   * `main` with the environment `env` and the clock given as `dateDaysAgo`
   * (the date `n` days before now, formatted as main.go:169 does). The
   * concurrency number bounds how many projects are fetched at once and
   * so does not appear in what the run computes.
   */
  method Run(svc: Services, env: Config.Env, dateDaysAgo: int -> string)
    returns (status: int, combined: Tally, totalAdded: int, totalRemoved: int, total: int)
    requires Terminates(svc, env, dateDaysAgo)
    ensures status == if Config.Resolve(env).Exit? then Config.Resolve(env).status else 0
    ensures Config.Resolve(env).Exit? ==> combined == map[] && totalAdded == totalRemoved == total == 0
    ensures Config.Resolve(env).Start? ==>
      var c := Config.Resolve(env).config;
      combined == Combined(svc, c, dateDaysAgo(c.sinceDays))
    ensures Counts(totalAdded, totalRemoved, total) == Sum(combined)
  {
    var startup := Config.Resolve(env);
    if startup.Exit? {
      assert Sum(map[]) == Zero;
      return startup.status, map[], 0, 0, 0;
    }
    var c := startup.config;
    var sinceDate := dateDaysAgo(c.sinceDays);
    var listing, _ := Projects.GetAllProjects(svc, c.gitlabURL, c.privateToken, c.patternToFind);
    var allProjects := if listing.Success? then listing.value else [];
    var acc := Coordinator.CollectAll(svc, c.gitlabURL, c.privateToken, sinceDate, allProjects);
    combined := acc.entries;
    totalAdded, totalRemoved, total := Coordinator.GrandTotals(combined);
    status := 0;
  }

  /**
   * The concurrency number does not affect the combined tally: a run
   * limited to one project at a time and one limited to any other positive
   * number merge the same tallies. This holds because `Combined` does not
   * read the number; what carries the weight is that `Coordinator.CollectAll`
   * gives the same tally for every completion order (`Coordinator.MergeOverAll`).
   * A number below 1 is excluded: `sem.Acquire` (main.go:198) then blocks
   * for ever as soon as there is a project to visit.
   */
  lemma ConcurrencyIrrelevant(svc: Services, c: Config.Config, since: string, k: int)
    requires k >= 1
    requires Paging.Ends(Projects.ProjectPages(svc, c.gitlabURL, c.privateToken))
    requires var listing := Projects.AllProjects(svc, c.gitlabURL, c.privateToken, c.patternToFind);
      listing.Success? ==> Coordinator.Fetchable(svc, c.gitlabURL, c.privateToken, since, listing.value)
    ensures Combined(svc, c, since) == Combined(svc, c.(concurrency := k), since)
  {
  }
}
