# gitlab-lines-collector, modelled in Dafny

The collector asks a GitLab server for every project whose name plus path
matches a pattern. For each such project it lists the commits since a date,
one page at a time, and fetches each commit's diff statistics. It tallies
lines added, removed and in total per author email, merges the project
tallies into one combined tally and prints grand totals.

The model covers the logic of `main.go`:

- the paginated listing loop, shared by `getAllProjects` and `getChangedLines`;
- the project filter;
- the per-author tally fold;
- configuration resolution;
- the merging of project tallies into the combined tally;
- the grand-total loop.

The outside world is a value of `Api.Services`, made of five total functions:

- one HTTP round trip, standing in for `makeRequest`;
- three JSON decoders;
- the regular-expression matcher.

Each of them may fail.

Modules, one per file:

- `Wrappers`: `Option` and `Result`.
- `Api`: the API records, errors, requests and the services.
- `Paging`: the listing loop in general. A server is a function from page number to page result. `FirstStop` is the page where the loop leaves, and `Listing` is what the loop yields.
- `Projects`: `getAllProjects` and the filter.
- `Tally`: the per-author counts, the fold, `Merge` and the grand-total sum `Sum`.
- `Commits`: `getChangedLines`.
- `Coordinator`: the combined tally as a class, the merge of all projects in any order, and the grand totals.
- `Config`: environment defaulting.
- `Collector`: the whole run.
- `Scenario`: a worked two-project example.

The loops are imperative methods, each proved against a specification function:

- `ListProjects` and `TallyCommits` against `Paging.Listing`;
- `AppendMatching` against `Filter`;
- `TallyPage` against `Tallied`;
- `MergeProject` against `Merge`;
- `GrandTotals` against `Sum`.

Go iterates maps in random order, and the goroutines finish in any order. The model therefore picks the next author or project arbitrarily (`:|`), and each contract holds for every such choice.

Three points of `main` behave differently from what a reader might expect. The model follows the code in each:

- **Unparsable `SINCE_DAYS`.** The message at main.go:166 announces "Pick default 360 days", and the default is assigned. But the parse error is still set when main.go:171-174 tests it, so the process then exits with status 1.
- **Concurrency number.** Only a value that does not parse becomes 20 (main.go:175-180). A parsed zero or negative number is kept.
- **Failed project listing.** The error that `getAllProjects` returns at main.go:186 is never checked. The run then visits no project, prints an empty combined tally with zero totals and exits with status 0.

## Model

| member | source | states |
|---|---|---|
| Paging.FirstStop | main.go:42-59 | the page where the loop leaves is the first page, counting from 1, that is an error or decodes to an empty list |
| Paging.ListingStopsAt | main.go:48-59 | a loop at a failing or empty page, with no earlier stop, is at the first stop; the listing is then that page's error, or every item of the earlier pages |
| Paging.ListingContinues | main.go:57-85 | a non-empty page is not the last one; its items follow those of the earlier pages, in order |
| Paging.ListingIgnoresLaterPages | main.go:57-59 | pages after the first empty or failing one are never consulted: two servers that agree up to it give the same stop page and the same listing |
| Paging.ListingFails | main.go:48-56 | a request or decode failure before any empty page makes the whole listing that error, with no partial result |
| Paging.CollectedMembers | main.go:115-120 | an item is collected exactly when one of the pages before the stop lists it |
| Paging.PagesUpTo | main.go:40-85 | the request trace is pages 1, 2, ..., n in order |
| Projects.ProjectPage | main.go:101-111 | a request error is passed up unchanged; a body that does not decode gives an error wrapped as "failed to parse projects"; otherwise the page is the decoded projects |
| Projects.FilteredListingStopsAt | main.go:102-114 | at the first stop, project enumeration returns the page's error, or the kept projects of the earlier pages |
| Projects.FilterAppend | main.go:115-119 | filtering keeps page order and then order within a page |
| Projects.FilterMembers | main.go:116-117 | a project is kept exactly when it was listed and the matcher accepts its name followed by its path |
| Projects.FilterAllKept | main.go:116-117 | when every project matches, the filter returns them all, in order |
| Projects.FilterMatchErrors | main.go:116 | a matcher error counts as no match: such projects are dropped, and the listing is not aborted |
| Projects.AllProjectsMembers | main.go:91-124 | a successful enumeration holds exactly the matching projects of the pages before the first empty page |
| Projects.AppendMatching | main.go:115-119 | one page's loop appends exactly that page's matching projects, in order, to what was kept before |
| Projects.ListProjects | main.go:98-123 | the loop requests pages 1 .. stop, in order and no page beyond; it returns the stop page's error or the filtered listing |
| Projects.GetAllProjects | main.go:91-124 | `getAllProjects` against the project pages of the configured server and token |
| Tally.Merge | main.go:214-216 | the merged tally has the authors of both tallies and no others |
| Tally.AddAt | main.go:77-83 | adding a commit's counts changes only that author's entry, which starts at zero when absent |
| Tally.TalliedAt | main.go:61-84 | after the fold, each author's entry is the earlier entry plus the sum of that author's commits whose statistics were obtained; failed commits add nothing |
| Tally.TalliedKeys | main.go:77-78 | the fold adds exactly the authors of the commits whose statistics were obtained |
| Tally.TalliedAppend | main.go:42-86 | folding two pages in turn is folding their concatenation |
| Tally.MergeAt | main.go:214-221 | each author's merged entry is the field-wise sum of the two entries, absent counting as zero; authors missing from the project tally keep their entry |
| Tally.MergeCommutes | main.go:213-221 | the order of two tallies in a merge does not matter |
| Tally.MergeAssociates | main.go:213-221 | merges can be regrouped |
| Tally.MergeEmpty | main.go:207-211 | merging an empty tally changes nothing |
| Tally.MergeSwap | main.go:196-223 | two project merges can happen in either order |
| Tally.MergeStep | main.go:214-221 | handling one more author of the project tally is one step of merging the whole project tally |
| Tally.MergeTake | main.go:214-221 | merging a tally is merging it without one author and then adding that author's counts |
| Tally.SumOverTake | main.go:233-238 | the grand totals do not depend on the order authors are visited: any author can come first |
| Tally.SumOverAgree | main.go:233-238 | the totals over a set of authors read only those authors' entries |
| Tally.SumAdd | main.go:218-220 | adding counts to one author raises the grand totals by those counts |
| Tally.SumMerge | main.go:213-238 | the grand totals of a merge are the sum of the grand totals of its parts |
| Commits.SinceParam | main.go:44-46 | the `since` parameter is sent exactly when the since string is not empty, and then carries that string |
| Commits.CommitPage | main.go:43-56 | a request error is passed up unchanged; a body that does not decode gives an error wrapped as "failed to parse commits"; otherwise the page is the decoded commits |
| Commits.CommitStats | main.go:62-75 | a commit's statistics are obtained exactly when both its diff request and the decoding succeed, and are then the decoded statistics |
| Commits.TalliedListingStopsAt | main.go:48-59 | at the first stop, `getChangedLines` returns the page's error, or the fold of the commits of the earlier pages |
| Commits.TalliedListingTotals | main.go:34-89 | a successful project tally has exactly the authors whose commit statistics were obtained, each with the sum of those statistics |
| Commits.TallyPage | main.go:61-84 | the commit loop produces the fold of the page into the tally, skipping failed commits and creating entries at zero |
| Commits.TallyCommits | main.go:40-88 | the loop requests pages 1 .. stop, in order and no page beyond; it returns the stop page's error or the tally of all listed commits |
| Commits.GetChangedLines | main.go:34-89 | `getChangedLines` against the commit pages and diff endpoint of one project |
| Coordinator.CombinedTally.constructor | main.go:190 | the combined tally starts empty |
| Coordinator.CombinedTally.MergeProject | main.go:213-222 | one critical section leaves the combined tally merged with the project tally, whatever order the authors are visited in |
| Coordinator.MergeOverTake | main.go:196-227 | any of the projects can be the one merged last |
| Coordinator.MergeOverStep | main.go:207-221 | merging one more pending project, whichever it is, extends the set of merged projects |
| Coordinator.MergeOverAll | main.go:196-227 | merging the projects in any completion order gives what merging them first to last gives |
| Coordinator.MergeSeqMembers | main.go:214-216 | an author is in the combined tally exactly when some project tally has it |
| Coordinator.MergeSeqAt | main.go:214-221 | each author's combined entry is the sum of that author's entries across the project tallies |
| Coordinator.SumMergeSeq | main.go:229-238 | the grand totals equal the sum of the projects' own totals |
| Coordinator.ContributionsAt | main.go:207-211 | a project contributes its tally when `getChangedLines` succeeds for it and an empty tally when it fails |
| Coordinator.FailedAddsNothing | main.go:207-211 | a project that contributes nothing leaves the combined tally as the other projects make it |
| Coordinator.CollectAll | main.go:188-227 | fetching all projects and merging the successful ones, in any order, gives the ordered merge of their contributions |
| Coordinator.GrandTotals | main.go:229-238 | the three totals are the field-wise sums over every author of the combined tally |
| Config.Resolve | main.go:155-184 | start-up exits with status 1 exactly when the token is empty or SINCE_DAYS does not parse; otherwise positive days (parsed, or 360), the parsed concurrency even when non-positive, or 20 when it does not parse, and a non-empty URL (given, or https://gitlab.com) |
| Collector.Run | main.go:154-241 | the exit status; on exit, no tally; otherwise the combined tally of the matching projects, empty when the listing failed; and totals equal to the sums of the combined tally |
| Collector.ConcurrencyIrrelevant | main.go:194-224 | the combined tally is the same whatever the positive concurrency number, one project at a time or many; this holds because the model does not read the number, and the order-independence it rests on is CollectAll's any-order contract with MergeOverAll |
| Scenario.OnePageTally | main.go:40-88 | for any diff statistics, a listing whose second page is empty yields the tally of its first page |
| Scenario.TwoProjects | main.go:61-238 | two projects whose commits are by x@y.com (3/1/4 and 2/0/2; 5/5/10) and z@y.com (1/1/2) combine to x@y.com 10/6/16 and z@y.com 1/1/2, with grand totals 11/7/18 |

## Left out

- `makeRequest` (main.go:126-152): HTTP, headers and body closing. It is the `http` service, a total function that may fail; status codes and transport errors are not told apart. The server is assumed deterministic within a run: the same request always gets the same answer. In Go a repeated request goes to the server again and may be answered differently, for example a commit listed on two pages is fetched and added twice (main.go:61-63, 81-83), or a project listed twice is fetched twice (main.go:196, 207), and a transient failure may hit only one of the fetches.
- `json.Unmarshal`: the three decoders are services. JSON syntax and field mapping are not modelled.
- `regexp.MatchString`: the matcher is a service returning a verdict and an optional error. Regular-expression semantics are not modelled.
- URL and query-string formatting: a request is a structured `Api.Request`, not a formatted string.
- Goroutines, the semaphore, the `WaitGroup` and the mutex (main.go:188-227): the merges are sequential and in arbitrary order. How many projects are in flight at once is not modelled, so the concurrency number has no effect on the result.
- A non-positive concurrency number makes `sem.Acquire` block for ever, and `wg.Add` before a failed `Acquire` would hang `wg.Wait` (main.go:196-201). Both are concurrency behaviour and are not modelled.
- `time.Now` and date formatting (main.go:169): the since date is the result of a caller-supplied function of the day count.
- `strconv.Atoi`: its results are inputs, as `Option<int>`.
- `os.Getenv` and `os.Exit`: the environment is an input, and the exit status is an output of `Collector.Run`.
- All `fmt.Printf` logging and the printing of the per-author results and totals.
- Go's `int` is 64 bits wide; the model uses unbounded integers, so overflow of a sum is not modelled.
- Projects.ListProjects: it requires the listing to end (`Paging.Ends`). A server that never returns an empty or failing page would keep the Go loop requesting pages for ever.
- Projects.GetAllProjects: it has the same requirement (`Paging.Ends`), for the same reason.
- Commits.TallyCommits: it has the same requirement (`Paging.Ends`), for the same reason.
- Commits.GetChangedLines: it has the same requirement (`Paging.Ends`), for the same reason.
- Coordinator.CollectAll: it requires every listed project's commit listing to end (`Coordinator.Fetchable`). `Coordinator.Contribution` and `Coordinator.Contributions` require the same.
- Collector.Run: it requires each listing it starts to end (`Collector.Terminates`).
- Go keeps each author's entry as a `map[string]int` with the keys "added", "removed" and "total". The model uses a `Counts` record with those three fields.
