# Hot-topic scheduler and Gitee issue client, in Dafny

This project models two pieces of the hot-topic website backend and proves properties about them.

**The weekly hot-topic scheduler** (`hottopic.dfy`, module `HotTopic`) has these parts:
- a `DoneCache`: the week it is about, plus the communities already handled in that week;
- two bounded retry loops:
  - `FindUpdatingTime` asks the repository when a community's hot topic was last created;
  - `DoApply` asks the apply service to create one;
- `Handle`: one pass over the configured communities.

  Each community has exactly one of these outcomes:
  - the pass stops, because `needStop` says so before the community is touched;
  - it is skipped, because the cache already holds it;
  - it is marked done, because a lookup found this week's date;
  - it is left as it is, after a lookup error;
  - it is applied and marked done;
  - it is left as it is, after a failed apply that was not rate limited;
  - the whole pass is aborted, because the apply service answered that it is rate limited.

  Members of `NoInvokeCommunity` are never looked up; they count as "not done, no error" and go straight to the apply.

  The outside world is a `Collaborators` object: the repository, the apply service, the cancellation check `needStop` and the ten-second sleep. It logs every call together with the answer it got. The answers come from a `Script`, indexed by the call's position in the log. Each method is proved to leave the log, the cache and its results as a specification function of the old state says: `Retry`, `FindRun`, `ApplyRun`, `IsDoneRun`, `Visit`, `PassFrom`. Lemmas then state what those functions promise.

**The Gitee issue-comment client** (`giteeissue.dfy`, module `GiteeIssue`) covers:
- `ParseIssue`, which splits an issue URL into owner, repository and issue number;
- the API URLs built from the parsed issue;
- the page loop of `CountCommentedSolutions`. Each page reply is an input: a request error, or a status plus an optionally decoded list of comments with optional bodies.
- the status check of `AddSolution`.

The `ParseURL` strategy that finds a link in a comment is a function parameter. `gostrings.dfy` (module `GoStrings`) defines the Go library functions these use: `strings.Split`, `strings.TrimSpace` and `strconv.Itoa`, with the properties the proofs need. `wrappers.dfy` holds `Option`, `Result` and `Outcome`.

Points where the code's behaviour is easy to misread; the model follows the code:
- **Cancellation inside a retry loop.** The code does not report a cancelled state, and it does not return a zero-valued success either. Go's named results hold the last failed attempt, so that attempt's error is returned (`handler.go:129-132`, `153-156`). `RetriedFacts` proves that the returned attempt failed whenever the loop stopped on a poll.
- **When `needStop` is polled.** The retry loops poll once before each sleep, not again after it.
- **What `parseIssue` checks.** It checks only that there are at least four `/`-separated pieces. It never checks the word `issues`, and it takes the last piece as the number. So `https://example.com/a/b` parses, to owner `""`, repository `example.com` and number `b` (`ParseIssueShortURL`); it is not rejected.
- **Which comments are passed to `ParseURL`.** Every comment with a body present is passed, empty bodies included. Only an empty `ParseURL` result is dropped.

## Model

| member | source | states |
|---|---|---|
| HotTopic.DoneCache.Refresh | hottopicmanagement/watchhottopic/handler.go:41-46 | the date becomes `d`; a different date empties the set, the same date changes nothing |
| HotTopic.DoneCache.Add | hottopicmanagement/watchhottopic/handler.go:33-39 | afterwards `isDone` answers true for the added community, its answer for every other community is unchanged, and the date is kept |
| HotTopic.Handler.FindUpdatingTime | hottopicmanagement/watchhottopic/handler.go:124-142 | the calls made and the value and error returned are those of `FindRun`, a bounded retry of `FindCreatedAt` |
| HotTopic.Handler.FindAgain | hottopicmanagement/watchhottopic/handler.go:130-138 | one round of the loop after a failed lookup: told to stop, it returns having logged only the poll, and the loop's result is that failed lookup; otherwise the log grows by exactly the poll, the sleep and one more lookup of the community, and the loop ends there on success or goes on with one retry fewer |
| HotTopic.Handler.DoApply | hottopicmanagement/watchhottopic/handler.go:144-166 | the calls made and the error returned are those of `ApplyRun`: one call when the first answer is rate limited, otherwise a bounded retry |
| HotTopic.Handler.ApplyAgain | hottopicmanagement/watchhottopic/handler.go:154-162 | one round of the loop after a failed apply: told to stop, it returns having logged only the poll, and the loop's result is that failed apply; otherwise the log grows by exactly the poll, the sleep and one more apply of the community, and the loop ends there on success or goes on with one retry fewer |
| HotTopic.Handler.IsDone | hottopicmanagement/watchhottopic/handler.go:112-122 | returns `IsDoneRun`'s answer; a community of `NoInvokeCommunity` gives (false, no error) and makes no call |
| HotTopic.Handler.Handle | hottopicmanagement/watchhottopic/handler.go:70-110 | the cache date becomes `date`; the done set and the calls made are those of `PassFrom` over the communities, starting from the refreshed cache |
| HotTopic.RetryRounds | hottopicmanagement/watchhottopic/handler.go:129-141 | the retry loop is a `Retried` run: attempts separated by "go on" polls and sleeps; at most `left` retries; it ends on a success, or when no retry is left, or on a poll answered "stop" after a failure |
| HotTopic.RetriedFacts | hottopicmanagement/watchhottopic/handler.go:124-166 | a bounded retry makes at most retries+1 attempts; its calls are attempts, polls and sleeps; the returned attempt is the only one that can have succeeded, so it is the first success; a stop poll comes only after a failed attempt, whose error is returned |
| HotTopic.FindUpdatingTimeRetries | hottopicmanagement/watchhottopic/handler.go:124-142 | `findUpdatingTime` is a bounded retry of `FindCreatedAt` with two retries, so it makes at most three calls |
| HotTopic.DoApplyRetries | hottopicmanagement/watchhottopic/handler.go:144-166 | `doApply` is a bounded retry with two retries, or with none when the first call is rate limited; on a first success or a first rate limit it makes exactly that one call |
| HotTopic.IsDoneMeaning | hottopicmanagement/watchhottopic/handler.go:112-122 | NoInvokeCommunity gives (false, no error) with no call; otherwise done iff a lookup returned this week's date, error iff no lookup succeeded, and done implies no error |
| HotTopic.DoApplyMeaning | hottopicmanagement/watchhottopic/handler.go:144-166 | doApply only calls the apply service for its community, polls and sleeps; it returns no error iff some apply call succeeded |
| HotTopic.VisitCalls | hottopicmanagement/watchhottopic/handler.go:75-108 | each iteration polls first; a stop returns before touching the community; a cached community gets no other call; every other call is about this community, and no lookup is made for NoInvokeCommunity |
| HotTopic.VisitDone | hottopicmanagement/watchhottopic/handler.go:81-104 | an iteration adds at most its own community, and adds it iff a lookup found this week's date or an apply succeeded |
| HotTopic.VisitLookupError | hottopicmanagement/watchhottopic/handler.go:91-95 | when the lookup of an uncached community ends in an error, the iteration marks nothing, does not halt the pass, ends right after the lookup and makes no apply |
| HotTopic.Visit | hottopicmanagement/watchhottopic/handler.go:76-108 | one iteration polls `needStop` first, keeps every call made before it, and adds to the done set at most its own community |
| HotTopic.PassFrom | hottopicmanagement/watchhottopic/handler.go:75-109 | the pass keeps the calls made before it and never removes a done community; a pass that has returned changes nothing more |
| HotTopic.IsDoneRun | hottopicmanagement/watchhottopic/handler.go:112-122 | a community of `NoInvokeCommunity` is "not done, no error" with no call; "done" never comes with an error; the log only grows |
| HotTopic.FindRun | hottopicmanagement/watchhottopic/handler.go:124-142 | findUpdatingTime only extends the log and returns a lookup of its own community |
| HotTopic.ApplyRun | hottopicmanagement/watchhottopic/handler.go:144-166 | doApply only extends the log and returns an apply of its own community |
| HotTopic.VisitHalts | hottopicmanagement/watchhottopic/handler.go:76-108 | an iteration that returns has added nothing; it returns when the poll says stop, and otherwise exactly when its community was looked up as not done without error and doApply then returned the rate-limit error |
| HotTopic.PassSplit | hottopicmanagement/watchhottopic/handler.go:75 | the communities are visited in list order: a pass over `a + b` is a pass over `a`, then one over `b` |
| HotTopic.PassHaltedIgnoresRest | hottopicmanagement/watchhottopic/handler.go:106-108 | after an iteration returns, later communities get no call and are not added |
| HotTopic.PassCalls | hottopicmanagement/watchhottopic/handler.go:75-109 | a pass calls the repository and the apply service only for listed communities that were not in the cache when the pass began, and never looks up a NoInvokeCommunity one |
| HotTopic.PassDone | hottopicmanagement/watchhottopic/handler.go:81-104 | after a pass, the cache holds the old set plus exactly the communities for which a lookup in this pass found this week's date or an apply in this pass succeeded |
| HotTopic.PassAddsListed | hottopicmanagement/watchhottopic/handler.go:73-109 | a pass adds only communities of its list to the refreshed cache |
| HotTopic.Retry | hottopicmanagement/watchhottopic/handler.go:129-139 | the retry loop only appends to the log, and the attempt it returns is an attempt of its operation |
| GiteeIssue.ParseIssue | hottopicmanagement/watch/giteeissue/client.go:43-55 | parsing fails only with an invalid-URL error |
| GiteeIssue.ParseIssueFails | hottopicmanagement/watch/giteeissue/client.go:44-48 | parsing fails exactly when the trimmed URL has fewer than three slashes, that is, fewer than four pieces |
| GiteeIssue.ParseIssueSlashFree | hottopicmanagement/watch/giteeissue/client.go:44-54 | owner, repository and number never contain a slash |
| GiteeIssue.ParseTail | hottopicmanagement/watch/giteeissue/client.go:50-54 | after any prefix, white space at its front included, `/a/b/c/d` (slash-free segments, `d` not ending in white space) parses to owner `a`, repository `b` and number `d`; leading white space is trimmed and the second-to-last piece `c` is ignored |
| GiteeIssue.ParseIssueRoundTrip | hottopicmanagement/watch/giteeissue/client.go:43-55 | `prefix/owner/repo/issues/num`, with slash-free parts and no white space at its end, parses back to (owner, repo, num) |
| GiteeIssue.IssuePathRoundTrip | hottopicmanagement/watch/giteeissue/client.go:121 | for every URL that parses, the API path built from the parsed issue parses back to the same issue |
| GiteeIssue.CommentsURL | hottopicmanagement/watch/giteeissue/client.go:121 | the comments endpoint extends the issue's API path |
| GiteeIssue.CommentsURLPieces | hottopicmanagement/watch/giteeissue/client.go:121 | for slash-free parts, the endpoint is the API prefix followed by the segments owner, repository, `issues`, number and `comments` |
| GiteeIssue.CommentsURLInjective | hottopicmanagement/watch/giteeissue/client.go:121 | two issues with slash-free parts share a comments endpoint exactly when they are the same issue |
| GiteeIssue.PageURL | hottopicmanagement/watch/giteeissue/client.go:81 | every listing request is on the issue's comments endpoint |
| GiteeIssue.RequestsAt | hottopicmanagement/watch/giteeissue/client.go:80-81 | the listing's request number `j` is for page `j + 1`, with `per_page=100` |
| GiteeIssue.PageURLInjective | hottopicmanagement/watch/giteeissue/client.go:81 | different pages of one issue are different request URLs |
| GiteeIssue.HarvestMembers | hottopicmanagement/watch/giteeissue/client.go:103-109 | a link is collected iff some comment has a body for which `ParseURL` gives that non-empty link; at most one link per comment |
| GiteeIssue.HarvestAppend | hottopicmanagement/watch/giteeissue/client.go:103-109 | collecting from two runs of comments gives the first run's links, then the second's, in order |
| GiteeIssue.Harvest | hottopicmanagement/watch/giteeissue/client.go:103-109 | the links collected from one page's comments are all non-empty |
| GiteeIssue.Solutions | hottopicmanagement/watch/giteeissue/client.go:79-110 | the links collected from the first `n` pages are all non-empty |
| GiteeIssue.SolutionsMembers | hottopicmanagement/watch/giteeissue/client.go:79-110 | after `n` pages, a link has been collected iff one of those pages has a comment whose body `ParseURL` maps to that non-empty link |
| GiteeIssue.FirstStop | hottopicmanagement/watch/giteeissue/client.go:80-101 | the first page that ends the loop: every earlier page has status 200 and a non-empty list |
| GiteeIssue.ListingSucceeds | hottopicmanagement/watch/giteeissue/client.go:82-101 | the listing succeeds iff the page that ends it is an empty list with status 200, and then holds the links of all earlier pages |
| GiteeIssue.CountCommentedSolutions | hottopicmanagement/watch/giteeissue/client.go:73-113 | an invalid URL fails with no request; otherwise it requests pages 1, 2, … up to and including the first page that ends the loop, and returns that page's error with no partial list, or all earlier pages' links |
| GiteeIssue.ListComments | hottopicmanagement/watch/giteeissue/client.go:79-112 | the page loop requests pages 1, 2, … up to the first page that ends it, and returns that page's error or, on an empty list, the links of all earlier pages in order |
| GiteeIssue.Fetch | hottopicmanagement/watch/giteeissue/client.go:82-97 | one reply is a request error, a non-200 status error or a decode error, checked in that order; success means status 200 with a decoded list |
| GiteeIssue.CollectLinks | hottopicmanagement/watch/giteeissue/client.go:103-109 | appends to the accumulated links exactly the links of this page's comments, in comment order |
| GiteeIssue.AddSolution | hottopicmanagement/watch/giteeissue/client.go:115-142 | an invalid URL fails with no request; otherwise the comment is posted to the issue's comments endpoint, and the call succeeds iff the reply is 201 Created |
| GiteeIssue.ParseIssueExample | hottopicmanagement/watch/giteeissue/client.go:43-55 | `https://example.com/ownerA/repoB/issues/42` parses to (ownerA, repoB, 42) |
| GiteeIssue.ParseIssueShortURL | hottopicmanagement/watch/giteeissue/client.go:44-54 | `https://example.com/a/b` parses to owner "", repository example.com, number b |
| GoStrings.TrimLeftRemoves | hottopicmanagement/watch/giteeissue/client.go:44 | trimming the front keeps a suffix of the input, removes only white space, and leaves no white space in front |
| GoStrings.TrimRightRemoves | hottopicmanagement/watch/giteeissue/client.go:44 | trimming the back keeps a prefix of the input, removes only white space, and leaves no white space at the end |
| GoStrings.TrimSpaceTrimmed | hottopicmanagement/watch/giteeissue/client.go:44 | `strings.TrimSpace` leaves no white space at either end |
| GoStrings.TrimSpaceOfTrimmed | hottopicmanagement/watch/giteeissue/client.go:44 | `strings.TrimSpace` leaves a string with no white space at its ends unchanged |
| GoStrings.JoinSplit | hottopicmanagement/watch/giteeissue/client.go:44 | joining the pieces of `strings.Split` with the separator gives back the input |
| GoStrings.SplitLength | hottopicmanagement/watch/giteeissue/client.go:44-45 | `strings.Split` gives one more piece than there are separators |
| GoStrings.SplitLastSuffix | hottopicmanagement/watch/giteeissue/client.go:44-54 | the last piece of a split, which parseIssue takes as the number, is the text after the last separator: a suffix of the input without the separator, which is either the whole input or preceded by a separator |
| GoStrings.AtoiItoa | hottopicmanagement/watch/giteeissue/client.go:81 | the decimal page number written by `strconv.Itoa` reads back to the same number |

## Left out

- HTTP requests, the `Authorization` header, `context`, `defer resp.Body.Close()` and JSON decoding are not modelled. Each listing reply is a `Response`: a request error, or a status plus a decoded comment list, or `None` when decoding failed. Each POST reply is a `PostReply`.
- `json.Marshal` of the POST body is not modelled: it cannot fail for a struct holding one string. The posted body is kept as the comment text.
- GiteeIssue.CountCommentedSolutions: the source loop has no bound. The model takes the replies as a finite sequence and requires that some page ends the loop. A server that never sends an empty page is outside the model.
- The error texts built from `resp.Status` are not modelled. Errors are a datatype (`ClientError`, `Status`), and `allerror.IsError(err, ErrorCodeInvokeTimeRestricted)` is the test `err == RateLimited`.
- `time.Sleep(10 * time.Second)` is a `Slept` entry in the call log, with no duration.
- `utils.GetLastFriday().Unix()` is the `date` parameter of `Handle`. Dates are unbounded integers rather than `int64`; they are only compared, so nothing can overflow.
- The repository, the apply service and `needStop` are not modelled as implementations. A `Script` gives their answers by log position.
- `logrus` and `print` calls are logging only and are not modelled.
- `SholdIgnore` is not modelled: it always returns (false, nil).
- `NewClient`, `newHandler`, `newdoneCache` and `Config` are wiring only. `Handler.constructor` and `DoneCache.constructor` give the empty cache.
- Go strings are byte sequences. The model uses sequences of characters and the Unicode white-space set of `strings.TrimSpace`.
