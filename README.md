# Crawl orchestrator core, modelled in Dafny

The modelled program is a small HTTP service (`main.go`) that crawls a web
page for its links on request. A `/crawl` call names a page and a customer
tier. The service first probes the page with a bounded number of HEAD
requests. It then puts one request into a fresh per-call queue for its
tier (Paid or Free) and drains both queues with worker goroutines. Each
dequeued request passes an admission check against a process-wide state:
a worker limit, and an hourly page budget whose window resets lazily. An
admitted request is resolved cache-aside through a Redis store with a
one-hour TTL, and its workers are released afterwards. The live crawl
appends each discovered link that the process-wide `visitedURLs` map has
not seen yet.

The model keeps that core and states it as one stateful system:

- `types.dfy` (module `Types`): requests, scraped data, tier normalisation and the worker cost per tier.
- `queue.dfy` (module `RequestQueue`): the `queue` type as a class over a `seq<Request>`, and the routing of a call's request into the Paid or Free queue.
- `quota.dfy` (module `RateLimit`): the `state` value `Quota` with the admission, release and setter steps as functions, and the shared `State` object whose methods perform them in place. Time is an integer clock in nanoseconds; `Hour` is one hour on it.
- `probe.dfy` (module `Probe`): one existence check and the retry loop. The network becomes `probe(i)`, the outcome of the i-th HEAD request.
- `cache.dfy` (module `CacheAside`): cache-aside resolution over a key-to-data map that stands for Redis. `getFails` and `setFails` stand for failed reads and writes.
- `links.dfy` (module `Links`): the visited-link fold and the `visitedURLs` set.
- `server.dfy` (module `Server`): processing one request (`Process`), a sequence of them (`Run`), the worker drain (`Serve`) and the crawl endpoint (`Crawl`).

The model follows the code as written. Behaviours worth knowing:

- A page whose last probe attempt fails in transport is answered with 500 and that error (main.go:221-223). A page that answers with a non-success status on every attempt is answered with 404 (main.go:276-277). See `Server.Crawl`.
- There is no shared queue across calls. Each call builds two fresh queues and puts its single request in one of them (main.go:229-245), so the tier decides only the queue and the cost.
- Workers are released only when processing completes (main.go:342-344). Nothing releases them on an abnormal exit.
- `visitedURLs` is process-wide (main.go:22-23). A link reported by one crawl is never reported by any later crawl, of any page (`Links.ReportedOnce`).
- The occupancy bound `currWorkers <= workers` is kept by admission and release only. The admin setters (main.go:153-155, 167-169) can break it (`RateLimit.LoweringWorkersCanBreakBound`).
- A crawl never fails as a whole. Fetch errors are only logged (main.go:432-440), and whatever links were collected are cached, empty lists included.

## Model

| member | source | states |
|---|---|---|
| `Types.NormalizeTier` | main.go:206-210 | the tier is Paid exactly when `customerType` is the literal "Paid"; every other value is Free |
| `Types.Cost` | main.go:235-245 | a Paid request reserves 5 workers, a Free one 2 |
| `RequestQueue.Queue.constructor` | main.go:229-230 | a new queue holds no requests |
| `RequestQueue.Queue.Enqueue` | main.go:53-57 | the request is appended at the tail; the rest is unchanged |
| `RequestQueue.Queue.Dequeue` | main.go:59-66 | on a non-empty queue, returns the head and leaves the remaining requests in order |
| `RequestQueue.Queue.IsOpen` | main.go:68-70 | the queue is open exactly when it is non-empty |
| `RequestQueue.Queue.Close` | main.go:72-76 | the queue is empty afterwards |
| `RequestQueue.Route` | main.go:228-245 | two fresh, distinct queues; a Paid request goes only into the Paid queue with cost 5, any other only into the Free queue with cost 2 |
| `RequestQueue.FifoOrder` | main.go:53-76 | requests enqueued into an empty queue and dequeued while it is open come out in insertion order |
| `RateLimit.Initial` | main.go:40-46 | the process starts with 10 workers, 100 pages per hour, nothing reserved and the window opening at start |
| `RateLimit.ResetWindow` | main.go:292-295 | after more than an hour the page count becomes 0 and the window opens now; otherwise nothing changes; limits and workers never change |
| `RateLimit.Decide` | main.go:296-306 | quota-exceeded exactly when the page count has reached the budget; worker-limit exactly when it has not and the cost does not fit; admitted otherwise |
| `RateLimit.AdmitStep` | main.go:290-312 | the reset applies whatever the decision; a rejection changes nothing beyond the reset; an admission adds exactly `cost` workers and one page, leaving both within their limits |
| `RateLimit.ReleaseStep` | main.go:342-344 | exactly `cost` workers are given back and nothing else changes |
| `RateLimit.WithWorkers` | main.go:153-155 | the worker limit is overwritten and the counters are left alone |
| `RateLimit.WithMaxPageCrawl` | main.go:167-169 | the page budget is overwritten and the counters are left alone |
| `RateLimit.ResetEvenWhenRejected` | main.go:292-301 | after the hour the window moves to now even when the request is then rejected, and admission is decided against a page count of 0 |
| `RateLimit.ResetOncePerWindow` | main.go:292-295 | once reset, later attempts within the hour of the new window do not reset again |
| `RateLimit.QuotaCheckedFirst` | main.go:296-306 | an exhausted page budget is reported as quota-exceeded before the worker limit is looked at, and reserves nothing |
| `RateLimit.AdmitKeepsLimits` | main.go:290-312 | admission preserves `0 <= currWorkers <= workers` and `0 <= currPageCrawl <= maxPageCrawl` |
| `RateLimit.ReleaseKeepsLimits` | main.go:342-344 | releasing reserved workers preserves the same bound |
| `RateLimit.AdmitThenRelease` | main.go:307-344 | admit followed by release restores `currWorkers` and leaves one more page counted |
| `RateLimit.LoweringWorkersCanBreakBound` | main.go:153-155 | from any state within the limits, setting `workers` below the reserved workers leaves `currWorkers > workers` |
| `RateLimit.LoweringPagesCanBreakBound` | main.go:167-169 | from any state within the limits, setting `maxPageCrawl` below the page count leaves `currPageCrawl > maxPageCrawl` |
| `RateLimit.State.constructor` | main.go:40-46 | the shared state starts at `Initial` |
| `RateLimit.State.Admit` | main.go:290-312 | the object performs `AdmitStep` in place and returns its decision |
| `RateLimit.State.Release` | main.go:342-344 | the object performs `ReleaseStep` in place |
| `RateLimit.State.SetWorkers` | main.go:153-155 | the object performs `WithWorkers` in place |
| `RateLimit.State.SetMaxPageCrawl` | main.go:167-169 | the object performs `WithMaxPageCrawl` in place |
| `Probe.CheckURLExistence` | main.go:384-401 | a transport error is reported with its message; otherwise the page exists exactly when the status is in [200, 400), and then there is no error |
| `Probe.Pause` | main.go:376 | a pause lasts the retry interval when it is positive and nothing otherwise |
| `Probe.CheckURLExistenceWithRetries` | main.go:360-382 | found exactly when one of the first `maxRetries` attempts succeeds, stopping at the first; otherwise the last attempt's error, or no error when no attempt ran; a pause follows every unsuccessful attempt, the last included, and a non-positive interval pauses for nothing |
| `Probe.ProbeForCrawl` | main.go:219 | with 3 attempts 5 seconds apart, a page that never succeeds is reported after 15 seconds of pauses with the third attempt's error |
| `CacheAside.Resolve` | main.go:317-338 | a hit returns the stored value without fetching or writing; any read error fetches, returns the fetched data whether the write succeeded or not, and on a successful write stores it; other keys are untouched |
| `CacheAside.SecondResolveHits` | main.go:317-338 | after a successful write, a second resolution that reads successfully returns the same data without fetching |
| `CacheAside.ColdStoreFetchesOnce` | main.go:317-333 | on an empty store the first resolution fetches and stores exactly the fetched data |
| `Links.NewLinks` | main.go:417-429 | the fold appends no more links than were discovered, and only links that were discovered and not visited before |
| `Links.Marked` | main.go:422-428 | afterwards the visited set holds exactly the previously visited links and every discovered link |
| `Links.NewLinksMembers` | main.go:422-428 | a link is appended to `Links` exactly when it was discovered and not visited before |
| `Links.NewLinksDistinct` | main.go:422-428 | `Links` never contains a duplicate |
| `Links.NewLinksAppend` | main.go:417-429 | one more discovered link is appended exactly when it was neither visited before the crawl nor discovered earlier in it |
| `Links.LinksAreVisited` | main.go:422-428 | every element of `Links` is in the visited set afterwards |
| `Links.ReportedOnce` | main.go:22-23 | because the visited set is process-wide, a link reported by one crawl is not reported by any later crawl, whatever it discovers |
| `Links.RevisitReportsNothing` | main.go:22-23 | crawling the same links again appends nothing |
| `Links.LinkTracker.constructor` | main.go:23 | the visited set starts empty |
| `Links.LinkTracker.CollectLinks` | main.go:411-429 | the callback loop appends the not-yet-visited links in discovery order and marks every discovered link visited |
| `Server.Crawler` | main.go:403-445 | the live crawl of a page reports only links it discovers that were not visited before, and no more than it discovers |
| `Server.Process` | main.go:285-345 | a rejected request changes only the window reset; an admitted one counts one page, gives all its workers back, returns and stores what cache-aside resolution gives, reports whether it came from the cache, and marks the crawled links visited only when it did not |
| `Server.Run` | main.go:247-274 | requests processed in order leave one response each, give back every worker they reserved and never move the limits |
| `Server.StepWithinWindow` | main.go:290-312 | a request inside the window whose workers fit is served exactly while the page budget lasts, otherwise refused as quota-exceeded, and only the page count moves |
| `Server.SpentInOrderStep` | main.go:290-312 | one more request served exactly while the budget lasts keeps the budget accounting of the sequence |
| `Server.HourlyQuota` | main.go:290-312 | with every request arriving, at any clock readings, within the hour after the window opened and every cost fitting, requests are admitted until the budget is spent and all later ones are rejected as quota-exceeded; only the page count moves |
| `Server.HundredAndFirstRequestRejected` | main.go:40-46 | with the default limits and requests at any readings within the first hour, the 100th request is served and the 101st is refused as quota-exceeded |
| `Server.RepeatServedFromCache` | main.go:317-338 | once a request was served and its write succeeded, serving the same page again with a successful read returns the same data from the cache |
| `Server.ProcessRequest` | main.go:285-345 | the objects and the store perform `Process` in place |
| `Server.Serve` | main.go:247-274 | draining a queue processes its requests in queue order, as `Run` does, and leaves it empty |
| `Server.Crawl` | main.go:199-283 | no URL gives 400; a page that never succeeds gives 500 with the transport error or 404, changing nothing; otherwise exactly the one request of the tier's cost is processed |

## Left out

- HTTP handling, response writing and JSON marshalling: transport and library code. A response is a value (`Server.Reply`, `Server.Response`).
- The read-only admin getters (main.go:175-196): they only print a field.
- Parsing the admin numbers with `strconv.Atoi`: a library call. Only the resulting assignment is modelled, with any integer allowed, negative ones included.
- Redis itself, its JSON (de)serialisation and TTL expiry: a remote service. The store is a map and the failures are the `getFails` and `setFails` flags. A failed write is modelled as leaving the map unchanged.
- The colly collector, its recursion, depth limit and `AbsoluteURL`: a library. The links it discovers are the abstract `discover(url)` sequence, seen by the callback in that order.
- Goroutines, wait groups and mutexes. Every operation is one atomic sequential step. The unlocked `isOpen` and `visitedURLs` reads are not modelled, and neither are their races. One such race is five paid workers on a one-request queue, where a second worker can dequeue from an empty queue and panic.
- `time.Now` and `time.Sleep`: the clock is an integer reading (`now`, or `clock(i)` for the i-th request of a run), and pauses are counted in `slept`.
- Logging with `fmt.Printf` and `log.Printf`: output only, it changes no state.
- The real HEAD request and its 10-second timeout: the outcome per attempt is the abstract `probe(i)`.
- Server.Serve: the concurrent worker pool of a tier (5 Paid, 2 Free goroutines) is one sequential drain, and the two pools run one after the other. Each call has at most one request, so the outcome is the same.
- Server.Run: every request of a sequence is processed with the same store-failure flags and the same discovered links per page. `Server.Serve` drains one call's queue at a single reading (`Server.Constant`).
