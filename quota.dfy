/** The process-wide rate and quota state: a worker limit with the workers
    currently reserved, and an hourly page budget with the pages crawled in
    the current window. `Quota` is its value and the functions below are the
    steps of admission and release; `State` is the shared object whose
    methods perform those steps in place. Time is an integer clock in
    nanoseconds, the unit of the source's durations. */
module RateLimit {

  const Hour: int := 3_600_000_000_000

  const DefaultWorkers: int := 10
  const DefaultMaxPageCrawl: int := 100

  datatype Quota = Quota(
    workers: int,        // most workers that may be reserved at once
    currWorkers: int,    // workers reserved by requests being processed
    maxPageCrawl: int,   // most requests admitted per window
    currPageCrawl: int,  // requests admitted in the current window
    windowStart: int)    // clock reading at which the window opened

  datatype Admission = Admitted | QuotaExceeded | WorkerLimitReached

  datatype AdmitResult = AdmitResult(quota: Quota, decision: Admission)

  /** The state at process start: 10 workers, 100 pages an hour, nothing
      reserved, the window opening now. */
  function Initial(now: int): (q: Quota)
    ensures q.currWorkers == 0 && q.currPageCrawl == 0 && q.windowStart == now
    ensures q.workers == DefaultWorkers && q.maxPageCrawl == DefaultMaxPageCrawl
  {
    Quota(DefaultWorkers, 0, DefaultMaxPageCrawl, 0, now)
  }

  /** Lazy window reset: once more than an hour has elapsed since the window
      opened, the page count starts again from zero in a window opening now. */
  function ResetWindow(q: Quota, now: int): (r: Quota)
    ensures r.workers == q.workers && r.currWorkers == q.currWorkers
    ensures r.maxPageCrawl == q.maxPageCrawl
    ensures now - q.windowStart > Hour ==> r.currPageCrawl == 0 && r.windowStart == now
    ensures now - q.windowStart <= Hour ==> r == q
  {
    if now - q.windowStart > Hour then q.(currPageCrawl := 0, windowStart := now) else q
  }

  /** The decision after the reset: the page budget is checked first, then
      the worker limit. */
  function Decide(q: Quota, cost: int): (d: Admission)
    ensures d == QuotaExceeded <==> q.currPageCrawl >= q.maxPageCrawl
    ensures d == WorkerLimitReached <==>
      q.currPageCrawl < q.maxPageCrawl && q.currWorkers + cost > q.workers
    ensures d == Admitted <==>
      q.currPageCrawl < q.maxPageCrawl && q.currWorkers + cost <= q.workers
  {
    if q.currPageCrawl >= q.maxPageCrawl then QuotaExceeded
    else if q.currWorkers + cost > q.workers then WorkerLimitReached
    else Admitted
  }

  /** Admission of a request costing `cost` workers at time `now`: reset,
      check, and on success reserve the workers and count the page. A
      rejection keeps the reset and changes nothing else. */
  function AdmitStep(q: Quota, cost: int, now: int): (r: AdmitResult)
    ensures r.quota.workers == q.workers && r.quota.maxPageCrawl == q.maxPageCrawl
    ensures r.quota.windowStart == ResetWindow(q, now).windowStart
    ensures r.decision == Decide(ResetWindow(q, now), cost)
    ensures r.decision != Admitted ==> r.quota == ResetWindow(q, now)
    ensures r.decision == Admitted ==>
      && r.quota.currWorkers == q.currWorkers + cost
      && r.quota.currPageCrawl == ResetWindow(q, now).currPageCrawl + 1
      && r.quota.currWorkers <= r.quota.workers
      && r.quota.currPageCrawl <= r.quota.maxPageCrawl
  {
    var reset := ResetWindow(q, now);
    var d := Decide(reset, cost);
    if d == Admitted then
      AdmitResult(reset.(currWorkers := reset.currWorkers + cost,
                         currPageCrawl := reset.currPageCrawl + 1), d)
    else
      AdmitResult(reset, d)
  }

  /** Release gives back exactly the reserved workers and nothing else. */
  function ReleaseStep(q: Quota, cost: int): (r: Quota)
    ensures r.currWorkers + cost == q.currWorkers
    ensures r.(currWorkers := q.currWorkers) == q
  {
    q.(currWorkers := q.currWorkers - cost)
  }

  /** The administrative setters overwrite a limit and leave the counters. */
  function WithWorkers(q: Quota, n: int): (r: Quota)
    ensures r.workers == n && r.(workers := q.workers) == q
  {
    q.(workers := n)
  }

  function WithMaxPageCrawl(q: Quota, n: int): (r: Quota)
    ensures r.maxPageCrawl == n && r.(maxPageCrawl := q.maxPageCrawl) == q
  {
    q.(maxPageCrawl := n)
  }

  /** The occupancy bound the admission check maintains. */
  predicate WithinLimits(q: Quota) {
    0 <= q.currWorkers <= q.workers && 0 <= q.currPageCrawl <= q.maxPageCrawl
  }

  // ----- properties of the steps -----

  /** The reset happens on every admission attempt, whatever the decision:
      a request arriving after the hour is rejected against a fresh window. */
  lemma ResetEvenWhenRejected(q: Quota, cost: int, now: int)
    requires now - q.windowStart > Hour
    ensures AdmitStep(q, cost, now).quota.windowStart == now
    ensures AdmitStep(q, cost, now).decision != Admitted ==> AdmitStep(q, cost, now).quota.currPageCrawl == 0
    ensures AdmitStep(q, cost, now).decision == Admitted <==> 0 < q.maxPageCrawl && q.currWorkers + cost <= q.workers
  {
  }

  /** Within the hour the page count is never reset; the window only moves
      on the first attempt after the hour, and a second attempt at the same
      time does not move it again. */
  lemma ResetOncePerWindow(q: Quota, now: int, later: int)
    requires now <= later && later - ResetWindow(q, now).windowStart <= Hour
    ensures ResetWindow(ResetWindow(q, now), later) == ResetWindow(q, now)
  {
  }

  /** The page budget is checked before the worker limit: an exhausted
      budget is reported as such even when the workers would not fit either. */
  lemma QuotaCheckedFirst(q: Quota, cost: int, now: int)
    requires ResetWindow(q, now).currPageCrawl >= q.maxPageCrawl
    ensures AdmitStep(q, cost, now).decision == QuotaExceeded
    ensures AdmitStep(q, cost, now).quota.currWorkers == q.currWorkers
  {
  }

  /** Admission keeps the occupancy bound (for a positive cost), whatever
      its decision. */
  lemma AdmitKeepsLimits(q: Quota, cost: int, now: int)
    requires WithinLimits(q) && cost > 0
    ensures WithinLimits(AdmitStep(q, cost, now).quota)
  {
  }

  /** Releasing workers that are reserved keeps the occupancy bound. */
  lemma ReleaseKeepsLimits(q: Quota, cost: int)
    requires WithinLimits(q) && 0 <= cost <= q.currWorkers
    ensures WithinLimits(ReleaseStep(q, cost))
  {
  }

  /** Admitting a request and releasing it restores the reserved workers and
      leaves one more page counted in the (possibly reset) window. */
  lemma AdmitThenRelease(q: Quota, cost: int, now: int)
    requires AdmitStep(q, cost, now).decision == Admitted
    ensures ReleaseStep(AdmitStep(q, cost, now).quota, cost).currWorkers == q.currWorkers
    ensures ReleaseStep(AdmitStep(q, cost, now).quota, cost).currPageCrawl
         == ResetWindow(q, now).currPageCrawl + 1
  {
  }

  /** Lowering the worker limit below the workers currently reserved leaves
      more workers reserved than allowed: only admission and release keep the
      bound, the setter does not. */
  lemma LoweringWorkersCanBreakBound(q: Quota, n: int)
    requires WithinLimits(q) && n < q.currWorkers
    ensures !WithinLimits(WithWorkers(q, n))
    ensures WithWorkers(q, n).currWorkers > WithWorkers(q, n).workers
  {
  }

  /** The same holds for lowering the page budget below the count. */
  lemma LoweringPagesCanBreakBound(q: Quota, n: int)
    requires WithinLimits(q) && n < q.currPageCrawl
    ensures !WithinLimits(WithMaxPageCrawl(q, n))
    ensures WithMaxPageCrawl(q, n).currPageCrawl > WithMaxPageCrawl(q, n).maxPageCrawl
  {
  }

  /** The shared state object. Its fields are those of `Quota`; every method
      is one step of the functions above on `Snapshot()`. */
  class State {
    var workers: int
    var currWorkers: int
    var maxPageCrawl: int
    var currPageCrawl: int
    var windowStart: int

    function Snapshot(): Quota
      reads this
    {
      Quota(workers, currWorkers, maxPageCrawl, currPageCrawl, windowStart)
    }

    constructor (now: int)
      ensures Snapshot() == Initial(now)
    {
      workers, currWorkers := DefaultWorkers, 0;
      maxPageCrawl, currPageCrawl := DefaultMaxPageCrawl, 0;
      windowStart := now;
    }

    /** The admission block of request processing. */
    method Admit(cost: int, now: int) returns (d: Admission)
      modifies this
      ensures Snapshot() == AdmitStep(old(Snapshot()), cost, now).quota
      ensures d == AdmitStep(old(Snapshot()), cost, now).decision
    {
      if now - windowStart > Hour {
        currPageCrawl := 0;
        windowStart := now;
      }
      if currPageCrawl >= maxPageCrawl {
        return QuotaExceeded;
      }
      if currWorkers + cost > workers {
        return WorkerLimitReached;
      } else {
        currWorkers := currWorkers + cost;
      }
      currPageCrawl := currPageCrawl + 1;
      d := Admitted;
    }

    method Release(cost: int)
      modifies this
      ensures Snapshot() == ReleaseStep(old(Snapshot()), cost)
    {
      currWorkers := currWorkers - cost;
    }

    /** The `workers` admin endpoint, after its number has been parsed. */
    method SetWorkers(n: int)
      modifies this
      ensures Snapshot() == WithWorkers(old(Snapshot()), n)
    {
      workers := n;
    }

    /** The `pages` admin endpoint, after its number has been parsed. */
    method SetMaxPageCrawl(n: int)
      modifies this
      ensures Snapshot() == WithMaxPageCrawl(old(Snapshot()), n)
    {
      maxPageCrawl := n;
    }
  }
}
