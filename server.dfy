/** Request processing and the crawl endpoint, tying the pieces together.
    `World` is the value of everything that outlives one crawl call: the
    quota state, the TTL store and the visited set. `Process` is the
    processing of one dequeued request as a function of the world, `Run`
    its fold over a sequence of requests, and the methods below perform the
    same steps on the shared objects. */
module Server {
  import opened Types
  import opened RateLimit
  import opened CacheAside
  import opened Links
  import opened Probe
  import opened RequestQueue

  datatype World = World(
    quota: Quota,
    store: map<string, ScrapedData>,
    visited: set<string>)

  /** What the environment does that the model cannot see: whether the
      store's read and write fail, and which links the crawling library
      discovers from each page. */
  datatype Env = Env(getFails: bool, setFails: bool, discover: string -> seq<string>)

  /** What processing a request writes back: a 429 with the admission
      decision, or the scraped data and whether it came from the store. */
  datatype Response = Rejected(reason: Admission) | Served(data: ScrapedData, fromCache: bool)

  datatype Step = Step(world: World, response: Response)

  datatype Trace = Trace(world: World, responses: seq<Response>)

  /** The live crawl of a page against a visited set. */
  function Crawler(visited: set<string>, discover: string -> seq<string>): (crawl: string -> ScrapedData)
    ensures forall u, l :: l in crawl(u).links ==> l in discover(u) && l !in visited
    ensures forall u :: |crawl(u).links| <= |discover(u)|
  {
    var crawl := (u: string) => ScrapedData(NewLinks(visited, discover(u)));
    assert forall u :: crawl(u).links == NewLinks(visited, discover(u));
    crawl
  }

  /** One request: admission, then (when admitted) cache-aside resolution
      and the release of the reserved workers. */
  function Process(w: World, r: Request, now: int, env: Env): (s: Step)
    ensures s.world.quota.currWorkers == w.quota.currWorkers
    ensures s.response.Served? <==> AdmitStep(w.quota, r.worker, now).decision == Admitted
    ensures s.response.Rejected? ==>
      && s.response.reason == AdmitStep(w.quota, r.worker, now).decision
      && s.world == w.(quota := ResetWindow(w.quota, now))
    ensures s.response.Served? ==>
      && s.world.quota == ResetWindow(w.quota, now).(currPageCrawl := ResetWindow(w.quota, now).currPageCrawl + 1)
      && s.response.data == Resolve(w.store, r.url, env.getFails, env.setFails, Crawler(w.visited, env.discover)).data
      && s.response.fromCache == Hit(w.store, r.url, env.getFails)
      && s.world.store == Resolve(w.store, r.url, env.getFails, env.setFails, Crawler(w.visited, env.discover)).store
      && s.world.visited == (if Hit(w.store, r.url, env.getFails) then w.visited
                             else Marked(w.visited, env.discover(r.url)))
  {
    var a := AdmitStep(w.quota, r.worker, now);
    if a.decision != Admitted then
      Step(w.(quota := a.quota), Rejected(a.decision))
    else
      var res := Resolve(w.store, r.url, env.getFails, env.setFails, Crawler(w.visited, env.discover));
      var visited := if res.fetched then Marked(w.visited, env.discover(r.url)) else w.visited;
      Step(World(ReleaseStep(a.quota, r.worker), res.store, visited), Served(res.data, !res.fetched))
  }

  /** Requests processed one after another, the i-th at clock reading
      `clock(i)`. All workers reserved along the way are given back, and the
      limits never move. */
  function Run(w: World, rs: seq<Request>, clock: nat -> int, env: Env): (t: Trace)
    ensures |t.responses| == |rs|
    ensures t.world.quota.currWorkers == w.quota.currWorkers
    ensures t.world.quota.workers == w.quota.workers
    ensures t.world.quota.maxPageCrawl == w.quota.maxPageCrawl
    decreases |rs|
  {
    if rs == [] then Trace(w, [])
    else
      var t := Run(w, rs[..|rs| - 1], clock, env);
      var s := Process(t.world, rs[|rs| - 1], clock(|rs| - 1), env);
      Trace(s.world, t.responses + [s.response])
  }

  /** The clock of a single drain: every request at the same reading. */
  function Constant(now: int): (clock: nat -> int)
    ensures forall i: nat :: clock(i) == now
  {
    (i: nat) => now
  }

  lemma RunAppend(w: World, rs: seq<Request>, r: Request, clock: nat -> int, env: Env)
    ensures var t := Run(w, rs, clock, env);
      var s := Process(t.world, r, clock(|rs|), env);
      Run(w, rs + [r], clock, env) == Trace(s.world, t.responses + [s.response])
  {
    assert (rs + [r])[..|rs|] == rs;
  }

  /** What `n` requests starting from quota `q0` leave behind when each
      was admitted exactly while the page budget lasted: the i-th is served
      exactly when `q0`'s count plus i is below the budget, every refusal
      is quota-exceeded, the page count has grown by the number served, and
      nothing else in the quota has moved. */
  ghost predicate SpentInOrder(q0: Quota, n: nat, t: Trace) {
    var p, m := q0.currPageCrawl, q0.maxPageCrawl;
    && |t.responses| == n
    && t.world.quota.(currPageCrawl := p) == q0
    && t.world.quota.currPageCrawl == (if p >= m then p else if p + n <= m then p + n else m)
    && (forall i | 0 <= i < n :: t.responses[i].Served? <==> p + i < m)
    && (forall i | 0 <= i < n :: t.responses[i].Rejected? ==> t.responses[i].reason == QuotaExceeded)
  }

  /** Appending one request that was admitted exactly while the budget
      lasted keeps `SpentInOrder`. */
  lemma SpentInOrderStep(q0: Quota, n: nat, t: Trace, s: Step)
    requires SpentInOrder(q0, n, t)
    requires var c, m := t.world.quota.currPageCrawl, t.world.quota.maxPageCrawl;
      && s.world.quota == t.world.quota.(currPageCrawl := if c < m then c + 1 else c)
      && (s.response.Served? <==> c < m)
      && (s.response.Rejected? ==> s.response.reason == QuotaExceeded)
    ensures SpentInOrder(q0, n + 1, Trace(s.world, t.responses + [s.response]))
  {
    var rsp := t.responses + [s.response];
    forall i | 0 <= i < n + 1
      ensures (rsp[i].Served? <==> q0.currPageCrawl + i < q0.maxPageCrawl)
      ensures rsp[i].Rejected? ==> rsp[i].reason == QuotaExceeded
    {
      if i < n {
        assert rsp[i] == t.responses[i];
      }
    }
  }

  /** The hourly page budget: with every request arriving within the hour
      after the window opened, at whatever readings, and every request's
      workers fitting the limit, requests are admitted until the budget is
      spent and every later one is rejected as quota exceeded; the workers
      all come back, and only the page count moves. */
  lemma {:induction false} HourlyQuota(w: World, rs: seq<Request>, clock: nat -> int, env: Env)
    requires forall i: nat :: i < |rs| ==> clock(i) - w.quota.windowStart <= Hour
    requires forall r | r in rs :: w.quota.currWorkers + r.worker <= w.quota.workers
    ensures SpentInOrder(w.quota, |rs|, Run(w, rs, clock, env))
    decreases |rs|
  {
    if rs == [] {
    } else {
      var init := rs[..|rs| - 1];
      var last := rs[|rs| - 1];
      assert forall r | r in init :: r in rs;
      HourlyQuota(w, init, clock, env);
      assert rs == init + [last];
      RunAppend(w, init, last, clock, env);
      var t := Run(w, init, clock, env);
      StepWithinWindow(t.world, last, clock(|init|), env);
      SpentInOrderStep(w.quota, |init|, t, Process(t.world, last, clock(|init|), env));
    }
  }

  /** One request inside the window whose workers fit: it is served exactly
      while the budget lasts, and only the page count moves. */
  lemma StepWithinWindow(w: World, r: Request, now: int, env: Env)
    requires now - w.quota.windowStart <= Hour
    requires w.quota.currWorkers + r.worker <= w.quota.workers
    ensures var s := Process(w, r, now, env);
      && s.world.quota == w.quota.(currPageCrawl := if w.quota.currPageCrawl < w.quota.maxPageCrawl
                                                    then w.quota.currPageCrawl + 1
                                                    else w.quota.currPageCrawl)
      && (s.response.Served? <==> w.quota.currPageCrawl < w.quota.maxPageCrawl)
      && (s.response.Rejected? ==> s.response.reason == QuotaExceeded)
  {
  }

  /** With the default limits, of 101 requests arriving within the hour
      after the process started, at any readings, the 100th is served and
      the 101st is the first one refused, whatever the tiers. */
  lemma HundredAndFirstRequestRejected(store: map<string, ScrapedData>, visited: set<string>,
                                       rs: seq<Request>, start: int, clock: nat -> int, env: Env)
    requires |rs| == 101
    requires forall i: nat :: i < |rs| ==> clock(i) <= start + Hour
    requires forall r | r in rs :: r.worker == PaidCost || r.worker == FreeCost
    ensures var t := Run(World(Initial(start), store, visited), rs, clock, env);
      t.responses[99].Served? && t.responses[100] == Rejected(QuotaExceeded)
  {
    var w := World(Initial(start), store, visited);
    HourlyQuota(w, rs, clock, env);
    assert SpentInOrder(w.quota, 101, Run(w, rs, clock, env));
  }

  /** The repeat call: once a request has been served with a successful
      write, serving the same page again with a successful read returns the
      same data from the store, whatever the live crawl would now find. */
  lemma {:induction false} RepeatServedFromCache(w: World, r: Request, now: int, env: Env,
                                                 r': Request, later: int, env': Env)
    requires Process(w, r, now, env).response.Served? && !env.setFails
    requires r'.url == r.url && !env'.getFails
    requires Process(Process(w, r, now, env).world, r', later, env').response.Served?
    ensures Process(Process(w, r, now, env).world, r', later, env').response
         == Served(Process(w, r, now, env).response.data, true)
  {
    var first := Process(w, r, now, env);
    var res := Resolve(w.store, r.url, env.getFails, env.setFails, Crawler(w.visited, env.discover));
    assert r.url in first.world.store && first.world.store[r.url] == first.response.data by {
      assert first.world.store == res.store && first.response.data == res.data;
    }
  }

  /** The processing of one dequeued request on the shared objects. */
  method ProcessRequest(st: State, tracker: LinkTracker, store: map<string, ScrapedData>,
                        r: Request, now: int, env: Env)
    returns (resp: Response, store': map<string, ScrapedData>)
    modifies st, tracker
    ensures Step(World(st.Snapshot(), store', tracker.visitedURLs), resp)
         == Process(World(old(st.Snapshot()), store, old(tracker.visitedURLs)), r, now, env)
  {
    var d := st.Admit(r.worker, now);
    if d != Admitted {
      return Rejected(d), store;
    }
    store' := store;
    if !env.getFails && r.url in store {
      resp := Served(store[r.url], true);
    } else {
      var data := tracker.CollectLinks(env.discover(r.url));
      if !env.setFails {
        store' := store[r.url := data];
      }
      resp := Served(data, false);
    }
    st.Release(r.worker);
  }

  /** A worker draining a queue: while the queue is open, dequeue and
      process; then close it. The concurrent workers of a pool are modelled
      as this one sequential drain. */
  method Serve(q: Queue, st: State, tracker: LinkTracker, store: map<string, ScrapedData>,
               now: int, env: Env)
    returns (responses: seq<Response>, store': map<string, ScrapedData>)
    modifies q, st, tracker
    ensures q.requests == []
    ensures Trace(World(st.Snapshot(), store', tracker.visitedURLs), responses)
         == Run(World(old(st.Snapshot()), store, old(tracker.visitedURLs)), old(q.requests), Constant(now), env)
  {
    ghost var w0 := World(st.Snapshot(), store, tracker.visitedURLs);
    ghost var served: seq<Request> := [];
    ghost var clock := Constant(now);
    responses, store' := [], store;
    var open := q.IsOpen();
    while open
      invariant served + q.requests == old(q.requests)
      invariant open <==> |q.requests| > 0
      invariant Trace(World(st.Snapshot(), store', tracker.visitedURLs), responses)
             == Run(w0, served, clock, env)
      decreases |q.requests|
    {
      var r := q.Dequeue();
      ghost var before := Run(w0, served, clock, env);
      RunAppend(w0, served, r, clock, env);
      assert clock(|served|) == now;
      var resp;
      resp, store' := ProcessRequest(st, tracker, store', r, now, env);
      assert Step(World(st.Snapshot(), store', tracker.visitedURLs), resp) == Process(before.world, r, now, env);
      responses := responses + [resp];
      served := served + [r];
      open := q.IsOpen();
    }
    assert served == old(q.requests);
    q.Close();
  }

  /** What the crawl endpoint writes back. */
  datatype Reply =
    | BadRequest(message: string)     // 400: no URL given
    | ServerError(message: string)    // 500: the last probe attempt failed in transport
    | NotFound(message: string)       // 404: the page never answered with a success
    | Written(responses: seq<Response>)

  /** The crawl endpoint: validate, probe (three attempts, five seconds
      apart), then route the one request of the call into its tier's queue
      and drain both queues. */
  method Crawl(st: State, tracker: LinkTracker, store: map<string, ScrapedData>,
               url: string, customerType: string, probe: nat -> ProbeOutcome, now: int, env: Env)
    returns (reply: Reply, store': map<string, ScrapedData>)
    modifies st, tracker
    ensures url == "" ==>
      reply == BadRequest("URL is required") && store' == store
      && unchanged(st) && unchanged(tracker)
    ensures url != "" && !(Succeeds(probe(0)) || Succeeds(probe(1)) || Succeeds(probe(2))) ==>
      && reply == (if probe(2).TransportError? then ServerError(probe(2).message)
                   else NotFound("Web page not found"))
      && store' == store && unchanged(st) && unchanged(tracker)
    ensures url != "" && (Succeeds(probe(0)) || Succeeds(probe(1)) || Succeeds(probe(2))) ==>
      var s := Process(World(old(st.Snapshot()), store, old(tracker.visitedURLs)),
                       Request(url, Cost(NormalizeTier(customerType))), now, env);
      reply == Written([s.response]) && World(st.Snapshot(), store', tracker.visitedURLs) == s.world
  {
    var tier := NormalizeTier(customerType);
    if url == "" {
      return BadRequest("URL is required"), store;
    }
    var found, err, slept := ProbeForCrawl(probe);
    if err.Some? {
      return ServerError(err.value), store;
    }
    if !found {
      return NotFound("Web page not found"), store;
    }
    ghost var w0 := World(st.Snapshot(), store, tracker.visitedURLs);
    ghost var r := Request(url, Cost(tier));
    var paidq, freeq := Route(url, customerType);
    var paid, free;
    paid, store' := Serve(paidq, st, tracker, store, now, env);
    free, store' := Serve(freeq, st, tracker, store', now, env);
    assert Run(w0, [r], Constant(now), env).responses == [Process(w0, r, now, env).response];
    reply := Written(paid + free);
  }
}
