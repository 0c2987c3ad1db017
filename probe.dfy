/** The existence probe that gates every crawl: one HEAD request per attempt,
    retried a bounded number of times with a fixed pause after each failed
    attempt. The network is abstracted: `probe(i)` is what the i-th HEAD
    request to the page produced. */
module Probe {
  import opened Types

  /** What one HEAD request produced: a response with its status code, or a
      transport error with its message. */
  datatype ProbeOutcome = Response(status: int) | TransportError(message: string)

  /** The `(exists, err)` pair one attempt reports. */
  datatype ProbeResult = ProbeResult(found: bool, err: Option<string>)

  /** Redirects count as success: any status in [200, 400). */
  predicate IsSuccessStatus(status: int) {
    200 <= status < 400
  }

  predicate Succeeds(o: ProbeOutcome) {
    o.Response? && IsSuccessStatus(o.status)
  }

  /** One attempt: a transport error is passed up; otherwise the page exists
      exactly when the status is a success. */
  function CheckURLExistence(o: ProbeOutcome): (r: ProbeResult)
    ensures r.found <==> Succeeds(o)
    ensures r.found ==> r.err == None
    ensures r.err != None <==> o.TransportError?
    ensures o.TransportError? ==> r.err == Some(o.message)
  {
    match o
    case TransportError(msg) => ProbeResult(false, Some(msg))
    case Response(status) => ProbeResult(IsSuccessStatus(status), None)
  }

  /** The seconds one pause lasts: `time.Sleep` returns at once for a
      duration that is not positive. */
  function Pause(retryInterval: int): (d: int)
    ensures d >= 0
    ensures retryInterval > 0 ==> d == retryInterval
    ensures retryInterval <= 0 ==> d == 0
  {
    if retryInterval > 0 then retryInterval else 0
  }

  /** Some attempt among the first `n` succeeds. */
  ghost predicate SucceedsWithin(probe: nat -> ProbeOutcome, n: int) {
    exists k: nat :: k < n && Succeeds(probe(k))
  }

  /** The retry loop. Attempts run until one succeeds or `maxRetries` have
      been made; every unsuccessful attempt, the last one included, is
      followed by a pause of `retryInterval` seconds (none when it is not
      positive). The result is that of
      the succeeding attempt, or else of the last one, or `(false, nil)` when
      no attempt was made. `attempts` counts HEAD requests, `slept` the
      seconds paused. */
  method CheckURLExistenceWithRetries(probe: nat -> ProbeOutcome, maxRetries: int, retryInterval: int)
    returns (found: bool, err: Option<string>, attempts: nat, slept: int)
    ensures found <==> SucceedsWithin(probe, maxRetries)
    ensures found ==>
      && 1 <= attempts <= maxRetries && Succeeds(probe(attempts - 1))
      && (forall k: nat :: k < attempts - 1 ==> !Succeeds(probe(k)))
      && err == None
      && slept == (attempts - 1) * Pause(retryInterval)
    ensures !found && maxRetries <= 0 ==> err == None && attempts == 0 && slept == 0
    ensures !found && maxRetries > 0 ==>
      && attempts == maxRetries
      && err == CheckURLExistence(probe(maxRetries - 1)).err
      && slept == maxRetries * Pause(retryInterval)
  {
    found, err, attempts, slept := false, None, 0, 0;
    var i: nat := 0;
    while i < maxRetries
      invariant attempts == i && slept == i * Pause(retryInterval)
      invariant !found
      invariant forall k: nat :: k < i ==> !Succeeds(probe(k))
      invariant i == 0 ==> err == None
      invariant i > 0 ==> i <= maxRetries && err == CheckURLExistence(probe(i - 1)).err
    {
      var r := CheckURLExistence(probe(i));
      found, err := r.found, r.err;
      attempts := attempts + 1;
      if err == None && found {
        break;
      }
      if retryInterval > 0 {
        slept := slept + retryInterval;
      }
      i := i + 1;
    }
  }

  /** The call the crawl handler makes: three attempts five seconds apart.
      A page that never answers with a success has been waited on for
      fifteen seconds before it is reported missing. */
  method ProbeForCrawl(probe: nat -> ProbeOutcome) returns (found: bool, err: Option<string>, slept: int)
    ensures found <==> Succeeds(probe(0)) || Succeeds(probe(1)) || Succeeds(probe(2))
    ensures !found ==> slept == 15 && err == CheckURLExistence(probe(2)).err
    ensures found ==> err == None && slept <= 10
  {
    var attempts;
    found, err, attempts, slept := CheckURLExistenceWithRetries(probe, 3, 5);
  }
}
