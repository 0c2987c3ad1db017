/** The per-call request queue: a FIFO over a sequence of requests that its
    methods update in place, and the routing of a crawl call's request into
    one of the two queues (Paid or Free) the call builds. */
module RequestQueue {
  import opened Types

  class Queue {
    var requests: seq<Request>

    /** A queue literal `queue{}`: no requests. */
    constructor ()
      ensures requests == []
    {
      requests := [];
    }

    /** Appends at the tail. */
    method Enqueue(r: Request)
      modifies this
      ensures requests == old(requests) + [r]
    {
      requests := requests + [r];
    }

    /** Removes and returns the head. Indexing an empty slice panics in the
        source, so callers must have seen the queue open. */
    method Dequeue() returns (r: Request)
      requires requests != []
      modifies this
      ensures r == old(requests)[0]
      ensures requests == old(requests)[1..]
      ensures [r] + requests == old(requests)
    {
      r := requests[0];
      requests := requests[1..];
    }

    /** A queue is open exactly while it holds a request. */
    method IsOpen() returns (open: bool)
      ensures open <==> |requests| > 0
    {
      open := |requests| > 0;
    }

    /** Drops whatever is left. */
    method Close()
      modifies this
      ensures requests == []
    {
      requests := [];
    }
  }

  /** The two fresh queues of one crawl call and the single request it puts
      in them: a paid request, costing PaidCost workers, goes only into the
      paid queue; any other request, costing FreeCost, only into the free one. */
  method Route(url: string, customerType: string) returns (paidq: Queue, freeq: Queue)
    ensures fresh(paidq) && fresh(freeq) && paidq != freeq
    ensures customerType == "Paid" ==>
      paidq.requests == [Request(url, PaidCost)] && freeq.requests == []
    ensures customerType != "Paid" ==>
      paidq.requests == [] && freeq.requests == [Request(url, FreeCost)]
  {
    var tier := NormalizeTier(customerType);
    paidq := new Queue();
    freeq := new Queue();
    if tier == Paid {
      paidq.Enqueue(Request(url, Cost(tier)));
    } else {
      freeq.Enqueue(Request(url, Cost(tier)));
    }
  }

  /** Enqueueing a batch into an empty queue and dequeueing until it is no
      longer open hands the requests back in insertion order. */
  method FifoOrder(batch: seq<Request>) returns (served: seq<Request>)
    ensures served == batch
  {
    var q := new Queue();
    for i := 0 to |batch|
      invariant q.requests == batch[..i]
    {
      q.Enqueue(batch[i]);
    }
    served := [];
    var open := q.IsOpen();
    while open
      invariant served + q.requests == batch
      invariant open <==> |q.requests| > 0
      decreases |q.requests|
    {
      var r := q.Dequeue();
      served := served + [r];
      open := q.IsOpen();
    }
    q.Close();
  }
}
