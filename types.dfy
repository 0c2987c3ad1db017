/** Values shared by every part of the crawl orchestrator: the scraped result,
    a queued crawl request, and the customer tier that decides its cost. */
module Types {

  datatype Option<+T> = None | Some(value: T)

  /** The scraped result of one page: the links found while crawling it. */
  datatype ScrapedData = ScrapedData(links: seq<string>)

  /** A crawl request as it sits in a queue: the page and the number of
      workers it occupies while it is processed. */
  datatype Request = Request(url: string, worker: int)

  datatype Tier = Paid | Free

  const PaidCost: int := 5
  const FreeCost: int := 2

  /** The tier named by the `customerType` query parameter: only the exact
      literal "Paid" selects the paid tier, every other value (the empty
      string included) is the free tier. */
  function NormalizeTier(customerType: string): (t: Tier)
    ensures t == Paid <==> customerType == "Paid"
    ensures t == Free <==> customerType != "Paid"
  {
    if customerType == "Paid" then Paid else Free
  }

  /** Workers reserved by one request of the given tier. */
  function Cost(t: Tier): (c: int)
    ensures c > 0
    ensures t == Paid ==> c == PaidCost
    ensures t == Free ==> c == FreeCost
  {
    match t
    case Paid => PaidCost
    case Free => FreeCost
  }
}
