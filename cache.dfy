/** Cache-aside resolution of a page. The TTL store is a map from page to
    scraped data; `getFails` stands for any failed read (a missing key, an
    unreachable store, undecodable JSON) and `setFails` for a failed write.
    `fetch` is the live crawl. Expiry of entries is the store's business and
    is not modelled. */
module CacheAside {
  import opened Types

  datatype Resolution = Resolution(
    data: ScrapedData,                    // what is written back to the caller
    store: map<string, ScrapedData>,      // the store afterwards
    fetched: bool)                        // whether the live crawl ran

  /** The read succeeds only when the key is present and nothing failed. */
  predicate Hit(store: map<string, ScrapedData>, url: string, getFails: bool) {
    !getFails && url in store
  }

  /** On a hit the stored value is returned and nothing is fetched or
      written. On any read error the page is fetched, the write is attempted,
      and the fetched data is returned whether the write succeeded or not. */
  function Resolve(store: map<string, ScrapedData>, url: string, getFails: bool, setFails: bool,
                   fetch: string -> ScrapedData): (r: Resolution)
    ensures r.fetched <==> !Hit(store, url, getFails)
    ensures Hit(store, url, getFails) ==> r.data == store[url] && r.store == store
    ensures !Hit(store, url, getFails) ==> r.data == fetch(url)
    ensures !Hit(store, url, getFails) && setFails ==> r.store == store
    ensures !Hit(store, url, getFails) && !setFails ==> url in r.store && r.store[url] == r.data
    ensures forall k :: k != url ==> (k in r.store <==> k in store)
    ensures forall k :: k != url && k in store ==> r.store[k] == store[k]
  {
    if Hit(store, url, getFails) then
      Resolution(store[url], store, false)
    else
      var data := fetch(url);
      Resolution(data, if setFails then store else store[url := data], true)
  }

  /** The cache-aside round trip: after a resolution whose write succeeded,
      a second resolution whose read succeeds returns the same data without
      fetching, whatever `fetch` would now return. */
  lemma SecondResolveHits(store: map<string, ScrapedData>, url: string, getFails: bool,
                          fetch: string -> ScrapedData, fetch': string -> ScrapedData)
    ensures var first := Resolve(store, url, getFails, false, fetch);
      var second := Resolve(first.store, url, false, false, fetch');
      !second.fetched && second.data == first.data && second.store == first.store
  {
  }

  /** A cold store is populated by the first resolution, which fetches once. */
  lemma ColdStoreFetchesOnce(url: string, getFails: bool, fetch: string -> ScrapedData)
    ensures var first := Resolve(map[], url, getFails, false, fetch);
      first.fetched && first.data == fetch(url) && first.store == map[url := fetch(url)]
  {
  }
}
