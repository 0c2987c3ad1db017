/** The link callback of the page crawl. `visitedURLs` is process-wide: a
    link discovered while crawling any page is reported once, the first time
    it is seen, and appended to that crawl's `Links`. The traversal itself
    (the HTML fetches, resolving relative links, the depth limit) is the
    crawling library's; here it is the sequence of links it discovers, in
    the order its callback sees them. */
module Links {
  import opened Types

  /** The links a fold over `discovered` appends, starting from `seen`: each
      one not seen before, in discovery order. */
  function NewLinks(seen: set<string>, discovered: seq<string>): (r: seq<string>)
    ensures |r| <= |discovered|
    ensures forall l :: l in r ==> l in discovered && l !in seen
    decreases |discovered|
  {
    if discovered == [] then []
    else if discovered[0] in seen then NewLinks(seen, discovered[1..])
    else [discovered[0]] + NewLinks(seen + {discovered[0]}, discovered[1..])
  }

  /** Every link discovered, marked visited. */
  function Marked(seen: set<string>, discovered: seq<string>): (r: set<string>)
    ensures seen <= r
    ensures forall l :: l in discovered ==> l in r
    ensures forall l :: l in r ==> l in seen || l in discovered
  {
    seen + set l | l in discovered
  }

  predicate NoDuplicates(s: seq<string>) {
    forall i, j :: 0 <= i < j < |s| ==> s[i] != s[j]
  }

  /** A link is reported exactly when it was discovered and not seen before. */
  lemma {:induction false} NewLinksMembers(seen: set<string>, discovered: seq<string>, l: string)
    ensures l in NewLinks(seen, discovered) <==> l in discovered && l !in seen
    decreases |discovered|
  {
    if discovered != [] {
      var d := discovered[0];
      assert discovered == [d] + discovered[1..];
      if d in seen {
        NewLinksMembers(seen, discovered[1..], l);
      } else {
        NewLinksMembers(seen + {d}, discovered[1..], l);
      }
    }
  }

  /** No link is reported twice. */
  lemma {:induction false} NewLinksDistinct(seen: set<string>, discovered: seq<string>)
    ensures NoDuplicates(NewLinks(seen, discovered))
    decreases |discovered|
  {
    if discovered != [] {
      var d := discovered[0];
      if d in seen {
        NewLinksDistinct(seen, discovered[1..]);
      } else {
        var rest := NewLinks(seen + {d}, discovered[1..]);
        NewLinksDistinct(seen + {d}, discovered[1..]);
        NewLinksMembers(seen + {d}, discovered[1..], d);
        assert d !in rest;
        var r := [d] + rest;
        forall i, j | 0 <= i < j < |r| ensures r[i] != r[j] {
          if i == 0 {
            assert r[j] == rest[j - 1];
          }
        }
      }
    }
  }

  /** The fold over a batch continues where the fold over its prefix stopped. */
  lemma {:induction false} NewLinksAppend(seen: set<string>, discovered: seq<string>, l: string)
    ensures NewLinks(seen, discovered + [l])
         == NewLinks(seen, discovered)
            + (if l in Marked(seen, discovered) then [] else [l])
    decreases |discovered|
  {
    if discovered == [] {
      assert [] + [l] == [l];
    } else {
      var d := discovered[0];
      assert (discovered + [l])[0] == d;
      assert (discovered + [l])[1..] == discovered[1..] + [l];
      var seen' := if d in seen then seen else seen + {d};
      NewLinksAppend(seen', discovered[1..], l);
      assert Marked(seen', discovered[1..]) == Marked(seen, discovered) by {
        assert discovered == [d] + discovered[1..];
      }
    }
  }

  /** Every reported link ends up visited. */
  lemma LinksAreVisited(seen: set<string>, discovered: seq<string>)
    ensures forall l :: l in NewLinks(seen, discovered) ==> l in Marked(seen, discovered)
  {
    forall l | l in NewLinks(seen, discovered) ensures l in Marked(seen, discovered) {
      NewLinksMembers(seen, discovered, l);
    }
  }

  /** A link reported by one crawl is never reported by any later crawl,
      whatever that crawl discovers: the visited set outlives the crawl. */
  lemma ReportedOnce(seen: set<string>, first: seq<string>, later: seq<string>, l: string)
    requires l in NewLinks(seen, first)
    ensures l !in NewLinks(Marked(seen, first), later)
  {
    NewLinksMembers(seen, first, l);
    NewLinksMembers(Marked(seen, first), later, l);
  }

  /** Crawling the same links again reports nothing: they are all visited. */
  lemma {:induction false} RevisitReportsNothing(seen: set<string>, discovered: seq<string>)
    ensures NewLinks(Marked(seen, discovered), discovered) == []
  {
    var m := Marked(seen, discovered);
    if NewLinks(m, discovered) != [] {
      var l := NewLinks(m, discovered)[0];
      NewLinksMembers(m, discovered, l);
      assert false;
    }
  }

  /** The process-wide visited set. */
  class LinkTracker {
    var visitedURLs: set<string>

    constructor ()
      ensures visitedURLs == {}
    {
      visitedURLs := {};
    }

    /** One crawl's `Links`: the callback, run on each discovered link in
        turn, appends the links not yet visited and marks them visited. */
    method CollectLinks(discovered: seq<string>) returns (data: ScrapedData)
      modifies this
      ensures data.links == NewLinks(old(visitedURLs), discovered)
      ensures visitedURLs == Marked(old(visitedURLs), discovered)
    {
      data := ScrapedData([]);
      for i := 0 to |discovered|
        invariant data.links == NewLinks(old(visitedURLs), discovered[..i])
        invariant visitedURLs == Marked(old(visitedURLs), discovered[..i])
      {
        var link := discovered[i];
        NewLinksAppend(old(visitedURLs), discovered[..i], link);
        assert discovered[..i + 1] == discovered[..i] + [link];
        if link !in visitedURLs {
          data := data.(links := data.links + [link]);
          visitedURLs := visitedURLs + {link};
        }
      }
      assert discovered[..|discovered|] == discovered;
    }
  }
}
