// The serial crawler: depth first over a shared map of pages already fetched.
module SerialCrawler {
  import opened Pages

  // All that has been added is reachable from root.
  ghost predicate Grew(web: Web, root: string, before: set<string>, after: set<string>) {
    before <= after && forall u :: u in after - before ==> Reachable(web, root, u)
  }

  ghost predicate LinksIn(web: Web, u: string, s: set<string>) {
    forall v :: v in Links(web, u) ==> v in s
  }

  // The links of all that has been added are there too, but for one page perhaps.
  ghost predicate ClosedBut(web: Web, before: set<string>, after: set<string>, but: set<string>) {
    forall u :: u in after - before - but ==> LinksIn(web, u, after)
  }

  ghost predicate Within(web: Web, all: set<string>) {
    forall u :: LinksIn(web, u, all)
  }

  lemma LinkWithin(web: Web, all: set<string>, u: string, i: nat)
    requires Within(web, all) && u in web && i < |web[u]|
    ensures web[u][i] in all && web[u][i] in Links(web, u)
  {
    assert LinksIn(web, u, all);
  }

  // The first i links of u.
  ghost predicate SomeIn(web: Web, u: string, i: nat, s: set<string>)
    requires u in web && i <= |web[u]|
  {
    forall k :: 0 <= k < i ==> web[u][k] in s
  }

  lemma LinkIn(web: Web, u: string, i: nat, before: set<string>, after: set<string>)
    requires u in web && i < |web[u]| && SomeIn(web, u, i, before) && before <= after && web[u][i] in after
    ensures SomeIn(web, u, i + 1, after)
  {
  }

  // A crawl of one of url's links, after others.
  lemma OneMore(web: Web, url: string, link: string, start: set<string>, before: set<string>, after: set<string>)
    requires Grew(web, url, start, before) && ClosedBut(web, start, before, {url})
    requires link in Links(web, url) && Grew(web, link, before, after) && ClosedBut(web, before, after, {})
    ensures Grew(web, url, start, after) && ClosedBut(web, start, after, {url})
  {
    forall u | u in after - start ensures Reachable(web, url, u) {
      if u !in before { Onwards(web, url, link, u); }
    }
    forall u | u in after - start - {url} ensures LinksIn(web, u, after) {
      assert u in before ==> LinksIn(web, u, before);
    }
  }

  lemma Onwards(web: Web, a: string, b: string, c: string)
    requires b in Links(web, a) && Reachable(web, b, c)
    ensures Reachable(web, a, c)
  {
    var p :| Walk(web, p) && p[0] == b && p[|p| - 1] == c;
    var q := [a] + p;
    forall i: nat | 0 < i < |q| ensures LinkAt(web, q, i) {
      assert i > 1 ==> LinkAt(web, p, i - 1);
    }
    assert Walk(web, q);
  }

  class Crawl {
    const web: Web
    var fetched: set<string>
    var log: seq<string> // the calls of Fetch

    constructor (web: Web)
      ensures this.web == web && fetched == {} && log == []
    {
      this.web, fetched, log := web, {}, [];
    }

    ghost predicate Valid()
      reads this
    {
      NoRepeats(log) && forall u :: u in log <==> u in fetched
    }

    method Mark(url: string)
      requires Valid() && url !in fetched
      modifies this
      ensures Valid() && fetched == old(fetched) + {url}
    {
      fetched := fetched + {url};
      log := log + [url];
    }

    // What a crawl from url adds is reachable from it, and closed but for what was there.
    method Serial(url: string, ghost all: set<string>)
      requires Valid() && url in all && Within(web, all)
      modifies this
      ensures Valid() && url in fetched
      ensures Grew(web, url, old(fetched), fetched) && ClosedBut(web, old(fetched), fetched, {})
      decreases all - fetched
    {
      if url in fetched {
        return;
      }
      Mark(url);
      StartReachable(web, url);
      if url !in web {
        return;
      }
      var i := 0;
      while i < |web[url]|
        invariant 0 <= i <= |web[url]| && Valid() && url in fetched
        invariant Grew(web, url, old(fetched), fetched) && ClosedBut(web, old(fetched), fetched, {url})
        invariant SomeIn(web, url, i, fetched)
        decreases |web[url]| - i
      {
        ghost var before := fetched;
        LinkWithin(web, all, url, i);
        Serial(web[url][i], all);
        LinkIn(web, url, i, before, fetched);
        OneMore(web, url, web[url][i], old(fetched), before, fetched);
        i := i + 1;
      }
      assert LinksIn(web, url, fetched);
    }

    // The crawl as it is started, with nothing fetched: it fetches each reachable page
    // once, and no other.
    method Run(url: string)
      requires fetched == {} && log == []
      modifies this
      ensures IsReach(web, url, fetched)
      ensures NoRepeats(log) && forall u :: u in log <==> Reachable(web, url, u)
    {
      forall u ensures LinksIn(web, u, Known(web, url)) {
        forall v | v in Links(web, u) ensures v in Known(web, url) { LinksKnown(web, url, u, v); }
      }
      Serial(url, Known(web, url));
      assert forall u :: u in fetched ==> u in fetched - {} - {} && LinksIn(web, u, fetched);
      ClosedIsReach(web, url, fetched);
    }
  }
}
