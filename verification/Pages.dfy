// The web the crawlers walk: a finite map from pages to their links. A page that is not
// there cannot be fetched and has no links.
module Pages {

  type Web = map<string, seq<string>>

  function Links(web: Web, u: string): seq<string> {
    if u in web then web[u] else []
  }

  predicate LinkAt(web: Web, p: seq<string>, i: nat)
    requires 0 < i < |p|
  {
    p[i] in Links(web, p[i - 1])
  }

  // A walk along links.
  ghost predicate Walk(web: Web, p: seq<string>) {
    p != [] && forall i: nat :: 0 < i < |p| ==> LinkAt(web, p, i)
  }

  ghost predicate Reachable(web: Web, start: string, u: string) {
    exists p :: Walk(web, p) && p[0] == start && p[|p| - 1] == u
  }

  lemma StartReachable(web: Web, start: string)
    ensures Reachable(web, start, start)
  {
    assert Walk(web, [start]);
  }

  lemma LinkReachable(web: Web, start: string, u: string, v: string)
    requires Reachable(web, start, u) && v in Links(web, u)
    ensures Reachable(web, start, v)
  {
    var p :| Walk(web, p) && p[0] == start && p[|p| - 1] == u;
    var q := p + [v];
    forall i: nat | 0 < i < |q| ensures LinkAt(web, q, i) {
      assert i < |p| ==> LinkAt(web, p, i);
    }
    assert Walk(web, q);
  }

  // Exactly the pages reachable from start.
  ghost predicate IsReach(web: Web, start: string, s: set<string>) {
    forall u :: u in s <==> Reachable(web, start, u)
  }

  ghost predicate Closed(web: Web, s: set<string>) {
    forall u, v :: u in s && v in Links(web, u) ==> v in s
  }

  lemma {:induction false} WalkStays(web: Web, s: set<string>, p: seq<string>)
    requires Closed(web, s) && Walk(web, p) && p[0] in s
    ensures p[|p| - 1] in s
  {
    if |p| > 1 {
      var q := p[..|p| - 1];
      forall i: nat | 0 < i < |q| ensures LinkAt(web, q, i) {
        assert LinkAt(web, p, i);
      }
      WalkStays(web, s, q);
      assert LinkAt(web, p, |p| - 1);
    }
  }

  // A closed set of reachable pages with start in it is all of them.
  lemma ClosedIsReach(web: Web, start: string, s: set<string>)
    requires start in s && Closed(web, s) && forall u :: u in s ==> Reachable(web, start, u)
    ensures IsReach(web, start, s)
  {
    forall u | Reachable(web, start, u) ensures u in s {
      var p :| Walk(web, p) && p[0] == start && p[|p| - 1] == u;
      WalkStays(web, s, p);
    }
  }

  // Every page a crawl from start can see.
  function Known(web: Web, start: string): set<string> {
    {start} + web.Keys + (set u, i | u in web && 0 <= i < |web[u]| :: web[u][i])
  }

  lemma LinksKnown(web: Web, start: string, u: string, v: string)
    requires v in Links(web, u)
    ensures v in Known(web, start)
  {
    var i :| 0 <= i < |web[u]| && web[u][i] == v;
  }

  ghost predicate NoRepeats(log: seq<string>) {
    forall i, j :: 0 <= i < j < |log| ==> log[i] != log[j]
  }
}
