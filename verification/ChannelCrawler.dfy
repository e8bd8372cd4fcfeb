// The crawler whose coordinator listens on a channel, in any interleaving with its workers.
module ChannelCrawler {
  import opened Options
  import opened Pages

  // A goroutine that will send once: a worker still fetching, or one whose list is ready.
  datatype Sender = Fetching(url: string) | Ready(urls: seq<string>)

  // inbox is the rest of the list the coordinator is going through; log the calls of Fetch.
  datatype State = State(n: int, fetched: set<string>, senders: seq<Sender>, inbox: Option<seq<string>>, stopped: bool, log: seq<string>)

  datatype Action = Fetch(i: nat) | Receive(i: nat) | Look | EndOfList

  function Start(url: string): State {
    State(1, {}, [Ready([url])], None, false, [])
  }

  predicate Enabled(s: State, a: Action) {
    match a
    case Fetch(i) => i < |s.senders| && s.senders[i].Fetching?
    case Receive(i) => !s.stopped && s.inbox.None? && i < |s.senders| && s.senders[i].Ready?
    case Look => s.inbox.Some? && s.inbox.value != []
    case EndOfList => s.inbox == Some([])
  }

  function Step(web: Web, s: State, a: Action): State
    requires Enabled(s, a)
  {
    match a
    case Fetch(i) =>
      var u := s.senders[i].url;
      s.(senders := s.senders[i := Ready(Links(web, u))], log := s.log + [u])
    case Receive(i) =>
      s.(inbox := Some(s.senders[i].urls), senders := s.senders[..i] + s.senders[i + 1..])
    case Look =>
      var u := s.inbox.value[0];
      var t := s.(inbox := Some(s.inbox.value[1..]));
      if u in s.fetched then t
      else t.(fetched := s.fetched + {u}, n := s.n + 1, senders := s.senders + [Fetching(u)])
    case EndOfList =>
      s.(inbox := None, n := s.n - 1, stopped := s.n == 1)
  }

  predicate CanRun(web: Web, url: string, acts: seq<Action>)
    decreases |acts|, 0
  {
    acts == [] || (CanRun(web, url, acts[..|acts| - 1]) && Enabled(Run(web, url, acts[..|acts| - 1]), acts[|acts| - 1]))
  }

  function Run(web: Web, url: string, acts: seq<Action>): State
    requires CanRun(web, url, acts)
    decreases |acts|, 1
  {
    if acts == [] then Start(url) else Step(web, Run(web, url, acts[..|acts| - 1]), acts[|acts| - 1])
  }

  // ---------- invariant ----------

  // u has been handed to the coordinator, or is on its way.
  ghost predicate Coming(s: State, u: string) {
    || u in s.fetched
    || (s.inbox.Some? && u in s.inbox.value)
    || exists i :: 0 <= i < |s.senders| && s.senders[i].Ready? && u in s.senders[i].urls
  }

  ghost predicate InFetch(s: State, u: string) {
    exists i :: 0 <= i < |s.senders| && s.senders[i] == Fetching(u)
  }

  ghost predicate Inv(web: Web, url: string, s: State) {
    && s.n == |s.senders| + (if s.inbox.Some? then 1 else 0)
    && (s.stopped <==> s.n == 0)
    && Coming(s, url)
    && (forall u :: Coming(s, u) ==> Reachable(web, url, u))
    && (forall u :: u in s.fetched <==> u in s.log || InFetch(s, u))
    && (forall u :: u in s.log ==> !InFetch(s, u))
    && NoRepeats(s.log)
    && (forall i, j :: 0 <= i < j < |s.senders| && s.senders[i].Fetching? ==> s.senders[i] != s.senders[j])
    && (forall u, v :: u in s.log && v in Links(web, u) ==> Coming(s, v))
  }

  lemma FetchInv(web: Web, url: string, s: State, i: nat)
    requires Inv(web, url, s) && Enabled(s, Fetch(i))
    ensures Inv(web, url, Step(web, s, Fetch(i)))
  {
    var u := s.senders[i].url;
    var t := Step(web, s, Fetch(i));
    assert InFetch(s, u);
    forall v ensures Coming(t, v) <==> Coming(s, v) || v in Links(web, u) {
      if v in Links(web, u) { assert t.senders[i].Ready? && v in t.senders[i].urls; }
      if k :| 0 <= k < |s.senders| && s.senders[k].Ready? && v in s.senders[k].urls { assert t.senders[k] == s.senders[k]; }
      if k :| 0 <= k < |t.senders| && t.senders[k].Ready? && v in t.senders[k].urls { assert k != i ==> t.senders[k] == s.senders[k]; }
    }
    forall v ensures InFetch(t, v) <==> InFetch(s, v) && v != u {
      if k :| 0 <= k < |s.senders| && s.senders[k] == Fetching(v) { assert v != u ==> t.senders[k] == Fetching(v); }
      if k :| 0 <= k < |t.senders| && t.senders[k] == Fetching(v) {
        assert s.senders[k] == Fetching(v) && k != i;
        assert s.senders[k] != s.senders[i] by { if k < i { assert s.senders[k] != s.senders[i]; } }
      }
    }
    forall v | Coming(t, v) ensures Reachable(web, url, v) {
      if v in Links(web, u) {
        assert Coming(s, u);
        LinkReachable(web, url, u, v);
      }
    }
  }

  lemma ReceiveComing(web: Web, s: State, i: nat, v: string)
    requires Enabled(s, Receive(i))
    ensures Coming(Step(web, s, Receive(i)), v) <==> Coming(s, v)
  {
    var t := Step(web, s, Receive(i));
    if k :| 0 <= k < |s.senders| && s.senders[k].Ready? && v in s.senders[k].urls {
      if k < i { assert t.senders[k] == s.senders[k]; }
      if k > i { assert t.senders[k - 1] == s.senders[k]; }
    }
    if k :| 0 <= k < |t.senders| && t.senders[k].Ready? && v in t.senders[k].urls {
      assert t.senders[k] == s.senders[if k < i then k else k + 1];
    }
  }

  lemma ReceiveFetch(web: Web, s: State, i: nat, v: string)
    requires Enabled(s, Receive(i))
    ensures InFetch(Step(web, s, Receive(i)), v) <==> InFetch(s, v)
  {
    var t := Step(web, s, Receive(i));
    if k :| 0 <= k < |s.senders| && s.senders[k] == Fetching(v) {
      assert t.senders[if k < i then k else k - 1] == Fetching(v);
    }
    if k :| 0 <= k < |t.senders| && t.senders[k] == Fetching(v) {
      assert s.senders[if k < i then k else k + 1] == Fetching(v);
    }
  }

  lemma ReceiveInv(web: Web, url: string, s: State, i: nat)
    requires Inv(web, url, s) && Enabled(s, Receive(i))
    ensures Inv(web, url, Step(web, s, Receive(i)))
  {
    var t := Step(web, s, Receive(i));
    forall v ensures Coming(t, v) <==> Coming(s, v) { ReceiveComing(web, s, i, v); }
    forall v ensures InFetch(t, v) <==> InFetch(s, v) { ReceiveFetch(web, s, i, v); }
  }

  lemma LookInv(web: Web, url: string, s: State)
    requires Inv(web, url, s) && Enabled(s, Look)
    ensures Inv(web, url, Step(web, s, Look))
  {
    var t := Step(web, s, Look);
    var u := s.inbox.value[0];
    var rest := s.inbox.value[1..];
    assert s.inbox.value == [u] + rest;
    assert Coming(s, u);
    forall v ensures Coming(t, v) <==> Coming(s, v) {
      if k :| 0 <= k < |s.senders| && s.senders[k].Ready? && v in s.senders[k].urls { assert t.senders[k] == s.senders[k]; }
      if k :| 0 <= k < |t.senders| && t.senders[k].Ready? && v in t.senders[k].urls { assert t.senders[k] == s.senders[k]; }
    }
    forall v ensures InFetch(t, v) <==> InFetch(s, v) || (v == u && u !in s.fetched) {
      if k :| 0 <= k < |s.senders| && s.senders[k] == Fetching(v) { assert t.senders[k] == Fetching(v); }
      if k :| 0 <= k < |t.senders| && t.senders[k] == Fetching(v) { assert k < |s.senders| ==> s.senders[k] == Fetching(v); }
      if u !in s.fetched { assert t.senders[|s.senders|] == Fetching(u); }
    }
    assert u !in s.fetched ==> !InFetch(s, u);
  }

  lemma StepInv(web: Web, url: string, s: State, a: Action)
    requires Inv(web, url, s) && Enabled(s, a)
    ensures Inv(web, url, Step(web, s, a))
  {
    match a
    case Fetch(i) => FetchInv(web, url, s, i);
    case Receive(i) => ReceiveInv(web, url, s, i);
    case Look => LookInv(web, url, s);
    case EndOfList =>
      var t := Step(web, s, a);
      assert forall v :: Coming(t, v) <==> Coming(s, v);
      assert forall v :: InFetch(t, v) <==> InFetch(s, v);
  }

  lemma {:induction false} RunInv(web: Web, url: string, acts: seq<Action>)
    requires CanRun(web, url, acts)
    ensures Inv(web, url, Run(web, url, acts))
    decreases |acts|
  {
    if acts == [] {
      StartReachable(web, url);
      assert Start(url).senders[0].urls == [url];
      assert forall u :: Coming(Start(url), u) <==> u == url;
    } else {
      RunInv(web, url, acts[..|acts| - 1]);
      StepInv(web, url, Run(web, url, acts[..|acts| - 1]), acts[|acts| - 1]);
    }
  }

  // ---------- what every interleaving guarantees ----------

  // n is the number of sends not yet received, counting the list being gone through as
  // one; and the coordinator stops exactly when there is none left.
  lemma CountsSends(web: Web, url: string, acts: seq<Action>)
    requires CanRun(web, url, acts)
    ensures var s := Run(web, url, acts);
      && s.n == |s.senders| + (if s.inbox.Some? then 1 else 0)
      && (s.stopped <==> s.senders == [] && s.inbox.None?)
  {
    RunInv(web, url, acts);
  }

  // No page is ever fetched twice, or fetched without being reachable; and when the
  // coordinator stops every reachable page has been.
  lemma FetchesReachableOnce(web: Web, url: string, acts: seq<Action>)
    requires CanRun(web, url, acts)
    ensures var s := Run(web, url, acts);
      && NoRepeats(s.log)
      && (forall u :: u in s.log ==> Reachable(web, url, u))
      && (s.stopped ==> IsReach(web, url, s.fetched) && forall u :: u in s.log <==> u in s.fetched)
  {
    RunInv(web, url, acts);
    var s := Run(web, url, acts);
    assert forall u :: u in s.fetched ==> Coming(s, u);
    if s.stopped {
      assert forall u :: !InFetch(s, u);
      assert forall u :: Coming(s, u) ==> u in s.fetched;
      forall u, v | u in s.fetched && v in Links(web, u) ensures v in s.fetched {
        assert u in s.log;
        assert Coming(s, v);
      }
      ClosedIsReach(web, url, s.fetched);
    }
  }

  // Until it stops, some goroutine can take a step.
  lemma NeverStuck(web: Web, url: string, acts: seq<Action>) returns (a: Action)
    requires CanRun(web, url, acts) && !Run(web, url, acts).stopped
    ensures Enabled(Run(web, url, acts), a)
  {
    RunInv(web, url, acts);
    var s := Run(web, url, acts);
    if s.inbox.Some? {
      a := if s.inbox.value == [] then EndOfList else Look;
    } else {
      a := if s.senders[0].Fetching? then Fetch(0) else Receive(0);
    }
  }

  // ---------- every interleaving ends ----------

  function Weight(web: Web, x: Sender): nat {
    match x
    case Fetching(u) => |Links(web, u)| + 3
    case Ready(urls) => |urls| + 2
  }

  function Total(web: Web, xs: seq<Sender>): nat {
    if xs == [] then 0 else Total(web, xs[..|xs| - 1]) + Weight(web, xs[|xs| - 1])
  }

  // The steps left if nothing new is found.
  function Work(web: Web, s: State): nat {
    Total(web, s.senders) + (if s.inbox.Some? then |s.inbox.value| + 1 else 0)
  }

  function Unseen(web: Web, url: string, s: State): set<string> {
    Known(web, url) - s.fetched
  }

  lemma {:induction false} TotalSplit(web: Web, xs: seq<Sender>, ys: seq<Sender>)
    ensures Total(web, xs + ys) == Total(web, xs) + Total(web, ys)
  {
    if ys == [] {
      assert xs + ys == xs;
    } else {
      assert (xs + ys)[..|xs + ys| - 1] == xs + ys[..|ys| - 1];
      TotalSplit(web, xs, ys[..|ys| - 1]);
    }
  }

  lemma TotalAt(web: Web, xs: seq<Sender>, i: nat)
    requires i < |xs|
    ensures Total(web, xs) == Total(web, xs[..i]) + Weight(web, xs[i]) + Total(web, xs[i + 1..])
  {
    assert xs == xs[..i] + [xs[i]] + xs[i + 1..];
    TotalSplit(web, xs[..i] + [xs[i]], xs[i + 1..]);
    TotalSplit(web, xs[..i], [xs[i]]);
    assert [xs[i]][..0] == [];
  }

  lemma ReachableKnown(web: Web, url: string, u: string)
    requires Reachable(web, url, u)
    ensures u in Known(web, url)
  {
    var p :| Walk(web, p) && p[0] == url && p[|p| - 1] == u;
    assert |p| > 1 ==> LinkAt(web, p, |p| - 1);
    if |p| > 1 { LinksKnown(web, url, p[|p| - 2], u); }
  }

  lemma FetchLess(web: Web, s: State, i: nat)
    requires Enabled(s, Fetch(i))
    ensures Work(web, Step(web, s, Fetch(i))) < Work(web, s)
  {
    var t := Step(web, s, Fetch(i));
    TotalAt(web, s.senders, i);
    TotalAt(web, t.senders, i);
    assert t.senders[..i] == s.senders[..i] && t.senders[i + 1..] == s.senders[i + 1..];
  }

  lemma ReceiveLess(web: Web, s: State, i: nat)
    requires Enabled(s, Receive(i))
    ensures Work(web, Step(web, s, Receive(i))) < Work(web, s)
  {
    TotalAt(web, s.senders, i);
    TotalSplit(web, s.senders[..i], s.senders[i + 1..]);
  }

  lemma LookLess(web: Web, url: string, s: State)
    requires Enabled(s, Look) && Reachable(web, url, s.inbox.value[0])
    ensures var t := Step(web, s, Look);
      || Unseen(web, url, t) < Unseen(web, url, s)
      || (Unseen(web, url, t) == Unseen(web, url, s) && Work(web, t) < Work(web, s))
  {
    var t := Step(web, s, Look);
    var u := s.inbox.value[0];
    ReachableKnown(web, url, u);
    if u !in s.fetched { assert u in Unseen(web, url, s) && u !in Unseen(web, url, t); }
  }

  // Each step finds a page, or finds none and leaves less work: no interleaving goes on
  // for ever. With NeverStuck, each one ends with the coordinator stopped.
  lemma StepsRunOut(web: Web, url: string, acts: seq<Action>, a: Action)
    requires CanRun(web, url, acts) && Enabled(Run(web, url, acts), a)
    ensures var s := Run(web, url, acts); var t := Step(web, s, a);
      || Unseen(web, url, t) < Unseen(web, url, s)
      || (Unseen(web, url, t) == Unseen(web, url, s) && Work(web, t) < Work(web, s))
  {
    RunInv(web, url, acts);
    var s := Run(web, url, acts);
    match a
    case Fetch(i) => FetchLess(web, s, i);
    case Receive(i) => ReceiveLess(web, s, i);
    case Look =>
      assert Coming(s, s.inbox.value[0]);
      LookLess(web, url, s);
    case EndOfList =>
  }
}
