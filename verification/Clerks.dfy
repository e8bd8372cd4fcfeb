// The clerks' retry loops as the code has them. What the network and the servers do with
// each attempt is a script of outcomes; a loop reads it until it returns, or until the
// script ends and the call is still running.
module Clerks {
  import opened Options
  import opened Kv
  import opened ClerkRuns

  // One Call: no reply came back, or one did.
  datatype Outcome = Dropped | Got(reply: Reply)

  function ErrOf(r: Reply): Err {
    r.err
  }

  // Whether a rotating clerk goes on to the next server.
  predicate Again(c: Outcome) {
    c.Dropped? || ErrOf(c.reply) == ErrWrongLeader
  }

  // The single server's clerk tries again only when no reply came back.
  predicate Silent(c: Outcome) {
    c.Dropped?
  }

  // The first attempt that settles the call, or their number if none does.
  function Answered(again: Outcome -> bool, calls: seq<Outcome>): (i: nat)
    ensures i <= |calls|
    ensures forall k :: 0 <= k < i ==> again(calls[k])
    ensures i < |calls| ==> !again(calls[i])
  {
    if calls == [] || !again(calls[0]) then 0 else 1 + Answered(again, calls[1..])
  }

  lemma {:induction false} AnsweredAt(again: Outcome -> bool, calls: seq<Outcome>, i: nat)
    requires i <= |calls| && forall k :: 0 <= k < i ==> again(calls[k])
    requires i < |calls| ==> !again(calls[i])
    ensures Answered(again, calls) == i
  {
    if i > 0 { AnsweredAt(again, calls[1..], i - 1); }
  }

  // ---------- kvsrv1: one server ----------

  method SingleGet(calls: seq<Outcome>) returns (r: Option<Reply>)
    ensures var i := Answered(Silent, calls);
      r == if i < |calls| then Some(calls[i].reply) else None
  {
    var i := 0;
    while i < |calls|
      invariant 0 <= i <= |calls|
      invariant forall k :: 0 <= k < i ==> Silent(calls[k])
    {
      if calls[i].Got? {
        AnsweredAt(Silent, calls, i);
        return Some(calls[i].reply);
      }
      i := i + 1;
    }
    AnsweredAt(Silent, calls, i);
    r := None;
  }

  // The call returns with the first reply it gets, read as a resend's unless it is the
  // first attempt's.
  method SinglePut(calls: seq<Outcome>) returns (r: Option<Reply>)
    ensures var i := Answered(Silent, calls);
      r == if i < |calls| then Some(Answer(i == 0, calls[i].reply)) else None
  {
    var firstCall := true;
    var i := 0;
    while i < |calls|
      invariant 0 <= i <= |calls| && firstCall == (i == 0)
      invariant forall k :: 0 <= k < i ==> Silent(calls[k])
    {
      if calls[i].Got? {
        AnsweredAt(Silent, calls, i);
        if calls[i].reply == PutReply(ErrVersion) {
          if firstCall {
            return Some(PutReply(ErrVersion));
          } else {
            return Some(PutReply(ErrMaybe));
          }
        } else {
          return Some(calls[i].reply);
        }
      }
      firstCall := false;
      i := i + 1;
    }
    AnsweredAt(Silent, calls, i);
    r := None;
  }

  // ---------- kvraft1 and shardgrp: a rotating leader ----------

  // What a shard group's clerk makes of one round of attempts, one per server.
  function GroupResult(servers: nat, calls: seq<Outcome>): Reply
    requires |calls| == servers
  {
    var i := Answered(Again, calls);
    if i < servers then Answer(i == 0, calls[i].reply) else PutReply(ErrWrongGroup)
  }

  // The server i turns after leader.
  function Rotated(leader: nat, i: nat, servers: nat): nat
    requires servers > 0
  {
    if i == 0 then leader else (Rotated(leader, i - 1, servers) + 1) % servers
  }

  class Clerk {
    const servers: nat
    var leader: nat

    constructor (servers: nat)
      ensures this.servers == servers && leader == 0
    {
      this.servers, leader := servers, 0;
    }

    ghost predicate Valid()
      reads this
    {
      servers > 0 ==> leader < servers
    }

    // kvraft1: Put with ErrMaybe on a resend, Get without. It returns at the first answer,
    // and has moved on one server for every attempt before it.
    method Retry(calls: seq<Outcome>) returns (r: Option<Reply>)
      requires Valid() && servers > 0
      modifies this`leader
      ensures Valid() && leader == Rotated(old(leader), Answered(Again, calls), servers)
      ensures var i := Answered(Again, calls);
        r == if i < |calls| then Some(Answer(i == 0, calls[i].reply)) else None
    {
      var firstCall := true;
      var i := 0;
      while i < |calls|
        invariant 0 <= i <= |calls| && firstCall == (i == 0) && Valid()
        invariant forall k :: 0 <= k < i ==> Again(calls[k])
        invariant leader == Rotated(old(leader), i, servers)
      {
        if calls[i].Dropped? || ErrOf(calls[i].reply) == ErrWrongLeader {
          leader := (leader + 1) % servers;
          firstCall := false;
          i := i + 1;
          continue;
        }
        AnsweredAt(Again, calls, i);
        if calls[i].reply == PutReply(ErrVersion) {
          if firstCall {
            return Some(PutReply(ErrVersion));
          } else {
            return Some(PutReply(ErrMaybe));
          }
        }
        return Some(calls[i].reply);
      }
      AnsweredAt(Again, calls, i);
      r := None;
    }

    // shardgrp: at most one attempt per server, then ErrWrongGroup. The clerk stays at the
    // server that answered.
    method Put(calls: seq<Outcome>) returns (r: Reply)
      requires Valid() && |calls| == servers
      modifies this`leader
      ensures Valid() && r == GroupResult(servers, calls)
      ensures leader == if servers == 0 then old(leader) else Rotated(old(leader), Answered(Again, calls), servers)
    {
      if servers == 0 {
        return PutReply(ErrWrongGroup);
      }
      var firstCall := true;
      var i := 0;
      while i < servers
        invariant 0 <= i <= servers && firstCall == (i == 0) && Valid()
        invariant leader == Rotated(old(leader), i, servers)
        invariant forall k :: 0 <= k < i ==> Again(calls[k])
      {
        if calls[i].Dropped? || ErrOf(calls[i].reply) == ErrWrongLeader {
          leader := (leader + 1) % servers;
          firstCall := false;
          i := i + 1;
          continue;
        }
        AnsweredAt(Again, calls, i);
        if calls[i].reply == PutReply(ErrVersion) {
          if firstCall {
            return PutReply(ErrVersion);
          }
          return PutReply(ErrMaybe);
        }
        return calls[i].reply;
      }
      AnsweredAt(Again, calls, i);
      r := PutReply(ErrWrongGroup);
    }
  }

  // ---------- shardkv1: across groups ----------

  // One turn of the outer loop: the group the configuration names, and its attempts.
  datatype Turn = Turn(servers: nat, calls: seq<Outcome>)

  ghost predicate TurnsOk(turns: seq<Turn>) {
    forall k :: 0 <= k < |turns| ==> |turns[k].calls| == turns[k].servers
  }

  ghost predicate Refused(t: Turn)
    requires |t.calls| == t.servers
  {
    ErrOf(GroupResult(t.servers, t.calls)) == ErrWrongGroup
  }

  // The attempts a turn sends.
  function Sent(t: Turn): nat {
    if Answered(Again, t.calls) < |t.calls| then Answered(Again, t.calls) + 1 else |t.calls|
  }

  function AllSent(turns: seq<Turn>): nat {
    if turns == [] then 0 else AllSent(turns[..|turns| - 1]) + Sent(turns[|turns| - 1])
  }

  // A Put across groups returns in the first turn whose group is not wrong. It says
  // ErrVersion only if its very first attempt said so and was the only one it sent, so
  // that the put was certainly not performed.
  method ShardedPut(turns: seq<Turn>) returns (r: Option<Reply>, n: nat)
    requires TurnsOk(turns)
    ensures n <= |turns| && (forall k :: 0 <= k < n ==> Refused(turns[k]))
    ensures r.Some? <==> n < |turns|
    ensures n < |turns| ==> !Refused(turns[n])
    ensures n < |turns| ==>
      var t := turns[n]; var i := Answered(Again, t.calls);
      i < t.servers && r == Some(Answer(n == 0 && i == 0, t.calls[i].reply))
    ensures r == Some(PutReply(ErrVersion)) ==> AllSent(turns[..n + 1]) == 1 && turns[0].calls[0] == Got(PutReply(ErrVersion))
  {
    var maybe := false;
    n := 0;
    while n < |turns|
      invariant 0 <= n <= |turns| && maybe == (n > 0)
      invariant forall k :: 0 <= k < n ==> Refused(turns[k])
    {
      var clerk := new Clerk(turns[n].servers);
      var reply := clerk.Put(turns[n].calls);
      if ErrOf(reply) == ErrWrongGroup {
        maybe := true;
        n := n + 1;
        continue;
      }
      if reply == PutReply(ErrVersion) && maybe {
        return Some(PutReply(ErrMaybe)), n;
      }
      return Some(reply), n;
    }
    r := None;
  }
}
