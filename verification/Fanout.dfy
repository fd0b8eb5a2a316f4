/**
 One pass over all subscribers: a drain for each, one after the other.
 */
module Fanout {
  import opened Core
  import opened Database
  import opened Dispatch
  import opened Log
  import opened Text

  function SentTotal(subs: seq<Subscriber>): nat {
    if subs == [] then 0 else SentTotal(subs[..|subs| - 1]) + |subs[|subs| - 1].sent|
  }

  /// Keeps the subscribers whose id is not in the list.
  function Retain(subs: seq<Subscriber>, ids: seq<string>): (kept: seq<Subscriber>)
    ensures forall s :: s in kept <==> s in subs && s.id !in ids
  {
    if subs == [] then []
    else
      var rest := Retain(subs[..|subs| - 1], ids);
      if subs[|subs| - 1].id in ids then rest else rest + [subs[|subs| - 1]]
  }

  function Drainees(drains: seq<Drain>): (subs: seq<Subscriber>)
    ensures |subs| == |drains|
  {
    seq(|drains|, i requires 0 <= i < |drains| => drains[i].sub)
  }

  /// The ids of the subscribers found dead, in order.
  function DeadIds(drains: seq<Drain>): seq<string> {
    if drains == [] then []
    else DeadIds(drains[..|drains| - 1]) + if drains[|drains| - 1].dead then [drains[|drains| - 1].sub.id] else []
  }

  /// The number of reads a pass has made.
  function ReadsMade(drains: seq<Drain>): nat {
    if drains == [] then 0 else drains[|drains| - 1].next
  }

  /// The drain at `i` takes up reading where the one before it ended.
  predicate Follows(drains: seq<Drain>, i: nat)
    requires i < |drains|
  {
    drains[i].first < drains[i].next && drains[i].first == if i == 0 then 0 else drains[i - 1].next
  }

  predicate InTurn(drains: seq<Drain>) {
    forall i :: 0 <= i < |drains| ==> Follows(drains, i)
  }

  predicate DrainsOf(subs: seq<Subscriber>, drains: seq<Drain>) {
    |drains| == |subs| && forall i :: 0 <= i < |subs| ==> drains[i].before == subs[i]
  }

  /// One drain for each subscriber.
  ghost predicate AllPassedOver(feed: nat -> Option<Tables>, logs: nat -> seq<Entry>, subs: seq<Subscriber>, drains: seq<Drain>) {
    DrainsOf(subs, drains) && InTurn(drains) && forall d :: d in drains ==> PassedOver(feed, logs, d)
  }

  lemma TurnsGrow(subs: seq<Subscriber>, sub: Subscriber, drains: seq<Drain>, d: Drain)
    requires InTurn(drains) && DrainsOf(subs, drains) && d.before == sub && d.first == ReadsMade(drains) && d.first < d.next
    ensures InTurn(drains + [d]) && DrainsOf(subs + [sub], drains + [d])
  {
    var all := drains + [d];
    forall i | 0 <= i < |all|
      ensures Follows(all, i)
    {
      assert i < |drains| ==> Follows(drains, i);
    }
  }

  lemma {:induction false} LaterDrain(drains: seq<Drain>, i: nat, j: nat)
    requires InTurn(drains) && i <= j < |drains|
    ensures drains[i].next <= drains[j].next
    decreases j - i
  {
    if i < j {
      LaterDrain(drains, i, j - 1);
      assert Follows(drains, j);
    }
  }

  /// What the pass did to the subscriber at `i`.
  lemma PassedAt(feed: nat -> Option<Tables>, logs: nat -> seq<Entry>, subs: seq<Subscriber>, drains: seq<Drain>, i: nat)
    requires AllPassedOver(feed, logs, subs, drains) && i < |subs|
    ensures i < |drains| && PassedOver(feed, logs, drains[i]) && drains[i].before == subs[i] && drains[i].next <= ReadsMade(drains)
  {
    DrainAt(subs, drains, i);
    assert drains[i] in drains;
  }

  lemma DrainAt(subs: seq<Subscriber>, drains: seq<Drain>, i: nat)
    requires DrainsOf(subs, drains) && InTurn(drains) && i < |subs|
    ensures i < |drains| && drains[i].before == subs[i] && drains[i].next <= ReadsMade(drains)
  {
    LaterDrain(drains, i, |drains| - 1);
  }

  lemma DrainsGrow(drains: seq<Drain>, d: Drain)
    ensures ReadsMade(drains + [d]) == d.next
    ensures DeadIds(drains + [d]) == DeadIds(drains) + if d.dead then [d.sub.id] else []
    ensures Drainees(drains + [d]) == Drainees(drains) + [d.sub]
  {
    assert (drains + [d])[..|drains|] == drains;
  }

  lemma SentTotalGrows(subs: seq<Subscriber>, sub: Subscriber)
    ensures SentTotal(subs + [sub]) == SentTotal(subs) + |sub.sent|
  {
    assert (subs + [sub])[..|subs|] == subs;
  }

  lemma {:induction false} RetainAll(subs: seq<Subscriber>)
    ensures Retain(subs, []) == subs
  {
    if subs != [] {
      RetainAll(subs[..|subs| - 1]);
    }
  }

  /// The loop over the subscribers.
  method DrainAll(subs: seq<Subscriber>, feed: nat -> Option<Tables>, ghost logs: nat -> seq<Entry>)
    returns (done: seq<Subscriber>, dead: seq<string>, delivered: nat, ghost drains: seq<Drain>)
    requires FeedOk(feed, logs) && forall i :: 0 <= i < |subs| ==> subs[i].cursor <= U64_MAX
    ensures AllPassedOver(feed, logs, subs, drains) && done == Drainees(drains) && dead == DeadIds(drains)
    ensures delivered == SentTotal(done) - SentTotal(subs)
  {
    var k: nat := 0;
    done, dead, delivered, drains := [], [], 0, [];
    for i := 0 to |subs|
      invariant AllPassedOver(feed, logs, subs[..i], drains)
      invariant done == Drainees(drains) && dead == DeadIds(drains) && k == ReadsMade(drains)
      invariant delivered == SentTotal(done) - SentTotal(subs[..i])
    {
      ghost var first := k;
      var sub, n, isDead;
      ghost var asked;
      sub, k, n, isDead, asked := DrainOne(subs[i], feed, k, logs);
      DrainCounts(feed, logs, subs[..i], subs[i], drains, Drain(subs[i], sub, isDead, first, k, asked));
      TakeNext(subs, i);
      done, delivered := done + [sub], delivered + n;
      if isDead {
        dead := dead + [sub.id];
      }
      drains := drains + [Drain(subs[i], sub, isDead, first, k, asked)];
    }
    assert subs[..|subs|] == subs;
  }

  lemma TakeNext<T>(s: seq<T>, i: nat)
    requires i < |s|
    ensures s[..i + 1] == s[..i] + [s[i]]
  {
  }

  lemma DrainCounts(feed: nat -> Option<Tables>, logs: nat -> seq<Entry>, subs: seq<Subscriber>, sub: Subscriber, drains: seq<Drain>, d: Drain)
    requires AllPassedOver(feed, logs, subs, drains) && PassedOver(feed, logs, d)
    requires d.before == sub && d.first == ReadsMade(drains) && d.first < d.next
    ensures AllPassedOver(feed, logs, subs + [sub], drains + [d]) && ReadsMade(drains + [d]) == d.next
    ensures DeadIds(drains + [d]) == DeadIds(drains) + if d.dead then [d.sub.id] else []
    ensures Drainees(drains + [d]) == Drainees(drains) + [d.sub]
    ensures SentTotal(Drainees(drains) + [d.sub]) == SentTotal(Drainees(drains)) + |d.sub.sent|
    ensures SentTotal(subs + [sub]) == SentTotal(subs) + |sub.sent|
  {
    TurnsGrow(subs, sub, drains, d);
    DrainsGrow(drains, d);
    SentTotalGrows(Drainees(drains), d.sub);
    SentTotalGrows(subs, sub);
  }
}
