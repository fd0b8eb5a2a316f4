/**
 Who stays subscribed: nothing is sent to a receiver that is gone, only subscribers with
 such a receiver are found dead, and whoever shares no id with one of them stays.
 */
module Survival {
  import opened Changes
  import opened Core
  import opened Database
  import opened Dispatch
  import opened Fanout
  import opened Log
  import opened Reads
  import opened Subscriptions
  import opened Text

  // ---- Receivers that are gone ----------------------------------------------------------

  lemma DrainTakes(feed: nat -> Option<Tables>, logs: nat -> seq<Entry>, d: Drain)
    requires PassedOver(feed, logs, d)
    ensures d.sub == d.before.(cursor := d.sub.cursor, sent := d.sub.sent, whole := d.sub.whole) && d.before.sent <= d.sub.sent
    ensures Accepted(d.before, |d.before.sent|, |d.sub.sent| - |d.before.sent|)
    ensures d.dead ==> Closed(d.before, |d.sub.sent|)
  {
  }

  lemma EventTakes(s: Streams, e: Event)
    requires Possible(s, e) && forall sub :: sub in s.subs ==> Accepted(sub, 0, |sub.sent|)
    ensures forall sub :: sub in Next(s, e).subs ==> Accepted(sub, 0, |sub.sent|)
  {
    if e.Drained? {
      forall sub | sub in Drainees(e.drains)
        ensures Accepted(sub, 0, |sub.sent|)
      {
        var i :| 0 <= i < |e.drains| && Drainees(e.drains)[i] == sub;
        PassedAt(e.feed, e.logs, s.subs, e.drains, i);
        DrainTakes(e.feed, e.logs, e.drains[i]);
        assert s.subs[i] in s.subs;
      }
    }
  }

  /// No subscriber was ever sent more records than its receiver stayed for.
  lemma {:induction false} NothingToTheGone(events: seq<Event>)
    requires Legal(events)
    ensures forall sub :: sub in After(events).subs ==> Accepted(sub, 0, |sub.sent|)
  {
    if events != [] {
      NothingToTheGone(events[..|events| - 1]);
      EventTakes(After(events[..|events| - 1]), events[|events| - 1]);
    }
  }

  lemma {:induction false} DeadIdsFrom(drains: seq<Drain>, id: string) returns (i: nat)
    requires id in DeadIds(drains)
    ensures i < |drains| && drains[i].dead && drains[i].sub.id == id
  {
    var n := |drains| - 1;
    if drains[n].dead && drains[n].sub.id == id {
      i := n;
    } else {
      i := DeadIdsFrom(drains[..n], id);
    }
  }

  /// A pass finds dead only ids of subscribers that got all their receiver stayed for.
  lemma OnlyTheGoneDie(events: seq<Event>, id: string) returns (sub: Subscriber)
    requires Legal(events) && events != [] && events[|events| - 1].Drained? && id in After(events).dying
    ensures sub in After(events).subs && sub.id == id && sub.closesAfter == Some(|sub.sent|)
  {
    var s, e := After(events[..|events| - 1]), events[|events| - 1];
    var i := DeadIdsFrom(e.drains, id);
    PassedAt(e.feed, e.logs, s.subs, e.drains, i);
    DrainTakes(e.feed, e.logs, e.drains[i]);
    sub := e.drains[i].sub;
    assert Drainees(e.drains)[i] in Drainees(e.drains);
    NothingToTheGone(events);
  }

  lemma DrainSends(feed: nat -> Option<Tables>, logs: nat -> seq<Entry>, d: Drain)
    requires PassedOver(feed, logs, d) && !d.dead && Resume(d.before.cursor) < d.sub.cursor <= |logs(d.next)| < U64_MAX
    ensures |d.sub.sent| == |d.before.sent| + |Stream(logs(d.next), d.before.filter, Resume(d.before.cursor), d.sub.cursor)|
  {
  }

  lemma WantedStreams(log: seq<Entry>, filter: Option<string>, a: nat, n: nat)
    requires Numbered(log) && a < n <= |log| && Wanted(log, filter, n)
    ensures Stream(log, filter, a, |log|) != []
  {
    StreamInSequence(log, filter, a, |log|);
    assert FromStretch(log, filter, a, |log|, Change(log[n - 1]));
  }

  /// A drain over a log that is not growing, which has a wanted record for a receiver that
  /// is gone, finds it dead, unless its last read of the log failed.
  lemma TheGoneAreFound(feed: nat -> Option<Tables>, logs: nat -> seq<Entry>, d: Drain, n: nat)
    requires FeedOk(feed, logs) && PassedOver(feed, logs, d) && Closed(d.before, |d.before.sent|)
    requires Numbered(logs(d.next)) && logs(d.first) == logs(d.next) && (feed(d.next - 1).Some? || d.next - 1 in d.asked)
    requires Resume(d.before.cursor) < n <= |logs(d.next)| && Wanted(logs(d.next), d.before.filter, n)
    ensures d.dead
  {
    if !d.dead {
      assert SnapshotOk(feed, logs, d.next);
      PassReachesEnd(feed, logs, d);
      WantedStreams(logs(d.next), d.before.filter, Resume(d.before.cursor), n);
      DrainSends(feed, logs, d);
      DrainTakes(feed, logs, d);
      assert false;
    }
  }

  // ---- Staying subscribed ------------------------------------------------------------------

  /// Everyone with this id has a receiver that stays.
  predicate Lasting(s: Streams, id: string) {
    id !in s.dying && forall x :: x in s.subs && x.id == id ==> x.closesAfter.None?
  }

  predicate Spares(e: Event, id: string) {
    match e
    case Unsubscribed(i) => i != id
    case Subscribed(i, _, _, closesAfter) => i == id ==> closesAfter.None?
    case _ => true
  }

  /// The same subscription, further on.
  predicate Later(sub: Subscriber, sub': Subscriber) {
    sub' == sub.(cursor := sub'.cursor, sent := sub'.sent, whole := sub'.whole) && sub.sent <= sub'.sent
  }

  lemma DrainLasts(s: Streams, e: Event, id: string)
    requires e.Drained? && Possible(s, e) && Lasting(s, id)
    ensures Lasting(Next(s, e), id)
  {
    forall x | x in Drainees(e.drains) && x.id == id
      ensures x.closesAfter.None?
    {
      var i :| 0 <= i < |e.drains| && Drainees(e.drains)[i] == x;
      PassedAt(e.feed, e.logs, s.subs, e.drains, i);
      DrainTakes(e.feed, e.logs, e.drains[i]);
      assert s.subs[i] in s.subs;
    }
    if id in DeadIds(e.drains) {
      var i := DeadIdsFrom(e.drains, id);
      PassedAt(e.feed, e.logs, s.subs, e.drains, i);
      DrainTakes(e.feed, e.logs, e.drains[i]);
      assert false;
    }
  }

  lemma DrainKeeps(s: Streams, e: Event, sub: Subscriber) returns (sub': Subscriber)
    requires e.Drained? && Possible(s, e) && sub in s.subs
    ensures sub' in Next(s, e).subs && Later(sub, sub')
  {
    var i :| 0 <= i < |s.subs| && s.subs[i] == sub;
    PassedAt(e.feed, e.logs, s.subs, e.drains, i);
    DrainTakes(e.feed, e.logs, e.drains[i]);
    sub' := e.drains[i].sub;
    assert Drainees(e.drains)[i] in Drainees(e.drains);
  }

  lemma EventKeeps(s: Streams, e: Event, sub: Subscriber) returns (sub': Subscriber)
    requires Possible(s, e) && Lasting(s, sub.id) && Spares(e, sub.id) && sub in s.subs
    ensures Lasting(Next(s, e), sub.id) && sub' in Next(s, e).subs && Later(sub, sub')
  {
    sub' := sub;
    if e.Drained? {
      DrainLasts(s, e, sub.id);
      sub' := DrainKeeps(s, e, sub);
    }
  }

  /// A subscription goes on, with everything it was sent, until it is cancelled by its id
  /// or a namesake's receiver goes away.
  lemma {:induction false} StaysSubscribed(events: seq<Event>, more: seq<Event>, sub: Subscriber) returns (sub': Subscriber)
    requires Legal(events + more) && sub in After(events).subs && Lasting(After(events), sub.id)
    requires forall i :: 0 <= i < |more| ==> Spares(more[i], sub.id)
    ensures Live(After(events + more), sub') && Later(sub, sub') && Lasting(After(events + more), sub.id)
  {
    if more == [] {
      assert events + more == events;
      sub' := sub;
    } else {
      var front, e := more[..|more| - 1], more[|more| - 1];
      assert (events + more)[..|events + more| - 1] == events + front;
      sub' := StaysSubscribed(events, front, sub);
      sub' := EventKeeps(After(events + front), e, sub');
    }
  }
}
