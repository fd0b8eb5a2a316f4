/**
 What a downstream consumer can do with the records it was sent: rebuild the
 projection, the last change of every (entity, machine) pair giving its state and
 version; and stop at any record and subscribe again from there.
 */
module Replay {
  import opened Changes
  import opened Core
  import opened Concurrency
  import opened Database
  import opened Dispatch
  import opened Keys
  import opened Log
  import opened Reads
  import opened Subscriptions
  import opened Text

  type Pair = (string, string)

  /// What a consumer holds after applying a list of changes.
  function Rebuild(xs: seq<ChangeRecord>): map<Pair, (string, nat)> {
    if xs == [] then map[]
    else
      var x := xs[|xs| - 1];
      Rebuild(xs[..|xs| - 1])[(x.entityId, x.machine) := (x.toState, x.version)]
  }

  function PairOf(e: Entry): Pair {
    (e.rec.entityId, e.rec.machine)
  }

  function Lasts(log: seq<Entry>): map<Pair, (string, nat)> {
    if log == [] then map[]
    else
      var e := log[|log| - 1];
      Lasts(log[..|log| - 1])[PairOf(e) := (e.rec.toState, e.rec.version)]
  }

  lemma {:induction false} RebuildIsLasts(log: seq<Entry>, n: nat)
    requires n <= |log|
    ensures Rebuild(Stream(log, None, 0, n)) == Lasts(log[..n])
  {
    if n > 0 {
      RebuildIsLasts(log, n - 1);
      var xs := Stream(log, None, 0, n - 1);
      assert Stream(log, None, 0, n) == xs + [Change(log[n - 1])];
      assert (xs + [Change(log[n - 1])])[..|xs|] == xs;
      assert log[..n][..n - 1] == log[..n - 1];
    }
  }

  /// State and version of a pair according to the projection.
  function Projected(t: Tables, pair: Pair): Option<(string, nat)> {
    match GetEntityState(t, pair.0, pair.1)
    case None => None
    case Some(row) => Some((row.currentState, row.version))
  }

  function Held(m: map<Pair, (string, nat)>, pair: Pair): Option<(string, nat)> {
    if pair in m then Some(m[pair]) else None
  }

  function LastOf(es: seq<Entry>): Option<(string, nat)> {
    if es == [] then None else Some((es[|es| - 1].rec.toState, es[|es| - 1].rec.version))
  }

  lemma ProjectedIsLast(t: Tables, log: seq<Entry>, pair: Pair)
    requires StatesAgree(t, log)
    ensures Projected(t, pair) == LastOf(ForKey(log, StateKey(pair.0, pair.1)))
  {
    var key := StateKey(pair.0, pair.1);
    assert RowAgrees(t.entityStates, log, key);
    assert Chained(ForKey(log, key));
  }

  /// Without separators in the ids, a key's entries are a pair's entries.
  lemma {:induction false} LastsByKey(log: seq<Entry>, pair: Pair)
    requires PairsNulFree(log)
    ensures Held(Lasts(log), pair) == LastOf(ForKey(log, StateKey(pair.0, pair.1)))
  {
    if log != [] {
      var front, e := log[..|log| - 1], log[|log| - 1];
      LastsByKey(front, pair);
      if KeyOf(e) == StateKey(pair.0, pair.1) {
        OnlyOneNul(e.rec.entityId, e.rec.machine, pair.0, pair.1);
      }
    }
  }

  lemma {:induction false} LastsWitness(log: seq<Entry>, pair: Pair)
    requires pair in Lasts(log)
    ensures exists e :: e in log && PairOf(e) == pair && Lasts(log)[pair] == (e.rec.toState, e.rec.version)
  {
    var front, last := log[..|log| - 1], log[|log| - 1];
    assert last in log;
    if PairOf(last) != pair {
      LastsWitness(front, pair);
      var e :| e in front && PairOf(e) == pair && Lasts(front)[pair] == (e.rec.toState, e.rec.version);
      assert e in log;
    }
  }

  /// Versions of one key are distinct, so two pairs cannot both hold the same one.
  lemma LastVersionOnce(log: seq<Entry>, p: Pair, q: Pair)
    requires StateKey(p.0, p.1) == StateKey(q.0, q.1)
    requires Chained(ForKey(log, StateKey(p.0, p.1)))
    requires p in Lasts(log) && q in Lasts(log) && Lasts(log)[p].1 == Lasts(log)[q].1
    ensures p == q
  {
    var key := StateKey(p.0, p.1);
    var es := ForKey(log, key);
    ForKeyMembers(log, key);
    LastsWitness(log, p);
    LastsWitness(log, q);
    var a :| a in log && PairOf(a) == p && Lasts(log)[p] == (a.rec.toState, a.rec.version);
    var b :| b in log && PairOf(b) == q && Lasts(log)[q] == (b.rec.toState, b.rec.version);
    var i :| 0 <= i < |es| && es[i] == a;
    var j :| 0 <= j < |es| && es[j] == b;
    assert i + 1 == a.rec.version && j + 1 == b.rec.version;
  }

  lemma SharedKeyDisagrees(t: Tables, log: seq<Entry>, p: Pair, q: Pair)
    requires StatesAgree(t, log) && p != q && StateKey(p.0, p.1) == StateKey(q.0, q.1)
    requires ForKey(log, StateKey(p.0, p.1)) != []
    ensures Held(Lasts(log), p) != Projected(t, p) || Held(Lasts(log), q) != Projected(t, q)
  {
    ProjectedIsLast(t, log, p);
    ProjectedIsLast(t, log, q);
    assert RowAgrees(t.entityStates, log, StateKey(p.0, p.1));
    if Held(Lasts(log), p) == Projected(t, p) && Held(Lasts(log), q) == Projected(t, q) {
      LastVersionOnce(log, p, q);
    }
  }

  lemma LogHasKey(log: seq<Entry>, i: nat)
    requires i < |log|
    ensures ForKey(log, KeyOf(log[i])) != []
  {
    ForKeyMembers(log, KeyOf(log[i]));
    assert log[i] in log;
  }

  ghost predicate Rebuilt(m: map<Pair, (string, nat)>, t: Tables) {
    forall pair :: Held(m, pair) == Projected(t, pair)
  }

  lemma NulFreeRebuilds(t: Tables, log: seq<Entry>)
    requires StatesAgree(t, log) && PairsNulFree(log)
    ensures Rebuilt(Lasts(log), t)
  {
    forall pair
      ensures Held(Lasts(log), pair) == Projected(t, pair)
    {
      ProjectedIsLast(t, log, pair);
      LastsByKey(log, pair);
    }
  }

  lemma NulSpoils(t: Tables, log: seq<Entry>, i: nat)
    requires StatesAgree(t, log) && i < |log|
    requires !(NulFree(log[i].rec.entityId) && NulFree(log[i].rec.machine))
    ensures !Rebuilt(Lasts(log), t)
  {
    var p := PairOf(log[i]);
    StateKeyOwnedExactly(p.0, p.1);
    var e, m :| StateKey(e, m) == StateKey(p.0, p.1) && !(e == p.0 && m == p.1);
    LogHasKey(log, i);
    SharedKeyDisagrees(t, log, p, (e, m));
  }

  lemma LastsRebuild(t: Tables, log: seq<Entry>)
    requires StatesAgree(t, log)
    ensures Rebuilt(Lasts(log), t) <==> PairsNulFree(log)
  {
    if PairsNulFree(log) {
      NulFreeRebuilds(t, log);
    } else {
      var i :| 0 <= i < |log| && !(NulFree(log[i].rec.entityId) && NulFree(log[i].rec.machine));
      NulSpoils(t, log, i);
    }
  }

  /// Replaying the complete unfiltered stream rebuilds the state and version of every
  /// pair exactly when no logged id contains a NUL.
  lemma ReplayRebuilds(t: Tables, log: seq<Entry>)
    requires Represents(t, log)
    ensures Rebuilt(Rebuild(Stream(log, None, 0, |log|)), t) <==> PairsNulFree(log)
  {
    RebuildIsLasts(log, |log|);
    assert log[..|log|] == log;
    LastsRebuild(t, log);
  }

  // ---- From the records received ------------------------------------------------------------

  /// Rebuilding does not look at effects.
  lemma {:induction false} RebuildIgnoresEffects(whole: seq<bool>, xs: seq<ChangeRecord>, ys: seq<ChangeRecord>)
    requires Sent(whole, xs, ys)
    ensures Rebuild(xs) == Rebuild(ys)
  {
    if xs != [] {
      var n := |xs| - 1;
      assert Sent(whole[..n], xs[..n], ys[..n]);
      RebuildIgnoresEffects(whole[..n], xs[..n], ys[..n]);
      assert xs[n] == Kept(ys[n], whole[n]);
    }
  }

  /// A subscriber without filter that started at 0 and has caught up rebuilds the
  /// projection from what it was sent, whichever effects reads failed, exactly when no
  /// logged id contains a NUL.
  lemma SubscriberRebuilds(t: Tables, log: seq<Entry>, sub: Subscriber)
    requires Represents(t, log) && Delivered(log, sub) && sub.filter.None? && sub.startedAfter == 0 && sub.cursor == |log|
    ensures Rebuilt(Rebuild(sub.sent), t) <==> PairsNulFree(log)
  {
    ReplayRebuilds(t, log);
    assert Sent(sub.whole, sub.sent, Stream(log, None, 0, |log|));
    RebuildIgnoresEffects(sub.whole, sub.sent, Stream(log, None, 0, |log|));
  }

  /// In particular for any dispatcher fed by a run of concurrent calls.
  lemma RunRebuilds(cfg: Config, actions: seq<Action>, events: seq<Event>, sub: Subscriber)
    requires Legal(events) && Live(After(events), sub) && After(events).log == Run(cfg, actions).past.log
    requires sub.filter.None? && sub.startedAfter == 0 && sub.cursor == |After(events).log|
    ensures Rebuilt(Rebuild(sub.sent), Run(cfg, actions).tables) <==> PairsNulFree(Run(cfg, actions).past.log)
  {
    StreamsAreExact(events);
    RunSnapshot(cfg, actions);
    SubscriberRebuilds(Run(cfg, actions).tables, After(events).log, sub);
  }

  // ---- Stopping and subscribing again ---------------------------------------------------------

  /// `xs` up to the record at `i` is the stream up to that record's sequence.
  ghost predicate CutsAt(log: seq<Entry>, filter: Option<string>, a: nat, b: nat, xs: seq<ChangeRecord>, i: nat) {
    if i < |xs| && a < xs[i].sequence <= b <= |log| && Stream(log, filter, a, xs[i].sequence) == xs[..i + 1] then true else false
  }

  /// The stream up to the sequence of one of its records ends with that record.
  lemma {:induction false} StreamCut(log: seq<Entry>, filter: Option<string>, a: nat, b: nat, i: nat)
    requires Numbered(log) && b <= |log| && i < |Stream(log, filter, a, b)|
    ensures CutsAt(log, filter, a, b, Stream(log, filter, a, b), i)
  {
    var front, last := Stream(log, filter, a, b - 1), Emit(log[b - 1], filter);
    if i < |front| {
      StreamCut(log, filter, a, b - 1, i);
      CutFurther(log, filter, a, b - 1, front, last, i);
    } else {
      CutLast(log, filter, a, b, i);
    }
  }

  lemma CutFurther(log: seq<Entry>, filter: Option<string>, a: nat, c: nat, front: seq<ChangeRecord>, last: seq<ChangeRecord>, i: nat)
    requires c < |log| && CutsAt(log, filter, a, c, front, i)
    ensures CutsAt(log, filter, a, c + 1, front + last, i)
  {
    TakeFront(front, last, i + 1);
  }

  lemma CutLast(log: seq<Entry>, filter: Option<string>, a: nat, b: nat, i: nat)
    requires Numbered(log) && a < b <= |log| && i == |Stream(log, filter, a, b - 1)| < |Stream(log, filter, a, b)|
    ensures CutsAt(log, filter, a, b, Stream(log, filter, a, b), i)
  {
    var xs := Stream(log, filter, a, b);
    assert xs[i] == Change(log[b - 1]) && xs[..i + 1] == xs;
  }

  lemma TakeFront<T>(a: seq<T>, b: seq<T>, n: nat)
    requires n <= |a|
    ensures (a + b)[..n] == a[..n] && (n > 0 ==> (a + b)[n - 1] == a[n - 1])
  {
  }

  lemma SentCut(whole: seq<bool>, xs: seq<ChangeRecord>, ys: seq<ChangeRecord>, n: nat)
    requires Sent(whole, xs, ys) && n <= |xs|
    ensures Sent(whole[..n], xs[..n], ys[..n])
  {
  }

  /// What a subscriber had been sent up to and including its record at `i`.
  function CutAt(sub: Subscriber, i: nat): Subscriber
    requires i < |sub.sent| == |sub.whole|
  {
    sub.(cursor := sub.sent[i].sequence, sent := sub.sent[..i + 1], whole := sub.whole[..i + 1])
  }

  lemma CutDelivered(log: seq<Entry>, sub: Subscriber, i: nat)
    requires Numbered(log) && |log| < U64_MAX && Delivered(log, sub) && i < |sub.sent|
    ensures |sub.whole| == |sub.sent| && sub.sent[i].sequence <= |log| && Delivered(log, CutAt(sub, i))
  {
    var a := Resume(sub.startedAfter);
    var ys := Stream(log, sub.filter, a, sub.cursor);
    assert sub.sent[i] == Kept(ys[i], sub.whole[i]);
    StreamCut(log, sub.filter, a, sub.cursor, i);
    SentCut(sub.whole, sub.sent, ys, i + 1);
  }

  /// What was received up to a record, followed by what a new subscription from that
  /// record's sequence delivers, is one uninterrupted delivery.
  lemma ResubscribingContinues(log: seq<Entry>, longer: seq<Entry>, sub: Subscriber, i: nat, later: Subscriber)
    requires Numbered(longer) && |longer| < U64_MAX && log <= longer
    requires Delivered(log, sub) && i < |sub.sent| == |sub.whole|
    requires Delivered(longer, later) && later.filter == sub.filter && later.startedAfter == sub.sent[i].sequence
    ensures Delivered(longer, sub.(cursor := later.cursor, sent := sub.sent[..i + 1] + later.sent, whole := sub.whole[..i + 1] + later.whole))
  {
    DeliveredGrows(log, longer, sub);
    CutDelivered(longer, sub, i);
    var cut := CutAt(sub, i);
    if later.sent == [] && later.whole == [] && later.cursor == later.startedAfter {
      assert cut.sent + later.sent == cut.sent && cut.whole + later.whole == cut.whole;
    } else {
      var a, q := Resume(sub.startedAfter), cut.cursor;
      StreamResumes(longer, sub.filter, a, q, later.cursor);
      SentMore(cut.whole, cut.sent, Stream(longer, sub.filter, a, q), later.whole, later.sent, Stream(longer, sub.filter, q, later.cursor));
    }
  }
}
