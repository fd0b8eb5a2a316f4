/**
 The dispatcher object, and what subscribers receive over whole runs: any mixture of
 commits, subscriptions, unsubscriptions and passes, fed by any run of concurrent calls.
 */
module Subscriptions {
  import opened Changes
  import opened Concurrency
  import opened Core
  import opened Database
  import opened Dispatch
  import opened Fanout
  import opened Interleaving
  import opened Linearizability
  import opened Log
  import opened Projection
  import opened Reads
  import opened Text

  /// Nothing sent yet, or exactly the filtered records after the position the
  /// subscription resumed from, up to its cursor; each with its effects unless the
  /// read made for that record went unanswered.
  ghost predicate Delivered(log: seq<Entry>, sub: Subscriber) {
    && sub.cursor <= U64_MAX
    && (|| (sub.cursor == sub.startedAfter && sub.sent == [] && sub.whole == [])
        || (Resume(sub.startedAfter) <= sub.cursor <= |log|
            && Sent(sub.whole, sub.sent, Stream(log, sub.filter, Resume(sub.startedAfter), sub.cursor))))
  }

  lemma DeliveredGrows(log: seq<Entry>, longer: seq<Entry>, sub: Subscriber)
    requires log <= longer && Delivered(log, sub)
    ensures Delivered(longer, sub)
  {
    if sub.cursor <= |log| {
      StreamStable(log, longer, sub.filter, Resume(sub.startedAfter), sub.cursor);
    }
  }

  lemma DeliveredContinues(log: seq<Entry>, sub: Subscriber, cursor: nat, whole: seq<bool>, sent: seq<ChangeRecord>)
    requires |log| < U64_MAX && cursor <= U64_MAX && Delivered(log, sub) && Advanced(log, sub, cursor, whole, sent)
    ensures Delivered(log, sub.(cursor := cursor, sent := sub.sent + sent, whole := sub.whole + whole))
  {
    if cursor == sub.cursor && sent == [] && whole == [] {
      assert sub.sent + sent == sub.sent && sub.whole + whole == sub.whole;
    } else if sub.cursor == sub.startedAfter && sub.sent == [] && sub.whole == [] {
      assert sub.sent + sent == sent && sub.whole + whole == whole;
    } else {
      StreamResumes(log, sub.filter, Resume(sub.startedAfter), sub.cursor, cursor);
      SentMore(sub.whole, sub.sent, Stream(log, sub.filter, Resume(sub.startedAfter), sub.cursor),
               whole, sent, Stream(log, sub.filter, sub.cursor, cursor));
    }
  }

  lemma Resplit<T>(a: seq<T>, b: seq<T>)
    requires a <= b
    ensures a + b[|a|..] == b
  {
  }

  /// A drain extends what was delivered by the next stretch of the stream.
  lemma DeliveredPasses(feed: nat -> Option<Tables>, logs: nat -> seq<Entry>, log: seq<Entry>, d: Drain)
    requires log <= logs(d.next) && |logs(d.next)| < U64_MAX && Delivered(log, d.before) && PassedOver(feed, logs, d) && !d.dead
    ensures Delivered(logs(d.next), d.sub)
  {
    DeliveredGrows(log, logs(d.next), d.before);
    DeliveredContinues(logs(d.next), d.before, d.sub.cursor, Answers(feed, d.asked), d.sub.sent[|d.before.sent|..]);
    Resplit(d.before.sent, d.sub.sent);
  }

  // ---- Runs ----------------------------------------------------------------------------

  /// The subscribers, the log, and the ids that the last pass found dead but has not
  /// removed yet: a pass gives up its read lock before it takes the write lock to prune.
  datatype Streams = Streams(subs: seq<Subscriber>, log: seq<Entry>, dying: seq<string>)

  datatype Event =
    | Committed(log: seq<Entry>)
    | Subscribed(id: string, filter: Option<string>, after: nat, closesAfter: Option<nat>)
    | Unsubscribed(id: string)
    | Drained(feed: nat -> Option<Tables>, logs: nat -> seq<Entry>, drains: seq<Drain>)
    | Pruned

  /// There is one dispatcher: it prunes before it drains again.
  ghost predicate Possible(s: Streams, e: Event) {
    match e
    case Committed(log) => s.log <= log
    case Subscribed(_, _, after, _) => after <= U64_MAX
    case Unsubscribed(_) => true
    case Drained(feed, logs, drains) =>
      s.dying == [] && FeedOk(feed, logs) && s.log <= logs(0) && AllPassedOver(feed, logs, s.subs, drains)
    case Pruned => true
  }

  function NewSubscriber(id: string, filter: Option<string>, after: nat, closesAfter: Option<nat>): Subscriber {
    Subscriber(id, filter, after, after, [], [], closesAfter)
  }

  function Next(s: Streams, e: Event): Streams {
    match e
    case Committed(log) => s.(log := log)
    case Subscribed(id, filter, after, closesAfter) => s.(subs := s.subs + [NewSubscriber(id, filter, after, closesAfter)])
    case Unsubscribed(id) => s.(subs := Retain(s.subs, [id]))
    case Drained(feed, logs, drains) => Streams(Drainees(drains), logs(ReadsMade(drains)), DeadIds(drains))
    case Pruned => s.(subs := Retain(s.subs, s.dying), dying := [])
  }

  function After(events: seq<Event>): Streams {
    if events == [] then Streams([], [], []) else Next(After(events[..|events| - 1]), events[|events| - 1])
  }

  ghost predicate Legal(events: seq<Event>) {
    events == [] || (Legal(events[..|events| - 1]) && Possible(After(events[..|events| - 1]), events[|events| - 1]))
  }

  /// Live: not about to be removed.
  predicate Live(s: Streams, sub: Subscriber) {
    sub in s.subs && sub.id !in s.dying
  }

  ghost predicate AllDelivered(s: Streams) {
    forall sub :: Live(s, sub) ==> Delivered(s.log, sub)
  }

  /// The dead among the drained are those whose id is to be removed.
  lemma {:induction false} DeadIdsOf(drains: seq<Drain>, i: nat)
    requires i < |drains| && drains[i].dead
    ensures drains[i].sub.id in DeadIds(drains)
  {
    if i < |drains| - 1 {
      DeadIdsOf(drains[..|drains| - 1], i);
    }
  }

  lemma SurvivorDelivered(s: Streams, feed: nat -> Option<Tables>, logs: nat -> seq<Entry>, drains: seq<Drain>, i: nat)
    requires AllDelivered(s) && s.dying == []
    requires FeedOk(feed, logs) && s.log <= logs(0) && AllPassedOver(feed, logs, s.subs, drains)
    requires i < |drains| && !drains[i].dead
    ensures Delivered(logs(ReadsMade(drains)), drains[i].sub)
  {
    var d := drains[i];
    PassedAt(feed, logs, s.subs, drains, i);
    assert Live(s, s.subs[i]);
    assert GrowsBetween(logs, 0, d.next) && GrowsBetween(logs, d.next, ReadsMade(drains)) && SnapshotOk(feed, logs, d.next);
    DeliveredPasses(feed, logs, s.log, d);
    DeliveredGrows(logs(d.next), logs(ReadsMade(drains)), d.sub);
  }

  lemma DrainDelivers(s: Streams, e: Event)
    requires AllDelivered(s) && e.Drained? && Possible(s, e)
    ensures AllDelivered(Next(s, e))
  {
    var s' := Next(s, e);
    forall sub | Live(s', sub)
      ensures Delivered(s'.log, sub)
    {
      var i :| 0 <= i < |e.drains| && Drainees(e.drains)[i] == sub;
      if e.drains[i].dead {
        DeadIdsOf(e.drains, i);
      }
      SurvivorDelivered(s, e.feed, e.logs, e.drains, i);
    }
  }

  lemma EventDelivers(s: Streams, e: Event)
    requires AllDelivered(s) && Possible(s, e)
    ensures AllDelivered(Next(s, e))
  {
    match e
    case Committed(log) =>
      forall sub | Live(Next(s, e), sub)
        ensures Delivered(log, sub)
      {
        assert Live(s, sub);
        DeliveredGrows(s.log, log, sub);
      }
    case Drained(_, _, _) => DrainDelivers(s, e);
    case Subscribed(id, filter, after, closesAfter) =>
      forall sub | Live(Next(s, e), sub)
        ensures Delivered(s.log, sub)
      {
        assert sub in s.subs ==> Live(s, sub);
      }
    case Unsubscribed(_) =>
      assert forall sub :: Live(Next(s, e), sub) ==> Live(s, sub);
    case Pruned =>
      assert forall sub :: Live(Next(s, e), sub) ==> Live(s, sub);
  }

  /// In every state of every run, what each live subscriber has been sent is exactly
  /// the machine-filtered log between where it started and its cursor, in order,
  /// without gap or repetition, whichever reads failed; and a record comes without its
  /// effects only if the read made for that very record went unanswered.
  lemma {:induction false} StreamsAreExact(events: seq<Event>)
    requires Legal(events)
    ensures AllDelivered(After(events))
  {
    if events != [] {
      StreamsAreExact(events[..|events| - 1]);
      EventDelivers(After(events[..|events| - 1]), events[|events| - 1]);
    }
  }

  // ---- Which records keep their effects --------------------------------------------------------

  lemma OwnRead(feed: nat -> Option<Tables>, first: nat, next: nat, r: nat, asked: seq<nat>, sent: seq<ChangeRecord>, i: nat)
    requires Rising(asked, first, next) && asked == Asked(first, r, sent) && i < |sent|
    ensures |Answers(feed, asked)| == |sent|
    ensures var k := ReadFor(first, r, i, sent[i].sequence);
            first <= k < next && Answers(feed, asked)[i] == feed(k).Some?
  {
    AskedAt(first, r, sent, i);
    AnswersAt(feed, asked);
    RisingMeans(asked, first, next);
  }

  lemma DrainFacts(feed: nat -> Option<Tables>, logs: nat -> seq<Entry>, d: Drain)
    requires PassedOver(feed, logs, d)
    ensures d.before.sent <= d.sub.sent && Rising(d.asked, d.first, d.next) && d.sub.whole == d.before.whole + Answers(feed, d.asked)
    ensures d.asked == Asked(d.first, Resume(d.before.cursor), d.sub.sent[|d.before.sent|..])
  {
  }

  /// A drain leaves its (i + 1)-st record without its effects exactly when the read that
  /// it made for this record went unanswered.
  lemma OwnReadDecides(feed: nat -> Option<Tables>, logs: nat -> seq<Entry>, d: Drain, i: nat, x: ChangeRecord)
    requires PassedOver(feed, logs, d) && d.before.sent <= d.sub.sent
    requires i < |d.sub.sent| - |d.before.sent| && x == d.sub.sent[|d.before.sent|..][i]
    ensures var k := ReadFor(d.first, Resume(d.before.cursor), i, x.sequence);
            && d.first <= k < d.next && |d.before.whole| + i < |d.sub.whole|
            && d.sub.whole[|d.before.whole| + i] == feed(k).Some?
  {
    DrainFacts(feed, logs, d);
    OwnRead(feed, d.first, d.next, Resume(d.before.cursor), d.asked, d.sub.sent[|d.before.sent|..], i);
  }

  predicate Whole(sub: Subscriber) {
    forall i :: 0 <= i < |sub.whole| ==> sub.whole[i]
  }

  /// Every read that a pass made for the effects of a record was answered.
  ghost predicate EffectsAnswered(e: Event) {
    e.Drained? ==> forall d, i :: d in e.drains && 0 <= i < |d.asked| ==> e.feed(d.asked[i]).Some?
  }

  lemma DrainKeepsWhole(feed: nat -> Option<Tables>, logs: nat -> seq<Entry>, d: Drain)
    requires PassedOver(feed, logs, d) && Whole(d.before) && forall i :: 0 <= i < |d.asked| ==> feed(d.asked[i]).Some?
    ensures Whole(d.sub)
  {
    AnswersAt(feed, d.asked);
  }

  lemma EventKeepsWhole(s: Streams, e: Event)
    requires Possible(s, e) && EffectsAnswered(e) && forall sub :: sub in s.subs ==> Whole(sub)
    ensures forall sub :: sub in Next(s, e).subs ==> Whole(sub)
  {
    if e.Drained? {
      forall sub | sub in Drainees(e.drains)
        ensures Whole(sub)
      {
        var i :| 0 <= i < |e.drains| && Drainees(e.drains)[i] == sub;
        PassedAt(e.feed, e.logs, s.subs, e.drains, i);
        DrainKeepsWhole(e.feed, e.logs, e.drains[i]);
      }
    }
  }

  lemma {:induction false} AllWhole(events: seq<Event>)
    requires Legal(events) && forall i :: 0 <= i < |events| ==> EffectsAnswered(events[i])
    ensures forall sub :: sub in After(events).subs ==> Whole(sub)
  {
    if events != [] {
      AllWhole(events[..|events| - 1]);
      EventKeepsWhole(After(events[..|events| - 1]), events[|events| - 1]);
    }
  }

  /// As long as every effects read is answered, what a live subscriber has been sent is
  /// the stream itself.
  lemma AnsweredStreams(events: seq<Event>, sub: Subscriber)
    requires Legal(events) && Live(After(events), sub) && forall i :: 0 <= i < |events| ==> EffectsAnswered(events[i])
    ensures var log := After(events).log;
            sub.sent == [] || (sub.cursor <= |log| && sub.sent == Stream(log, sub.filter, Resume(sub.startedAfter), sub.cursor))
  {
    StreamsAreExact(events);
    AllWhole(events);
    if sub.sent != [] {
      SentWhole(sub.whole, sub.sent, Stream(After(events).log, sub.filter, Resume(sub.startedAfter), sub.cursor));
    }
  }

  // ---- The dispatcher object ----------------------------------------------------------------

  /// `history` is what happened so far; every operation adds the events it performs.
  class Dispatcher {
    var subscribers: seq<Subscriber>
    ghost var history: seq<Event>

    ghost predicate Valid()
      reads this
    {
      Legal(history) && After(history).subs == subscribers
    }

    /// What `StreamsAreExact` means for a valid object.
    lemma Delivers()
      requires Valid()
      ensures forall sub :: sub in subscribers && sub.id !in After(history).dying ==> Delivered(After(history).log, sub)
    {
      StreamsAreExact(history);
      assert forall sub :: sub in subscribers && sub.id !in After(history).dying ==> Live(After(history), sub);
    }

    constructor ()
      ensures Valid() && subscribers == [] && history == []
    {
      subscribers, history := [], [];
    }

    ghost method Extend(e: Event)
      requires Valid() && Possible(After(history), e)
      modifies this`history
      ensures history == old(history) + [e] && Legal(history) && After(history) == Next(old(After(history)), e)
    {
      assert (history + [e])[..|history|] == history;
      history := history + [e];
    }

    method Subscribe(id: string, filter: Option<string>, afterSequence: nat, closesAfter: Option<nat>)
      requires Valid() && afterSequence <= U64_MAX
      modifies this
      ensures Valid() && history == old(history) + [Subscribed(id, filter, afterSequence, closesAfter)]
      ensures subscribers == old(subscribers) + [NewSubscriber(id, filter, afterSequence, closesAfter)]
    {
      Extend(Subscribed(id, filter, afterSequence, closesAfter));
      subscribers := subscribers + [Subscriber(id, filter, afterSequence, afterSequence, [], [], closesAfter)];
    }

    method Unsubscribe(id: string)
      requires Valid()
      modifies this
      ensures Valid() && history == old(history) + [Unsubscribed(id)] && subscribers == Retain(old(subscribers), [id])
    {
      Extend(Unsubscribed(id));
      subscribers := Retain(subscribers, [id]);
    }

    /// The first half of a pass, under the read lock: each subscriber is drained once.
    method FanOut(feed: nat -> Option<Tables>, ghost logs: nat -> seq<Entry>)
      returns (delivered: nat, dead: seq<string>, ghost drains: seq<Drain>)
      requires Valid() && After(history).dying == [] && FeedOk(feed, logs) && After(history).log <= logs(0)
      modifies this
      ensures Valid() && history == old(history) + [Drained(feed, logs, drains)]
      ensures AllPassedOver(feed, logs, old(subscribers), drains) && subscribers == Drainees(drains)
      ensures dead == DeadIds(drains) == After(history).dying
      ensures delivered == SentTotal(subscribers) - SentTotal(old(subscribers))
    {
      Delivers();
      forall i | 0 <= i < |subscribers|
        ensures subscribers[i].cursor <= U64_MAX
      {
        assert subscribers[i] in subscribers;
      }
      var done;
      done, dead, delivered, drains := DrainAll(subscribers, feed, logs);
      Extend(Drained(feed, logs, drains));
      subscribers := done;
    }

    /// The second half, under the write lock: whoever has the id of a subscriber found
    /// dead is removed, those subscribed in between included.
    method Prune(dead: seq<string>)
      requires Valid() && dead == After(history).dying
      modifies this
      ensures Valid() && history == old(history) + [Pruned] && subscribers == Retain(old(subscribers), dead)
      ensures After(history).dying == []
    {
      Extend(Pruned);
      if dead != [] {
        subscribers := Retain(subscribers, dead);
      } else {
        RetainAll(subscribers);
      }
    }

    /// A pass with nothing in between.
    method Pass(feed: nat -> Option<Tables>, ghost logs: nat -> seq<Entry>)
      returns (delivered: nat, ghost drains: seq<Drain>)
      requires Valid() && After(history).dying == [] && FeedOk(feed, logs) && After(history).log <= logs(0)
      modifies this
      ensures Valid() && After(history).dying == [] && history == old(history) + [Drained(feed, logs, drains)] + [Pruned]
      ensures AllPassedOver(feed, logs, old(subscribers), drains) && subscribers == Retain(Drainees(drains), DeadIds(drains))
      ensures delivered == SentTotal(Drainees(drains)) - SentTotal(old(subscribers))
    {
      var dead;
      delivered, dead, drains := FanOut(feed, logs);
      Prune(dead);
    }
  }

  // ---- Draining to the end ------------------------------------------------------------------

  /// A pass over a log that is not growing leaves a surviving subscriber's cursor at the
  /// end of the log, or where it was if that is already beyond it, unless its last read
  /// of the log failed.
  lemma PassReachesEnd(feed: nat -> Option<Tables>, logs: nat -> seq<Entry>, d: Drain)
    requires FeedOk(feed, logs) && PassedOver(feed, logs, d) && !d.dead && logs(d.first) == logs(d.next)
    requires feed(d.next - 1).Some? || d.next - 1 in d.asked
    ensures d.sub.cursor == if Resume(d.before.cursor) < |logs(d.next)| then |logs(d.next)| else d.before.cursor
  {
    assert SnapshotOk(feed, logs, d.next);
  }

  /// Draining a subscriber that is up to date sends nothing and changes nothing.
  lemma SecondPassIsIdle(feed: nat -> Option<Tables>, logs: nat -> seq<Entry>, d: Drain)
    requires PassedOver(feed, logs, d) && |logs(d.next)| <= Resume(d.before.cursor)
    ensures !d.dead && d.sub == d.before
  {
    Resplit(d.before.sent, d.sub.sent);
  }

  /// The count a pass reports is 0 if every subscriber was up to date.
  lemma {:induction false} IdlePassReportsZero(feed: nat -> Option<Tables>, logs: nat -> seq<Entry>, subs: seq<Subscriber>, drains: seq<Drain>)
    requires FeedOk(feed, logs) && AllPassedOver(feed, logs, subs, drains)
    requires forall i :: 0 <= i < |subs| ==> |logs(ReadsMade(drains))| <= Resume(subs[i].cursor)
    ensures Retain(Drainees(drains), DeadIds(drains)) == subs && SentTotal(Drainees(drains)) - SentTotal(subs) == 0
  {
    forall i | 0 <= i < |subs|
      ensures !drains[i].dead && drains[i].sub == subs[i]
    {
      PassedAt(feed, logs, subs, drains, i);
      assert GrowsBetween(logs, drains[i].next, ReadsMade(drains));
      SecondPassIsIdle(feed, logs, drains[i]);
    }
    assert Drainees(drains) == subs;
    NobodyDead(drains);
    RetainAll(subs);
  }

  lemma {:induction false} NobodyDead(drains: seq<Drain>)
    requires forall i :: 0 <= i < |drains| ==> !drains[i].dead
    ensures DeadIds(drains) == []
  {
    if drains != [] {
      NobodyDead(drains[..|drains| - 1]);
    }
  }

  // ---- The start of a subscription --------------------------------------------------------------

  /// A subscription delivers exactly the records after its starting sequence, unless
  /// that is the largest 64-bit number.
  lemma StartsWhereAsked(log: seq<Entry>, sub: Subscriber)
    requires Delivered(log, sub) && sub.startedAfter != U64_MAX
    ensures Sent(sub.whole, sub.sent, Stream(log, sub.filter, sub.startedAfter, if sub.cursor <= |log| then sub.cursor else |log|))
    ensures sub.startedAfter <= sub.cursor
  {
  }

  lemma OpenDrain(feed: nat -> Option<Tables>, logs: nat -> seq<Entry>, d: Drain)
    requires PassedOver(feed, logs, d) && d.before.closesAfter.None? && d.before.sent == [] && d.before.whole == []
    ensures !d.dead && Advanced(logs(d.next), d.before, d.sub.cursor, d.sub.whole, d.sub.sent)
  {
    assert d.sub.sent == d.sub.sent[0..] && d.sub.whole == Answers(feed, d.asked);
  }

  /// From the largest 64-bit number the stream starts over from the beginning.
  lemma LargestStartBeginsAgain(feed: nat -> Option<Tables>, logs: nat -> seq<Entry>, id: string, filter: Option<string>, d: Drain)
    requires FeedOk(feed, logs) && PassedOver(feed, logs, d) && d.before == NewSubscriber(id, filter, U64_MAX, None)
    requires logs(d.first) == logs(d.next) != [] && (feed(d.next - 1).Some? || d.next - 1 in d.asked)
    ensures d.sub.cursor == |logs(d.next)| && Sent(d.sub.whole, d.sub.sent, Stream(logs(d.next), filter, 0, |logs(d.next)|))
  {
    assert SnapshotOk(feed, logs, d.next);
    OpenDrain(feed, logs, d);
    PassReachesEnd(feed, logs, d);
  }

  // ---- Content of the stream ------------------------------------------------------------------------

  /// The entry at sequence `n` is of the machine asked for, if one was.
  predicate Wanted(log: seq<Entry>, filter: Option<string>, n: nat)
    requires 1 <= n <= |log|
  {
    filter.None? || log[n - 1].rec.machine == filter.value
  }

  /// The change record of a wanted entry in (a, b].
  ghost predicate FromStretch(log: seq<Entry>, filter: Option<string>, a: nat, b: nat, x: ChangeRecord) {
    a < x.sequence <= b <= |log| && Wanted(log, filter, x.sequence) && x == Change(log[x.sequence - 1])
  }

  predicate InSequence(xs: seq<ChangeRecord>) {
    forall i, j :: 0 <= i < j < |xs| ==> xs[i].sequence < xs[j].sequence
  }

  lemma AppendInSequence(xs: seq<ChangeRecord>, x: ChangeRecord)
    requires InSequence(xs) && forall y :: y in xs ==> y.sequence < x.sequence
    ensures InSequence(xs + [x])
  {
    assert forall i :: 0 <= i < |xs| ==> xs[i] in xs;
  }

  ghost predicate AllFromStretch(log: seq<Entry>, filter: Option<string>, a: nat, b: nat, xs: seq<ChangeRecord>) {
    if InSequence(xs) && (forall x :: x in xs ==> FromStretch(log, filter, a, b, x)) then true else false
  }

  lemma OneFurther(log: seq<Entry>, filter: Option<string>, a: nat, b: nat, xs: seq<ChangeRecord>)
    requires Numbered(log) && a <= b < |log| && AllFromStretch(log, filter, a, b, xs)
    ensures AllFromStretch(log, filter, a, b + 1, xs + Emit(log[b], filter))
  {
    var ys := xs + Emit(log[b], filter);
    forall x | x in xs
      ensures FromStretch(log, filter, a, b + 1, x) && x.sequence < b + 1
    {
      assert FromStretch(log, filter, a, b, x);
    }
    if Wanted(log, filter, b + 1) {
      assert FromStretch(log, filter, a, b + 1, Change(log[b]));
      AppendInSequence(xs, Change(log[b]));
    }
  }

  lemma {:induction false} StreamComesFrom(log: seq<Entry>, filter: Option<string>, a: nat, b: nat)
    requires Numbered(log) && b <= |log|
    ensures AllFromStretch(log, filter, a, b, Stream(log, filter, a, b))
  {
    if a < b {
      var xs := Stream(log, filter, a, b - 1);
      StreamComesFrom(log, filter, a, b - 1);
      OneFurther(log, filter, a, b - 1, xs);
      assert Stream(log, filter, a, b) == xs + Emit(log[b - 1], filter);
    }
  }

  lemma {:induction false} StreamHas(log: seq<Entry>, filter: Option<string>, a: nat, b: nat, x: ChangeRecord)
    requires FromStretch(log, filter, a, b, x)
    ensures x in Stream(log, filter, a, b)
  {
    if x.sequence < b {
      StreamHas(log, filter, a, b - 1, x);
    }
  }

  /// The stream has each wanted record of the stretch once, in increasing sequence.
  lemma StreamInSequence(log: seq<Entry>, filter: Option<string>, a: nat, b: nat)
    requires Numbered(log) && b <= |log|
    ensures InSequence(Stream(log, filter, a, b))
    ensures forall x :: x in Stream(log, filter, a, b) <==> FromStretch(log, filter, a, b, x)
  {
    StreamComesFrom(log, filter, a, b);
    forall x | FromStretch(log, filter, a, b, x)
      ensures x in Stream(log, filter, a, b)
    {
      StreamHas(log, filter, a, b, x);
    }
  }

  lemma DeclaredAt(s: State, i: nat)
    requires i < |s.past.log| && i < |s.origins| && LegalEntry(s, i) && OutboxAgrees(s.tables, s.past.log)
    ensures var def := s.past.machines[s.origins[i].at.machines][s.past.log[i].rec.machine];
            CarriesDeclared(Change(s.past.log[i]).effects, def, s.past.log[i].rec.event)
  {
    ChangeCarriesDeclared(s.tables, s.past.log, i + 1, s.past.machines[s.origins[i].at.machines][s.past.log[i].rec.machine]);
  }

  /// In every run of concurrent calls, the change record of every committed transition
  /// carries, as a multiset, exactly the effects its event declares in the definition
  /// the call used.
  lemma EffectsAsDeclared(cfg: Config, actions: seq<Action>, i: nat)
    requires i < |Run(cfg, actions).past.log|
    ensures var s := Run(cfg, actions);
            && i < |s.origins| && LegalEntry(s, i)
            && var def := s.past.machines[s.origins[i].at.machines][s.past.log[i].rec.machine];
               CarriesDeclared(Change(s.past.log[i]).effects, def, s.past.log[i].rec.event)
  {
    RunKeeps(cfg, actions);
    HistoriesAreLegal(cfg, actions);
    DeclaredAt(Run(cfg, actions), i);
  }

  // ---- Fed by a run of concurrent calls ---------------------------------------------------------------

  function UpTo(actions: seq<Action>, n: nat): seq<Action> {
    if n <= |actions| then actions[..n] else actions
  }

  /// The k-th read of the dispatcher happens after `cut(k)` steps of the run, and is
  /// answered if `ok(k)`.
  ghost function FeedOf(cfg: Config, actions: seq<Action>, cut: nat -> nat, ok: nat -> bool): nat -> Option<Tables> {
    (k: nat) => if ok(k) then Some(Run(cfg, UpTo(actions, cut(k))).tables) else None
  }

  ghost function LogsOf(cfg: Config, actions: seq<Action>, cut: nat -> nat): nat -> seq<Entry> {
    (k: nat) => Run(cfg, UpTo(actions, cut(k))).past.log
  }

  lemma LongerRun(cfg: Config, actions: seq<Action>, m: nat, n: nat)
    requires m <= n
    ensures Run(cfg, UpTo(actions, m)).past.log <= Run(cfg, UpTo(actions, n)).past.log
  {
    var a, b := UpTo(actions, m), UpTo(actions, n);
    assert b == a + b[|a|..];
    LogOnlyGrows(cfg, a, b[|a|..]);
  }

  lemma RunSnapshot(cfg: Config, actions: seq<Action>)
    ensures Represents(Run(cfg, actions).tables, Run(cfg, actions).past.log) && |Run(cfg, actions).past.log| < U64_MAX
  {
    RunKeeps(cfg, actions);
  }

  lemma FeedSnapshot(cfg: Config, actions: seq<Action>, cut: nat -> nat, ok: nat -> bool, k: nat)
    ensures SnapshotOk(FeedOf(cfg, actions, cut, ok), LogsOf(cfg, actions, cut), k)
  {
    RunSnapshot(cfg, UpTo(actions, cut(k)));
  }

  lemma FeedWithin(cfg: Config, actions: seq<Action>, cut: nat -> nat, k: nat)
    ensures LogsOf(cfg, actions, cut)(k) <= Run(cfg, actions).past.log
  {
    LongerRun(cfg, actions, cut(k), cut(k) + |actions|);
    assert UpTo(actions, cut(k) + |actions|) == actions;
  }

  /// Whenever its reads fall between the steps of a run, and whichever are answered,
  /// the run feeds the dispatcher as it expects, with prefixes of the run's log.
  lemma RunFeeds(cfg: Config, actions: seq<Action>, cut: nat -> nat, ok: nat -> bool)
    requires forall i, j :: i <= j ==> cut(i) <= cut(j)
    ensures FeedOk(FeedOf(cfg, actions, cut, ok), LogsOf(cfg, actions, cut))
    ensures forall k :: LogsOf(cfg, actions, cut)(k) <= Run(cfg, actions).past.log
  {
    var feed, logs := FeedOf(cfg, actions, cut, ok), LogsOf(cfg, actions, cut);
    forall k: nat
      ensures SnapshotOk(feed, logs, k)
    {
      FeedSnapshot(cfg, actions, cut, ok, k);
    }
    forall k: nat
      ensures logs(k) <= Run(cfg, actions).past.log
    {
      FeedWithin(cfg, actions, cut, k);
    }
    forall i: nat, j: nat
      ensures GrowsBetween(logs, i, j)
    {
      if i <= j {
        LongerRun(cfg, actions, cut(i), cut(j));
      }
    }
  }

  /// The event saw nothing but prefixes of the log.
  ghost predicate Within(log: seq<Entry>, e: Event) {
    match e
    case Committed(l) => l <= log
    case Drained(_, logs, _) => forall k :: logs(k) <= log
    case _ => true
  }

  ghost predicate AllWithin(log: seq<Entry>, events: seq<Event>) {
    if forall i :: 0 <= i < |events| ==> Within(log, events[i]) then true else false
  }

  lemma {:induction false} StaysWithin(log: seq<Entry>, events: seq<Event>)
    requires AllWithin(log, events)
    ensures After(events).log <= log
  {
    if events != [] {
      StaysWithin(log, events[..|events| - 1]);
    }
  }

  lemma SentComesFrom(log: seq<Entry>, sub: Subscriber, i: nat)
    requires Numbered(log) && Delivered(log, sub) && i < |sub.sent|
    ensures |sub.whole| == |sub.sent| && 1 <= sub.sent[i].sequence <= |log|
    ensures var e := log[sub.sent[i].sequence - 1];
            && Resume(sub.startedAfter) < sub.sent[i].sequence <= sub.cursor
            && Wanted(log, sub.filter, sub.sent[i].sequence) && sub.sent[i] == Kept(Change(e), sub.whole[i])
  {
    var ys := Stream(log, sub.filter, Resume(sub.startedAfter), sub.cursor);
    StreamComesFrom(log, sub.filter, Resume(sub.startedAfter), sub.cursor);
    assert ys[i] in ys && sub.sent[i] == Kept(ys[i], sub.whole[i]);
    assert FromStretch(log, sub.filter, Resume(sub.startedAfter), sub.cursor, ys[i]);
  }

  /// The change record says of each field what the log record says.
  predicate Tells(x: ChangeRecord, rec: TransitionRecord) {
    && x.sequence == rec.sequence && x.transitionId == rec.id && x.entityId == rec.entityId && x.machine == rec.machine
    && x.fromState == rec.fromState && x.toState == rec.toState && x.event == rec.event && x.actor == rec.actor
    && x.version == rec.version && x.timestamp == rec.timestamp && x.ctx == rec.ctx
  }

  /// What a subscriber was sent is a committed transition of the run that passes its
  /// filter, made by a rule of a definition stored while its call was under way; with
  /// exactly the effects that definition declares, unless the read made for this
  /// record went unanswered, in which case it has none.
  ghost predicate AsCommitted(s: State, sub: Subscriber, i: nat)
    requires i < |sub.sent|
  {
    var x := sub.sent[i];
    && |sub.whole| == |sub.sent| && 1 <= x.sequence <= |s.past.log| == |s.origins|
    && var n := x.sequence - 1;
       && Tells(x, s.past.log[n].rec) && (sub.filter.Some? ==> x.machine == sub.filter.value)
       && LegalEntry(s, n)
       && var def := s.past.machines[s.origins[n].at.machines][s.past.log[n].rec.machine];
          if sub.whole[i] then CarriesDeclared(x.effects, def, x.event) else x.effects == []
  }

  /// From the commit of a concurrent call to the record in a subscriber's channel.
  lemma DeliveredAsCommitted(cfg: Config, actions: seq<Action>, events: seq<Event>, sub: Subscriber, i: nat)
    requires Legal(events) && Live(After(events), sub) && i < |sub.sent|
    requires AllWithin(Run(cfg, actions).past.log, events)
    ensures AsCommitted(Run(cfg, actions), sub, i)
  {
    RunIsNumbered(cfg, actions);
    SentFromRun(Run(cfg, actions).past.log, events, sub, i);
    EffectsAsDeclared(cfg, actions, sub.sent[i].sequence - 1);
    HistoriesAreLegal(cfg, actions);
  }

  lemma RunIsNumbered(cfg: Config, actions: seq<Action>)
    ensures Numbered(Run(cfg, actions).past.log)
  {
    RunKeeps(cfg, actions);
    LogIsNumbered(Run(cfg, actions).tables, Run(cfg, actions).past.log);
  }

  lemma SentFromRun(log: seq<Entry>, events: seq<Event>, sub: Subscriber, i: nat)
    requires Numbered(log) && Legal(events) && Live(After(events), sub) && i < |sub.sent|
    requires AllWithin(log, events)
    ensures |sub.whole| == |sub.sent| && 1 <= sub.sent[i].sequence <= |log|
    ensures var e := log[sub.sent[i].sequence - 1];
            Wanted(log, sub.filter, sub.sent[i].sequence) && sub.sent[i] == Kept(Change(e), sub.whole[i])
  {
    StaysWithin(log, events);
    StreamsAreExact(events);
    DeliveredGrows(After(events).log, log, sub);
    SentComesFrom(log, sub, i);
  }

  // ---- The filter, record by record -------------------------------------------------------------------

  /// Exactly one of the records has sequence `n`.
  predicate Once(sent: seq<ChangeRecord>, n: nat) {
    exists i :: 0 <= i < |sent| && sent[i].sequence == n && forall j :: 0 <= j < |sent| && sent[j].sequence == n ==> j == i
  }

  /// Sent: only records of the machine asked for, from after the start up to the cursor.
  /// Missing: none of them, unless the subscription starts beyond the log.
  ghost predicate SentAsAsked(log: seq<Entry>, sub: Subscriber) {
    && (forall i :: 0 <= i < |sub.sent| ==>
          && Resume(sub.startedAfter) < sub.sent[i].sequence <= sub.cursor
          && (sub.filter.Some? ==> sub.sent[i].machine == sub.filter.value))
    && (if sub.cursor <= |log| then
          forall n :: Resume(sub.startedAfter) < n <= sub.cursor && Wanted(log, sub.filter, n) ==> Once(sub.sent, n)
        else sub.cursor == sub.startedAfter && sub.sent == [])
  }

  lemma SameSequence(whole: seq<bool>, xs: seq<ChangeRecord>, ys: seq<ChangeRecord>, j: nat)
    requires Sent(whole, xs, ys) && j < |xs|
    ensures |xs| == |ys| && xs[j].sequence == ys[j].sequence
  {
  }

  lemma OnceSent(whole: seq<bool>, xs: seq<ChangeRecord>, ys: seq<ChangeRecord>, x: ChangeRecord)
    requires Sent(whole, xs, ys) && InSequence(ys) && x in ys
    ensures Once(xs, x.sequence)
  {
    var n, i := x.sequence, 0;
    i := OwnIndex(ys, x);
    assert |xs| == |ys|;
    SameSequence(whole, xs, ys, i);
    forall j | 0 <= j < |xs| && xs[j].sequence == n
      ensures j == i
    {
      SameSequence(whole, xs, ys, j);
      AtMostOnce(ys, i, j);
    }
  }

  lemma OwnIndex(ys: seq<ChangeRecord>, x: ChangeRecord) returns (i: nat)
    requires x in ys
    ensures i < |ys| && ys[i] == x
  {
    i :| i < |ys| && ys[i] == x;
  }

  lemma AtMostOnce(ys: seq<ChangeRecord>, i: nat, j: nat)
    requires InSequence(ys) && i < |ys| && j < |ys| && ys[i].sequence == ys[j].sequence
    ensures i == j
  {
  }

  lemma WantedIsSent(log: seq<Entry>, sub: Subscriber, n: nat)
    requires Numbered(log) && |log| < U64_MAX && Delivered(log, sub)
    requires Resume(sub.startedAfter) < n <= sub.cursor <= |log| && Wanted(log, sub.filter, n)
    ensures Once(sub.sent, n)
  {
    var a, b := Resume(sub.startedAfter), sub.cursor;
    StreamInSequence(log, sub.filter, a, b);
    assert FromStretch(log, sub.filter, a, b, Change(log[n - 1]));
    OnceSent(sub.whole, sub.sent, Stream(log, sub.filter, a, b), Change(log[n - 1]));
  }

  lemma DeliveredAsAsked(log: seq<Entry>, sub: Subscriber)
    requires Numbered(log) && |log| < U64_MAX && Delivered(log, sub)
    ensures SentAsAsked(log, sub)
  {
    forall i | 0 <= i < |sub.sent|
      ensures Resume(sub.startedAfter) < sub.sent[i].sequence <= sub.cursor
      ensures sub.filter.Some? ==> sub.sent[i].machine == sub.filter.value
    {
      SentComesFrom(log, sub, i);
    }
    forall n | Resume(sub.startedAfter) < n <= sub.cursor <= |log| && Wanted(log, sub.filter, n)
      ensures Once(sub.sent, n)
    {
      WantedIsSent(log, sub, n);
    }
  }

  /// A live subscriber has been sent records of the machine it asked for and no others,
  /// and each such record of the run between its start and its cursor exactly once.
  lemma FilterDecides(cfg: Config, actions: seq<Action>, events: seq<Event>, sub: Subscriber)
    requires Legal(events) && Live(After(events), sub)
    requires AllWithin(Run(cfg, actions).past.log, events)
    ensures SentAsAsked(Run(cfg, actions).past.log, sub)
  {
    var log := Run(cfg, actions).past.log;
    RunIsNumbered(cfg, actions);
    RunSnapshot(cfg, actions);
    StaysWithin(log, events);
    StreamsAreExact(events);
    DeliveredGrows(After(events).log, log, sub);
    DeliveredAsAsked(log, sub);
  }
}
