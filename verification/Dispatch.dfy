/**
 Draining one subscriber of the change stream, in batches. Commits and outbox drains
 may happen between any two storage reads, and any read may fail.

 `feed(k)` is what the k-th read of a pass is answered from: a committed snapshot,
 or nothing if the read fails. `logs(k)` is the log at that time.
 */
module Dispatch {
  import opened Changes
  import opened Core
  import opened Database
  import opened Log
  import opened Reads
  import opened Scans
  import opened Text

  const BATCH := 256

  /// A subscriber, with the records handed to its channel so far. `whole` says of each
  /// whether the effects read made for it was answered. Its receiver goes away after
  /// `closesAfter` records, if ever.
  datatype Subscriber = Subscriber(
    id: string, filter: Option<string>, startedAfter: nat, cursor: nat,
    sent: seq<ChangeRecord>, whole: seq<bool>, closesAfter: Option<nat>)

  predicate Closed(sub: Subscriber, sent: nat) {
    sub.closesAfter.Some? && sub.closesAfter.value <= sent
  }

  /// After `n` records the receiver took `more`.
  predicate Accepted(sub: Subscriber, n: nat, more: nat) {
    more == 0 || sub.closesAfter.None? || n + more <= sub.closesAfter.value
  }

  /// The answer to a read is a snapshot of the tables at that time.
  ghost predicate SnapshotOk(feed: nat -> Option<Tables>, logs: nat -> seq<Entry>, k: nat) {
    |logs(k)| < U64_MAX && (feed(k).Some? ==> Represents(feed(k).value, logs(k)))
  }

  ghost predicate GrowsBetween(logs: nat -> seq<Entry>, i: nat, j: nat) {
    i <= j ==> logs(i) <= logs(j)
  }

  ghost predicate FeedOk(feed: nat -> Option<Tables>, logs: nat -> seq<Entry>) {
    (forall k :: SnapshotOk(feed, logs, k)) && (forall i, j :: GrowsBetween(logs, i, j))
  }

  /// What becomes of a record whose effects read was answered, or was not.
  function Kept(x: ChangeRecord, whole: bool): ChangeRecord {
    if whole then x else x.(effects := [])
  }

  /// `xs` is all of `ys` in order, each record with its effects unless the read made
  /// for that record went unanswered.
  predicate Sent(whole: seq<bool>, xs: seq<ChangeRecord>, ys: seq<ChangeRecord>) {
    if |xs| == |ys| == |whole| && (forall i :: 0 <= i < |xs| ==> xs[i] == Kept(ys[i], whole[i])) then true else false
  }

  lemma SentMore(whole: seq<bool>, xs: seq<ChangeRecord>, ys: seq<ChangeRecord>,
                 whole': seq<bool>, xs': seq<ChangeRecord>, ys': seq<ChangeRecord>)
    requires Sent(whole, xs, ys) && Sent(whole', xs', ys')
    ensures Sent(whole + whole', xs + xs', ys + ys')
  {
  }

  /// If every effects read was answered, what was sent is the stream itself.
  lemma SentWhole(whole: seq<bool>, xs: seq<ChangeRecord>, ys: seq<ChangeRecord>)
    requires Sent(whole, xs, ys) && forall i :: 0 <= i < |whole| ==> whole[i]
    ensures xs == ys
  {
  }

  /// Which of the reads were answered.
  function Answers(feed: nat -> Option<Tables>, asked: seq<nat>): seq<bool> {
    if asked == [] then [] else Answers(feed, asked[..|asked| - 1]) + [feed(asked[|asked| - 1]).Some?]
  }

  /// Distinct reads, in order, among those numbered from `lo` up to `hi`.
  predicate Rising(asked: seq<nat>, lo: nat, hi: nat) {
    asked == [] || (lo <= asked[|asked| - 1] < hi && Rising(asked[..|asked| - 1], lo, asked[|asked| - 1]))
  }

  lemma {:induction false} RisingMeans(asked: seq<nat>, lo: nat, hi: nat)
    requires Rising(asked, lo, hi)
    ensures forall i :: 0 <= i < |asked| ==> lo <= asked[i] < hi
    ensures forall i, j :: 0 <= i < j < |asked| ==> asked[i] < asked[j]
  {
    if asked != [] {
      RisingMeans(asked[..|asked| - 1], lo, asked[|asked| - 1]);
    }
  }

  lemma {:induction false} AnswersAt(feed: nat -> Option<Tables>, asked: seq<nat>)
    ensures |Answers(feed, asked)| == |asked|
    ensures forall i :: 0 <= i < |asked| ==> Answers(feed, asked)[i] == feed(asked[i]).Some?
  {
    if asked != [] {
      AnswersAt(feed, asked[..|asked| - 1]);
    }
  }

  /// `whole` notes the fate of the reads `asked`, one for each record.
  ghost predicate Noted(feed: nat -> Option<Tables>, asked: seq<nat>, lo: nat, hi: nat, whole: seq<bool>) {
    Rising(asked, lo, hi) && whole == Answers(feed, asked)
  }

  lemma NotedOne(feed: nat -> Option<Tables>, asked: seq<nat>, lo: nat, k: nat, whole: seq<bool>)
    requires Noted(feed, asked, lo, k, whole) && lo <= k
    ensures Noted(feed, asked + [k], lo, k + 1, whole + [feed(k).Some?]) && Noted(feed, asked, lo, k + 1, whole)
  {
    assert (asked + [k])[..|asked|] == asked;
  }

  lemma {:induction false} NotedMore(feed: nat -> Option<Tables>, asked: seq<nat>, lo: nat, mid: nat, whole: seq<bool>,
                                     mid': nat, hi: nat, asked': seq<nat>, whole': seq<bool>)
    requires Noted(feed, asked, lo, mid, whole) && Noted(feed, asked', mid', hi, whole') && lo <= mid <= mid' <= hi
    ensures Noted(feed, asked + asked', lo, hi, whole + whole')
    decreases |asked'|
  {
    if asked' == [] {
      assert asked + asked' == asked && whole + whole' == whole;
    } else {
      var n := |asked'| - 1;
      var last := asked'[n];
      NotedMore(feed, asked, lo, mid, whole, mid', last, asked'[..n], Answers(feed, asked'[..n]));
      NotedOne(feed, asked + asked'[..n], lo, last, whole + Answers(feed, asked'[..n]));
      assert asked + asked' == asked + asked'[..n] + [last];
      assert whole + whole' == whole + Answers(feed, asked'[..n]) + [feed(last).Some?];
      NotedLater(feed, asked + asked', lo, last + 1, hi, whole + whole');
    }
  }

  lemma NotedLater(feed: nat -> Option<Tables>, asked: seq<nat>, lo: nat, hi: nat, hi': nat, whole: seq<bool>)
    requires Noted(feed, asked, lo, hi, whole) && hi <= hi'
    ensures Noted(feed, asked, lo, hi', whole)
  {
  }

  lemma NotAsked(asked: seq<nat>, lo: nat, k: nat)
    requires Rising(asked, lo, k)
    ensures k !in asked
  {
    RisingMeans(asked, lo, k);
  }

  // ---- One batch ------------------------------------------------------------------

  /// The change record as built from one effects read.
  method BuildChange(rec: TransitionRecord, snapshot: Option<Tables>) returns (change: ChangeRecord)
    ensures change == MakeChange(rec, if snapshot.Some? then Payloads(EffectsRead(snapshot.value, rec.id)) else [])
  {
    var effects := [];
    if snapshot.Some? {
      effects := ScanEffects(snapshot.value, rec.id);
    }
    change := MakeChange(rec, Payloads(effects));
  }

  lemma BuiltWhole(t: Tables, log: seq<Entry>, i: nat)
    requires Represents(t, log) && i < |log|
    ensures MakeChange(log[i].rec, Payloads(EffectsRead(t, log[i].rec.id))) == Change(log[i])
  {
    EffectsReadBack(t, log, i + 1);
  }

  lemma BuiltWithout(e: Entry)
    ensures MakeChange(e.rec, []) == Change(e).(effects := [])
  {
  }

  lemma BuiltChange(feed: nat -> Option<Tables>, logs: nat -> seq<Entry>, k: nat, log: seq<Entry>, i: nat, change: ChangeRecord)
    requires FeedOk(feed, logs) && log <= logs(k) && i < |log|
    requires change == MakeChange(log[i].rec, if feed(k).Some? then Payloads(EffectsRead(feed(k).value, log[i].rec.id)) else [])
    ensures change == Kept(Change(log[i]), feed(k).Some?)
  {
    assert SnapshotOk(feed, logs, k);
    if feed(k).Some? {
      assert logs(k)[i] == log[i];
      BuiltWhole(feed(k).value, logs(k), i);
    } else {
      BuiltWithout(log[i]);
    }
  }

  /// `n` reads in a row.
  function Count(start: nat, n: nat): seq<nat> {
    if n == 0 then [] else Count(start, n - 1) + [start + n - 1]
  }

  /// What the inner loop has to show for the records up to position `q`: one read for
  /// each record sent, in a row.
  ghost predicate Streamed(feed: nat -> Option<Tables>, start: nat, k: nat, asked: seq<nat>, whole: seq<bool>,
                           log: seq<Entry>, filter: Option<string>, p: nat, q: nat, sent: seq<ChangeRecord>) {
    if && start <= k && Noted(feed, asked, start, k, whole) && asked == Count(start, |sent|)
       && p <= q <= |log| && Sent(whole, sent, Stream(log, filter, p, q))
    then true else false
  }

  /// One record: passed over, sent, or refused.
  method SendOne(sub: Subscriber, rec: TransitionRecord, alreadySent: nat, sent: seq<ChangeRecord>, whole: seq<bool>,
                 feed: nat -> Option<Tables>, k: nat, ghost logs: nat -> seq<Entry>, ghost start: nat, ghost asked: seq<nat>,
                 ghost log: seq<Entry>, ghost p: nat, ghost q: nat)
    returns (sent': seq<ChangeRecord>, whole': seq<bool>, k': nat, dead: bool, ghost asked': seq<nat>)
    requires FeedOk(feed, logs) && log <= logs(start) && q < |log| && rec == log[q].rec
    requires Streamed(feed, start, k, asked, whole, log, sub.filter, p, q, sent) && k == start + |sent|
    requires Accepted(sub, alreadySent, |sent|)
    ensures Streamed(feed, start, k', asked', whole', log, sub.filter, p, if dead then q else q + 1, sent')
    ensures Accepted(sub, alreadySent, |sent'|)
    ensures k' == start + |sent'| + if dead then 1 else 0
    ensures dead ==> Passes(sub.filter, log[q].rec.machine) && Closed(sub, alreadySent + |sent'|)
  {
    sent', whole', k', dead, asked' := sent, whole, k, false, asked;
    if !Passes(sub.filter, rec.machine) {
      BatchSkip(feed, start, k, asked, whole, log, sub.filter, p, q, sent);
      return;
    }
    var change := BuildChange(rec, feed(k));
    BatchStep(feed, logs, start, k, asked, whole, log, sub.filter, p, q, sent, change);
    k' := k + 1;
    if Closed(sub, alreadySent + |sent|) {
      dead := true;
    } else {
      sent', whole', asked' := sent + [change], whole + [feed(k).Some?], asked + [k];
    }
  }

  ghost predicate BatchOf(log: seq<Entry>, records: seq<TransitionRecord>, p: nat) {
    p + |records| <= |log| && forall i :: 0 <= i < |records| ==> records[i] == log[p + i].rec
  }

  lemma RecordAt(log: seq<Entry>, records: seq<TransitionRecord>, p: nat, i: nat)
    requires Numbered(log) && i < |records| && p + |records| <= |log| && BatchOf(log, records, p)
    ensures records[i] == log[p + i].rec && records[i].sequence == p + i + 1
  {
  }

  /// The inner loop: the records of one batch, which sit at position `p` of the log.
  method SendBatch(sub: Subscriber, records: seq<TransitionRecord>, alreadySent: nat, feed: nat -> Option<Tables>, start: nat,
                   ghost logs: nat -> seq<Entry>, ghost log: seq<Entry>, ghost p: nat)
    returns (sent: seq<ChangeRecord>, whole: seq<bool>, cursor: nat, k: nat, dead: bool, ghost asked: seq<nat>)
    requires FeedOk(feed, logs) && log <= logs(start) && Numbered(log) && records != [] && BatchOf(log, records, p)
    ensures p < cursor <= p + |records| && (!dead ==> cursor == p + |records|)
    ensures Streamed(feed, start, k, asked, whole, log, sub.filter, p, if dead then cursor - 1 else cursor, sent)
    ensures k == start + |sent| + if dead then 1 else 0
    ensures dead ==> Passes(sub.filter, log[cursor - 1].rec.machine) && Closed(sub, alreadySent + |sent|)
    ensures Accepted(sub, alreadySent, |sent|)
  {
    sent, whole, cursor, k, dead, asked := [], [], records[0].sequence, start, false, [];
    ghost var q := p;
    for i := 0 to |records|
      invariant !dead && q == p + i && (i > 0 ==> cursor == q) && k == start + |sent| && Accepted(sub, alreadySent, |sent|)
      invariant Streamed(feed, start, k, asked, whole, log, sub.filter, p, q, sent)
    {
      RecordAt(log, records, p, i);
      cursor := records[i].sequence;
      sent, whole, k, dead, asked := SendOne(sub, records[i], alreadySent, sent, whole, feed, k, logs, start, asked, log, p, q);
      if dead {
        return;
      }
      q := q + 1;
    }
  }

  lemma BatchSkip(feed: nat -> Option<Tables>, start: nat, k: nat, asked: seq<nat>, whole: seq<bool>, log: seq<Entry>,
                  filter: Option<string>, p: nat, q: nat, sent: seq<ChangeRecord>)
    requires q < |log| && !Passes(filter, log[q].rec.machine) && Streamed(feed, start, k, asked, whole, log, filter, p, q, sent)
    ensures Streamed(feed, start, k, asked, whole, log, filter, p, q + 1, sent)
  {
    assert Stream(log, filter, p, q + 1) == Stream(log, filter, p, q);
  }

  lemma BatchStep(feed: nat -> Option<Tables>, logs: nat -> seq<Entry>, start: nat, k: nat, asked: seq<nat>, whole: seq<bool>,
                  log: seq<Entry>, filter: Option<string>, p: nat, q: nat, sent: seq<ChangeRecord>, change: ChangeRecord)
    requires FeedOk(feed, logs) && log <= logs(start) && q < |log| && Passes(filter, log[q].rec.machine)
    requires Streamed(feed, start, k, asked, whole, log, filter, p, q, sent) && k == start + |sent|
    requires change == MakeChange(log[q].rec, if feed(k).Some? then Payloads(EffectsRead(feed(k).value, log[q].rec.id)) else [])
    ensures Streamed(feed, start, k + 1, asked, whole, log, filter, p, q, sent)
    ensures Streamed(feed, start, k + 1, asked + [k], whole + [feed(k).Some?], log, filter, p, q + 1, sent + [change])
  {
    LaterLog(feed, logs, start, k, log);
    BuiltChange(feed, logs, k, log, q, change);
    NotedOne(feed, asked, start, k, whole);
    SentMore(whole, sent, Stream(log, filter, p, q), [feed(k).Some?], [change], [Change(log[q])]);
  }

  lemma LaterLog(feed: nat -> Option<Tables>, logs: nat -> seq<Entry>, start: nat, k: nat, log: seq<Entry>)
    requires FeedOk(feed, logs) && log <= logs(start) && start <= k
    ensures log <= logs(k)
  {
    assert GrowsBetween(logs, start, k);
  }

  // ---- One subscriber --------------------------------------------------------------

  /// What draining a subscriber may have done by the time the log is `log`: nothing,
  /// or sent the stretch of the stream from where it resumed up to its new cursor.
  ghost predicate Advanced(log: seq<Entry>, sub: Subscriber, cursor: nat, whole: seq<bool>, sent: seq<ChangeRecord>) {
    || (cursor == sub.cursor && sent == [] && whole == [])
    || (Resume(sub.cursor) < cursor <= |log| && Sent(whole, sent, Stream(log, sub.filter, Resume(sub.cursor), cursor)))
  }

  /// A send that failed: everything before the record at the cursor was sent, that
  /// record was refused because the receiver is gone.
  ghost predicate Refused(log: seq<Entry>, sub: Subscriber, cursor: nat, whole: seq<bool>, sent: seq<ChangeRecord>) {
    && Resume(sub.cursor) < cursor <= |log|
    && Sent(whole, sent, Stream(log, sub.filter, Resume(sub.cursor), cursor - 1))
    && Passes(sub.filter, log[cursor - 1].rec.machine) && Closed(sub, |sub.sent| + |sent|)
  }

  ghost predicate Ended(log: seq<Entry>, sub: Subscriber, cursor: nat, whole: seq<bool>, sent: seq<ChangeRecord>, refused: bool) {
    if refused then Refused(log, sub, cursor, whole, sent) else Advanced(log, sub, cursor, whole, sent)
  }

  lemma EndedStable(log: seq<Entry>, longer: seq<Entry>, sub: Subscriber, cursor: nat, whole: seq<bool>, sent: seq<ChangeRecord>, refused: bool)
    requires log <= longer && Ended(log, sub, cursor, whole, sent, refused)
    ensures Ended(longer, sub, cursor, whole, sent, refused)
  {
    if cursor <= |log| && (refused || Resume(sub.cursor) < cursor) {
      StreamStable(log, longer, sub.filter, Resume(sub.cursor), if refused then cursor - 1 else cursor);
    }
  }

  /// A further batch continues what was sent before it.
  lemma BatchContinues(log: seq<Entry>, sub: Subscriber, cursor: nat, whole: seq<bool>, sent: seq<ChangeRecord>,
                       next: nat, whole': seq<bool>, more: seq<ChangeRecord>)
    requires |log| < U64_MAX && Advanced(log, sub, cursor, whole, sent)
    requires Resume(cursor) <= next <= |log| && Sent(whole', more, Stream(log, sub.filter, Resume(cursor), next))
    ensures Resume(sub.cursor) <= Resume(cursor)
    ensures Sent(whole + whole', sent + more, Stream(log, sub.filter, Resume(sub.cursor), next))
  {
    if cursor == sub.cursor && sent == [] && whole == [] {
      assert sent + more == more && whole + whole' == whole';
    } else {
      StreamResumes(log, sub.filter, Resume(sub.cursor), cursor, next);
      SentMore(whole, sent, Stream(log, sub.filter, Resume(sub.cursor), cursor), whole', more, Stream(log, sub.filter, cursor, next));
    }
  }

  lemma BatchEnds(log: seq<Entry>, sub: Subscriber, cursor: nat, whole: seq<bool>, sent: seq<ChangeRecord>,
                  next: nat, whole': seq<bool>, more: seq<ChangeRecord>, refused: bool)
    requires |log| < U64_MAX && Advanced(log, sub, cursor, whole, sent) && Resume(cursor) < next <= |log|
    requires Sent(whole', more, Stream(log, sub.filter, Resume(cursor), if refused then next - 1 else next))
    requires refused ==> Passes(sub.filter, log[next - 1].rec.machine) && Closed(sub, |sub.sent| + |sent| + |more|)
    ensures Ended(log, sub, next, whole + whole', sent + more, refused)
  {
    BatchContinues(log, sub, cursor, whole, sent, if refused then next - 1 else next, whole', more);
  }

  /// The batch a read returns, in terms of the log it was answered from.
  lemma BatchIs(t: Tables, log: seq<Entry>, cursor: nat, records: seq<TransitionRecord>)
    requires Represents(t, log) && cursor <= U64_MAX && records == AfterRead(t, cursor, BATCH)
    ensures Numbered(log) && |log| < U64_MAX
    ensures records != [] ==> Resume(cursor) + |records| <= |log|
    ensures forall i :: 0 <= i < |records| ==> Resume(cursor) + i < |log| && records[i] == log[Resume(cursor) + i].rec
    ensures |records| < BATCH ==> |log| <= Resume(cursor) + |records|
    ensures |records| <= BATCH
  {
    LogIsNumbered(t, log);
    AfterReadIsTail(t, log, cursor, BATCH);
    RecordsAt(Tail(log, Resume(cursor)));
  }

  lemma BatchRead(feed: nat -> Option<Tables>, logs: nat -> seq<Entry>, k: nat, cursor: nat, records: seq<TransitionRecord>)
    requires FeedOk(feed, logs) && feed(k).Some? && cursor <= U64_MAX && records == AfterRead(feed(k).value, cursor, BATCH)
    ensures Numbered(logs(k)) && |logs(k)| < U64_MAX && |records| <= BATCH
    ensures records != [] ==> BatchOf(logs(k), records, Resume(cursor))
    ensures |records| < BATCH ==> |logs(k)| <= Resume(cursor) + |records|
  {
    assert SnapshotOk(feed, logs, k);
    BatchIs(feed(k).value, logs(k), cursor, records);
  }

  lemma LaterEnd(feed: nat -> Option<Tables>, logs: nat -> seq<Entry>, k: nat, k': nat, sub: Subscriber, cursor: nat,
                 whole: seq<bool>, sent: seq<ChangeRecord>, refused: bool)
    requires FeedOk(feed, logs) && k <= k' && Ended(logs(k), sub, cursor, whole, sent, refused)
    ensures logs(k) <= logs(k') && Ended(logs(k'), sub, cursor, whole, sent, refused)
  {
    assert GrowsBetween(logs, k, k');
    EndedStable(logs(k), logs(k'), sub, cursor, whole, sent, refused);
  }

  /// The read that a drain makes for the effects of its (i + 1)-st record: it comes after
  /// the reads for the records before it and after one read of the log for every batch
  /// begun so far. `r` is where the drain resumed.
  function ReadFor(first: nat, r: nat, i: nat, sequence: nat): int {
    first + i + 1 + (sequence - 1 - r) / BATCH
  }

  function Asked(first: nat, r: nat, sent: seq<ChangeRecord>): seq<int> {
    if sent == [] then []
    else
      var n := |sent| - 1;
      Asked(first, r, sent[..n]) + [ReadFor(first, r, n, sent[n].sequence)]
  }

  lemma {:induction false} AskedAt(first: nat, r: nat, sent: seq<ChangeRecord>, i: nat)
    requires i < |sent|
    ensures |Asked(first, r, sent)| == |sent| && Asked(first, r, sent)[i] == ReadFor(first, r, i, sent[i].sequence)
  {
    var n := |sent| - 1;
    if i < n {
      AskedAt(first, r, sent[..n], i);
    } else if n > 0 {
      AskedAt(first, r, sent[..n], n - 1);
    }
  }

  /// The batch with number `b` holds the next 256 records.
  predicate InBatch(r: nat, b: nat, x: ChangeRecord) {
    r + BATCH * b < x.sequence <= r + BATCH * b + BATCH
  }

  lemma InBatchRead(first: nat, r: nat, b: nat, i: nat, x: ChangeRecord)
    requires InBatch(r, b, x)
    ensures ReadFor(first, r, i, x.sequence) == first + i + 1 + b
  {
    assert (x.sequence - 1 - r) / BATCH == b;
  }

  lemma {:induction false} AskedMore(first: nat, r: nat, b: nat, sent: seq<ChangeRecord>, more: seq<ChangeRecord>)
    requires forall x :: x in more ==> InBatch(r, b, x)
    ensures Asked(first, r, sent + more) == Asked(first, r, sent) + Count(first + b + |sent| + 1, |more|)
  {
    if more == [] {
      assert sent + more == sent;
    } else {
      var n := |more| - 1;
      AskedMore(first, r, b, sent, more[..n]);
      assert (sent + more)[..|sent + more| - 1] == sent + more[..n];
      assert more[n] in more;
      InBatchRead(first, r, b, |sent| + n, more[n]);
    }
  }

  lemma {:induction false} StreamWithin(log: seq<Entry>, filter: Option<string>, a: nat, b: nat)
    requires Numbered(log) && b <= |log|
    ensures forall x :: x in Stream(log, filter, a, b) ==> a < x.sequence <= b
  {
    if a < b {
      StreamWithin(log, filter, a, b - 1);
    }
  }

  lemma SentInBatch(whole: seq<bool>, sent: seq<ChangeRecord>, log: seq<Entry>, filter: Option<string>, r: nat, b: nat, q: nat)
    requires Numbered(log) && q <= |log| && q <= r + BATCH * b + BATCH && Sent(whole, sent, Stream(log, filter, r + BATCH * b, q))
    ensures forall x :: x in sent ==> InBatch(r, b, x)
  {
    var ys := Stream(log, filter, r + BATCH * b, q);
    StreamWithin(log, filter, r + BATCH * b, q);
    forall x | x in sent
      ensures InBatch(r, b, x)
    {
      var i :| 0 <= i < |sent| && sent[i] == x;
      assert ys[i] in ys;
    }
  }

  /// Where a drain stands after `b` full batches.
  ghost predicate Paced(first: nat, k: nat, r: nat, b: nat, cursor: nat, asked: seq<nat>, sent: seq<ChangeRecord>) {
    if k == first + b + |sent| && Resume(cursor) == r + BATCH * b && asked == Asked(first, r, sent) then true else false
  }

  lemma PacedBatch(feed: nat -> Option<Tables>, log: seq<Entry>, filter: Option<string>, first: nat, k: nat, r: nat, b: nat, cursor: nat,
                   asked: seq<nat>, sent: seq<ChangeRecord>, k': nat, made: seq<nat>, answered: seq<bool>, q: nat, more: seq<ChangeRecord>)
    requires Numbered(log) && Paced(first, k, r, b, cursor, asked, sent) && q <= Resume(cursor) + BATCH
    requires Streamed(feed, k + 1, k', made, answered, log, filter, Resume(cursor), q, more)
    ensures asked + made == Asked(first, r, sent + more)
  {
    SentInBatch(answered, more, log, filter, r, b, q);
    AskedMore(first, r, b, sent, more);
  }

  /// What a drain has to show after its reads up to `k`.
  ghost predicate Draining(feed: nat -> Option<Tables>, logs: nat -> seq<Entry>, sub: Subscriber, first: nat, k: nat, cursor: nat,
                           whole: seq<bool>, sent: seq<ChangeRecord>, asked: seq<nat>, refused: bool) {
    if && first <= k && cursor <= U64_MAX && Noted(feed, asked, first, k, whole) && Accepted(sub, |sub.sent|, |sent|)
       && asked == Asked(first, Resume(sub.cursor), sent) && Ended(logs(k), sub, cursor, whole, sent, refused)
    then true else false
  }

  lemma DrainingLater(feed: nat -> Option<Tables>, logs: nat -> seq<Entry>, sub: Subscriber, first: nat, k: nat, cursor: nat,
                      whole: seq<bool>, sent: seq<ChangeRecord>, asked: seq<nat>)
    requires FeedOk(feed, logs) && Draining(feed, logs, sub, first, k, cursor, whole, sent, asked, false)
    ensures Draining(feed, logs, sub, first, k + 1, cursor, whole, sent, asked, false) && k !in asked && logs(k) <= logs(k + 1)
  {
    LaterEnd(feed, logs, k, k + 1, sub, cursor, whole, sent, false);
    NotedLater(feed, asked, first, k, k + 1, whole);
    NotAsked(asked, first, k);
  }

  lemma BatchSentOf(feed: nat -> Option<Tables>, start: nat, k: nat, asked: seq<nat>, whole: seq<bool>,
                    log: seq<Entry>, filter: Option<string>, p: nat, q: nat, sent: seq<ChangeRecord>)
    requires Streamed(feed, start, k, asked, whole, log, filter, p, q, sent)
    ensures p <= q <= |log| && Sent(whole, sent, Stream(log, filter, p, q)) && start <= k && Noted(feed, asked, start, k, whole)
  {
  }

  lemma DrainingSays(feed: nat -> Option<Tables>, logs: nat -> seq<Entry>, sub: Subscriber, first: nat, k: nat, cursor: nat,
                     whole: seq<bool>, sent: seq<ChangeRecord>, asked: seq<nat>)
    requires Draining(feed, logs, sub, first, k, cursor, whole, sent, asked, false)
    ensures first <= k && Noted(feed, asked, first, k, whole) && Advanced(logs(k), sub, cursor, whole, sent)
    ensures Accepted(sub, |sub.sent|, |sent|)
  {
  }

  lemma BatchAdds(feed: nat -> Option<Tables>, logs: nat -> seq<Entry>, sub: Subscriber, first: nat, k: nat, b: nat, cursor: nat,
                  whole: seq<bool>, sent: seq<ChangeRecord>, asked: seq<nat>,
                  k': nat, next: nat, answered: seq<bool>, more: seq<ChangeRecord>, made: seq<nat>, refused: bool)
    requires FeedOk(feed, logs) && Numbered(logs(k)) && |logs(k)| < U64_MAX
    requires Draining(feed, logs, sub, first, k, cursor, whole, sent, asked, false)
    requires Paced(first, k, Resume(sub.cursor), b, cursor, asked, sent)
    requires Resume(cursor) < next <= Resume(cursor) + BATCH && next <= |logs(k)|
    requires Streamed(feed, k + 1, k', made, answered, logs(k), sub.filter, Resume(cursor), if refused then next - 1 else next, more)
    requires refused ==> Passes(sub.filter, logs(k)[next - 1].rec.machine) && Closed(sub, |sub.sent| + |sent| + |more|)
    requires Accepted(sub, |sub.sent| + |sent|, |more|)
    ensures Draining(feed, logs, sub, first, k', next, whole + answered, sent + more, asked + made, refused)
  {
    var q := if refused then next - 1 else next;
    BatchSentOf(feed, k + 1, k', made, answered, logs(k), sub.filter, Resume(cursor), q, more);
    DrainingSays(feed, logs, sub, first, k, cursor, whole, sent, asked);
    assert asked + made == Asked(first, Resume(sub.cursor), sent + more) by {
      PacedBatch(feed, logs(k), sub.filter, first, k, Resume(sub.cursor), b, cursor, asked, sent, k', made, answered, q, more);
    }
    assert Noted(feed, asked + made, first, k', whole + answered) by {
      NotedMore(feed, asked, first, k, whole, k + 1, k', made, answered);
    }
    assert Ended(logs(k'), sub, next, whole + answered, sent + more, refused) by {
      BatchEnds(logs(k), sub, cursor, whole, sent, next, answered, more, refused);
      LaterEnd(feed, logs, k, k', sub, next, whole + answered, sent + more, refused);
    }
  }

  lemma FullBatchPaces(first: nat, k: nat, r: nat, b: nat, cursor: nat, asked: seq<nat>, sent: seq<ChangeRecord>,
                       k': nat, next: nat, asked': seq<nat>, more: seq<ChangeRecord>)
    requires Paced(first, k, r, b, cursor, asked, sent) && next == Resume(cursor) + BATCH < U64_MAX && k' == k + 1 + |more|
    requires asked' == Asked(first, r, sent + more)
    ensures Paced(first, k', r, b + 1, next, asked', sent + more)
  {
  }

  /// How a batch ended: a full batch means another read; a short one or a failed read
  /// ends the drain; a refused record ends it and marks the subscriber as dead.
  datatype BatchEnd = Full | Last | Failed | Gone

  method ReadBatch(cursor: nat, feed: nat -> Option<Tables>, k: nat, ghost logs: nat -> seq<Entry>) returns (records: seq<TransitionRecord>)
    requires FeedOk(feed, logs) && feed(k).Some? && cursor <= U64_MAX
    ensures Numbered(logs(k)) && |logs(k)| < U64_MAX && |records| <= BATCH
    ensures records != [] ==> BatchOf(logs(k), records, Resume(cursor))
    ensures |records| < BATCH ==> |logs(k)| <= Resume(cursor) + |records|
  {
    records := ScanAfter(feed(k).value, cursor, BATCH);
    BatchRead(feed, logs, k, cursor, records);
  }

  /// The records that one read of the log returned.
  method DrainRecords(sub: Subscriber, records: seq<TransitionRecord>, cursor: nat, whole: seq<bool>, sent: seq<ChangeRecord>,
                      feed: nat -> Option<Tables>, k: nat,
                      ghost logs: nat -> seq<Entry>, ghost start: nat, ghost asked: seq<nat>, ghost b: nat)
    returns (next: nat, whole': seq<bool>, sent': seq<ChangeRecord>, k': nat, refused: bool, ghost asked': seq<nat>)
    requires FeedOk(feed, logs) && Draining(feed, logs, sub, start, k, cursor, whole, sent, asked, false)
    requires Paced(start, k, Resume(sub.cursor), b, cursor, asked, sent) && logs(k) <= logs(k + 1)
    requires Numbered(logs(k)) && |logs(k)| < U64_MAX && 0 < |records| <= BATCH && BatchOf(logs(k), records, Resume(cursor))
    ensures k' > k && Draining(feed, logs, sub, start, k', next, whole', sent', asked', refused)
    ensures !refused ==> Resume(next) == Resume(cursor) + |records|
    ensures !refused && |records| == BATCH ==> Paced(start, k', Resume(sub.cursor), b + 1, next, asked', sent')
  {
    var more, answered;
    ghost var made;
    more, answered, next, k', refused, made := SendBatch(sub, records, |sub.sent| + |sent|, feed, k + 1, logs, logs(k), Resume(cursor));
    whole', sent', asked' := whole + answered, sent + more, asked + made;
    BatchAdds(feed, logs, sub, start, k, b, cursor, whole, sent, asked, k', next, answered, more, made, refused);
    if !refused && |records| == BATCH {
      FullBatchPaces(start, k, Resume(sub.cursor), b, cursor, asked, sent, k', next, asked', more);
    }
  }

  /// One read and the records it returned.
  method DrainBatch(sub: Subscriber, cursor: nat, whole: seq<bool>, sent: seq<ChangeRecord>, feed: nat -> Option<Tables>, k: nat,
                    ghost logs: nat -> seq<Entry>, ghost start: nat, ghost asked: seq<nat>, ghost b: nat)
    returns (next: nat, whole': seq<bool>, sent': seq<ChangeRecord>, k': nat, end: BatchEnd, ghost asked': seq<nat>)
    requires FeedOk(feed, logs) && Draining(feed, logs, sub, start, k, cursor, whole, sent, asked, false)
    requires Paced(start, k, Resume(sub.cursor), b, cursor, asked, sent)
    ensures k' > k && Draining(feed, logs, sub, start, k', next, whole', sent', asked', end.Gone?)
    ensures end.Full? ==> Resume(cursor) < Resume(next) && Paced(start, k', Resume(sub.cursor), b + 1, next, asked', sent')
    ensures end.Last? ==> |logs(k)| <= Resume(next)
    ensures end.Failed? ==> feed(k' - 1).None? && k' - 1 !in asked'
  {
    next, whole', sent', k', asked' := cursor, whole, sent, k + 1, asked;
    DrainingLater(feed, logs, sub, start, k, cursor, whole, sent, asked);
    if feed(k).None? {
      return next, whole', sent', k', BatchEnd.Failed, asked';
    }
    var records := ReadBatch(cursor, feed, k, logs);
    if records == [] {
      return next, whole', sent', k', Last, asked';
    }
    var refused;
    next, whole', sent', k', refused, asked' := DrainRecords(sub, records, cursor, whole, sent, feed, k, logs, start, asked, b);
    end := if refused then Gone else if |records| < BATCH then Last else Full;
  }

  /// How a drain went: what it made of which subscriber, whether its receiver is gone,
  /// the reads it used, and those among them it made for the effects of the records sent.
  datatype Drain = Drain(before: Subscriber, sub: Subscriber, dead: bool, first: nat, next: nat, asked: seq<nat>)

  /// It sends the next stretch of the stream and moves the cursor past it. It stops
  /// short of what was logged when it began only if the receiver is gone or its last
  /// read of the log failed. `Asked` says which read was made for which record. Nothing
  /// is sent to a receiver that is gone.
  ghost predicate PassedOver(feed: nat -> Option<Tables>, logs: nat -> seq<Entry>, d: Drain) {
    if && d.first < d.next && d.sub.cursor <= U64_MAX
       && d.sub == d.before.(cursor := d.sub.cursor, sent := d.sub.sent, whole := d.sub.whole)
       && d.before.sent <= d.sub.sent && d.sub.whole == d.before.whole + Answers(feed, d.asked) && Rising(d.asked, d.first, d.next)
       && d.asked == Asked(d.first, Resume(d.before.cursor), d.sub.sent[|d.before.sent|..])
       && Ended(logs(d.next), d.before, d.sub.cursor, Answers(feed, d.asked), d.sub.sent[|d.before.sent|..], d.dead)
       && (d.dead || |logs(d.first)| <= Resume(d.sub.cursor) || (feed(d.next - 1).None? && d.next - 1 !in d.asked))
       && Accepted(d.before, |d.before.sent|, |d.sub.sent| - |d.before.sent|)
    then true else false
  }

  lemma DrainDone(feed: nat -> Option<Tables>, logs: nat -> seq<Entry>, sub: Subscriber, first: nat, k: nat, cursor: nat,
                  whole: seq<bool>, sent: seq<ChangeRecord>, asked: seq<nat>, refused: bool)
    requires first < k && Draining(feed, logs, sub, first, k, cursor, whole, sent, asked, refused)
    requires refused || |logs(first)| <= Resume(cursor) || (feed(k - 1).None? && k - 1 !in asked)
    ensures PassedOver(feed, logs, Drain(sub, sub.(cursor := cursor, sent := sub.sent + sent, whole := sub.whole + whole), refused, first, k, asked))
  {
    var all := sub.sent + sent;
    assert all[|sub.sent|..] == sent && |all| - |sub.sent| == |sent|;
  }

  /// The drain loop of one subscriber.
  method DrainOne(sub: Subscriber, feed: nat -> Option<Tables>, start: nat, ghost logs: nat -> seq<Entry>)
    returns (sub': Subscriber, k: nat, delivered: nat, dead: bool, ghost asked: seq<nat>)
    requires FeedOk(feed, logs) && sub.cursor <= U64_MAX
    ensures PassedOver(feed, logs, Drain(sub, sub', dead, start, k, asked))
    ensures k > start && delivered == |sub'.sent| - |sub.sent|
  {
    var cursor: nat, whole, sent, end;
    cursor, whole, sent, k, end, asked := DrainBatch(sub, sub.cursor, [], [], feed, start, logs, start, [], 0);
    ghost var last, b := start, 0;
    while end.Full?
      invariant k > last >= start && Draining(feed, logs, sub, start, k, cursor, whole, sent, asked, end.Gone?)
      invariant end.Full? ==> Resume(cursor) <= U64_MAX && Paced(start, k, Resume(sub.cursor), b + 1, cursor, asked, sent)
      invariant end.Last? ==> |logs(last)| <= Resume(cursor)
      invariant end.Failed? ==> feed(k - 1).None? && k - 1 !in asked
      decreases if end.Full? then 1 + U64_MAX - Resume(cursor) else 0
    {
      last, b := k, b + 1;
      cursor, whole, sent, k, end, asked := DrainBatch(sub, cursor, whole, sent, feed, k, logs, start, asked, b);
    }
    dead := end.Gone?;
    assert GrowsBetween(logs, start, last);
    DrainDone(feed, logs, sub, start, k, cursor, whole, sent, asked, dead);
    sub' := sub.(cursor := cursor, sent := sub.sent + sent, whole := sub.whole + whole);
    delivered := |sent|;
  }
}
