/**
 The index scans of the storage engine, as functions of the tables, and their
 meaning as plain filters of the log.
 */
module Reads {
  import opened Core
  import opened Database
  import opened Keys
  import opened Log
  import opened Ordered
  import opened Text

  function Take<T>(s: seq<T>, n: nat): seq<T> {
    if |s| <= n then s else s[..n]
  }

  predicate BySequence(s: seq<TransitionRecord>) {
    forall i, j :: 0 <= i < j < |s| ==> s[i].sequence < s[j].sequence
  }

  /// A list in increasing sequence is determined by its members.
  lemma {:induction false} BySequenceUnique(a: seq<TransitionRecord>, b: seq<TransitionRecord>)
    requires BySequence(a) && BySequence(b)
    requires forall r :: r in a <==> r in b
    ensures a == b
  {
    assert a != [] ==> a[0] in a;
    assert b != [] ==> b[0] in b;
    if a != [] {
      assert a[0] == b[0];
      BySequenceTail(a);
      BySequenceTail(b);
      BySequenceUnique(a[1..], b[1..]);
      assert a == [a[0]] + a[1..] && b == [b[0]] + b[1..];
    }
  }

  lemma BySequenceTail(a: seq<TransitionRecord>)
    requires BySequence(a) && a != []
    ensures BySequence(a[1..])
    ensures forall r :: r in a[1..] <==> r in a && r != a[0]
  {
    forall r | r in a && r != a[0]
      ensures r in a[1..]
    {
      var i :| 0 <= i < |a| && a[i] == r;
      assert a[1..][i - 1] == r;
    }
  }

  /// Log entries carry their position, counted from 1.
  ghost predicate Numbered(log: seq<Entry>) {
    forall i :: 0 <= i < |log| ==> log[i].rec.sequence == i + 1
  }

  lemma LogIsNumbered(t: Tables, log: seq<Entry>)
    requires LogAgrees(t, log)
    ensures Numbered(log)
  {
    assert forall i :: 0 <= i < |log| ==> t.transitions[i + 1] == log[i].rec;
  }

  // ---- History -----------------------------------------------------------------

  predicate OfPair(rec: TransitionRecord, entity: string, machine: string) {
    rec.entityId == entity && rec.machine == machine
  }

  /// The specification: the pair's records after a sequence number, in log order.
  function History(log: seq<Entry>, entity: string, machine: string, after: nat): seq<TransitionRecord> {
    if log == [] then []
    else
      var front, rec := log[..|log| - 1], log[|log| - 1].rec;
      History(front, entity, machine, after)
      + if OfPair(rec, entity, machine) && rec.sequence > after then [rec] else []
  }

  /// No logged id contains the separator.
  predicate PairsNulFree(log: seq<Entry>) {
    forall i :: 0 <= i < |log| ==> NulFree(log[i].rec.entityId) && NulFree(log[i].rec.machine)
  }

  predicate Hit(t: Tables, key: string, prefix: string, after: nat) {
    && prefix <= key && key in t.entityTransitions && t.entityTransitions[key] > after
    && t.entityTransitions[key] in t.transitions
  }

  function HitRecord(t: Tables, key: string, prefix: string, after: nat): TransitionRecord
    requires Hit(t, key, prefix, after)
  {
    t.transitions[t.entityTransitions[key]]
  }

  /// The records an unlimited walk over `keys` collects.
  function Walk(t: Tables, keys: seq<string>, prefix: string, after: nat): seq<TransitionRecord> {
    if keys == [] then []
    else
      var front, key := keys[..|keys| - 1], keys[|keys| - 1];
      Walk(t, front, prefix, after) + if Hit(t, key, prefix, after) then [HitRecord(t, key, prefix, after)] else []
  }

  function HistoryRead(t: Tables, entity: string, machine: string, limit: nat, after: nat): seq<TransitionRecord> {
    Take(Walk(t, InOrder(t.entityTransitions.Keys), TransitionPrefix(entity, machine), after), limit)
  }

  /// The record is in the log, belongs to the pair and comes after `after`.
  ghost predicate Belongs(log: seq<Entry>, entity: string, machine: string, after: nat, r: TransitionRecord) {
    OfPair(r, entity, machine) && after < r.sequence <= |log| && log[r.sequence - 1].rec == r
  }

  lemma {:induction false} HistoryBelongs(log: seq<Entry>, entity: string, machine: string, after: nat)
    requires Numbered(log)
    ensures forall r :: r in History(log, entity, machine, after) ==> Belongs(log, entity, machine, after, r)
    ensures BySequence(History(log, entity, machine, after))
  {
    if log != [] {
      var front := log[..|log| - 1];
      HistoryBelongs(front, entity, machine, after);
      var h := History(front, entity, machine, after);
      forall i | 0 <= i < |h|
        ensures h[i].sequence < |log|
      {
        assert h[i] in h;
      }
    }
  }

  lemma {:induction false} BelongsInHistory(log: seq<Entry>, entity: string, machine: string, after: nat, r: TransitionRecord)
    requires Numbered(log) && Belongs(log, entity, machine, after, r)
    ensures r in History(log, entity, machine, after)
  {
    if r.sequence < |log| {
      BelongsInHistory(log[..|log| - 1], entity, machine, after, r);
    }
  }

  lemma HistoryMembers(log: seq<Entry>, entity: string, machine: string, after: nat)
    requires Numbered(log)
    ensures BySequence(History(log, entity, machine, after))
    ensures forall r :: r in History(log, entity, machine, after) <==> Belongs(log, entity, machine, after, r)
  {
    HistoryBelongs(log, entity, machine, after);
    forall r | Belongs(log, entity, machine, after, r)
      ensures r in History(log, entity, machine, after)
    {
      BelongsInHistory(log, entity, machine, after, r);
    }
  }

  lemma {:induction false} WalkMembers(t: Tables, keys: seq<string>, prefix: string, after: nat)
    ensures forall r :: r in Walk(t, keys, prefix, after)
              <==> exists k :: k in keys && Hit(t, k, prefix, after) && r == HitRecord(t, k, prefix, after)
  {
    if keys != [] {
      var front, key := keys[..|keys| - 1], keys[|keys| - 1];
      WalkMembers(t, front, prefix, after);
      assert forall k :: k in keys <==> k in front || k == key;
    }
  }

  /// What a prefix scan selects, when no logged id contains the separator.
  lemma HitsArePairs(t: Tables, log: seq<Entry>, entity: string, machine: string, after: nat, key: string)
    requires IndexesAgree(t, log) && PairsNulFree(log)
    ensures Hit(t, key, TransitionPrefix(entity, machine), after) ==>
              var r := HitRecord(t, key, TransitionPrefix(entity, machine), after);
              && Belongs(log, entity, machine, after, r)
              && key == TransitionKey(entity, machine, r.sequence)
  {
    if Hit(t, key, TransitionPrefix(entity, machine), after) {
      var s := t.entityTransitions[key];
      assert HistoryKeyAt(log, s, key);
      var rec := log[s - 1].rec;
      PrefixSelectsPair(rec.entityId, rec.machine, s, entity, machine);
    }
  }

  lemma PairsAreHits(t: Tables, log: seq<Entry>, entity: string, machine: string, after: nat, s: nat)
    requires IndexesAgree(t, log) && after < s <= |log| && OfPair(log[s - 1].rec, entity, machine)
    ensures var key, prefix := TransitionKey(entity, machine, s), TransitionPrefix(entity, machine);
            Hit(t, key, prefix, after) && HitRecord(t, key, prefix, after) == log[s - 1].rec
  {
    var key, prefix := TransitionKey(entity, machine, s), TransitionPrefix(entity, machine);
    assert key == prefix + Padded(s);
    assert HistoryKeyAt(log, s, key);
  }

  lemma {:induction false} WalkInSequence(t: Tables, log: seq<Entry>, keys: seq<string>, entity: string, machine: string, after: nat)
    requires IndexesAgree(t, log) && PairsNulFree(log) && Ascending(keys)
    ensures BySequence(Walk(t, keys, TransitionPrefix(entity, machine), after))
  {
    if keys != [] {
      var prefix := TransitionPrefix(entity, machine);
      var front, key := keys[..|keys| - 1], keys[|keys| - 1];
      WalkInSequence(t, log, front, entity, machine, after);
      WalkMembers(t, front, prefix, after);
      var w := Walk(t, front, prefix, after);
      if Hit(t, key, prefix, after) {
        HitsArePairs(t, log, entity, machine, after, key);
        forall i | 0 <= i < |w|
          ensures w[i].sequence < HitRecord(t, key, prefix, after).sequence
        {
          assert w[i] in w;
          var k :| k in front && Hit(t, k, prefix, after) && w[i] == HitRecord(t, k, prefix, after);
          HitsArePairs(t, log, entity, machine, after, k);
          TransitionKeyOrder(entity, machine, w[i].sequence, HitRecord(t, key, prefix, after).sequence);
        }
      }
    }
  }

  /// Walking the string-keyed index in key order yields the pair's history, in
  /// increasing sequence.
  lemma WalkIsHistory(t: Tables, log: seq<Entry>, entity: string, machine: string, after: nat)
    requires IndexesAgree(t, log) && PairsNulFree(log)
    ensures Walk(t, InOrder(t.entityTransitions.Keys), TransitionPrefix(entity, machine), after)
            == History(log, entity, machine, after)
  {
    var keys, prefix := InOrder(t.entityTransitions.Keys), TransitionPrefix(entity, machine);
    var w, h := Walk(t, keys, prefix, after), History(log, entity, machine, after);
    LogIsNumbered(t, log);
    HistoryMembers(log, entity, machine, after);
    forall r
      ensures r in w <==> Belongs(log, entity, machine, after, r)
    {
      if r in w {
        WalkedBelongs(t, log, keys, entity, machine, after, r);
      }
      if Belongs(log, entity, machine, after, r) {
        BelongingIsWalked(t, log, entity, machine, after, r);
      }
    }
    InOrderLists(t.entityTransitions.Keys);
    WalkInSequence(t, log, keys, entity, machine, after);
    BySequenceUnique(w, h);
  }

  lemma WalkedBelongs(t: Tables, log: seq<Entry>, keys: seq<string>, entity: string, machine: string, after: nat, r: TransitionRecord)
    requires IndexesAgree(t, log) && PairsNulFree(log)
    requires r in Walk(t, keys, TransitionPrefix(entity, machine), after)
    ensures Belongs(log, entity, machine, after, r)
  {
    var prefix := TransitionPrefix(entity, machine);
    WalkMembers(t, keys, prefix, after);
    var k :| k in keys && Hit(t, k, prefix, after) && r == HitRecord(t, k, prefix, after);
    HitsArePairs(t, log, entity, machine, after, k);
  }

  lemma BelongingIsWalked(t: Tables, log: seq<Entry>, entity: string, machine: string, after: nat, r: TransitionRecord)
    requires IndexesAgree(t, log) && Belongs(log, entity, machine, after, r)
    ensures r in Walk(t, InOrder(t.entityTransitions.Keys), TransitionPrefix(entity, machine), after)
  {
    var prefix, key := TransitionPrefix(entity, machine), TransitionKey(entity, machine, r.sequence);
    PairsAreHits(t, log, entity, machine, after, r.sequence);
    WalkMembers(t, InOrder(t.entityTransitions.Keys), prefix, after);
    InOrderLists(t.entityTransitions.Keys);
    assert key in InOrder(t.entityTransitions.Keys);
  }

  /// The scan returns every pair's own history, for every limit and cursor,
  /// exactly when no logged entity id or machine name contains a NUL.
  lemma HistoryReadExact(t: Tables, log: seq<Entry>)
    requires IndexesAgree(t, log)
    ensures (forall entity, machine, limit: nat, after: nat ::
               HistoryRead(t, entity, machine, limit, after) == Take(History(log, entity, machine, after), limit))
            <==> PairsNulFree(log)
  {
    if PairsNulFree(log) {
      forall entity, machine, limit: nat, after: nat
        ensures HistoryRead(t, entity, machine, limit, after) == Take(History(log, entity, machine, after), limit)
      {
        WalkIsHistory(t, log, entity, machine, after);
      }
    } else {
      var i :| 0 <= i < |log| && !(NulFree(log[i].rec.entityId) && NulFree(log[i].rec.machine));
      ForeignRecordLeaks(t, log, i);
    }
  }

  /// A record whose ids contain a NUL turns up in the history of another pair.
  lemma ForeignRecordLeaks(t: Tables, log: seq<Entry>, i: nat)
    requires IndexesAgree(t, log) && i < |log|
    requires !(NulFree(log[i].rec.entityId) && NulFree(log[i].rec.machine))
    ensures exists entity, machine, limit: nat, after: nat ::
              HistoryRead(t, entity, machine, limit, after) != Take(History(log, entity, machine, after), limit)
  {
    var rec := log[i].rec;
    var entity, machine := PrefixSelectsForeignPair(rec.entityId, rec.machine, i + 1);
    var prefix, key := TransitionPrefix(entity, machine), TransitionKey(rec.entityId, rec.machine, i + 1);
    var keys := InOrder(t.entityTransitions.Keys);
    var w, h := Walk(t, keys, prefix, 0), History(log, entity, machine, 0);
    assert rec in w by { RecordIsWalked(t, log, i, prefix); }
    assert rec !in h by {
      LogIsNumbered(t, log);
      HistoryMembers(log, entity, machine, 0);
    }
    TakeAll(w, |w| + |h|);
    TakeAll(h, |w| + |h|);
    assert HistoryRead(t, entity, machine, |w| + |h|, 0) != Take(History(log, entity, machine, 0), |w| + |h|);
  }

  lemma TakeAll<T>(s: seq<T>, n: nat)
    requires |s| <= n
    ensures Take(s, n) == s
  {
  }

  lemma RecordIsWalked(t: Tables, log: seq<Entry>, i: nat, prefix: string)
    requires IndexesAgree(t, log) && i < |log|
    requires prefix <= TransitionKey(log[i].rec.entityId, log[i].rec.machine, i + 1)
    ensures log[i].rec in Walk(t, InOrder(t.entityTransitions.Keys), prefix, 0)
  {
    var keys, key := InOrder(t.entityTransitions.Keys), TransitionKey(log[i].rec.entityId, log[i].rec.machine, i + 1);
    WalkMembers(t, keys, prefix, 0);
    InOrderLists(t.entityTransitions.Keys);
    assert HistoryKeyAt(log, i + 1, key);
    assert t.transitions[i + 1] == log[i].rec;
    assert key in keys && Hit(t, key, prefix, 0);
  }

  // ---- Paging --------------------------------------------------------------------

  /// A read is a prefix of the history, when no logged id contains the separator.
  lemma ReadIsPrefix(t: Tables, log: seq<Entry>, entity: string, machine: string, limit: nat, after: nat)
    requires Represents(t, log) && PairsNulFree(log)
    ensures Numbered(log) && HistoryRead(t, entity, machine, limit, after) == Take(History(log, entity, machine, after), limit)
  {
    LogIsNumbered(t, log);
    WalkIsHistory(t, log, entity, machine, after);
  }

  /// What a client collects that reads pages of `size` records, each starting after
  /// the last record of the page before, until a page comes back empty.
  ghost function Pages(t: Tables, log: seq<Entry>, entity: string, machine: string, size: nat, after: nat): seq<TransitionRecord>
    requires Represents(t, log) && PairsNulFree(log)
    decreases if |log| > after then |log| - after else 0
  {
    var page := HistoryRead(t, entity, machine, size, after);
    if page == [] then []
    else
      ReadIsPrefix(t, log, entity, machine, size, after);
      CursorAdvances(log, entity, machine, after, |page| - 1);
      page + Pages(t, log, entity, machine, size, page[|page| - 1].sequence)
  }

  lemma CursorAdvances(log: seq<Entry>, entity: string, machine: string, after: nat, n: nat)
    requires Numbered(log) && n < |History(log, entity, machine, after)|
    ensures after < History(log, entity, machine, after)[n].sequence <= |log|
  {
    HistoryBelongs(log, entity, machine, after);
    assert History(log, entity, machine, after)[n] in History(log, entity, machine, after);
  }

  /// Moving the cursor to a record of the history leaves exactly what follows it.
  lemma HistoryAfter(log: seq<Entry>, entity: string, machine: string, after: nat, n: nat)
    requires Numbered(log)
    requires n < |History(log, entity, machine, after)|
    ensures var h := History(log, entity, machine, after);
            History(log, entity, machine, h[n].sequence) == h[n + 1..]
  {
    var h := History(log, entity, machine, after);
    var later := History(log, entity, machine, h[n].sequence);
    HistoryMembers(log, entity, machine, after);
    assert h[n] in h;
    HistoryMembers(log, entity, machine, h[n].sequence);
    forall r
      ensures r in h[n + 1..] <==> r in later
    {
      assert r in later <==> r in h && r.sequence > h[n].sequence;
      SplitBySequence(h, n, r);
    }
    BySequenceUnique(later, h[n + 1..]);
  }

  lemma SplitBySequence(h: seq<TransitionRecord>, n: nat, r: TransitionRecord)
    requires BySequence(h) && n < |h|
    ensures r in h[n + 1..] <==> r in h && r.sequence > h[n].sequence
  {
    if r in h && r.sequence > h[n].sequence {
      var i :| 0 <= i < |h| && h[i] == r;
      assert h[n + 1..][i - n - 1] == r;
    }
  }

  /// Pages of any positive size concatenate to the full history.
  lemma {:induction false} PagesConcatenate(t: Tables, log: seq<Entry>, entity: string, machine: string, size: nat, after: nat)
    requires Represents(t, log) && PairsNulFree(log) && size > 0
    ensures Pages(t, log, entity, machine, size, after) == History(log, entity, machine, after)
    decreases if |log| > after then |log| - after else 0
  {
    var h := History(log, entity, machine, after);
    ReadIsPrefix(t, log, entity, machine, size, after);
    var page := Take(h, size);
    if page != [] {
      var n := |page| - 1;
      CursorAdvances(log, entity, machine, after, n);
      HistoryAfter(log, entity, machine, after, n);
      PagesConcatenate(t, log, entity, machine, size, h[n].sequence);
      SplitAt(h, n + 1);
    }
  }

  lemma SplitAt<T>(s: seq<T>, n: nat)
    requires n <= |s|
    ensures s == s[..n] + s[n..] && Take(s, n) == s[..n]
  {
  }

  // ---- The log after a sequence number ------------------------------------------------

  function Records(es: seq<Entry>): (rs: seq<TransitionRecord>)
    ensures |rs| == |es|
  {
    if es == [] then [] else [es[0].rec] + Records(es[1..])
  }

  lemma {:induction false} RecordsAt(es: seq<Entry>)
    ensures forall i :: 0 <= i < |es| ==> Records(es)[i] == es[i].rec
  {
    if es != [] {
      RecordsAt(es[1..]);
    }
  }

  /// The range starts at `after + 1` in 64-bit arithmetic, which wraps.
  function RangeStart(after: nat): nat {
    (after + 1) % (U64_MAX + 1)
  }

  /// The position a read after `after` really continues from.
  function Resume(after: nat): nat {
    if after == U64_MAX then 0 else after
  }

  function Rows(t: Tables, keys: seq<nat>): (rs: seq<TransitionRecord>)
    requires forall k :: k in keys ==> k in t.transitions
    ensures |rs| == |keys|
  {
    if keys == [] then [] else [t.transitions[keys[0]]] + Rows(t, keys[1..])
  }

  lemma {:induction false} RowsAt(t: Tables, keys: seq<nat>)
    requires forall k :: k in keys ==> k in t.transitions
    ensures forall i :: 0 <= i < |keys| ==> keys[i] in keys && Rows(t, keys)[i] == t.transitions[keys[i]]
  {
    if keys != [] {
      RowsAt(t, keys[1..]);
      assert forall i :: 0 <= i < |keys| ==> keys[i] in keys;
    }
  }

  function RangeKeys(t: Tables, start: nat): set<nat> {
    set k | k in t.transitions && k >= start
  }

  function AfterRead(t: Tables, after: nat, limit: nat): seq<TransitionRecord> {
    NumbersInOrderLists(RangeKeys(t, RangeStart(after)));
    Take(Rows(t, NumbersInOrder(RangeKeys(t, RangeStart(after)))), limit)
  }

  /// Everything after a position of the log.
  function Tail(log: seq<Entry>, p: nat): seq<Entry> {
    if p < |log| then log[p..] else []
  }

  lemma RangeIsInterval(t: Tables, log: seq<Entry>, after: nat)
    requires LogAgrees(t, log) && after <= U64_MAX
    ensures var keys := NumbersInOrder(RangeKeys(t, RangeStart(after)));
            && (forall k :: k in keys ==> k in t.transitions)
            && |keys| == |Tail(log, Resume(after))|
            && forall i :: 0 <= i < |keys| ==> keys[i] == Resume(after) + 1 + i
  {
    var start, p := RangeStart(after), Resume(after);
    var keys := NumbersInOrder(RangeKeys(t, start));
    NumbersInOrderLists(RangeKeys(t, start));
    assert start == if after == U64_MAX then 0 else after + 1;
    var hi := if p < |log| then |log| + 1 else p + 1;
    assert forall k :: k in keys <==> p + 1 <= k < hi;
    IntervalInOrder(keys, p + 1, hi);
  }

  lemma RowsAreRecords(t: Tables, log: seq<Entry>, keys: seq<nat>, p: nat)
    requires LogAgrees(t, log) && forall k :: k in keys ==> k in t.transitions
    requires |keys| == |Tail(log, p)| && forall i :: 0 <= i < |keys| ==> keys[i] == p + 1 + i
    ensures Rows(t, keys) == Records(Tail(log, p))
  {
    RowsAt(t, keys);
    RecordsAt(Tail(log, p));
    forall i | 0 <= i < |keys|
      ensures Rows(t, keys)[i] == Records(Tail(log, p))[i]
    {
      assert t.transitions[p + 1 + i] == log[p + i].rec;
    }
  }

  /// A range read returns the next records of the log, from where 64-bit
  /// arithmetic says it resumes.
  lemma AfterReadIsTail(t: Tables, log: seq<Entry>, after: nat, limit: nat)
    requires LogAgrees(t, log) && after <= U64_MAX
    ensures AfterRead(t, after, limit) == Take(Records(Tail(log, Resume(after))), limit)
  {
    RangeIsInterval(t, log, after);
    RowsAreRecords(t, log, NumbersInOrder(RangeKeys(t, RangeStart(after))), Resume(after));
  }

  /// The read returns the records after `after`, for every limit, exactly when
  /// `after` is not the largest 64-bit number or the log is empty.
  lemma AfterReadExact(t: Tables, log: seq<Entry>, after: nat)
    requires LogAgrees(t, log) && after <= U64_MAX
    ensures (forall limit: nat :: AfterRead(t, after, limit) == Take(Records(Tail(log, after)), limit))
            <==> after != U64_MAX || log == []
  {
    forall limit: nat
      ensures AfterRead(t, after, limit) == Take(Records(Tail(log, Resume(after))), limit)
    {
      AfterReadIsTail(t, log, after, limit);
    }
    if after == U64_MAX && log != [] {
      assert |AfterRead(t, after, 1)| == 1;
    }
  }

  // ---- Entities in a state ---------------------------------------------------------------

  predicate Contains(s: string, part: string) {
    exists i :: 0 <= i <= |s| && part <= s[i..]
  }

  predicate Listed(t: Tables, key: string, machine: string, state: string)
    requires key in t.entityStates
  {
    && Contains(key, [NUL] + machine)
    && t.entityStates[key].machine == machine && t.entityStates[key].currentState == state
  }

  /// The rows an iteration over `keys` collects.
  function ListRows(t: Tables, keys: seq<string>, machine: string, state: string): seq<EntityState>
    requires forall k :: k in keys ==> k in t.entityStates
  {
    if keys == [] then []
    else
      var front, key := keys[..|keys| - 1], keys[|keys| - 1];
      ListRows(t, front, machine, state) + if Listed(t, key, machine, state) then [t.entityStates[key]] else []
  }

  function ListRead(t: Tables, machine: string, state: string): seq<EntityState> {
    InOrderLists(t.entityStates.Keys);
    ListRows(t, InOrder(t.entityStates.Keys), machine, state)
  }

  /// The last record logged under the pair's projection key, if it is the pair's own.
  ghost predicate LastEndsIn(log: seq<Entry>, entity: string, machine: string, state: string) {
    var es := ForKey(log, StateKey(entity, machine));
    es != [] && OfPair(es[|es| - 1].rec, entity, machine) && es[|es| - 1].rec.toState == state
  }

  lemma RowHasItsKey(t: Tables, log: seq<Entry>, key: string)
    requires ProjectionAgrees(t.entityStates, log) && key in t.entityStates
    ensures key == StateKey(t.entityStates[key].entityId, t.entityStates[key].machine)
  {
    var es := ForKey(log, key);
    assert RowAgrees(t.entityStates, log, key);
    ForKeyMembers(log, key);
    assert es[|es| - 1] in es;
  }

  /// The substring test never drops a row of the machine.
  lemma SubstringTestPasses(entity: string, machine: string)
    ensures Contains(StateKey(entity, machine), [NUL] + machine)
  {
    assert StateKey(entity, machine)[|entity|..] == [NUL] + machine;
  }

  lemma ListedMeans(t: Tables, log: seq<Entry>, key: string, machine: string, state: string)
    requires ProjectionAgrees(t.entityStates, log) && key in t.entityStates
    ensures var row := t.entityStates[key];
            Listed(t, key, machine, state) <==> row.machine == machine && row.currentState == state
  {
    RowHasItsKey(t, log, key);
    SubstringTestPasses(t.entityStates[key].entityId, t.entityStates[key].machine);
  }

  ghost predicate Mentions(rows: seq<EntityState>, entity: string) {
    exists row :: row in rows && row.entityId == entity
  }

  predicate EntitiesDistinct(rows: seq<EntityState>) {
    forall i, j :: 0 <= i < j < |rows| ==> rows[i].entityId != rows[j].entityId
  }

  lemma EntitiesDistinctAppend(rows: seq<EntityState>, row: EntityState)
    requires EntitiesDistinct(rows) && forall r :: r in rows ==> r.entityId != row.entityId
    ensures EntitiesDistinct(rows + [row])
  {
    assert forall i :: 0 <= i < |rows| ==> rows[i] in rows;
  }

  ghost predicate RowOfKeys(t: Tables, keys: seq<string>, machine: string, state: string, row: EntityState)
    requires forall k :: k in keys ==> k in t.entityStates
  {
    row.machine == machine && row.currentState == state && exists k :: k in keys && t.entityStates[k] == row
  }

  lemma {:induction false} ListRowsMembers(t: Tables, log: seq<Entry>, keys: seq<string>, machine: string, state: string)
    requires ProjectionAgrees(t.entityStates, log)
    requires forall k :: k in keys ==> k in t.entityStates
    ensures forall row :: row in ListRows(t, keys, machine, state) <==> RowOfKeys(t, keys, machine, state, row)
  {
    if keys != [] {
      var front, key := keys[..|keys| - 1], keys[|keys| - 1];
      ListRowsMembers(t, log, front, machine, state);
      ListedMeans(t, log, key, machine, state);
      assert forall k :: k in keys <==> k in front || k == key;
      assert forall row :: RowOfKeys(t, keys, machine, state, row)
                           <==> RowOfKeys(t, front, machine, state, row)
                                || (row == t.entityStates[key] && row.machine == machine && row.currentState == state);
    }
  }

  lemma {:induction false} ListRowsDistinct(t: Tables, log: seq<Entry>, keys: seq<string>, machine: string, state: string)
    requires ProjectionAgrees(t.entityStates, log) && Ascending(keys)
    requires forall k :: k in keys ==> k in t.entityStates
    ensures EntitiesDistinct(ListRows(t, keys, machine, state))
  {
    if keys != [] {
      var front, key := keys[..|keys| - 1], keys[|keys| - 1];
      ListRowsDistinct(t, log, front, machine, state);
      ListRowsMembers(t, log, front, machine, state);
      var rows := ListRows(t, front, machine, state);
      if Listed(t, key, machine, state) {
        forall row | row in rows
          ensures row.entityId != t.entityStates[key].entityId
        {
          var k :| k in front && t.entityStates[k] == row;
          RowHasItsKey(t, log, k);
          RowHasItsKey(t, log, key);
          LessIrreflexive(key);
        }
        EntitiesDistinctAppend(rows, t.entityStates[key]);
      }
    }
  }

  /// The listing returns, once each, exactly the entities whose last record for
  /// the machine ends in the state.
  lemma ListReadMeans(t: Tables, log: seq<Entry>, machine: string, state: string)
    requires ProjectionAgrees(t.entityStates, log)
    ensures var rows := ListRead(t, machine, state);
            && EntitiesDistinct(rows)
            && (forall row :: row in rows ==> row.machine == machine && row.currentState == state
                                              && GetEntityState(t, row.entityId, machine) == Some(row))
            && (forall entity :: Mentions(rows, entity) <==> LastEndsIn(log, entity, machine, state))
  {
    var keys, rows := InOrder(t.entityStates.Keys), ListRead(t, machine, state);
    InOrderLists(t.entityStates.Keys);
    ListRowsDistinct(t, log, keys, machine, state);
    ListRowsMembers(t, log, keys, machine, state);
    forall row | row in rows
      ensures row.machine == machine && row.currentState == state && GetEntityState(t, row.entityId, machine) == Some(row)
      ensures LastEndsIn(log, row.entityId, machine, state)
    {
      RowIsLast(t, log, keys, machine, state, row);
    }
    forall entity | LastEndsIn(log, entity, machine, state)
      ensures Mentions(rows, entity)
    {
      var key := StateKey(entity, machine);
      assert RowAgrees(t.entityStates, log, key);
      assert key in keys && RowOfKeys(t, keys, machine, state, t.entityStates[key]);
    }
  }

  lemma RowIsLast(t: Tables, log: seq<Entry>, keys: seq<string>, machine: string, state: string, row: EntityState)
    requires ProjectionAgrees(t.entityStates, log) && forall k :: k in keys ==> k in t.entityStates
    requires RowOfKeys(t, keys, machine, state, row)
    ensures GetEntityState(t, row.entityId, machine) == Some(row)
    ensures LastEndsIn(log, row.entityId, machine, state)
  {
    var k :| k in keys && t.entityStates[k] == row;
    RowHasItsKey(t, log, k);
    assert RowAgrees(t.entityStates, log, k);
  }

  /// The last record of the pair itself.
  ghost predicate LastOwnEndsIn(log: seq<Entry>, entity: string, machine: string, state: string) {
    var es := ForPair(log, entity, machine);
    es != [] && es[|es| - 1].rec.toState == state
  }

  lemma UnsharedLast(log: seq<Entry>, entity: string, machine: string, state: string)
    requires KeysUnshared(log)
    ensures LastEndsIn(log, entity, machine, state) <==> LastOwnEndsIn(log, entity, machine, state)
  {
    var es := ForKey(log, StateKey(entity, machine));
    ForKeyMembers(log, StateKey(entity, machine));
    PairWithinKey(log, entity, machine);
    ForPairMembers(log, entity, machine);
    assert es != [] ==> es[|es| - 1] in es;
    if es != [] && OfPair(es[|es| - 1].rec, entity, machine) {
      OwnerIsAlone(log, entity, machine, es[|es| - 1]);
    } else if ForPair(log, entity, machine) != [] {
      OwnerIsAlone(log, entity, machine, ForPair(log, entity, machine)[0]);
    }
  }

  lemma OwnerIsAlone(log: seq<Entry>, entity: string, machine: string, e: Entry)
    requires KeysUnshared(log) && e in log && OfPair(e.rec, entity, machine)
    ensures KeyUnshared(log, entity, machine)
  {
    var i :| 0 <= i < |log| && log[i] == e;
  }

  lemma SharedLast(log: seq<Entry>, i: nat)
    requires i < |log|
    requires var es := ForKey(log, KeyOf(log[i])); es != [] && !OfPair(es[|es| - 1].rec, log[i].rec.entityId, log[i].rec.machine)
    ensures exists state :: LastOwnEndsIn(log, log[i].rec.entityId, log[i].rec.machine, state)
                            && !LastEndsIn(log, log[i].rec.entityId, log[i].rec.machine, state)
  {
    var own := ForPair(log, log[i].rec.entityId, log[i].rec.machine);
    ForPairMembers(log, log[i].rec.entityId, log[i].rec.machine);
    assert log[i] in log;
    assert log[i] in own;
    assert LastOwnEndsIn(log, log[i].rec.entityId, log[i].rec.machine, own[|own| - 1].rec.toState);
  }

  ghost predicate ListingExact(t: Tables, log: seq<Entry>) {
    forall entity, machine, state ::
      Mentions(ListRead(t, machine, state), entity) <==> LastOwnEndsIn(log, entity, machine, state)
  }

  lemma ListedLast(t: Tables, log: seq<Entry>, entity: string, machine: string, state: string)
    requires ProjectionAgrees(t.entityStates, log)
    ensures Mentions(ListRead(t, machine, state), entity) <==> LastEndsIn(log, entity, machine, state)
  {
    ListReadMeans(t, log, machine, state);
  }

  lemma SharedKeyMisses(t: Tables, log: seq<Entry>, i: nat, j: nat)
    requires ProjectionAgrees(t.entityStates, log) && i < |log| && j < |log|
    requires KeyOf(log[i]) == KeyOf(log[j]) && !OfPair(log[j].rec, log[i].rec.entityId, log[i].rec.machine)
    ensures !ListingExact(t, log)
  {
    var es := ForKey(log, KeyOf(log[i]));
    ForKeyMembers(log, KeyOf(log[i]));
    assert log[i] in log && log[i] in es;
    var last := es[|es| - 1].rec;
    var k := if OfPair(last, log[i].rec.entityId, log[i].rec.machine) then j else i;
    SharedLast(log, k);
    var state :| LastOwnEndsIn(log, log[k].rec.entityId, log[k].rec.machine, state)
                 && !LastEndsIn(log, log[k].rec.entityId, log[k].rec.machine, state);
    ListedLast(t, log, log[k].rec.entityId, log[k].rec.machine, state);
  }

  /// For every machine and state, the listing has exactly the entities whose own last
  /// record ends in the state, if and only if no two logged pairs share a key.
  lemma ListReadExact(t: Tables, log: seq<Entry>)
    requires ProjectionAgrees(t.entityStates, log)
    ensures ListingExact(t, log) <==> KeysUnshared(log)
  {
    if KeysUnshared(log) {
      forall entity, machine, state
        ensures Mentions(ListRead(t, machine, state), entity) <==> LastOwnEndsIn(log, entity, machine, state)
      {
        ListedLast(t, log, entity, machine, state);
        UnsharedLast(log, entity, machine, state);
      }
    } else {
      var i, j :| 0 <= i < |log| && 0 <= j < |log| && KeyOf(log[i]) == KeyOf(log[j])
                  && !(log[i].rec.entityId == log[j].rec.entityId && log[i].rec.machine == log[j].rec.machine);
      SharedKeyMisses(t, log, i, j);
    }
  }
}
