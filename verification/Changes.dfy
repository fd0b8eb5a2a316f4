/**
 Change records: what the stream delivers for one log entry, how the effects of
 a transition are read back through the prefix-scanned index, and the change
 stream as a function of the log alone.
 */
module Changes {
  import opened Core
  import opened Database
  import opened Keys
  import opened Log
  import opened Ordered
  import opened Text

  // ---- The effects of one entry, in id order ---------------------------------------

  function Ids(effects: seq<Effect>): set<string> {
    set e | e in effects :: e.id
  }

  function Find(effects: seq<Effect>, id: string): (e: Effect)
    requires id in Ids(effects)
    ensures e in effects && e.id == id
  {
    if effects[0].id == id then effects[0]
    else
      assert effects == [effects[0]] + effects[1..];
      Find(effects[1..], id)
  }

  function Pick(effects: seq<Effect>, ids: seq<string>): (picked: seq<Effect>)
    requires forall id :: id in ids ==> id in Ids(effects)
    ensures |picked| == |ids|
  {
    if ids == [] then [] else [Find(effects, ids[0])] + Pick(effects, ids[1..])
  }

  lemma {:induction false} PickAt(effects: seq<Effect>, ids: seq<string>)
    requires forall id :: id in ids ==> id in Ids(effects)
    ensures forall i :: 0 <= i < |ids| ==> Pick(effects, ids)[i] in effects && Pick(effects, ids)[i].id == ids[i]
  {
    if ids != [] {
      PickAt(effects, ids[1..]);
    }
  }

  function InIdOrder(effects: seq<Effect>): seq<Effect> {
    InOrderLists(Ids(effects));
    Pick(effects, InOrder(Ids(effects)))
  }

  predicate IdsUnique(effects: seq<Effect>) {
    forall i, j :: 0 <= i < j < |effects| ==> effects[i].id != effects[j].id
  }

  lemma {:induction false} CountsOne<T>(s: seq<T>, x: T)
    requires forall i, j :: 0 <= i < j < |s| ==> s[i] != s[j]
    ensures multiset(s)[x] == if x in s then 1 else 0
  {
    if s != [] {
      CountsOne(s[1..], x);
      assert s == [s[0]] + s[1..];
    }
  }

  lemma SameDistinctMembers<T>(a: seq<T>, b: seq<T>)
    requires forall i, j :: 0 <= i < j < |a| ==> a[i] != a[j]
    requires forall i, j :: 0 <= i < j < |b| ==> b[i] != b[j]
    requires forall x :: x in a <==> x in b
    ensures multiset(a) == multiset(b)
  {
    forall x
      ensures multiset(a)[x] == multiset(b)[x]
    {
      CountsOne(a, x);
      CountsOne(b, x);
    }
  }

  /// Reading back in id order permutes the effects.
  lemma InIdOrderPermutes(effects: seq<Effect>)
    requires IdsUnique(effects)
    ensures multiset(InIdOrder(effects)) == multiset(effects)
  {
    var ids, sorted := InOrder(Ids(effects)), InIdOrder(effects);
    InOrderLists(Ids(effects));
    PickAt(effects, ids);
    forall i, j | 0 <= i < j < |sorted|
      ensures sorted[i] != sorted[j]
    {
      LessIrreflexive(ids[i]);
    }
    forall e | e in effects
      ensures e in sorted
    {
      assert e.id in ids;
      var i :| 0 <= i < |ids| && ids[i] == e.id;
      assert sorted[i] in effects && sorted[i].id == e.id;
    }
    SameDistinctMembers(sorted, effects);
  }

  lemma {:induction false} PayloadsConcat(a: seq<Effect>, b: seq<Effect>)
    ensures Payloads(a + b) == Payloads(a) + Payloads(b)
  {
    if a == [] {
      assert a + b == b;
    } else {
      PayloadsConcat(a[1..], b);
      assert (a + b)[1..] == a[1..] + b;
      Associates([Payload(a[0])], Payloads(a[1..]), Payloads(b));
    }
  }

  lemma Associates<T>(x: seq<T>, y: seq<T>, z: seq<T>)
    ensures x + (y + z) == (x + y) + z
  {
  }

  lemma PayloadsInsert(x: seq<Effect>, e: Effect, y: seq<Effect>)
    ensures multiset(Payloads(x + ([e] + y))) == multiset(Payloads(x + y)) + multiset{Payload(e)}
  {
    PayloadsConcat(x, [e] + y);
    PayloadsConcat([e], y);
    PayloadsConcat(x, y);
    assert Payloads([e]) == [Payload(e)];
  }

  lemma {:induction false} PayloadsPermute(a: seq<Effect>, b: seq<Effect>)
    requires multiset(a) == multiset(b)
    ensures multiset(Payloads(a)) == multiset(Payloads(b))
    decreases |a|
  {
    if a == [] {
      assert |b| == |multiset(b)|;
    } else {
      var e := a[0];
      assert e in multiset(a);
      var v, w := SplitAround(a, e);
      var x, y := SplitAround(b, e);
      Cancel(multiset(v + w), multiset(x + y), e);
      PayloadsPermute(v + w, x + y);
      PayloadsInsert(v, e, w);
      PayloadsInsert(x, e, y);
    }
  }

  lemma Cancel<T>(a: multiset<T>, b: multiset<T>, e: T)
    requires a + multiset{e} == b + multiset{e}
    ensures a == b
  {
    assert a == (a + multiset{e}) - multiset{e};
    assert b == (b + multiset{e}) - multiset{e};
  }

  lemma SplitAround<T>(s: seq<T>, e: T) returns (x: seq<T>, y: seq<T>)
    requires e in multiset(s)
    ensures s == x + ([e] + y)
    ensures multiset(s) == multiset(x + y) + multiset{e} && |x + y| < |s|
  {
    var j :| 0 <= j < |s| && s[j] == e;
    x, y := s[..j], s[j + 1..];
    assert s == x + ([e] + y);
  }

  // ---- The prefix range scan -----------------------------------------------------------

  /// Collects effects until the first key without the prefix.
  function ScanWhile(t: Tables, keys: seq<string>, prefix: string): seq<Effect>
    requires forall k :: k in keys ==> k in t.effectsByTxn
  {
    if keys == [] || !(prefix <= keys[0]) then []
    else
      var id := t.effectsByTxn[keys[0]];
      (if id in t.effects then [t.effects[id]] else []) + ScanWhile(t, keys[1..], prefix)
  }

  /// Keys of the by-transition index from `prefix` upwards.
  function KeysFrom(t: Tables, prefix: string): seq<string> {
    InOrder(set k | k in t.effectsByTxn && !Less(k, prefix))
  }

  function EffectsRead(t: Tables, transition: string): seq<Effect> {
    InOrderLists(set k | k in t.effectsByTxn && !Less(k, EffectPrefix(transition)));
    ScanWhile(t, KeysFrom(t, EffectPrefix(transition)), EffectPrefix(transition))
  }

  lemma {:induction false} ScanStopsAtEnd(t: Tables, hits: seq<string>, keys: seq<string>, prefix: string)
    requires Ascending(keys) && Ascending(hits)
    requires forall k :: k in keys ==> k in t.effectsByTxn && !Less(k, prefix)
    requires forall k :: k in hits <==> k in keys && prefix <= k
    ensures forall k :: k in hits ==> k in t.effectsByTxn
    ensures ScanWhile(t, keys, prefix) == ScanWhile(t, hits, prefix)
  {
    assert hits != [] ==> hits[0] in hits;
    if keys == [] {
    } else if prefix <= keys[0] {
      assert keys[0] in hits;
      SameHead(hits, keys);
      TailMembers(hits);
      TailMembers(keys);
      ScanStopsAtEnd(t, hits[1..], keys[1..], prefix);
    } else {
      forall k | k in keys
        ensures !(prefix <= k)
      {
        PrefixIsContiguous(prefix, keys[0], k);
      }
      assert hits == [];
    }
  }

  function WithPrefix(transition: string, ids: seq<string>): (keys: seq<string>)
    ensures |keys| == |ids|
  {
    if ids == [] then [] else [EffectKey(transition, ids[0])] + WithPrefix(transition, ids[1..])
  }

  lemma {:induction false} WithPrefixAt(transition: string, ids: seq<string>)
    ensures forall i :: 0 <= i < |ids| ==> WithPrefix(transition, ids)[i] == EffectKey(transition, ids[i])
  {
    if ids != [] {
      WithPrefixAt(transition, ids[1..]);
    }
  }

  lemma WithPrefixAscends(transition: string, ids: seq<string>)
    requires Ascending(ids)
    ensures Ascending(WithPrefix(transition, ids))
  {
    var keys := WithPrefix(transition, ids);
    WithPrefixAt(transition, ids);
    forall i, j | 0 <= i < j < |keys|
      ensures Less(keys[i], keys[j])
    {
      LessAfterPrefix(EffectPrefix(transition), ids[i], ids[j]);
    }
  }

  lemma IndexedEffect(t: Tables, log: seq<Entry>, k: string) returns (s: nat, j: nat, e: Effect)
    requires OutboxAgrees(t, log) && k in t.effectsByTxn
    ensures 1 <= s <= |log| && e in log[s - 1].effects && e.transitionId == log[s - 1].rec.id
    ensures k == EffectKey(e.transitionId, e.id)
  {
    assert IndexRow(log, k, t.effectsByTxn[k]);
    s, j, e :| EffectAt(log, s, j, e) && k == EffectKey(e.transitionId, e.id) && t.effectsByTxn[k] == e.id;
  }

  /// A key of the index with the transition's prefix is one of its effects' keys.
  lemma PrefixedKeyIsOwn(t: Tables, log: seq<Entry>, s: nat, k: string) returns (id: string)
    requires OutboxAgrees(t, log) && IndexesAgree(t, log) && 1 <= s <= |log|
    requires k in t.effectsByTxn && EffectPrefix(log[s - 1].rec.id) <= k
    ensures id in Ids(log[s - 1].effects) && k == EffectKey(log[s - 1].rec.id, id)
  {
    var tid := log[s - 1].rec.id;
    var s', j, e := IndexedEffect(t, log, k);
    assert IdAt(log, s, tid) && IdAt(log, s', e.transitionId);
    EffectPrefixSelects(tid, e.transitionId, e.id);
    id := e.id;
  }

  /// Every id in the list is stored, indexed and unchanged but for its status.
  ghost predicate Stored(t: Tables, transition: string, effects: seq<Effect>, id: string)
    requires id in Ids(effects)
  {
    && EffectKey(transition, id) in t.effectsByTxn
    && t.effectsByTxn[EffectKey(transition, id)] == id && id in t.effects
    && Payload(t.effects[id]) == Payload(Find(effects, id))
  }

  lemma {:induction false} ScanAll(t: Tables, transition: string, effects: seq<Effect>, ids: seq<string>)
    requires forall id :: id in ids ==> id in Ids(effects) && Stored(t, transition, effects, id)
    ensures forall k :: k in WithPrefix(transition, ids) ==> k in t.effectsByTxn
    ensures Payloads(ScanWhile(t, WithPrefix(transition, ids), EffectPrefix(transition))) == Payloads(Pick(effects, ids))
  {
    if ids != [] {
      var keys := WithPrefix(transition, ids);
      assert Stored(t, transition, effects, ids[0]);
      assert forall id :: id in ids[1..] ==> id in ids;
      ScanAll(t, transition, effects, ids[1..]);
      assert keys[1..] == WithPrefix(transition, ids[1..]);
      assert keys[0] == EffectPrefix(transition) + ids[0];
      assert EffectPrefix(transition) <= keys[0];
    }
  }

  /// The scan that stops at the first key without the prefix misses no effect of
  /// the transition and adds none; it returns them in effect-id order.
  lemma EffectsReadBack(t: Tables, log: seq<Entry>, s: nat)
    requires OutboxAgrees(t, log) && IndexesAgree(t, log) && 1 <= s <= |log|
    ensures Payloads(EffectsRead(t, log[s - 1].rec.id)) == Payloads(InIdOrder(log[s - 1].effects))
  {
    var tid, effects := log[s - 1].rec.id, log[s - 1].effects;
    var ids, prefix := InOrder(Ids(effects)), EffectPrefix(tid);
    var hits, keys := WithPrefix(tid, ids), KeysFrom(t, prefix);
    InOrderLists(Ids(effects));
    InOrderLists(set k | k in t.effectsByTxn && !Less(k, prefix));
    assert Ascending(hits) by { WithPrefixAscends(tid, ids); }
    forall k
      ensures k in hits <==> k in keys && prefix <= k
    {
      HitsAreOwnKeys(t, log, s, k);
    }
    assert ScanWhile(t, keys, prefix) == ScanWhile(t, hits, prefix) by {
      ScanStopsAtEnd(t, hits, keys, prefix);
    }
    StoredEffects(t, log, s);
    ScanAll(t, tid, effects, ids);
  }

  lemma HitsAreOwnKeys(t: Tables, log: seq<Entry>, s: nat, k: string)
    requires OutboxAgrees(t, log) && IndexesAgree(t, log) && 1 <= s <= |log|
    ensures var tid := log[s - 1].rec.id;
            k in WithPrefix(tid, InOrder(Ids(log[s - 1].effects))) <==> k in KeysFrom(t, EffectPrefix(tid)) && EffectPrefix(tid) <= k
  {
    var tid, ids := log[s - 1].rec.id, InOrder(Ids(log[s - 1].effects));
    InOrderLists(Ids(log[s - 1].effects));
    InOrderLists(set k' | k' in t.effectsByTxn && !Less(k', EffectPrefix(tid)));
    WithPrefixAt(tid, ids);
    if k in WithPrefix(tid, ids) {
      var i :| 0 <= i < |ids| && WithPrefix(tid, ids)[i] == k;
      assert ids[i] in ids;
      OwnKeyIsHit(t, log, s, ids[i]);
    }
    if k in KeysFrom(t, EffectPrefix(tid)) && EffectPrefix(tid) <= k {
      var id := PrefixedKeyIsOwn(t, log, s, k);
      assert id in ids;
      var i :| 0 <= i < |ids| && ids[i] == id;
      assert WithPrefix(tid, ids)[i] == k;
    }
  }

  lemma OwnKeyIsHit(t: Tables, log: seq<Entry>, s: nat, id: string)
    requires OutboxAgrees(t, log) && 1 <= s <= |log| && id in Ids(log[s - 1].effects)
    ensures var prefix, k := EffectPrefix(log[s - 1].rec.id), EffectKey(log[s - 1].rec.id, id);
            prefix <= k && k in KeysFrom(t, prefix)
  {
    var prefix, k := EffectPrefix(log[s - 1].rec.id), EffectKey(log[s - 1].rec.id, id);
    StoredEffects(t, log, s);
    InOrderLists(set k' | k' in t.effectsByTxn && !Less(k', prefix));
    assert Stored(t, log[s - 1].rec.id, log[s - 1].effects, id);
    assert k == prefix + id;
    PrefixIsContiguous(prefix, k, k);
  }

  lemma StoredEffects(t: Tables, log: seq<Entry>, s: nat)
    requires OutboxAgrees(t, log) && 1 <= s <= |log|
    ensures IdsUnique(log[s - 1].effects)
    ensures var effects := log[s - 1].effects; forall id :: id in Ids(effects) ==> Stored(t, log[s - 1].rec.id, effects, id)
  {
    var tid, effects := log[s - 1].rec.id, log[s - 1].effects;
    forall id | id in Ids(effects)
      ensures Stored(t, tid, effects, id)
    {
      var e := Find(effects, id);
      var j :| 0 <= j < |effects| && effects[j] == e;
      assert EffectAt(log, s, j, e);
    }
    forall i, j | 0 <= i < j < |effects|
      ensures effects[i].id != effects[j].id
    {
      assert EffectAt(log, s, i, effects[i]) && EffectAt(log, s, j, effects[j]);
    }
  }

  // ---- Change records -------------------------------------------------------------------

  function MakeChange(rec: TransitionRecord, payloads: seq<EffectPayload>): ChangeRecord {
    ChangeRecord(rec.sequence, rec.id, rec.entityId, rec.machine, rec.fromState, rec.toState,
                 rec.event, rec.actor, rec.version, rec.timestamp, rec.ctx, payloads)
  }

  /// What the stream delivers for a log entry.
  function Change(e: Entry): ChangeRecord {
    MakeChange(e.rec, Payloads(InIdOrder(e.effects)))
  }

  /// In some order, exactly the effects that `event` declares.
  ghost predicate CarriesDeclared(effects: seq<EffectPayload>, def: MachineDefinition, event: string) {
    exists ps :: Declares(def, event, ps) && multiset(effects) == multiset(ps)
  }

  /// A change record carries, as a multiset, exactly the effects that its event
  /// declares in the definition used at commit.
  lemma ChangeCarriesDeclared(t: Tables, log: seq<Entry>, s: nat, def: MachineDefinition)
    requires OutboxAgrees(t, log) && 1 <= s <= |log| && FollowsRule(log[s - 1], def)
    ensures CarriesDeclared(Change(log[s - 1]).effects, def, log[s - 1].rec.event)
  {
    StoredEffects(t, log, s);
    InIdOrderPermutes(log[s - 1].effects);
    PayloadsPermute(InIdOrder(log[s - 1].effects), log[s - 1].effects);
  }

  // ---- The stream -------------------------------------------------------------------------

  predicate Passes(filter: Option<string>, machine: string) {
    filter.Some? ==> filter.value == machine
  }

  /// What one entry contributes to a subscription.
  function Emit(e: Entry, filter: Option<string>): seq<ChangeRecord> {
    if Passes(filter, e.rec.machine) then [Change(e)] else []
  }

  /// The change records with sequence in (a, b] that pass the filter, in order.
  function Stream(log: seq<Entry>, filter: Option<string>, a: nat, b: nat): seq<ChangeRecord>
    requires b <= |log|
  {
    if b <= a then [] else Stream(log, filter, a, b - 1) + Emit(log[b - 1], filter)
  }

  /// Stopping anywhere and resuming from there gives the same stream as not
  /// stopping, filtered or not.
  lemma {:induction false} StreamResumes(log: seq<Entry>, filter: Option<string>, a: nat, b: nat, c: nat)
    requires a <= b <= c <= |log|
    ensures Stream(log, filter, a, b) + Stream(log, filter, b, c) == Stream(log, filter, a, c)
  {
    if b == c {
      assert Stream(log, filter, b, c) == [];
    } else {
      StreamResumes(log, filter, a, b, c - 1);
      Associates(Stream(log, filter, a, b), Stream(log, filter, b, c - 1), Emit(log[c - 1], filter));
    }
  }

  /// Appending to the log does not change what was delivered.
  lemma {:induction false} StreamStable(log: seq<Entry>, longer: seq<Entry>, filter: Option<string>, a: nat, b: nat)
    requires log <= longer && b <= |log|
    ensures Stream(log, filter, a, b) == Stream(longer, filter, a, b)
  {
    if a < b {
      StreamStable(log, longer, filter, a, b - 1);
      assert log[b - 1] == longer[b - 1];
    }
  }
}
