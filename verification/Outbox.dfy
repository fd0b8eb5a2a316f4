/**
 The effect outbox: reading pending effects in id order, marking them, and what
 repeated drains do.
 */
module Outbox {
  import opened Core
  import opened Database
  import opened Log
  import opened Ordered
  import opened Reads
  import opened Text

  const DRAIN_LIMIT := 256

  predicate IsPending(t: Tables, id: string) {
    id in t.effects && t.effects[id].status == Pending
  }

  function PendingIds(t: Tables): set<string> {
    set id | id in t.effects && t.effects[id].status == Pending
  }

  /// The pending effects an iteration over `keys` collects.
  function PendingIn(t: Tables, keys: seq<string>): seq<string> {
    if keys == [] then []
    else
      var front, key := keys[..|keys| - 1], keys[|keys| - 1];
      PendingIn(t, front) + if IsPending(t, key) then [key] else []
  }

  /// Ids of the first `limit` pending effects, in id order.
  function PendingRead(t: Tables, limit: nat): seq<string> {
    Take(PendingIn(t, InOrder(t.effects.Keys)), limit)
  }

  function SetStatus(t: Tables, id: string, status: EffectStatus): Tables
    requires id in t.effects
  {
    t.(effects := t.effects[id := t.effects[id].(status := status)])
  }

  /// Each id in turn gets the status that marking it ended with, if any.
  function MarkEach(t: Tables, ids: seq<string>, outcome: nat -> Option<EffectStatus>): Tables {
    if ids == [] then t
    else
      var last := |ids| - 1;
      var t' := MarkEach(t, ids[..last], outcome);
      if outcome(last).Some? && ids[last] in t'.effects then SetStatus(t', ids[last], outcome(last).value) else t'
  }

  function Drained(t: Tables): Tables {
    MarkEach(t, PendingRead(t, DRAIN_LIMIT), i => Some(Published))
  }

  function Drains(t: Tables, times: nat): Tables {
    if times == 0 then t else Drained(Drains(t, times - 1))
  }

  // ---- Marking never loses or edits an effect ---------------------------------------

  ghost predicate SameButStatus(a: Tables, b: Tables) {
    && b == a.(effects := b.effects)
    && a.effects.Keys == b.effects.Keys
    && forall id :: id in a.effects ==> b.effects[id] == a.effects[id].(status := b.effects[id].status)
  }

  lemma SetStatusSame(t: Tables, id: string, status: EffectStatus)
    requires id in t.effects
    ensures SameButStatus(t, SetStatus(t, id, status))
  {
  }

  lemma {:induction false} MarkEachSame(t: Tables, ids: seq<string>, outcome: nat -> Option<EffectStatus>)
    ensures SameButStatus(t, MarkEach(t, ids, outcome))
  {
    if ids != [] {
      MarkEachSame(t, ids[..|ids| - 1], outcome);
    }
  }

  /// The status an effect has after the marking.
  function StatusAfter(before: EffectStatus, ids: seq<string>, id: string, outcome: nat -> Option<EffectStatus>): EffectStatus {
    if ids == [] then before
    else
      var last := |ids| - 1;
      if ids[last] == id && outcome(last).Some? then outcome(last).value
      else StatusAfter(before, ids[..last], id, outcome)
  }

  lemma {:induction false} MarkEachStatus(t: Tables, ids: seq<string>, id: string, outcome: nat -> Option<EffectStatus>)
    requires id in t.effects
    ensures id in MarkEach(t, ids, outcome).effects
    ensures MarkEach(t, ids, outcome).effects[id] == t.effects[id].(status := StatusAfter(t.effects[id].status, ids, id, outcome))
  {
    if ids != [] {
      MarkEachStatus(t, ids[..|ids| - 1], id, outcome);
    }
  }

  lemma {:induction false} AllPublished(before: EffectStatus, ids: seq<string>, id: string)
    ensures StatusAfter(before, ids, id, i => Some(Published)) == if id in ids then Published else before
  {
    if ids != [] {
      AllPublished(before, ids[..|ids| - 1], id);
    }
  }

  lemma AscendingDiffer(ids: seq<string>)
    requires Ascending(ids)
    ensures forall i, j :: 0 <= i < j < |ids| ==> ids[i] != ids[j]
  {
    forall i, j | 0 <= i < j < |ids|
      ensures ids[i] != ids[j]
    {
      LessIrreflexive(ids[i]);
    }
  }

  /// Among distinct ids each gets what its own marking ended with, and no other id anything.
  lemma {:induction false} MarkedOnce(before: EffectStatus, ids: seq<string>, id: string, outcome: nat -> Option<EffectStatus>)
    requires forall i, j :: 0 <= i < j < |ids| ==> ids[i] != ids[j]
    ensures forall i :: 0 <= i < |ids| && ids[i] == id ==>
              StatusAfter(before, ids, id, outcome) == if outcome(i).Some? then outcome(i).value else before
    ensures id !in ids ==> StatusAfter(before, ids, id, outcome) == before
  {
    if ids != [] {
      MarkedOnce(before, ids[..|ids| - 1], id, outcome);
    }
  }

  /// Whatever is marked, the tables go on agreeing with the same log.
  lemma StatusKeepsAgreement(t: Tables, t': Tables, log: seq<Entry>)
    requires Represents(t, log) && SameButStatus(t, t')
    ensures Represents(t', log)
  {
    assert IndexesAgree(t', log) && StatesAgree(t', log);
    assert OutboxAgrees(t', log) by { StatusKeepsOutbox(t, t', log); }
  }

  lemma StatusKeepsOutbox(t: Tables, t': Tables, log: seq<Entry>)
    requires OutboxAgrees(t, log) && SameButStatus(t, t')
    ensures OutboxAgrees(t', log)
  {
    forall s, j, e | EffectAt(log, s, j, e)
      ensures e.id in t'.effects && t'.effects[e.id] == e.(status := t'.effects[e.id].status)
    {
      assert e.id in t.effects;
    }
  }

  // ---- What a commit adds -------------------------------------------------------------

  function EffectIds(effects: seq<Effect>): set<string> {
    set i | 0 <= i < |effects| :: effects[i].id
  }

  lemma {:induction false} DistinctIds(effects: seq<Effect>)
    requires forall i, j :: 0 <= i < j < |effects| ==> effects[i].id != effects[j].id
    ensures |EffectIds(effects)| == |effects|
  {
    if effects != [] {
      var front, last := effects[..|effects| - 1], effects[|effects| - 1];
      DistinctIds(front);
      assert EffectIds(effects) == EffectIds(front) + {last.id};
      assert last.id !in EffectIds(front);
    }
  }

  predicate AllPending(effects: seq<Effect>) {
    forall i :: 0 <= i < |effects| ==> effects[i].status == Pending
  }

  lemma PutPending(table: map<string, Effect>, transition: string, effects: seq<Effect>)
    requires NewEffects(table, transition, effects) && AllPending(effects)
    ensures var r := PutEffects(table, effects);
            forall id :: id in r && r[id].status == Pending <==> (id in table && table[id].status == Pending) || id in EffectIds(effects)
    ensures table.Keys !! EffectIds(effects) && |EffectIds(effects)| == |effects|
  {
    PutEffectsMeaning(table, effects);
    DistinctIds(effects);
  }

  lemma NewPending(t: Tables, p: Prepared)
    requires NewEffects(t.effects, p.rec.id, p.effects) && AllPending(p.effects)
    ensures PendingIds(Written(t, p)) == PendingIds(t) + EffectIds(p.effects)
    ensures PendingIds(t) !! EffectIds(p.effects) && |EffectIds(p.effects)| == |p.effects|
  {
    PutPending(t.effects, p.rec.id, p.effects);
  }

  /// A commit adds exactly its own effects to the pending ones, one for each rule of its
  /// event.
  lemma CommitAddsPending(t: Tables, call: Call, def: MachineDefinition, row: Option<EntityState>, guards: map<string, Guard>, inp: Inputs)
    requires Fresh(t, inp) && Prepare(call, def, row, guards, inp).Ok?
    ensures var p := Prepare(call, def, row, guards, inp).value;
            && PendingIds(Written(t, p)) == PendingIds(t) + EffectIds(p.effects) && PendingIds(t) !! EffectIds(p.effects)
            && exists pos :: FiresAt(def.effects, call.event, pos) && |EffectIds(p.effects)| == |pos|
  {
    var p := Prepare(call, def, row, guards, inp).value;
    PreparedQueued(call, def, row, guards, inp);
    PreparedRecord(call, def, row, guards, inp);
    PreparedAreNew(t, call, def, row, guards, inp);
    NewPending(t, p);
    PreparedDeclares(call, def, row, guards, inp);
    assert |Payloads(p.effects)| == |p.effects|;
  }

  // ---- What one read finds ---------------------------------------------------------

  lemma {:induction false} PendingInFinds(t: Tables, keys: seq<string>)
    requires Ascending(keys)
    ensures forall id :: id in PendingIn(t, keys) <==> id in keys && IsPending(t, id)
    ensures Ascending(PendingIn(t, keys))
  {
    if keys != [] {
      var front, key := keys[..|keys| - 1], keys[|keys| - 1];
      PendingInFinds(t, front);
      assert forall k :: k in keys <==> k in front || k == key;
      var p := PendingIn(t, front);
      forall i | 0 <= i < |p|
        ensures Less(p[i], key)
      {
        assert p[i] in front;
      }
    }
  }

  lemma {:induction false} AscendingSize(s: seq<string>, ids: set<string>)
    requires Ascending(s) && forall id :: id in s <==> id in ids
    ensures |s| == |ids|
  {
    if s == [] {
      assert ids == {};
    } else {
      TailMembers(s);
      assert s[0] in ids;
      AscendingSize(s[1..], ids - {s[0]});
    }
  }

  lemma PendingReadIs(t: Tables, limit: nat)
    ensures var ids := PendingRead(t, limit);
            && Ascending(ids)
            && (forall id :: id in ids ==> id in PendingIds(t))
            && |ids| == (if |PendingIds(t)| < limit then |PendingIds(t)| else limit)
            && (forall id, other :: id in ids && other in PendingIds(t) && other !in ids ==> Less(id, other))
  {
    var keys := InOrder(t.effects.Keys);
    var all := PendingIn(t, keys);
    InOrderLists(t.effects.Keys);
    PendingInFinds(t, keys);
    AscendingSize(all, PendingIds(t));
    assert forall id :: id in Take(all, limit) ==> id in all;
    assert forall id :: id in all && id !in Take(all, limit) ==> exists j :: |Take(all, limit)| <= j < |all| && all[j] == id;
  }

  // ---- Drains ------------------------------------------------------------------------

  /// One drain moves exactly min(256, pending) effects, those with the least ids, from
  /// Pending to Published and touches nothing else.
  lemma DrainMoves(t: Tables)
    ensures var t', moved := Drained(t), set id | id in PendingRead(t, DRAIN_LIMIT);
            && SameButStatus(t, t')
            && moved <= PendingIds(t)
            && |moved| == (if |PendingIds(t)| < DRAIN_LIMIT then |PendingIds(t)| else DRAIN_LIMIT)
            && (forall id :: id in t.effects ==>
                  t'.effects[id] == if id in moved then t.effects[id].(status := Published) else t.effects[id])
            && PendingIds(t') == PendingIds(t) - moved
            && (forall id, other :: id in moved && other in PendingIds(t') ==> Less(id, other))
  {
    var ids := PendingRead(t, DRAIN_LIMIT);
    PendingReadIs(t, DRAIN_LIMIT);
    MarkEachSame(t, ids, i => Some(Published));
    AscendingSize(ids, set id | id in ids);
    forall id | id in t.effects
      ensures Drained(t).effects[id] == if id in ids then t.effects[id].(status := Published) else t.effects[id]
    {
      MarkEachStatus(t, ids, id, i => Some(Published));
      AllPublished(t.effects[id].status, ids, id);
    }
  }

  lemma DrainCount(t: Tables)
    ensures var n := |PendingIds(t)|;
            |PendingIds(Drained(t))| == if n < DRAIN_LIMIT then 0 else n - DRAIN_LIMIT
  {
    DrainMoves(t);
    var moved := set id | id in PendingRead(t, DRAIN_LIMIT);
    assert |PendingIds(t) - moved| == |PendingIds(t)| - |moved|;
  }

  /// With no new commits, `times` drains leave n - 256 * times pending effects, so
  /// the outbox is empty after ceil(n / 256) drains and not before.
  lemma {:induction false} DrainsEmpty(t: Tables, times: nat)
    ensures var n := |PendingIds(t)|;
            |PendingIds(Drains(t, times))| == if n <= DRAIN_LIMIT * times then 0 else n - DRAIN_LIMIT * times
  {
    if times > 0 {
      DrainsEmpty(t, times - 1);
      DrainCount(Drains(t, times - 1));
    }
  }

  /// Every pending effect is published by one of those drains.
  lemma {:induction false} PendingIsPublished(t: Tables, id: string, times: nat) returns (n: nat)
    requires id in PendingIds(t) && |PendingIds(t)| <= DRAIN_LIMIT * times
    ensures n < times && id in PendingIds(Drains(t, n))
    ensures Drains(t, n + 1).effects.Keys == t.effects.Keys && Drains(t, n + 1).effects[id].status == Published
  {
    DrainsEmpty(t, times);
    n := LastPending(t, id, times);
    DrainsKeep(t, n);
    DrainMoves(Drains(t, n));
  }

  lemma {:induction false} DrainsKeep(t: Tables, times: nat)
    ensures Drains(t, times).effects.Keys == t.effects.Keys
  {
    if times > 0 {
      DrainsKeep(t, times - 1);
      DrainMoves(Drains(t, times - 1));
    }
  }

  lemma {:induction false} LastPending(t: Tables, id: string, times: nat) returns (n: nat)
    requires id in PendingIds(t) && id !in PendingIds(Drains(t, times))
    ensures n < times && id in PendingIds(Drains(t, n)) && id !in PendingIds(Drains(t, n + 1))
  {
    n := times - 1;
    if id !in PendingIds(Drains(t, n)) {
      n := LastPending(t, id, n);
    }
  }
}
