/**
 The storage engine's tables as a value, the reads and the commit transaction as
 functions of it, and `Represents`: the tables agree with the log, in both
 directions, column by column.
 */
module Database {
  import opened Core
  import opened Keys
  import opened Log
  import opened Text

  datatype Tables = Tables(
    machines: map<string, MachineDefinition>,
    entityStates: map<string, EntityState>,
    transitions: map<nat, TransitionRecord>,
    transitionsById: map<string, nat>,
    entityTransitions: map<string, nat>,
    effects: map<string, Effect>,
    effectsByTxn: map<string, string>,
    idempotency: map<string, nat>,
    meta: map<string, nat>)

  const META_SEQUENCE := "sequence"

  const Empty := Tables(map[], map[], map[], map[], map[], map[], map[], map[], map[])

  function Sequence(t: Tables): nat {
    if META_SEQUENCE in t.meta then t.meta[META_SEQUENCE] else 0
  }

  // ---- Point reads ------------------------------------------------------------

  function GetMachine(t: Tables, name: string): Option<MachineDefinition> {
    if name in t.machines then Some(t.machines[name]) else None
  }

  function GetEntityState(t: Tables, entity: string, machine: string): Option<EntityState> {
    var key := StateKey(entity, machine);
    if key in t.entityStates then Some(t.entityStates[key]) else None
  }

  function RecordAt(t: Tables, sequence: nat): Option<TransitionRecord> {
    if sequence in t.transitions then Some(t.transitions[sequence]) else None
  }

  /// `Err` stands for an index row without its log record.
  function CheckIdempotency(t: Tables, key: string): Result<Option<TransitionRecord>, EngineError> {
    if key !in t.idempotency then Ok(None)
    else
      match RecordAt(t, t.idempotency[key])
      case None => Err(StorageFailure)
      case Some(rec) => Ok(Some(rec))
  }

  function GetTransition(t: Tables, id: string): Option<TransitionRecord> {
    if id in t.transitionsById then RecordAt(t, t.transitionsById[id]) else None
  }

  // ---- The commit transaction ---------------------------------------------------

  function PutEffects(table: map<string, Effect>, effects: seq<Effect>): map<string, Effect> {
    if effects == [] then table
    else
      var last := effects[|effects| - 1];
      PutEffects(table, effects[..|effects| - 1])[last.id := last]
  }

  function IndexEffects(table: map<string, string>, effects: seq<Effect>): map<string, string> {
    if effects == [] then table
    else
      var last := effects[|effects| - 1];
      IndexEffects(table, effects[..|effects| - 1])[EffectKey(last.transitionId, last.id) := last.id]
  }

  /// The conflict the transaction finds in the projection, if any.
  function StaleVersion(t: Tables, state: EntityState): Option<EngineError> {
    var previous := if state.version == 0 then 0 else state.version - 1;
    match GetEntityState(t, state.entityId, state.machine)
    case None => None
    case Some(row) =>
      if row.version == previous then None else Some(StorageVersionConflict(previous, row.version))
  }

  /// The tables after a successful commit.
  function Written(t: Tables, p: Prepared): Tables {
    var next := Sequence(t) + 1;
    var rec := p.rec.(sequence := next);
    Tables(
      t.machines,
      t.entityStates[StateKey(p.state.entityId, p.state.machine) := p.state],
      t.transitions[next := rec],
      t.transitionsById[rec.id := next],
      t.entityTransitions[TransitionKey(rec.entityId, rec.machine, next) := next],
      PutEffects(t.effects, p.effects),
      IndexEffects(t.effectsByTxn, p.effects),
      if rec.idempotencyKey.Some? then t.idempotency[rec.idempotencyKey.value := next] else t.idempotency,
      t.meta[META_SEQUENCE := next])
  }

  function Commit(t: Tables, p: Prepared): Result<Tables, EngineError> {
    match StaleVersion(t, p.state)
    case Some(e) => Err(e)
    case None =>
      if p.rec.idempotencyKey.Some? && p.rec.idempotencyKey.value in t.idempotency then
        Err(KeyAlreadyExists(p.rec.idempotencyKey.value))
      else
        Ok(Written(t, p))
  }

  // ---- Agreement with the log -----------------------------------------------------

  /// The log table's keys are exactly 1, ..., META.sequence.
  ghost predicate LogAgrees(t: Tables, log: seq<Entry>) {
    && |log| < U64_MAX
    && Sequence(t) == |log|
    && (forall s :: s in t.transitions <==> 1 <= s <= |log|)
    && (forall s :: 1 <= s <= |log| ==> t.transitions[s] == log[s - 1].rec && t.transitions[s].sequence == s)
  }

  ghost predicate IdAt(log: seq<Entry>, s: nat, id: string) {
    1 <= s <= |log| && log[s - 1].rec.id == id
  }

  ghost predicate ByIdAgrees(byId: map<string, nat>, log: seq<Entry>) {
    && (forall s, id :: IdAt(log, s, id) ==> id in byId && byId[id] == s)
    && (forall id :: id in byId ==> IdAt(log, byId[id], id))
  }

  ghost predicate HistoryKeyAt(log: seq<Entry>, s: nat, key: string) {
    1 <= s <= |log| && key == TransitionKey(log[s - 1].rec.entityId, log[s - 1].rec.machine, s)
  }

  ghost predicate HistoryAgrees(index: map<string, nat>, log: seq<Entry>) {
    && (forall s, k :: HistoryKeyAt(log, s, k) ==> k in index && index[k] == s)
    && (forall k :: k in index ==> HistoryKeyAt(log, index[k], k))
  }

  ghost predicate CarriesKey(log: seq<Entry>, s: nat, key: string) {
    1 <= s <= |log| && log[s - 1].rec.idempotencyKey == Some(key)
  }

  ghost predicate KeysAgree(idempotency: map<string, nat>, log: seq<Entry>) {
    && (forall s, k :: CarriesKey(log, s, k) ==> k in idempotency && idempotency[k] == s)
    && (forall k :: k in idempotency ==> CarriesKey(log, idempotency[k], k))
  }

  /// The row under a key is what the key's entries amount to.
  ghost predicate RowAgrees(rows: map<string, EntityState>, log: seq<Entry>, k: string) {
    if ForKey(log, k) == [] then k !in rows else k in rows && rows[k] == RowOf(ForKey(log, k))
  }

  ghost predicate ProjectionAgrees(rows: map<string, EntityState>, log: seq<Entry>) {
    forall k :: RowAgrees(rows, log, k)
  }

  ghost predicate GroupsChained(log: seq<Entry>) {
    forall k :: Chained(ForKey(log, k))
  }

  /// Effect `j` of the transition with sequence number `s`.
  ghost predicate EffectAt(log: seq<Entry>, s: nat, j: nat, e: Effect) {
    1 <= s <= |log| && j < |log[s - 1].effects| && e == log[s - 1].effects[j]
  }

  ghost predicate HasEffect(log: seq<Entry>, id: string) {
    exists s, j, e :: EffectAt(log, s, j, e) && e.id == id
  }

  /// The outbox holds each committed effect, changed at most in its status, and
  /// nothing else.
  ghost predicate EffectsAgree(effects: map<string, Effect>, log: seq<Entry>) {
    && (forall s, j, e :: EffectAt(log, s, j, e) ==> e.id in effects && effects[e.id] == e.(status := effects[e.id].status))
    && (forall id :: id in effects ==> HasEffect(log, id))
  }

  /// An index row points at the effect it was written for.
  ghost predicate IndexRow(log: seq<Entry>, k: string, id: string) {
    exists s, j, e :: EffectAt(log, s, j, e) && k == EffectKey(e.transitionId, e.id) && id == e.id
  }

  ghost predicate EffectIndexAgrees(index: map<string, string>, log: seq<Entry>) {
    && (forall s, j, e :: EffectAt(log, s, j, e) ==>
          var k := EffectKey(e.transitionId, e.id);
          k in index && index[k] == e.id)
    && (forall k :: k in index ==> IndexRow(log, k, index[k]))
  }

  /// Effects name their transition, and no effect id is used twice.
  ghost predicate EffectsOwned(log: seq<Entry>) {
    && (forall s, j, e :: EffectAt(log, s, j, e) ==> e.transitionId == log[s - 1].rec.id && NulFree(e.transitionId))
    && (forall s, j, e, s', j', e' :: EffectAt(log, s, j, e) && EffectAt(log, s', j', e') && e.id == e'.id ==> s == s' && j == j')
  }

  /// The log table and the two indexes that point into it.
  ghost predicate IndexesAgree(t: Tables, log: seq<Entry>) {
    && LogAgrees(t, log)
    && ByIdAgrees(t.transitionsById, log)
    && HistoryAgrees(t.entityTransitions, log)
    && (forall s, id :: IdAt(log, s, id) ==> NulFree(id))
  }

  /// The projection and the idempotency table.
  ghost predicate StatesAgree(t: Tables, log: seq<Entry>) {
    && ProjectionAgrees(t.entityStates, log)
    && GroupsChained(log)
    && KeysAgree(t.idempotency, log)
  }

  ghost predicate OutboxAgrees(t: Tables, log: seq<Entry>) {
    && EffectsAgree(t.effects, log)
    && EffectIndexAgrees(t.effectsByTxn, log)
    && EffectsOwned(log)
  }

  /// The tables are exactly what the log amounts to. (The conditional keeps proofs
  /// that only hand the agreement on from taking it apart clause by clause.)
  ghost predicate Represents(t: Tables, log: seq<Entry>) {
    if IndexesAgree(t, log) && StatesAgree(t, log) && OutboxAgrees(t, log) then true else false
  }

  lemma EmptyRepresentsEmpty()
    ensures Represents(Empty, [])
  {
  }

  // ---- Point reads in terms of the log ----------------------------------------------

  /// At most one record carries an idempotency key, and a lookup returns it.
  lemma IdempotencyLookup(t: Tables, log: seq<Entry>, key: string)
    requires Represents(t, log)
    ensures CheckIdempotency(t, key) == Ok(FindKey(log, key))
    ensures key in t.idempotency <==> FindKey(log, key).Some?
    ensures forall i, j | 0 <= i < |log| && 0 <= j < |log| ::
              log[i].rec.idempotencyKey == Some(key) && log[j].rec.idempotencyKey == Some(key) ==> i == j
  {
    FindKeyFinds(log, key);
    assert forall i :: 0 <= i < |log| && log[i].rec.idempotencyKey == Some(key) ==> CarriesKey(log, i + 1, key);
  }

  lemma ProjectionLookup(t: Tables, log: seq<Entry>, entity: string, machine: string)
    requires Represents(t, log)
    ensures GetEntityState(t, entity, machine) == RowIn(log, StateKey(entity, machine))
  {
    assert RowAgrees(t.entityStates, log, StateKey(entity, machine));
  }

  /// The by-id index finds a record exactly when the log has it.
  lemma TransitionLookup(t: Tables, log: seq<Entry>, id: string)
    requires Represents(t, log)
    ensures match GetTransition(t, id)
            case None => forall i :: 0 <= i < |log| ==> log[i].rec.id != id
            case Some(rec) => rec.id == id && exists i :: 0 <= i < |log| && log[i].rec == rec
  {
    assert forall i :: 0 <= i < |log| && log[i].rec.id == id ==> IdAt(log, i + 1, id);
  }

  // ---- A commit extends the log by one entry -------------------------------------------

  /// UUIDs drawn for a call: new to the database, distinct, and without NUL.
  ghost predicate Fresh(t: Tables, inp: Inputs) {
    && inp.recordId !in t.transitionsById
    && NulFree(inp.recordId)
    && (forall i: nat :: inp.effectId(i) !in t.effects)
    && (forall i: nat, j: nat :: inp.effectId(i) == inp.effectId(j) ==> i == j)
  }

  lemma {:induction false} PutEffectsMeaning(table: map<string, Effect>, effects: seq<Effect>)
    requires forall i :: 0 <= i < |effects| ==> effects[i].id !in table
    requires forall i, j :: 0 <= i < j < |effects| ==> effects[i].id != effects[j].id
    ensures var r := PutEffects(table, effects);
            && (forall i :: 0 <= i < |effects| ==> effects[i].id in r && r[effects[i].id] == effects[i])
            && (forall id :: id in table ==> id in r && r[id] == table[id])
            && (forall id :: id in r && id !in table ==> exists i :: 0 <= i < |effects| && effects[i].id == id)
  {
    if effects != [] {
      var front := effects[..|effects| - 1];
      PutEffectsMeaning(table, front);
      forall id | id in PutEffects(table, effects) && id !in table
        ensures exists i :: 0 <= i < |effects| && effects[i].id == id
      {
        if id != effects[|effects| - 1].id {
          var i :| 0 <= i < |front| && front[i].id == id;
          assert effects[i].id == id;
        }
      }
    }
  }

  lemma {:induction false} IndexEffectsMeaning(table: map<string, string>, effects: seq<Effect>, transition: string)
    requires NulFree(transition)
    requires forall i :: 0 <= i < |effects| ==> effects[i].transitionId == transition
    ensures var r := IndexEffects(table, effects);
            && (forall i :: 0 <= i < |effects| ==>
                  EffectKey(transition, effects[i].id) in r && r[EffectKey(transition, effects[i].id)] == effects[i].id)
            && (forall k :: k in r ==>
                  (k in table && r[k] == table[k])
                  || exists i :: 0 <= i < |effects| && k == EffectKey(transition, effects[i].id) && r[k] == effects[i].id)
            && (forall k :: k in table ==> k in r)
            && (forall k :: k in table && (forall i :: 0 <= i < |effects| ==> k != EffectKey(transition, effects[i].id))
                  ==> r[k] == table[k])
  {
    if effects != [] {
      var front, last := effects[..|effects| - 1], effects[|effects| - 1];
      IndexEffectsMeaning(table, front, transition);
      forall i | 0 <= i < |front| && EffectKey(transition, front[i].id) == EffectKey(transition, last.id)
        ensures front[i].id == last.id
      {
        EffectKeyUnique(transition, front[i].id, transition, last.id);
      }
    }
  }

  lemma LogExtends(t: Tables, log: seq<Entry>, p: Prepared, e: Entry)
    requires LogAgrees(t, log) && |log| + 1 < U64_MAX
    requires e.rec == p.rec.(sequence := |log| + 1)
    ensures LogAgrees(Written(t, p), log + [e])
  {
  }

  lemma ByIdExtends(byId: map<string, nat>, log: seq<Entry>, e: Entry)
    requires ByIdAgrees(byId, log) && e.rec.id !in byId
    ensures ByIdAgrees(byId[e.rec.id := |log| + 1], log + [e])
  {
    assert forall s, id :: IdAt(log + [e], s, id) <==> IdAt(log, s, id) || (s == |log| + 1 && id == e.rec.id);
  }

  lemma HistoryExtends(index: map<string, nat>, log: seq<Entry>, e: Entry)
    requires HistoryAgrees(index, log) && |log| < U64_MAX
    ensures HistoryAgrees(index[TransitionKey(e.rec.entityId, e.rec.machine, |log| + 1) := |log| + 1], log + [e])
  {
    var key := TransitionKey(e.rec.entityId, e.rec.machine, |log| + 1);
    assert forall s, k :: HistoryKeyAt(log + [e], s, k) <==> HistoryKeyAt(log, s, k) || (s == |log| + 1 && k == key);
    if key in index {
      var r := log[index[key] - 1].rec;
      TransitionKeySequence(r.entityId, r.machine, index[key], e.rec.entityId, e.rec.machine, |log| + 1);
      assert false;
    }
  }

  lemma ProjectionExtends(rows: map<string, EntityState>, log: seq<Entry>, e: Entry)
    requires ProjectionAgrees(rows, log)
    ensures ProjectionAgrees(rows[KeyOf(e) := RowOf(ForKey(log, KeyOf(e)) + [e])], log + [e])
  {
    var rows', log' := rows[KeyOf(e) := RowOf(ForKey(log, KeyOf(e)) + [e])], log + [e];
    forall k
      ensures RowAgrees(rows', log', k)
    {
      ForKeyAppend(log, e, k);
      assert RowAgrees(rows, log, k);
    }
  }

  lemma GroupsExtend(log: seq<Entry>, e: Entry)
    requires GroupsChained(log) && Chained(ForKey(log, KeyOf(e)) + [e])
    ensures GroupsChained(log + [e])
  {
    ForKeyAppendEach(log, e);
    forall k
      ensures Chained(ForKey(log + [e], k))
    {
      assert Chained(ForKey(log, k));
    }
  }

  lemma KeysExtend(idempotency: map<string, nat>, log: seq<Entry>, e: Entry)
    requires KeysAgree(idempotency, log)
    requires e.rec.idempotencyKey.Some? ==> e.rec.idempotencyKey.value !in idempotency
    ensures var k := e.rec.idempotencyKey;
            KeysAgree(if k.Some? then idempotency[k.value := |log| + 1] else idempotency, log + [e])
  {
    assert forall s, k :: CarriesKey(log + [e], s, k) <==> CarriesKey(log, s, k) || (s == |log| + 1 && e.rec.idempotencyKey == Some(k));
  }

  /// Effects about to be committed: distinct new ids, one transition.
  ghost predicate NewEffects(table: map<string, Effect>, transition: string, effects: seq<Effect>) {
    && NulFree(transition)
    && (forall i :: 0 <= i < |effects| ==> effects[i].id !in table && effects[i].transitionId == transition)
    && (forall i, j :: 0 <= i < j < |effects| ==> effects[i].id != effects[j].id)
  }

  lemma EffectAtAppend(log: seq<Entry>, e: Entry)
    ensures forall s: nat, j: nat, x :: EffectAt(log + [e], s, j, x)
              <==> EffectAt(log, s, j, x) || (s == |log| + 1 && j < |e.effects| && x == e.effects[j])
  {
  }

  lemma EffectsExtend(table: map<string, Effect>, log: seq<Entry>, e: Entry)
    requires EffectsAgree(table, log) && NewEffects(table, e.rec.id, e.effects)
    ensures EffectsAgree(PutEffects(table, e.effects), log + [e])
  {
    EffectAtAppend(log, e);
    PutEffectsMeaning(table, e.effects);
    forall id | id in PutEffects(table, e.effects)
      ensures HasEffect(log + [e], id)
    {
      if id in table {
        var s, j, x :| EffectAt(log, s, j, x) && x.id == id;
        assert EffectAt(log + [e], s, j, x);
      } else {
        var j :| 0 <= j < |e.effects| && e.effects[j].id == id;
        assert EffectAt(log + [e], |log| + 1, j, e.effects[j]);
      }
    }
  }

  lemma OwnershipExtends(table: map<string, Effect>, log: seq<Entry>, e: Entry)
    requires EffectsAgree(table, log) && EffectsOwned(log) && NewEffects(table, e.rec.id, e.effects)
    ensures EffectsOwned(log + [e])
  {
    EffectAtAppend(log, e);
  }

  lemma OldKeysDiffer(table: map<string, Effect>, log: seq<Entry>, e: Entry, s: nat, j: nat, x: Effect, b: nat)
    requires EffectsAgree(table, log) && EffectsOwned(log) && NewEffects(table, e.rec.id, e.effects)
    requires EffectAt(log, s, j, x) && b < |e.effects|
    ensures EffectKey(x.transitionId, x.id) != EffectKey(e.rec.id, e.effects[b].id)
  {
    if EffectKey(x.transitionId, x.id) == EffectKey(e.rec.id, e.effects[b].id) {
      EffectKeyUnique(x.transitionId, x.id, e.rec.id, e.effects[b].id);
    }
  }

  lemma EffectIndexExtends(table: map<string, Effect>, index: map<string, string>, log: seq<Entry>, e: Entry)
    requires EffectsAgree(table, log) && EffectsOwned(log) && EffectIndexAgrees(index, log)
    requires NewEffects(table, e.rec.id, e.effects)
    ensures EffectIndexAgrees(IndexEffects(index, e.effects), log + [e])
  {
    var index', log' := IndexEffects(index, e.effects), log + [e];
    IndexEffectsMeaning(index, e.effects, e.rec.id);
    forall s: nat, j: nat, x | EffectAt(log', s, j, x)
      ensures var k := EffectKey(x.transitionId, x.id); k in index' && index'[k] == x.id
    {
      if s <= |log| {
        assert EffectAt(log, s, j, x);
        forall b | 0 <= b < |e.effects|
          ensures EffectKey(x.transitionId, x.id) != EffectKey(e.rec.id, e.effects[b].id)
        {
          OldKeysDiffer(table, log, e, s, j, x, b);
        }
      }
    }
    forall k | k in index'
      ensures IndexRow(log', k, index'[k])
    {
      if k in index && index'[k] == index[k] {
        assert IndexRow(log, k, index[k]);
        var s, j, x :| EffectAt(log, s, j, x) && k == EffectKey(x.transitionId, x.id) && index[k] == x.id;
        assert EffectAt(log', s, j, x);
      } else {
        var b :| 0 <= b < |e.effects| && k == EffectKey(e.rec.id, e.effects[b].id) && index'[k] == e.effects[b].id;
        assert EffectAt(log', |log| + 1, b, e.effects[b]);
      }
    }
  }

  lemma QueuedAreNew(t: Tables, effects: seq<Effect>, inp: Inputs)
    requires Fresh(t, inp) && Queued(effects, inp)
    ensures NewEffects(t.effects, inp.recordId, effects)
  {
  }

  lemma PreparedAreNew(t: Tables, call: Call, def: MachineDefinition, row: Option<EntityState>, guards: map<string, Guard>, inp: Inputs)
    requires Fresh(t, inp) && Prepare(call, def, row, guards, inp).Ok?
    ensures NewEffects(t.effects, inp.recordId, Prepare(call, def, row, guards, inp).value.effects)
  {
    PreparedQueued(call, def, row, guards, inp);
    QueuedAreNew(t, Prepare(call, def, row, guards, inp).value.effects, inp);
  }

  lemma IndexesExtend(t: Tables, log: seq<Entry>, p: Prepared, e: Entry)
    requires IndexesAgree(t, log) && |log| + 1 < U64_MAX
    requires e.rec == p.rec.(sequence := |log| + 1) && e.rec.id !in t.transitionsById && NulFree(e.rec.id)
    ensures IndexesAgree(Written(t, p), log + [e])
  {
    LogExtends(t, log, p, e);
    ByIdExtends(t.transitionsById, log, e);
    HistoryExtends(t.entityTransitions, log, e);
    assert forall s, id :: IdAt(log + [e], s, id) ==> IdAt(log, s, id) || id == e.rec.id;
  }

  lemma StatesExtend(t: Tables, log: seq<Entry>, p: Prepared, e: Entry)
    requires StatesAgree(t, log) && Sequence(t) == |log|
    requires e.rec == p.rec.(sequence := |log| + 1)
    requires e.rec.idempotencyKey.Some? ==> e.rec.idempotencyKey.value !in t.idempotency
    requires KeyOf(e) == StateKey(p.state.entityId, p.state.machine)
    requires p.state == RowOf(ForKey(log, KeyOf(e)) + [e]) && Chained(ForKey(log, KeyOf(e)) + [e])
    ensures StatesAgree(Written(t, p), log + [e])
  {
    ProjectionExtends(t.entityStates, log, e);
    GroupsExtend(log, e);
    KeysExtend(t.idempotency, log, e);
  }

  lemma OutboxExtends(t: Tables, log: seq<Entry>, p: Prepared, e: Entry)
    requires OutboxAgrees(t, log) && e.effects == p.effects && NewEffects(t.effects, e.rec.id, e.effects)
    ensures OutboxAgrees(Written(t, p), log + [e])
  {
    EffectsExtend(t.effects, log, e);
    OwnershipExtends(t.effects, log, e);
    EffectIndexExtends(t.effects, t.effectsByTxn, log, e);
  }

  /// A commit is refused exactly for a row that is not one version behind, which is
  /// reported first, or for a used key.
  lemma CommitOutcome(t: Tables, log: seq<Entry>, p: Prepared)
    requires Represents(t, log)
    ensures var n := |ForKey(log, StateKey(p.state.entityId, p.state.machine))|;
            var stale := n > 0 && p.state.version != n + 1;
            var used := p.rec.idempotencyKey.Some? && FindKey(log, p.rec.idempotencyKey.value).Some?;
            Commit(t, p) == if stale then Err(StorageVersionConflict(if p.state.version == 0 then 0 else p.state.version - 1, n))
                            else if used then Err(KeyAlreadyExists(p.rec.idempotencyKey.value))
                            else Ok(Written(t, p))
  {
    assert RowAgrees(t.entityStates, log, StateKey(p.state.entityId, p.state.machine));
    if p.rec.idempotencyKey.Some? {
      IdempotencyLookup(t, log, p.rec.idempotencyKey.value);
    }
  }

  lemma CommitAccepts(t: Tables, log: seq<Entry>, p: Prepared)
    requires StatesAgree(t, log)
    requires p.state.version == |ForKey(log, StateKey(p.state.entityId, p.state.machine))| + 1
    requires p.rec.idempotencyKey.Some? ==> p.rec.idempotencyKey.value !in t.idempotency
    ensures Commit(t, p) == Ok(Written(t, p))
  {
    assert RowAgrees(t.entityStates, log, StateKey(p.state.entityId, p.state.machine));
  }

  /// The commit writes all tables consistently with one more log entry.
  lemma WrittenRepresents(t: Tables, log: seq<Entry>, p: Prepared, e: Entry)
    requires Represents(t, log) && |log| + 1 < U64_MAX
    requires e.rec == p.rec.(sequence := |log| + 1) && e.effects == p.effects
    requires e.rec.id !in t.transitionsById && NewEffects(t.effects, e.rec.id, e.effects)
    requires e.rec.idempotencyKey.Some? ==> e.rec.idempotencyKey.value !in t.idempotency
    requires KeyOf(e) == StateKey(p.state.entityId, p.state.machine)
    requires p.state == RowOf(ForKey(log, KeyOf(e)) + [e]) && Chained(ForKey(log, KeyOf(e)) + [e])
    ensures Represents(Written(t, p), log + [e])
  {
    assert IndexesAgree(Written(t, p), log + [e]) by { IndexesExtend(t, log, p, e); }
    assert StatesAgree(Written(t, p), log + [e]) by { StatesExtend(t, log, p, e); }
    assert OutboxAgrees(Written(t, p), log + [e]) by { OutboxExtends(t, log, p, e); }
  }

  lemma CommitWrites(t: Tables, log: seq<Entry>, call: Call, def: MachineDefinition, guards: map<string, Guard>, inp: Inputs)
    requires Represents(t, log) && Fresh(t, inp) && |log| + 1 < U64_MAX
    requires Prepare(call, def, RowIn(log, CallKey(call)), guards, inp).Ok?
    requires call.key.Some? ==> call.key.value !in t.idempotency
    ensures var p := Prepare(call, def, RowIn(log, CallKey(call)), guards, inp).value;
            Commit(t, p) == Ok(Written(t, p)) && Represents(Written(t, p), log + [EntryOf(log, p, inp)])
  {
    var p := Prepare(call, def, RowIn(log, CallKey(call)), guards, inp).value;
    assert Chained(ForKey(log, CallKey(call)));
    PreparedContinues(call, def, ForKey(log, CallKey(call)), guards, inp, log);
    PreparedRecord(call, def, RowIn(log, CallKey(call)), guards, inp);
    assert NewEffects(t.effects, inp.recordId, p.effects) by {
      PreparedAreNew(t, call, def, RowIn(log, CallKey(call)), guards, inp);
    }
    assert Commit(t, p) == Ok(Written(t, p)) by { CommitAccepts(t, log, p); }
    WrittenRepresents(t, log, p, EntryOf(log, p, inp));
  }

  /// A call whose preparation still matches the projection, and whose key is new,
  /// commits, and the commit extends the log by exactly its entry in every table.
  lemma CommitExtends(t: Tables, log: seq<Entry>, call: Call, def: MachineDefinition, guards: map<string, Guard>, inp: Inputs)
    requires Represents(t, log) && Fresh(t, inp) && |log| + 1 < U64_MAX
    requires Prepare(call, def, RowIn(log, CallKey(call)), guards, inp).Ok?
    requires call.key.Some? ==> call.key.value !in t.idempotency
    ensures var p := Prepare(call, def, RowIn(log, CallKey(call)), guards, inp).value;
            && Commit(t, p) == Ok(Written(t, p))
            && Represents(Written(t, p), log + [EntryOf(log, p, inp)])
            && FollowsRule(EntryOf(log, p, inp), def)
  {
    CommitWrites(t, log, call, def, guards, inp);
    PreparedFollows(call, def, RowIn(log, CallKey(call)), guards, inp, log);
  }
}
