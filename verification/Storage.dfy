/**
 The storage engine as an object: `db` is the committed state of the database,
 replaced as a whole by a committing write transaction, and `log` is the ghost log
 that the tables are kept in agreement with.

 `io` arguments say which of the numbered storage operations of a call succeed.
 */
module Storage {
  import opened Core
  import opened Database
  import opened Keys
  import opened Log
  import opened Outbox
  import opened Reads
  import opened Scans
  import opened Text

  const U32_MAX := 0xFFFF_FFFF

  class RedbEngine {
    var db: Tables
    ghost var log: seq<Entry>

    ghost predicate Valid()
      reads this
    {
      Represents(db, log)
    }

    constructor ()
      ensures Valid() && db == Empty && log == []
    {
      db, log := Empty, [];
      new;
      EmptyRepresentsEmpty();
    }

    // ---- Writes ------------------------------------------------------------------

    method StoreMachine(def: MachineDefinition, ok: bool) returns (r: Result<(), EngineError>)
      modifies this`db
      ensures r.Ok? <==> ok
      ensures db == if ok then old(db).(machines := old(db).machines[def.name := def]) else old(db)
    {
      if !ok {
        return Err(StorageFailure);
      }
      db := db.(machines := db.machines[def.name := def]);
      return Ok(());
    }

    /// One write transaction. It works on a private copy of the tables, which only
    /// the final commit publishes, so every early return leaves all tables, the
    /// counter included, as they were.
    method ExecuteTransition(record: TransitionRecord, newState: EntityState, effects: seq<Effect>, io: nat -> bool)
      returns (r: Result<nat, EngineError>, rec: TransitionRecord)
      modifies this
      ensures r.Ok? ==>
                && Commit(old(db), Prepared(record, newState, effects)) == Ok(db)
                && r.value == Sequence(db) && rec == record.(sequence := r.value)
                && log == old(log) + [Entry(rec, effects, newState.updatedAt)]
      ensures r.Err? ==> db == old(db) && log == old(log)
      ensures r.Err? ==> Commit(old(db), Prepared(record, newState, effects)) == Err(r.error)
                         || (r.error == StorageFailure && exists k :: !io(k))
    {
      rec := record;
      if !io(0) {
        return Err(StorageFailure), rec;
      }
      var tx := db;
      var next := Sequence(tx) + 1;
      tx := tx.(meta := tx.meta[META_SEQUENCE := next]);
      rec := rec.(sequence := next);
      tx := tx.(transitions := tx.transitions[next := rec]);
      tx := tx.(transitionsById := tx.transitionsById[rec.id := next]);
      tx := tx.(entityTransitions := tx.entityTransitions[TransitionKey(rec.entityId, rec.machine, next) := next]);
      if !io(1) {
        return Err(StorageFailure), rec;
      }

      var key := StateKey(newState.entityId, newState.machine);
      if key in tx.entityStates {
        var previous := if newState.version == 0 then 0 else newState.version - 1;
        if tx.entityStates[key].version != previous {
          return Err(StorageVersionConflict(previous, tx.entityStates[key].version)), rec;
        }
      }
      tx := tx.(entityStates := tx.entityStates[key := newState]);
      if !io(2) {
        return Err(StorageFailure), rec;
      }

      tx := StageEffects(tx, effects);
      if !io(3) {
        return Err(StorageFailure), rec;
      }

      if rec.idempotencyKey.Some? {
        if rec.idempotencyKey.value in tx.idempotency {
          return Err(KeyAlreadyExists(rec.idempotencyKey.value)), rec;
        }
        tx := tx.(idempotency := tx.idempotency[rec.idempotencyKey.value := next]);
      }
      if !io(4) {
        return Err(StorageFailure), rec;
      }
      db, log := tx, log + [Entry(rec, effects, newState.updatedAt)];
      return Ok(next), rec;
    }

    method UpdateEffectStatus(id: string, status: EffectStatus, ok: bool) returns (r: Result<(), EngineError>)
      modifies this`db
      ensures r.Ok? <==> ok && id in old(db).effects
      ensures db == if r.Ok? then SetStatus(old(db), id, status) else old(db)
    {
      if !ok || id !in db.effects {
        return Err(StorageFailure);
      }
      db := db.(effects := db.effects[id := db.effects[id].(status := status)]);
      return Ok(());
    }

    // ---- Reads -------------------------------------------------------------------

    method GetHistory(entity: string, machine: string, limit: Option<nat>, afterSequence: Option<nat>)
      returns (results: seq<TransitionRecord>)
      requires Valid()
      ensures var n := if limit.Some? then limit.value else U32_MAX;
              var after := if afterSequence.Some? then afterSequence.value else 0;
              && results == HistoryRead(db, entity, machine, n, after)
              && (PairsNulFree(log) ==> results == Take(History(log, entity, machine, after), n))
    {
      var n := if limit.Some? then limit.value else U32_MAX;
      var after := if afterSequence.Some? then afterSequence.value else 0;
      results := ScanHistory(db, entity, machine, n, after);
      if PairsNulFree(log) {
        WalkIsHistory(db, log, entity, machine, after);
      }
    }

    method GetTransitionsAfter(after: nat, limit: nat) returns (results: seq<TransitionRecord>)
      requires Valid() && after <= U64_MAX
      ensures results == Take(Records(Tail(log, Resume(after))), limit)
    {
      results := ScanAfter(db, after, limit);
      AfterReadIsTail(db, log, after, limit);
    }

    method ListEntitiesInState(machine: string, state: string) returns (results: seq<EntityState>)
      requires Valid()
      ensures EntitiesDistinct(results)
      ensures forall entity :: Mentions(results, entity) <==> LastEndsIn(log, entity, machine, state)
    {
      results := ScanStates(db, machine, state);
      ListReadMeans(db, log, machine, state);
    }
  }

  method StageEffects(tx: Tables, effects: seq<Effect>) returns (tx': Tables)
    ensures tx' == tx.(effects := PutEffects(tx.effects, effects), effectsByTxn := IndexEffects(tx.effectsByTxn, effects))
  {
    tx' := tx;
    for i := 0 to |effects|
      invariant tx' == tx.(effects := PutEffects(tx.effects, effects[..i]), effectsByTxn := IndexEffects(tx.effectsByTxn, effects[..i]))
    {
      assert effects[..i + 1][..i] == effects[..i];
      var effect := effects[i];
      tx' := tx'.(effects := tx'.effects[effect.id := effect]);
      tx' := tx'.(effectsByTxn := tx'.effectsByTxn[EffectKey(effect.transitionId, effect.id) := effect.id]);
    }
    assert effects[..|effects|] == effects;
  }

  /// What marking the i-th effect of a drain ends with.
  function MarkOutcome(publishOk: nat -> bool, failOk: nat -> bool): nat -> Option<EffectStatus> {
    (i: nat) => if publishOk(i) then Some(Published) else if failOk(i) then Some(Failed) else None
  }

  /// The outbox drain that follows every fan-out: each pending effect of one read
  /// is marked published, or failed if that cannot be written. Without the read nothing
  /// happens.
  method DrainOutbox(storage: RedbEngine, readOk: bool, publishOk: nat -> bool, failOk: nat -> bool)
    requires storage.Valid()
    modifies storage`db
    ensures storage.Valid()
    ensures !readOk ==> storage.db == old(storage.db)
    ensures readOk ==>
              && storage.db == MarkEach(old(storage.db), PendingRead(old(storage.db), DRAIN_LIMIT), MarkOutcome(publishOk, failOk))
              && ((forall i :: publishOk(i)) ==> storage.db == Drained(old(storage.db)))
  {
    if !readOk {
      return;
    }
    ghost var outcome := MarkOutcome(publishOk, failOk);
    var ids := ScanPending(storage.db, DRAIN_LIMIT);
    ghost var t := storage.db;
    for i := 0 to |ids|
      invariant storage.db == MarkEach(t, ids[..i], outcome)
    {
      PendingStays(t, ids, i, outcome);
      var published := storage.UpdateEffectStatus(ids[i], Published, publishOk(i));
      if published.Err? {
        var failed := storage.UpdateEffectStatus(ids[i], Failed, failOk(i));
      }
    }
    assert ids[..|ids|] == ids;
    DrainKeeps(t, ids, storage.log, publishOk, failOk);
  }

  /// Whatever fails: each effect read is published, or failed if it could not be published,
  /// or left pending if neither could be written; no other effect changes.
  lemma FaultyDrain(t: Tables, publishOk: nat -> bool, failOk: nat -> bool, id: string)
    requires id in t.effects
    ensures var ids, t' := PendingRead(t, DRAIN_LIMIT), MarkEach(t, PendingRead(t, DRAIN_LIMIT), MarkOutcome(publishOk, failOk));
            && id in t'.effects && (id !in ids ==> t'.effects[id] == t.effects[id])
            && forall i :: 0 <= i < |ids| && ids[i] == id ==>
                 t'.effects[id] == t.effects[id].(status := if publishOk(i) then Published else if failOk(i) then Failed else Pending)
  {
    var ids, outcome := PendingRead(t, DRAIN_LIMIT), MarkOutcome(publishOk, failOk);
    PendingReadIs(t, DRAIN_LIMIT);
    MarkEachStatus(t, ids, id, outcome);
    AscendingDiffer(ids);
    MarkedOnce(t.effects[id].status, ids, id, outcome);
    assert forall i :: 0 <= i < |ids| ==> ids[i] in ids;
  }

  lemma DrainKeeps(t: Tables, ids: seq<string>, log: seq<Entry>, publishOk: nat -> bool, failOk: nat -> bool)
    requires Represents(t, log) && ids == PendingRead(t, DRAIN_LIMIT)
    ensures Represents(MarkEach(t, ids, MarkOutcome(publishOk, failOk)), log)
    ensures (forall i :: publishOk(i)) ==> MarkEach(t, ids, MarkOutcome(publishOk, failOk)) == Drained(t)
  {
    MarkEachSame(t, ids, MarkOutcome(publishOk, failOk));
    StatusKeepsAgreement(t, MarkEach(t, ids, MarkOutcome(publishOk, failOk)), log);
    if forall i :: publishOk(i) {
      SameMarks(t, ids, MarkOutcome(publishOk, failOk), i => Some(Published));
    }
  }

  lemma PendingStays(t: Tables, ids: seq<string>, i: nat, outcome: nat -> Option<EffectStatus>)
    requires ids == PendingRead(t, DRAIN_LIMIT) && i < |ids|
    ensures ids[i] in MarkEach(t, ids[..i], outcome).effects
    ensures MarkEach(t, ids[..i + 1], outcome)
            == if outcome(i).Some? then SetStatus(MarkEach(t, ids[..i], outcome), ids[i], outcome(i).value) else MarkEach(t, ids[..i], outcome)
  {
    assert ids[..i + 1][..i] == ids[..i];
    PendingReadIs(t, DRAIN_LIMIT);
    assert ids[i] in ids;
    MarkEachSame(t, ids[..i], outcome);
  }

  lemma {:induction false} SameMarks(t: Tables, ids: seq<string>, a: nat -> Option<EffectStatus>, b: nat -> Option<EffectStatus>)
    requires forall i: nat :: a(i) == b(i)
    ensures MarkEach(t, ids, a) == MarkEach(t, ids, b)
  {
    if ids != [] {
      SameMarks(t, ids[..|ids| - 1], a, b);
    }
  }
}
