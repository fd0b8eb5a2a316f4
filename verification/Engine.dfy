/**
 The engine as an object on top of the storage engine: defining machines,
 registering guards and running one transition call, each proved against the
 log-level specification.
 */
module Engine {
  import opened Core
  import opened Database
  import opened Log
  import opened Machine
  import opened Storage
  import opened Text

  /// Every stored definition passed validation and is stored under its own name.
  ghost predicate MachinesValid(machines: map<string, MachineDefinition>) {
    forall name :: name in machines ==> machines[name].name == name && WellFormed(machines[name])
  }

  /// Which storage operations of a call succeed.
  datatype CallIo = CallIo(idempotencyRead: bool, machineRead: bool, stateRead: bool, commit: nat -> bool)

  ghost predicate NoFaults(io: CallIo) {
    io.idempotencyRead && io.machineRead && io.stateRead && forall k :: io.commit(k)
  }

  class Engine {
    const storage: RedbEngine
    var guards: map<string, Guard>
    var shuttingDown: bool

    ghost predicate Valid()
      reads this, storage
    {
      storage.Valid() && MachinesValid(storage.db.machines)
    }

    constructor (storage: RedbEngine)
      requires storage.Valid() && MachinesValid(storage.db.machines)
      ensures this.storage == storage && Valid() && guards == map[] && !shuttingDown
    {
      this.storage := storage;
      guards, shuttingDown := map[], false;
    }

    method RegisterGuard(name: string, guard: Guard)
      modifies this`guards
      ensures forall n, state, ctx ::
                GuardPasses(guards, n, state, ctx) <==> if n == name then guard(state, ctx) else GuardPasses(old(guards), n, state, ctx)
    {
      guards := guards[name := guard];
    }

    method Shutdown()
      modifies this`shuttingDown
      ensures shuttingDown
    {
      shuttingDown := true;
    }

    /// A definition is stored exactly when it is well formed, and replaces any
    /// definition of the same name; log and other tables stay as they are.
    method DefineMachine(def: MachineDefinition, ok: bool) returns (accepted: bool)
      requires Valid()
      modifies storage
      ensures Valid() && storage.log == old(storage.log)
      ensures accepted <==> ok && WellFormed(def)
      ensures storage.db == if accepted then old(storage.db).(machines := old(storage.db).machines[def.name := def]) else old(storage.db)
    {
      var verdict := Validate(def);
      if verdict.Err? {
        return false;
      }
      var stored := storage.StoreMachine(def, ok);
      assert storage.Valid();
      return stored.Ok?;
    }

    /// One transition call. With no storage fault it does what the specification
    /// says; whatever fails, a success is the specified success, and a call that does
    /// not commit, be it an error or a replay, leaves every table and the log untouched.
    method Transition(call: Call, inp: Inputs, io: CallIo) returns (r: Result<TransitionResult, EngineError>)
      requires Valid() && Fresh(storage.db, inp) && |storage.log| + 1 < U64_MAX
      modifies storage
      ensures Valid() && storage.db.machines == old(storage.db.machines)
      ensures shuttingDown ==> r == Err(ShuttingDown)
      ensures r.Err? ==> storage.log == old(storage.log)
      ensures storage.log == old(storage.log) ==> storage.db == old(storage.db)
      ensures var v := Atomic(old(storage.log), old(storage.db).machines, guards, call, inp);
              && (r.Ok? ==> r == Outcome(v) && storage.log == Extended(old(storage.log), v))
              && (!shuttingDown && NoFaults(io) ==> r == Outcome(v))
      ensures r.Ok? ==> if storage.log == old(storage.log) then TellsReplay(storage.log, call, r.value)
                        else call.machine in old(storage.db).machines
                             && TellsCommit(old(storage.db).machines[call.machine].initialState, old(storage.db), storage.db,
                                            |storage.log|, call, inp, r.value)
    {
      var step := BeforeCommit(storage.db, storage.log, guards, shuttingDown, call, inp, io);
      if step.Done? {
        return step.result;
      }
      ghost var before, log := storage.db, storage.log;
      r := Finish(call, inp, step.prepared, io.commit);
      if r.Ok? {
        CommitTold(before, log, storage.db, guards, call, inp, r.value);
      }
    }

    /// The write transaction of a call that planned `p`, and the reply to the caller.
    method Finish(call: Call, inp: Inputs, p: Prepared, io: nat -> bool) returns (r: Result<TransitionResult, EngineError>)
      requires Valid() && Fresh(storage.db, inp) && |storage.log| + 1 < U64_MAX
      requires Ready(storage.db, storage.log, guards, call, inp, p)
      modifies storage
      ensures Valid() && storage.db.machines == old(storage.db.machines)
      ensures r.Err? ==> storage.db == old(storage.db) && storage.log == old(storage.log)
      ensures var v := Atomic(old(storage.log), old(storage.db).machines, guards, call, inp);
              && (r.Ok? ==> v.Committed? && r == Outcome(v) && storage.log == Extended(old(storage.log), v))
              && (v.Committed? && (forall k :: io(k)) ==> r.Ok?)
    {
      ghost var before, log := storage.db, storage.log;
      var committed, rec := storage.ExecuteTransition(p.rec, p.state, p.effects, io);
      CommitDecides(before, log, guards, call, inp, p);
      if committed.Err? {
        return Err(committed.error);
      }
      CommitWrites(before, log, call, before.machines[call.machine], guards, inp);
      return Ok(TransitionResult(call.entity, call.machine, p.rec.fromState, p.rec.toState, p.rec.version,
                                 rec.id, committed.value, rec.timestamp));
    }
  }

  /// The result of a commit that took the tables from `before` to `after`, which made the
  /// log `n` records long: the states are those projected before and after it.
  predicate TellsCommit(initial: string, before: Tables, after: Tables, n: nat, call: Call, inp: Inputs, res: TransitionResult) {
    && Moves(res, call, GetEntityState(before, call.entity, call.machine), initial, GetEntityState(after, call.entity, call.machine))
    && res.sequence == n && res.transitionId == inp.recordId && res.timestamp == inp.recordTime
  }

  /// The result of a replay: field by field that of the record which carries the key.
  ghost predicate TellsReplay(log: seq<Entry>, call: Call, res: TransitionResult) {
    call.key.Some? && exists n :: CarriesKey(log, n, call.key.value) && Reports(res, log[n - 1].rec)
  }

  lemma CommitTold(db: Tables, log: seq<Entry>, db': Tables, guards: map<string, Guard>, call: Call, inp: Inputs, res: TransitionResult)
    requires Represents(db, log)
    requires var v := Atomic(log, db.machines, guards, call, inp);
             v.Committed? && Represents(db', log + [v.entry]) && Reports(res, v.entry.rec)
    ensures call.machine in db.machines && TellsCommit(db.machines[call.machine].initialState, db, db', |log| + 1, call, inp, res)
  {
    var log' := log + [Atomic(log, db.machines, guards, call, inp).entry];
    ProjectionLookup(db, log, call.entity, call.machine);
    ProjectionLookup(db', log', call.entity, call.machine);
    CommittedMoves(log, db.machines, guards, call, inp, res);
  }

  lemma ReplayTold(log: seq<Entry>, call: Call)
    requires call.key.Some? && FindKey(log, call.key.value).Some?
    ensures TellsReplay(log, call, ResultOf(FindKey(log, call.key.value).value))
  {
    FindKeyFinds(log, call.key.value);
    var i :| 0 <= i < |log| && log[i].rec == FindKey(log, call.key.value).value;
    assert CarriesKey(log, i + 1, call.key.value);
  }

  datatype Step = Done(result: Result<TransitionResult, EngineError>) | ToCommit(prepared: Prepared)

  /// Everything a call does before its write transaction.
  method BeforeCommit(db: Tables, ghost log: seq<Entry>, guards: map<string, Guard>, shuttingDown: bool,
                      call: Call, inp: Inputs, io: CallIo) returns (step: Step)
    requires Represents(db, log)
    ensures shuttingDown ==> step == Done(Err(ShuttingDown))
    ensures var v := Atomic(log, db.machines, guards, call, inp);
            && (step.Done? && step.result.Ok? ==> v.Replayed? && step.result == Outcome(v))
            && (step.Done? && !shuttingDown && NoFaults(io) ==> !v.Committed? && step.result == Outcome(v))
            && (step.ToCommit? && io.idempotencyRead ==> v.Committed?)
    ensures step.Done? && step.result.Ok? ==> TellsReplay(log, call, step.result.value)
    ensures step.ToCommit? ==> Ready(db, log, guards, call, inp, step.prepared)
  {
    if shuttingDown {
      return Done(Err(ShuttingDown));
    }
    if call.key.Some? {
      IdempotencyLookup(db, log, call.key.value);
      if io.idempotencyRead {
        var found := CheckIdempotency(db, call.key.value);
        if found.Ok? && found.value.Some? {
          ReplayTold(log, call);
          return Done(Ok(ResultOf(found.value.value)));
        }
      }
    }
    if !io.machineRead {
      return Done(Err(StorageFailure));
    }
    var def := GetMachine(db, call.machine);
    if def.None? {
      return Done(Err(UnknownMachine));
    }
    if !io.stateRead {
      return Done(Err(StorageFailure));
    }
    var row := GetEntityState(db, call.entity, call.machine);
    ProjectionLookup(db, log, call.entity, call.machine);
    var prepared := PrepareCall(call, def.value, row, guards, inp);
    match prepared
    case Err(e) => return Done(Err(e));
    case Ok(p) => return ToCommit(p);
  }

  /// A call that planned `p` against the current projection.
  ghost predicate Ready(db: Tables, log: seq<Entry>, guards: map<string, Guard>, call: Call, inp: Inputs, p: Prepared) {
    call.machine in db.machines && Prepare(call, db.machines[call.machine], RowIn(log, CallKey(call)), guards, inp) == Ok(p)
  }

  /// The write transaction of a ready call succeeds exactly when the specification
  /// commits, with the same entry.
  lemma CommitDecides(db: Tables, log: seq<Entry>, guards: map<string, Guard>, call: Call, inp: Inputs, p: Prepared)
    requires Represents(db, log) && Ready(db, log, guards, call, inp, p)
    ensures p.state.updatedAt == inp.now
    ensures Commit(db, p).Ok? ==>
              && Commit(db, p).value == Written(db, p)
              && (call.key.Some? ==> call.key.value !in db.idempotency)
              && Atomic(log, db.machines, guards, call, inp) == Committed(EntryOf(log, p, inp))
    ensures Commit(db, p).Ok? <==> Atomic(log, db.machines, guards, call, inp).Committed?
  {
    PreparedShape(call, db.machines[call.machine], RowIn(log, CallKey(call)), guards, inp);
    if call.key.Some? {
      IdempotencyLookup(db, log, call.key.value);
    }
    ProjectionLookup(db, log, call.entity, call.machine);
    assert StaleVersion(db, p.state).None?;
  }

  lemma PreparedShape(call: Call, def: MachineDefinition, row: Option<EntityState>, guards: map<string, Guard>, inp: Inputs)
    ensures var r := Prepare(call, def, row, guards, inp);
            r.Ok? ==>
              && r.value.rec.idempotencyKey == call.key && r.value.rec.sequence == 0 && r.value.rec.id == inp.recordId
              && r.value.state.entityId == call.entity && r.value.state.machine == call.machine
              && r.value.state.version == (if row.Some? then row.value.version else 0) + 1
              && r.value.state.updatedAt == inp.now
  {
  }

  function Extended(log: seq<Entry>, v: Verdict): seq<Entry> {
    match v
    case Committed(e) => log + [e]
    case _ => log
  }

  /// The steps between the projection read and the commit.
  method PrepareCall(call: Call, def: MachineDefinition, row: Option<EntityState>, guards: map<string, Guard>, inp: Inputs)
    returns (r: Result<Prepared, EngineError>)
    ensures r == Prepare(call, def, row, guards, inp)
  {
    var current, version, createdAt := def.initialState, 0, inp.now;
    if row.Some? {
      current, version, createdAt := row.value.currentState, row.value.version, row.value.createdAt;
    }
    if call.expected.Some? && call.expected.value != version {
      return Err(VersionMismatch(call.expected.value, version));
    }
    var planned := Plan(def.transitions, current, call.event);
    if planned.None? {
      return Err(IllegalTransition(current));
    }
    var rule := planned.value;
    var seen := EntityState(call.entity, call.machine, current, version, inp.guardUpdatedAt, inp.guardCreatedAt);
    var failure := ValidateGuards(rule, GuardResults(guards, rule.guards, seen, call.ctx));
    if failure.Some? {
      return Err(GuardFailed(failure.value));
    }
    var rec := TransitionRecord(inp.recordId, 0, call.entity, call.machine, current, rule.toState,
                                call.event, call.actor, call.ctx, call.key, 0, inp.recordTime);
    var effects := MakeEffects(EffectsOn(def.effects, call.event), rec.id, inp);
    rec := rec.(version := version + 1);
    var state := EntityState(call.entity, call.machine, rule.toState, version + 1, inp.now, createdAt);
    return Ok(Prepared(rec, state, effects));
  }

  /// The scan over a rule's guards returns the first that failed or was not
  /// evaluated.
  method ValidateGuards(rule: TransitionRule, results: map<string, bool>) returns (failure: Option<string>)
    ensures failure == FirstFailure(rule.guards, results)
  {
    var i := 0;
    while i < |rule.guards|
      invariant 0 <= i <= |rule.guards|
      invariant FirstFailure(rule.guards, results) == FirstFailure(rule.guards[i..], results)
    {
      var guard := rule.guards[i];
      if !(guard in results && results[guard]) {
        return Some(guard);
      }
      assert rule.guards[i..][1..] == rule.guards[i + 1..];
      i := i + 1;
    }
    return None;
  }

  // ---- Idempotency across calls ---------------------------------------------------------

  /// Once a record carries a key, every later call with that key is a replay of it,
  /// whatever its entity, machine, event or expected version.
  lemma KeyReplaysForever(t: Tables, log: seq<Entry>, earlier: seq<Entry>, call: Call,
                          machines: map<string, MachineDefinition>, guards: map<string, Guard>, inp: Inputs)
    requires Represents(t, log) && earlier <= log
    requires call.key.Some? && FindKey(earlier, call.key.value).Some?
    ensures Atomic(log, machines, guards, call, inp) == Replayed(FindKey(earlier, call.key.value).value)
  {
    var key := call.key.value;
    FindKeyFinds(earlier, key);
    FindKeyFinds(log, key);
    IdempotencyLookup(t, log, key);
    var i :| 0 <= i < |earlier| && earlier[i].rec == FindKey(earlier, key).value;
    assert log[i] == earlier[i];
    assert FindKey(log, key).Some?;
    var j :| 0 <= j < |log| && log[j].rec == FindKey(log, key).value;
  }

  /// A committed call and every later call with its key return the same result.
  lemma RetryReturnsCommittedResult(t: Tables, before: seq<Entry>, log: seq<Entry>, first: Call, retry: Call,
                                    m1: map<string, MachineDefinition>, g1: map<string, Guard>, in1: Inputs,
                                    m2: map<string, MachineDefinition>, g2: map<string, Guard>, in2: Inputs)
    requires Atomic(before, m1, g1, first, in1).Committed?
    requires Represents(t, log) && before + [Atomic(before, m1, g1, first, in1).entry] <= log
    requires first.key.Some? && retry.key == first.key
    ensures Outcome(Atomic(log, m2, g2, retry, in2)) == Outcome(Atomic(before, m1, g1, first, in1))
    ensures Extended(log, Atomic(log, m2, g2, retry, in2)) == log
  {
    var e := Atomic(before, m1, g1, first, in1).entry;
    FindKeyAppend(before, e, first.key.value);
    KeyReplaysForever(t, log, before + [e], retry, m2, g2, in2);
  }
}
