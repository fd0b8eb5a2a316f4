/**
 The append-only transition log, what the rest of the database means in terms of
 it, and the specification of one transition call run on its own.

 Records are grouped by projection key rather than by (entity, machine) pair, so
 that everything here holds whatever the identifiers contain; `Keys` says when
 the two groupings coincide.
 */
module Log {
  import opened Core
  import opened Keys

  /// A committed transition: its log record, the effects committed with it, and
  /// the clock reading taken when the call read the projection.
  datatype Entry = Entry(rec: TransitionRecord, effects: seq<Effect>, now: Timestamp)

  function KeyOf(e: Entry): string {
    StateKey(e.rec.entityId, e.rec.machine)
  }

  /// The entries with a given projection key, in log order.
  function ForKey(log: seq<Entry>, key: string): seq<Entry> {
    if log == [] then []
    else
      var front, last := log[..|log| - 1], log[|log| - 1];
      ForKey(front, key) + if KeyOf(last) == key then [last] else []
  }

  /// The projection row that a nonempty group of entries amounts to: the last
  /// entry's target state, one version per entry, and the first entry's clock as
  /// creation time.
  function RowOf(es: seq<Entry>): EntityState
    requires es != []
  {
    var last := es[|es| - 1];
    EntityState(last.rec.entityId, last.rec.machine, last.rec.toState, |es|, last.now, es[0].now)
  }

  function RowIn(log: seq<Entry>, key: string): Option<EntityState> {
    var es := ForKey(log, key);
    if es == [] then None else Some(RowOf(es))
  }

  /// The record that carries an idempotency key.
  function FindKey(log: seq<Entry>, key: string): Option<TransitionRecord> {
    if log == [] then None
    else if log[|log| - 1].rec.idempotencyKey == Some(key) then Some(log[|log| - 1].rec)
    else FindKey(log[..|log| - 1], key)
  }

  /// Versions count up from 1 and every entry starts where the previous one ended.
  ghost predicate Chained(es: seq<Entry>) {
    forall i :: 0 <= i < |es| ==>
      es[i].rec.version == i + 1 && (i > 0 ==> es[i].rec.fromState == es[i - 1].rec.toState)
  }

  // ---- Groups and prefixes ----------------------------------------------------

  lemma ForKeyAppend(log: seq<Entry>, e: Entry, key: string)
    ensures ForKey(log + [e], key) == ForKey(log, key) + if KeyOf(e) == key then [e] else []
  {
    assert (log + [e])[..|log|] == log;
  }

  lemma ForKeyAppendEach(log: seq<Entry>, e: Entry)
    ensures forall k :: ForKey(log + [e], k) == if KeyOf(e) == k then ForKey(log, k) + [e] else ForKey(log, k)
  {
    forall k
      ensures ForKey(log + [e], k) == if KeyOf(e) == k then ForKey(log, k) + [e] else ForKey(log, k)
    {
      ForKeyAppend(log, e, k);
    }
  }

  lemma {:induction false} ForKeyPrefix(log: seq<Entry>, n: nat, key: string)
    requires n <= |log|
    ensures ForKey(log[..n], key) <= ForKey(log, key)
  {
    if n < |log| {
      ForKeyPrefix(log[..|log| - 1], n, key);
      assert log[..|log| - 1][..n] == log[..n];
    } else {
      assert log[..n] == log;
    }
  }

  lemma {:induction false} ForKeyMembers(log: seq<Entry>, key: string)
    ensures forall e :: e in ForKey(log, key) <==> e in log && KeyOf(e) == key
  {
    if log != [] {
      var front, last := log[..|log| - 1], log[|log| - 1];
      ForKeyMembers(front, key);
      assert log == front + [last];
    }
  }

  // ---- Keys and pairs ---------------------------------------------------------

  /// The entries of one (entity, machine) pair, in log order.
  function ForPair(log: seq<Entry>, entity: string, machine: string): seq<Entry> {
    if log == [] then []
    else
      var front, last := log[..|log| - 1], log[|log| - 1];
      ForPair(front, entity, machine) + if last.rec.entityId == entity && last.rec.machine == machine then [last] else []
  }

  /// No other pair is logged under the pair's key.
  predicate KeyUnshared(log: seq<Entry>, entity: string, machine: string) {
    forall i :: 0 <= i < |log| && KeyOf(log[i]) == StateKey(entity, machine) ==>
      log[i].rec.entityId == entity && log[i].rec.machine == machine
  }

  /// No two logged pairs share a key.
  predicate KeysUnshared(log: seq<Entry>) {
    forall i, j :: 0 <= i < |log| && 0 <= j < |log| && KeyOf(log[i]) == KeyOf(log[j]) ==>
      log[i].rec.entityId == log[j].rec.entityId && log[i].rec.machine == log[j].rec.machine
  }

  lemma NulFreeUnshared(log: seq<Entry>, entity: string, machine: string)
    requires NulFree(entity) && NulFree(machine)
    ensures KeyUnshared(log, entity, machine)
  {
    forall i | 0 <= i < |log| && KeyOf(log[i]) == StateKey(entity, machine)
      ensures log[i].rec.entityId == entity && log[i].rec.machine == machine
    {
      OnlyOneNul(entity, machine, log[i].rec.entityId, log[i].rec.machine);
    }
  }

  lemma {:induction false} ForPairMembers(log: seq<Entry>, entity: string, machine: string)
    ensures forall e :: e in ForPair(log, entity, machine) <==> e in log && e.rec.entityId == entity && e.rec.machine == machine
  {
    if log != [] {
      var front, last := log[..|log| - 1], log[|log| - 1];
      ForPairMembers(front, entity, machine);
      assert log == front + [last];
    }
  }

  /// A pair's entries are all entries under its key exactly when the key is not shared.
  lemma {:induction false} PairWithinKey(log: seq<Entry>, entity: string, machine: string)
    ensures var own, all := ForPair(log, entity, machine), ForKey(log, StateKey(entity, machine));
            |own| <= |all| && (KeyUnshared(log, entity, machine) ==> own == all) && (!KeyUnshared(log, entity, machine) ==> |own| < |all|)
  {
    if log != [] {
      var front, last := log[..|log| - 1], log[|log| - 1];
      PairWithinKey(front, entity, machine);
      assert forall i :: 0 <= i < |front| ==> log[i] == front[i];
    }
  }

  /// Two moments at which a key's row has one version are moments at which it is
  /// the same row.
  lemma SameVersionSameRow(log: seq<Entry>, n: nat, key: string)
    requires n <= |log| && |ForKey(log[..n], key)| == |ForKey(log, key)|
    ensures ForKey(log[..n], key) == ForKey(log, key)
    ensures RowIn(log[..n], key) == RowIn(log, key)
  {
    ForKeyPrefix(log, n, key);
  }

  lemma FindKeyAppend(log: seq<Entry>, e: Entry, key: string)
    ensures FindKey(log + [e], key) == if e.rec.idempotencyKey == Some(key) then Some(e.rec) else FindKey(log, key)
  {
    assert (log + [e])[..|log|] == log;
  }

  lemma {:induction false} FindKeyFinds(log: seq<Entry>, key: string)
    ensures var r := FindKey(log, key);
            && (r.Some? ==> exists i :: 0 <= i < |log| && log[i].rec == r.value && r.value.idempotencyKey == Some(key))
            && (r.None? ==> forall i :: 0 <= i < |log| ==> log[i].rec.idempotencyKey != Some(key))
  {
    if log != [] {
      FindKeyFinds(log[..|log| - 1], key);
    }
  }

  // ---- One call ---------------------------------------------------------------

  datatype Call = Call(
    entity: string, machine: string, event: string, actor: string, ctx: Json,
    expected: Option<nat>, key: Option<string>)

  /// What a call takes from its surroundings: clock readings and fresh UUIDs.
  datatype Inputs = Inputs(
    now: Timestamp, guardUpdatedAt: Timestamp, guardCreatedAt: Timestamp,
    recordId: string, recordTime: Timestamp, effectId: nat -> string, effectTime: nat -> Timestamp)

  datatype TransitionResult = TransitionResult(
    entityId: string, machine: string, fromState: string, toState: string, version: nat,
    transitionId: string, sequence: nat, timestamp: Timestamp)

  datatype EngineError =
    | ShuttingDown
    | UnknownMachine
    | VersionMismatch(expected: nat, actual: nat)
    | IllegalTransition(currentState: string)
    | GuardFailed(guard: string)
    | StorageVersionConflict(expected: nat, actual: nat)
    | KeyAlreadyExists(key: string)
    | StorageFailure

  /// What a call hands to the storage engine for commit.
  datatype Prepared = Prepared(rec: TransitionRecord, state: EntityState, effects: seq<Effect>)

  function CallKey(call: Call): string {
    StateKey(call.entity, call.machine)
  }

  function ResultOf(rec: TransitionRecord): TransitionResult {
    TransitionResult(rec.entityId, rec.machine, rec.fromState, rec.toState, rec.version, rec.id, rec.sequence, rec.timestamp)
  }

  /// The result says of each field what the record says.
  predicate Reports(res: TransitionResult, rec: TransitionRecord) {
    && res.entityId == rec.entityId && res.machine == rec.machine
    && res.fromState == rec.fromState && res.toState == rec.toState && res.version == rec.version
    && res.transitionId == rec.id && res.sequence == rec.sequence && res.timestamp == rec.timestamp
  }

  /// The result is about the call's own pair, and takes it from the row before to the
  /// row after, or from the initial state if there was no row.
  predicate Moves(res: TransitionResult, call: Call, before: Option<EntityState>, initial: string, after: Option<EntityState>) {
    && res.entityId == call.entity && res.machine == call.machine
    && res.fromState == (if before.Some? then before.value.currentState else initial)
    && after.Some? && res.toState == after.value.currentState && res.version == after.value.version
    && after.value.version == (if before.Some? then before.value.version else 0) + 1
  }

  function MakeEffects(rules: seq<EffectRule>, transition: string, inp: Inputs): (effects: seq<Effect>)
    ensures |effects| == |rules|
  {
    seq(|rules|, i requires 0 <= i < |rules| =>
      Effect(inp.effectId(i), transition, rules[i].effect,
             if rules[i].payload.Some? then rules[i].payload.value else Null, Pending, inp.effectTime(i)))
  }

  /// Everything between the projection read and the commit: the expected-version
  /// check, planning, guards, and building what is to be committed.
  function Prepare(call: Call, def: MachineDefinition, row: Option<EntityState>,
                   guards: map<string, Guard>, inp: Inputs): (r: Result<Prepared, EngineError>)
  {
    var current := if row.Some? then row.value.currentState else def.initialState;
    var version := if row.Some? then row.value.version else 0;
    var createdAt := if row.Some? then row.value.createdAt else inp.now;
    if call.expected.Some? && call.expected.value != version then
      Err(VersionMismatch(call.expected.value, version))
    else
      match Plan(def.transitions, current, call.event)
      case None => Err(IllegalTransition(current))
      case Some(rule) =>
        var seen := EntityState(call.entity, call.machine, current, version, inp.guardUpdatedAt, inp.guardCreatedAt);
        match FirstFailure(rule.guards, GuardResults(guards, rule.guards, seen, call.ctx))
        case Some(g) => Err(GuardFailed(g))
        case None =>
          var rec := TransitionRecord(inp.recordId, 0, call.entity, call.machine, current, rule.toState,
                                      call.event, call.actor, call.ctx, call.key, version + 1, inp.recordTime);
          var state := EntityState(call.entity, call.machine, rule.toState, version + 1, inp.now, createdAt);
          Ok(Prepared(rec, state, MakeEffects(EffectsOn(def.effects, call.event), inp.recordId, inp)))
  }

  datatype Verdict = Rejected(error: EngineError) | Replayed(rec: TransitionRecord) | Committed(entry: Entry)

  /// The specification: what a call does when it runs alone against a log.
  function Atomic(log: seq<Entry>, machines: map<string, MachineDefinition>, guards: map<string, Guard>,
                  call: Call, inp: Inputs): Verdict
  {
    if call.key.Some? && FindKey(log, call.key.value).Some? then
      Replayed(FindKey(log, call.key.value).value)
    else if call.machine !in machines then
      Rejected(UnknownMachine)
    else
      match Prepare(call, machines[call.machine], RowIn(log, CallKey(call)), guards, inp)
      case Err(e) => Rejected(e)
      case Ok(p) => Committed(EntryOf(log, p, inp))
  }

  function EntryOf(log: seq<Entry>, p: Prepared, inp: Inputs): Entry {
    Entry(p.rec.(sequence := |log| + 1), p.effects, inp.now)
  }

  function Outcome(v: Verdict): Result<TransitionResult, EngineError> {
    match v
    case Rejected(e) => Err(e)
    case Replayed(rec) => Ok(ResultOf(rec))
    case Committed(entry) => Ok(ResultOf(entry.rec))
  }

  /// The payloads that `event` declares in a definition: one for each of its effect
  /// rules, in order, with the rule's name and payload, or `Null` if it has none.
  ghost predicate Declares(def: MachineDefinition, event: string, ps: seq<EffectPayload>) {
    exists pos :: FiresAt(def.effects, event, pos) && PayloadsOf(def.effects, pos, ps)
  }

  predicate PayloadsOf(rules: seq<EffectRule>, pos: seq<nat>, ps: seq<EffectPayload>) {
    |ps| == |pos| && forall k :: 0 <= k < |pos| ==> pos[k] < |rules| && ps[k] == RulePayload(rules[pos[k]])
  }

  function RulePayload(rule: EffectRule): EffectPayload {
    EffectPayload(rule.effect, match rule.payload case Some(p) => p case None => Null)
  }

  function Payload(e: Effect): EffectPayload {
    EffectPayload(e.effectName, e.payload)
  }

  function Payloads(effects: seq<Effect>): (ps: seq<EffectPayload>)
    ensures |ps| == |effects|
  {
    if effects == [] then [] else [Payload(effects[0])] + Payloads(effects[1..])
  }

  lemma {:induction false} PayloadsAt(effects: seq<Effect>)
    ensures forall i :: 0 <= i < |effects| ==> Payloads(effects)[i] == Payload(effects[i])
  {
    if effects != [] {
      PayloadsAt(effects[1..]);
    }
  }

  /// The entry performs a rule of `def`, with that event's declared effects.
  ghost predicate FollowsRule(entry: Entry, def: MachineDefinition) {
    if Performs(entry.rec, def) && Declares(def, entry.rec.event, Payloads(entry.effects)) then true else false
  }

  ghost predicate Performs(rec: TransitionRecord, def: MachineDefinition) {
    exists rule :: rule in def.transitions && Matches(rule, rec.fromState, rec.event) && rec.toState == rule.toState
  }

  lemma PreparedPerforms(call: Call, def: MachineDefinition, row: Option<EntityState>, guards: map<string, Guard>, inp: Inputs)
    requires Prepare(call, def, row, guards, inp).Ok?
    ensures Performs(Prepare(call, def, row, guards, inp).value.rec, def)
    ensures Prepare(call, def, row, guards, inp).value.rec.event == call.event
  {
  }

  lemma PerformsNumbered(rec: TransitionRecord, n: nat, def: MachineDefinition)
    requires Performs(rec, def)
    ensures Performs(rec.(sequence := n), def)
  {
  }

  lemma PreparedFollows(call: Call, def: MachineDefinition, row: Option<EntityState>, guards: map<string, Guard>, inp: Inputs, log: seq<Entry>)
    requires Prepare(call, def, row, guards, inp).Ok?
    ensures FollowsRule(EntryOf(log, Prepare(call, def, row, guards, inp).value, inp), def)
  {
    PreparedPerforms(call, def, row, guards, inp);
    PerformsNumbered(Prepare(call, def, row, guards, inp).value.rec, |log| + 1, def);
    PreparedDeclares(call, def, row, guards, inp);
  }

  /// Effects as they enter the outbox: pending, under the transition, one UUID each.
  ghost predicate Queued(effects: seq<Effect>, inp: Inputs) {
    forall k :: 0 <= k < |effects| ==>
      effects[k].status == Pending && effects[k].id == inp.effectId(k)
      && effects[k].transitionId == inp.recordId && effects[k].createdAt == inp.effectTime(k)
  }

  lemma PreparedQueued(call: Call, def: MachineDefinition, row: Option<EntityState>, guards: map<string, Guard>, inp: Inputs)
    requires Prepare(call, def, row, guards, inp).Ok?
    ensures Queued(Prepare(call, def, row, guards, inp).value.effects, inp)
  {
  }

  lemma MadePayloads(rules: seq<EffectRule>, pos: seq<nat>, picked: seq<EffectRule>, transition: string, inp: Inputs)
    requires Picks(rules, pos, picked)
    ensures PayloadsOf(rules, pos, Payloads(MakeEffects(picked, transition, inp)))
  {
    PayloadsAt(MakeEffects(picked, transition, inp));
  }

  lemma MadeDeclares(def: MachineDefinition, event: string, transition: string, inp: Inputs)
    ensures Declares(def, event, Payloads(MakeEffects(EffectsOn(def.effects, event), transition, inp)))
  {
    var pos := EffectsOnFires(def.effects, event);
    MadePayloads(def.effects, pos, EffectsOn(def.effects, event), transition, inp);
  }

  lemma PreparedDeclares(call: Call, def: MachineDefinition, row: Option<EntityState>, guards: map<string, Guard>, inp: Inputs)
    requires Prepare(call, def, row, guards, inp).Ok?
    ensures Declares(def, call.event, Payloads(Prepare(call, def, row, guards, inp).value.effects))
  {
    MadeDeclares(def, call.event, inp.recordId, inp);
  }

  /// What a successful preparation amounts to, in the terms of the log: the
  /// record continues the key's group of entries by one legal step.
  lemma PreparedContinues(call: Call, def: MachineDefinition, es: seq<Entry>, guards: map<string, Guard>,
                          inp: Inputs, log: seq<Entry>)
    requires Chained(es)
    ensures var row := if es == [] then None else Some(RowOf(es));
            var r := Prepare(call, def, row, guards, inp);
            r.Ok? ==>
              var entry := EntryOf(log, r.value, inp);
              && (call.expected.Some? ==> call.expected.value == |es|)
              && Chained(es + [entry])
              && FollowsRule(entry, def)
              && (es == [] ==> entry.rec.fromState == def.initialState)
              && RowOf(es + [entry]) == r.value.state
              && KeyOf(entry) == CallKey(call)
              && entry.rec.idempotencyKey == call.key
              && entry.rec.event == call.event && entry.rec.actor == call.actor && entry.rec.ctx == call.ctx
  {
    var row := if es == [] then None else Some(RowOf(es));
    var r := Prepare(call, def, row, guards, inp);
    if r.Ok? {
      PreparedFollows(call, def, row, guards, inp, log);
    }
  }

  lemma PreparedRecord(call: Call, def: MachineDefinition, row: Option<EntityState>, guards: map<string, Guard>, inp: Inputs)
    requires Prepare(call, def, row, guards, inp).Ok?
    ensures var rec := Prepare(call, def, row, guards, inp).value.rec;
            && rec.entityId == call.entity && rec.machine == call.machine && rec.id == inp.recordId && rec.timestamp == inp.recordTime
            && rec.event == call.event && rec.actor == call.actor && rec.ctx == call.ctx && rec.idempotencyKey == call.key
            && rec.fromState == (if row.Some? then row.value.currentState else def.initialState)
            && rec.version == (if row.Some? then row.value.version else 0) + 1
  {
  }

  lemma RowMoves(log: seq<Entry>, e: Entry, call: Call, initial: string, res: TransitionResult)
    requires KeyOf(e) == CallKey(call) && Reports(res, e.rec) && res.entityId == call.entity && res.machine == call.machine
    requires var row := RowIn(log, CallKey(call));
             && res.fromState == (if row.Some? then row.value.currentState else initial)
             && res.version == (if row.Some? then row.value.version else 0) + 1
    ensures Moves(res, call, RowIn(log, CallKey(call)), initial, RowIn(log + [e], CallKey(call)))
  {
    ForKeyAppend(log, e, CallKey(call));
  }

  /// A result that reports what a call commits takes the call's row from where it is to
  /// where it will be, and is numbered with the next sequence.
  lemma CommittedMoves(log: seq<Entry>, machines: map<string, MachineDefinition>, guards: map<string, Guard>,
                       call: Call, inp: Inputs, res: TransitionResult)
    requires var v := Atomic(log, machines, guards, call, inp); v.Committed? && Reports(res, v.entry.rec)
    ensures var e := Atomic(log, machines, guards, call, inp).entry;
            && call.machine in machines
            && Moves(res, call, RowIn(log, CallKey(call)), machines[call.machine].initialState, RowIn(log + [e], CallKey(call)))
            && res.sequence == |log| + 1 && res.transitionId == inp.recordId && res.timestamp == inp.recordTime
  {
    var e := Atomic(log, machines, guards, call, inp).entry;
    PreparedRecord(call, machines[call.machine], RowIn(log, CallKey(call)), guards, inp);
    RowMoves(log, e, call, machines[call.machine].initialState, res);
  }

  /// A preparation fails exactly when the expected version is stale, no rule
  /// applies, or a registered guard of the applicable rule fails.
  lemma PrepareFailsWhen(call: Call, def: MachineDefinition, row: Option<EntityState>,
                         guards: map<string, Guard>, inp: Inputs)
    ensures var version := if row.Some? then row.value.version else 0;
            var current := if row.Some? then row.value.currentState else def.initialState;
            var stale := call.expected.Some? && call.expected.value != version;
            var rule := Plan(def.transitions, current, call.event);
            var seen := EntityState(call.entity, call.machine, current, version, inp.guardUpdatedAt, inp.guardCreatedAt);
            match Prepare(call, def, row, guards, inp)
            case Ok(_) => !stale && rule.Some? && forall n :: n in rule.value.guards && n in guards ==> guards[n](seen, call.ctx)
            case Err(VersionMismatch(e, a)) => stale && call.expected == Some(e) && a == version
            case Err(IllegalTransition(s)) => !stale && rule.None? && s == current
            case Err(GuardFailed(g)) => !stale && rule.Some? && g in rule.value.guards && g in guards && !guards[g](seen, call.ctx)
            case Err(_) => false
  {
    var version := if row.Some? then row.value.version else 0;
    var current := if row.Some? then row.value.currentState else def.initialState;
    var rule := Plan(def.transitions, current, call.event);
    if rule.Some? {
      GuardOutcome(guards, rule.value,
        EntityState(call.entity, call.machine, current, version, inp.guardUpdatedAt, inp.guardCreatedAt), call.ctx);
    }
  }
}
