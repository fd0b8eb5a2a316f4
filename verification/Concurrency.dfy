/**
 Concurrent transition calls, as a system of interleaved steps.

 A state holds the tables, the calls in flight and the history of everything that
 was ever current: the log, the machine tables and the guard registries. A run is
 any list of actions; an action that is not enabled does nothing. Commits take
 place only with UUIDs that are new to the database, and while the sequence counter
 fits 64 bits.
 */
module Concurrency {
  import opened Core
  import opened Database
  import opened Engine
  import opened Log
  import opened Machine
  import opened Outbox
  import opened Text

  /// `locking` switches the stripe locks on; `stripe` is the lock hash.
  datatype Config = Config(locking: bool, stripe: (string, string) -> nat)

  /// Everything that has been current so far, oldest first.
  datatype Past = Past(
    log: seq<Entry>, machines: seq<map<string, MachineDefinition>>, guards: seq<map<string, Guard>>)

  /// A point in each of the three histories.
  datatype Moment = Moment(log: nat, machines: nat, guards: nat)

  /// The outcome of the idempotency lookup: the log length at that time, and
  /// whether the read failed, in which case the call goes on as if its key were new.
  datatype Seen = Seen(at: nat, blind: bool)

  datatype Phase =
    | Waiting
    | Locked
    | Looked(seen: Seen)
    | Defined(seen: Seen, v: nat, def: MachineDefinition)
    | Read(seen: Seen, v: nat, def: MachineDefinition, rowAt: nat, row: Option<EntityState>)
    | Planned(seen: Seen, v: nat, def: MachineDefinition, rowAt: nat, row: Option<EntityState>, g: nat, prepared: Prepared)

  /// A call in flight. Past `Waiting` it holds its stripe.
  datatype Flight = Flight(call: Call, inp: Inputs, begun: Moment, phase: Phase)

  /// A finished call, with the moment that explains its outcome.
  datatype Reply = Reply(
    call: Call, inp: Inputs, begun: Moment, at: Moment, ended: Moment, seen: Seen,
    outcome: Result<TransitionResult, EngineError>)

  /// Where a log entry comes from, and the moment it was committed.
  datatype Origin = Origin(call: Call, inp: Inputs, begun: Moment, at: Moment, committed: Moment)

  datatype State = State(
    tables: Tables, shuttingDown: bool, flights: map<nat, Flight>, past: Past,
    origins: seq<Origin>, replies: seq<Reply>)

  datatype Action =
    | Begin(id: nat, call: Call, inp: Inputs)
    | Acquire(id: nat)
    | Lookup(id: nat, ok: bool)
    | ReadMachine(id: nat, ok: bool)
    | ReadState(id: nat, ok: bool)
    | PlanCall(id: nat)
    | CommitCall(id: nat, ok: bool)
    | Define(def: MachineDefinition)
    | Register(name: string, guard: Guard)
    | Mark(effect: string, status: EffectStatus)
    | Shutdown

  const Init := State(Empty, false, map[], Past([], [map[]], [map[]]), [], [])

  // ---- Steps -------------------------------------------------------------------

  function LastIndex(n: nat): nat {
    if n == 0 then 0 else n - 1
  }

  function Now(past: Past): Moment {
    Moment(|past.log|, LastIndex(|past.machines|), LastIndex(|past.guards|))
  }

  function CurrentGuards(past: Past): map<string, Guard> {
    if past.guards == [] then map[] else past.guards[|past.guards| - 1]
  }

  predicate Holding(f: Flight) {
    !f.phase.Waiting?
  }

  function StripeOf(cfg: Config, f: Flight): nat {
    cfg.stripe(f.call.entity, f.call.machine)
  }

  ghost predicate StripeFree(cfg: Config, flights: map<nat, Flight>, f: Flight) {
    forall other :: other in flights && Holding(flights[other]) ==> StripeOf(cfg, flights[other]) != StripeOf(cfg, f)
  }

  function Advance(s: State, id: nat, f: Flight, phase: Phase): State {
    s.(flights := s.flights[id := f.(phase := phase)])
  }

  /// The call returns, which also releases its stripe.
  function Return(s: State, id: nat, f: Flight, at: Moment, seen: Seen, outcome: Result<TransitionResult, EngineError>): State {
    s.(flights := s.flights - {id},
       replies := s.replies + [Reply(f.call, f.inp, f.begun, at, Now(s.past), seen, outcome)])
  }

  function DoBegin(s: State, id: nat, call: Call, inp: Inputs): State {
    var now := Now(s.past);
    if s.shuttingDown then
      Return(s, id, Flight(call, inp, now, Waiting), now, Seen(now.log, false), Err(ShuttingDown))
    else
      s.(flights := s.flights[id := Flight(call, inp, now, Waiting)])
  }

  function DoLookup(s: State, id: nat, f: Flight, ok: bool): State {
    var n := |s.past.log|;
    if f.call.key.None? then Advance(s, id, f, Looked(Seen(n, false)))
    else if !ok then Advance(s, id, f, Looked(Seen(n, true)))
    else
      match CheckIdempotency(s.tables, f.call.key.value)
      case Ok(Some(rec)) => Return(s, id, f, Now(s.past), Seen(n, false), Ok(ResultOf(rec)))
      case Ok(None) => Advance(s, id, f, Looked(Seen(n, false)))
      case Err(_) => Advance(s, id, f, Looked(Seen(n, true)))
  }

  function DoReadMachine(s: State, id: nat, f: Flight, seen: Seen, ok: bool): State {
    var at := Now(s.past).(log := seen.at);
    if !ok then Return(s, id, f, at, seen, Err(StorageFailure))
    else
      match GetMachine(s.tables, f.call.machine)
      case None => Return(s, id, f, at, seen, Err(UnknownMachine))
      case Some(def) => Advance(s, id, f, Defined(seen, at.machines, def))
  }

  function DoReadState(s: State, id: nat, f: Flight, seen: Seen, v: nat, def: MachineDefinition, ok: bool): State {
    if !ok then Return(s, id, f, Now(s.past).(log := seen.at), seen, Err(StorageFailure))
    else Advance(s, id, f, Read(seen, v, def, |s.past.log|, GetEntityState(s.tables, f.call.entity, f.call.machine)))
  }

  function DoPlan(s: State, id: nat, f: Flight, seen: Seen, v: nat, def: MachineDefinition, rowAt: nat, row: Option<EntityState>): State {
    var at := Moment(seen.at, v, Now(s.past).guards);
    match Prepare(f.call, def, row, CurrentGuards(s.past), f.inp)
    case Err(e) => Return(s, id, f, at, seen, Err(e))
    case Ok(p) => Advance(s, id, f, Planned(seen, v, def, rowAt, row, at.guards, p))
  }

  function DoCommit(s: State, id: nat, f: Flight, seen: Seen, v: nat, g: nat, p: Prepared, ok: bool): State {
    var at := Moment(|s.past.log|, v, g);
    if !ok then Return(s, id, f, at, seen, Err(StorageFailure))
    else
      match Commit(s.tables, p)
      case Err(e) => Return(s, id, f, at, seen, Err(e))
      case Ok(t) =>
        var entry := EntryOf(s.past.log, p, f.inp);
        Return(s.(tables := t,
                  past := s.past.(log := s.past.log + [entry]),
                  origins := s.origins + [Origin(f.call, f.inp, f.begun, at, Now(s.past))]),
               id, f, at, seen, Ok(ResultOf(entry.rec)))
  }

  ghost predicate CanCommit(s: State, f: Flight) {
    Fresh(s.tables, f.inp) && |s.past.log| + 1 < U64_MAX
  }

  /// A step of one call, given where it stands.
  ghost function CallStep(cfg: Config, s: State, a: Action, f: Flight): State
    requires a.Acquire? || a.Lookup? || a.ReadMachine? || a.ReadState? || a.PlanCall? || a.CommitCall?
  {
    match (a, f.phase)
    case (Acquire(id), Waiting) =>
      if cfg.locking && !StripeFree(cfg, s.flights, f) then s else Advance(s, id, f, Locked)
    case (Lookup(id, ok), Locked) => DoLookup(s, id, f, ok)
    case (ReadMachine(id, ok), Looked(seen)) => DoReadMachine(s, id, f, seen, ok)
    case (ReadState(id, ok), Defined(seen, v, def)) => DoReadState(s, id, f, seen, v, def, ok)
    case (PlanCall(id), Read(seen, v, def, rowAt, row)) => DoPlan(s, id, f, seen, v, def, rowAt, row)
    case (CommitCall(id, ok), Planned(seen, v, def, rowAt, row, g, p)) =>
      if CanCommit(s, f) then DoCommit(s, id, f, seen, v, g, p, ok) else s
    case _ => s
  }

  function DoDefine(s: State, def: MachineDefinition): State {
    var machines := s.tables.machines[def.name := def];
    s.(tables := s.tables.(machines := machines), past := s.past.(machines := s.past.machines + [machines]))
  }

  function DoMark(s: State, effect: string, status: EffectStatus): State {
    if effect in s.tables.effects then s.(tables := SetStatus(s.tables, effect, status)) else s
  }

  ghost function Apply(cfg: Config, s: State, a: Action): State {
    match a
    case Begin(id, call, inp) => if id in s.flights then s else DoBegin(s, id, call, inp)
    case Define(def) => if WellFormed(def) then DoDefine(s, def) else s
    case Register(name, guard) => s.(past := s.past.(guards := s.past.guards + [CurrentGuards(s.past)[name := guard]]))
    case Mark(effect, status) => DoMark(s, effect, status)
    case Shutdown => s.(shuttingDown := true)
    case _ => if a.id in s.flights then CallStep(cfg, s, a, s.flights[a.id]) else s
  }

  /// The state after a run.
  ghost function Run(cfg: Config, actions: seq<Action>): State {
    if actions == [] then Init
    else Apply(cfg, Run(cfg, actions[..|actions| - 1]), actions[|actions| - 1])
  }

  // ---- What a call has seen -------------------------------------------------------

  predicate InPast(past: Past, m: Moment) {
    m.log <= |past.log| && m.machines < |past.machines| && m.guards < |past.guards|
  }

  predicate NotAfter(a: Moment, b: Moment) {
    a.log <= b.log && a.machines <= b.machines && a.guards <= b.guards
  }

  /// What the specification says of a call at a moment.
  function VerdictAt(past: Past, call: Call, inp: Inputs, m: Moment): Verdict
    requires InPast(past, m)
  {
    Atomic(past.log[..m.log], past.machines[m.machines], past.guards[m.guards], call, inp)
  }

  predicate SeenOk(past: Past, f: Flight, seen: Seen) {
    && f.begun.log <= seen.at <= |past.log|
    && (!seen.blind && f.call.key.Some? ==> FindKey(past.log[..seen.at], f.call.key.value).None?)
  }

  predicate DefOk(past: Past, f: Flight, v: nat, def: MachineDefinition) {
    f.begun.machines <= v < |past.machines| && f.call.machine in past.machines[v] && past.machines[v][f.call.machine] == def
  }

  predicate RowOk(past: Past, f: Flight, seen: Seen, rowAt: nat, row: Option<EntityState>) {
    seen.at <= rowAt <= |past.log| && row == RowIn(past.log[..rowAt], CallKey(f.call))
  }

  predicate PlanOk(past: Past, f: Flight, def: MachineDefinition, row: Option<EntityState>, g: nat, p: Prepared) {
    f.begun.guards <= g < |past.guards| && Prepare(f.call, def, row, past.guards[g], f.inp) == Ok(p)
  }

  /// The flight's notes are true of the moments it took them at.
  predicate FlightOk(past: Past, f: Flight) {
    && InPast(past, f.begun)
    && match f.phase
       case Waiting => true
       case Locked => true
       case Looked(seen) => SeenOk(past, f, seen)
       case Defined(seen, v, def) => SeenOk(past, f, seen) && DefOk(past, f, v, def)
       case Read(seen, v, def, rowAt, row) =>
         SeenOk(past, f, seen) && DefOk(past, f, v, def) && RowOk(past, f, seen, rowAt, row)
       case Planned(seen, v, def, rowAt, row, g, p) =>
         SeenOk(past, f, seen) && DefOk(past, f, v, def) && RowOk(past, f, seen, rowAt, row) && PlanOk(past, f, def, row, g, p)
  }

  /// The entry at `i` is what the specification commits for its call at that point
  /// of the log, with a machine table and guards current between the call's begin
  /// and its commit.
  ghost predicate OriginOk(past: Past, o: Origin, i: nat) {
    && i < |past.log| && o.at.log == i && InPast(past, o.at)
    && NotAfter(o.begun, o.at) && NotAfter(o.at, o.committed) && o.committed.log == i && InPast(past, o.committed)
    && VerdictAt(past, o.call, o.inp, o.at) == Committed(past.log[i])
  }

  ghost predicate PastOk(s: State) {
    && s.past.machines != [] && s.past.guards != []
    && s.past.machines[|s.past.machines| - 1] == s.tables.machines
    && (forall v :: 0 <= v < |s.past.machines| ==> MachinesValid(s.past.machines[v]))
  }

  ghost predicate OriginsFit(past: Past, origins: seq<Origin>) {
    forall i :: 0 <= i < |origins| ==> OriginOk(past, origins[i], i)
  }

  ghost predicate OriginsOk(s: State) {
    |s.origins| == |s.past.log| && OriginsFit(s.past, s.origins)
  }

  ghost predicate FlightsOk(s: State) {
    forall id :: id in s.flights ==> FlightOk(s.past, s.flights[id])
  }

  /// What holds in every run, with or without the stripe locks.
  ghost predicate Inv(s: State) {
    if Represents(s.tables, s.past.log) && PastOk(s) && OriginsOk(s) && FlightsOk(s) then true else false
  }
}
