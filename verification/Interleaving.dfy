/**
 What every step keeps: the past only grows, what a call has noted stays true, and
 the tables go on agreeing with the log, whichever step comes next.
 */
module Interleaving {
  import opened Concurrency
  import opened Core
  import opened Database
  import opened Engine
  import opened Log
  import opened Machine
  import opened Outbox

  // ---- The past only grows ----------------------------------------------------------

  ghost predicate Grows(a: Past, b: Past) {
    a.log <= b.log && a.machines <= b.machines && a.guards <= b.guards
  }

  lemma SlicesStay(a: Past, b: Past, n: nat)
    requires Grows(a, b) && n <= |a.log|
    ensures b.log[..n] == a.log[..n]
  {
  }

  lemma FlightStaysOk(a: Past, b: Past, f: Flight)
    requires Grows(a, b) && FlightOk(a, f)
    ensures FlightOk(b, f)
  {
    if !f.phase.Waiting? && !f.phase.Locked? {
      SlicesStay(a, b, f.phase.seen.at);
    }
    if f.phase.Read? || f.phase.Planned? {
      SlicesStay(a, b, f.phase.rowAt);
    }
  }

  lemma VerdictStays(a: Past, b: Past, call: Call, inp: Inputs, m: Moment)
    requires Grows(a, b) && InPast(a, m)
    ensures InPast(b, m) && VerdictAt(a, call, inp, m) == VerdictAt(b, call, inp, m)
  {
    SlicesStay(a, b, m.log);
  }

  lemma FlightsStayOk(s: State, past: Past)
    requires FlightsOk(s) && Grows(s.past, past)
    ensures forall id :: id in s.flights ==> FlightOk(past, s.flights[id])
  {
    forall id | id in s.flights
      ensures FlightOk(past, s.flights[id])
    {
      FlightStaysOk(s.past, past, s.flights[id]);
    }
  }

  lemma OriginsStayOk(s: State, past: Past)
    requires OriginsOk(s) && Grows(s.past, past)
    ensures OriginsFit(past, s.origins)
  {
    forall i | 0 <= i < |s.origins|
      ensures OriginOk(past, s.origins[i], i)
    {
      VerdictStays(s.past, past, s.origins[i].call, s.origins[i].inp, s.origins[i].at);
    }
  }

  // ---- Every step keeps the invariant --------------------------------------------------

  /// A planned call whose version is still current at commit sees the very row it
  /// planned with, so it commits what the specification commits there and then.
  lemma PlanStillValid(s: State, f: Flight)
    requires Inv(s) && FlightOk(s.past, f) && f.phase.Planned? && CanCommit(s, f)
    requires Commit(s.tables, f.phase.prepared).Ok?
    ensures var p := f.phase.prepared;
            && Commit(s.tables, p) == Ok(Written(s.tables, p))
            && Represents(Written(s.tables, p), s.past.log + [EntryOf(s.past.log, p, f.inp)])
            && RowIn(s.past.log, CallKey(f.call)) == f.phase.row
            && Atomic(s.past.log, s.past.machines[f.phase.v], s.past.guards[f.phase.g], f.call, f.inp)
               == Committed(EntryOf(s.past.log, p, f.inp))
  {
    var Planned(seen, v, def, rowAt, row, g, p) := f.phase;
    CurrentRow(s.tables, s.past.log, rowAt, f.call, def, s.past.guards[g], f.inp);
    if f.call.key.Some? {
      IdempotencyLookup(s.tables, s.past.log, f.call.key.value);
    }
    PreparedShape(f.call, def, row, s.past.guards[g], f.inp);
    CommitWrites(s.tables, s.past.log, f.call, def, s.past.guards[g], f.inp);
  }

  lemma PlanVerdict(s: State, f: Flight)
    requires Inv(s) && FlightOk(s.past, f) && f.phase.Planned? && CanCommit(s, f)
    requires Commit(s.tables, f.phase.prepared).Ok?
    ensures Atomic(s.past.log, s.past.machines[f.phase.v], s.past.guards[f.phase.g], f.call, f.inp)
            == Committed(EntryOf(s.past.log, f.phase.prepared, f.inp))
  {
    PlanStillValid(s, f);
  }

  /// Equal versions mean equal rows: the in-transaction version check alone rules
  /// out a lost update.
  lemma CurrentRow(t: Tables, log: seq<Entry>, rowAt: nat, call: Call, def: MachineDefinition, guards: map<string, Guard>, inp: Inputs)
    requires Represents(t, log) && rowAt <= |log|
    requires Prepare(call, def, RowIn(log[..rowAt], CallKey(call)), guards, inp).Ok?
    requires Commit(t, Prepare(call, def, RowIn(log[..rowAt], CallKey(call)), guards, inp).value).Ok?
    ensures RowIn(log, CallKey(call)) == RowIn(log[..rowAt], CallKey(call))
  {
    var key := CallKey(call);
    PreparedShape(call, def, RowIn(log[..rowAt], key), guards, inp);
    ProjectionLookup(t, log, call.entity, call.machine);
    ForKeyPrefix(log, rowAt, key);
    if |ForKey(log[..rowAt], key)| == |ForKey(log, key)| {
      SameVersionSameRow(log, rowAt, key);
    }
  }

  lemma AdvanceKeeps(s: State, id: nat, f: Flight, phase: Phase)
    requires Inv(s) && FlightOk(s.past, f.(phase := phase))
    ensures Inv(Advance(s, id, f, phase))
  {
  }

  lemma ReturnKeeps(s: State, id: nat, f: Flight, at: Moment, seen: Seen, outcome: Result<TransitionResult, EngineError>)
    requires Inv(s)
    ensures Inv(Return(s, id, f, at, seen, outcome))
  {
  }

  lemma LookupKeeps(s: State, id: nat, f: Flight, ok: bool)
    requires Inv(s) && FlightOk(s.past, f)
    ensures Inv(DoLookup(s, id, f, ok))
  {
    var n := |s.past.log|;
    assert s.past.log[..n] == s.past.log;
    if f.call.key.Some? {
      IdempotencyLookup(s.tables, s.past.log, f.call.key.value);
    }
    if f.call.key.None? || (ok && FindKey(s.past.log, f.call.key.value).None?) {
      AdvanceKeeps(s, id, f, Looked(Seen(n, false)));
    } else if !ok {
      AdvanceKeeps(s, id, f, Looked(Seen(n, true)));
    } else {
      ReturnKeeps(s, id, f, Now(s.past), Seen(n, false), Ok(ResultOf(FindKey(s.past.log, f.call.key.value).value)));
    }
  }

  lemma ReadMachineKeeps(s: State, id: nat, f: Flight, ok: bool)
    requires Inv(s) && FlightOk(s.past, f) && f.phase.Looked?
    ensures Inv(DoReadMachine(s, id, f, f.phase.seen, ok))
  {
    var at := Now(s.past).(log := f.phase.seen.at);
    var def := GetMachine(s.tables, f.call.machine);
    if !ok {
      ReturnKeeps(s, id, f, at, f.phase.seen, Err(StorageFailure));
    } else if def.None? {
      ReturnKeeps(s, id, f, at, f.phase.seen, Err(UnknownMachine));
    } else {
      AdvanceKeeps(s, id, f, Defined(f.phase.seen, at.machines, def.value));
    }
  }

  lemma ReadStateKeeps(s: State, id: nat, f: Flight, ok: bool)
    requires Inv(s) && FlightOk(s.past, f) && f.phase.Defined?
    ensures Inv(DoReadState(s, id, f, f.phase.seen, f.phase.v, f.phase.def, ok))
  {
    var n := |s.past.log|;
    assert s.past.log[..n] == s.past.log;
    ProjectionLookup(s.tables, s.past.log, f.call.entity, f.call.machine);
    if ok {
      AdvanceKeeps(s, id, f, Read(f.phase.seen, f.phase.v, f.phase.def, n, GetEntityState(s.tables, f.call.entity, f.call.machine)));
    } else {
      ReturnKeeps(s, id, f, Now(s.past).(log := f.phase.seen.at), f.phase.seen, Err(StorageFailure));
    }
  }

  lemma PlanKeeps(s: State, id: nat, f: Flight)
    requires Inv(s) && FlightOk(s.past, f) && f.phase.Read?
    ensures Inv(DoPlan(s, id, f, f.phase.seen, f.phase.v, f.phase.def, f.phase.rowAt, f.phase.row))
  {
    var Read(seen, v, def, rowAt, row) := f.phase;
    match Prepare(f.call, def, row, CurrentGuards(s.past), f.inp)
    case Err(e) => ReturnKeeps(s, id, f, Moment(seen.at, v, Now(s.past).guards), seen, Err(e));
    case Ok(p) => PlanPasses(s, id, f, p);
  }

  lemma PlanPasses(s: State, id: nat, f: Flight, p: Prepared)
    requires Inv(s) && FlightOk(s.past, f) && f.phase.Read?
    requires Prepare(f.call, f.phase.def, f.phase.row, CurrentGuards(s.past), f.inp) == Ok(p)
    ensures Inv(Advance(s, id, f, Planned(f.phase.seen, f.phase.v, f.phase.def, f.phase.rowAt, f.phase.row, Now(s.past).guards, p)))
  {
    var g := Now(s.past).guards;
    GuardsNow(s.past, f.begun);
    assert Prepare(f.call, f.phase.def, f.phase.row, s.past.guards[g], f.inp) == Ok(p);
    PlannedFlightOk(s.past, f, g, p);
    AdvanceKeeps(s, id, f, Planned(f.phase.seen, f.phase.v, f.phase.def, f.phase.rowAt, f.phase.row, g, p));
  }

  lemma GuardsNow(past: Past, begun: Moment)
    requires past.guards != [] && InPast(past, begun)
    ensures begun.guards <= Now(past).guards < |past.guards| && past.guards[Now(past).guards] == CurrentGuards(past)
  {
  }

  lemma PlannedFlightOk(past: Past, f: Flight, g: nat, p: Prepared)
    requires FlightOk(past, f) && f.phase.Read?
    requires f.begun.guards <= g < |past.guards| && Prepare(f.call, f.phase.def, f.phase.row, past.guards[g], f.inp) == Ok(p)
    ensures FlightOk(past, f.(phase := Planned(f.phase.seen, f.phase.v, f.phase.def, f.phase.rowAt, f.phase.row, g, p)))
  {
  }

  /// The state a successful commit leads to, before the call returns.
  function Committing(s: State, f: Flight, v: nat, g: nat, p: Prepared): State {
    s.(tables := Written(s.tables, p),
       past := s.past.(log := s.past.log + [EntryOf(s.past.log, p, f.inp)]),
       origins := s.origins + [Origin(f.call, f.inp, f.begun, Moment(|s.past.log|, v, g), Now(s.past))])
  }

  lemma CommittingKeeps(s: State, f: Flight)
    requires Inv(s) && FlightOk(s.past, f) && f.phase.Planned? && CanCommit(s, f)
    requires Commit(s.tables, f.phase.prepared).Ok?
    ensures Inv(Committing(s, f, f.phase.v, f.phase.g, f.phase.prepared))
  {
    PlanStillValid(s, f);
    NewOrigin(s, f);
    CommittingFlights(s, f, f.phase.v, f.phase.g, f.phase.prepared);
  }

  lemma CommittingFlights(s: State, f: Flight, v: nat, g: nat, p: Prepared)
    requires FlightsOk(s) && PastOk(s)
    ensures FlightsOk(Committing(s, f, v, g, p)) && PastOk(Committing(s, f, v, g, p))
  {
    FlightsStayOk(s, Committing(s, f, v, g, p).past);
  }

  lemma NewOrigin(s: State, f: Flight)
    requires Inv(s) && FlightOk(s.past, f) && f.phase.Planned? && CanCommit(s, f)
    requires Commit(s.tables, f.phase.prepared).Ok?
    ensures OriginsOk(Committing(s, f, f.phase.v, f.phase.g, f.phase.prepared))
  {
    var s', n := Committing(s, f, f.phase.v, f.phase.g, f.phase.prepared), |s.past.log|;
    OriginsStayOk(s, s'.past);
    NewOriginOk(s, f);
    OriginsAppend(s'.past, s.origins, s'.origins[n]);
  }

  lemma OriginsAppend(past: Past, origins: seq<Origin>, o: Origin)
    requires OriginsFit(past, origins) && OriginOk(past, o, |origins|)
    ensures OriginsFit(past, origins + [o])
  {
  }

  lemma NewOriginOk(s: State, f: Flight)
    requires Inv(s) && FlightOk(s.past, f) && f.phase.Planned? && CanCommit(s, f)
    requires Commit(s.tables, f.phase.prepared).Ok?
    ensures var s', n := Committing(s, f, f.phase.v, f.phase.g, f.phase.prepared), |s.past.log|;
            |s.origins| == n && OriginOk(s'.past, s'.origins[n], n)
  {
    var n := |s.past.log|;
    var at := Moment(n, f.phase.v, f.phase.g);
    PlanVerdict(s, f);
    VerdictBecomesOrigin(s.past, EntryOf(s.past.log, f.phase.prepared, f.inp), Origin(f.call, f.inp, f.begun, at, Now(s.past)));
  }

  lemma VerdictBecomesOrigin(past: Past, e: Entry, o: Origin)
    requires InPast(past, o.at) && o.at.log == |past.log| && o.committed == Now(past)
    requires past.machines != [] && past.guards != [] && NotAfter(o.begun, o.at)
    requires Atomic(past.log, past.machines[o.at.machines], past.guards[o.at.guards], o.call, o.inp) == Committed(e)
    ensures OriginOk(past.(log := past.log + [e]), o, |past.log|)
  {
    assert (past.log + [e])[..|past.log|] == past.log;
  }

  lemma CommitKeeps(s: State, id: nat, f: Flight, ok: bool)
    requires Inv(s) && FlightOk(s.past, f) && f.phase.Planned? && CanCommit(s, f)
    ensures Inv(DoCommit(s, id, f, f.phase.seen, f.phase.v, f.phase.g, f.phase.prepared, ok))
  {
    var Planned(seen, v, def, rowAt, row, g, p) := f.phase;
    var at := Moment(|s.past.log|, v, g);
    if !ok {
      ReturnKeeps(s, id, f, at, seen, Err(StorageFailure));
    } else {
      match Commit(s.tables, p)
      case Err(e) => ReturnKeeps(s, id, f, at, seen, Err(e));
      case Ok(t) =>
        CommittingKeeps(s, f);
        ReturnKeeps(Committing(s, f, v, g, p), id, f, at, seen, Ok(ResultOf(EntryOf(s.past.log, p, f.inp).rec)));
    }
  }

  lemma DefineKeeps(s: State, def: MachineDefinition)
    requires Inv(s) && WellFormed(def)
    ensures Inv(DoDefine(s, def))
  {
    var s' := DoDefine(s, def);
    assert Grows(s.past, s'.past);
    FlightsStayOk(s, s'.past);
    OriginsStayOk(s, s'.past);
    assert MachinesValid(s.past.machines[|s.past.machines| - 1]);
    MachinesAgreeAnyway(s.tables, s'.tables, s.past.log);
  }

  /// Definitions are not part of the agreement with the log.
  lemma MachinesAgreeAnyway(t: Tables, t': Tables, log: seq<Entry>)
    requires Represents(t, log) && t' == t.(machines := t'.machines)
    ensures Represents(t', log)
  {
  }

  lemma RegisterKeeps(s: State, name: string, guard: Guard)
    requires Inv(s)
    ensures Inv(s.(past := s.past.(guards := s.past.guards + [CurrentGuards(s.past)[name := guard]])))
  {
    var past := s.past.(guards := s.past.guards + [CurrentGuards(s.past)[name := guard]]);
    assert Grows(s.past, past);
    FlightsStayOk(s, past);
    OriginsStayOk(s, past);
  }

  lemma MarkKeeps(s: State, effect: string, status: EffectStatus)
    requires Inv(s)
    ensures Inv(DoMark(s, effect, status))
  {
    if effect in s.tables.effects {
      var s' := s.(tables := SetStatus(s.tables, effect, status));
      SetStatusSame(s.tables, effect, status);
      StatusKeepsAgreement(s.tables, s'.tables, s.past.log);
      SamePast(s, s');
    }
  }

  lemma SamePast(s: State, s': State)
    requires Inv(s) && s' == s.(tables := s'.tables)
    requires Represents(s'.tables, s'.past.log) && s'.tables.machines == s.tables.machines
    ensures Inv(s')
  {
    assert FlightsOk(s') && OriginsOk(s') && PastOk(s');
  }

  lemma CallStepKeeps(cfg: Config, s: State, a: Action, f: Flight)
    requires a.Acquire? || a.Lookup? || a.ReadMachine? || a.ReadState? || a.PlanCall? || a.CommitCall?
    requires Inv(s) && FlightOk(s.past, f)
    ensures Inv(CallStep(cfg, s, a, f))
  {
    match (a, f.phase)
    case (Acquire(id), Waiting) => AdvanceKeeps(s, id, f, Locked);
    case (Lookup(id, ok), Locked) => LookupKeeps(s, id, f, ok);
    case (ReadMachine(id, ok), Looked(_)) => ReadMachineKeeps(s, id, f, ok);
    case (ReadState(id, ok), Defined(_, _, _)) => ReadStateKeeps(s, id, f, ok);
    case (PlanCall(id), Read(_, _, _, _, _)) => PlanKeeps(s, id, f);
    case (CommitCall(id, ok), Planned(_, _, _, _, _, _, _)) =>
      if CanCommit(s, f) {
        CommitKeeps(s, id, f, ok);
      }
    case _ =>
  }

  lemma BeginKeeps(s: State, id: nat, call: Call, inp: Inputs)
    requires Inv(s)
    ensures Inv(DoBegin(s, id, call, inp))
  {
    var f := Flight(call, inp, Now(s.past), Waiting);
    if s.shuttingDown {
      ReturnKeeps(s, id, f, Now(s.past), Seen(Now(s.past).log, false), Err(ShuttingDown));
    } else {
      AdvanceKeeps(s, id, f, Waiting);
    }
  }

  lemma ShutdownKeeps(s: State)
    requires Inv(s)
    ensures Inv(s.(shuttingDown := true))
  {
  }

  lemma StepKeeps(cfg: Config, s: State, a: Action)
    requires Inv(s)
    ensures Inv(Apply(cfg, s, a))
  {
    if a.Begin? {
      BeginKeeps(s, a.id, a.call, a.inp);
    } else if a.Define? {
      if WellFormed(a.def) {
        DefineKeeps(s, a.def);
      }
    } else if a.Register? {
      RegisterKeeps(s, a.name, a.guard);
    } else if a.Mark? {
      MarkKeeps(s, a.effect, a.status);
    } else if a.Shutdown? {
      ShutdownKeeps(s);
    } else if a.id in s.flights {
      assert FlightOk(s.past, s.flights[a.id]);
      CallStepKeeps(cfg, s, a, s.flights[a.id]);
    }
  }

  /// In every state of every run, with the stripe locks or without them, the tables
  /// agree with the log and every log entry is what the specification commits for
  /// its call at that point of the log.
  lemma {:induction false} RunKeeps(cfg: Config, actions: seq<Action>)
    ensures Inv(Run(cfg, actions))
  {
    if actions == [] {
      EmptyRepresentsEmpty();
    } else {
      RunKeeps(cfg, actions[..|actions| - 1]);
      StepKeeps(cfg, Run(cfg, actions[..|actions| - 1]), actions[|actions| - 1]);
    }
  }
}
