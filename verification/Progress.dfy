/**
 A call that nothing disturbs: from any state of any run, with its stripe free and no
 fault, its steps taken in a row return what the specification says of that state.
 */
module Progress {
  import opened Administration
  import opened Concurrency
  import opened Core
  import opened Database
  import opened Engine
  import opened Interleaving
  import opened Log
  import opened Text

  function Flying(s: State, call: Call, inp: Inputs, phase: Phase): Flight {
    Flight(call, inp, Now(s.past), phase)
  }

  /// The state with the call in flight.
  function With(s: State, id: nat, call: Call, inp: Inputs, phase: Phase): State {
    s.(flights := s.flights[id := Flying(s, call, inp, phase)])
  }

  /// The state with the call answered.
  ghost predicate Answered(s: State, s': State, call: Call, outcome: Result<TransitionResult, EngineError>) {
    && s'.flights == s.flights && |s'.replies| == |s.replies| + 1 && s.replies <= s'.replies
    && s'.replies[|s.replies|].call == call && s'.replies[|s.replies|].outcome == outcome
  }

  ghost predicate Refused(s: State, s': State, call: Call, outcome: Result<TransitionResult, EngineError>) {
    Answered(s, s', call, outcome) && s'.past == s.past && s'.tables == s.tables
  }

  lemma Goes(s: State, id: nat, call: Call, inp: Inputs, from: Phase, to: Phase)
    ensures var f := Flying(s, call, inp, from);
            Advance(With(s, id, call, inp, from), id, f, to) == With(s, id, call, inp, to)
  {
  }

  lemma Ends(s: State, id: nat, call: Call, inp: Inputs, phase: Phase, at: Moment, seen: Seen, outcome: Result<TransitionResult, EngineError>)
    requires id !in s.flights
    ensures Refused(s, Return(With(s, id, call, inp, phase), id, Flying(s, call, inp, phase), at, seen, outcome), call, outcome)
  {
  }

  lemma Begins(cfg: Config, s: State, id: nat, call: Call, inp: Inputs)
    requires id !in s.flights && !s.shuttingDown && (cfg.locking ==> StripeFree(cfg, s.flights, Flying(s, call, inp, Waiting)))
    ensures Apply(cfg, s, Begin(id, call, inp)) == With(s, id, call, inp, Waiting)
    ensures Apply(cfg, With(s, id, call, inp, Waiting), Acquire(id)) == With(s, id, call, inp, Locked)
  {
    Goes(s, id, call, inp, Waiting, Locked);
  }

  lemma LooksUp(cfg: Config, s: State, id: nat, call: Call, inp: Inputs)
    requires Inv(s) && id !in s.flights
    ensures var s' := Apply(cfg, With(s, id, call, inp, Locked), Lookup(id, true));
            if call.key.Some? && FindKey(s.past.log, call.key.value).Some? then
              Refused(s, s', call, Ok(ResultOf(FindKey(s.past.log, call.key.value).value)))
            else s' == With(s, id, call, inp, Looked(Seen(|s.past.log|, false)))
  {
    var seen := Seen(|s.past.log|, false);
    Goes(s, id, call, inp, Locked, Looked(seen));
    if call.key.Some? {
      IdempotencyLookup(s.tables, s.past.log, call.key.value);
      if FindKey(s.past.log, call.key.value).Some? {
        Ends(s, id, call, inp, Locked, Now(s.past), seen, Ok(ResultOf(FindKey(s.past.log, call.key.value).value)));
      }
    }
  }

  lemma ReadsMachine(cfg: Config, s: State, id: nat, call: Call, inp: Inputs, seen: Seen)
    requires id !in s.flights
    ensures var s' := Apply(cfg, With(s, id, call, inp, Looked(seen)), ReadMachine(id, true));
            if call.machine in s.tables.machines then
              s' == With(s, id, call, inp, Defined(seen, Now(s.past).machines, s.tables.machines[call.machine]))
            else Refused(s, s', call, Err(UnknownMachine))
  {
    if call.machine in s.tables.machines {
      Goes(s, id, call, inp, Looked(seen), Defined(seen, Now(s.past).machines, s.tables.machines[call.machine]));
    } else {
      Ends(s, id, call, inp, Looked(seen), Now(s.past).(log := seen.at), seen, Err(UnknownMachine));
    }
  }

  lemma ReadsState(cfg: Config, s: State, id: nat, call: Call, inp: Inputs, seen: Seen, v: nat, def: MachineDefinition)
    requires Inv(s)
    ensures Apply(cfg, With(s, id, call, inp, Defined(seen, v, def)), ReadState(id, true))
            == With(s, id, call, inp, Read(seen, v, def, |s.past.log|, RowIn(s.past.log, CallKey(call))))
  {
    ProjectionLookup(s.tables, s.past.log, call.entity, call.machine);
    Goes(s, id, call, inp, Defined(seen, v, def), Read(seen, v, def, |s.past.log|, RowIn(s.past.log, CallKey(call))));
  }

  lemma Plans(cfg: Config, s: State, id: nat, call: Call, inp: Inputs, seen: Seen, v: nat, def: MachineDefinition, n: nat, row: Option<EntityState>)
    requires id !in s.flights
    ensures var s' := Apply(cfg, With(s, id, call, inp, Read(seen, v, def, n, row)), PlanCall(id));
            match Prepare(call, def, row, CurrentGuards(s.past), inp)
            case Ok(p) => s' == With(s, id, call, inp, Planned(seen, v, def, n, row, Now(s.past).guards, p))
            case Err(e) => Refused(s, s', call, Err(e))
  {
    match Prepare(call, def, row, CurrentGuards(s.past), inp)
    case Ok(p) => Goes(s, id, call, inp, Read(seen, v, def, n, row), Planned(seen, v, def, n, row, Now(s.past).guards, p));
    case Err(e) => Ends(s, id, call, inp, Read(seen, v, def, n, row), Moment(seen.at, v, Now(s.past).guards), seen, Err(e));
  }

  // ---- One step after the other ------------------------------------------------------

  ghost function Verdict(s: State, call: Call, inp: Inputs): Log.Verdict {
    Atomic(s.past.log, s.tables.machines, CurrentGuards(s.past), call, inp)
  }

  /// The call has its specified answer, and the log and tables their specified change.
  ghost predicate Specified(s: State, s': State, call: Call, inp: Inputs) {
    var v := Verdict(s, call, inp);
    && Answered(s, s', call, Outcome(v)) && s'.past.log == Extended(s.past.log, v)
    && (!v.Committed? ==> s'.tables == s.tables)
  }

  /// The key is new and the machine known.
  ghost predicate GoesOn(s: State, call: Call) {
    && (call.key.Some? ==> FindKey(s.past.log, call.key.value).None?) && call.machine in s.tables.machines
  }

  ghost predicate Ready(s: State, id: nat, inp: Inputs) {
    Inv(s) && id !in s.flights && Fresh(s.tables, inp) && |s.past.log| + 1 < U64_MAX
  }

  function TakenPlan(s: State, call: Call, seen: Seen, p: Prepared): Phase
    requires call.machine in s.tables.machines
  {
    Planned(seen, Now(s.past).machines, s.tables.machines[call.machine], |s.past.log|, RowIn(s.past.log, CallKey(call)), Now(s.past).guards, p)
  }

  lemma WillCommit(s: State, id: nat, call: Call, inp: Inputs, p: Prepared)
    requires Ready(s, id, inp) && GoesOn(s, call)
    requires Prepare(call, s.tables.machines[call.machine], RowIn(s.past.log, CallKey(call)), CurrentGuards(s.past), inp) == Ok(p)
    ensures Commit(s.tables, p).Ok? && Verdict(s, call, inp) == Committed(EntryOf(s.past.log, p, inp))
  {
    if call.key.Some? {
      IdempotencyLookup(s.tables, s.past.log, call.key.value);
    }
    CommitWrites(s.tables, s.past.log, call, s.tables.machines[call.machine], CurrentGuards(s.past), inp);
  }

  lemma CommitEnds(s: State, id: nat, f: Flight, seen: Seen, v: nat, g: nat, p: Prepared)
    requires id !in s.flights && Commit(s.tables, p).Ok?
    ensures var s' := DoCommit(s.(flights := s.flights[id := f]), id, f, seen, v, g, p, true);
            Answered(s, s', f.call, Ok(ResultOf(EntryOf(s.past.log, p, f.inp).rec))) && s'.past.log == s.past.log + [EntryOf(s.past.log, p, f.inp)]
  {
    assert s.flights[id := f] - {id} == s.flights;
  }

  lemma TakesCommit(cfg: Config, s: State, id: nat, f: Flight)
    requires f.phase.Planned? && CanCommit(s, f)
    ensures var t := s.(flights := s.flights[id := f]);
            Apply(cfg, t, CommitCall(id, true)) == DoCommit(t, id, f, f.phase.seen, f.phase.v, f.phase.g, f.phase.prepared, true)
  {
  }

  lemma SpecifiedCommit(s: State, s': State, call: Call, inp: Inputs, e: Entry)
    requires Verdict(s, call, inp) == Committed(e) && Answered(s, s', call, Ok(ResultOf(e.rec))) && s'.past.log == s.past.log + [e]
    ensures Specified(s, s', call, inp)
  {
  }

  lemma Commits(cfg: Config, s: State, id: nat, call: Call, inp: Inputs, seen: Seen, p: Prepared)
    requires Ready(s, id, inp) && GoesOn(s, call)
    requires Prepare(call, s.tables.machines[call.machine], RowIn(s.past.log, CallKey(call)), CurrentGuards(s.past), inp) == Ok(p)
    ensures Specified(s, Apply(cfg, With(s, id, call, inp, TakenPlan(s, call, seen, p)), CommitCall(id, true)), call, inp)
  {
    var f := Flying(s, call, inp, TakenPlan(s, call, seen, p));
    WillCommit(s, id, call, inp, p);
    TakesCommit(cfg, s, id, f);
    CommitEnds(s, id, f, seen, f.phase.v, f.phase.g, p);
    SpecifiedCommit(s, Apply(cfg, s.(flights := s.flights[id := f]), CommitCall(id, true)), call, inp, EntryOf(s.past.log, p, inp));
  }

  /// Once answered, a call takes no further step.
  lemma Idle(cfg: Config, s: State, id: nat)
    requires id !in s.flights
    ensures Apply(cfg, s, ReadMachine(id, true)) == s && Apply(cfg, s, ReadState(id, true)) == s
    ensures Apply(cfg, s, PlanCall(id)) == s && Apply(cfg, s, CommitCall(id, true)) == s
  {
  }

  lemma SpecifiedRefusal(s: State, s': State, call: Call, inp: Inputs)
    requires !Verdict(s, call, inp).Committed? && Refused(s, s', call, Outcome(Verdict(s, call, inp)))
    ensures Specified(s, s', call, inp)
  {
  }

  lemma FromRead(cfg: Config, s: State, id: nat, call: Call, inp: Inputs, seen: Seen)
    requires Ready(s, id, inp) && GoesOn(s, call)
    ensures var phase := Read(seen, Now(s.past).machines, s.tables.machines[call.machine], |s.past.log|, RowIn(s.past.log, CallKey(call)));
            Specified(s, Apply(cfg, Apply(cfg, With(s, id, call, inp, phase), PlanCall(id)), CommitCall(id, true)), call, inp)
  {
    var def, row, v := s.tables.machines[call.machine], RowIn(s.past.log, CallKey(call)), Now(s.past).machines;
    Plans(cfg, s, id, call, inp, seen, v, def, |s.past.log|, row);
    var s' := Apply(cfg, With(s, id, call, inp, Read(seen, v, def, |s.past.log|, row)), PlanCall(id));
    match Prepare(call, def, row, CurrentGuards(s.past), inp)
    case Ok(p) => Commits(cfg, s, id, call, inp, seen, p);
    case Err(_) =>
      Idle(cfg, s', id);
      SpecifiedRefusal(s, s', call, inp);
  }

  /// The last four steps.
  ghost function Finish(cfg: Config, s: State, id: nat): State {
    Apply(cfg, Apply(cfg, Apply(cfg, Apply(cfg, s, ReadMachine(id, true)), ReadState(id, true)), PlanCall(id)), CommitCall(id, true))
  }

  lemma FromLooked(cfg: Config, s: State, id: nat, call: Call, inp: Inputs, seen: Seen)
    requires Ready(s, id, inp) && (call.key.Some? ==> FindKey(s.past.log, call.key.value).None?)
    ensures Specified(s, Finish(cfg, With(s, id, call, inp, Looked(seen)), id), call, inp)
  {
    ReadsMachine(cfg, s, id, call, inp, seen);
    var s' := Apply(cfg, With(s, id, call, inp, Looked(seen)), ReadMachine(id, true));
    if call.machine in s.tables.machines {
      ReadsState(cfg, s, id, call, inp, seen, Now(s.past).machines, s.tables.machines[call.machine]);
      FromRead(cfg, s, id, call, inp, seen);
    } else {
      Idle(cfg, s', id);
      SpecifiedRefusal(s, s', call, inp);
    }
  }

  lemma FromLocked(cfg: Config, s: State, id: nat, call: Call, inp: Inputs)
    requires Ready(s, id, inp)
    ensures Specified(s, Finish(cfg, Apply(cfg, With(s, id, call, inp, Locked), Lookup(id, true)), id), call, inp)
  {
    LooksUp(cfg, s, id, call, inp);
    var s' := Apply(cfg, With(s, id, call, inp, Locked), Lookup(id, true));
    if call.key.Some? && FindKey(s.past.log, call.key.value).Some? {
      Idle(cfg, s', id);
      SpecifiedRefusal(s, s', call, inp);
    } else {
      FromLooked(cfg, s, id, call, inp, Seen(|s.past.log|, false));
    }
  }

  /// The steps of one call.
  function Solo(id: nat, call: Call, inp: Inputs): seq<Action> {
    [Begin(id, call, inp), Acquire(id), Lookup(id, true), ReadMachine(id, true), ReadState(id, true), PlanCall(id), CommitCall(id, true)]
  }

  lemma OneMore(cfg: Config, actions: seq<Action>, a: Action)
    ensures Run(cfg, actions + [a]) == Apply(cfg, Run(cfg, actions), a)
  {
    assert (actions + [a])[..|actions|] == actions;
  }

  lemma FinishRun(cfg: Config, actions: seq<Action>, id: nat)
    ensures Run(cfg, actions + [ReadMachine(id, true), ReadState(id, true), PlanCall(id), CommitCall(id, true)])
            == Finish(cfg, Run(cfg, actions), id)
  {
    var a1 := actions + [ReadMachine(id, true)];
    var a2 := a1 + [ReadState(id, true)];
    var a3 := a2 + [PlanCall(id)];
    OneMore(cfg, actions, ReadMachine(id, true));
    OneMore(cfg, a1, ReadState(id, true));
    OneMore(cfg, a2, PlanCall(id));
    OneMore(cfg, a3, CommitCall(id, true));
    assert actions + [ReadMachine(id, true), ReadState(id, true), PlanCall(id), CommitCall(id, true)] == a3 + [CommitCall(id, true)];
  }

  lemma SoloRun(cfg: Config, actions: seq<Action>, id: nat, call: Call, inp: Inputs)
    ensures Run(cfg, actions + Solo(id, call, inp))
            == Finish(cfg, Apply(cfg, Apply(cfg, Apply(cfg, Run(cfg, actions), Begin(id, call, inp)), Acquire(id)), Lookup(id, true)), id)
  {
    var a1 := actions + [Begin(id, call, inp)];
    var a2 := a1 + [Acquire(id)];
    var a3 := a2 + [Lookup(id, true)];
    OneMore(cfg, actions, Begin(id, call, inp));
    OneMore(cfg, a1, Acquire(id));
    OneMore(cfg, a2, Lookup(id, true));
    FinishRun(cfg, a3, id);
    assert actions + Solo(id, call, inp) == a3 + [ReadMachine(id, true), ReadState(id, true), PlanCall(id), CommitCall(id, true)];
  }

  /// Whatever happened before, with or without the locks: a call that begins while the
  /// engine is up, finds its stripe free and meets no fault, and whose steps follow one
  /// another, returns the specification's answer to the state it began in and makes the
  /// specified change.
  lemma UndisturbedCall(cfg: Config, actions: seq<Action>, id: nat, call: Call, inp: Inputs)
    requires var s := Run(cfg, actions);
             && id !in s.flights && Shutdown !in actions && Fresh(s.tables, inp) && |s.past.log| + 1 < U64_MAX
             && (cfg.locking ==> StripeFree(cfg, s.flights, Flying(s, call, inp, Waiting)))
    ensures Specified(Run(cfg, actions), Run(cfg, actions + Solo(id, call, inp)), call, inp)
  {
    var s := Run(cfg, actions);
    RunKeeps(cfg, actions);
    LastOneCounts(cfg, actions, "");
    SoloRun(cfg, actions, id, call, inp);
    Begins(cfg, s, id, call, inp);
    FromLocked(cfg, s, id, call, inp);
  }
}
