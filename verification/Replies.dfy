/**
 What callers are told in runs of concurrent calls: with the stripe locks every
 reply is the specification's reply, up to a key race, unless an operation of that
 very call failed or the engine was shutting down when it began.
 */
module Replies {
  import opened Acknowledgement
  import opened Concurrency
  import opened Core
  import opened Database
  import opened Interleaving
  import opened Locking
  import opened Log

  // ---- Causes, one step at a time --------------------------------------------------------

  predicate OfCall(a: Action) {
    a.Acquire? || a.Lookup? || a.ReadMachine? || a.ReadState? || a.PlanCall? || a.CommitCall?
  }

  predicate FailingStep(a: Action) {
    (a.ReadMachine? || a.ReadState? || a.CommitCall?) && !a.ok
  }

  predicate Blind(f: Flight) {
    SeenOf(f).Some? && SeenOf(f).value.blind
  }

  /// Flight `id` is the call that the reply answers.
  ghost predicate ActsFor(s: State, id: nat, r: Reply) {
    id in s.flights && s.flights[id].call == r.call && s.flights[id].inp == r.inp && s.flights[id].begun == r.begun
  }

  /// What the step that returns a reply must have been.
  ghost predicate ReplyCause(s: State, a: Action, r: Reply) {
    && (r.outcome == Err(ShuttingDown) ==> a.Begin? && s.shuttingDown && a.call == r.call && a.inp == r.inp)
    && (r.outcome == Err(StorageFailure) ==> FailingStep(a) && ActsFor(s, a.id, r))
    && (r.seen.blind ==> OfCall(a) && ActsFor(s, a.id, r) && Blind(s.flights[a.id]))
    && (|| (a.Begin? && a.call == r.call && a.inp == r.inp && r.begun == Now(s.past))
        || (OfCall(a) && ActsFor(s, a.id, r)))
  }

  /// At most one reply is added, for a cause.
  ghost predicate Replied(s: State, a: Action, s': State) {
    || s'.replies == s.replies
    || (|s'.replies| == |s.replies| + 1 && s.replies <= s'.replies && ReplyCause(s, a, s'.replies[|s.replies|]))
  }

  /// A flight began in this step or before it; one that could not look up its key was so
  /// before, or is so because of this step.
  ghost predicate FlightCause(s: State, a: Action, id: nat, f: Flight) {
    || (a.Begin? && a.id == id && a.call == f.call && a.inp == f.inp && f.begun == Now(s.past) && !Blind(f))
    || (&& id in s.flights && s.flights[id].call == f.call && s.flights[id].inp == f.inp && s.flights[id].begun == f.begun
        && (Blind(f) ==> Blind(s.flights[id]) || a == Lookup(id, false)))
  }

  ghost predicate FlightsCaused(s: State, a: Action, s': State) {
    forall id :: id in s'.flights ==> FlightCause(s, a, id, s'.flights[id])
  }

  /// The conditional keeps proofs that only pass this on from taking it apart.
  ghost predicate Accounted(s: State, a: Action, s': State) {
    if Replied(s, a, s') && FlightsCaused(s, a, s') && (s'.shuttingDown ==> s.shuttingDown || a.Shutdown?) then true else false
  }

  lemma ReturnCause(s: State, a: Action, id: nat, f: Flight, at: Moment, seen: Seen, outcome: Result<TransitionResult, EngineError>)
    requires ReplyCause(s, a, Reply(f.call, f.inp, f.begun, at, Now(s.past), seen, outcome))
    ensures var s' := Return(s, id, f, at, seen, outcome);
            Accounted(s, a, s')
  {
  }

  lemma AdvanceCause(s: State, a: Action, id: nat, phase: Phase)
    requires id in s.flights && FlightCause(s, a, id, s.flights[id].(phase := phase))
    ensures var s' := Advance(s, id, s.flights[id], phase);
            Accounted(s, a, s')
  {
  }

  lemma LookupCause(s: State, id: nat, ok: bool)
    requires Inv(s) && id in s.flights && s.flights[id].phase.Locked?
    ensures var s' := DoLookup(s, id, s.flights[id], ok);
            Accounted(s, Lookup(id, ok), s')
  {
    var f, n, a := s.flights[id], |s.past.log|, Lookup(id, ok);
    if f.call.key.Some? {
      IdempotencyLookup(s.tables, s.past.log, f.call.key.value);
    }
    if f.call.key.None? || (ok && FindKey(s.past.log, f.call.key.value).None?) {
      AdvanceCause(s, a, id, Looked(Seen(n, false)));
    } else if !ok {
      AdvanceCause(s, a, id, Looked(Seen(n, true)));
    } else {
      ReturnCause(s, a, id, f, Now(s.past), Seen(n, false), Ok(ResultOf(FindKey(s.past.log, f.call.key.value).value)));
    }
  }

  lemma ReadMachineCause(s: State, id: nat, ok: bool)
    requires id in s.flights && s.flights[id].phase.Looked?
    ensures var s' := DoReadMachine(s, id, s.flights[id], s.flights[id].phase.seen, ok);
            Accounted(s, ReadMachine(id, ok), s')
  {
    var f, a := s.flights[id], ReadMachine(id, ok);
    var at := Now(s.past).(log := f.phase.seen.at);
    var def := GetMachine(s.tables, f.call.machine);
    if !ok || def.None? {
      ReturnCause(s, a, id, f, at, f.phase.seen, Err(if ok then UnknownMachine else StorageFailure));
    } else {
      AdvanceCause(s, a, id, Defined(f.phase.seen, at.machines, def.value));
    }
  }

  lemma ReadStateCause(s: State, id: nat, ok: bool)
    requires id in s.flights && s.flights[id].phase.Defined?
    ensures var f := s.flights[id];
            var s' := DoReadState(s, id, f, f.phase.seen, f.phase.v, f.phase.def, ok);
            Accounted(s, ReadState(id, ok), s')
  {
    var f, a := s.flights[id], ReadState(id, ok);
    if ok {
      AdvanceCause(s, a, id, Read(f.phase.seen, f.phase.v, f.phase.def, |s.past.log|,
                                  GetEntityState(s.tables, f.call.entity, f.call.machine)));
    } else {
      ReturnCause(s, a, id, f, Now(s.past).(log := f.phase.seen.at), f.phase.seen, Err(StorageFailure));
    }
  }

  lemma PlanErrors(call: Call, def: MachineDefinition, row: Option<EntityState>, guards: map<string, Guard>, inp: Inputs)
    ensures var r := Prepare(call, def, row, guards, inp);
            r.Err? ==> !r.error.ShuttingDown? && !r.error.StorageFailure?
  {
  }

  lemma PlanCause(s: State, id: nat)
    requires id in s.flights && s.flights[id].phase.Read?
    ensures var f := s.flights[id];
            var s' := DoPlan(s, id, f, f.phase.seen, f.phase.v, f.phase.def, f.phase.rowAt, f.phase.row);
            Accounted(s, PlanCall(id), s')
  {
    var f, a := s.flights[id], PlanCall(id);
    var Read(seen, v, def, rowAt, row) := f.phase;
    var at := Moment(seen.at, v, Now(s.past).guards);
    PlanErrors(f.call, def, row, CurrentGuards(s.past), f.inp);
    match Prepare(f.call, def, row, CurrentGuards(s.past), f.inp)
    case Err(e) => ReturnCause(s, a, id, f, at, seen, Err(e));
    case Ok(p) => AdvanceCause(s, a, id, Planned(seen, v, def, rowAt, row, at.guards, p));
  }

  lemma CommitErrors(t: Tables, p: Prepared)
    ensures Commit(t, p).Err? ==> !Commit(t, p).error.ShuttingDown? && !Commit(t, p).error.StorageFailure?
  {
  }

  lemma CommitCause(s: State, id: nat, ok: bool)
    requires id in s.flights && s.flights[id].phase.Planned?
    ensures var f := s.flights[id];
            var s' := DoCommit(s, id, f, f.phase.seen, f.phase.v, f.phase.g, f.phase.prepared, ok);
            Accounted(s, CommitCall(id, ok), s')
  {
    var f, a := s.flights[id], CommitCall(id, ok);
    var Planned(seen, v, _, _, _, g, p) := f.phase;
    var at := Moment(|s.past.log|, v, g);
    CommitErrors(s.tables, p);
    if !ok || Commit(s.tables, p).Err? {
      ReturnCause(s, a, id, f, at, seen, Err(if ok then Commit(s.tables, p).error else StorageFailure));
    } else {
      CommittedCause(s, id, Commit(s.tables, p).value);
    }
  }

  lemma CommittedCause(s: State, id: nat, t: Tables)
    requires id in s.flights && s.flights[id].phase.Planned? && Commit(s.tables, s.flights[id].phase.prepared) == Ok(t)
    ensures var f := s.flights[id];
            var s' := DoCommit(s, id, f, f.phase.seen, f.phase.v, f.phase.g, f.phase.prepared, true);
            Accounted(s, CommitCall(id, true), s')
  {
  }

  lemma CallCause(cfg: Config, s: State, a: Action)
    requires Inv(s) && OfCall(a) && a.id in s.flights
    ensures var s' := CallStep(cfg, s, a, s.flights[a.id]);
            Accounted(s, a, s')
  {
    match (a, s.flights[a.id].phase)
    case (Acquire(id), Waiting) =>
      AdvanceCause(s, a, id, Locked);
      AsideCause(s, a, s);
    case (Lookup(id, ok), Locked) => LookupCause(s, id, ok);
    case (ReadMachine(id, ok), Looked(_)) => ReadMachineCause(s, id, ok);
    case (ReadState(id, ok), Defined(_, _, _)) => ReadStateCause(s, id, ok);
    case (PlanCall(id), Read(_, _, _, _, _)) => PlanCause(s, id);
    case (CommitCall(id, ok), Planned(_, _, _, _, _, _, _)) =>
      CommitCause(s, id, ok);
      AsideCause(s, a, s);
    case _ => AsideCause(s, a, s);
  }

  lemma BeginCause(s: State, id: nat, call: Call, inp: Inputs)
    requires id !in s.flights
    ensures var s' := DoBegin(s, id, call, inp);
            Accounted(s, Begin(id, call, inp), s')
  {
    var now := Now(s.past);
    if s.shuttingDown {
      ReturnCause(s, Begin(id, call, inp), id, Flight(call, inp, now, Waiting), now, Seen(now.log, false), Err(ShuttingDown));
    }
  }

  lemma AsideCause(s: State, a: Action, s': State)
    requires s'.flights == s.flights && s'.replies == s.replies && (s'.shuttingDown ==> s.shuttingDown || a.Shutdown?)
    ensures Accounted(s, a, s')
  {
  }

  lemma AsideStepCause(cfg: Config, s: State, a: Action)
    requires a.Define? || a.Register? || a.Mark? || a.Shutdown?
    ensures Accounted(s, a, Apply(cfg, s, a))
  {
    AsideGrows(cfg, s, a);
    AsideCause(s, a, Apply(cfg, s, a));
  }

  lemma BeginStepCause(cfg: Config, s: State, a: Action)
    requires a.Begin?
    ensures Accounted(s, a, Apply(cfg, s, a))
  {
    if a.id in s.flights {
      AsideCause(s, a, s);
    } else {
      BeginCause(s, a.id, a.call, a.inp);
    }
  }

  lemma CallStepCause(cfg: Config, s: State, a: Action)
    requires Inv(s) && OfCall(a)
    ensures Accounted(s, a, Apply(cfg, s, a))
  {
    if a.id in s.flights {
      CallCause(cfg, s, a);
    } else {
      AsideCause(s, a, s);
    }
  }

  lemma StepCause(cfg: Config, s: State, a: Action)
    requires Inv(s)
    ensures Accounted(s, a, Apply(cfg, s, a))
  {
    if a.Begin? {
      BeginStepCause(cfg, s, a);
    } else if OfCall(a) {
      CallStepCause(cfg, s, a);
    } else {
      AsideStepCause(cfg, s, a);
    }
  }

  // ---- Causes over runs --------------------------------------------------------------------

  /// Step `k` began the call after the engine was told to shut down in step `j`.
  ghost predicate ShutOut(actions: seq<Action>, j: nat, k: nat, r: Reply) {
    j < k < |actions| && actions[j].Shutdown? && actions[k].Begin? && actions[k].call == r.call && actions[k].inp == r.inp
  }

  /// Step `k` is a storage operation of the call, and it failed.
  ghost predicate FailedAt(cfg: Config, actions: seq<Action>, k: nat, r: Reply) {
    k < |actions| && FailingStep(actions[k]) && ActsFor(Run(cfg, actions[..k]), actions[k].id, r)
  }

  /// Step `k` is the lookup of the call's key, and it failed.
  ghost predicate BlindAt(cfg: Config, actions: seq<Action>, k: nat, call: Call, inp: Inputs, begun: Moment) {
    && k < |actions| && actions[k].Lookup? && !actions[k].ok
    && var s := Run(cfg, actions[..k]);
       actions[k].id in s.flights && s.flights[actions[k].id].call == call && s.flights[actions[k].id].inp == inp
       && s.flights[actions[k].id].begun == begun
  }

  ghost predicate Blinded(cfg: Config, actions: seq<Action>, call: Call, inp: Inputs, begun: Moment) {
    exists k :: BlindAt(cfg, actions, k, call, inp, begun)
  }

  /// Step `k` began the call, at the moment noted for it.
  ghost predicate BegunAt(cfg: Config, actions: seq<Action>, k: nat, call: Call, inp: Inputs, begun: Moment) {
    && k < |actions| && actions[k].Begin? && actions[k].call == call && actions[k].inp == inp
    && begun == Now(Run(cfg, actions[..k]).past)
  }

  ghost predicate Begun(cfg: Config, actions: seq<Action>, call: Call, inp: Inputs, begun: Moment) {
    exists k :: BegunAt(cfg, actions, k, call, inp, begun)
  }

  ghost predicate Caused(cfg: Config, actions: seq<Action>, r: Reply) {
    && (r.outcome == Err(ShuttingDown) ==> exists j, k :: ShutOut(actions, j, k, r))
    && (r.outcome == Err(StorageFailure) ==> exists k :: FailedAt(cfg, actions, k, r))
    && (r.seen.blind ==> Blinded(cfg, actions, r.call, r.inp, r.begun))
    && Begun(cfg, actions, r.call, r.inp, r.begun)
  }

  ghost predicate ToldToShutDown(actions: seq<Action>) {
    exists j :: 0 <= j < |actions| && actions[j].Shutdown?
  }

  ghost predicate FlightTraced(cfg: Config, actions: seq<Action>, f: Flight) {
    Begun(cfg, actions, f.call, f.inp, f.begun) && (Blind(f) ==> Blinded(cfg, actions, f.call, f.inp, f.begun))
  }

  ghost predicate FlightsTraced(cfg: Config, actions: seq<Action>, s: State) {
    forall id :: id in s.flights ==> FlightTraced(cfg, actions, s.flights[id])
  }

  ghost predicate AllCaused(cfg: Config, actions: seq<Action>, s: State) {
    forall i :: 0 <= i < |s.replies| ==> Caused(cfg, actions, s.replies[i])
  }

  lemma BlindedStays(cfg: Config, actions: seq<Action>, a: Action, call: Call, inp: Inputs, begun: Moment)
    requires Blinded(cfg, actions, call, inp, begun)
    ensures Blinded(cfg, actions + [a], call, inp, begun)
  {
    var k: nat :| BlindAt(cfg, actions, k, call, inp, begun);
    assert (actions + [a])[..k] == actions[..k];
    assert BlindAt(cfg, actions + [a], k, call, inp, begun);
  }

  lemma BegunStays(cfg: Config, actions: seq<Action>, a: Action, call: Call, inp: Inputs, begun: Moment)
    requires Begun(cfg, actions, call, inp, begun)
    ensures Begun(cfg, actions + [a], call, inp, begun)
  {
    var k: nat :| BegunAt(cfg, actions, k, call, inp, begun);
    assert (actions + [a])[..k] == actions[..k];
    assert BegunAt(cfg, actions + [a], k, call, inp, begun);
  }

  lemma BegunNow(cfg: Config, actions: seq<Action>, a: Action)
    requires a.Begin?
    ensures Begun(cfg, actions + [a], a.call, a.inp, Now(Run(cfg, actions).past))
  {
    var all, n := actions + [a], |actions|;
    assert all[..n] == actions && all[n] == a;
    assert BegunAt(cfg, all, n, a.call, a.inp, Now(Run(cfg, actions).past));
  }

  lemma CausedStays(cfg: Config, actions: seq<Action>, a: Action, r: Reply)
    requires Caused(cfg, actions, r)
    ensures Caused(cfg, actions + [a], r)
  {
    if r.outcome == Err(ShuttingDown) {
      var j: nat, k: nat :| ShutOut(actions, j, k, r);
      assert ShutOut(actions + [a], j, k, r);
    }
    if r.outcome == Err(StorageFailure) {
      var k: nat :| FailedAt(cfg, actions, k, r);
      assert (actions + [a])[..k] == actions[..k];
      assert FailedAt(cfg, actions + [a], k, r);
    }
    if r.seen.blind {
      BlindedStays(cfg, actions, a, r.call, r.inp, r.begun);
    }
    BegunStays(cfg, actions, a, r.call, r.inp, r.begun);
  }

  lemma FlightStaysTraced(cfg: Config, actions: seq<Action>, s: State, a: Action, id: nat, f: Flight)
    requires s == Run(cfg, actions) && FlightsTraced(cfg, actions, s) && FlightCause(s, a, id, f)
    ensures FlightTraced(cfg, actions + [a], f)
  {
    if a.Begin? && a.id == id && a.call == f.call && a.inp == f.inp && f.begun == Now(s.past) && !Blind(f) {
      BegunNow(cfg, actions, a);
    } else {
      assert FlightTraced(cfg, actions, s.flights[id]);
      BegunStays(cfg, actions, a, f.call, f.inp, f.begun);
      if Blind(f) {
        if Blind(s.flights[id]) {
          BlindedStays(cfg, actions, a, f.call, f.inp, f.begun);
        } else {
          assert (actions + [a])[..|actions|] == actions;
          assert BlindAt(cfg, actions + [a], |actions|, f.call, f.inp, f.begun);
        }
      }
    }
  }

  lemma FlightsStayTraced(cfg: Config, actions: seq<Action>, s: State, a: Action, s': State)
    requires s == Run(cfg, actions) && FlightsTraced(cfg, actions, s) && FlightsCaused(s, a, s')
    ensures FlightsTraced(cfg, actions + [a], s')
  {
    forall id | id in s'.flights
      ensures FlightTraced(cfg, actions + [a], s'.flights[id])
    {
      assert FlightCause(s, a, id, s'.flights[id]);
      FlightStaysTraced(cfg, actions, s, a, id, s'.flights[id]);
    }
  }

  lemma NewReplyCaused(cfg: Config, actions: seq<Action>, s: State, a: Action, r: Reply)
    requires s == Run(cfg, actions) && FlightsTraced(cfg, actions, s) && (s.shuttingDown ==> ToldToShutDown(actions))
    requires ReplyCause(s, a, r)
    ensures Caused(cfg, actions + [a], r)
  {
    var all, n := actions + [a], |actions|;
    assert all[..n] == actions && all[n] == a;
    if r.outcome == Err(ShuttingDown) {
      var j :| 0 <= j < n && actions[j].Shutdown?;
      assert ShutOut(all, j, n, r);
    }
    if r.outcome == Err(StorageFailure) {
      assert FailedAt(cfg, all, n, r);
    }
    if OfCall(a) && ActsFor(s, a.id, r) {
      assert FlightTraced(cfg, actions, s.flights[a.id]);
      BegunStays(cfg, actions, a, r.call, r.inp, r.begun);
      if r.seen.blind {
        BlindedStays(cfg, actions, a, r.call, r.inp, r.begun);
      }
    } else {
      BegunNow(cfg, actions, a);
    }
  }

  lemma RepliesStayCaused(cfg: Config, actions: seq<Action>, s: State, a: Action, s': State)
    requires s == Run(cfg, actions) && FlightsTraced(cfg, actions, s) && (s.shuttingDown ==> ToldToShutDown(actions))
    requires AllCaused(cfg, actions, s) && Replied(s, a, s')
    ensures AllCaused(cfg, actions + [a], s')
  {
    forall i | 0 <= i < |s'.replies|
      ensures Caused(cfg, actions + [a], s'.replies[i])
    {
      if i < |s.replies| {
        assert s'.replies[i] == s.replies[i];
        CausedStays(cfg, actions, a, s.replies[i]);
      } else {
        NewReplyCaused(cfg, actions, s, a, s'.replies[i]);
      }
    }
  }

  lemma ShutdownStays(actions: seq<Action>, a: Action)
    requires ToldToShutDown(actions) || a.Shutdown?
    ensures ToldToShutDown(actions + [a])
  {
    var all := actions + [a];
    if a.Shutdown? {
      assert all[|actions|].Shutdown?;
    } else {
      var j :| 0 <= j < |actions| && actions[j].Shutdown?;
      assert all[j].Shutdown?;
    }
  }

  ghost predicate CausesHold(cfg: Config, actions: seq<Action>, s: State) {
    if (s.shuttingDown ==> ToldToShutDown(actions)) && FlightsTraced(cfg, actions, s) && AllCaused(cfg, actions, s) then true else false
  }

  lemma CausesStep(cfg: Config, actions: seq<Action>, s: State, a: Action, s': State)
    requires s == Run(cfg, actions) && CausesHold(cfg, actions, s)
    requires Accounted(s, a, s')
    ensures CausesHold(cfg, actions + [a], s')
  {
    if s'.shuttingDown {
      ShutdownStays(actions, a);
    }
    FlightsStayTraced(cfg, actions, s, a, s');
    RepliesStayCaused(cfg, actions, s, a, s');
  }

  lemma CausesExtend(cfg: Config, actions: seq<Action>, a: Action)
    requires CausesHold(cfg, actions, Run(cfg, actions))
    ensures CausesHold(cfg, actions + [a], Apply(cfg, Run(cfg, actions), a))
  {
    RunKeeps(cfg, actions);
    StepCause(cfg, Run(cfg, actions), a);
    CausesStep(cfg, actions, Run(cfg, actions), a, Apply(cfg, Run(cfg, actions), a));
  }

  /// In every run, with the locks or without: a reply reports a shutdown, a storage
  /// fault or a blind lookup only if that happened, and happened to that call.
  lemma {:induction false} FaultsAreCaused(cfg: Config, actions: seq<Action>)
    ensures CausesHold(cfg, actions, Run(cfg, actions))
  {
    if actions != [] {
      var before, a := actions[..|actions| - 1], actions[|actions| - 1];
      assert before + [a] == actions;
      FaultsAreCaused(cfg, before);
      CausesExtend(cfg, before, a);
    }
  }

  /// The begin moment that a reply or an origin names is the moment of a step that began
  /// that very call.
  lemma BeginMoments(cfg: Config, actions: seq<Action>)
    ensures var s := Run(cfg, actions);
            && (forall i :: 0 <= i < |s.replies| ==> Begun(cfg, actions, s.replies[i].call, s.replies[i].inp, s.replies[i].begun))
            && (forall i :: 0 <= i < |s.origins| ==> Begun(cfg, actions, s.origins[i].call, s.origins[i].inp, s.origins[i].begun))
  {
    var s := Run(cfg, actions);
    FaultsAreCaused(cfg, actions);
    AcknowledgedExactly(cfg, actions);
    forall i | 0 <= i < |s.origins|
      ensures Begun(cfg, actions, s.origins[i].call, s.origins[i].inp, s.origins[i].begun)
    {
      assert Answered(s.replies, s.origins[i], s.past.log[i]);
      var k :| 0 <= k < |s.replies| && Answers(s.replies[k], s.origins[i], s.past.log[i]);
      assert Caused(cfg, actions, s.replies[k]);
    }
  }

  // ---- The theorems -----------------------------------------------------------------------------

  /// In every run in which calls on one projection key share a stripe, every reply is
  /// the specification's reply between the call's begin and its end, up to the listed
  /// exceptions, each of which has its cause in the run; none is a storage version
  /// conflict.
  lemma RepliesAreExplained(cfg: Config, calls: iset<Call>, actions: seq<Action>, i: nat)
    requires cfg.locking && Compatible(cfg, calls) && BeginsIn(actions, calls) && i < |Run(cfg, actions).replies|
    ensures ReplyOk(Run(cfg, actions).past, Run(cfg, actions).replies[i])
    ensures Caused(cfg, actions, Run(cfg, actions).replies[i])
  {
    RunLocked(cfg, calls, actions);
    FaultsAreCaused(cfg, actions);
  }

  predicate Faultless(actions: seq<Action>) {
    forall i :: 0 <= i < |actions| ==>
      !actions[i].Shutdown? && (actions[i].Lookup? || actions[i].ReadMachine? || actions[i].ReadState? || actions[i].CommitCall? ==> actions[i].ok)
  }

  /// If nothing fails, every reply is the specification's, or the refusal of a key
  /// that a call on another projection key used meanwhile.
  lemma FaultlessRepliesAreSpecified(cfg: Config, calls: iset<Call>, actions: seq<Action>, i: nat)
    requires cfg.locking && Compatible(cfg, calls) && BeginsIn(actions, calls) && Faultless(actions)
    requires i < |Run(cfg, actions).replies|
    ensures var past, r := Run(cfg, actions).past, Run(cfg, actions).replies[i];
            && InPast(past, r.at) && InPast(past, r.ended) && NotAfter(r.begun, r.at) && NotAfter(r.at, r.ended)
            && (Specified(past, r) || KeyRaced(past, r))
  {
    RepliesAreExplained(cfg, calls, actions, i);
    NoCauses(cfg, actions, Run(cfg, actions).replies[i]);
  }

  lemma NoCauses(cfg: Config, actions: seq<Action>, r: Reply)
    requires Faultless(actions) && Caused(cfg, actions, r)
    ensures r.outcome != Err(ShuttingDown) && r.outcome != Err(StorageFailure) && !r.seen.blind
  {
  }
}
