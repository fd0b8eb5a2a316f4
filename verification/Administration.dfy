/**
 What the steps beside the calls amount to in a run: the status of an effect is that of
 the last mark since its commit, the definition of a machine the last one stored, the
 guard under a name the last one registered, and a shutdown is for good.
 */
module Administration {
  import opened Acknowledgement
  import opened Concurrency
  import opened Core
  import opened Database
  import opened Interleaving
  import opened Log
  import opened Machine
  import opened Outbox

  // ---- Effect statuses ---------------------------------------------------------------

  /// The status that the last mark of an effect gave it.
  function LastMark(actions: seq<Action>, id: string): EffectStatus {
    if actions == [] then Pending
    else
      var last := actions[|actions| - 1];
      if last.Mark? && last.effect == id then last.status else LastMark(actions[..|actions| - 1], id)
  }

  /// One entry was logged, and its effects were added to the outbox as pending.
  ghost predicate Queues(s: State, s': State) {
    exists e :: s'.past.log == s.past.log + [e] && s'.tables.effects == PutEffects(s.tables.effects, e.effects)
                && NewEffects(s.tables.effects, e.rec.id, e.effects) && AllPending(e.effects)
  }

  predicate Untouched(s: State, s': State) {
    s'.past.log == s.past.log && s'.tables == s.tables
  }

  lemma PlannedQueues(s: State, f: Flight)
    requires FlightOk(s.past, f) && f.phase.Planned? && Fresh(s.tables, f.inp)
    ensures var e := EntryOf(s.past.log, f.phase.prepared, f.inp);
            NewEffects(s.tables.effects, e.rec.id, e.effects) && AllPending(e.effects)
  {
    var guards := s.past.guards[f.phase.g];
    PreparedAreNew(s.tables, f.call, f.phase.def, f.phase.row, guards, f.inp);
    PreparedQueued(f.call, f.phase.def, f.phase.row, guards, f.inp);
    PreparedRecord(f.call, f.phase.def, f.phase.row, guards, f.inp);
  }

  lemma CommitQueues(s: State, id: nat, f: Flight, ok: bool)
    requires FlightOk(s.past, f) && f.phase.Planned? && CanCommit(s, f)
    ensures var s' := DoCommit(s, id, f, f.phase.seen, f.phase.v, f.phase.g, f.phase.prepared, ok);
            Queues(s, s') || Untouched(s, s')
  {
    PlannedQueues(s, f);
    var e := EntryOf(s.past.log, f.phase.prepared, f.inp);
    if ok && Commit(s.tables, f.phase.prepared).Ok? {
      assert NewEffects(s.tables.effects, e.rec.id, e.effects);
    }
  }

  lemma CallOutbox(cfg: Config, s: State, a: Action, f: Flight)
    requires a.Acquire? || a.Lookup? || a.ReadMachine? || a.ReadState? || a.PlanCall? || a.CommitCall?
    requires FlightOk(s.past, f)
    ensures var s' := CallStep(cfg, s, a, f); Queues(s, s') || Untouched(s, s')
  {
    match (a, f.phase)
    case (CommitCall(id, ok), Planned(_, _, _, _, _, _, _)) => if CanCommit(s, f) { CommitQueues(s, id, f, ok); }
    case _ =>
  }

  /// The one mark a step may make.
  predicate Marks(s: State, a: Action, s': State) {
    && s'.past.log == s.past.log
    && s'.tables.effects == if a.Mark? && a.effect in s.tables.effects then SetStatus(s.tables, a.effect, a.status).effects
                            else s.tables.effects
  }

  /// The outbox after a step: more pending effects, or one mark, or what it was.
  ghost predicate OutboxMoves(s: State, a: Action, s': State) {
    (!a.Mark? && Queues(s, s')) || Marks(s, a, s')
  }

  lemma AsideMarks(cfg: Config, s: State, a: Action)
    requires a.Begin? || a.Define? || a.Register? || a.Mark? || a.Shutdown?
    ensures Marks(s, a, Apply(cfg, s, a))
  {
  }

  lemma OutboxStep(cfg: Config, s: State, a: Action)
    requires Inv(s)
    ensures OutboxMoves(s, a, Apply(cfg, s, a))
  {
    if a.Begin? || a.Define? || a.Register? || a.Mark? || a.Shutdown? {
      AsideMarks(cfg, s, a);
    } else if a.id in s.flights {
      assert FlightOk(s.past, s.flights[a.id]);
      CallOutbox(cfg, s, a, s.flights[a.id]);
    }
  }

  predicate HasStatus(s: State, id: string, status: EffectStatus) {
    id in s.tables.effects && s.tables.effects[id].status == status
  }

  lemma StatusStep(s: State, a: Action, s': State, id: string, status: EffectStatus)
    requires OutboxMoves(s, a, s') && HasStatus(s, id, status)
    ensures HasStatus(s', id, if a.Mark? && a.effect == id then a.status else status)
    ensures s.past.log <= s'.past.log
  {
    if Queues(s, s') {
      var e :| s'.past.log == s.past.log + [e] && s'.tables.effects == PutEffects(s.tables.effects, e.effects)
               && NewEffects(s.tables.effects, e.rec.id, e.effects);
      PutEffectsMeaning(s.tables.effects, e.effects);
    }
  }

  lemma QueuedIsPending(s: State, a: Action, s': State, i: nat, j: nat)
    requires OutboxMoves(s, a, s') && |s.past.log| <= i < |s'.past.log| && j < |s'.past.log[i].effects|
    ensures i == |s.past.log| && |s'.past.log| == i + 1 && HasStatus(s', s'.past.log[i].effects[j].id, Pending)
  {
    var e :| s'.past.log == s.past.log + [e] && s'.tables.effects == PutEffects(s.tables.effects, e.effects)
             && NewEffects(s.tables.effects, e.rec.id, e.effects) && AllPending(e.effects);
    PutEffectsMeaning(s.tables.effects, e.effects);
  }

  lemma LogStays(s: State, a: Action, s': State)
    requires OutboxMoves(s, a, s')
    ensures s.past.log <= s'.past.log
  {
  }

  lemma LastMarkMore(actions: seq<Action>, a: Action, id: string)
    ensures LastMark(actions + [a], id) == if a.Mark? && a.effect == id then a.status else LastMark(actions, id)
  {
    assert (actions + [a])[..|actions|] == actions;
  }

  lemma LogsStays(cfg: Config, actions: seq<Action>, k: nat, i: nat)
    requires actions != [] && Logs(cfg, actions[..|actions| - 1], k, i)
    ensures Logs(cfg, actions, k, i) && actions[k + 1..] == actions[..|actions| - 1][k + 1..] + [actions[|actions| - 1]]
  {
    var before := actions[..|actions| - 1];
    assert before[..k] == actions[..k] && before[..k + 1] == actions[..k + 1];
  }

  lemma LogsLastStep(cfg: Config, actions: seq<Action>, i: nat)
    requires actions != [] && |Run(cfg, actions[..|actions| - 1]).past.log| == i && |Run(cfg, actions).past.log| == i + 1
    ensures Logs(cfg, actions, |actions| - 1, i)
  {
    assert actions[..|actions| - 1 + 1] == actions;
  }

  lemma LastStep(cfg: Config, actions: seq<Action>)
    requires actions != []
    ensures var s, s' := Run(cfg, actions[..|actions| - 1]), Run(cfg, actions);
            OutboxMoves(s, actions[|actions| - 1], s') && s.past.log <= s'.past.log
  {
    var before, a := actions[..|actions| - 1], actions[|actions| - 1];
    RunKeeps(cfg, before);
    OutboxStep(cfg, Run(cfg, before), a);
    LogStays(Run(cfg, before), a, Run(cfg, actions));
  }

  lemma MarkedFurther(cfg: Config, actions: seq<Action>, s: State, s': State, k: nat, i: nat, id: string)
    requires actions != [] && OutboxMoves(s, actions[|actions| - 1], s') && Logs(cfg, actions[..|actions| - 1], k, i)
    requires HasStatus(s, id, LastMark(actions[..|actions| - 1][k + 1..], id))
    ensures Logs(cfg, actions, k, i) && HasStatus(s', id, LastMark(actions[k + 1..], id))
  {
    var before, a := actions[..|actions| - 1], actions[|actions| - 1];
    LogsStays(cfg, actions, k, i);
    LastMarkMore(before[k + 1..], a, id);
    StatusStep(s, a, s', id, LastMark(before[k + 1..], id));
  }

  /// The status of every committed effect, in every run: that of the last mark which
  /// named it after the step that committed it, or Pending if there was none.
  lemma {:induction false} StatusIsLastMark(cfg: Config, actions: seq<Action>, i: nat, j: nat) returns (k: nat)
    requires i < |Run(cfg, actions).past.log| && j < |Run(cfg, actions).past.log[i].effects|
    ensures var id := Run(cfg, actions).past.log[i].effects[j].id;
            Logs(cfg, actions, k, i) && HasStatus(Run(cfg, actions), id, LastMark(actions[k + 1..], id))
  {
    var before, a := actions[..|actions| - 1], actions[|actions| - 1];
    var s, s' := Run(cfg, before), Run(cfg, actions);
    LastStep(cfg, actions);
    if i < |s.past.log| {
      k := StatusIsLastMark(cfg, before, i, j);
      MarkedFurther(cfg, actions, s, s', k, i, s'.past.log[i].effects[j].id);
    } else {
      QueuedIsPending(s, a, s', i, j);
      k := |actions| - 1;
      LogsLastStep(cfg, actions, i);
      assert actions[k + 1..] == [];
    }
  }

  predicate NeverMarked(actions: seq<Action>, id: string) {
    forall k :: 0 <= k < |actions| && actions[k].Mark? ==> actions[k].effect != id
  }

  lemma {:induction false} UnmarkedStays(actions: seq<Action>, id: string)
    requires NeverMarked(actions, id)
    ensures LastMark(actions, id) == Pending
  {
    if actions != [] {
      UnmarkedStays(actions[..|actions| - 1], id);
    }
  }

  /// An effect that no step has marked is pending, and, with no further commits, is
  /// published by one of the drains that empty the outbox.
  lemma UnmarkedIsPublished(cfg: Config, actions: seq<Action>, i: nat, j: nat, times: nat) returns (n: nat)
    requires i < |Run(cfg, actions).past.log| && j < |Run(cfg, actions).past.log[i].effects|
    requires NeverMarked(actions, Run(cfg, actions).past.log[i].effects[j].id)
    requires |PendingIds(Run(cfg, actions).tables)| <= DRAIN_LIMIT * times
    ensures var t, id := Run(cfg, actions).tables, Run(cfg, actions).past.log[i].effects[j].id;
            && id in PendingIds(t) && n < times && id in PendingIds(Drains(t, n))
            && id in Drains(t, n + 1).effects && Drains(t, n + 1).effects[id].status == Published
  {
    var t, id := Run(cfg, actions).tables, Run(cfg, actions).past.log[i].effects[j].id;
    var k := StatusIsLastMark(cfg, actions, i, j);
    UnmarkedStays(actions[k + 1..], id);
    n := PendingIsPublished(t, id, times);
  }

  // ---- Definitions, guards, shutdown ---------------------------------------------------

  /// The last well-formed definition of that name.
  function LastDefined(actions: seq<Action>, name: string): Option<MachineDefinition> {
    if actions == [] then None
    else
      var last := actions[|actions| - 1];
      if last.Define? && last.def.name == name && WellFormed(last.def) then Some(last.def)
      else LastDefined(actions[..|actions| - 1], name)
  }

  /// The guard last registered under that name.
  function LastRegistered(actions: seq<Action>, name: string): Option<Guard> {
    if actions == [] then None
    else
      var last := actions[|actions| - 1];
      if last.Register? && last.name == name then Some(last.guard) else LastRegistered(actions[..|actions| - 1], name)
  }

  ghost predicate LeftAlone(s: State, s': State) {
    s'.tables.machines == s.tables.machines && s'.past.guards == s.past.guards && s'.shuttingDown == s.shuttingDown
  }

  lemma QuietStep(cfg: Config, s: State, a: Action, f: Flight)
    requires a.Acquire? || a.Lookup? || a.ReadMachine? || a.ReadState? || a.PlanCall?
    ensures var s' := CallStep(cfg, s, a, f); s' == s.(flights := s'.flights, replies := s'.replies)
  {
  }

  lemma CommitLeavesAlone(s: State, id: nat, f: Flight, seen: Seen, v: nat, g: nat, p: Prepared, ok: bool)
    ensures LeftAlone(s, DoCommit(s, id, f, seen, v, g, p, ok))
  {
  }

  /// Steps of a call leave definitions, guards and the shutdown flag alone.
  lemma CallLeavesAlone(cfg: Config, s: State, a: Action, f: Flight)
    requires a.Acquire? || a.Lookup? || a.ReadMachine? || a.ReadState? || a.PlanCall? || a.CommitCall?
    ensures LeftAlone(s, CallStep(cfg, s, a, f))
  {
    if a.CommitCall? {
      if f.phase.Planned? {
        CommitLeavesAlone(s, a.id, f, f.phase.seen, f.phase.v, f.phase.g, f.phase.prepared, a.ok);
      }
    } else {
      QuietStep(cfg, s, a, f);
    }
  }

  ghost predicate Administers(s: State, a: Action, s': State) {
    && s'.tables.machines == (if a.Define? && WellFormed(a.def) then s.tables.machines[a.def.name := a.def] else s.tables.machines)
    && CurrentGuards(s'.past) == (if a.Register? then CurrentGuards(s.past)[a.name := a.guard] else CurrentGuards(s.past))
    && s'.shuttingDown == (s.shuttingDown || a.Shutdown?)
  }

  lemma AsideAdministers(cfg: Config, s: State, a: Action)
    requires a.Begin? || a.Define? || a.Register? || a.Mark? || a.Shutdown?
    ensures Administers(s, a, Apply(cfg, s, a))
  {
  }

  lemma StepAdministers(cfg: Config, s: State, a: Action)
    ensures Administers(s, a, Apply(cfg, s, a))
  {
    if a.Begin? || a.Define? || a.Register? || a.Mark? || a.Shutdown? {
      AsideAdministers(cfg, s, a);
    } else if a.id in s.flights {
      CallLeavesAlone(cfg, s, a, s.flights[a.id]);
    }
  }

  /// What is stored and registered under a name is what was last defined or registered
  /// under it, and the engine is shutting down exactly if it was told to.
  lemma {:induction false} LastOneCounts(cfg: Config, actions: seq<Action>, name: string)
    ensures var s, guards := Run(cfg, actions), CurrentGuards(Run(cfg, actions).past);
            && GetMachine(s.tables, name) == LastDefined(actions, name)
            && LastRegistered(actions, name) == (if name in guards then Some(guards[name]) else None)
            && (s.shuttingDown <==> Shutdown in actions)
  {
    if actions != [] {
      var before := actions[..|actions| - 1];
      LastOneCounts(cfg, before, name);
      StepAdministers(cfg, Run(cfg, before), actions[|actions| - 1]);
      assert actions == before + [actions[|actions| - 1]];
    }
  }

  /// A call that begins after a shutdown is refused at once, and one that begins before
  /// it is taken up.
  lemma ShutdownRefuses(cfg: Config, actions: seq<Action>, id: nat, call: Call, inp: Inputs)
    requires id !in Run(cfg, actions).flights
    ensures var s, s' := Run(cfg, actions), Apply(cfg, Run(cfg, actions), Begin(id, call, inp));
            if Shutdown in actions then
              && s' == s.(replies := s'.replies) && |s'.replies| == |s.replies| + 1 && s.replies <= s'.replies
              && s'.replies[|s.replies|].call == call && s'.replies[|s.replies|].outcome == Err(ShuttingDown)
            else
              && s' == s.(flights := s'.flights) && s'.flights.Keys == s.flights.Keys + {id}
              && s'.flights[id].call == call && s'.flights[id].inp == inp && s'.flights[id].phase == Waiting
  {
    LastOneCounts(cfg, actions, "");
  }
}
