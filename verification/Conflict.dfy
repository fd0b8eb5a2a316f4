/**
 Exactly when the stripe locks hide the storage engine's version conflict: a run in
 which it shows exists for a lock hash if and only if the hash separates two pairs
 that share a projection key.
 */
module Conflict {
  import opened Concurrency
  import opened Core
  import opened Database
  import opened Keys
  import opened Locking
  import opened Log
  import opened Machine
  import opened Text

  ghost predicate StripesRespectKeys(cfg: Config) {
    forall e, m, e', m' :: StateKey(e, m) == StateKey(e', m') ==> cfg.stripe(e, m) == cfg.stripe(e', m')
  }

  ghost predicate ShowsConflict(cfg: Config, actions: seq<Action>) {
    exists i :: 0 <= i < |Run(cfg, actions).replies| && IsConflict(Run(cfg, actions).replies[i])
  }

  // ---- Continuing a run -----------------------------------------------------------

  ghost function Steps(cfg: Config, s: State, actions: seq<Action>): State
    decreases |actions|
  {
    if actions == [] then s
    else Steps(cfg, Apply(cfg, s, actions[0]), actions[1..])
  }

  lemma OneStep(cfg: Config, actions: seq<Action>, a: Action)
    ensures Run(cfg, actions + [a]) == Apply(cfg, Run(cfg, actions), a)
  {
    assert (actions + [a])[..|actions|] == actions;
  }

  lemma NextStep(cfg: Config, s: State, actions: seq<Action>)
    requires actions != []
    ensures Steps(cfg, s, actions) == Steps(cfg, Apply(cfg, s, actions[0]), actions[1..])
  {
  }

  lemma {:induction false} RunSteps(cfg: Config, done: seq<Action>, actions: seq<Action>)
    ensures Run(cfg, done + actions) == Steps(cfg, Run(cfg, done), actions)
    decreases |actions|
  {
    if actions == [] {
      assert done + actions == done;
    } else {
      MoveFirst(done, actions);
      RunSteps(cfg, done + [actions[0]], actions[1..]);
      FirstOfSteps(cfg, done, actions);
    }
  }

  lemma MoveFirst<T>(a: seq<T>, b: seq<T>)
    requires b != []
    ensures a + b == (a + [b[0]]) + b[1..]
  {
  }

  lemma FirstOfSteps(cfg: Config, done: seq<Action>, actions: seq<Action>)
    requires actions != []
    ensures Steps(cfg, Run(cfg, done), actions) == Steps(cfg, Run(cfg, done + [actions[0]]), actions[1..])
  {
    OneStep(cfg, done, actions[0]);
    NextStep(cfg, Run(cfg, done), actions);
  }

  // ---- One call up to its commit -----------------------------------------------------

  function UpToCommit(id: nat): seq<Action> {
    [Acquire(id), Lookup(id, true), ReadMachine(id, true), ReadState(id, true), PlanCall(id)]
  }

  ghost predicate At(s: State, id: nat, f: Flight) {
    id in s.flights && s.flights[id] == f
  }

  lemma AdvanceTwice(s: State, id: nat, f: Flight, first: Phase, second: Phase)
    ensures Advance(Advance(s, id, f, first), id, f.(phase := first), second) == Advance(s, id, f, second)
    ensures At(Advance(s, id, f, first), id, f.(phase := first))
  {
  }

  lemma AcquireStep(cfg: Config, s: State, id: nat, f: Flight)
    requires At(s, id, f) && f.phase.Waiting? && StripeFree(cfg, s.flights, f)
    ensures Apply(cfg, s, Acquire(id)) == Advance(s, id, f, Locked)
  {
  }

  lemma LookupStep(cfg: Config, s: State, id: nat, f: Flight)
    requires At(s, id, f) && f.phase.Locked? && f.call.key.None?
    ensures Apply(cfg, s, Lookup(id, true)) == Advance(s, id, f, Looked(Seen(|s.past.log|, false)))
  {
  }

  lemma ReadMachineStep(cfg: Config, s: State, id: nat, f: Flight)
    requires At(s, id, f) && f.phase.Looked? && f.call.machine in s.tables.machines
    ensures Apply(cfg, s, ReadMachine(id, true))
            == Advance(s, id, f, Defined(f.phase.seen, Now(s.past).machines, s.tables.machines[f.call.machine]))
  {
  }

  lemma ReadStateStep(cfg: Config, s: State, id: nat, f: Flight)
    requires At(s, id, f) && f.phase.Defined?
    ensures Apply(cfg, s, ReadState(id, true))
            == Advance(s, id, f, Read(f.phase.seen, f.phase.v, f.phase.def, |s.past.log|,
                                      GetEntityState(s.tables, f.call.entity, f.call.machine)))
  {
  }

  lemma PlanStep(cfg: Config, s: State, id: nat, f: Flight, p: Prepared)
    requires At(s, id, f) && f.phase.Read?
    requires Prepare(f.call, f.phase.def, f.phase.row, CurrentGuards(s.past), f.inp) == Ok(p)
    ensures Apply(cfg, s, PlanCall(id))
            == Advance(s, id, f, Planned(f.phase.seen, f.phase.v, f.phase.def, f.phase.rowAt, f.phase.row, Now(s.past).guards, p))
  {
  }

  /// Where a call stands that has done everything but commit, the state having stayed
  /// as it is.
  function Ripe(s: State, f: Flight, p: Prepared): Phase
    requires f.call.machine in s.tables.machines
  {
    var now := Now(s.past);
    Planned(Seen(now.log, false), now.machines, s.tables.machines[f.call.machine], now.log,
            GetEntityState(s.tables, f.call.entity, f.call.machine), now.guards, p)
  }

  /// A keyless call whose stripe is free gets to the point of committing.
  lemma ReachesCommit(cfg: Config, s: State, id: nat, f: Flight, p: Prepared)
    requires At(s, id, f) && f.phase.Waiting? && StripeFree(cfg, s.flights, f)
    requires f.call.key.None? && f.call.machine in s.tables.machines
    requires Prepare(f.call, s.tables.machines[f.call.machine], GetEntityState(s.tables, f.call.entity, f.call.machine),
                     CurrentGuards(s.past), f.inp) == Ok(p)
    ensures Steps(cfg, s, UpToCommit(id)) == Advance(s, id, f, Ripe(s, f, p))
  {
    var Planned(seen, v, def, n, row, g, _) := Ripe(s, f, p);
    var looked, defined, read := Looked(seen), Defined(seen, v, def), Read(seen, v, def, n, row);
    AcquireStep(cfg, s, id, f);
    AdvanceTwice(s, id, f, Locked, looked);
    LookupStep(cfg, Advance(s, id, f, Locked), id, f.(phase := Locked));
    AdvanceTwice(s, id, f, looked, defined);
    ReadMachineStep(cfg, Advance(s, id, f, looked), id, f.(phase := looked));
    AdvanceTwice(s, id, f, defined, read);
    ReadStateStep(cfg, Advance(s, id, f, defined), id, f.(phase := defined));
    AdvanceTwice(s, id, f, read, Ripe(s, f, p));
    PlanStep(cfg, Advance(s, id, f, read), id, f.(phase := read), p);
    FiveSteps(cfg, s, Acquire(id), Lookup(id, true), ReadMachine(id, true), ReadState(id, true), PlanCall(id));
  }

  lemma StepsFirst(cfg: Config, s: State, a: Action, rest: seq<Action>)
    ensures Steps(cfg, s, [a] + rest) == Steps(cfg, Apply(cfg, s, a), rest)
  {
    assert ([a] + rest)[1..] == rest;
  }

  lemma FiveSteps(cfg: Config, s: State, a: Action, b: Action, c: Action, d: Action, e: Action)
    ensures Steps(cfg, s, [a, b, c, d, e]) == Apply(cfg, Apply(cfg, Apply(cfg, Apply(cfg, Apply(cfg, s, a), b), c), d), e)
  {
    var s1 := Apply(cfg, s, a);
    var s2 := Apply(cfg, s1, b);
    var s3 := Apply(cfg, s2, c);
    var s4 := Apply(cfg, s3, d);
    StepsFirst(cfg, s, a, [b, c, d, e]);
    StepsFirst(cfg, s1, b, [c, d, e]);
    StepsFirst(cfg, s2, c, [d, e]);
    StepsFirst(cfg, s3, d, [e]);
    StepsFirst(cfg, s4, e, []);
    assert [a] + [b, c, d, e] == [a, b, c, d, e] && [b] + [c, d, e] == [b, c, d, e];
    assert [c] + [d, e] == [c, d, e] && [d] + [e] == [d, e] && [e] + [] == [e];
  }

  // ---- The conflicting run ---------------------------------------------------------------

  /// A one-state machine with a single loop.
  function Loop(name: string): MachineDefinition {
    MachineDefinition(name, 1, ["s"], "s", [TransitionRule("go", ["s"], "s", [])], [], 0)
  }

  lemma LoopWellFormed(name: string)
    ensures WellFormed(Loop(name))
  {
  }

  function Go(entity: string, machine: string): Call {
    Call(entity, machine, "go", "", Null, None, None)
  }

  function Fixed(id: string): Inputs {
    Inputs(0, 0, 0, id, 0, (i: nat) => Repeat('x', i), (i: nat) => 0)
  }

  function FirstStep(entity: string, machine: string, id: string): Prepared {
    Prepared(TransitionRecord(id, 0, entity, machine, "s", "s", "go", "", Null, None, 1, 0),
             EntityState(entity, machine, "s", 1, 0, 0), [])
  }

  lemma LoopPlans(entity: string, machine: string, id: string)
    ensures Prepare(Go(entity, machine), Loop(machine), None, map[], Fixed(id)) == Ok(FirstStep(entity, machine, id))
  {
    var rules := Loop(machine).transitions;
    assert "s" in rules[0].fromStates;
    assert Plan(rules, "s", "go") == Some(rules[0]);
    assert FirstFailure([], GuardResults(map[], [], EntityState(entity, machine, "s", 0, 0, 0), Null)) == None;
    assert EffectsOn([], "go") == [];
    assert MakeEffects([], id, Fixed(id)) == [];
  }

  function Opening(e1: string, m1: string, e2: string, m2: string): seq<Action> {
    [Define(Loop(m1)), Define(Loop(m2)), Begin(1, Go(e1, m1), Fixed("a")), Begin(2, Go(e2, m2), Fixed("b"))]
  }

  /// Both machines defined, both calls begun.
  function Opened(e1: string, m1: string, e2: string, m2: string): State {
    var machines1: map<string, MachineDefinition> := map[][m1 := Loop(m1)];
    var machines2 := machines1[m2 := Loop(m2)];
    var now := Moment(0, 2, 0);
    State(Empty.(machines := machines2), false,
          map[][1 := Flight(Go(e1, m1), Fixed("a"), now, Waiting)][2 := Flight(Go(e2, m2), Fixed("b"), now, Waiting)],
          Past([], [map[]] + [machines1] + [machines2], [map[]]), [], [])
  }

  lemma OpeningOpens(cfg: Config, e1: string, m1: string, e2: string, m2: string)
    ensures Run(cfg, Opening(e1, m1, e2, m2)) == Opened(e1, m1, e2, m2)
  {
    var s1 := Apply(cfg, Init, Define(Loop(m1)));
    var s2 := Apply(cfg, s1, Define(Loop(m2)));
    var s3 := Apply(cfg, s2, Begin(1, Go(e1, m1), Fixed("a")));
    LoopWellFormed(m1);
    LoopWellFormed(m2);
    FourSteps(cfg, Init, Define(Loop(m1)), Define(Loop(m2)), Begin(1, Go(e1, m1), Fixed("a")), Begin(2, Go(e2, m2), Fixed("b")));
    RunSteps(cfg, [], Opening(e1, m1, e2, m2));
    assert [] + Opening(e1, m1, e2, m2) == Opening(e1, m1, e2, m2);
    assert Apply(cfg, s3, Begin(2, Go(e2, m2), Fixed("b"))) == Opened(e1, m1, e2, m2);
  }

  lemma FourSteps(cfg: Config, s: State, a: Action, b: Action, c: Action, d: Action)
    ensures Steps(cfg, s, [a, b, c, d]) == Apply(cfg, Apply(cfg, Apply(cfg, Apply(cfg, s, a), b), c), d)
  {
    var s1 := Apply(cfg, s, a);
    var s2 := Apply(cfg, s1, b);
    StepsFirst(cfg, s, a, [b, c, d]);
    StepsFirst(cfg, s1, b, [c, d]);
    StepsFirst(cfg, s2, c, [d]);
    StepsFirst(cfg, Apply(cfg, s2, c), d, []);
    assert [a] + [b, c, d] == [a, b, c, d] && [b] + [c, d] == [b, c, d] && [c] + [d] == [c, d] && [d] + [] == [d];
  }

  function FirstRipe(e1: string, m1: string, e2: string, m2: string): State {
    var s := Opened(e1, m1, e2, m2);
    Advance(s, 1, s.flights[1], Ripe(s, s.flights[1], FirstStep(e1, m1, "a")))
  }

  /// Both calls under way at once, each ready to commit the first step of its key.
  function BothRipe(e1: string, m1: string, e2: string, m2: string): State {
    var s := FirstRipe(e1, m1, e2, m2);
    Advance(s, 2, s.flights[2], Ripe(s, s.flights[2], FirstStep(e2, m2, "b")))
  }

  lemma FirstGetsReady(cfg: Config, e1: string, m1: string, e2: string, m2: string)
    requires m1 != m2
    ensures Run(cfg, Opening(e1, m1, e2, m2) + UpToCommit(1)) == FirstRipe(e1, m1, e2, m2)
  {
    OpeningOpens(cfg, e1, m1, e2, m2);
    RunSteps(cfg, Opening(e1, m1, e2, m2), UpToCommit(1));
    FirstReachesCommit(cfg, Opened(e1, m1, e2, m2), e1, m1, e2, m2);
  }

  lemma FirstReachesCommit(cfg: Config, s: State, e1: string, m1: string, e2: string, m2: string)
    requires m1 != m2 && s == Opened(e1, m1, e2, m2)
    ensures Steps(cfg, s, UpToCommit(1)) == FirstRipe(e1, m1, e2, m2)
  {
    LoopPlans(e1, m1, "a");
    ReachesCommit(cfg, s, 1, s.flights[1], FirstStep(e1, m1, "a"));
  }

  lemma SecondReachesCommit(cfg: Config, s: State, e1: string, m1: string, e2: string, m2: string)
    requires m1 != m2 && cfg.stripe(e1, m1) != cfg.stripe(e2, m2) && s == FirstRipe(e1, m1, e2, m2)
    ensures Steps(cfg, s, UpToCommit(2)) == BothRipe(e1, m1, e2, m2)
  {
    LoopPlans(e2, m2, "b");
    ReachesCommit(cfg, s, 2, s.flights[2], FirstStep(e2, m2, "b"));
  }

  lemma BothGetReady(cfg: Config, e1: string, m1: string, e2: string, m2: string)
    requires m1 != m2 && cfg.stripe(e1, m1) != cfg.stripe(e2, m2)
    ensures Run(cfg, Opening(e1, m1, e2, m2) + UpToCommit(1) + UpToCommit(2)) == BothRipe(e1, m1, e2, m2)
  {
    FirstGetsReady(cfg, e1, m1, e2, m2);
    RunSteps(cfg, Opening(e1, m1, e2, m2) + UpToCommit(1), UpToCommit(2));
    SecondReachesCommit(cfg, FirstRipe(e1, m1, e2, m2), e1, m1, e2, m2);
  }

  lemma FixedFresh(t: Tables, id: string)
    requires t.effects == map[] && id !in t.transitionsById && NulFree(id)
    ensures Fresh(t, Fixed(id))
  {
    forall i: nat, j: nat | Fixed(id).effectId(i) == Fixed(id).effectId(j)
      ensures i == j
    {
      assert |Repeat('x', i)| == i && |Repeat('x', j)| == j;
    }
  }

  /// What a keyless call that is about to commit leads to.
  lemma CommitsAs(cfg: Config, s: State, id: nat, f: Flight, t: Tables)
    requires At(s, id, f) && f.phase.Planned? && CanCommit(s, f) && Commit(s.tables, f.phase.prepared) == Ok(t)
    ensures var s' := Apply(cfg, s, CommitCall(id, true));
            && s'.tables == t && s'.flights == s.flights - {id} && |s'.replies| == |s.replies| + 1
            && s'.past == s.past.(log := s.past.log + [EntryOf(s.past.log, f.phase.prepared, f.inp)])
  {
  }

  lemma RefusedAs(cfg: Config, s: State, id: nat, f: Flight, e: EngineError)
    requires At(s, id, f) && f.phase.Planned? && CanCommit(s, f) && Commit(s.tables, f.phase.prepared) == Err(e)
    ensures var s' := Apply(cfg, s, CommitCall(id, true));
            |s'.replies| == |s.replies| + 1 && s'.replies[|s.replies|].outcome == Err(e)
  {
  }

  /// The first step of a key goes into empty tables.
  lemma FirstStepWrites(machines: map<string, MachineDefinition>, e1: string, m1: string)
    ensures var t, p := Empty.(machines := machines), FirstStep(e1, m1, "a");
            && Commit(t, p) == Ok(Written(t, p))
            && Written(t, p).transitionsById == map["a" := 1] && Written(t, p).effects == map[]
            && Written(t, p).machines == machines
            && Written(t, p).entityStates == map[StateKey(e1, m1) := p.state]
  {
    var t, p := Empty.(machines := machines), FirstStep(e1, m1, "a");
    assert Written(t, p).transitionsById == map["a" := 1];
    assert Written(t, p).entityStates == map[StateKey(e1, m1) := p.state];
  }

  /// A second first step meets the row that the first one wrote.
  lemma SecondStepMeets(t: Tables, e1: string, m1: string, e2: string, m2: string)
    requires StateKey(e1, m1) == StateKey(e2, m2) && t.entityStates == map[StateKey(e1, m1) := FirstStep(e1, m1, "a").state]
    ensures Commit(t, FirstStep(e2, m2, "b")) == Err(StorageVersionConflict(0, 1))
  {
  }

  /// The first commit succeeds, the second meets the row the first wrote.
  lemma SecondConflicts(cfg: Config, s: State, e1: string, m1: string, e2: string, m2: string)
    requires s == BothRipe(e1, m1, e2, m2) && m1 != m2 && StateKey(e1, m1) == StateKey(e2, m2)
    ensures var s1 := Apply(cfg, s, CommitCall(1, true));
            var s2 := Apply(cfg, s1, CommitCall(2, true));
            |s2.replies| == 2 && IsConflict(s2.replies[1])
  {
    var f1, f2 := s.flights[1], s.flights[2];
    var t := Written(s.tables, FirstStep(e1, m1, "a"));
    FixedFresh(s.tables, "a");
    FirstStepWrites(s.tables.machines, e1, m1);
    CommitsAs(cfg, s, 1, f1, t);
    FixedFresh(t, "b");
    SecondStepMeets(t, e1, m1, e2, m2);
    RefusedAs(cfg, Apply(cfg, s, CommitCall(1, true)), 2, f2, StorageVersionConflict(0, 1));
  }

  lemma ClashShows(cfg: Config, e1: string, m1: string, e2: string, m2: string)
    requires StateKey(e1, m1) == StateKey(e2, m2) && cfg.stripe(e1, m1) != cfg.stripe(e2, m2)
    ensures exists actions :: ShowsConflict(cfg, actions)
  {
    if m1 == m2 {
      StateKeySameMachine(e1, e2, m1);
      assert false;
    }
    var ready := Opening(e1, m1, e2, m2) + UpToCommit(1) + UpToCommit(2);
    var commits := [CommitCall(1, true), CommitCall(2, true)];
    var s := BothRipe(e1, m1, e2, m2);
    BothGetReady(cfg, e1, m1, e2, m2);
    RunSteps(cfg, ready, commits);
    StepsFirst(cfg, s, commits[0], [commits[1]]);
    StepsFirst(cfg, Apply(cfg, s, commits[0]), commits[1], []);
    assert [commits[0]] + [commits[1]] == commits && [commits[1]] + [] == [commits[1]];
    SecondConflicts(cfg, s, e1, m1, e2, m2);
    assert ShowsConflict(cfg, ready + commits);
  }

  /// With the stripe locks on, the storage engine's version conflict is unreachable
  /// exactly when pairs that share a projection key share a stripe.
  lemma ConflictExact(cfg: Config)
    requires cfg.locking
    ensures (exists actions :: ShowsConflict(cfg, actions)) <==> !StripesRespectKeys(cfg)
  {
    if StripesRespectKeys(cfg) {
      forall actions
        ensures !ShowsConflict(cfg, actions)
      {
        RunLocked(cfg, (iset c: Call | SameStripe(cfg, c, c)), actions);
      }
    } else {
      var e1, m1, e2, m2 :| StateKey(e1, m1) == StateKey(e2, m2) && cfg.stripe(e1, m1) != cfg.stripe(e2, m2);
      ClashShows(cfg, e1, m1, e2, m2);
    }
  }
}
