/**
 Histories pair by pair. Records are numbered and chained per projection key, so an
 (entity, machine) pair has a legal history of its own exactly as long as it does not
 share its key with another logged pair, which only ids with a NUL can.
 */
module Histories {
  import opened Concurrency
  import opened Conflict
  import opened Core
  import opened Database
  import opened Keys
  import opened Linearizability
  import opened Log
  import opened Reads
  import opened Text

  /// Every pair's own records have versions 1, ..., n and each starts where the one
  /// before it ended.
  ghost predicate PairsChained(log: seq<Entry>) {
    forall entity, machine :: Chained(ForPair(log, entity, machine))
  }

  lemma UnsharedChained(log: seq<Entry>, entity: string, machine: string)
    requires GroupsChained(log) && KeysUnshared(log)
    ensures Chained(ForPair(log, entity, machine))
  {
    var own := ForPair(log, entity, machine);
    if own != [] {
      ForPairMembers(log, entity, machine);
      assert own[0] in own;
      OwnerIsAlone(log, entity, machine, own[0]);
      PairWithinKey(log, entity, machine);
      assert Chained(ForKey(log, StateKey(entity, machine)));
    }
  }

  /// The first record of a pair with a chained history has version 1.
  lemma FirstVersion(log: seq<Entry>, e: Entry) returns (first: Entry)
    requires e in log && Chained(ForPair(log, e.rec.entityId, e.rec.machine))
    ensures first in ForKey(log, KeyOf(e)) && first.rec.version == 1
    ensures first.rec.entityId == e.rec.entityId && first.rec.machine == e.rec.machine
  {
    var own := ForPair(log, e.rec.entityId, e.rec.machine);
    ForPairMembers(log, e.rec.entityId, e.rec.machine);
    assert e in own;
    first := own[0];
    assert first in own;
    ForKeyMembers(log, KeyOf(e));
  }

  lemma SharedNotChained(log: seq<Entry>, a: Entry, b: Entry)
    requires GroupsChained(log) && PairsChained(log) && a in log && b in log && KeyOf(a) == KeyOf(b)
    ensures a.rec.entityId == b.rec.entityId && a.rec.machine == b.rec.machine
  {
    var es := ForKey(log, KeyOf(a));
    var x := FirstVersion(log, a);
    var y := FirstVersion(log, b);
    assert Chained(es);
    var i :| 0 <= i < |es| && es[i] == x;
    var j :| 0 <= j < |es| && es[j] == y;
    assert i + 1 == x.rec.version && j + 1 == y.rec.version;
  }

  lemma PairsChainedExactly(log: seq<Entry>)
    requires GroupsChained(log)
    ensures PairsChained(log) <==> KeysUnshared(log)
  {
    if KeysUnshared(log) {
      forall entity, machine
        ensures Chained(ForPair(log, entity, machine))
      {
        UnsharedChained(log, entity, machine);
      }
    }
    if PairsChained(log) {
      forall i, j | 0 <= i < |log| && 0 <= j < |log| && KeyOf(log[i]) == KeyOf(log[j])
        ensures log[i].rec.entityId == log[j].rec.entityId && log[i].rec.machine == log[j].rec.machine
      {
        assert log[i] in log && log[j] in log;
        SharedNotChained(log, log[i], log[j]);
      }
    }
  }

  /// The first record of a pair starts in the initial state of the definition its call
  /// used.
  ghost predicate StartsInitially(s: State, i: nat)
    requires i < |s.past.log| && i < |s.origins| && LegalEntry(s, i)
  {
    var e := s.past.log[i];
    ForPair(s.past.log[..i], e.rec.entityId, e.rec.machine) == [] ==>
      e.rec.fromState == s.past.machines[s.origins[i].at.machines][e.rec.machine].initialState
  }

  lemma UnsharedStartsInitially(s: State, i: nat)
    requires i < |s.past.log| && i < |s.origins| && LegalEntry(s, i)
    requires KeyUnshared(s.past.log, s.past.log[i].rec.entityId, s.past.log[i].rec.machine)
    ensures StartsInitially(s, i)
  {
    var e, before := s.past.log[i], s.past.log[..i];
    assert KeyUnshared(before, e.rec.entityId, e.rec.machine);
    PairWithinKey(before, e.rec.entityId, e.rec.machine);
  }

  lemma OwnKeyUnshared(log: seq<Entry>, i: nat)
    requires KeysUnshared(log) && i < |log|
    ensures KeyUnshared(log, log[i].rec.entityId, log[i].rec.machine)
  {
    assert log[i] in log;
    OwnerIsAlone(log, log[i].rec.entityId, log[i].rec.machine, log[i]);
  }

  /// Every pair's history is a legal run of its machine: every record performs a rule of a
  /// definition stored during its call, versions are 1, ..., n, each step starts where the
  /// one before it ended, and the first in the initial state.
  ghost predicate PairsLegal(s: State) {
    && |s.origins| == |s.past.log| && PairsChained(s.past.log)
    && forall i :: 0 <= i < |s.past.log| ==> LegalEntry(s, i) && StartsInitially(s, i)
  }

  /// In every run and across redefinitions, every pair's history is a legal run if and
  /// only if no two logged pairs share a key.
  lemma PairHistoriesAreLegal(cfg: Config, actions: seq<Action>)
    ensures PairsLegal(Run(cfg, actions)) <==> KeysUnshared(Run(cfg, actions).past.log)
  {
    var s := Run(cfg, actions);
    HistoriesAreLegal(cfg, actions);
    PairsChainedExactly(s.past.log);
    if KeysUnshared(s.past.log) {
      forall i | 0 <= i < |s.past.log|
        ensures StartsInitially(s, i)
      {
        OwnKeyUnshared(s.past.log, i);
        UnsharedStartsInitially(s, i);
      }
    }
  }

  /// Ids without the separator never share a key.
  lemma NulFreeKeysUnshared(log: seq<Entry>)
    requires PairsNulFree(log)
    ensures KeysUnshared(log)
  {
    forall i, j | 0 <= i < |log| && 0 <= j < |log| && KeyOf(log[i]) == KeyOf(log[j])
      ensures log[i].rec.entityId == log[j].rec.entityId && log[i].rec.machine == log[j].rec.machine
    {
      OnlyOneNul(log[i].rec.entityId, log[i].rec.machine, log[j].rec.entityId, log[j].rec.machine);
    }
  }

  // ---- A run in which two pairs share a key -------------------------------------------------

  function SecondStep(entity: string, machine: string): Prepared {
    Prepared(TransitionRecord("b", 0, entity, machine, "s", "s", "go", "", Null, None, 2, 0),
             EntityState(entity, machine, "s", 2, 0, 0), [])
  }

  /// A call that finds the row of another pair under its key continues from there.
  lemma LoopContinues(e1: string, m1: string, e2: string, m2: string)
    ensures Prepare(Go(e2, m2), Loop(m2), Some(EntityState(e1, m1, "s", 1, 0, 0)), map[], Fixed("b")) == Ok(SecondStep(e2, m2))
  {
    var rules := Loop(m2).transitions;
    assert "s" in rules[0].fromStates;
    assert Plan(rules, "s", "go") == Some(rules[0]);
    assert FirstFailure([], GuardResults(map[], [], EntityState(e2, m2, "s", 1, 0, 0), Null)) == None;
    assert EffectsOn([], "go") == [];
    assert MakeEffects([], "b", Fixed("b")) == [];
  }

  /// Where the run stands after the first pair's commit.
  ghost predicate FirstDone(s: State, e1: string, m1: string, e2: string, m2: string) {
    && s.tables.entityStates == map[StateKey(e1, m1) := EntityState(e1, m1, "s", 1, 0, 0)]
    && s.tables.transitionsById == map["a" := 1] && s.tables.effects == map[]
    && m2 in s.tables.machines && s.tables.machines[m2] == Loop(m2) && CurrentGuards(s.past) == map[]
    && At(s, 2, Flight(Go(e2, m2), Fixed("b"), Moment(0, 2, 0), Waiting)) && s.flights.Keys == {2}
    && |s.past.log| == 1 && s.past.log[0].rec.entityId == e1 && s.past.log[0].rec.machine == m1
  }

  lemma FirstIsDone(cfg: Config, s: State, e1: string, m1: string, e2: string, m2: string)
    requires s == FirstRipe(e1, m1, e2, m2) && m1 != m2
    ensures FirstDone(Apply(cfg, s, CommitCall(1, true)), e1, m1, e2, m2)
  {
    FixedFresh(s.tables, "a");
    FirstStepWrites(s.tables.machines, e1, m1);
    CommitsAs(cfg, s, 1, s.flights[1], Written(s.tables, FirstStep(e1, m1, "a")));
  }

  lemma SecondGetsReady(cfg: Config, s: State, e1: string, m1: string, e2: string, m2: string)
    requires FirstDone(s, e1, m1, e2, m2) && StateKey(e1, m1) == StateKey(e2, m2)
    ensures Steps(cfg, s, UpToCommit(2)) == Advance(s, 2, s.flights[2], Ripe(s, s.flights[2], SecondStep(e2, m2)))
  {
    LoopContinues(e1, m1, e2, m2);
    ReachesCommit(cfg, s, 2, s.flights[2], SecondStep(e2, m2));
  }

  lemma SecondStepWrites(t: Tables, e1: string, m1: string, e2: string, m2: string)
    requires StateKey(e1, m1) == StateKey(e2, m2) && t.entityStates == map[StateKey(e1, m1) := EntityState(e1, m1, "s", 1, 0, 0)]
    ensures Commit(t, SecondStep(e2, m2)) == Ok(Written(t, SecondStep(e2, m2)))
  {
  }

  lemma SecondCommits(cfg: Config, s: State, e1: string, m1: string, e2: string, m2: string)
    requires FirstDone(s, e1, m1, e2, m2) && StateKey(e1, m1) == StateKey(e2, m2)
    ensures var s' := Apply(cfg, Steps(cfg, s, UpToCommit(2)), CommitCall(2, true));
            && |s'.past.log| == 2 && s'.past.log[0] == s.past.log[0]
            && s'.past.log[1].rec.entityId == e2 && s'.past.log[1].rec.machine == m2
  {
    var ready := Steps(cfg, s, UpToCommit(2));
    SecondGetsReady(cfg, s, e1, m1, e2, m2);
    FixedFresh(s.tables, "b");
    SecondStepWrites(s.tables, e1, m1, e2, m2);
    CommitsAs(cfg, ready, 2, ready.flights[2], Written(s.tables, SecondStep(e2, m2)));
  }

  lemma BothCommit(cfg: Config, e1: string, m1: string, e2: string, m2: string) returns (actions: seq<Action>)
    requires StateKey(e1, m1) == StateKey(e2, m2) && m1 != m2
    ensures var log := Run(cfg, actions).past.log;
            |log| == 2 && log[0].rec.entityId == e1 && log[0].rec.machine == m1 && log[1].rec.entityId == e2 && log[1].rec.machine == m2
  {
    var first := Opening(e1, m1, e2, m2) + UpToCommit(1);
    var second := first + [CommitCall(1, true)];
    FirstGetsReady(cfg, e1, m1, e2, m2);
    OneStep(cfg, first, CommitCall(1, true));
    FirstIsDone(cfg, Run(cfg, first), e1, m1, e2, m2);
    RunSteps(cfg, second, UpToCommit(2));
    OneStep(cfg, second + UpToCommit(2), CommitCall(2, true));
    SecondCommits(cfg, Run(cfg, second), e1, m1, e2, m2);
    actions := second + UpToCommit(2) + [CommitCall(2, true)];
  }

  /// Entity "a\0b" of machine "c" and entity "a" of machine "b\0c": after one transition
  /// each, the second pair's history is not a legal run.
  lemma SharedKeyBreaksHistory(cfg: Config) returns (actions: seq<Action>)
    ensures !PairsLegal(Run(cfg, actions))
  {
    var e1, m1, e2, m2 := "a" + [NUL] + "b", "c", "a", "b" + [NUL] + "c";
    assert StateKey(e1, m1) == StateKey(e2, m2);
    assert |m1| != |m2|;
    actions := BothCommit(cfg, e1, m1, e2, m2);
    PairHistoriesAreLegal(cfg, actions);
    var log := Run(cfg, actions).past.log;
    assert KeyOf(log[0]) == KeyOf(log[1]);
  }
}
