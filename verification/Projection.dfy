/**
 The projection in every reachable state of every run: the fold of the log, pair by
 pair, whose creation times and versions only ever move one way.
 */
module Projection {
  import opened Acknowledgement
  import opened Concurrency
  import opened Core
  import opened Database
  import opened Interleaving
  import opened Keys
  import opened Log

  /// The row that a pair's own entries amount to: the last one's target state, one
  /// version per entry, the first one's clock as creation time.
  function OwnRow(log: seq<Entry>, entity: string, machine: string): Option<EntityState> {
    var es := ForPair(log, entity, machine);
    if es == [] then None else Some(EntityState(entity, machine, es[|es| - 1].rec.toState, |es|, es[|es| - 1].now, es[0].now))
  }

  /// In every run, the projection holds the fold of a pair's own records if and only if
  /// no record of another pair is logged under its key.
  lemma ProjectionIsFold(cfg: Config, actions: seq<Action>, entity: string, machine: string)
    ensures var s := Run(cfg, actions);
            GetEntityState(s.tables, entity, machine) == OwnRow(s.past.log, entity, machine) <==> KeyUnshared(s.past.log, entity, machine)
  {
    var s := Run(cfg, actions);
    RunKeeps(cfg, actions);
    ProjectionLookup(s.tables, s.past.log, entity, machine);
    RowIsOwn(s.past.log, entity, machine);
  }

  lemma RowIsOwn(log: seq<Entry>, entity: string, machine: string)
    ensures RowIn(log, StateKey(entity, machine)) == OwnRow(log, entity, machine) <==> KeyUnshared(log, entity, machine)
  {
    var es := ForPair(log, entity, machine);
    PairWithinKey(log, entity, machine);
    ForPairMembers(log, entity, machine);
    assert es != [] ==> es[|es| - 1] in es;
  }

  /// Ids without the separator always qualify.
  lemma NulFreeRows(cfg: Config, actions: seq<Action>, entity: string, machine: string)
    requires NulFree(entity) && NulFree(machine)
    ensures GetEntityState(Run(cfg, actions).tables, entity, machine) == OwnRow(Run(cfg, actions).past.log, entity, machine)
  {
    ProjectionIsFold(cfg, actions, entity, machine);
    NulFreeUnshared(Run(cfg, actions).past.log, entity, machine);
  }

  lemma StepGrows(cfg: Config, s: State, a: Action)
    requires Inv(s)
    ensures s.past.log <= Apply(cfg, s, a).past.log
  {
    OnlyCommitsWrite(cfg, s, a);
  }

  lemma OneMoreStep(cfg: Config, actions: seq<Action>, a: Action)
    ensures Run(cfg, actions).past.log <= Run(cfg, actions + [a]).past.log
  {
    assert (actions + [a])[..|actions|] == actions;
    RunKeeps(cfg, actions);
    StepGrows(cfg, Run(cfg, actions), a);
  }

  lemma PrefixOf<T>(a: seq<T>, b: seq<T>, c: seq<T>)
    requires a <= b <= c
    ensures a <= c
  {
  }

  lemma MoveLast<T>(a: seq<T>, b: seq<T>)
    requires b != []
    ensures a + b == (a + b[..|b| - 1]) + [b[|b| - 1]]
  {
  }

  lemma {:induction false} LogOnlyGrows(cfg: Config, actions: seq<Action>, more: seq<Action>)
    ensures Run(cfg, actions).past.log <= Run(cfg, actions + more).past.log
  {
    if more == [] {
      assert actions + more == actions;
    } else {
      var rest := actions + more[..|more| - 1];
      LogOnlyGrows(cfg, actions, more[..|more| - 1]);
      OneMoreStep(cfg, rest, more[|more| - 1]);
      MoveLast(actions, more);
      PrefixOf(Run(cfg, actions).past.log, Run(cfg, rest).past.log, Run(cfg, actions + more).past.log);
    }
  }

  lemma RowInGrows(log: seq<Entry>, n: nat, key: string)
    requires n <= |log| && RowIn(log[..n], key).Some?
    ensures RowIn(log, key).Some? && RowIn(log, key).value.createdAt == RowIn(log[..n], key).value.createdAt
    ensures RowIn(log, key).value.version >= RowIn(log[..n], key).value.version
  {
    ForKeyPrefix(log, n, key);
  }

  /// Rows are never removed, keep their creation time and never go back a version.
  lemma RowsOnlyAdvance(cfg: Config, actions: seq<Action>, more: seq<Action>, entity: string, machine: string)
    ensures var before := GetEntityState(Run(cfg, actions).tables, entity, machine);
            var after := GetEntityState(Run(cfg, actions + more).tables, entity, machine);
            before.Some? ==>
              after.Some? && after.value.createdAt == before.value.createdAt && after.value.version >= before.value.version
  {
    var s, s' := Run(cfg, actions), Run(cfg, actions + more);
    RunKeeps(cfg, actions);
    RunKeeps(cfg, actions + more);
    LogOnlyGrows(cfg, actions, more);
    ProjectionLookup(s.tables, s.past.log, entity, machine);
    ProjectionLookup(s'.tables, s'.past.log, entity, machine);
    assert s'.past.log[..|s.past.log|] == s.past.log;
    if RowIn(s.past.log, StateKey(entity, machine)).Some? {
      RowInGrows(s'.past.log, |s.past.log|, StateKey(entity, machine));
    }
  }
}
