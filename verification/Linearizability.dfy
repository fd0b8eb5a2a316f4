/**
 What runs of concurrent calls amount to: the committed calls, taken one at a time
 in sequence order, rebuild the log; every entity's history is a legal run of its
 machine; and no update is lost, even without the stripe locks.
 */
module Linearizability {
  import opened Concurrency
  import opened Core
  import opened Database
  import opened Engine
  import opened Interleaving
  import opened Keys
  import opened Log
  import opened Machine

  // ---- Committed calls, one at a time -------------------------------------------------

  predicate MomentsIn(past: Past, origins: seq<Origin>) {
    forall i :: 0 <= i < |origins| ==> InPast(past, origins[i].at)
  }

  /// The log that the calls give when each runs alone, in order.
  function OneAtATime(past: Past, origins: seq<Origin>): seq<Entry>
    requires MomentsIn(past, origins)
  {
    if origins == [] then []
    else
      var o := origins[|origins| - 1];
      assert InPast(past, o.at);
      var log := OneAtATime(past, origins[..|origins| - 1]);
      Extended(log, Atomic(log, past.machines[o.at.machines], past.guards[o.at.guards], o.call, o.inp))
  }

  lemma OriginsInPast(s: State)
    requires OriginsOk(s)
    ensures MomentsIn(s.past, s.origins)
    ensures forall i :: 0 <= i < |s.origins| ==> NotAfter(s.origins[i].begun, s.origins[i].at)
  {
    forall i | 0 <= i < |s.origins|
      ensures InPast(s.past, s.origins[i].at) && NotAfter(s.origins[i].begun, s.origins[i].at)
    {
      assert OriginOk(s.past, s.origins[i], i);
    }
  }

  lemma {:induction false} OneAtATimeRebuilds(s: State, n: nat)
    requires OriginsOk(s) && MomentsIn(s.past, s.origins) && n <= |s.origins|
    ensures OneAtATime(s.past, s.origins[..n]) == s.past.log[..n]
  {
    if n > 0 {
      OneAtATimeRebuilds(s, n - 1);
      ReplayStep(s.past, s.origins[..n - 1], s.origins[n - 1]);
      OneMore(s.origins, n - 1);
      OneMore(s.past.log, n - 1);
    }
  }

  lemma OneMore<T>(s: seq<T>, n: nat)
    requires n < |s|
    ensures s[..n + 1] == s[..n] + [s[n]]
  {
  }

  lemma ReplayStep(past: Past, origins: seq<Origin>, o: Origin)
    requires MomentsIn(past, origins) && OriginOk(past, o, |origins|)
    requires OneAtATime(past, origins) == past.log[..|origins|]
    ensures MomentsIn(past, origins + [o])
    ensures OneAtATime(past, origins + [o]) == past.log[..|origins|] + [past.log[|origins|]]
  {
    assert (origins + [o])[..|origins|] == origins;
  }

  /// Whatever the interleaving, with the stripe locks or without them: running the
  /// committed calls one at a time in sequence order gives the same log.
  lemma CommitsAreSerial(cfg: Config, actions: seq<Action>)
    ensures var s := Run(cfg, actions);
            && |s.origins| == |s.past.log|
            && MomentsIn(s.past, s.origins)
            && (forall i :: 0 <= i < |s.origins| ==> NotAfter(s.origins[i].begun, s.origins[i].at))
            && OneAtATime(s.past, s.origins) == s.past.log
  {
    var s := Run(cfg, actions);
    RunKeeps(cfg, actions);
    OriginsInPast(s);
    OneAtATimeRebuilds(s, |s.origins|);
    assert s.origins[..|s.origins|] == s.origins && s.past.log[..|s.past.log|] == s.past.log;
  }

  /// The tables are a function of the log, up to effect statuses and definitions.
  lemma LogDeterminesTables(t: Tables, u: Tables, log: seq<Entry>)
    requires Represents(t, log) && Represents(u, log)
    ensures t.entityStates == u.entityStates && t.transitions == u.transitions
    ensures t.transitionsById == u.transitionsById && t.entityTransitions == u.entityTransitions
    ensures t.idempotency == u.idempotency && t.effectsByTxn == u.effectsByTxn && Sequence(t) == Sequence(u)
    ensures t.effects.Keys == u.effects.Keys
    ensures forall id :: id in t.effects ==> u.effects[id] == t.effects[id].(status := u.effects[id].status)
  {
    SameIndexes(t, u, log);
    SameStates(t, u, log);
    SameOutbox(t, u, log);
  }

  lemma SameIndexes(t: Tables, u: Tables, log: seq<Entry>)
    requires IndexesAgree(t, log) && IndexesAgree(u, log)
    ensures t.transitions == u.transitions && t.transitionsById == u.transitionsById
    ensures t.entityTransitions == u.entityTransitions && Sequence(t) == Sequence(u)
  {
  }

  lemma SameStates(t: Tables, u: Tables, log: seq<Entry>)
    requires StatesAgree(t, log) && StatesAgree(u, log)
    ensures t.entityStates == u.entityStates && t.idempotency == u.idempotency
  {
    forall k
      ensures k in t.entityStates <==> k in u.entityStates
      ensures k in t.entityStates ==> t.entityStates[k] == u.entityStates[k]
    {
      assert RowAgrees(t.entityStates, log, k) && RowAgrees(u.entityStates, log, k);
    }
  }

  lemma SameOutbox(t: Tables, u: Tables, log: seq<Entry>)
    requires OutboxAgrees(t, log) && OutboxAgrees(u, log)
    ensures t.effectsByTxn == u.effectsByTxn && t.effects.Keys == u.effects.Keys
    ensures forall id :: id in t.effects ==> u.effects[id] == t.effects[id].(status := u.effects[id].status)
  {
    OutboxWithin(t, u, log);
    OutboxWithin(u, t, log);
    SameBothWays(t, u);
  }

  ghost predicate OutboxIn(t: Tables, u: Tables) {
    && (forall k :: k in t.effectsByTxn ==> k in u.effectsByTxn && u.effectsByTxn[k] == t.effectsByTxn[k])
    && (forall id :: id in t.effects ==> id in u.effects && u.effects[id] == t.effects[id].(status := u.effects[id].status))
  }

  lemma SameBothWays(t: Tables, u: Tables)
    requires OutboxIn(t, u) && OutboxIn(u, t)
    ensures t.effectsByTxn == u.effectsByTxn && t.effects.Keys == u.effects.Keys
    ensures forall id :: id in t.effects ==> u.effects[id] == t.effects[id].(status := u.effects[id].status)
  {
  }

  lemma OutboxWithin(t: Tables, u: Tables, log: seq<Entry>)
    requires OutboxAgrees(t, log) && OutboxAgrees(u, log)
    ensures OutboxIn(t, u)
  {
    forall k | k in t.effectsByTxn
      ensures k in u.effectsByTxn && u.effectsByTxn[k] == t.effectsByTxn[k]
    {
      assert IndexRow(log, k, t.effectsByTxn[k]);
      var s, j, e :| EffectAt(log, s, j, e) && k == EffectKey(e.transitionId, e.id) && t.effectsByTxn[k] == e.id;
    }
    forall id | id in t.effects
      ensures id in u.effects && u.effects[id] == t.effects[id].(status := u.effects[id].status)
    {
      assert HasEffect(log, id);
      var s, j, e :| EffectAt(log, s, j, e) && e.id == id;
    }
  }

  // ---- Legal histories -------------------------------------------------------------------

  /// The entry at `i` performs a rule of a validated definition that was stored under
  /// the machine's name at some moment between the call's begin and its commit, and
  /// the first entry under a key starts in that definition's initial state.
  ghost predicate LegalEntry(s: State, i: nat)
    requires i < |s.past.log| && i < |s.origins|
  {
    var o, e := s.origins[i], s.past.log[i];
    && o.begun.machines <= o.at.machines <= o.committed.machines < |s.past.machines| && o.committed.log == i
    && e.rec.machine in s.past.machines[o.at.machines]
    && var def := s.past.machines[o.at.machines][e.rec.machine];
       && def.name == e.rec.machine && WellFormed(def) && FollowsRule(e, def)
       && (ForKey(s.past.log[..i], KeyOf(e)) == [] ==> e.rec.fromState == def.initialState)
  }

  lemma EntryIsLegal(s: State, i: nat)
    requires PastOk(s) && OriginsOk(s) && GroupsChained(s.past.log) && i < |s.past.log|
    ensures LegalEntry(s, i)
  {
    var o, log := s.origins[i], s.past.log[..i];
    assert OriginOk(s.past, o, i);
    assert MachinesValid(s.past.machines[o.at.machines]);
    var def := s.past.machines[o.at.machines][o.call.machine];
    var es := ForKey(log, CallKey(o.call));
    ForKeyPrefix(s.past.log, i, CallKey(o.call));
    assert Chained(ForKey(s.past.log, CallKey(o.call)));
    assert Chained(es);
    PreparedContinues(o.call, def, es, s.past.guards[o.at.guards], o.inp, log);
  }

  /// Every history, in every run and across redefinitions, is a legal run: versions
  /// are exactly 1, ..., n, each state is left where the next step starts, and every
  /// step is legal.
  lemma HistoriesAreLegal(cfg: Config, actions: seq<Action>)
    ensures var s := Run(cfg, actions);
            && |s.origins| == |s.past.log|
            && (forall key :: Chained(ForKey(s.past.log, key)))
            && (forall i :: 0 <= i < |s.past.log| ==> LegalEntry(s, i))
  {
    var s := Run(cfg, actions);
    RunKeeps(cfg, actions);
    assert GroupsChained(s.past.log);
    forall i | 0 <= i < |s.past.log|
      ensures LegalEntry(s, i)
    {
      EntryIsLegal(s, i);
    }
  }

  // ---- Without the locks ---------------------------------------------------------------------

  /// The record continues the row from where it stands.
  predicate Continues(rec: TransitionRecord, call: Call, row: Option<EntityState>, initial: string) {
    && rec.entityId == call.entity && rec.machine == call.machine && rec.event == call.event
    && rec.actor == call.actor && rec.ctx == call.ctx && rec.idempotencyKey == call.key
    && rec.fromState == (if row.Some? then row.value.currentState else initial)
    && rec.version == (if row.Some? then row.value.version else 0) + 1
  }

  lemma CommitContinues(s: State, f: Flight)
    requires Inv(s) && FlightOk(s.past, f) && f.phase.Planned? && CanCommit(s, f)
    requires Commit(s.tables, f.phase.prepared).Ok?
    ensures Continues(f.phase.prepared.rec, f.call, GetEntityState(s.tables, f.call.entity, f.call.machine), f.phase.def.initialState)
  {
    PlanStillValid(s, f);
    ProjectionLookup(s.tables, s.past.log, f.call.entity, f.call.machine);
    PreparedRecord(f.call, f.phase.def, f.phase.row, s.past.guards[f.phase.g], f.inp);
  }

  /// No interleaving loses an update, even without the stripe locks: a committed
  /// record starts from the state the projection holds at the moment of commit, or
  /// from the initial state its call read if there is no row yet.
  lemma NoLostUpdate(cfg: Config, actions: seq<Action>, id: nat, ok: bool)
    ensures var s, s' := Run(cfg, actions), Apply(cfg, Run(cfg, actions), CommitCall(id, ok));
            s'.past.log != s.past.log ==>
              && id in s.flights && s.flights[id].phase.Planned?
              && var f := s.flights[id];
                 && s'.past.log == s.past.log + [EntryOf(s.past.log, f.phase.prepared, f.inp)]
                 && Continues(f.phase.prepared.rec, f.call, GetEntityState(s.tables, f.call.entity, f.call.machine), f.phase.def.initialState)
  {
    var s := Run(cfg, actions);
    RunKeeps(cfg, actions);
    CommitStep(cfg, s, id, ok);
    if Apply(cfg, s, CommitCall(id, ok)).past.log != s.past.log {
      assert FlightOk(s.past, s.flights[id]);
      CommitContinues(s, s.flights[id]);
    }
  }

  lemma CommitStep(cfg: Config, s: State, id: nat, ok: bool)
    ensures var s' := Apply(cfg, s, CommitCall(id, ok));
            s'.past.log != s.past.log ==>
              && id in s.flights && s.flights[id].phase.Planned? && CanCommit(s, s.flights[id])
              && Commit(s.tables, s.flights[id].phase.prepared).Ok?
              && s'.past.log == s.past.log + [EntryOf(s.past.log, s.flights[id].phase.prepared, s.flights[id].inp)]
  {
  }
}
