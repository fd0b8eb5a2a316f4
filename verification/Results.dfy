/**
 What a success tells its caller, in every run, with or without the stripe locks: the
 states and version projected right before and right after its own commit, or field by
 field the record that carries its key.
 */
module Results {
  import opened Acknowledgement
  import opened Concurrency
  import opened Database
  import opened Engine
  import opened Interleaving
  import opened Log
  import opened Projection

  lemma CutRun(cfg: Config, actions: seq<Action>, k: nat)
    requires k <= |actions|
    ensures var part, log := Run(cfg, actions[..k]).past.log, Run(cfg, actions).past.log;
            |part| <= |log| && part == log[..|part|]
  {
    assert actions[..k] + actions[k..] == actions;
    LogOnlyGrows(cfg, actions[..k], actions[k..]);
  }

  /// The row a run projects when its log has reached length `i`.
  lemma RowAtLength(cfg: Config, actions: seq<Action>, k: nat, i: nat, call: Call)
    requires k <= |actions| && |Run(cfg, actions[..k]).past.log| == i <= |Run(cfg, actions).past.log|
    ensures GetEntityState(Run(cfg, actions[..k]).tables, call.entity, call.machine)
            == RowIn(Run(cfg, actions).past.log[..i], CallKey(call))
  {
    CutRun(cfg, actions, k);
    RunKeeps(cfg, actions[..k]);
    ProjectionLookup(Run(cfg, actions[..k]).tables, Run(cfg, actions[..k]).past.log, call.entity, call.machine);
  }

  /// The success reports entry `i`, logged by step `k`.
  ghost predicate Told(cfg: Config, actions: seq<Action>, s: State, r: Reply, i: nat, k: nat) {
    && Logs(cfg, actions, k, i) && i < |s.past.log| == |s.origins| && r.outcome.Ok?
    && var o, e, res := s.origins[i], s.past.log[i], r.outcome.value;
       if ToCommitter(r, o) then
         && o.at.machines < |s.past.machines| && r.call.machine in s.past.machines[o.at.machines]
         && TellsCommit(s.past.machines[o.at.machines][r.call.machine].initialState,
                        Run(cfg, actions[..k]).tables, Run(cfg, actions[..k + 1]).tables, i + 1, r.call, r.inp, res)
       else r.call.key.Some? && e.rec.idempotencyKey == r.call.key && Reports(res, e.rec)
  }

  lemma EntryMoves(s: State, i: nat, res: TransitionResult)
    requires Inv(s) && i < |s.past.log| && Reports(res, s.past.log[i].rec)
    ensures i < |s.origins|
    ensures var o, log := s.origins[i], s.past.log;
            && o.at.machines < |s.past.machines| && o.call.machine in s.past.machines[o.at.machines]
            && Moves(res, o.call, RowIn(log[..i], CallKey(o.call)), s.past.machines[o.at.machines][o.call.machine].initialState,
                     RowIn(log[..i + 1], CallKey(o.call)))
            && res.sequence == i + 1 && res.transitionId == o.inp.recordId && res.timestamp == o.inp.recordTime
  {
    var o, log := s.origins[i], s.past.log;
    assert OriginOk(s.past, o, i);
    CommittedMoves(log[..i], s.past.machines[o.at.machines], s.past.guards[o.at.guards], o.call, o.inp, res);
    assert log[..i + 1] == log[..i] + [log[i]];
  }

  lemma CommitterTold(cfg: Config, actions: seq<Action>, r: Reply, i: nat, k: nat)
    requires var s := Run(cfg, actions);
             && Logs(cfg, actions, k, i) && i < |s.past.log| == |s.origins| && r.outcome.Ok?
             && Reports(r.outcome.value, s.past.log[i].rec) && ToCommitter(r, s.origins[i])
    ensures Told(cfg, actions, Run(cfg, actions), r, i, k)
  {
    RunKeeps(cfg, actions);
    EntryMoves(Run(cfg, actions), i, r.outcome.value);
    RowAtLength(cfg, actions, k, i, r.call);
    RowAtLength(cfg, actions, k + 1, i + 1, r.call);
  }

  /// Every success of every run tells the truth.
  lemma SuccessesAreTrue(cfg: Config, actions: seq<Action>, n: nat)
    requires n < |Run(cfg, actions).replies| && Run(cfg, actions).replies[n].outcome.Ok?
    ensures var s := Run(cfg, actions); exists i, k :: Told(cfg, actions, s, s.replies[n], i, k)
  {
    var s := Run(cfg, actions);
    var r := s.replies[n];
    AcknowledgedExactly(cfg, actions);
    CommitMoments(cfg, actions);
    assert Backed(s.past.log, s.origins, r);
    var i: nat :| BackedBy(s.past.log, s.origins, r, i);
    assert LoggedOnce(cfg, actions, i, s.origins[i]);
    var k: nat :| LoggedAt(cfg, actions, k, i, s.origins[i]);
    if ToCommitter(r, s.origins[i]) {
      CommitterTold(cfg, actions, r, i, k);
    } else {
      assert Told(cfg, actions, s, r, i, k);
    }
  }
}
