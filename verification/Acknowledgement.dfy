/**
 What a reply tells a caller, in every run, with or without the stripe locks: a
 success names a record of the log, every record was acknowledged to the call that
 committed it, and a call that was refused wrote nothing.
 */
module Acknowledgement {
  import opened Concurrency
  import opened Core
  import opened Database
  import opened Interleaving
  import opened Log

  /// The reply is to the call that committed.
  ghost predicate ToCommitter(r: Reply, o: Origin) {
    r.call == o.call && r.inp == o.inp && r.begun == o.begun && r.at == o.at && NotAfter(o.committed, r.ended)
  }

  /// A success reports the record at `i`, which its own call committed or which carries
  /// the call's key.
  ghost predicate BackedBy(log: seq<Entry>, origins: seq<Origin>, r: Reply, i: nat) {
    && r.outcome.Ok? && i < |log| && i < |origins| && Reports(r.outcome.value, log[i].rec)
    && (ToCommitter(r, origins[i]) || (r.call.key.Some? && log[i].rec.idempotencyKey == r.call.key))
  }

  ghost predicate Backed(log: seq<Entry>, origins: seq<Origin>, r: Reply) {
    r.outcome.Ok? ==> exists i :: BackedBy(log, origins, r, i)
  }

  ghost predicate Answers(r: Reply, o: Origin, e: Entry) {
    ToCommitter(r, o) && r.outcome.Ok? && Reports(r.outcome.value, e.rec)
  }

  ghost predicate Answered(replies: seq<Reply>, o: Origin, e: Entry) {
    exists k :: 0 <= k < |replies| && Answers(replies[k], o, e)
  }

  ghost predicate AllBacked(s: State) {
    forall k :: 0 <= k < |s.replies| ==> Backed(s.past.log, s.origins, s.replies[k])
  }

  ghost predicate AllAcknowledged(s: State) {
    && |s.origins| == |s.past.log|
    && forall i :: 0 <= i < |s.past.log| ==> Answered(s.replies, s.origins[i], s.past.log[i])
  }

  /// Nothing is written and at most one call returns.
  ghost predicate Silent(s: State, s': State) {
    && s'.past.log == s.past.log && s'.origins == s.origins
    && (s'.replies == s.replies
        || exists r :: s'.replies == s.replies + [r] && Backed(s.past.log, s.origins, r))
  }

  /// One call commits and returns what it committed.
  ghost predicate Speaks(s: State, s': State) {
    exists e, o, r :: Answers(r, o, e) && s'.past.log == s.past.log + [e] && s'.origins == s.origins + [o]
                      && s'.replies == s.replies + [r] && o.committed == Now(s.past)
  }

  lemma ReplayBacked(log: seq<Entry>, origins: seq<Origin>, r: Reply)
    requires |origins| == |log| && r.call.key.Some? && FindKey(log, r.call.key.value).Some?
    requires r.outcome == Ok(ResultOf(FindKey(log, r.call.key.value).value))
    ensures Backed(log, origins, r)
  {
    FindKeyFinds(log, r.call.key.value);
    var i: nat :| i < |log| && log[i].rec == FindKey(log, r.call.key.value).value;
    assert BackedBy(log, origins, r, i);
  }

  lemma SilentReply(s: State, s': State, r: Reply)
    requires s'.past.log == s.past.log && s'.origins == s.origins && s'.replies == s.replies + [r] && Backed(s.past.log, s.origins, r)
    ensures Silent(s, s')
  {
  }

  lemma LookupSilent(s: State, id: nat, f: Flight, ok: bool)
    requires Inv(s)
    ensures Silent(s, DoLookup(s, id, f, ok)) && DoLookup(s, id, f, ok).tables == s.tables
  {
    if f.call.key.Some? && ok {
      IdempotencyLookup(s.tables, s.past.log, f.call.key.value);
      var found := FindKey(s.past.log, f.call.key.value);
      if found.Some? {
        var r := Reply(f.call, f.inp, f.begun, Now(s.past), Now(s.past), Seen(|s.past.log|, false), Ok(ResultOf(found.value)));
        ReplayBacked(s.past.log, s.origins, r);
        SilentReply(s, DoLookup(s, id, f, ok), r);
      }
    }
  }

  lemma ErrSilent(s: State, id: nat, f: Flight, at: Moment, seen: Seen, e: EngineError)
    ensures Silent(s, Return(s, id, f, at, seen, Err(e)))
  {
    var r := Reply(f.call, f.inp, f.begun, at, Now(s.past), seen, Err(e));
    assert Backed(s.past.log, s.origins, r);
    assert Return(s, id, f, at, seen, Err(e)).replies == s.replies + [r];
  }

  lemma CommitSpeaks(s: State, id: nat, f: Flight, seen: Seen, v: nat, g: nat, p: Prepared, ok: bool)
    ensures var s' := DoCommit(s, id, f, seen, v, g, p, ok);
            if ok && Commit(s.tables, p).Ok? then Speaks(s, s') else Silent(s, s') && s'.tables == s.tables
  {
    var at := Moment(|s.past.log|, v, g);
    var s' := DoCommit(s, id, f, seen, v, g, p, ok);
    if ok && Commit(s.tables, p).Ok? {
      var e := EntryOf(s.past.log, p, f.inp);
      var o, r := Origin(f.call, f.inp, f.begun, at, Now(s.past)), s'.replies[|s.replies|];
      assert Answers(r, o, e);
    } else {
      ErrSilent(s, id, f, at, seen, if !ok then StorageFailure else Commit(s.tables, p).error);
    }
  }

  lemma BeginSilent(s: State, id: nat, call: Call, inp: Inputs)
    ensures Silent(s, DoBegin(s, id, call, inp)) && DoBegin(s, id, call, inp).tables == s.tables
  {
    var now := Now(s.past);
    ErrSilent(s, id, Flight(call, inp, now, Waiting), now, Seen(now.log, false), ShuttingDown);
  }

  lemma AsideSilent(cfg: Config, s: State, a: Action)
    requires a.Define? || a.Register? || a.Mark? || a.Shutdown?
    ensures var s' := Apply(cfg, s, a);
            && s'.past.log == s.past.log && s'.origins == s.origins && s'.replies == s.replies
            && (a.Define? || a.Mark? || s'.tables == s.tables)
  {
  }

  /// What a step of a call does to storage: nothing at all unless it commits.
  lemma OnlyCommitsWrite(cfg: Config, s: State, a: Action)
    requires Inv(s)
    ensures var s' := Apply(cfg, s, a);
            Speaks(s, s') || (Silent(s, s') && (a.Define? || a.Mark? || s'.tables == s.tables))
  {
    if a.Begin? {
      BeginSilent(s, a.id, a.call, a.inp);
    } else if a.Define? || a.Register? || a.Mark? || a.Shutdown? {
      AsideSilent(cfg, s, a);
    } else if a.id in s.flights {
      CallWrites(cfg, s, a, s.flights[a.id]);
    }
  }

  lemma CallWrites(cfg: Config, s: State, a: Action, f: Flight)
    requires a.Acquire? || a.Lookup? || a.ReadMachine? || a.ReadState? || a.PlanCall? || a.CommitCall?
    requires Inv(s)
    ensures var s' := CallStep(cfg, s, a, f);
            Speaks(s, s') || (Silent(s, s') && s'.tables == s.tables)
  {
    match (a, f.phase)
    case (Lookup(id, ok), Locked) => LookupSilent(s, id, f, ok);
    case (ReadMachine(id, ok), Looked(seen)) =>
      ErrSilent(s, id, f, Now(s.past).(log := seen.at), seen, if ok then UnknownMachine else StorageFailure);
    case (ReadState(id, _), Defined(seen, _, _)) =>
      ErrSilent(s, id, f, Now(s.past).(log := seen.at), seen, StorageFailure);
    case (PlanCall(id), Read(seen, v, def, _, row)) =>
      var plan := Prepare(f.call, def, row, CurrentGuards(s.past), f.inp);
      if plan.Err? {
        ErrSilent(s, id, f, Moment(seen.at, v, Now(s.past).guards), seen, plan.error);
      }
    case (CommitCall(id, ok), Planned(seen, v, _, _, _, g, p)) => CommitSpeaks(s, id, f, seen, v, g, p, ok);
    case _ =>
  }

  lemma SilentKeeps(s: State, s': State)
    requires AllBacked(s) && AllAcknowledged(s) && Silent(s, s')
    ensures AllBacked(s') && AllAcknowledged(s')
  {
    assert forall k :: 0 <= k < |s.replies| ==> s'.replies[k] == s.replies[k];
    forall i | 0 <= i < |s'.past.log|
      ensures Answered(s'.replies, s'.origins[i], s'.past.log[i])
    {
      var k :| 0 <= k < |s.replies| && Answers(s.replies[k], s.origins[i], s.past.log[i]);
      assert Answers(s'.replies[k], s.origins[i], s.past.log[i]);
    }
  }

  lemma BackedGrows(log: seq<Entry>, origins: seq<Origin>, e: Entry, o: Origin, r: Reply)
    requires Backed(log, origins, r)
    ensures Backed(log + [e], origins + [o], r)
  {
    if r.outcome.Ok? {
      var i: nat :| BackedBy(log, origins, r, i);
      assert BackedBy(log + [e], origins + [o], r, i);
    }
  }

  lemma AnsweredGrows(replies: seq<Reply>, r: Reply, o: Origin, e: Entry)
    requires Answered(replies, o, e) || Answers(r, o, e)
    ensures Answered(replies + [r], o, e)
  {
    var all := replies + [r];
    if Answered(replies, o, e) {
      var k :| 0 <= k < |replies| && Answers(replies[k], o, e);
      assert Answers(all[k], o, e);
    } else {
      assert Answers(all[|replies|], o, e);
    }
  }

  lemma SpeaksKeeps(s: State, s': State)
    requires AllBacked(s) && AllAcknowledged(s) && Speaks(s, s')
    ensures AllBacked(s') && AllAcknowledged(s')
  {
    var e, o, r :| Answers(r, o, e) && s'.past.log == s.past.log + [e] && s'.origins == s.origins + [o]
                   && s'.replies == s.replies + [r];
    forall k | 0 <= k < |s'.replies|
      ensures Backed(s'.past.log, s'.origins, s'.replies[k])
    {
      if k < |s.replies| {
        BackedGrows(s.past.log, s.origins, e, o, s.replies[k]);
      } else {
        assert BackedBy(s'.past.log, s'.origins, r, |s.past.log|);
      }
    }
    forall i | 0 <= i < |s'.past.log|
      ensures Answered(s'.replies, s'.origins[i], s'.past.log[i])
    {
      AnsweredGrows(s.replies, r, s'.origins[i], s'.past.log[i]);
    }
  }

  lemma StillAcknowledged(s: State, s': State)
    requires AllBacked(s) && AllAcknowledged(s) && (Silent(s, s') || Speaks(s, s'))
    ensures AllBacked(s') && AllAcknowledged(s')
  {
    if Silent(s, s') {
      SilentKeeps(s, s');
    } else {
      SpeaksKeeps(s, s');
    }
  }

  /// Successes and records correspond: a success reports a record of the log that its
  /// own call committed or that carries its key, and each record was reported to the
  /// call that committed it.
  lemma {:induction false} AcknowledgedExactly(cfg: Config, actions: seq<Action>)
    ensures AllBacked(Run(cfg, actions)) && AllAcknowledged(Run(cfg, actions))
  {
    if actions != [] {
      var before, a := actions[..|actions| - 1], actions[|actions| - 1];
      AcknowledgedExactly(cfg, before);
      RunKeeps(cfg, before);
      OnlyCommitsWrite(cfg, Run(cfg, before), a);
      StillAcknowledged(Run(cfg, before), Apply(cfg, Run(cfg, before), a));
    }
  }

  /// Step `k` of the run logged entry `i`.
  ghost predicate Logs(cfg: Config, actions: seq<Action>, k: nat, i: nat) {
    k < |actions| && |Run(cfg, actions[..k]).past.log| == i && |Run(cfg, actions[..k + 1]).past.log| == i + 1
  }

  /// Step `k` logged entry `i`, and the entry's origin was noted then and there.
  ghost predicate LoggedAt(cfg: Config, actions: seq<Action>, k: nat, i: nat, o: Origin) {
    Logs(cfg, actions, k, i) && o.committed == Now(Run(cfg, actions[..k]).past)
  }

  lemma LoggedAtStays(cfg: Config, actions: seq<Action>, k: nat, i: nat, o: Origin)
    requires actions != [] && LoggedAt(cfg, actions[..|actions| - 1], k, i, o)
    ensures LoggedAt(cfg, actions, k, i, o)
  {
    var before := actions[..|actions| - 1];
    assert before[..k] == actions[..k] && before[..k + 1] == actions[..k + 1];
  }

  lemma LogsLast(cfg: Config, actions: seq<Action>)
    requires actions != []
    requires Speaks(Run(cfg, actions[..|actions| - 1]), Run(cfg, actions)) && AllAcknowledged(Run(cfg, actions[..|actions| - 1]))
    ensures var s := Run(cfg, actions);
            s.past.log != [] && |s.origins| == |s.past.log|
            && LoggedAt(cfg, actions, |actions| - 1, |s.past.log| - 1, s.origins[|s.origins| - 1])
  {
    assert actions[..|actions| - 1 + 1] == actions;
  }

  lemma StepSpeaks(cfg: Config, actions: seq<Action>)
    requires actions != []
    ensures var s, s' := Run(cfg, actions[..|actions| - 1]), Run(cfg, actions);
            AllAcknowledged(s) && (Speaks(s, s') || Silent(s, s'))
  {
    var before := actions[..|actions| - 1];
    AcknowledgedExactly(cfg, before);
    RunKeeps(cfg, before);
    OnlyCommitsWrite(cfg, Run(cfg, before), actions[|actions| - 1]);
  }

  lemma OriginStays(s: State, s': State, i: nat)
    requires AllAcknowledged(s) && (Speaks(s, s') || Silent(s, s')) && i < |s'.origins|
    ensures |s'.origins| == |s'.past.log|
    ensures if i < |s.past.log| then s'.origins[i] == s.origins[i] else Speaks(s, s') && i == |s'.past.log| - 1
  {
  }

  ghost predicate LoggedOnce(cfg: Config, actions: seq<Action>, i: nat, o: Origin) {
    exists k :: LoggedAt(cfg, actions, k, i, o)
  }

  lemma LoggedOnceStays(cfg: Config, actions: seq<Action>, i: nat, o: Origin)
    requires actions != [] && LoggedOnce(cfg, actions[..|actions| - 1], i, o)
    ensures LoggedOnce(cfg, actions, i, o)
  {
    var k: nat :| LoggedAt(cfg, actions[..|actions| - 1], k, i, o);
    LoggedAtStays(cfg, actions, k, i, o);
  }

  lemma LoggedNow(cfg: Config, actions: seq<Action>)
    requires actions != []
    requires Speaks(Run(cfg, actions[..|actions| - 1]), Run(cfg, actions)) && AllAcknowledged(Run(cfg, actions[..|actions| - 1]))
    ensures var s := Run(cfg, actions);
            s.past.log != [] && |s.origins| == |s.past.log| && LoggedOnce(cfg, actions, |s.past.log| - 1, s.origins[|s.origins| - 1])
  {
    LogsLast(cfg, actions);
  }

  ghost predicate AllMoments(cfg: Config, actions: seq<Action>, s: State) {
    |s.origins| == |s.past.log| && forall i :: 0 <= i < |s.origins| ==> LoggedOnce(cfg, actions, i, s.origins[i])
  }

  lemma MomentsStep(cfg: Config, actions: seq<Action>, s: State, s': State)
    requires actions != [] && AllMoments(cfg, actions[..|actions| - 1], s) && AllAcknowledged(s) && (Speaks(s, s') || Silent(s, s'))
    requires Speaks(s, s') ==> s'.origins != [] && LoggedOnce(cfg, actions, |s'.origins| - 1, s'.origins[|s'.origins| - 1])
    ensures AllMoments(cfg, actions, s')
  {
    forall i | 0 <= i < |s'.origins|
      ensures LoggedOnce(cfg, actions, i, s'.origins[i])
    {
      OriginStays(s, s', i);
      if i < |s.origins| {
        LoggedOnceStays(cfg, actions, i, s.origins[i]);
      }
    }
  }

  /// Every entry was logged by a step of the run, and the commit moment that its
  /// origin names is the moment of that step.
  lemma {:induction false} CommitMoments(cfg: Config, actions: seq<Action>)
    ensures AllMoments(cfg, actions, Run(cfg, actions))
  {
    if actions != [] {
      var before := actions[..|actions| - 1];
      CommitMoments(cfg, before);
      StepSpeaks(cfg, actions);
      if Speaks(Run(cfg, before), Run(cfg, actions)) {
        LoggedNow(cfg, actions);
      }
      MomentsStep(cfg, actions, Run(cfg, before), Run(cfg, actions));
    }
  }
}
