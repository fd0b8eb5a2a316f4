/**
 Idempotency keys over whole runs of concurrent calls: one record per key, settled
 for good by the first commit.
 */
module Idempotency {
  import opened Concurrency
  import opened Core
  import opened Database
  import opened Interleaving
  import opened Log
  import opened Projection

  /// At most one record of the log carries a key, in every run.
  lemma OneRecordPerKey(cfg: Config, actions: seq<Action>, key: string, i: nat, j: nat)
    requires i < |Run(cfg, actions).past.log| && j < |Run(cfg, actions).past.log|
    requires Run(cfg, actions).past.log[i].rec.idempotencyKey == Some(key)
    requires Run(cfg, actions).past.log[j].rec.idempotencyKey == Some(key)
    ensures i == j
  {
    RunKeeps(cfg, actions);
    IdempotencyLookup(Run(cfg, actions).tables, Run(cfg, actions).past.log, key);
  }

  lemma FoundStays(t: Tables, log: seq<Entry>, earlier: seq<Entry>, key: string)
    requires Represents(t, log) && earlier <= log && FindKey(earlier, key).Some?
    ensures FindKey(log, key) == FindKey(earlier, key)
  {
    FindKeyFinds(earlier, key);
    FindKeyFinds(log, key);
    IdempotencyLookup(t, log, key);
    var i :| 0 <= i < |earlier| && earlier[i].rec == FindKey(earlier, key).value;
    assert log[i] == earlier[i];
  }

  /// Whatever happens after a key's commit, the key keeps standing for that record.
  lemma KeyIsSettled(cfg: Config, actions: seq<Action>, more: seq<Action>, key: string)
    requires FindKey(Run(cfg, actions).past.log, key).Some?
    ensures FindKey(Run(cfg, actions + more).past.log, key) == FindKey(Run(cfg, actions).past.log, key)
  {
    var s := Run(cfg, actions + more);
    RunKeeps(cfg, actions + more);
    LogOnlyGrows(cfg, actions, more);
    FoundStays(s.tables, s.past.log, Run(cfg, actions).past.log, key);
  }

  lemma LookupReplays(s: State, id: nat, f: Flight, rec: TransitionRecord)
    requires Inv(s) && f.call.key.Some? && FindKey(s.past.log, f.call.key.value) == Some(rec)
    ensures DoLookup(s, id, f, true) == Return(s, id, f, Now(s.past), Seen(|s.past.log|, false), Ok(ResultOf(rec)))
  {
    IdempotencyLookup(s.tables, s.past.log, f.call.key.value);
  }

  /// A call that looks up a settled key returns the settled result and writes
  /// nothing, whatever its entity, machine, event or expected version.
  lemma LaterCallsReplay(cfg: Config, actions: seq<Action>, more: seq<Action>, id: nat)
    requires var s := Run(cfg, actions + more);
             && id in s.flights && s.flights[id].phase.Locked? && s.flights[id].call.key.Some?
             && FindKey(Run(cfg, actions).past.log, s.flights[id].call.key.value).Some?
    ensures var s := Run(cfg, actions + more);
            var s' := Apply(cfg, s, Lookup(id, true));
            && s'.tables == s.tables && s'.past == s.past && |s'.replies| == |s.replies| + 1
            && s'.replies[|s.replies|].call == s.flights[id].call
            && s'.replies[|s.replies|].outcome.Ok?
            && Reports(s'.replies[|s.replies|].outcome.value,
                       FindKey(Run(cfg, actions).past.log, s.flights[id].call.key.value).value)
  {
    var s := Run(cfg, actions + more);
    var f := s.flights[id];
    RunKeeps(cfg, actions + more);
    KeyIsSettled(cfg, actions, more, f.call.key.value);
    LookupReplays(s, id, f, FindKey(s.past.log, f.call.key.value).value);
  }
}
