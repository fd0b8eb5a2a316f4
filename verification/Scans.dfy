/**
 The scans as the storage engine runs them: loops over one read snapshot, with
 their early exits, each proved to return what its table function says.
 */
module Scans {
  import opened Core
  import opened Changes
  import opened Database
  import opened Keys
  import opened Ordered
  import opened Outbox
  import opened Reads
  import opened Text

  method ScanHistory(t: Tables, entity: string, machine: string, limit: nat, after: nat)
    returns (results: seq<TransitionRecord>)
    ensures results == HistoryRead(t, entity, machine, limit, after)
  {
    var prefix := TransitionPrefix(entity, machine);
    var keys := InOrder(t.entityTransitions.Keys);
    InOrderMembers(t.entityTransitions.Keys);
    results := [];
    var i := 0;
    while i < |keys|
      invariant 0 <= i <= |keys|
      invariant results == Walk(t, keys[..i], prefix, after) && |results| <= limit
    {
      assert keys[i] in keys;
      WalkStep(t, keys, i, prefix, after);
      if prefix <= keys[i] && t.entityTransitions[keys[i]] > after {
        if |results| >= limit {
          break;
        }
        if t.entityTransitions[keys[i]] in t.transitions {
          results := results + [t.transitions[t.entityTransitions[keys[i]]]];
        }
      }
      i := i + 1;
    }
    WalkGrows(t, keys, i, prefix, after);
    assert i == |keys| ==> keys[..i] == keys;
  }

  lemma WalkStep(t: Tables, keys: seq<string>, i: nat, prefix: string, after: nat)
    requires i < |keys|
    ensures Walk(t, keys[..i + 1], prefix, after)
            == Walk(t, keys[..i], prefix, after) + if Hit(t, keys[i], prefix, after) then [HitRecord(t, keys[i], prefix, after)] else []
  {
    assert keys[..i + 1][..i] == keys[..i];
  }

  lemma {:induction false} WalkGrows(t: Tables, keys: seq<string>, i: nat, prefix: string, after: nat)
    requires i <= |keys|
    ensures Walk(t, keys[..i], prefix, after) <= Walk(t, keys, prefix, after)
  {
    if i == |keys| {
      assert keys[..i] == keys;
    } else {
      WalkGrows(t, keys[..|keys| - 1], i, prefix, after);
      assert keys[..|keys| - 1][..i] == keys[..i];
    }
  }

  method ScanAfter(t: Tables, after: nat, limit: nat) returns (results: seq<TransitionRecord>)
    ensures results == AfterRead(t, after, limit)
  {
    var keys := NumbersInOrder(RangeKeys(t, RangeStart(after)));
    NumbersInOrderLists(RangeKeys(t, RangeStart(after)));
    results := FirstRows(t, keys, limit);
  }

  method FirstRows(t: Tables, keys: seq<nat>, limit: nat) returns (results: seq<TransitionRecord>)
    requires forall k :: k in keys ==> k in t.transitions
    ensures results == Take(Rows(t, keys), limit)
  {
    ghost var rows := Rows(t, keys);
    RowsAt(t, keys);
    results := [];
    var i := 0;
    while i < |keys| && |results| < limit
      invariant 0 <= i <= |keys| && |results| == i <= limit
      invariant results == rows[..i]
    {
      assert rows[i] == t.transitions[keys[i]];
      results := results + [t.transitions[keys[i]]];
      i := i + 1;
    }
  }

  method ScanPending(t: Tables, limit: nat) returns (ids: seq<string>)
    ensures ids == PendingRead(t, limit)
  {
    var keys := InOrder(t.effects.Keys);
    InOrderMembers(t.effects.Keys);
    ids := [];
    var i := 0;
    while i < |keys| && |ids| < limit
      invariant 0 <= i <= |keys|
      invariant ids == PendingIn(t, keys[..i]) && |ids| <= limit
    {
      assert keys[i] in keys;
      PendingStep(t, keys, i);
      if t.effects[keys[i]].status == Pending {
        ids := ids + [keys[i]];
      }
      i := i + 1;
    }
    PendingGrows(t, keys, i);
    assert i == |keys| ==> keys[..i] == keys;
  }

  lemma PendingStep(t: Tables, keys: seq<string>, i: nat)
    requires i < |keys|
    ensures PendingIn(t, keys[..i + 1]) == PendingIn(t, keys[..i]) + if IsPending(t, keys[i]) then [keys[i]] else []
  {
    assert keys[..i + 1][..i] == keys[..i];
  }

  lemma {:induction false} PendingGrows(t: Tables, keys: seq<string>, i: nat)
    requires i <= |keys|
    ensures PendingIn(t, keys[..i]) <= PendingIn(t, keys)
  {
    if i == |keys| {
      assert keys[..i] == keys;
    } else {
      PendingGrows(t, keys[..|keys| - 1], i);
      assert keys[..|keys| - 1][..i] == keys[..i];
    }
  }

  method ScanEffects(t: Tables, transition: string) returns (results: seq<Effect>)
    ensures results == EffectsRead(t, transition)
  {
    var prefix := EffectPrefix(transition);
    var keys := KeysFrom(t, prefix);
    InOrderMembers(set k | k in t.effectsByTxn && !Less(k, prefix));
    results := [];
    var i := 0;
    while i < |keys| && prefix <= keys[i]
      invariant 0 <= i <= |keys|
      invariant results + ScanFrom(t, keys, i, prefix) == ScanFrom(t, keys, 0, prefix)
    {
      assert keys[i] in keys;
      var id := t.effectsByTxn[keys[i]];
      ScanStep(t, keys, i, prefix, results);
      if id in t.effects {
        results := results + [t.effects[id]];
      }
      i := i + 1;
    }
    assert ScanFrom(t, keys, i, prefix) == [];
    assert keys[0..] == keys;
  }

  ghost function ScanFrom(t: Tables, keys: seq<string>, i: nat, prefix: string): seq<Effect>
    requires i <= |keys| && forall k :: k in keys ==> k in t.effectsByTxn
  {
    ScanWhile(t, keys[i..], prefix)
  }

  lemma ScanStep(t: Tables, keys: seq<string>, i: nat, prefix: string, done: seq<Effect>)
    requires i < |keys| && prefix <= keys[i] && forall k :: k in keys ==> k in t.effectsByTxn
    ensures keys[i] in keys
    ensures var id := t.effectsByTxn[keys[i]];
            done + ScanFrom(t, keys, i, prefix)
            == (if id in t.effects then done + [t.effects[id]] else done) + ScanFrom(t, keys, i + 1, prefix)
  {
    assert keys[i] in keys;
    var id := t.effectsByTxn[keys[i]];
    assert keys[i..][1..] == keys[i + 1..];
    Associates(done, if id in t.effects then [t.effects[id]] else [], ScanFrom(t, keys, i + 1, prefix));
  }

  method ScanStates(t: Tables, machine: string, state: string) returns (results: seq<EntityState>)
    ensures results == ListRead(t, machine, state)
  {
    var keys := InOrder(t.entityStates.Keys);
    InOrderMembers(t.entityStates.Keys);
    results := [];
    for i := 0 to |keys|
      invariant forall k :: k in keys[..i] ==> k in keys
      invariant results == ListRows(t, keys[..i], machine, state)
    {
      assert keys[i] in keys && keys[..i + 1][..i] == keys[..i];
      if Contains(keys[i], [NUL] + machine) {
        var row := t.entityStates[keys[i]];
        if row.machine == machine && row.currentState == state {
          results := results + [row];
        }
      }
    }
    assert keys[..|keys|] == keys;
  }
}
