/**
 The composite string keys of the storage tables. Parts are joined with a NUL
 character and nothing in the engine rejects a NUL inside an entity id or a
 machine name, so the lemmas here say exactly which identifiers the encoding
 keeps apart.
 */
module Keys {
  import opened Text

  predicate NulFree(s: string) {
    NUL !in s
  }

  /// Key of the projection row of an (entity, machine) pair.
  function StateKey(entity: string, machine: string): string {
    entity + [NUL] + machine
  }

  /// Prefix shared by the history keys of an (entity, machine) pair.
  function TransitionPrefix(entity: string, machine: string): string {
    entity + [NUL] + machine + [NUL]
  }

  /// Key of one history index row.
  function TransitionKey(entity: string, machine: string, sequence: nat): string {
    entity + [NUL] + machine + [NUL] + Padded(sequence)
  }

  function EffectPrefix(transition: string): string {
    transition + [NUL]
  }

  /// Key of one row of the effects-by-transition index.
  function EffectKey(transition: string, effect: string): string {
    transition + [NUL] + effect
  }

  // ---- Splitting at the first NUL ------------------------------------------

  lemma SplitAtNul(a: string, x: string, b: string, y: string)
    requires NulFree(a) && NulFree(b) && a + [NUL] + x == b + [NUL] + y
    ensures a == b && x == y
  {
    var s := a + [NUL] + x;
    assert s[|a|] == NUL && s[|b|] == NUL;
    assert |a| == |b|;
    assert a == s[..|a|] && b == s[..|b|];
    assert x == s[|a| + 1..] && y == s[|b| + 1..];
  }

  lemma PositionOfNul(s: string) returns (i: nat)
    requires !NulFree(s)
    ensures i < |s| && s[i] == NUL
    ensures s == s[..i] + [NUL] + s[i + 1..]
  {
    i :| i < |s| && s[i] == NUL;
  }

  lemma {:induction false} DigitsNulFree(n: nat, w: nat)
    ensures NulFree(Digits(n, w))
  {
    if w > 0 {
      DigitsNulFree(n / 10, w - 1);
    }
  }

  // ---- What the projection key keeps apart ----------------------------------

  /// A pair is the only one with its projection key exactly when neither part
  /// contains a NUL.
  lemma StateKeyOwnedExactly(entity: string, machine: string)
    ensures (forall e, m :: StateKey(e, m) == StateKey(entity, machine) ==> e == entity && m == machine)
            <==> NulFree(entity) && NulFree(machine)
  {
    var key := StateKey(entity, machine);
    if NulFree(entity) && NulFree(machine) {
      forall e, m | StateKey(e, m) == key
        ensures e == entity && m == machine
      {
        OnlyOneNul(entity, machine, e, m);
      }
    } else if !NulFree(entity) {
      var i := PositionOfNul(entity);
      var e, m := entity[..i], entity[i + 1..] + [NUL] + machine;
      assert StateKey(e, m) == key;
      assert |e| < |entity|;
    } else {
      var i := PositionOfNul(machine);
      var e, m := entity + [NUL] + machine[..i], machine[i + 1..];
      assert StateKey(e, m) == key;
      assert |e| > |entity|;
    }
  }

  lemma OnlyOneNul(entity: string, machine: string, e: string, m: string)
    requires NulFree(entity) && NulFree(machine)
    requires StateKey(e, m) == StateKey(entity, machine)
    ensures e == entity && m == machine
  {
    var key := StateKey(entity, machine);
    assert forall i | 0 <= i < |key| && key[i] == NUL :: i == |entity|;
    assert StateKey(e, m)[|e|] == NUL;
    assert e == key[..|e|] && entity == key[..|entity|];
    assert m == key[|e| + 1..] && machine == key[|entity| + 1..];
  }

  /// With the machine fixed, the projection key always determines the entity.
  lemma StateKeySameMachine(a: string, b: string, machine: string)
    requires StateKey(a, machine) == StateKey(b, machine)
    ensures a == b
  {
    assert |a| == |b|;
    assert a == StateKey(a, machine)[..|a|] && b == StateKey(b, machine)[..|b|];
  }

  // ---- What the history prefix selects --------------------------------------

  /// Where the separators of a history key are.
  lemma SeparatorsOf(entity: string, machine: string, sequence: nat)
    requires NulFree(entity) && NulFree(machine) && sequence <= U64_MAX
    ensures var key := TransitionKey(entity, machine, sequence);
            forall i :: 0 <= i < |key| && key[i] == NUL ==> i == |entity| || i == |entity| + 1 + |machine|
  {
    PaddedIsTwentyDigits(sequence);
    DigitsNulFree(sequence, 20);
  }

  lemma PartsOf(s: string, e: string, m: string)
    requires TransitionPrefix(e, m) <= s
    ensures |s| >= |e| + |m| + 2 && s[|e|] == NUL && s[|e| + 1 + |m|] == NUL
    ensures e == s[..|e|] && m == s[|e| + 1..|e| + 1 + |m|]
  {
    var p := TransitionPrefix(e, m);
    assert p[|e|] == NUL && p[|e| + 1 + |m|] == NUL;
    assert e == p[..|e|] && m == p[|e| + 1..|e| + 1 + |m|];
    assert s[..|p|] == p;
  }

  /// When the stored pair is free of NUL, the prefix of any queried pair,
  /// whatever it contains, selects the stored key exactly if the pairs agree.
  lemma PrefixSelectsPair(entity: string, machine: string, sequence: nat, e: string, m: string)
    requires NulFree(entity) && NulFree(machine) && sequence <= U64_MAX
    ensures TransitionPrefix(e, m) <= TransitionKey(entity, machine, sequence) <==> e == entity && m == machine
  {
    var key := TransitionKey(entity, machine, sequence);
    OwnPrefix(entity, machine, sequence);
    PartsOf(key, entity, machine);
    if TransitionPrefix(e, m) <= key {
      SeparatorsOf(entity, machine, sequence);
      PartsOf(key, e, m);
    }
  }

  lemma OwnPrefix(entity: string, machine: string, sequence: nat)
    ensures TransitionPrefix(entity, machine) <= TransitionKey(entity, machine, sequence)
  {
    assert TransitionKey(entity, machine, sequence) == TransitionPrefix(entity, machine) + Padded(sequence);
  }

  /// A stored pair with a NUL in it is selected by the prefix of another pair.
  lemma PrefixSelectsForeignPair(entity: string, machine: string, sequence: nat) returns (e: string, m: string)
    requires !(NulFree(entity) && NulFree(machine))
    ensures TransitionPrefix(e, m) <= TransitionKey(entity, machine, sequence)
    ensures e != entity || m != machine
  {
    var key := TransitionKey(entity, machine, sequence);
    if !NulFree(entity) {
      var i := PositionOfNul(entity);
      e, m := entity[..i], entity[i + 1..];
      assert key == TransitionPrefix(e, m) + (machine + [NUL] + Padded(sequence));
      assert |e| < |entity|;
    } else {
      var i := PositionOfNul(machine);
      e, m := entity, machine[..i];
      assert key == TransitionPrefix(e, m) + (machine[i + 1..] + [NUL] + Padded(sequence));
      assert |m| < |machine|;
    }
  }

  /// History keys of one pair are ordered by sequence number.
  lemma TransitionKeyOrder(entity: string, machine: string, a: nat, b: nat)
    requires a <= U64_MAX && b <= U64_MAX
    ensures a < b <==> Less(TransitionKey(entity, machine, a), TransitionKey(entity, machine, b))
  {
    PaddedOrder(a, b);
    LessAfterPrefix(TransitionPrefix(entity, machine), Padded(a), Padded(b));
  }

  /// The sequence number at the end of a history key tells keys apart, whatever
  /// the ids contain.
  lemma TransitionKeySequence(e1: string, m1: string, a: nat, e2: string, m2: string, b: nat)
    requires a <= U64_MAX && b <= U64_MAX
    requires TransitionKey(e1, m1, a) == TransitionKey(e2, m2, b)
    ensures a == b
  {
    PaddedIsTwentyDigits(a);
    PaddedIsTwentyDigits(b);
    PaddedOrder(a, b);
    var key := TransitionKey(e1, m1, a);
    assert Padded(a) == key[|key| - 20..];
    assert TransitionKey(e2, m2, b)[|key| - 20..] == Padded(b);
  }

  // ---- Effects by transition -------------------------------------------------

  lemma EffectKeyUnique(t1: string, x1: string, t2: string, x2: string)
    requires NulFree(t1) && NulFree(t2) && EffectKey(t1, x1) == EffectKey(t2, x2)
    ensures t1 == t2 && x1 == x2
  {
    SplitAtNul(t1, x1, t2, x2);
  }

  lemma EffectPrefixSelects(t: string, transition: string, effect: string)
    requires NulFree(t) && NulFree(transition)
    ensures EffectPrefix(t) <= EffectKey(transition, effect) <==> t == transition
  {
    var key := EffectKey(transition, effect);
    if EffectPrefix(t) <= key {
      assert key == t + [NUL] + key[|t| + 1..];
      SplitAtNul(t, key[|t| + 1..], transition, effect);
    }
    if t == transition {
      assert key == EffectPrefix(t) + effect;
    }
  }
}
