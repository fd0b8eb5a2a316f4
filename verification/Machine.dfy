/**
 Validation of machine definitions, and what validation buys: first-match
 planning has at most one candidate, does not depend on the order of the rules,
 and never leaves the declared states.
 */
module Machine {
  import opened Core

  datatype DefinitionError =
    | DuplicateState(name: string)
    | UnknownInitialState
    | UnknownFromState(event: string, state: string)
    | DuplicatePair(event: string, state: string)
    | UnknownToState(event: string, state: string)

  predicate Distinct(s: seq<string>) {
    forall i, j :: 0 <= i < j < |s| ==> s[i] != s[j]
  }

  /// No (event, from_state) pair occurs twice, within a rule or across rules.
  predicate PairsDistinct(rules: seq<TransitionRule>) {
    forall i, a, j, b ::
      0 <= i < |rules| && 0 <= a < |rules[i].fromStates| && 0 <= j < |rules| && 0 <= b < |rules[j].fromStates|
      && rules[i].event == rules[j].event && rules[i].fromStates[a] == rules[j].fromStates[b]
      ==> i == j && a == b
  }

  predicate Repeats(s: seq<string>, x: string) {
    exists i, j :: 0 <= i < j < |s| && s[i] == x && s[j] == x
  }

  predicate PairAt(rules: seq<TransitionRule>, i: nat, a: nat, event: string, state: string) {
    i < |rules| && a < |rules[i].fromStates| && rules[i].event == event && rules[i].fromStates[a] == state
  }

  /// The pair occurs at two places.
  ghost predicate PairRepeats(rules: seq<TransitionRule>, event: string, state: string) {
    exists i, a, j, b :: PairAt(rules, i, a, event, state) && PairAt(rules, j, b, event, state) && (i != j || a != b)
  }

  predicate RuleDeclared(rule: TransitionRule, states: seq<string>) {
    rule.toState in states && forall s :: s in rule.fromStates ==> s in states
  }

  predicate WellFormed(def: MachineDefinition) {
    && Distinct(def.states)
    && def.initialState in def.states
    && (forall rule :: rule in def.transitions ==> RuleDeclared(rule, def.states))
    && PairsDistinct(def.transitions)
  }

  /// Validation accepts exactly the well-formed definitions, and a rejection
  /// names a fault that is really there.
  method Validate(def: MachineDefinition) returns (r: Result<(), DefinitionError>)
    ensures r.Ok? <==> WellFormed(def)
    ensures r.Err? && r.error.DuplicateState? <==> !Distinct(def.states)
    ensures r.Err? && r.error.UnknownInitialState? <==> Distinct(def.states) && def.initialState !in def.states
    ensures r.Err? && r.error.UnknownFromState? ==> r.error.state !in def.states
    ensures r.Err? && r.error.UnknownToState? ==> r.error.state !in def.states
    ensures r.Err? && r.error.DuplicateState? ==> Repeats(def.states, r.error.name)
    ensures r.Err? && r.error.DuplicatePair? ==> PairRepeats(def.transitions, r.error.event, r.error.state)
  {
    var seenStates: set<string> := {};
    for i := 0 to |def.states|
      invariant Distinct(def.states[..i])
      invariant forall s :: s in seenStates <==> s in def.states[..i]
    {
      if def.states[i] in seenStates {
        var j :| 0 <= j < i && def.states[..i][j] == def.states[i];
        assert def.states[j] == def.states[i];
        return Err(DuplicateState(def.states[i]));
      }
      seenStates := seenStates + {def.states[i]};
      assert def.states[..i + 1] == def.states[..i] + [def.states[i]];
    }
    assert def.states[..|def.states|] == def.states;

    if def.initialState !in seenStates {
      return Err(UnknownInitialState);
    }

    var rules := def.transitions;
    var pairSeen: set<(string, string)> := {};
    for i := 0 to |rules|
      invariant forall k :: 0 <= k < i ==> RuleDeclared(rules[k], def.states)
      invariant PairsAre(pairSeen, rules[..i])
      invariant PairsDistinct(rules[..i])
    {
      var fault;
      ghost var before := pairSeen;
      pairSeen, fault := CheckRule(rules[i], seenStates, pairSeen);
      assert rules[i] in rules;
      if fault.Some? {
        if fault.value.DuplicatePair? {
          RepeatedPair(rules, i, before, fault.value.state);
        }
        return Err(fault.value);
      }
      PairsExtend(rules, i, before);
    }
    assert rules[..|rules|] == rules;
    return Ok(());
  }

  /// One rule: its from-states in turn, then its target.
  method CheckRule(rule: TransitionRule, seenStates: set<string>, seen: set<(string, string)>)
    returns (pairSeen: set<(string, string)>, fault: Option<DefinitionError>)
    ensures fault.None? ==> pairSeen == seen + PairsOf(rule)
    ensures fault.None? <==> && rule.toState in seenStates && (forall s :: s in rule.fromStates ==> s in seenStates)
                             && Distinct(rule.fromStates) && PairsOf(rule) !! seen
    ensures fault.Some? ==> fault.value.UnknownFromState? || fault.value.UnknownToState? || fault.value.DuplicatePair?
    ensures fault.Some? && fault.value.UnknownFromState? ==> fault.value.state in rule.fromStates && fault.value.state !in seenStates
    ensures fault.Some? && fault.value.UnknownToState? ==> fault.value.state == rule.toState && rule.toState !in seenStates
    ensures fault.Some? && fault.value.DuplicatePair? ==>
              && fault.value.event == rule.event && fault.value.state in rule.fromStates
              && (Repeats(rule.fromStates, fault.value.state) || (rule.event, fault.value.state) in seen)
  {
    pairSeen := seen;
    for a := 0 to |rule.fromStates|
      invariant forall s :: s in rule.fromStates[..a] ==> s in seenStates
      invariant Distinct(rule.fromStates[..a])
      invariant forall b :: 0 <= b < a ==> (rule.event, rule.fromStates[b]) !in seen
      invariant forall p :: p in pairSeen <==> p in seen || (p.0 == rule.event && p.1 in rule.fromStates[..a])
    {
      var from := rule.fromStates[a];
      if from !in seenStates {
        return pairSeen, Some(UnknownFromState(rule.event, from));
      }
      if (rule.event, from) in pairSeen {
        assert (rule.event, from) in PairsOf(rule);
        if (rule.event, from) !in seen {
          var b :| 0 <= b < a && rule.fromStates[..a][b] == from;
          assert rule.fromStates[b] == from && rule.fromStates[a] == from;
        }
        return pairSeen, Some(DuplicatePair(rule.event, from));
      }
      pairSeen := pairSeen + {(rule.event, from)};
      assert rule.fromStates[..a + 1] == rule.fromStates[..a] + [from];
    }
    assert rule.fromStates[..|rule.fromStates|] == rule.fromStates;
    if rule.toState !in seenStates {
      return pairSeen, Some(UnknownToState(rule.event, rule.toState));
    }
    fault := None;
  }

  ghost function PairsOf(rule: TransitionRule): set<(string, string)> {
    set s | s in rule.fromStates :: (rule.event, s)
  }

  ghost predicate PairsAre(pairs: set<(string, string)>, rules: seq<TransitionRule>) {
    forall p :: p in pairs <==> exists rule :: rule in rules && p in PairsOf(rule)
  }

  lemma RepeatedPair(rules: seq<TransitionRule>, i: nat, before: set<(string, string)>, state: string)
    requires i < |rules| && PairsAre(before, rules[..i]) && state in rules[i].fromStates
    requires Repeats(rules[i].fromStates, state) || (rules[i].event, state) in before
    ensures PairRepeats(rules, rules[i].event, state) && !PairsDistinct(rules)
  {
    var event := rules[i].event;
    if Repeats(rules[i].fromStates, state) {
      var a, b :| 0 <= a < b < |rules[i].fromStates| && rules[i].fromStates[a] == state && rules[i].fromStates[b] == state;
      assert PairAt(rules, i, a, event, state) && PairAt(rules, i, b, event, state);
    } else {
      var rule :| rule in rules[..i] && (event, state) in PairsOf(rule);
      var j :| 0 <= j < i && rules[..i][j] == rule;
      var a :| 0 <= a < |rules[i].fromStates| && rules[i].fromStates[a] == state;
      var b :| 0 <= b < |rules[j].fromStates| && rules[j].fromStates[b] == state;
      assert PairAt(rules, i, a, event, state) && PairAt(rules, j, b, event, state);
    }
  }

  lemma PairsExtend(rules: seq<TransitionRule>, i: nat, before: set<(string, string)>)
    requires i < |rules| && PairsAre(before, rules[..i]) && PairsDistinct(rules[..i])
    requires Distinct(rules[i].fromStates) && PairsOf(rules[i]) !! before
    ensures PairsAre(before + PairsOf(rules[i]), rules[..i + 1])
    ensures PairsDistinct(rules[..i + 1])
  {
    var upto, next := rules[..i], rules[..i + 1];
    assert next == upto + [rules[i]];
    forall k, a, b | 0 <= k < i && 0 <= a < |upto[k].fromStates| && 0 <= b < |rules[i].fromStates|
      ensures upto[k].event != rules[i].event || upto[k].fromStates[a] != rules[i].fromStates[b]
    {
      assert upto[k] in upto && (upto[k].event, upto[k].fromStates[a]) in PairsOf(upto[k]);
      assert (rules[i].event, rules[i].fromStates[b]) in PairsOf(rules[i]);
    }
  }

  // ---- What validation buys ----------------------------------------------------

  /// At most one rule matches any (state, event).
  lemma PlanIsDeterministic(def: MachineDefinition, state: string, event: string, i: nat, j: nat)
    requires WellFormed(def) && i < |def.transitions| && j < |def.transitions|
    requires Matches(def.transitions[i], state, event) && Matches(def.transitions[j], state, event)
    ensures i == j
  {
    var a :| 0 <= a < |def.transitions[i].fromStates| && def.transitions[i].fromStates[a] == state;
    var b :| 0 <= b < |def.transitions[j].fromStates| && def.transitions[j].fromStates[b] == state;
  }

  /// Planning does not depend on the order in which the rules are declared.
  lemma PlanIgnoresOrder(def: MachineDefinition, rules: seq<TransitionRule>, state: string, event: string)
    requires WellFormed(def) && multiset(rules) == multiset(def.transitions)
    ensures Plan(rules, state, event) == Plan(def.transitions, state, event)
  {
    forall r
      ensures r in rules <==> r in def.transitions
    {
      assert r in multiset(rules) <==> r in multiset(def.transitions);
    }
    var p, q := Plan(rules, state, event), Plan(def.transitions, state, event);
    if p.Some? && q.Some? {
      var i :| 0 <= i < |def.transitions| && def.transitions[i] == p.value;
      var j :| 0 <= j < |def.transitions| && def.transitions[j] == q.value;
      PlanIsDeterministic(def, state, event, i, j);
    }
  }

  /// The state after a list of events, an event without a rule leaving it as it is.
  function After(def: MachineDefinition, state: string, events: seq<string>): string
    decreases |events|
  {
    if events == [] then state
    else
      match Plan(def.transitions, state, events[0])
      case None => After(def, state, events[1..])
      case Some(rule) => After(def, rule.toState, events[1..])
  }

  lemma {:induction false} StaysDeclaredFrom(def: MachineDefinition, state: string, events: seq<string>)
    requires WellFormed(def) && state in def.states
    ensures After(def, state, events) in def.states
    decreases |events|
  {
    if events != [] {
      var p := Plan(def.transitions, state, events[0]);
      if p.Some? {
        assert RuleDeclared(p.value, def.states);
      }
      StaysDeclaredFrom(def, if p.Some? then p.value.toState else state, events[1..]);
    }
  }

  /// Whatever events arrive, a validated machine stays within its declared states.
  lemma StaysDeclared(def: MachineDefinition, events: seq<string>)
    requires WellFormed(def)
    ensures After(def, def.initialState, events) in def.states
  {
    StaysDeclaredFrom(def, def.initialState, events);
  }
}
