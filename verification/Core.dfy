/**
 The database's records, and the planner that turns a machine definition, a
 current state and an event into a transition.
 */
module Core {

  datatype Option<+T> = None | Some(value: T)

  datatype Result<+T, +E> = Ok(value: T) | Err(error: E)

  /// Opaque JSON. `Null` is the default of a missing effect payload.
  datatype Json = Null | Json(text: string)

  type Timestamp = int

  // ---- Machine definitions ---------------------------------------------------

  datatype TransitionRule = TransitionRule(
    event: string, fromStates: seq<string>, toState: string, guards: seq<string>)

  datatype EffectRule = EffectRule(onEvent: string, effect: string, payload: Option<Json>)

  datatype MachineDefinition = MachineDefinition(
    name: string, version: nat, states: seq<string>, initialState: string,
    transitions: seq<TransitionRule>, effects: seq<EffectRule>, createdAt: Timestamp)

  // ---- Stored records --------------------------------------------------------

  datatype TransitionRecord = TransitionRecord(
    id: string, sequence: nat, entityId: string, machine: string, fromState: string, toState: string,
    event: string, actor: string, ctx: Json, idempotencyKey: Option<string>, version: nat, timestamp: Timestamp)

  datatype EntityState = EntityState(
    entityId: string, machine: string, currentState: string, version: nat,
    updatedAt: Timestamp, createdAt: Timestamp)

  datatype EffectStatus = Pending | Published | Failed

  datatype Effect = Effect(
    id: string, transitionId: string, effectName: string, payload: Json,
    status: EffectStatus, createdAt: Timestamp)

  datatype EffectPayload = EffectPayload(effectName: string, payload: Json)

  datatype ChangeRecord = ChangeRecord(
    sequence: nat, transitionId: string, entityId: string, machine: string, fromState: string, toState: string,
    event: string, actor: string, version: nat, timestamp: Timestamp, ctx: Json, effects: seq<EffectPayload>)

  // ---- Planning --------------------------------------------------------------

  predicate Matches(rule: TransitionRule, state: string, event: string) {
    rule.event == event && state in rule.fromStates
  }

  /// The first rule that matches, if any.
  function Plan(rules: seq<TransitionRule>, state: string, event: string): (r: Option<TransitionRule>)
    ensures r.Some? ==> r.value in rules && Matches(r.value, state, event)
    ensures r.None? ==> forall rule :: rule in rules ==> !Matches(rule, state, event)
  {
    if rules == [] then None
    else if Matches(rules[0], state, event) then Some(rules[0])
    else Plan(rules[1..], state, event)
  }

  /// The plan is the rule at the least matching position.
  lemma {:induction false} PlanIsFirst(rules: seq<TransitionRule>, state: string, event: string, i: nat)
    requires i < |rules| && Matches(rules[i], state, event) && forall j :: 0 <= j < i ==> !Matches(rules[j], state, event)
    ensures Plan(rules, state, event) == Some(rules[i])
  {
    if i > 0 {
      PlanIsFirst(rules[1..], state, event, i - 1);
    }
  }

  /// All effect rules that fire on `event`, in declaration order.
  function EffectsOn(rules: seq<EffectRule>, event: string): seq<EffectRule> {
    if rules == [] then []
    else
      var front, last := rules[..|rules| - 1], rules[|rules| - 1];
      EffectsOn(front, event) + if last.onEvent == event then [last] else []
  }

  predicate Rises(pos: seq<nat>) {
    forall j, k :: 0 <= j < k < |pos| ==> pos[j] < pos[k]
  }

  /// `pos` lists, in ascending order, the positions of exactly the rules for `event`.
  ghost predicate FiresAt(rules: seq<EffectRule>, event: string, pos: seq<nat>) {
    if Rises(pos) && (forall i: nat :: i in pos <==> i < |rules| && rules[i].onEvent == event) then true else false
  }

  predicate Picks(rules: seq<EffectRule>, pos: seq<nat>, picked: seq<EffectRule>) {
    if |picked| == |pos| && (forall k :: 0 <= k < |pos| ==> pos[k] < |rules| && picked[k] == rules[pos[k]]) then true else false
  }

  lemma RisesFurther(pos: seq<nat>, n: nat)
    requires Rises(pos) && forall i :: i in pos ==> i < n
    ensures Rises(pos + [n])
  {
    assert forall j :: 0 <= j < |pos| ==> pos[j] in pos;
  }

  lemma FiresFurther(rules: seq<EffectRule>, event: string, pos: seq<nat>)
    requires rules != [] && FiresAt(rules[..|rules| - 1], event, pos)
    ensures FiresAt(rules, event, if rules[|rules| - 1].onEvent == event then pos + [|rules| - 1] else pos)
  {
    RisesFurther(pos, |rules| - 1);
  }

  lemma PicksFurther(rules: seq<EffectRule>, pos: seq<nat>, picked: seq<EffectRule>)
    requires rules != [] && Picks(rules[..|rules| - 1], pos, picked)
    ensures Picks(rules, pos, picked) && Picks(rules, pos + [|rules| - 1], picked + [rules[|rules| - 1]])
  {
  }

  /// The rules that fire are those at the firing positions.
  lemma {:induction false} EffectsOnFires(rules: seq<EffectRule>, event: string) returns (pos: seq<nat>)
    ensures FiresAt(rules, event, pos) && Picks(rules, pos, EffectsOn(rules, event))
  {
    if rules == [] {
      pos := [];
    } else {
      var n := |rules| - 1;
      pos := EffectsOnFires(rules[..n], event);
      FiresFurther(rules, event, pos);
      PicksFurther(rules, pos, EffectsOn(rules[..n], event));
      if rules[n].onEvent == event {
        pos := pos + [n];
      } else {
        assert EffectsOn(rules, event) == EffectsOn(rules[..n], event);
      }
    }
  }

  // ---- Guards ----------------------------------------------------------------

  type Guard = (EntityState, Json) -> bool

  /// A guard that is not registered passes.
  predicate GuardPasses(guards: map<string, Guard>, name: string, state: EntityState, ctx: Json) {
    name in guards ==> guards[name](state, ctx)
  }

  /// The results the engine collects before it asks the planner.
  function GuardResults(guards: map<string, Guard>, names: seq<string>, state: EntityState, ctx: Json)
    : (results: map<string, bool>)
  {
    map name | name in names :: GuardPasses(guards, name, state, ctx)
  }

  /// The first declared guard whose result is false or missing.
  function FirstFailure(names: seq<string>, results: map<string, bool>): (r: Option<string>) {
    if names == [] then None
    else if names[0] in results && results[names[0]] then FirstFailure(names[1..], results)
    else Some(names[0])
  }

  lemma {:induction false} FirstFailureOf(guards: map<string, Guard>, names: seq<string>, all: seq<string>,
                                          state: EntityState, ctx: Json)
    requires forall n :: n in names ==> n in all
    ensures var r := FirstFailure(names, GuardResults(guards, all, state, ctx));
            match r
            case None => forall n :: n in names ==> GuardPasses(guards, n, state, ctx)
            case Some(g) => exists i :: 0 <= i < |names| && names[i] == g && !GuardPasses(guards, g, state, ctx)
                                        && forall j :: 0 <= j < i ==> GuardPasses(guards, names[j], state, ctx)
  {
    if names != [] {
      var results := GuardResults(guards, all, state, ctx);
      assert names[0] in all;
      if results[names[0]] {
        FirstFailureOf(guards, names[1..], all, state, ctx);
        var r := FirstFailure(names[1..], results);
        if r.Some? {
          var i :| 0 <= i < |names[1..]| && names[1..][i] == r.value && !GuardPasses(guards, r.value, state, ctx)
                   && forall j :: 0 <= j < i ==> GuardPasses(guards, names[1..][j], state, ctx);
          forall j | 0 <= j < i + 1
            ensures GuardPasses(guards, names[j], state, ctx)
          {
            if j > 0 {
              assert names[j] == names[1..][j - 1];
            }
          }
          assert names[i + 1] == r.value;
        }
      }
    }
  }

  /// The guards of a rule reject a transition exactly when one of them is
  /// registered and fails; the one reported is the first such guard.
  lemma GuardOutcome(guards: map<string, Guard>, rule: TransitionRule, state: EntityState, ctx: Json)
    ensures var r := FirstFailure(rule.guards, GuardResults(guards, rule.guards, state, ctx));
            && (r.None? <==> forall n :: n in rule.guards && n in guards ==> guards[n](state, ctx))
            && (r.Some? ==> exists i :: 0 <= i < |rule.guards| && rule.guards[i] == r.value
                                        && r.value in guards && !guards[r.value](state, ctx)
                                        && forall j :: 0 <= j < i ==> GuardPasses(guards, rule.guards[j], state, ctx))
  {
    FirstFailureOf(guards, rule.guards, rule.guards, state, ctx);
  }
}
