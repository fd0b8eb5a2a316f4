/**
 Why a call of the client fails: it times out only after its timer ran out, and it is
 told of a lost connection only if the connection is dead or its own write failed.
 */
module Failures {
  import opened Correlation

  predicate WriteFailed(actions: seq<Action>, w: nat) {
    exists k :: 0 <= k < |actions| && actions[k].Write? && actions[k].w == w && !actions[k].ok
  }

  predicate FailureCaused(s: Link, actions: seq<Action>, w: nat)
    requires w < |s.callers|
  {
    var c := s.callers[w];
    && (c.phase.Expiring? || c.phase == Done(TimedOut) ==> Elapse(w) in actions)
    && (c.phase == Done(Disconnected) ==> s.dead || WriteFailed(actions, w))
    && (Waiting(c) && c.slot.Closed? ==> s.dead)
  }

  predicate AllCaused(s: Link, actions: seq<Action>) {
    forall w :: 0 <= w < |s.callers| ==> FailureCaused(s, actions, w)
  }

  /// Causes do not go away.
  lemma CausesStay(actions: seq<Action>, a: Action, w: nat)
    ensures Elapse(w) in actions ==> Elapse(w) in actions + [a]
    ensures WriteFailed(actions, w) ==> WriteFailed(actions + [a], w)
    ensures a == Elapse(w) ==> Elapse(w) in actions + [a]
    ensures a.Write? && a.w == w && !a.ok ==> WriteFailed(actions + [a], w)
  {
    assert (actions + [a])[|actions|] == a;
    if WriteFailed(actions, w) {
      var k :| 0 <= k < |actions| && actions[k].Write? && actions[k].w == w && !actions[k].ok;
      assert (actions + [a])[k] == actions[k];
    }
  }

  /// As long as ids have not wrapped around, nobody else waits under a new caller's id.
  lemma NothingToDrop(s: Link, w: nat)
    requires Inv(s) && |s.callers| <= U64_RANGE && w < |s.callers| && s.callers[w].phase.Allocated?
    ensures DropPending(s, s.callers[w].id) == s
  {
    assert PendingAt(s, s.callers[w].id);
    if s.callers[w].id in s.pending {
      var v := s.pending[s.callers[w].id];
      assert CallerOk(s, v) && CallerOk(s, w);
      RequestIdsDiffer(v, w);
      assert false;
    }
  }

  lemma RegisterCaused(s: Link, actions: seq<Action>, a: Action, w: nat)
    requires a.Register? && Inv(s) && |s.callers| <= U64_RANGE && a.w < |s.callers| && s.callers[a.w].phase.Allocated?
    requires w < |s.callers| && FailureCaused(s, actions, w)
    ensures w < |DoRegister(s, a.w).callers| && FailureCaused(DoRegister(s, a.w), actions + [a], w)
  {
    CausesStay(actions, a, w);
    assert CallerOk(s, a.w);
    NothingToDrop(s, a.w);
  }

  lemma ExpireCaused(s: Link, actions: seq<Action>, a: Action, w: nat)
    requires a.Expire? && Inv(s) && |s.callers| <= U64_RANGE && a.w < |s.callers| && s.callers[a.w].phase.Expiring?
    requires w < |s.callers| && FailureCaused(s, actions, w) && FailureCaused(s, actions, a.w)
    ensures var s' := SetPhase(DropPending(s, s.callers[a.w].id), a.w, Done(TimedOut));
            w < |s'.callers| && FailureCaused(s', actions + [a], w)
  {
    CausesStay(actions, a, w);
    assert PendingAt(s, s.callers[a.w].id) && CallerOk(s, a.w);
    if s.callers[a.w].id in s.pending {
      var v := s.pending[s.callers[a.w].id];
      assert CallerOk(s, v);
      RequestIdsDiffer(v, a.w);
    }
  }

  lemma CallerCaused(s: Link, actions: seq<Action>, a: Action, w: nat)
    requires a.Register? || a.Write? || a.Wake? || a.Elapse? || a.Expire?
    requires Inv(s) && |s.callers| <= U64_RANGE && a.w < |s.callers| && AllCaused(s, actions) && w < |s.callers|
    ensures w < |CallerStep(s, a).callers| && FailureCaused(CallerStep(s, a), actions + [a], w)
  {
    CausesStay(actions, a, w);
    assert FailureCaused(s, actions, w) && FailureCaused(s, actions, a.w);
    if a.Register? && s.callers[a.w].phase.Allocated? {
      RegisterCaused(s, actions, a, w);
    } else if a.Expire? && s.callers[a.w].phase.Expiring? {
      ExpireCaused(s, actions, a, w);
    }
  }

  lemma OtherCaused(s: Link, actions: seq<Action>, a: Action, w: nat)
    requires !(a.Register? || a.Write? || a.Wake? || a.Elapse? || a.Expire?) && w < |Apply(s, a).callers|
    requires w < |s.callers| ==> FailureCaused(s, actions, w)
    ensures FailureCaused(Apply(s, a), actions + [a], w)
  {
    CausesStay(actions, a, w);
  }

  lemma StepCaused(s: Link, actions: seq<Action>, a: Action)
    requires Inv(s) && |s.callers| <= U64_RANGE && AllCaused(s, actions)
    ensures AllCaused(Apply(s, a), actions + [a])
  {
    forall w | 0 <= w < |Apply(s, a).callers|
      ensures FailureCaused(Apply(s, a), actions + [a], w)
    {
      StepCausedAt(s, actions, a, w);
    }
  }

  lemma StepCausedAt(s: Link, actions: seq<Action>, a: Action, w: nat)
    requires Inv(s) && |s.callers| <= U64_RANGE && AllCaused(s, actions) && w < |Apply(s, a).callers|
    ensures FailureCaused(Apply(s, a), actions + [a], w)
  {
    assert w < |s.callers| ==> FailureCaused(s, actions, w);
    if !(a.Register? || a.Write? || a.Wake? || a.Elapse? || a.Expire?) {
      OtherCaused(s, actions, a, w);
    } else if a.w < |s.callers| {
      SameCallers(s, a);
      CallerCaused(s, actions, a, w);
    } else {
      CausesStay(actions, a, w);
    }
  }

  lemma SameCallers(s: Link, a: Action)
    requires (a.Register? || a.Write? || a.Wake? || a.Elapse? || a.Expire?) && a.w < |s.callers|
    ensures |CallerStep(s, a).callers| == |s.callers|
  {
  }

  lemma CallersGrow(s: Link, a: Action)
    ensures |s.callers| <= |Apply(s, a).callers|
  {
  }

  /// In every run of at most 2^64 requests, each failure has its cause, and a caller that
  /// still waits finds its channel closed only on a dead connection.
  lemma {:induction false} FailuresAreCaused(actions: seq<Action>)
    requires |Run(actions).callers| <= U64_RANGE
    ensures AllCaused(Run(actions), actions)
  {
    if actions != [] {
      var before, a := actions[..|actions| - 1], actions[|actions| - 1];
      CallersGrow(Run(before), a);
      FailuresAreCaused(before);
      RunKeeps(before);
      StepCaused(Run(before), before, a);
      assert before + [a] == actions;
    }
  }
}
