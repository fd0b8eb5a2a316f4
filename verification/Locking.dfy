/**
 What the stripe locks add: a key's entries cannot change while a call on that key
 is under way, so every reply is the specification's reply at one moment during the
 call, and the storage engine's own version conflict never shows, exactly as long as
 pairs that share a projection key also share a stripe.
 */
module Locking {
  import opened Concurrency
  import opened Core
  import opened Database
  import opened Engine
  import opened Interleaving
  import opened Keys
  import opened Log

  predicate SameStripe(cfg: Config, c: Call, d: Call) {
    CallKey(c) == CallKey(d) ==> cfg.stripe(c.entity, c.machine) == cfg.stripe(d.entity, d.machine)
  }

  /// Calls on one projection key always serialise.
  ghost predicate Compatible(cfg: Config, calls: iset<Call>) {
    forall c, d :: c in calls && d in calls ==> SameStripe(cfg, c, d)
  }

  ghost predicate BeginsIn(actions: seq<Action>, calls: iset<Call>) {
    forall i :: 0 <= i < |actions| && actions[i].Begin? ==> actions[i].call in calls
  }

  // ---- The invariant -----------------------------------------------------------------

  /// The lookup that a call has behind it.
  function SeenOf(f: Flight): Option<Seen> {
    if f.phase.Waiting? || f.phase.Locked? then None else Some(f.phase.seen)
  }

  ghost predicate Exclusive(cfg: Config, flights: map<nat, Flight>) {
    forall a, b :: a in flights && b in flights && a != b && Holding(flights[a]) && Holding(flights[b]) ==>
      StripeOf(cfg, flights[a]) != StripeOf(cfg, flights[b])
  }

  /// Since the lookup, nothing was logged under the call's projection key.
  ghost predicate Undisturbed(log: seq<Entry>, f: Flight) {
    SeenOf(f).Some? ==>
      var n := SeenOf(f).value.at;
      n <= |log| && ForKey(log[..n], CallKey(f.call)) == ForKey(log, CallKey(f.call))
  }

  /// The key was used on a different projection key while the call was under way.
  ghost predicate KeyRaced(past: Past, r: Reply) {
    && r.call.key.Some? && r.outcome == Err(KeyAlreadyExists(r.call.key.value))
    && exists i :: r.seen.at <= i < |past.log| && i < r.ended.log
                   && past.log[i].rec.idempotencyKey == r.call.key && KeyOf(past.log[i]) != CallKey(r.call)
  }

  function Keyless(call: Call): Call {
    call.(key := None)
  }

  ghost predicate UsedBefore(past: Past, r: Reply) {
    exists i :: 0 <= i < |past.log| && i < r.ended.log && past.log[i].rec.idempotencyKey == r.call.key
  }

  /// What a call can meet whose key could not be looked up: the rejection it would
  /// meet without a key, or the key in use when it commits.
  ghost predicate BlindlyRejected(past: Past, r: Reply)
    requires InPast(past, r.at)
  {
    && r.seen.blind && r.outcome.Err?
    && (|| VerdictAt(past, Keyless(r.call), r.inp, r.at) == Rejected(r.outcome.error)
        || (r.call.key.Some? && r.outcome.error == KeyAlreadyExists(r.call.key.value) && UsedBefore(past, r)))
  }

  /// The reply is the specification's at `at`; a commit is the log's entry there.
  ghost predicate Specified(past: Past, r: Reply)
    requires InPast(past, r.at)
  {
    var v := VerdictAt(past, r.call, r.inp, r.at);
    r.outcome == Outcome(v) && (v.Committed? ==> r.at.log < |past.log| && past.log[r.at.log] == v.entry)
  }

  /// The exceptions are a key race, a key that could not be looked up, and replies
  /// that report a shutdown or a storage fault.
  ghost predicate Explained(past: Past, r: Reply)
    requires InPast(past, r.at)
  {
    || Specified(past, r)
    || KeyRaced(past, r)
    || BlindlyRejected(past, r)
    || r.outcome == Err(ShuttingDown)
    || r.outcome == Err(StorageFailure)
  }

  predicate IsConflict(r: Reply) {
    r.outcome.Err? && r.outcome.error.StorageVersionConflict?
  }

  ghost predicate ReplyOk(past: Past, r: Reply) {
    && InPast(past, r.at) && InPast(past, r.ended)
    && NotAfter(r.begun, r.at) && NotAfter(r.at, r.ended)
    && Explained(past, r) && !IsConflict(r)
  }

  ghost predicate RepliesOk(s: State) {
    forall i :: 0 <= i < |s.replies| ==> ReplyOk(s.past, s.replies[i])
  }

  ghost predicate FlightsLocked(s: State, calls: iset<Call>) {
    forall id :: id in s.flights ==> s.flights[id].call in calls && Undisturbed(s.past.log, s.flights[id])
  }

  ghost predicate LockInv(cfg: Config, calls: iset<Call>, s: State) {
    if Inv(s) && Exclusive(cfg, s.flights) && FlightsLocked(s, calls) && RepliesOk(s) then true else false
  }

  // ---- Growing pasts -------------------------------------------------------------------

  lemma ReplyStaysOk(a: Past, b: Past, r: Reply)
    requires Grows(a, b) && ReplyOk(a, r)
    ensures ReplyOk(b, r)
  {
    VerdictStays(a, b, r.call, r.inp, r.at);
    VerdictStays(a, b, Keyless(r.call), r.inp, r.at);
    assert forall i :: 0 <= i < |a.log| ==> b.log[i] == a.log[i];
  }

  lemma RepliesStayOk(s: State, past: Past)
    requires RepliesOk(s) && Grows(s.past, past)
    ensures forall i :: 0 <= i < |s.replies| ==> ReplyOk(past, s.replies[i])
  {
    forall i | 0 <= i < |s.replies|
      ensures ReplyOk(past, s.replies[i])
    {
      ReplyStaysOk(s.past, past, s.replies[i]);
    }
  }

  // ---- Generic steps ----------------------------------------------------------------------

  /// What a step of one flight has to show besides `Inv`.
  lemma AdvanceFlights(cfg: Config, calls: iset<Call>, s: State, id: nat, f: Flight, phase: Phase)
    requires LockInv(cfg, calls, s) && id in s.flights && s.flights[id] == f && Holding(f)
    requires !phase.Waiting? && Undisturbed(s.past.log, f.(phase := phase)) && Inv(Advance(s, id, f, phase))
    ensures LockInv(cfg, calls, Advance(s, id, f, phase))
  {
  }

  lemma AdvanceLocked(cfg: Config, calls: iset<Call>, s: State, id: nat, f: Flight, phase: Phase)
    requires LockInv(cfg, calls, s) && id in s.flights && s.flights[id] == f && Holding(f)
    requires !phase.Waiting? && FlightOk(s.past, f.(phase := phase)) && Undisturbed(s.past.log, f.(phase := phase))
    ensures LockInv(cfg, calls, Advance(s, id, f, phase))
  {
    AdvanceKeeps(s, id, f, phase);
    AdvanceFlights(cfg, calls, s, id, f, phase);
  }

  lemma ReturnLocked(cfg: Config, calls: iset<Call>, s: State, id: nat, f: Flight, at: Moment, seen: Seen,
                     outcome: Result<TransitionResult, EngineError>)
    requires LockInv(cfg, calls, s)
    requires ReplyOk(s.past, Reply(f.call, f.inp, f.begun, at, Now(s.past), seen, outcome))
    ensures LockInv(cfg, calls, Return(s, id, f, at, seen, outcome))
  {
    ReturnKeeps(s, id, f, at, seen, outcome);
  }

  /// Replies that need no explanation.
  lemma FaultReplyOk(s: State, f: Flight, at: Moment, seen: Seen, e: EngineError)
    requires Inv(s) && InPast(s.past, at) && NotAfter(f.begun, at) && (e.ShuttingDown? || e.StorageFailure?)
    ensures ReplyOk(s.past, Reply(f.call, f.inp, f.begun, at, Now(s.past), seen, Err(e)))
  {
  }

  lemma ExceptionOk(past: Past, r: Reply)
    requires InPast(past, r.at) && InPast(past, r.ended) && NotAfter(r.begun, r.at) && NotAfter(r.at, r.ended)
    requires BlindlyRejected(past, r) || KeyRaced(past, r)
    requires !IsConflict(r)
    ensures ReplyOk(past, r)
  {
  }

  lemma VerdictReplyOk(past: Past, r: Reply, e: Entry)
    requires InPast(past, r.at) && InPast(past, r.ended) && NotAfter(r.begun, r.at) && NotAfter(r.at, r.ended)
    requires VerdictAt(past, r.call, r.inp, r.at) == Committed(e) && r.outcome == Ok(ResultOf(e.rec))
    requires r.at.log < |past.log| && past.log[r.at.log] == e
    ensures ReplyOk(past, r)
  {
  }

  /// A rejection the specification makes at `at` as well, or makes there of the
  /// call without its key if that could not be looked up.
  lemma RejectionOk(s: State, f: Flight, at: Moment, seen: Seen, e: EngineError)
    requires Inv(s) && InPast(s.past, at) && NotAfter(f.begun, at) && !e.StorageVersionConflict?
    requires VerdictAt(s.past, if seen.blind then Keyless(f.call) else f.call, f.inp, at) == Rejected(e)
    ensures ReplyOk(s.past, Reply(f.call, f.inp, f.begun, at, Now(s.past), seen, Err(e)))
  {
  }

  // ---- The steps of a call -------------------------------------------------------------------

  lemma LookupLocked(cfg: Config, calls: iset<Call>, s: State, id: nat, ok: bool)
    requires LockInv(cfg, calls, s) && id in s.flights && s.flights[id].phase.Locked?
    ensures LockInv(cfg, calls, DoLookup(s, id, s.flights[id], ok))
  {
    var f, n := s.flights[id], |s.past.log|;
    assert FlightOk(s.past, f);
    assert s.past.log[..n] == s.past.log;
    if f.call.key.Some? {
      IdempotencyLookup(s.tables, s.past.log, f.call.key.value);
    }
    if f.call.key.None? || (ok && FindKey(s.past.log, f.call.key.value).None?) {
      AdvanceLocked(cfg, calls, s, id, f, Looked(Seen(n, false)));
    } else if !ok {
      AdvanceLocked(cfg, calls, s, id, f, Looked(Seen(n, true)));
    } else {
      ReplayOk(s, f, FindKey(s.past.log, f.call.key.value).value);
      ReturnLocked(cfg, calls, s, id, f, Now(s.past), Seen(n, false), Ok(ResultOf(FindKey(s.past.log, f.call.key.value).value)));
    }
  }

  lemma ReplayOk(s: State, f: Flight, rec: TransitionRecord)
    requires Inv(s) && FlightOk(s.past, f) && f.call.key.Some? && FindKey(s.past.log, f.call.key.value) == Some(rec)
    ensures ReplyOk(s.past, Reply(f.call, f.inp, f.begun, Now(s.past), Now(s.past), Seen(|s.past.log|, false), Ok(ResultOf(rec))))
  {
    assert s.past.log[..|s.past.log|] == s.past.log;
    assert VerdictAt(s.past, f.call, f.inp, Now(s.past)) == Replayed(rec);
  }

  lemma ReadMachineLocked(cfg: Config, calls: iset<Call>, s: State, id: nat, ok: bool)
    requires LockInv(cfg, calls, s) && id in s.flights && s.flights[id].phase.Looked?
    ensures LockInv(cfg, calls, DoReadMachine(s, id, s.flights[id], s.flights[id].phase.seen, ok))
  {
    var f := s.flights[id];
    assert FlightOk(s.past, f) && Undisturbed(s.past.log, f);
    var seen := f.phase.seen;
    var at := Now(s.past).(log := seen.at);
    var def := GetMachine(s.tables, f.call.machine);
    if !ok {
      FaultReplyOk(s, f, at, seen, StorageFailure);
      ReturnLocked(cfg, calls, s, id, f, at, seen, Err(StorageFailure));
    } else if def.None? {
      RejectionOk(s, f, at, seen, UnknownMachine);
      ReturnLocked(cfg, calls, s, id, f, at, seen, Err(UnknownMachine));
    } else {
      AdvanceLocked(cfg, calls, s, id, f, Defined(seen, at.machines, def.value));
    }
  }

  lemma ReadStateLocked(cfg: Config, calls: iset<Call>, s: State, id: nat, ok: bool)
    requires LockInv(cfg, calls, s) && id in s.flights && s.flights[id].phase.Defined?
    ensures var f := s.flights[id];
            LockInv(cfg, calls, DoReadState(s, id, f, f.phase.seen, f.phase.v, f.phase.def, ok))
  {
    var f, n := s.flights[id], |s.past.log|;
    assert FlightOk(s.past, f) && Undisturbed(s.past.log, f);
    assert s.past.log[..n] == s.past.log;
    ProjectionLookup(s.tables, s.past.log, f.call.entity, f.call.machine);
    var Defined(seen, v, def) := f.phase;
    if ok {
      AdvanceLocked(cfg, calls, s, id, f, Read(seen, v, def, n, GetEntityState(s.tables, f.call.entity, f.call.machine)));
    } else {
      var at := Now(s.past).(log := seen.at);
      FaultReplyOk(s, f, at, seen, StorageFailure);
      ReturnLocked(cfg, calls, s, id, f, at, seen, Err(StorageFailure));
    }
  }

  /// Under the lock the row read is the row at the time of the lookup.
  lemma RowAtLookup(past: Past, f: Flight, seen: Seen, rowAt: nat, row: Option<EntityState>)
    requires RowOk(past, f, seen, rowAt, row) && SeenOf(f) == Some(seen) && Undisturbed(past.log, f)
    ensures RowIn(past.log[..seen.at], CallKey(f.call)) == row
    ensures RowIn(past.log, CallKey(f.call)) == row
  {
    var key := CallKey(f.call);
    ForKeyPrefix(past.log, rowAt, key);
    ForKeyPrefix(past.log[..rowAt], seen.at, key);
    assert past.log[..rowAt][..seen.at] == past.log[..seen.at];
  }

  lemma PlanRejected(past: Past, f: Flight, g: nat, e: EngineError)
    requires FlightOk(past, f) && Undisturbed(past.log, f) && f.phase.Read? && g < |past.guards|
    requires Prepare(f.call, f.phase.def, f.phase.row, past.guards[g], f.inp) == Err(e)
    ensures !e.StorageVersionConflict?
    ensures VerdictAt(past, if f.phase.seen.blind then Keyless(f.call) else f.call, f.inp, Moment(f.phase.seen.at, f.phase.v, g)) == Rejected(e)
  {
    var Read(seen, v, def, rowAt, row) := f.phase;
    RowAtLookup(past, f, seen, rowAt, row);
    PrepareFailsWhen(f.call, def, row, past.guards[g], f.inp);
    KeylessPrepare(f.call, def, row, past.guards[g], f.inp);
  }

  /// The key plays no part in planning.
  lemma KeylessPrepare(call: Call, def: MachineDefinition, row: Option<EntityState>, guards: map<string, Guard>, inp: Inputs)
    ensures var r, q := Prepare(call, def, row, guards, inp), Prepare(Keyless(call), def, row, guards, inp);
            (r.Err? <==> q.Err?) && (r.Err? ==> r.error == q.error)
  {
  }

  lemma PlanLocked(cfg: Config, calls: iset<Call>, s: State, id: nat)
    requires LockInv(cfg, calls, s) && id in s.flights && s.flights[id].phase.Read?
    ensures var f := s.flights[id];
            LockInv(cfg, calls, DoPlan(s, id, f, f.phase.seen, f.phase.v, f.phase.def, f.phase.rowAt, f.phase.row))
  {
    var f := s.flights[id];
    assert FlightOk(s.past, f) && Undisturbed(s.past.log, f);
    match Prepare(f.call, f.phase.def, f.phase.row, CurrentGuards(s.past), f.inp)
    case Err(e) => PlanFailsLocked(cfg, calls, s, id, e);
    case Ok(p) =>
      var phase := Planned(f.phase.seen, f.phase.v, f.phase.def, f.phase.rowAt, f.phase.row, Now(s.past).guards, p);
      GuardsNow(s.past, f.begun);
      assert Prepare(f.call, f.phase.def, f.phase.row, s.past.guards[Now(s.past).guards], f.inp) == Ok(p);
      PlannedOk(s.past, f, Now(s.past).guards, p);
      AdvanceKeeps(s, id, f, phase);
      AdvanceFlights(cfg, calls, s, id, f, phase);
  }

  lemma PlannedOk(past: Past, f: Flight, g: nat, p: Prepared)
    requires FlightOk(past, f) && Undisturbed(past.log, f) && f.phase.Read?
    requires f.begun.guards <= g < |past.guards| && Prepare(f.call, f.phase.def, f.phase.row, past.guards[g], f.inp) == Ok(p)
    ensures var f' := f.(phase := Planned(f.phase.seen, f.phase.v, f.phase.def, f.phase.rowAt, f.phase.row, g, p));
            FlightOk(past, f') && Undisturbed(past.log, f')
  {
  }

  lemma PlanFailsLocked(cfg: Config, calls: iset<Call>, s: State, id: nat, e: EngineError)
    requires LockInv(cfg, calls, s) && id in s.flights && s.flights[id].phase.Read?
    requires var f := s.flights[id];
             Prepare(f.call, f.phase.def, f.phase.row, CurrentGuards(s.past), f.inp) == Err(e)
    ensures var f := s.flights[id];
            LockInv(cfg, calls, Return(s, id, f, Moment(f.phase.seen.at, f.phase.v, Now(s.past).guards), f.phase.seen, Err(e)))
  {
    var f := s.flights[id];
    assert FlightOk(s.past, f) && Undisturbed(s.past.log, f);
    var at := Moment(f.phase.seen.at, f.phase.v, Now(s.past).guards);
    PlanRejectionOk(s, f, e);
    ReturnLocked(cfg, calls, s, id, f, at, f.phase.seen, Err(e));
  }

  lemma PlanRejectionOk(s: State, f: Flight, e: EngineError)
    requires Inv(s) && FlightOk(s.past, f) && Undisturbed(s.past.log, f) && f.phase.Read?
    requires Prepare(f.call, f.phase.def, f.phase.row, CurrentGuards(s.past), f.inp) == Err(e)
    ensures var at := Moment(f.phase.seen.at, f.phase.v, Now(s.past).guards);
            ReplyOk(s.past, Reply(f.call, f.inp, f.begun, at, Now(s.past), f.phase.seen, Err(e)))
  {
    var at := Moment(f.phase.seen.at, f.phase.v, Now(s.past).guards);
    PlanMoment(s, f);
    PlanRejected(s.past, f, at.guards, e);
    RejectionOk(s, f, at, f.phase.seen, e);
  }

  lemma PlanMoment(s: State, f: Flight)
    requires Inv(s) && FlightOk(s.past, f) && f.phase.Read?
    ensures var at := Moment(f.phase.seen.at, f.phase.v, Now(s.past).guards);
            && InPast(s.past, at) && NotAfter(f.begun, at) && at.guards < |s.past.guards|
            && s.past.guards[at.guards] == CurrentGuards(s.past)
  {
  }

  /// Under the lock the storage engine finds the version it expects; the only
  /// conflict left is a key that another call used meanwhile.
  lemma CommitUnderLock(s: State, f: Flight)
    requires Inv(s) && FlightOk(s.past, f) && f.phase.Planned? && Undisturbed(s.past.log, f)
    ensures var r := Commit(s.tables, f.phase.prepared);
            r.Err? ==> f.call.key.Some? && r.error == KeyAlreadyExists(f.call.key.value)
                       && FindKey(s.past.log, f.call.key.value).Some?
  {
    var Planned(seen, v, def, rowAt, row, g, p) := f.phase;
    RowAtLookup(s.past, f, seen, rowAt, row);
    PreparedShape(f.call, def, row, s.past.guards[g], f.inp);
    ProjectionLookup(s.tables, s.past.log, f.call.entity, f.call.machine);
    assert StaleVersion(s.tables, p.state).None?;
    if f.call.key.Some? {
      IdempotencyLookup(s.tables, s.past.log, f.call.key.value);
    }
  }

  lemma {:induction false} NoneOfKey(log: seq<Entry>, n: nat, i: nat, key: string)
    requires n <= i < |log| && ForKey(log[..n], key) == ForKey(log, key)
    ensures KeyOf(log[i]) != key
  {
    ForKeyPrefix(log, i + 1, key);
    ForKeyPrefix(log[..i + 1], i, key);
    ForKeyPrefix(log[..i], n, key);
    assert log[..i + 1][..i] == log[..i] && log[..i][..n] == log[..n];
    assert log[..i + 1][|log[..i + 1]| - 1] == log[i];
  }

  lemma RaceOk(s: State, f: Flight, at: Moment)
    requires Inv(s) && FlightOk(s.past, f) && f.phase.Planned? && Undisturbed(s.past.log, f)
    requires InPast(s.past, at) && NotAfter(f.begun, at) && NotAfter(at, Now(s.past))
    requires f.call.key.Some? && FindKey(s.past.log, f.call.key.value).Some?
    ensures ReplyOk(s.past, Reply(f.call, f.inp, f.begun, at, Now(s.past), f.phase.seen, Err(KeyAlreadyExists(f.call.key.value))))
  {
    var r := Reply(f.call, f.inp, f.begun, at, Now(s.past), f.phase.seen, Err(KeyAlreadyExists(f.call.key.value)));
    if f.phase.seen.blind {
      FindKeyFinds(s.past.log, f.call.key.value);
      assert UsedBefore(s.past, r);
      assert BlindlyRejected(s.past, r);
    } else {
      RaceFound(s.past.log, f.phase.seen.at, f.call);
      assert KeyRaced(s.past, r);
    }
    ExceptionOk(s.past, r);
  }

  lemma RaceFound(log: seq<Entry>, n: nat, call: Call)
    requires n <= |log| && ForKey(log[..n], CallKey(call)) == ForKey(log, CallKey(call))
    requires call.key.Some? && FindKey(log[..n], call.key.value).None? && FindKey(log, call.key.value).Some?
    ensures exists i :: n <= i < |log| && log[i].rec.idempotencyKey == call.key && KeyOf(log[i]) != CallKey(call)
  {
    FindKeyFinds(log, call.key.value);
    FindKeyFinds(log[..n], call.key.value);
    var i :| 0 <= i < |log| && log[i].rec.idempotencyKey == call.key;
    assert forall j :: 0 <= j < n ==> log[..n][j] == log[j];
    NoneOfKey(log, n, i, CallKey(call));
  }

  /// Everyone else's key is another one, so nobody else is disturbed.
  lemma OthersUndisturbed(cfg: Config, calls: iset<Call>, s: State, id: nat, other: nat, e: Entry)
    requires LockInv(cfg, calls, s) && Compatible(cfg, calls)
    requires id in s.flights && other in s.flights && id != other
    requires Holding(s.flights[id]) && KeyOf(e) == CallKey(s.flights[id].call)
    ensures Undisturbed(s.past.log + [e], s.flights[other])
  {
    var f := s.flights[other];
    assert Undisturbed(s.past.log, f);
    if SeenOf(f).Some? {
      var n := SeenOf(f).value.at;
      assert StripeOf(cfg, f) != StripeOf(cfg, s.flights[id]);
      assert SameStripe(cfg, f.call, s.flights[id].call);
      ForKeyAppend(s.past.log, e, CallKey(f.call));
      assert (s.past.log + [e])[..n] == s.past.log[..n];
    }
  }

  /// The state after the commit, the call not having returned yet.
  function Between(s: State, f: Flight): State
    requires f.phase.Planned?
  {
    Committing(s, f, f.phase.v, f.phase.g, f.phase.prepared)
  }

  function NewEntry(s: State, f: Flight): Entry
    requires f.phase.Planned?
  {
    EntryOf(s.past.log, f.phase.prepared, f.inp)
  }

  function NewReply(s: State, f: Flight): Reply
    requires f.phase.Planned?
  {
    Reply(f.call, f.inp, f.begun, Moment(|s.past.log|, f.phase.v, f.phase.g), Now(Between(s, f).past), f.phase.seen,
          Ok(ResultOf(NewEntry(s, f).rec)))
  }

  function AfterCommit(s: State, id: nat, f: Flight): State
    requires f.phase.Planned?
  {
    Return(Between(s, f), id, f, NewReply(s, f).at, f.phase.seen, NewReply(s, f).outcome)
  }

  lemma CommitInv(s: State, id: nat, f: Flight)
    requires Inv(s) && FlightOk(s.past, f) && f.phase.Planned? && CanCommit(s, f) && Commit(s.tables, f.phase.prepared).Ok?
    ensures Inv(AfterCommit(s, id, f))
    ensures DoCommit(s, id, f, f.phase.seen, f.phase.v, f.phase.g, f.phase.prepared, true) == AfterCommit(s, id, f)
  {
    PlanStillValid(s, f);
    CommittingKeeps(s, f);
    ReturnKeeps(Between(s, f), id, f, NewReply(s, f).at, f.phase.seen, NewReply(s, f).outcome);
  }

  lemma CommittedReplyOk(s: State, f: Flight)
    requires FlightOk(s.past, f) && f.phase.Planned?
    requires Atomic(s.past.log, s.past.machines[f.phase.v], s.past.guards[f.phase.g], f.call, f.inp) == Committed(NewEntry(s, f))
    ensures ReplyOk(Between(s, f).past, NewReply(s, f))
  {
    assert Between(s, f).past.log[..|s.past.log|] == s.past.log;
    VerdictReplyOk(Between(s, f).past, NewReply(s, f), NewEntry(s, f));
  }

  lemma CommittedReplies(s: State, id: nat, f: Flight)
    requires f.phase.Planned? && RepliesOk(s) && ReplyOk(Between(s, f).past, NewReply(s, f))
    ensures RepliesOk(AfterCommit(s, id, f))
  {
    RepliesStayOk(s, Between(s, f).past);
  }

  lemma CommittedKey(s: State, f: Flight)
    requires FlightOk(s.past, f) && f.phase.Planned?
    ensures KeyOf(NewEntry(s, f)) == CallKey(f.call)
  {
    PreparedRecord(f.call, f.phase.def, f.phase.row, s.past.guards[f.phase.g], f.inp);
  }

  lemma CommittedFlights(cfg: Config, calls: iset<Call>, s: State, id: nat, e: Entry)
    requires LockInv(cfg, calls, s) && Compatible(cfg, calls)
    requires id in s.flights && Holding(s.flights[id]) && KeyOf(e) == CallKey(s.flights[id].call)
    ensures Exclusive(cfg, s.flights - {id})
    ensures forall other :: other in s.flights - {id} ==>
              s.flights[other].call in calls && Undisturbed(s.past.log + [e], s.flights[other])
  {
    forall other | other in s.flights - {id}
      ensures s.flights[other].call in calls && Undisturbed(s.past.log + [e], s.flights[other])
    {
      OthersUndisturbed(cfg, calls, s, id, other, e);
    }
  }

  lemma AllLocked(cfg: Config, calls: iset<Call>, s: State)
    requires Inv(s) && Exclusive(cfg, s.flights) && FlightsLocked(s, calls) && RepliesOk(s)
    ensures LockInv(cfg, calls, s)
  {
  }

  lemma CommitLocked(cfg: Config, calls: iset<Call>, s: State, id: nat, ok: bool)
    requires LockInv(cfg, calls, s) && Compatible(cfg, calls)
    requires id in s.flights && s.flights[id].phase.Planned? && CanCommit(s, s.flights[id])
    ensures LockInv(cfg, calls, DoCommit(s, id, s.flights[id], s.flights[id].phase.seen, s.flights[id].phase.v,
                                         s.flights[id].phase.g, s.flights[id].phase.prepared, ok))
  {
    var f := s.flights[id];
    assert FlightOk(s.past, f) && Undisturbed(s.past.log, f);
    var Planned(seen, v, def, rowAt, row, g, p) := f.phase;
    var at := Moment(|s.past.log|, v, g);
    if !ok {
      FaultReplyOk(s, f, at, seen, StorageFailure);
      ReturnLocked(cfg, calls, s, id, f, at, seen, Err(StorageFailure));
    } else if Commit(s.tables, p).Ok? {
      CommitInv(s, id, f);
      PlanVerdict(s, f);
      CommittedReplyOk(s, f);
      CommittedReplies(s, id, f);
      CommittedKey(s, f);
      CommittedFlights(cfg, calls, s, id, NewEntry(s, f));
      AllLocked(cfg, calls, AfterCommit(s, id, f));
    } else {
      CommitUnderLock(s, f);
      RaceOk(s, f, at);
      ReturnLocked(cfg, calls, s, id, f, at, seen, Err(KeyAlreadyExists(f.call.key.value)));
    }
  }

  lemma AcquireLocked(cfg: Config, calls: iset<Call>, s: State, id: nat)
    requires LockInv(cfg, calls, s) && cfg.locking && id in s.flights && s.flights[id].phase.Waiting?
    ensures LockInv(cfg, calls, CallStep(cfg, s, Acquire(id), s.flights[id]))
  {
    assert FlightOk(s.past, s.flights[id]);
    AdvanceKeeps(s, id, s.flights[id], Locked);
  }

  lemma CallStepLocked(cfg: Config, calls: iset<Call>, s: State, a: Action)
    requires a.Acquire? || a.Lookup? || a.ReadMachine? || a.ReadState? || a.PlanCall? || a.CommitCall?
    requires LockInv(cfg, calls, s) && Compatible(cfg, calls) && cfg.locking && a.id in s.flights
    ensures LockInv(cfg, calls, CallStep(cfg, s, a, s.flights[a.id]))
  {
    match (a, s.flights[a.id].phase)
    case (Acquire(id), Waiting) => AcquireLocked(cfg, calls, s, id);
    case (Lookup(id, ok), Locked) => LookupLocked(cfg, calls, s, id, ok);
    case (ReadMachine(id, ok), Looked(_)) => ReadMachineLocked(cfg, calls, s, id, ok);
    case (ReadState(id, ok), Defined(_, _, _)) => ReadStateLocked(cfg, calls, s, id, ok);
    case (PlanCall(id), Read(_, _, _, _, _)) => PlanLocked(cfg, calls, s, id);
    case (CommitCall(id, ok), Planned(_, _, _, _, _, _, _)) =>
      if CanCommit(s, s.flights[id]) {
        CommitLocked(cfg, calls, s, id, ok);
      }
    case _ =>
  }

  lemma BeginLocked(cfg: Config, calls: iset<Call>, s: State, id: nat, call: Call, inp: Inputs)
    requires LockInv(cfg, calls, s) && id !in s.flights && call in calls
    ensures LockInv(cfg, calls, DoBegin(s, id, call, inp))
  {
    var f := Flight(call, inp, Now(s.past), Waiting);
    if s.shuttingDown {
      FaultReplyOk(s, f, Now(s.past), Seen(Now(s.past).log, false), ShuttingDown);
      ReturnLocked(cfg, calls, s, id, f, Now(s.past), Seen(Now(s.past).log, false), Err(ShuttingDown));
    } else {
      AdvanceKeeps(s, id, f, Waiting);
      EnterLocked(cfg, calls, s, id, f);
    }
  }

  lemma EnterLocked(cfg: Config, calls: iset<Call>, s: State, id: nat, f: Flight)
    requires LockInv(cfg, calls, s) && id !in s.flights && f.call in calls && f.phase.Waiting?
    requires Inv(s.(flights := s.flights[id := f]))
    ensures LockInv(cfg, calls, s.(flights := s.flights[id := f]))
  {
  }

  /// Steps that only add to the histories or change statuses.
  lemma AsideLocked(cfg: Config, calls: iset<Call>, s: State, a: Action)
    requires LockInv(cfg, calls, s) && (a.Define? || a.Register? || a.Mark? || a.Shutdown?)
    ensures LockInv(cfg, calls, Apply(cfg, s, a))
  {
    StepKeeps(cfg, s, a);
    AsideGrows(cfg, s, a);
    AsideKeeps(cfg, calls, s, Apply(cfg, s, a));
  }

  lemma AsideGrows(cfg: Config, s: State, a: Action)
    requires a.Define? || a.Register? || a.Mark? || a.Shutdown?
    ensures var s' := Apply(cfg, s, a);
            Grows(s.past, s'.past) && s'.past.log == s.past.log && s'.flights == s.flights && s'.replies == s.replies
  {
  }

  lemma AsideKeeps(cfg: Config, calls: iset<Call>, s: State, s': State)
    requires LockInv(cfg, calls, s) && Inv(s')
    requires Grows(s.past, s'.past) && s'.past.log == s.past.log && s'.flights == s.flights && s'.replies == s.replies
    ensures LockInv(cfg, calls, s')
  {
    RepliesStayOk(s, s'.past);
  }

  lemma {:induction false} RunLocked(cfg: Config, calls: iset<Call>, actions: seq<Action>)
    requires cfg.locking && Compatible(cfg, calls) && BeginsIn(actions, calls)
    ensures LockInv(cfg, calls, Run(cfg, actions))
  {
    if actions == [] {
      EmptyRepresentsEmpty();
    } else {
      var front, a := actions[..|actions| - 1], actions[|actions| - 1];
      RunLocked(cfg, calls, front);
      var s := Run(cfg, front);
      if a.Begin? {
        if a.id !in s.flights {
          BeginLocked(cfg, calls, s, a.id, a.call, a.inp);
        }
      } else if a.Define? || a.Register? || a.Mark? || a.Shutdown? {
        AsideLocked(cfg, calls, s, a);
      } else if a.id in s.flights {
        CallStepLocked(cfg, calls, s, a);
      }
    }
  }

  // ---- Which calls qualify --------------------------------------------------------------------

  /// Ids without the separator always qualify.
  lemma NulFreeCallsCompatible(cfg: Config)
    ensures Compatible(cfg, iset c: Call | NulFree(c.entity) && NulFree(c.machine))
  {
    forall c: Call, d: Call | NulFree(c.entity) && NulFree(c.machine)
      ensures SameStripe(cfg, c, d)
    {
      if CallKey(c) == CallKey(d) {
        OnlyOneNul(c.entity, c.machine, d.entity, d.machine);
      }
    }
  }
}
