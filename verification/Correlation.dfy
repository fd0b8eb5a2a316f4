/**
 One client connection and the server loop at its other end, as a step system.
 Callers allocate a request id, register a one-shot channel under it, write the
 command and wait. The server takes commands one at a time. The reader task routes
 replies by request id. Any step of any party may come next.
 */
module Correlation {
  import opened Core
  import opened Framing

  const U64_RANGE: nat := 0x1_0000_0000_0000_0000

  /// A command as the server sees it. `caller` is the call that wrote it, if one
  /// waits for the reply; it is not on the wire.
  datatype Command = Command(tag: FrameTag, id: nat, caller: Option<nat>)

  /// A frame from the server. `command` is the position of the command it answers;
  /// it is not on the wire.
  datatype ServerFrame = ServerFrame(tag: FrameTag, id: Option<nat>, payload: Json, command: Option<nat>)

  /// How the server fared with a command: whether its body decoded, whether the
  /// engine accepted it, whether the reply could be encoded, and the reply.
  datatype Answer = Answer(decodes: bool, accepted: bool, encodes: bool, payload: Json)

  datatype Outcome = Received(frame: ServerFrame) | Disconnected | TimedOut

  datatype Phase = Allocated | Registered | Sent | Expiring | Done(outcome: Outcome)

  /// The receiving end of a one-shot channel.
  datatype Slot = Empty | Full(frame: ServerFrame) | Closed

  datatype Caller = Caller(id: nat, phase: Phase, slot: Slot)

  datatype Link = Link(
    callers: seq<Caller>, pending: map<nat, nat>, dead: bool,
    commands: seq<Command>, answers: seq<Answer>, serving: bool,
    wire: seq<ServerFrame>, read: nat)

  const Init := Link([], map[], false, [], [], true, [], 0)

  datatype Action =
    | Allocate
    | Register(w: nat)
    | Write(w: nat, tag: FrameTag, ok: bool, arrives: bool)
    | SendPlain(tag: FrameTag)
    | Serve(answer: Answer, ok: bool, arrives: bool)
    | Forward(payload: Json)
    | HangUp
    | ReadNext
    | StopReading
    | Wake(w: nat)
    | Elapse(w: nat)
    | Expire(w: nat)

  // ---- Server ------------------------------------------------------------------------

  predicate CarriesId(tag: FrameTag) {
    tag in {FrameTag.DefineMachine, FrameTag.Transition, FrameTag.Current, FrameTag.History, FrameTag.Subscribe}
  }

  function ErrorFrame(k: nat, a: Answer): ServerFrame {
    ServerFrame(FrameTag.Error, None, a.payload, Some(k))
  }

  /// The frames sent back for the command at position `k`.
  function Handle(c: Command, k: nat, a: Answer): seq<ServerFrame> {
    match c.tag
    case Ping => [ServerFrame(FrameTag.Pong, None, a.payload, Some(k))]
    case Transition =>
      if !a.decodes || !a.encodes then [ErrorFrame(k, a)]
      else [ServerFrame(if a.accepted then FrameTag.Result else FrameTag.Rejection, Some(c.id), a.payload, Some(k))]
    case DefineMachine | Current | History | Subscribe =>
      if !a.decodes || !a.accepted || !a.encodes then [ErrorFrame(k, a)]
      else [ServerFrame(FrameTag.Result, Some(c.id), a.payload, Some(k))]
    case Ack | Unsubscribe => if a.decodes then [] else [ErrorFrame(k, a)]
    case _ => [ErrorFrame(k, a)]
  }

  /// One turn of the loop. A failed write ends it, whether or not the frames got out.
  function DoServe(s: Link, a: Answer, ok: bool, arrives: bool): Link {
    var k := |s.answers|;
    if !s.serving || k >= |s.commands| then s
    else if s.commands[k].tag.Terminate? then s.(serving := false)
    else
      var t := s.(answers := s.answers + [a], serving := ok);
      if ok || arrives then t.(wire := s.wire + Handle(s.commands[k], k, a)) else t
  }

  // ---- Client ------------------------------------------------------------------------

  function RequestId(w: nat): nat {
    (1 + w) % U64_RANGE
  }

  function SetSlot(callers: seq<Caller>, w: nat, slot: Slot): seq<Caller>
    requires w < |callers|
  {
    callers[w := callers[w].(slot := slot)]
  }

  function SetPhase(s: Link, w: nat, phase: Phase): Link
    requires w < |s.callers|
  {
    s.(callers := s.callers[w := s.callers[w].(phase := phase)])
  }

  /// Dropping the channel registered under an id closes it for its caller.
  function DropPending(s: Link, id: nat): Link {
    if id in s.pending && s.pending[id] < |s.callers| then
      s.(callers := SetSlot(s.callers, s.pending[id], Closed), pending := s.pending - {id})
    else s
  }

  function DoRegister(s: Link, w: nat): Link
    requires w < |s.callers|
  {
    if s.dead then SetPhase(s, w, Done(Disconnected))
    else
      var t := SetPhase(DropPending(s, s.callers[w].id), w, Registered);
      t.(pending := t.pending[s.callers[w].id := w])
  }

  /// A failed write returns without taking the channel back.
  function DoWrite(s: Link, w: nat, tag: FrameTag, ok: bool, arrives: bool): Link
    requires w < |s.callers|
  {
    var t := SetPhase(s, w, if ok then Sent else Done(Disconnected));
    if ok || arrives then t.(commands := s.commands + [Command(tag, s.callers[w].id, Some(w))]) else t
  }

  /// The reader routes one frame. Error frames carry no id and go nowhere.
  function DoRead(s: Link): Link
    requires s.read < |s.wire|
  {
    var f := s.wire[s.read];
    var t := s.(read := s.read + 1);
    if f.tag in {FrameTag.Result, FrameTag.Rejection, FrameTag.Error} && f.id.Some? && f.id.value in s.pending
       && s.pending[f.id.value] < |s.callers| then
      t.(callers := SetSlot(s.callers, s.pending[f.id.value], Full(f)), pending := s.pending - {f.id.value})
    else t
  }

  function ClosePending(callers: seq<Caller>, pending: map<nat, nat>): seq<Caller> {
    seq(|callers|, w requires 0 <= w < |callers| =>
      if callers[w].id in pending && pending[callers[w].id] == w then callers[w].(slot := Closed) else callers[w])
  }

  function CallerStep(s: Link, a: Action): Link
    requires a.Register? || a.Write? || a.Wake? || a.Elapse? || a.Expire?
    requires a.w < |s.callers|
  {
    var c := s.callers[a.w];
    match (a, c.phase)
    case (Register(w), Allocated) => DoRegister(s, w)
    case (Write(w, tag, ok, arrives), Registered) => if CarriesId(tag) then DoWrite(s, w, tag, ok, arrives) else s
    case (Wake(w), Sent) =>
      (match c.slot
       case Empty => s
       case Full(f) => SetPhase(s, w, Done(Received(f)))
       case Closed => SetPhase(s, w, Done(Disconnected)))
    case (Elapse(w), Sent) => if c.slot.Empty? then SetPhase(s, w, Expiring) else s
    case (Expire(w), Expiring) => SetPhase(DropPending(s, c.id), w, Done(TimedOut))
    case _ => s
  }

  function Apply(s: Link, a: Action): Link {
    match a
    case Allocate => s.(callers := s.callers + [Caller(RequestId(|s.callers|), Allocated, Empty)])
    case SendPlain(tag) => if CarriesId(tag) then s else s.(commands := s.commands + [Command(tag, 0, None)])
    case Serve(answer, ok, arrives) => DoServe(s, answer, ok, arrives)
    case Forward(payload) => s.(wire := s.wire + [ServerFrame(FrameTag.ChangeRecord, None, payload, None)])
    case HangUp => s.(serving := false)
    case ReadNext => if !s.dead && s.read < |s.wire| then DoRead(s) else s
    case StopReading => s.(dead := true, callers := ClosePending(s.callers, s.pending), pending := map[])
    case _ => if a.w < |s.callers| then CallerStep(s, a) else s
  }

  function Run(actions: seq<Action>): Link {
    if actions == [] then Init else Apply(Run(actions[..|actions| - 1]), actions[|actions| - 1])
  }

  // ---- What every run keeps --------------------------------------------------------------

  predicate Waiting(c: Caller) {
    c.phase.Registered? || c.phase.Sent? || c.phase.Expiring?
  }

  /// A registered channel is empty, and belongs to the caller with that id.
  predicate PendingAt(s: Link, id: nat) {
    id in s.pending ==>
      && s.pending[id] < |s.callers| && s.callers[s.pending[id]].id == id
      && s.callers[s.pending[id]].slot.Empty? && !s.callers[s.pending[id]].phase.Allocated?
  }

  /// A frame that went to the caller was on the wire and carries its id.
  predicate Routed(s: Link, c: Caller, f: ServerFrame) {
    f in s.wire && f.id == Some(c.id)
  }

  predicate CallerOk(s: Link, w: nat)
    requires w < |s.callers|
  {
    var c := s.callers[w];
    && c.id == RequestId(w)
    && (Waiting(c) && c.slot.Empty? ==> c.id in s.pending && s.pending[c.id] == w)
    && (c.slot.Full? ==> Routed(s, c, c.slot.frame))
    && (c.phase.Done? && c.phase.outcome.Received? ==> Routed(s, c, c.phase.outcome.frame))
    && (c.phase.Allocated? ==> c.slot.Empty?)
  }

  predicate CommandOk(s: Link, k: nat)
    requires k < |s.commands|
  {
    var c := s.commands[k];
    && (c.caller.None? ==> !CarriesId(c.tag))
    && (c.caller.Some? ==> c.caller.value < |s.callers| && c.id == s.callers[c.caller.value].id
                           && !s.callers[c.caller.value].phase.Allocated? && !s.callers[c.caller.value].phase.Registered?)
  }

  /// A reply with an id says how its command fared: Result exactly if it was accepted,
  /// Rejection exactly if it is a transition that was refused.
  predicate Truthful(c: Command, a: Answer, f: ServerFrame) {
    && CarriesId(c.tag) && f.id == Some(c.id) && f.payload == a.payload
    && (f.tag.Result? <==> a.decodes && a.accepted && a.encodes)
    && (f.tag.Rejection? <==> c.tag.Transition? && a.decodes && !a.accepted && a.encodes)
    && (f.tag.Result? || f.tag.Rejection?)
  }

  /// A frame with an id is a truthful reply to the command it answers.
  predicate FrameOk(s: Link, f: ServerFrame) {
    f.id.Some? ==>
      && f.command.Some? && f.command.value < |s.answers| && f.command.value < |s.commands|
      && Truthful(s.commands[f.command.value], s.answers[f.command.value], f)
  }

  predicate CallersOk(s: Link) {
    forall w :: 0 <= w < |s.callers| ==> CallerOk(s, w)
  }

  ghost predicate PendingOk(s: Link) {
    && (forall id :: PendingAt(s, id))
    && (s.dead ==> s.pending == map[])
  }

  predicate CommandsOk(s: Link) {
    && |s.answers| <= |s.commands|
    && (forall k :: 0 <= k < |s.commands| ==> CommandOk(s, k))
    && (forall j, k :: 0 <= j < k < |s.commands| && s.commands[j].caller.Some? ==> s.commands[j].caller != s.commands[k].caller)
  }

  predicate WireOk(s: Link) {
    && (forall j :: 0 <= j < |s.wire| ==> FrameOk(s, s.wire[j]))
    && (forall i, j :: 0 <= i < j < |s.wire| && s.wire[i].id.Some? && s.wire[j].id.Some? && s.wire[i].command.Some? && s.wire[j].command.Some?
                       ==> s.wire[i].command.value < s.wire[j].command.value)
  }

  ghost predicate Inv(s: Link) {
    if CallersOk(s) && PendingOk(s) && CommandsOk(s) && WireOk(s) then true else false
  }

  // ---- One part at a time ------------------------------------------------------------------

  /// Callers keep their ids and never go back to a phase before writing.
  predicate CallersAdvance(s: Link, s': Link) {
    && |s.callers| <= |s'.callers|
    && forall w :: 0 <= w < |s.callers| ==>
         && s'.callers[w].id == s.callers[w].id
         && (s'.callers[w].phase.Allocated? ==> s.callers[w].phase.Allocated?)
         && (s'.callers[w].phase.Registered? ==> s.callers[w].phase.Allocated? || s.callers[w].phase.Registered?)
  }

  lemma CommandsStay(s: Link, s': Link)
    requires CommandsOk(s) && CallersAdvance(s, s') && s'.commands == s.commands && |s'.answers| <= |s.commands|
    ensures CommandsOk(s')
  {
    forall k | 0 <= k < |s.commands|
      ensures CommandOk(s', k)
    {
      assert CommandOk(s, k);
    }
  }

  lemma FrameStays(s: Link, s': Link, f: ServerFrame)
    requires FrameOk(s, f) && s.commands <= s'.commands && s.answers <= s'.answers
    ensures FrameOk(s', f)
  {
  }

  lemma WireStays(s: Link, s': Link)
    requires WireOk(s) && s'.wire == s.wire && s.commands <= s'.commands && s.answers <= s'.answers
    ensures WireOk(s')
  {
    forall j | 0 <= j < |s.wire|
      ensures FrameOk(s', s'.wire[j])
    {
      FrameStays(s, s', s.wire[j]);
    }
  }

  // ---- Server steps --------------------------------------------------------------------------

  lemma HandleShape(s: Link, k: nat, a: Answer)
    requires CommandsOk(s) && k < |s.commands|
    ensures |Handle(s.commands[k], k, a)| <= 1
    ensures forall f :: f in Handle(s.commands[k], k, a) ==> f.command == Some(k) && (f.id.Some? ==> Truthful(s.commands[k], a, f))
  {
  }

  lemma WireGrows(s: Link, s': Link, f: ServerFrame)
    requires WireOk(s) && s'.wire == s.wire + [f] && s.commands <= s'.commands && s.answers <= s'.answers
    requires FrameOk(s', f) && (f.id.Some? ==> f.command == Some(|s.answers|))
    ensures WireOk(s')
  {
    forall j | 0 <= j < |s'.wire|
      ensures FrameOk(s', s'.wire[j])
    {
      if j < |s.wire| {
        FrameStays(s, s', s.wire[j]);
      }
    }
    forall i, j | 0 <= i < j < |s'.wire| && s'.wire[i].id.Some? && s'.wire[j].id.Some? && s'.wire[i].command.Some? && s'.wire[j].command.Some?
      ensures s'.wire[i].command.value < s'.wire[j].command.value
    {
      assert FrameOk(s, s.wire[i]);
      assert j < |s.wire| ==> s'.wire[j] == s.wire[j];
    }
  }

  lemma ServeWire(s: Link, a: Answer, ok: bool, arrives: bool)
    requires Inv(s)
    ensures WireOk(DoServe(s, a, ok, arrives)) && s.wire <= DoServe(s, a, ok, arrives).wire
  {
    var s', k := DoServe(s, a, ok, arrives), |s.answers|;
    if s'.wire == s.wire {
      WireStays(s, s');
    } else {
      var out := Handle(s.commands[k], k, a);
      HandleShape(s, k, a);
      assert out == [out[0]];
      assert out[0] in out;
      WireGrows(s, s', out[0]);
    }
  }

  /// Callers do not notice frames arriving on the wire or commands being served.
  lemma CallersStay(s: Link, s': Link)
    requires CallersOk(s) && PendingOk(s) && s'.callers == s.callers && s'.pending == s.pending && s'.dead == s.dead
    requires s.wire <= s'.wire
    ensures CallersOk(s') && PendingOk(s')
  {
    assert forall f :: f in s.wire ==> f in s'.wire;
    forall w | 0 <= w < |s'.callers|
      ensures CallerOk(s', w)
    {
      assert CallerOk(s, w);
    }
    forall id
      ensures PendingAt(s', id)
    {
      assert PendingAt(s, id);
    }
  }

  lemma ServeKeeps(s: Link, a: Answer, ok: bool, arrives: bool)
    requires Inv(s)
    ensures Inv(DoServe(s, a, ok, arrives))
  {
    var s' := DoServe(s, a, ok, arrives);
    ServeWire(s, a, ok, arrives);
    CallersStay(s, s');
    CommandsStay(s, s');
  }

  lemma ForwardKeeps(s: Link, payload: Json)
    requires Inv(s)
    ensures Inv(Apply(s, Forward(payload)))
  {
    var s' := Apply(s, Forward(payload));
    WireGrows(s, s', s'.wire[|s.wire|]);
    CallersStay(s, s');
    CommandsStay(s, s');
  }

  // ---- Caller steps ---------------------------------------------------------------------------

  /// What is left to show when only callers and pending channels change.
  lemma ClientStep(s: Link, s': Link)
    requires Inv(s) && CallersOk(s') && PendingOk(s') && CallersAdvance(s, s')
    requires s'.commands == s.commands && s'.answers == s.answers && s'.wire == s.wire
    ensures Inv(s')
  {
    CommandsStay(s, s');
    WireStays(s, s');
  }

  lemma AllocateKeeps(s: Link)
    requires Inv(s)
    ensures Inv(Apply(s, Allocate))
  {
    var s' := Apply(s, Allocate);
    forall w | 0 <= w < |s'.callers|
      ensures CallerOk(s', w)
    {
      assert w < |s.callers| ==> CallerOk(s, w);
    }
    forall id
      ensures PendingAt(s', id)
    {
      assert PendingAt(s, id);
    }
    ClientStep(s, s');
  }

  lemma DropPendingOk(s: Link, id: nat)
    requires CallersOk(s) && PendingOk(s)
    ensures var s' := DropPending(s, id);
            CallersOk(s') && PendingOk(s') && CallersAdvance(s, s') && id !in s'.pending
  {
    var s' := DropPending(s, id);
    assert PendingAt(s, id);
    forall w | 0 <= w < |s'.callers|
      ensures CallerOk(s', w)
    {
      assert CallerOk(s, w);
    }
    forall i
      ensures PendingAt(s', i)
    {
      assert PendingAt(s, i);
    }
  }

  /// A caller moves on: it was waiting before if it still is, and takes a frame only
  /// out of its own channel.
  lemma SetPhaseOk(s: Link, w: nat, phase: Phase)
    requires CallersOk(s) && PendingOk(s) && w < |s.callers|
    requires phase.Sent? || phase.Expiring? ==> Waiting(s.callers[w])
    requires phase.Done? && phase.outcome.Received? ==> s.callers[w].slot == Full(phase.outcome.frame)
    requires !phase.Allocated? && !phase.Registered?
    ensures var s' := SetPhase(s, w, phase);
            CallersOk(s') && PendingOk(s') && CallersAdvance(s, s')
  {
    var s' := SetPhase(s, w, phase);
    forall v | 0 <= v < |s'.callers|
      ensures CallerOk(s', v)
    {
      assert CallerOk(s, v);
    }
    forall id
      ensures PendingAt(s', id)
    {
      assert PendingAt(s, id);
    }
  }

  lemma SetPhaseKeeps(s: Link, w: nat, phase: Phase)
    requires Inv(s) && w < |s.callers|
    requires phase.Sent? || phase.Expiring? ==> Waiting(s.callers[w])
    requires phase.Done? && phase.outcome.Received? ==> s.callers[w].slot == Full(phase.outcome.frame)
    requires !phase.Allocated? && !phase.Registered?
    ensures Inv(SetPhase(s, w, phase))
  {
    SetPhaseOk(s, w, phase);
    ClientStep(s, SetPhase(s, w, phase));
  }

  lemma DropPendingKeeps(s: Link, id: nat)
    requires Inv(s)
    ensures Inv(DropPending(s, id)) && id !in DropPending(s, id).pending
  {
    DropPendingOk(s, id);
    ClientStep(s, DropPending(s, id));
  }

  lemma EnrolKeeps(s: Link, w: nat)
    requires Inv(s) && w < |s.callers| && s.callers[w].phase.Allocated? && s.callers[w].id !in s.pending && !s.dead
    ensures var t := SetPhase(s, w, Registered); Inv(t.(pending := t.pending[s.callers[w].id := w]))
  {
    var t := SetPhase(s, w, Registered);
    var s' := t.(pending := t.pending[s.callers[w].id := w]);
    assert CallerOk(s, w);
    forall v | 0 <= v < |s'.callers|
      ensures CallerOk(s', v)
    {
      assert CallerOk(s, v);
    }
    forall id
      ensures PendingAt(s', id)
    {
      assert PendingAt(s, id);
    }
    ClientStep(s, s');
  }

  lemma RegisterKeeps(s: Link, w: nat)
    requires Inv(s) && w < |s.callers| && s.callers[w].phase.Allocated?
    ensures Inv(DoRegister(s, w))
  {
    if s.dead {
      SetPhaseKeeps(s, w, Done(Disconnected));
    } else {
      DropPendingKeeps(s, s.callers[w].id);
      assert PendingAt(s, s.callers[w].id);
      EnrolKeeps(DropPending(s, s.callers[w].id), w);
    }
  }

  lemma CommandsGrow(s: Link, s': Link, c: Command)
    requires CommandsOk(s) && s'.commands == s.commands + [c] && s'.callers == s.callers && s'.answers == s.answers
    requires CommandOk(s', |s.commands|)
    requires forall k :: 0 <= k < |s.commands| && s.commands[k].caller.Some? ==> s.commands[k].caller != c.caller
    ensures CommandsOk(s')
  {
    forall k | 0 <= k < |s'.commands|
      ensures CommandOk(s', k)
    {
      assert k < |s.commands| ==> CommandOk(s, k);
    }
  }

  lemma SendKeeps(s: Link, c: Command)
    requires Inv(s)
    requires CommandOk(s.(commands := s.commands + [c]), |s.commands|)
    requires forall k :: 0 <= k < |s.commands| && s.commands[k].caller.Some? ==> s.commands[k].caller != c.caller
    ensures Inv(s.(commands := s.commands + [c]))
  {
    var s' := s.(commands := s.commands + [c]);
    CommandsGrow(s, s', c);
    CallersStay(s, s');
    WireStays(s, s');
  }

  lemma WriteKeeps(s: Link, w: nat, tag: FrameTag, ok: bool, arrives: bool)
    requires Inv(s) && w < |s.callers| && s.callers[w].phase.Registered?
    ensures Inv(DoWrite(s, w, tag, ok, arrives))
  {
    var t := SetPhase(s, w, if ok then Sent else Done(Disconnected));
    SetPhaseKeeps(s, w, if ok then Sent else Done(Disconnected));
    if ok || arrives {
      forall k | 0 <= k < |s.commands| && s.commands[k].caller.Some?
        ensures s.commands[k].caller != Some(w)
      {
        assert CommandOk(s, k);
      }
      SendKeeps(t, Command(tag, s.callers[w].id, Some(w)));
    }
  }

  lemma SendPlainKeeps(s: Link, tag: FrameTag)
    requires Inv(s)
    ensures Inv(Apply(s, SendPlain(tag)))
  {
    if !CarriesId(tag) {
      SendKeeps(s, Command(tag, 0, None));
    }
  }

  lemma ReadKeeps(s: Link)
    requires Inv(s) && s.read < |s.wire|
    ensures Inv(DoRead(s))
  {
    var s', f := DoRead(s), s.wire[s.read];
    assert f in s.wire;
    assert f.id.Some? ==> PendingAt(s, f.id.value);
    forall w | 0 <= w < |s'.callers|
      ensures CallerOk(s', w)
    {
      assert CallerOk(s, w);
    }
    forall id
      ensures PendingAt(s', id)
    {
      assert PendingAt(s, id);
    }
    ClientStep(s, s');
  }

  lemma StopKeeps(s: Link)
    requires Inv(s)
    ensures Inv(Apply(s, StopReading))
  {
    var s' := Apply(s, StopReading);
    forall w | 0 <= w < |s'.callers|
      ensures CallerOk(s', w)
    {
      assert CallerOk(s, w);
      assert PendingAt(s, s.callers[w].id);
    }
    ClientStep(s, s');
  }

  lemma CallerStepKeeps(s: Link, a: Action)
    requires a.Register? || a.Write? || a.Wake? || a.Elapse? || a.Expire?
    requires Inv(s) && a.w < |s.callers|
    ensures Inv(CallerStep(s, a))
  {
    var c := s.callers[a.w];
    match (a, c.phase)
    case (Register(w), Allocated) => RegisterKeeps(s, w);
    case (Write(w, tag, ok, arrives), Registered) => WriteKeeps(s, w, tag, ok, arrives);
    case (Wake(w), Sent) =>
      if c.slot.Full? {
        SetPhaseKeeps(s, w, Done(Received(c.slot.frame)));
      } else {
        SetPhaseKeeps(s, w, Done(Disconnected));
      }
    case (Elapse(w), Sent) => SetPhaseKeeps(s, w, Expiring);
    case (Expire(w), Expiring) =>
      DropPendingKeeps(s, c.id);
      SetPhaseKeeps(DropPending(s, c.id), w, Done(TimedOut));
    case _ =>
  }

  lemma StepKeeps(s: Link, a: Action)
    requires Inv(s)
    ensures Inv(Apply(s, a))
  {
    match a
    case Allocate => AllocateKeeps(s);
    case SendPlain(tag) => SendPlainKeeps(s, tag);
    case Serve(answer, ok, arrives) => ServeKeeps(s, answer, ok, arrives);
    case Forward(payload) => ForwardKeeps(s, payload);
    case HangUp =>
      CallersStay(s, Apply(s, a));
      ClientStep(s, Apply(s, a));
    case ReadNext => if !s.dead && s.read < |s.wire| { ReadKeeps(s); }
    case StopReading => StopKeeps(s);
    case _ => if a.w < |s.callers| { CallerStepKeeps(s, a); }
  }

  lemma {:induction false} RunKeeps(actions: seq<Action>)
    ensures Inv(Run(actions))
  {
    if actions != [] {
      RunKeeps(actions[..|actions| - 1]);
      StepKeeps(Run(actions[..|actions| - 1]), actions[|actions| - 1]);
    }
  }

  // ---- What callers can rely on ------------------------------------------------------------------

  /// The frame is the server's truthful reply to a command of the caller itself.
  predicate OwnReply(s: Link, w: nat, f: ServerFrame) {
    && f in s.wire && f.command.Some? && f.command.value < |s.answers| <= |s.commands|
    && var k := f.command.value;
       s.commands[k].caller == Some(w) && Truthful(s.commands[k], s.answers[k], f)
  }

  lemma RequestIdsDiffer(v: nat, w: nat)
    requires v < U64_RANGE && w < U64_RANGE && RequestId(v) == RequestId(w)
    ensures v == w
  {
  }

  lemma RoutedIsOwn(s: Link, w: nat, f: ServerFrame)
    requires Inv(s) && |s.callers| <= U64_RANGE && w < |s.callers| && Routed(s, s.callers[w], f)
    ensures OwnReply(s, w, f)
  {
    var j :| 0 <= j < |s.wire| && s.wire[j] == f;
    assert FrameOk(s, s.wire[j]);
    var k := f.command.value;
    assert CommandOk(s, k);
    assert CallerOk(s, w);
    var v := s.commands[k].caller.value;
    assert CallerOk(s, v);
    RequestIdsDiffer(v, w);
  }

  /// In every interleaving, a caller that receives a frame receives the server's
  /// reply to its own command, as long as request ids have not wrapped around.
  lemma RepliesAreOwn(actions: seq<Action>, w: nat)
    requires w < |Run(actions).callers| <= U64_RANGE
    ensures var s := Run(actions);
            s.callers[w].phase.Done? && s.callers[w].phase.outcome.Received? ==>
              OwnReply(s, w, s.callers[w].phase.outcome.frame)
  {
    var s := Run(actions);
    RunKeeps(actions);
    assert CallerOk(s, w);
    if s.callers[w].phase.Done? && s.callers[w].phase.outcome.Received? {
      RoutedIsOwn(s, w, s.callers[w].phase.outcome.frame);
    }
  }

  /// Every frame with an id on the wire is a truthful reply to a command the server took.
  lemma RepliesAreTruthful(actions: seq<Action>, j: nat)
    requires j < |Run(actions).wire| && Run(actions).wire[j].id.Some?
    ensures var s, f := Run(actions), Run(actions).wire[j];
            && f.command.Some? && f.command.value < |s.answers| <= |s.commands|
            && Truthful(s.commands[f.command.value], s.answers[f.command.value], f)
  {
    RunKeeps(actions);
    assert FrameOk(Run(actions), Run(actions).wire[j]);
  }

  /// Replies with an id leave the server in the order of the commands they answer.
  lemma RepliesInCommandOrder(actions: seq<Action>, i: nat, j: nat)
    requires i < j < |Run(actions).wire| && Run(actions).wire[i].id.Some? && Run(actions).wire[j].id.Some?
    ensures var wire := Run(actions).wire;
            wire[i].command.Some? && wire[j].command.Some? && wire[i].command.value < wire[j].command.value
  {
    RunKeeps(actions);
    assert FrameOk(Run(actions), Run(actions).wire[i]) && FrameOk(Run(actions), Run(actions).wire[j]);
  }

  /// The frame answers the command at `k` without naming a request.
  predicate Unrouted(f: ServerFrame, tag: FrameTag, k: nat, a: Answer) {
    f == ServerFrame(tag, None, a.payload, Some(k))
  }

  /// What serving the command at `k` puts on the wire: for a request exactly one frame, a
  /// result or rejection under the id of its caller, or an error without id if the command
  /// could not be decoded, the reply not encoded, or anything but a transition was refused;
  /// one pong for a ping; an error for an undecodable acknowledgement or unsubscription, or
  /// for a frame no client should send.
  predicate Served(s: Link, k: nat, a: Answer, out: seq<ServerFrame>)
    requires k < |s.commands|
  {
    var c := s.commands[k];
    var told := a.decodes && a.encodes && (a.accepted || c.tag.Transition?);
    if CarriesId(c.tag) then
      && c.caller.Some? && c.caller.value < |s.callers| && |out| == 1
      && (if told then out[0].id == Some(s.callers[c.caller.value].id) && out[0].command == Some(k) && Truthful(c, a, out[0])
          else Unrouted(out[0], FrameTag.Error, k, a))
    else if c.tag.Ping? then |out| == 1 && Unrouted(out[0], FrameTag.Pong, k, a)
    else if (c.tag.Ack? || c.tag.Unsubscribe?) && a.decodes then out == []
    else |out| == 1 && Unrouted(out[0], FrameTag.Error, k, a)
  }

  /// Serving the next command, unless it is a termination, adds its answer to the wire,
  /// or nothing if the write failed before anything got out.
  lemma CommandsAreAnswered(actions: seq<Action>, a: Answer, ok: bool, arrives: bool)
    requires var s := Run(actions); s.serving && |s.answers| < |s.commands| && !s.commands[|s.answers|].tag.Terminate?
    ensures var s, s' := Run(actions), Apply(Run(actions), Serve(a, ok, arrives));
            && s'.answers == s.answers + [a] && s'.serving == ok && s.wire <= s'.wire
            && (if ok || arrives then Served(s, |s.answers|, a, s'.wire[|s.wire|..]) else s'.wire == s.wire)
  {
    var s := Run(actions);
    RunKeeps(actions);
    assert CommandOk(s, |s.answers|);
    assert (s.wire + Handle(s.commands[|s.answers|], |s.answers|, a))[|s.wire|..] == Handle(s.commands[|s.answers|], |s.answers|, a);
  }

  /// A caller that received a result wrote a command which the server decoded and the
  /// engine accepted; one that received a rejection wrote a transition that was refused.
  lemma ResultMeansAccepted(actions: seq<Action>, w: nat)
    requires w < |Run(actions).callers| <= U64_RANGE
    requires var c := Run(actions).callers[w]; c.phase.Done? && c.phase.outcome.Received?
    ensures var s, f := Run(actions), Run(actions).callers[w].phase.outcome.frame;
            exists k :: 0 <= k < |s.answers| <= |s.commands| && s.commands[k].caller == Some(w)
                        && (if f.tag.Result? then s.answers[k].accepted
                            else f.tag.Rejection? && s.commands[k].tag.Transition? && !s.answers[k].accepted)
  {
    RepliesAreOwn(actions, w);
    var k := Run(actions).callers[w].phase.outcome.frame.command.value;
    assert k < |Run(actions).answers|;
  }

  /// A reply that the reader takes off the wire in time is what its caller receives.
  lemma ReadIsReceived(actions: seq<Action>, w: nat)
    requires var s := Run(actions);
             && !s.dead && s.read < |s.wire| && w < |s.callers|
             && s.callers[w].phase.Sent? && s.callers[w].slot.Empty? && s.wire[s.read].id == Some(s.callers[w].id)
    ensures var s := Run(actions);
            var s' := Apply(Apply(s, ReadNext), Wake(w));
            w < |s'.callers| && s'.callers[w].phase == Done(Received(s.wire[s.read])) && s.callers[w].id !in s'.pending
  {
    var s := Run(actions);
    RunKeeps(actions);
    assert CallerOk(s, w);
    assert FrameOk(s, s.wire[s.read]);
    var t := Apply(s, ReadNext);
    assert t.callers[w] == s.callers[w].(slot := Full(s.wire[s.read])) && s.callers[w].id !in t.pending;
  }

  lemma RunOneMore(actions: seq<Action>, a: Action)
    ensures Run(actions + [a]) == Apply(Run(actions), a)
  {
    assert (actions + [a])[..|actions|] == actions;
  }

  lemma StepFinal(s: Link, a: Action, w: nat)
    requires w < |s.callers|
    ensures var s' := Apply(s, a);
            w < |s'.callers| && (s.callers[w].phase.Done? ==> s'.callers[w].phase == s.callers[w].phase)
  {
    match a
    case Allocate =>
    case SendPlain(_) =>
    case Serve(_, _, _) =>
    case Forward(_) =>
    case HangUp =>
    case ReadNext =>
    case StopReading =>
    case _ => if a.w < |s.callers| { CallerStepFinal(s, a, w); }
  }

  lemma CallerStepFinal(s: Link, a: Action, w: nat)
    requires a.Register? || a.Write? || a.Wake? || a.Elapse? || a.Expire?
    requires a.w < |s.callers| && w < |s.callers|
    ensures var s' := CallerStep(s, a);
            w < |s'.callers| && (s.callers[w].phase.Done? ==> s'.callers[w].phase == s.callers[w].phase)
  {
  }

  /// A caller gets one outcome: once it has one, no continuation changes it.
  lemma {:induction false} OutcomeIsFinal(actions: seq<Action>, more: seq<Action>, w: nat)
    requires w < |Run(actions).callers| && Run(actions).callers[w].phase.Done?
    ensures w < |Run(actions + more).callers|
    ensures Run(actions + more).callers[w].phase == Run(actions).callers[w].phase
  {
    if more == [] {
      assert actions + more == actions;
    } else {
      var rest, a := actions + more[..|more| - 1], more[|more| - 1];
      OutcomeIsFinal(actions, more[..|more| - 1], w);
      assert actions + more == rest + [a];
      RunOneMore(rest, a);
      StepFinal(Run(rest), a, w);
    }
  }

  lemma StepDead(s: Link, a: Action)
    requires s.dead
    ensures Apply(s, a).dead
  {
  }

  lemma {:induction false} StaysDead(actions: seq<Action>, more: seq<Action>)
    requires Run(actions).dead
    ensures Run(actions + more).dead
  {
    if more == [] {
      assert actions + more == actions;
    } else {
      StaysDead(actions, more[..|more| - 1]);
      assert (actions + more)[..|actions + more| - 1] == actions + more[..|more| - 1];
      StepDead(Run(actions + more[..|more| - 1]), more[|more| - 1]);
    }
  }

  lemma NobodyHangs(s: Link, w: nat)
    requires Inv(s) && s.dead && w < |s.callers| && Waiting(s.callers[w])
    ensures !s.callers[w].slot.Empty?
  {
    assert CallerOk(s, w);
  }

  /// Once the connection is dead it stays dead, no channel is registered any more,
  /// and every caller still waiting has its channel filled or closed.
  lemma DeadForGood(actions: seq<Action>, more: seq<Action>)
    requires Run(actions).dead
    ensures var s := Run(actions + more);
            && s.dead && s.pending == map[]
            && forall w :: 0 <= w < |s.callers| && Waiting(s.callers[w]) ==> !s.callers[w].slot.Empty?
  {
    var s := Run(actions + more);
    StaysDead(actions, more);
    RunKeeps(actions + more);
    forall w | 0 <= w < |s.callers| && Waiting(s.callers[w])
      ensures !s.callers[w].slot.Empty?
    {
      NobodyHangs(s, w);
    }
  }

  // ---- When request ids wrap around -----------------------------------------------------------------

  ghost predicate AllOwn(s: Link) {
    forall w :: 0 <= w < |s.callers| && s.callers[w].phase.Done? && s.callers[w].phase.outcome.Received? ==>
      OwnReply(s, w, s.callers[w].phase.outcome.frame)
  }

  function Fresh(n: nat): seq<Caller> {
    seq(n, w requires 0 <= w < n => Caller(RequestId(w), Allocated, Empty))
  }

  function Allocations(n: nat): seq<Action> {
    seq(n, _ => Allocate)
  }

  lemma {:induction false} AllocationsRun(n: nat)
    ensures Run(Allocations(n)) == Init.(callers := Fresh(n))
  {
    if n == 0 {
      assert Fresh(0) == [];
    } else {
      AllocationsRun(n - 1);
      assert Allocations(n)[..n - 1] == Allocations(n - 1);
      assert Fresh(n) == Fresh(n - 1) + [Caller(RequestId(n - 1), Allocated, Empty)];
    }
  }

  const Granted: Answer := Answer(true, true, true, Null)

  /// The first caller writes its command; a later one with the same id displaces it.
  lemma Displaced(s: Link, n: nat) returns (t: Link)
    requires s == Init.(callers := Fresh(n + 1)) && n > 0 && RequestId(n) == RequestId(0)
    ensures t == Apply(Apply(Apply(Apply(s, Register(0)), Write(0, FrameTag.Transition, true, true)), Register(n)),
                       Write(n, FrameTag.Transition, true, true))
    ensures |t.callers| == n + 1 && !t.dead && t.serving && t.wire == [] && t.read == 0 && t.answers == []
    ensures t.commands == [Command(FrameTag.Transition, RequestId(0), Some(0)), Command(FrameTag.Transition, RequestId(0), Some(n))]
    ensures t.pending == map[RequestId(0) := n] && t.callers[n] == Caller(RequestId(0), Sent, Empty)
  {
    var a := Apply(s, Register(0));
    assert a.callers[0] == Caller(RequestId(0), Registered, Empty) && a.pending == map[RequestId(0) := 0];
    var b := Apply(a, Write(0, FrameTag.Transition, true, true));
    assert b.callers[n] == Caller(RequestId(0), Allocated, Empty) && b.pending == map[RequestId(0) := 0];
    var c := Apply(b, Register(n));
    assert c.callers[n] == Caller(RequestId(0), Registered, Empty) && c.pending == map[RequestId(0) := n];
    t := Apply(c, Write(n, FrameTag.Transition, true, true));
  }

  /// The reply to the first command then goes to the later caller.
  lemma Misrouted(t: Link, n: nat)
    requires |t.callers| == n + 1 && !t.dead && t.serving && t.wire == [] && t.read == 0 && t.answers == [] && n > 0
    requires t.commands == [Command(FrameTag.Transition, RequestId(0), Some(0)), Command(FrameTag.Transition, RequestId(0), Some(n))]
    requires t.pending == map[RequestId(0) := n] && t.callers[n] == Caller(RequestId(0), Sent, Empty)
    ensures var u := Apply(Apply(Apply(t, Serve(Granted, true, true)), ReadNext), Wake(n));
            |u.callers| == n + 1 && !AllOwn(u)
  {
    var f := ServerFrame(FrameTag.Result, Some(RequestId(0)), Granted.payload, Some(0));
    var a := Apply(t, Serve(Granted, true, true));
    assert a.wire == [f];
    var b := Apply(a, ReadNext);
    assert b.callers[n] == Caller(RequestId(0), Sent, Full(f));
    var u := Apply(b, Wake(n));
    assert u.callers[n].phase == Done(Received(f)) && u.commands[0].caller == Some(0);
  }

  lemma WrappedIdsMisroute() returns (actions: seq<Action>)
    ensures |Run(actions).callers| == U64_RANGE + 1 && !AllOwn(Run(actions))
  {
    var n := U64_RANGE;
    var a0 := Allocations(n + 1);
    AllocationsRun(n + 1);
    var t := Displaced(Run(a0), n);
    Misrouted(t, n);
    var a1 := a0 + [Register(0)];
    var a2 := a1 + [Write(0, FrameTag.Transition, true, true)];
    var a3 := a2 + [Register(n)];
    var a4 := a3 + [Write(n, FrameTag.Transition, true, true)];
    var a5 := a4 + [Serve(Granted, true, true)];
    var a6 := a5 + [ReadNext];
    RunOneMore(a0, Register(0));
    RunOneMore(a1, Write(0, FrameTag.Transition, true, true));
    RunOneMore(a2, Register(n));
    RunOneMore(a3, Write(n, FrameTag.Transition, true, true));
    RunOneMore(a4, Serve(Granted, true, true));
    RunOneMore(a5, ReadNext);
    RunOneMore(a6, Wake(n));
    actions := a6 + [Wake(n)];
  }

  /// Routing by request id is right for connections of up to `n` requests exactly
  /// when the 64-bit counter cannot repeat an id among them.
  lemma CorrelationExact(n: nat)
    ensures (forall actions :: |Run(actions).callers| <= n ==> AllOwn(Run(actions))) <==> n <= U64_RANGE
  {
    if n <= U64_RANGE {
      forall actions | |Run(actions).callers| <= n
        ensures AllOwn(Run(actions))
      {
        forall w | 0 <= w < |Run(actions).callers|
          ensures var c := Run(actions).callers[w];
                  c.phase.Done? && c.phase.outcome.Received? ==> OwnReply(Run(actions), w, c.phase.outcome.frame)
        {
          RepliesAreOwn(actions, w);
        }
      }
    } else {
      var actions := WrappedIdsMisroute();
      assert |Run(actions).callers| <= n;
    }
  }
}
