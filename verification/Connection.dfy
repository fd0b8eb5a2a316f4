/**
 The state a client connection shares between its callers and its reader task,
 updated in place. Every operation does what its step in `Correlation` does.
 */
module Connection {
  import opened Correlation

  class SharedState {
    var nextRequestId: nat
    /// Request id to the channel that waits for its reply.
    var pending: map<nat, nat>
    var dead: bool
    /// The channels handed out so far, as their receivers see them.
    var slots: seq<Slot>

    ghost predicate Shows(s: Link)
      reads this
    {
      && nextRequestId == RequestId(|s.callers|)
      && pending == s.pending && dead == s.dead && |slots| == |s.callers|
      && forall w :: 0 <= w < |slots| ==> slots[w] == s.callers[w].slot
    }

    constructor ()
      ensures Shows(Init)
    {
      nextRequestId, pending, dead, slots := 1, map[], false, [];
    }

    /// The counter wraps around at 2^64.
    method NextRequestId(ghost s: Link) returns (id: nat, w: nat)
      requires Shows(s)
      modifies this
      ensures Shows(Apply(s, Allocate)) && w == |s.callers|
      ensures id == Apply(s, Allocate).callers[w].id
    {
      id, w := nextRequestId, |slots|;
      nextRequestId := (nextRequestId + 1) % U64_RANGE;
      slots := slots + [Slot.Empty];
    }

    method Insert(ghost s: Link, w: nat, id: nat) returns (ok: bool)
      requires Inv(s) && Shows(s) && w < |s.callers| && s.callers[w].phase.Allocated? && id == s.callers[w].id
      modifies this
      ensures Shows(Apply(s, Register(w))) && ok == !s.dead
    {
      if dead {
        return false;
      }
      assert PendingAt(s, id);
      if id in pending {
        slots := slots[pending[id] := Closed];
      }
      pending := pending[id := w];
      return true;
    }

    method Route(ghost s: Link, f: ServerFrame)
      requires Inv(s) && Shows(s) && !s.dead && s.read < |s.wire| && f == s.wire[s.read]
      modifies this
      ensures Shows(Apply(s, ReadNext))
    {
      var routed := f.tag.Result? || f.tag.Rejection? || f.tag.Error?;
      if routed && f.id.Some? && f.id.value in pending {
        assert PendingAt(s, f.id.value);
        slots := slots[pending[f.id.value] := Full(f)];
        pending := pending - {f.id.value};
      }
    }

    method Remove(ghost s: Link, w: nat, id: nat)
      requires Inv(s) && Shows(s) && w < |s.callers| && s.callers[w].phase.Expiring? && id == s.callers[w].id
      modifies this
      ensures Shows(Apply(s, Expire(w)))
    {
      assert PendingAt(s, id);
      if id in pending {
        slots := slots[pending[id] := Closed];
        pending := pending - {id};
      }
    }

    /// The reader task ends: every channel still registered is dropped.
    method Close(ghost s: Link)
      requires Inv(s) && Shows(s)
      modifies this
      ensures Shows(Apply(s, StopReading))
    {
      dead := true;
      var ids := pending.Keys;
      while ids != {}
        invariant ids <= s.pending.Keys && pending == s.pending && dead && |slots| == |s.callers|
        invariant nextRequestId == RequestId(|s.callers|)
        invariant forall w :: 0 <= w < |slots| ==>
                    slots[w] == if Registers(s, w) && s.callers[w].id !in ids then Closed else s.callers[w].slot
        decreases ids
      {
        var id :| id in ids;
        assert PendingAt(s, id);
        slots := slots[pending[id] := Closed];
        ids := ids - {id};
      }
      pending := map[];
    }
  }

  predicate Registers(s: Link, w: nat)
    requires w < |s.callers|
  {
    s.callers[w].id in s.pending && s.pending[s.callers[w].id] == w
  }
}
