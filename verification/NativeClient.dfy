/** The native client as the object the source writes: one method per critical section. */
module NativeClient {
  import opened Common
  import opened Native

  class Client {
    var closed: bool
    var mutating: bool
    var generation: int
    var entries: seq<Entry>
    var ops: seq<Operation>
    var live: map<int, nat>
    var lastId: int
    var events: seq<Event>
    var eventBytes: int
    var produced: seq<Event>
    var emitting: seq<Event>
    ghost var writes: seq<nat>
    ghost var pulled: seq<Event>

    ghost function Value(): State
      reads this
    {
      State(closed, mutating, generation, entries, ops, live, lastId, events, eventBytes, writes, produced, emitting,
            pulled)
    }

    constructor ()
      ensures Value() == Start
    {
      closed, mutating, generation, entries, ops := false, false, 1, [], [];
      live, lastId, events, eventBytes := map[], 0, [], 0;
      produced, emitting, writes, pulled := [], [], [], [];
    }

    method AdmitOperation(e: nat, id: int) returns (ok: bool)
      requires e < |entries|
      modifies this
      ensures Value() == Admit(old(Value()), e, id)
      ensures ok <==> Admits(old(Value()), e, id)
    {
      if id <= lastId || id > MAX_SAFE_INTEGER || closed || mutating || entries[e].closed
         || generation != entries[e].generation || |live| >= MAX_OPERATIONS {
        return false;
      }
      live := live[id := |ops|];
      ops := ops + [Operation(id, e, NotSent, false, false)];
      lastId := id;
      ok := true;
    }

    method MarkHandedOff(h: nat)
      requires h < |ops|
      modifies this
      ensures Value() == Mark(old(Value()), h)
    {
      if !ops[h].done {
        ops := ops[h := ops[h].(disposition := HandedOff)];
      }
    }

    /** Permits or refuses the next Write, in one section with Cancel's own check. */
    method BeforeWrite(h: nat, ended: bool) returns (permitted: bool)
      requires Wellformed(Value()) && h < |ops|
      modifies this
      ensures Value() == WillWrite(old(Value()), h, ended)
      ensures permitted <==> MayWrite(old(Value()), h, ended)
    {
      var op := ops[h];
      if closed || op.done || op.cancelled || ended || entries[op.entry].closed
         || generation != entries[op.entry].generation {
        return false;
      }
      if op.disposition == NotSent {
        ops := ops[h := op.(disposition := Unknown)];
      }
      writes := writes + [h];
      permitted := true;
    }

    method CancelOperation(id: int) returns (disposition: Disposition)
      requires Wellformed(Value())
      modifies this
      ensures Value() == Cancel(old(Value()), id) && disposition == CancelReport(old(Value()), id)
    {
      if id !in live {
        return NotSent;
      }
      var h := live[id];
      ops := ops[h := ops[h].(cancelled := true)];
      disposition := ops[h].disposition;
    }

    method ReleaseOperation(id: int)
      requires Wellformed(Value())
      modifies this
      ensures Value() == Release(old(Value()), id)
    {
      if id in live && ops[live[id]].done {
        live := live - {id};
      }
    }

    method FinishOperation(h: nat, size: nat)
      requires h < |ops|
      modifies this
      ensures Value() == Finish(old(Value()), h, size)
    {
      if ops[h].done {
        return;
      }
      ops := ops[h := ops[h].(done := true)];
      var e := Event(|produced|, h, true, ops[h].disposition, size);
      produced, emitting := produced + [e], emitting + [e];
    }

    /** One turn of the queueing loop; a full queue leaves the event with its routine. */
    method TryEmit(i: nat)
      requires i < |emitting|
      modifies this
      ensures Value() == Emit(old(Value()), i)
    {
      var e := emitting[i];
      if e.size > MAX_EVENT_BYTES || closed {
        emitting := Without(emitting, i);
      } else if |events| < MAX_EVENTS && eventBytes + e.size <= MAX_EVENT_BYTES {
        emitting := Without(emitting, i);
        events := events + [e];
        eventBytes := eventBytes + e.size;
      }
    }

    method Pull() returns (e: Option<Event>)
      modifies this
      ensures Value() == NextEvent(old(Value()))
      ensures e == if old(closed) || old(events) == [] then None else Some(old(events)[0])
    {
      if closed || events == [] {
        return None;
      }
      e := Some(events[0]);
      pulled := pulled + [events[0]];
      events := events[1..];
      eventBytes := eventBytes - e.value.size;
    }

    /** Marks what is unfinished and in the table, of one entry or of all. */
    method CancelUnfinished(e: Option<nat>)
      requires Wellformed(Value())
      modifies this`ops
      ensures Value() == CancelWhere(old(Value()), (op: Operation) => e.None? || op.entry == e.value)
    {
      ghost var s := Value();
      for h := 0 to |ops|
        invariant |ops| == |s.ops|
        invariant forall k :: h <= k < |ops| ==> ops[k] == s.ops[k]
        invariant forall k :: 0 <= k < h ==>
                    ops[k] == if Selected(s, k, e) then s.ops[k].(cancelled := true) else s.ops[k]
      {
        var op := ops[h];
        if op.id in live && live[op.id] == h && !op.done && (e.None? || op.entry == e.value) {
          ops := ops[h := op.(cancelled := true)];
        }
      }
      assert ops == CancelWhere(s, (op: Operation) => e.None? || op.entry == e.value).ops;
    }

    method CloseEntryAt(e: nat)
      requires Wellformed(Value()) && e < |entries|
      modifies this
      ensures Value() == CloseEntry(old(Value()), e)
    {
      CancelUnfinished(Some(e));
      entries := entries[e := entries[e].(closed := true)];
      assert Value().ops == CloseEntry(old(Value()), e).ops;
    }

    method StopAll()
      modifies this
      ensures Value() == Stop(old(Value()))
    {
      if !closed {
        closed, events, eventBytes := true, [], 0;
      }
    }
  }

  predicate Selected(s: State, k: nat, e: Option<nat>) {
    k < |s.ops| && s.ops[k].id in s.live && s.live[s.ops[k].id] == k && !s.ops[k].done
    && (e.None? || s.ops[k].entry == e.value)
  }
}
