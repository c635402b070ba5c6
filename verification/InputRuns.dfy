/**
 Every run of the input path: prefix closure of hold generations, every byte passed to the socket at
 most once, receipts that add up, exact totals, and outcomes in acceptance order.
 */
module InputRuns {
  import opened Common
  import opened Inputs

  // ---- The invariant ----

  /** Inputs are worked off from the front: one that has started has only settled ones before it. */
  ghost predicate Queued(s: State)
    requires Wellformed(s)
  {
    && (forall i :: 0 <= i < s.head ==> s.items[i].Settled())
    && (forall i :: s.head < i < |s.items| ==> !s.items[i].started)
  }

  function InHold(h: nat): Item -> nat {
    (item: Item) => if !item.Settled() && item.hold == Some(h) then 1 else 0
  }

  /** An unsettled held input belongs to the open hold, which counts them. */
  ghost predicate Held(s: State)
    requires Wellformed(s)
  {
    && (forall i :: 0 <= i < |s.items| && !s.items[i].Settled() && s.items[i].hold.Some? ==> s.items[i].hold == s.hold)
    && (s.hold.Some? ==> s.holds[s.hold.value].unsettled == Sum(s.items, InHold(s.hold.value)))
  }

  /** The hold of input `i` is closed at or before its position. */
  predicate ClosedAt(s: State, i: nat)
    requires Wellformed(s) && i < |s.items|
  {
    s.items[i].hold.Some? ==>
      var h := s.holds[s.items[i].hold.value];
      h.cause.Some? && h.closedAfter <= i + 1
  }

  ghost predicate Closed(s: State)
    requires Wellformed(s)
  {
    forall i :: 0 <= i < |s.items| && s.items[i].outcome.Some? && s.items[i].outcome.value.Failed? ==> ClosedAt(s, i)
  }

  predicate SameHold(s: State, i: nat, j: nat) {
    i < |s.items| && j < |s.items| && s.items[i].hold.Some? && s.items[i].hold == s.items[j].hold
  }

  /** Prefix closure. */
  ghost predicate Prefix(s: State) {
    forall i, j :: 0 <= i < j < |s.items| && s.items[j].started && SameHold(s, i, j) ==> s.items[i].Complete()
  }

  function Bytes(item: Item): nat { if item.Settled() then 0 else item.total }

  function One(item: Item): nat { if item.Settled() then 0 else 1 }

  ghost predicate Counted(s: State) {
    && s.retained == Sum(s.items, Bytes) && s.retained <= s.cap
    && s.pending == Sum(s.items, One)
    && s.slots == |s.items| - s.delivered && s.slots <= MAX_SLOTS
  }

  ghost predicate Noticed(s: State) {
    && s.delivered <= s.noticed <= |s.items|
    && (forall i :: 0 <= i < s.noticed ==> s.items[i].Settled())
    && (s.noticed < |s.items| ==> !s.items[s.noticed].Settled())
  }

  /** Input `i` is the one whose chunk has entered the socket and awaits its result. */
  predicate Entered(s: State, i: nat) {
    i == s.head && s.stage.InLane? && s.stage.entered
  }

  /** What an input knows of its bytes. */
  predicate Sound(item: Item, entered: bool, to: nat) {
    && item.written + item.unknown <= item.sentTo <= item.total
    && (!item.started ==> item.sentTo == 0)
    && (item.Complete() ==> item.written == item.total)
    && (!item.Settled() ==> item.unknown == 0 && item.written < item.total
                            && item.sentTo == if entered then to else item.written)
  }

  ghost predicate AllSound(s: State) {
    && (forall i :: 0 <= i < |s.items| ==>
          Sound(s.items[i], Entered(s, i), if s.stage.InLane? then s.stage.to else 0))
    && (s.stage.InLane? ==>
          && s.head < |s.items| && s.stage.from < s.stage.to <= s.items[s.head].total
          && (!s.items[s.head].Settled() ==> s.stage.from == s.items[s.head].written)
          && (s.stage.entered ==> !s.items[s.head].Settled() && s.items[s.head].started))
  }

  /** No byte is on the wire twice. */
  ghost predicate Once(s: State) {
    && (forall p :: 0 <= p < |s.wire| ==> OnWire(s, s.wire[p]))
    && (forall p, q :: 0 <= p < q < |s.wire| && s.wire[p].i == s.wire[q].i ==> s.wire[p].to <= s.wire[q].from)
  }

  predicate OnWire(s: State, c: Chunk) {
    c.i < |s.items| && s.items[c.i].started && c.from < c.to <= s.items[c.i].sentTo
  }

  ghost predicate Inv(s: State) {
    && Wellformed(s) && Queued(s) && Held(s) && Closed(s) && Prefix(s)
    && Counted(s) && Noticed(s) && AllSound(s) && Once(s)
  }

  // ---- Settlement ----

  /** An outcome that is true of the input. */
  predicate Fair(s: State, i: nat, unknown: nat, o: Outcome)
    requires Wellformed(s) && i < |s.items|
  {
    && !s.items[i].Settled() && !Entered(s, i)
    && s.items[i].written + unknown <= s.items[i].sentTo
    && (o.Written? ==> s.items[i].written == s.items[i].total)
    && (o.Failed? ==> ClosedAt(s, i))
  }

  /**
   `s` with input `head` between its result and its settlement: written may have reached the total,
   and bytes may have been sent beyond it.
   */
  ghost predicate Almost(s: State, i: nat) {
    && Wellformed(s) && Queued(s) && Held(s) && Closed(s) && Prefix(s) && Counted(s) && Noticed(s) && Once(s)
    && (forall j :: 0 <= j < |s.items| && j != i ==>
          Sound(s.items[j], Entered(s, j), if s.stage.InLane? then s.stage.to else 0))
    && i < |s.items| && s.items[i].sentTo <= s.items[i].total && (!s.items[i].started ==> s.items[i].sentTo == 0)
    && (s.stage.InLane? ==>
          && s.head < |s.items| && s.stage.from < s.stage.to <= s.items[s.head].total
          && (!s.items[s.head].Settled() ==> s.stage.from == s.items[s.head].written)
          && (s.stage.entered ==> !s.items[s.head].Settled() && s.items[s.head].started))
  }

  lemma SettleCounts(s: State, i: nat, unknown: nat, o: Outcome)
    requires Wellformed(s) && Held(s) && Counted(s) && i < |s.items| && !s.items[i].Settled()
    ensures Held(Settle(s, i, unknown, o)) && Counted(Settle(s, i, unknown, o))
  {
    var t := Settle(s, i, unknown, o);
    var item := t.items[i];
    SumUpdate(s.items, i, item, Bytes);
    SumUpdate(s.items, i, item, One);
    if s.hold.Some? {
      SumUpdate(s.items, i, item, InHold(s.hold.value));
    }
  }

  lemma SettleOrders(s: State, i: nat, unknown: nat, o: Outcome)
    requires Wellformed(s) && Queued(s) && Noticed(s) && Prefix(s) && i < |s.items| && !s.items[i].Settled()
    ensures var t := Settle(s, i, unknown, o);
            Wellformed(t) && Queued(t) && Noticed(t) && Prefix(t)
  {
    var t := Settle(s, i, unknown, o);
    forall a, b | 0 <= a < b < |t.items| && t.items[b].started && SameHold(t, a, b) ensures t.items[a].Complete() {
      assert SameHold(s, a, b) && a != i;
    }
  }

  lemma SettleCloses(s: State, i: nat, unknown: nat, o: Outcome)
    requires Wellformed(s) && Closed(s) && i < |s.items| && !s.items[i].Settled()
    requires o.Failed? ==> ClosedAt(s, i)
    ensures Wellformed(Settle(s, i, unknown, o)) && Closed(Settle(s, i, unknown, o))
  {
    var t := Settle(s, i, unknown, o);
    forall k | 0 <= k < |t.items| && t.items[k].outcome.Some? && t.items[k].outcome.value.Failed?
      ensures ClosedAt(t, k)
    {
      assert ClosedAt(s, k);
    }
  }

  lemma SettleKeepsWire(s: State, i: nat, unknown: nat, o: Outcome)
    requires Wellformed(s) && Once(s) && i < |s.items|
    ensures Once(Settle(s, i, unknown, o))
  {
    var t := Settle(s, i, unknown, o);
    assert forall p :: 0 <= p < |s.wire| && OnWire(s, s.wire[p]) ==> OnWire(t, t.wire[p]);
  }

  lemma SettleKeepsInv(s: State, i: nat, unknown: nat, o: Outcome)
    requires Almost(s, i) && Fair(s, i, unknown, o)
    ensures Inv(Settle(s, i, unknown, o))
  {
    SettleCounts(s, i, unknown, o);
    SettleOrders(s, i, unknown, o);
    SettleCloses(s, i, unknown, o);
    SettleKeepsWire(s, i, unknown, o);
    hide Held, Counted, Queued, Noticed, Prefix, Closed, Once;
  }

  lemma InvIsAlmost(s: State, i: nat)
    requires Inv(s) && i < |s.items|
    ensures Almost(s, i)
  {
  }

  // ---- Closing a hold ----

  /** The open hold is closed at `at` or before. */
  predicate OpenClosed(s: State, at: nat)
    requires Wellformed(s)
  {
    s.hold.Some? ==>
      var h := s.holds[s.hold.value];
      h.cause.Some? && h.closedAfter <= at
  }

  /** Moving the closure point back only closes more. */
  lemma MarkKeepsInv(s: State, at: nat, e: Error)
    requires Inv(s) && s.hold.Some?
    requires s.holds[s.hold.value].cause.None? || at <= s.holds[s.hold.value].closedAfter
    ensures Inv(Mark(s, at, e)) && OpenClosed(Mark(s, at, e), at)
    ensures Mark(s, at, e).items == s.items && Mark(s, at, e).hold == s.hold
  {
    var t := Mark(s, at, e);
    forall k | 0 <= k < |t.items| && t.items[k].outcome.Some? && t.items[k].outcome.value.Failed?
      ensures ClosedAt(t, k)
    {
      assert ClosedAt(s, k);
    }
    assert forall p :: 0 <= p < |s.wire| && OnWire(s, s.wire[p]) ==> OnWire(t, t.wire[p]);
    assert forall i, j :: SameHold(t, i, j) == SameHold(s, i, j);
    hide Sound;
  }

  /** Failing what lies behind the closure point. */
  lemma {:induction false} SweepKeepsInv(s: State, n: nat, h: Option<nat>, at: nat, e: Error)
    requires Inv(s) && n <= |s.items| && OpenClosed(s, at)
    ensures Inv(Sweep(s, n, h, at, e))
    decreases |s.items| - n
  {
    hide Inv;
    if n < |s.items| {
      if Swept(s, n, h, at) {
        SweptIsFair(s, n, h, at, e);
        SettleKeepsInv(s, n, s.items[n].unknown, Failed(e));
        var t := Settle(s, n, s.items[n].unknown, Failed(e));
        SweepKeepsInv(t, n + 1, h, at, e);
      } else {
        SweepKeepsInv(s, n + 1, h, at, e);
      }
    }
  }

  lemma SweptIsFair(s: State, n: nat, h: Option<nat>, at: nat, e: Error)
    requires Inv(s) && OpenClosed(s, at) && Swept(s, n, h, at)
    ensures Wellformed(s) && Almost(s, n) && Fair(s, n, s.items[n].unknown, Failed(e))
    ensures OpenClosed(Settle(s, n, s.items[n].unknown, Failed(e)), at)
  {
    InvIsAlmost(s, n);
    hide Almost, Closed, Prefix, Counted, Noticed, Once;
  }

  lemma {:induction false} SumZero(items: seq<Item>, h: nat, i: nat)
    requires Sum(items, InHold(h)) == 0 && i < |items|
    ensures InHold(h)(items[i]) == 0
  {
    if i < |items| - 1 {
      SumZero(items[..|items| - 1], h, i);
    }
  }

  /** A hold ends only when none of its inputs is unsettled. */
  lemma EndHoldKeepsInv(s: State)
    requires Inv(s)
    ensures Inv(EndHold(s))
  {
    var t := EndHold(s);
    if t != s {
      forall i | 0 <= i < |s.items| && !s.items[i].Settled() ensures s.items[i].hold.None? {
        SumZero(s.items, s.hold.value, i);
      }
      SameItems(s, t);
    }
  }

  /** The same inputs, wire and counters under another state of the holds. */
  lemma SameItems(s: State, t: State)
    requires Inv(s) && Wellformed(t) && t == s.(holds := t.holds, hold := t.hold)
    requires forall k :: 0 <= k < |s.holds| ==>
               k < |t.holds| && t.holds[k].cause == s.holds[k].cause && t.holds[k].closedAfter == s.holds[k].closedAfter
    requires Held(t)
    ensures Inv(t)
  {
    forall k | 0 <= k < |t.items| && t.items[k].outcome.Some? && t.items[k].outcome.value.Failed?
      ensures ClosedAt(t, k)
    {
      assert ClosedAt(s, k);
    }
    assert forall p :: 0 <= p < |s.wire| && OnWire(s, s.wire[p]) ==> OnWire(t, t.wire[p]);
    assert forall i, j :: SameHold(t, i, j) == SameHold(s, i, j);
    hide Sound, Held;
  }

  lemma CloseSuffixKeepsInv(s: State, at: nat, e: Error)
    requires Inv(s)
    ensures Inv(CloseSuffix(s, at, e))
  {
    if Closes(s, at) {
      MarkKeepsInv(s, at, e);
      hide Inv;
      SweepKeepsInv(Mark(s, at, e), s.head, s.hold, at, e);
    }
  }

  lemma FailHeldKeepsInv(s: State, e: Error)
    requires Inv(s)
    ensures Inv(FailHeld(s, e))
  {
    if s.hold.Some? {
      var h := s.holds[s.hold.value];
      MarkKeepsInv(s, 0, if h.cause.None? || h.closedAfter > 0 then e else h.cause.value);
      hide Inv, Mark;
      SweepKeepsInv(MarkStart(s, e), s.head, s.hold, 0, e);
      EndHoldKeepsInv(Sweep(MarkStart(s, e), s.head, s.hold, 0, e));
    }
  }

  lemma FailUnsentKeepsInv(s: State, e: Error)
    requires Inv(s)
    ensures Inv(FailUnsent(s, e))
  {
    if s.hold.Some? {
      var h := s.holds[s.hold.value];
      MarkKeepsInv(s, 0, if h.cause.None? || h.closedAfter > 0 then e else h.cause.value);
    }
    hide Inv, Mark;
    var m := if s.hold.Some? then MarkStart(s, e) else s;
    SweepKeepsInv(m, s.head, None, 0, e);
    EndHoldKeepsInv(Sweep(m, s.head, None, 0, e));
  }

  /** Exactly the swept inputs fail, with the cause, and nothing else about any input changes. */
  lemma {:induction false} SweepExactly(s: State, n: nat, h: Option<nat>, at: nat, e: Error, i: nat)
    requires Wellformed(s) && n <= |s.items| && i < |s.items|
    ensures Sweep(s, n, h, at, e).items[i] ==
              if n <= i && Swept(s, i, h, at) then s.items[i].(outcome := Some(Failed(e))) else s.items[i]
    decreases |s.items| - n
  {
    if n < |s.items| {
      var t := if Swept(s, n, h, at) then Settle(s, n, s.items[n].unknown, Failed(e)) else s;
      SweepExactly(t, n + 1, h, at, e, i);
      assert i != n ==> t.items[i] == s.items[i];
    }
  }

  /**
   A rejection at registration fails what is held behind it and has not started, with its own
   cause, and leaves alone what was accepted before it, started inputs and inputs of no hold.
   */
  lemma CloseSuffixExactly(s: State, at: nat, e: Error, i: nat)
    requires Inv(s) && Closes(s, at) && i < |s.items|
    ensures CloseSuffix(s, at, e).items[i] ==
              if s.items[i].hold == s.hold && i + 1 > at && !s.items[i].Settled() && !s.items[i].started
              then s.items[i].(outcome := Some(Failed(e)))
              else s.items[i]
  {
    SweepExactly(Mark(s, at, e), s.head, s.hold, at, e, i);
    hide Held, Closed, Counted, Prefix, Once, AllSound, Sweep;
  }

  // ---- Failing one input ----

  lemma MarkKeepsAlmost(s: State, i: nat, e: Error)
    requires Almost(s, i) && s.hold.Some? && Closes(s, i + 1)
    ensures Almost(Mark(s, i + 1, e), i) && OpenClosed(Mark(s, i + 1, e), i + 1)
  {
    var t := Mark(s, i + 1, e);
    forall k | 0 <= k < |t.items| && t.items[k].outcome.Some? && t.items[k].outcome.value.Failed?
      ensures ClosedAt(t, k)
    {
      assert ClosedAt(s, k);
    }
    assert forall p :: 0 <= p < |s.wire| && OnWire(s, s.wire[p]) ==> OnWire(t, t.wire[p]);
    assert forall a, b :: SameHold(t, a, b) == SameHold(s, a, b);
    hide Sound;
  }

  /** The failing input itself, with its hold closed at its position. */
  lemma FailSettles(s: State, m: State, i: nat, unknown: nat, e: Error)
    requires Almost(s, i) && !s.items[i].Settled() && !Entered(s, i)
    requires s.items[i].written + unknown <= s.items[i].sentTo
    requires s.hold.Some? && Closes(s, i + 1) && m == Mark(s, i + 1, e)
    ensures Wellformed(m)
    ensures var r := Settle(m, i, unknown, Failed(e)); Inv(r) && OpenClosed(r, i + 1)
  {
    MarkKeepsAlmost(s, i, e);
    assert Fair(m, i, unknown, Failed(e)) by {
      assert s.items[i].hold.Some? ==> s.items[i].hold == s.hold;
      hide Almost;
    }
    SettleKeepsInv(m, i, unknown, Failed(e));
    hide Inv, Almost;
  }

  /** An input whose hold was closed before it, or that is in none. */
  lemma FailAlone(s: State, i: nat, unknown: nat, e: Error)
    requires Almost(s, i) && !s.items[i].Settled() && !Entered(s, i)
    requires s.items[i].written + unknown <= s.items[i].sentTo
    requires !(s.hold.Some? && s.items[i].hold == s.hold && Closes(s, i + 1))
    ensures Inv(Settle(s, i, unknown, Failed(e)))
  {
    assert Fair(s, i, unknown, Failed(e)) by {
      assert s.items[i].hold.Some? ==> s.items[i].hold == s.hold;
    }
    SettleKeepsInv(s, i, unknown, Failed(e));
    hide Inv, Almost;
  }

  lemma FailKeepsInv(s: State, i: nat, unknown: nat, e: Error)
    requires Almost(s, i) && !s.items[i].Settled() && !Entered(s, i)
    requires s.items[i].written + unknown <= s.items[i].sentTo
    ensures Inv(Fail(s, i, unknown, e))
  {
    assert Wellformed(s) && i < |s.items|;
    hide Inv, Almost, Settle, Mark, Wellformed, OpenClosed, Closes;
    if s.hold.Some? && s.items[i].hold == s.hold && Closes(s, i + 1) {
      var m := Mark(s, i + 1, e);
      FailSettles(s, m, i, unknown, e);
      var t := Settle(m, i, unknown, Failed(e));
      assert s.head <= |t.items| by { SettleShape(s, m, i, unknown, e); }
      SweepKeepsInv(t, s.head, s.hold, i + 1, e);
      EndHoldKeepsInv(Sweep(t, s.head, s.hold, i + 1, e));
    } else {
      FailAlone(s, i, unknown, e);
      EndHoldKeepsInv(Settle(s, i, unknown, Failed(e)));
    }
  }

  lemma SettleShape(s: State, m: State, i: nat, unknown: nat, e: Error)
    requires Wellformed(s) && i < |s.items| && s.hold.Some? && m == Mark(s, i + 1, e)
    ensures Wellformed(m) && s.head <= |Settle(m, i, unknown, Failed(e)).items|
  {
  }

  // ---- Admission ----

  lemma {:induction false} SumFresh(items: seq<Item>, h: nat)
    requires forall i :: 0 <= i < |items| ==> items[i].hold != Some(h)
    ensures Sum(items, InHold(h)) == 0
  {
    if items != [] {
      SumFresh(items[..|items| - 1], h);
    }
  }

  /** Adding the holds of the barrier changes no total but the new hold's own. */
  lemma {:induction false} JoinedSum(items: seq<Item>, h: nat, n: nat, f: Item -> nat)
    requires n <= |items|
    requires forall item: Item :: f(item) == f(item.(hold := Some(h)))
    ensures Sum(Joined(items, h, n), f) == Sum(items, f)
    decreases |items| - n
  {
    if n == |items| {
      assert Joined(items, h, n) == items;
    } else {
      JoinedSum(items, h, n + 1, f);
      JoinedStep(items, h, n);
      SumUpdate(Joined(items, h, n + 1), n, Joined(items, h, n)[n], f);
    }
  }

  lemma JoinedStep(items: seq<Item>, h: nat, n: nat)
    requires n < |items|
    ensures Joined(items, h, n) == Joined(items, h, n + 1)[n := Joined(items, h, n)[n]]
    ensures Joined(items, h, n + 1)[n] == items[n]
  {
  }

  lemma {:induction false} BarrierCounts(items: seq<Item>, h: nat, n: nat)
    requires n <= |items| && forall i :: 0 <= i < |items| ==> items[i].hold != Some(h)
    ensures Sum(Joined(items, h, n), InHold(h)) == Barrier(items, n)
    decreases |items| - n
  {
    if n == |items| {
      assert Joined(items, h, n) == items;
      SumFresh(items, h);
    } else {
      BarrierCounts(items, h, n + 1);
      JoinedStep(items, h, n);
      SumUpdate(Joined(items, h, n + 1), n, Joined(items, h, n)[n], InHold(h));
    }
  }

  lemma OpenHoldCounts(s: State)
    requires Wellformed(s) && Queued(s) && Held(s) && Counted(s) && s.hold.None?
    ensures Held(OpenHold(s)) && Counted(OpenHold(s))
  {
    var h := |s.holds|;
    JoinedSum(s.items, h, s.head, Bytes);
    JoinedSum(s.items, h, s.head, One);
    BarrierCounts(s.items, h, s.head);
  }

  lemma OpenHoldKeepsInv(s: State)
    requires Inv(s)
    ensures Inv(OpenHold(s))
  {
    if s.hold.None? {
      OpenHoldCounts(s);
      OpenHoldOrders(s);
      OpenHoldBytes(s);
      hide Held, Counted, Prefix, Closed, AllSound, Once;
    }
  }

  lemma OpenHoldBytes(s: State)
    requires Wellformed(s) && AllSound(s) && Once(s) && s.hold.None?
    ensures AllSound(OpenHold(s)) && Once(OpenHold(s))
  {
    var t := OpenHold(s);
    assert forall i :: 0 <= i < |s.items| ==> t.items[i] == s.items[i].(hold := t.items[i].hold);
    assert forall p :: 0 <= p < |s.wire| && OnWire(s, s.wire[p]) ==> OnWire(t, t.wire[p]);
  }

  /** An input of the barrier that has started has nothing unsettled before it to share the hold with. */
  lemma OpenHoldOrders(s: State)
    requires Wellformed(s) && Queued(s) && Held(s) && Prefix(s) && Closed(s) && s.hold.None?
    ensures Prefix(OpenHold(s)) && Closed(OpenHold(s))
  {
    var t := OpenHold(s);
    forall i, j | 0 <= i < j < |t.items| && t.items[j].started && SameHold(t, i, j) ensures t.items[i].Complete() {
      assert j <= s.head && t.items[i] == s.items[i];
      assert SameHold(s, i, j);
    }
    forall k | 0 <= k < |t.items| && t.items[k].outcome.Some? && t.items[k].outcome.value.Failed?
      ensures ClosedAt(t, k)
    {
      assert ClosedAt(s, k);
    }
  }

  lemma AppendCounts(s: State, total: nat)
    requires Wellformed(s) && Held(s) && Counted(s) && s.retained + total <= s.cap && s.slots < MAX_SLOTS
    ensures Wellformed(Append(s, total)) && Held(Append(s, total)) && Counted(Append(s, total))
  {
    var item := Item(total, 0, 0, false, None, s.hold, 0);
    SumAppend(s.items, item, Bytes);
    SumAppend(s.items, item, One);
    if s.hold.Some? {
      SumAppend(s.items, item, InHold(s.hold.value));
    }
  }

  lemma AppendOrders(s: State, total: nat)
    requires Wellformed(s) && Queued(s) && Closed(s) && Prefix(s)
    ensures var t := Append(s, total); Wellformed(t) && Queued(t) && Closed(t) && Prefix(t)
  {
    var t := Append(s, total);
    forall k | 0 <= k < |t.items| && t.items[k].outcome.Some? && t.items[k].outcome.value.Failed?
      ensures ClosedAt(t, k)
    {
      assert ClosedAt(s, k);
    }
    forall i, j | 0 <= i < j < |t.items| && t.items[j].started && SameHold(t, i, j) ensures t.items[i].Complete() {
      assert SameHold(s, i, j);
    }
  }

  lemma AppendBytes(s: State, total: nat)
    requires Wellformed(s) && Noticed(s) && AllSound(s) && Once(s) && total > 0
    ensures var t := Append(s, total); Noticed(t) && AllSound(t) && Once(t)
  {
    var t := Append(s, total);
    assert forall i :: 0 <= i < |s.items| ==> t.items[i] == s.items[i];
    assert forall p :: 0 <= p < |s.wire| && OnWire(s, s.wire[p]) ==> OnWire(t, t.wire[p]);
  }

  lemma AppendKeepsInv(s: State, total: nat)
    requires Inv(s) && 0 < total && s.retained + total <= s.cap && s.slots < MAX_SLOTS
    ensures Inv(Append(s, total))
  {
    AppendCounts(s, total);
    AppendOrders(s, total);
    AppendBytes(s, total);
    hide Append, Wellformed, Held, Counted, Queued, Closed, Prefix, Noticed, AllSound, Once;
  }

  lemma InvIsWellformed(s: State)
    requires Inv(s)
    ensures Wellformed(s)
  {
  }

  lemma OpenHoldFrame(s: State)
    requires Wellformed(s)
    ensures OpenHold(s).retained == s.retained && OpenHold(s).slots == s.slots && OpenHold(s).cap == s.cap
  {
  }

  lemma AdmitKeepsInv(s: State, total: nat, sendable: bool, e: Error)
    requires Inv(s)
    ensures Inv(Admit(s, total, sendable, e))
  {
    hide Inv, Append, CloseSuffix, Wellformed, OpenHold;
    InvIsWellformed(s);
    CloseSuffixKeepsInv(s, |s.items|, e);
    OpenHoldKeepsInv(s);
    OpenHoldFrame(s);
    if total > 0 && s.retained + total <= s.cap && s.slots < MAX_SLOTS {
      AppendKeepsInv(if sendable then s else OpenHold(s), total);
    }
  }

  // ---- Delivery ----

  lemma OfferKeepsInv(s: State)
    requires Inv(s)
    ensures Inv(Offer(s))
  {
    var t := Offer(s);
    if t != s {
      SameSettled(s, t);
      hide Held, Closed, Prefix, Counted, Noticed, Once, Queued;
    }
  }

  /** A step of the pump alone. */
  lemma SameSettled(s: State, t: State)
    requires Wellformed(s) && Queued(s) && Held(s) && Closed(s) && Prefix(s) && Counted(s) && Noticed(s) && Once(s)
    requires Wellformed(t) && t == s.(stage := t.stage)
    ensures Queued(t) && Held(t) && Closed(t) && Prefix(t) && Counted(t) && Noticed(t) && Once(t)
  {
    assert forall i, j :: SameHold(t, i, j) == SameHold(s, i, j);
    assert forall k :: 0 <= k < |s.items| && ClosedAt(s, k) ==> ClosedAt(t, k);
    assert forall p :: 0 <= p < |s.wire| && OnWire(s, s.wire[p]) ==> OnWire(t, t.wire[p]);
  }

  /** The heart of prefix closure: the gate opens only if no earlier input of the hold has failed. */
  lemma GateMeansPrefix(s: State, i: nat)
    requires Wellformed(s) && Queued(s) && Closed(s) && MayGo(s) && i < s.head && SameHold(s, i, s.head)
    ensures s.items[i].Complete()
  {
    assert s.items[i].Settled();
    assert !s.items[i].Complete() ==> ClosedAt(s, i);
  }

  lemma EnterOrders(s: State, t: State)
    requires Wellformed(s) && Queued(s) && Closed(s) && Prefix(s) && MayGo(s) && Wellformed(t)
    requires |t.items| == |s.items|
    requires t.items == s.items[s.head := s.items[s.head].(started := true, sentTo := t.items[s.head].sentTo)]
    requires t.holds == s.holds && t.head == s.head
    ensures Queued(t) && Closed(t) && Prefix(t)
  {
    forall i, j | 0 <= i < j < |t.items| && t.items[j].started && SameHold(t, i, j) ensures t.items[i].Complete() {
      assert SameHold(s, i, j);
      if j == s.head {
        GateMeansPrefix(s, i);
      }
    }
    forall k | 0 <= k < |t.items| && t.items[k].outcome.Some? && t.items[k].outcome.value.Failed?
      ensures ClosedAt(t, k)
    {
      assert ClosedAt(s, k);
    }
  }

  lemma EnterCounts(s: State, t: State)
    requires Wellformed(s) && Held(s) && Counted(s) && Noticed(s) && s.head < |s.items| && Wellformed(t)
    requires |t.items| == |s.items|
    requires var x := t.items[s.head];
             t.items == s.items[s.head := s.items[s.head].(started := true, written := x.written, sentTo := x.sentTo)]
    requires t == s.(items := t.items, stage := t.stage, wire := t.wire)
    ensures Held(t) && Counted(t) && Noticed(t)
  {
    SumUpdate(s.items, s.head, t.items[s.head], Bytes);
    SumUpdate(s.items, s.head, t.items[s.head], One);
    if s.hold.Some? {
      SumUpdate(s.items, s.head, t.items[s.head], InHold(s.hold.value));
    }
  }

  /** The chunk on the wire starts where the input's last one ended. */
  lemma EnterBytes(s: State, socket: bool)
    requires Wellformed(s) && AllSound(s) && Once(s) && MayGo(s) && s.stage.InLane? && !s.stage.entered
    ensures AllSound(Enter(s, socket)) && Once(Enter(s, socket))
  {
    var t := Enter(s, socket);
    forall p | 0 <= p < |s.wire|
      ensures OnWire(t, s.wire[p]) && (s.wire[p].i == s.head ==> s.wire[p].to <= s.stage.from)
    {
      assert OnWire(s, s.wire[p]);
      assert Sound(s.items[s.head], Entered(s, s.head), s.stage.to);
    }
  }

  lemma EnterKeepsInv(s: State, socket: bool)
    requires Inv(s)
    ensures Inv(Enter(s, socket))
  {
    if s.stage.InLane? && !s.stage.entered && MayGo(s) {
      var t := Enter(s, socket);
      EnterOrders(s, t);
      EnterCounts(s, t);
      EnterBytes(s, socket);
      hide Held, Counted, Queued, Closed, Prefix, Noticed, AllSound, Once;
    }
  }

  /** Back at the gate, the input in hand is all that needs care. */
  lemma LeaveIsAlmost(s: State)
    requires Inv(s) && s.stage.InLane?
    ensures Almost(s.(stage := AtGate), s.head)
    ensures !s.stage.entered ==> Inv(s.(stage := AtGate))
    ensures s.items[s.head].Settled() ==> Inv(s.(stage := AtGate))
  {
    SameSettled(s, s.(stage := AtGate));
    hide Held, Counted, Queued, Closed, Prefix, Noticed, Once;
  }

  /** What is known of the input in the lane. */
  lemma LaneFacts(s: State)
    requires Inv(s) && s.stage.InLane?
    ensures Wellformed(s) && s.head < |s.items| && s.stage.from < s.stage.to
    ensures var item := s.items[s.head];
            !item.Settled() ==> item.unknown == 0 && item.written == s.stage.from < item.total
                                && s.stage.to <= item.total
                                && item.sentTo == if s.stage.entered then s.stage.to else s.stage.from
    ensures s.stage.entered ==> !s.items[s.head].Settled() && s.items[s.head].started
  {
    assert Sound(s.items[s.head], Entered(s, s.head), s.stage.to);
  }

  lemma LaneFailedKeepsInv(s: State, uncertain: bool, retry: bool, e: Error)
    requires Inv(s)
    ensures Inv(LaneFailed(s, uncertain, retry, e))
  {
    hide Inv, Fail, Almost;
    InvIsWellformed(s);
    if s.stage.InLane? && !(uncertain && !s.stage.entered) {
      LaneFacts(s);
      LeaveIsAlmost(s);
      if !s.items[s.head].Settled() {
        var more := if uncertain then s.stage.to - s.stage.from else 0;
        FailKeepsInv(s.(stage := AtGate), s.head, s.items[s.head].unknown + more, e);
      }
    }
  }

  /** The result in hand, before the input is settled or goes on. */
  lemma WrittenIsAlmost(s: State, length: nat)
    requires Inv(s) && s.stage.InLane? && s.stage.entered && length <= s.stage.to - s.stage.from
    ensures var item := s.items[s.head];
            Almost(s.(stage := AtGate, items := s.items[s.head := item.(written := item.written + length)]), s.head)
  {
    LaneFacts(s);
    LeaveIsAlmost(s);
    var a := s.(stage := AtGate);
    var t := a.(items := s.items[s.head := s.items[s.head].(written := s.items[s.head].written + length)]);
    EnterCounts(a, t);
    WrittenOrders(a, t);
    hide Inv, Held, Counted, Queued, Closed, Prefix, Noticed, Once;
  }

  lemma WrittenOrders(s: State, t: State)
    requires Wellformed(s) && Queued(s) && Closed(s) && Prefix(s) && Once(s) && s.head < |s.items|
    requires |t.items| == |s.items|
    requires t == s.(items := s.items[s.head := s.items[s.head].(written := t.items[s.head].written)])
    ensures Wellformed(t) && Queued(t) && Closed(t) && Prefix(t) && Once(t)
  {
    assert forall i: nat, j: nat :: SameHold(t, i, j) == SameHold(s, i, j);
    forall k | 0 <= k < |t.items| && t.items[k].outcome.Some? && t.items[k].outcome.value.Failed?
      ensures ClosedAt(t, k)
    {
      assert ClosedAt(s, k);
    }
    assert forall p :: 0 <= p < |s.wire| && OnWire(s, s.wire[p]) ==> OnWire(t, t.wire[p]);
  }

  lemma LaneResultKeepsInv(s: State, length: nat, e: Error)
    requires Inv(s)
    ensures Inv(LaneResult(s, length, e))
  {
    hide Inv, Fail, Almost, Settle;
    InvIsWellformed(s);
    if s.stage.InLane? && s.stage.entered {
      LaneFacts(s);
      var item, size := s.items[s.head], s.stage.to - s.stage.from;
      if length > size {
        LeaveIsAlmost(s);
        FailKeepsInv(s.(stage := AtGate), s.head, item.unknown + size, e);
      } else {
        WrittenIsAlmost(s, length);
        var w := s.(stage := AtGate, items := s.items[s.head := item.(written := item.written + length)]);
        if length < size {
          FailKeepsInv(w, s.head, item.unknown + (size - length), e);
        } else if item.written + length == item.total {
          SettleKeepsInv(w, s.head, item.unknown, Written);
          EndHoldKeepsInv(Settle(w, s.head, item.unknown, Written));
        } else {
          AlmostIsInv(w);
        }
      }
    }
  }

  lemma AlmostIsInv(s: State)
    requires Almost(s, s.head) && s.stage.AtGate?
    requires Sound(s.items[s.head], false, 0)
    ensures Inv(s)
  {
  }

  lemma GateFailedKeepsInv(s: State, e: Error)
    requires Inv(s)
    ensures Inv(GateFailed(s, e))
  {
    if s.stage.AtGate? && s.head < |s.items| && !s.items[s.head].Settled() {
      InvIsAlmost(s, s.head);
      assert Sound(s.items[s.head], false, 0);
      hide Inv, Fail, Almost;
      FailKeepsInv(s, s.head, s.items[s.head].unknown, e);
    }
  }

  lemma PopKeepsInv(s: State)
    requires Inv(s)
    ensures Inv(Pop(s))
  {
    var t := Pop(s);
    if t != s {
      assert forall i: nat, j: nat :: SameHold(t, i, j) == SameHold(s, i, j);
      assert forall k :: 0 <= k < |s.items| && ClosedAt(s, k) ==> ClosedAt(t, k);
      assert forall p :: 0 <= p < |s.wire| && OnWire(s, s.wire[p]) ==> OnWire(t, t.wire[p]);
    }
  }

  lemma ReleasedKeepsInv(s: State)
    requires Inv(s) && s.delivered < s.noticed
    ensures Inv(Released(s)) && Released(s).delivered == s.delivered && Released(s).noticed == s.noticed
    ensures Released(s).slots == s.slots
  {
    SameItems(s, Released(s));
  }

  lemma DeliverKeepsInv(s: State)
    requires Inv(s)
    ensures Inv(Deliver(s))
  {
    hide Inv, Released, EndHold;
    InvIsWellformed(s);
    if s.delivered < s.noticed {
      ReleasedKeepsInv(s);
      var t := Released(s).(delivered := s.delivered + 1, slots := s.slots - 1);
      DeliveredKeepsInv(Released(s), t);
      EndHoldKeepsInv(t);
    }
  }

  lemma DeliveredKeepsInv(s: State, t: State)
    requires Inv(s) && s.delivered < s.noticed && t == s.(delivered := s.delivered + 1, slots := s.slots - 1)
    ensures Inv(t)
  {
    assert forall i: nat, j: nat :: SameHold(t, i, j) == SameHold(s, i, j);
    assert forall k :: 0 <= k < |s.items| && ClosedAt(s, k) ==> ClosedAt(t, k);
    assert forall p :: 0 <= p < |s.wire| && OnWire(s, s.wire[p]) ==> OnWire(t, t.wire[p]);
    hide Sound;
  }

  lemma StepKeepsInv(s: State, l: Label)
    requires Inv(s)
    ensures Wellformed(s) && Inv(Step(s, l))
  {
    hide Inv, Wellformed, Admit, CloseSuffix, OpenHold, FailHeld, FailUnsent, Offer, Enter, LaneFailed, LaneResult;
    hide GateFailed, Pop, Deliver;
    InvIsWellformed(s);
    match l
    case Admitting(total, sendable, e) => AdmitKeepsInv(s, total, sendable, e);
    case RendererRejected(e) => CloseSuffixKeepsInv(s, |s.items|, e);
    case Recovering => OpenHoldKeepsInv(s);
    case FocusFailed(e) => FailHeldKeepsInv(s, e);
    case TargetLost(e) => FailUnsentKeepsInv(s, e);
    case Offering => OfferKeepsInv(s);
    case Entering(socket) => EnterKeepsInv(s, socket);
    case LaneFailing(uncertain, retry, e) => LaneFailedKeepsInv(s, uncertain, retry, e);
    case LaneAnswering(length, e) => LaneResultKeepsInv(s, length, e);
    case GateRefusing(e) => GateFailedKeepsInv(s, e);
    case Popping => PopKeepsInv(s);
    case Delivering => DeliverKeepsInv(s);
  }

  // ---- Runs ----

  ghost predicate Run(ws: seq<State>, ls: seq<Label>) {
    && |ws| == |ls| + 1
    && ws[0] == Start(ws[0].cap)
    && forall i :: 0 <= i < |ls| ==> Follows(ws[i], ls[i], ws[i + 1])
  }

  predicate Follows(s: State, l: Label, t: State) {
    Wellformed(s) && t == Step(s, l)
  }

  lemma StartIsInv(cap: nat)
    ensures Inv(Start(cap))
  {
  }

  lemma {:induction false} RunKeepsInv(ws: seq<State>, ls: seq<Label>, n: nat)
    requires Run(ws, ls) && n < |ws|
    ensures Inv(ws[n])
  {
    hide Inv, Step, Wellformed;
    if n == 0 {
      StartIsInv(ws[0].cap);
    } else {
      RunKeepsInv(ws, ls, n - 1);
      assert Follows(ws[n - 1], ls[n - 1], ws[n]);
      StepKeepsInv(ws[n - 1], ls[n - 1]);
    }
  }

  /** Of one hold, a later input reaches the socket only if the earlier one was written completely. */
  lemma PrefixClosure(ws: seq<State>, ls: seq<Label>, n: nat, p: nat, i: nat)
    requires Run(ws, ls) && n < |ws| && p < |ws[n].wire|
    requires i < ws[n].wire[p].i && SameHold(ws[n], i, ws[n].wire[p].i)
    ensures ws[n].items[i].Complete() && ws[n].items[i].written == ws[n].items[i].total
  {
    RunKeepsInv(ws, ls, n);
    var s := ws[n];
    assert OnWire(s, s.wire[p]);
    assert Sound(s.items[i], Entered(s, i), if s.stage.InLane? then s.stage.to else 0);
    hide Held, Counted, Closed, Noticed, Queued;
  }

  /** No byte of an input is passed to socket.send twice, and chunks go out in order. */
  lemma SentOnce(ws: seq<State>, ls: seq<Label>, n: nat, p: nat, q: nat, byte: nat)
    requires Run(ws, ls) && n < |ws| && p < |ws[n].wire| && q < |ws[n].wire| && ws[n].wire[p].i == ws[n].wire[q].i
    requires ws[n].wire[p].from <= byte < ws[n].wire[p].to && ws[n].wire[q].from <= byte < ws[n].wire[q].to
    ensures p == q && ws[n].wire[p].i < |ws[n].items| && byte < ws[n].items[ws[n].wire[p].i].total
  {
    RunKeepsInv(ws, ls, n);
    var s := ws[n];
    assert OnWire(s, s.wire[p]);
    var i := s.wire[p].i;
    assert Sound(s.items[i], Entered(s, i), if s.stage.InLane? then s.stage.to else 0);
    hide Held, Counted, Closed, Noticed, Queued, Prefix;
  }

  /** The bytes a receipt reports as not sent. */
  function NotSent(item: Item): int {
    item.total - item.written - item.unknown
  }

  /** A receipt accounts for every byte; one never passed to the socket is reported as not sent. */
  lemma ReceiptsAddUp(ws: seq<State>, ls: seq<Label>, n: nat, i: nat)
    requires Run(ws, ls) && n < |ws| && i < |ws[n].items| && ws[n].items[i].Settled()
    ensures var item := ws[n].items[i];
            && 0 <= item.total - item.sentTo <= NotSent(item) <= item.total
            && item.written + item.unknown + NotSent(item) == item.total
            && (item.Complete() ==> NotSent(item) == 0 && item.unknown == 0)
            && (!item.started ==> NotSent(item) == item.total)
  {
    RunKeepsInv(ws, ls, n);
    var s := ws[n];
    assert Sound(s.items[i], Entered(s, i), if s.stage.InLane? then s.stage.to else 0);
    hide Held, Counted, Closed, Noticed, Queued, Prefix, Once;
  }

  /** Bytes, intents and slots in use are what the unsettled and undelivered inputs add up to. */
  lemma TotalsAreExact(ws: seq<State>, ls: seq<Label>, n: nat)
    requires Run(ws, ls) && n < |ws|
    ensures var s := ws[n];
            && s.retained == Sum(s.items, Bytes) && s.retained <= s.cap
            && s.pending == Sum(s.items, One)
            && s.slots == |s.items| - s.delivered && s.slots <= MAX_SLOTS
  {
    RunKeepsInv(ws, ls, n);
    hide Held, Closed, Noticed, Queued, Prefix, Once, AllSound;
  }

  /** An outcome is queued for the observers only once every earlier input has its own. */
  lemma OutcomesInOrder(ws: seq<State>, ls: seq<Label>, n: nat, i: nat)
    requires Run(ws, ls) && n < |ws| && i < |ws[n].items|
    ensures i < ws[n].noticed <==> forall j :: 0 <= j <= i ==> ws[n].items[j].Settled()
  {
    RunKeepsInv(ws, ls, n);
    hide Held, Closed, Counted, Queued, Prefix, Once, AllSound;
  }
}
