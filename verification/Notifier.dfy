/**
 Delivery to observers: state markers, reserved notices and aggregates of unreserved ones in one
 queue, delivered in rounds. Observers run inside a round and may produce more, so a round is cut at
 every entry.
 */
module Notifier {
  import opened Common

  /** What a notice's capacity was reserved from. */
  datatype Slot = InputSlot | RejectionSlot

  /** Entries carry the order in which they were queued; notices are numbered as they are produced. */
  datatype Entry = Marker(serial: nat) | Notice(serial: nat, id: nat) | Aggregate(serial: nat)

  /**
   `admitted` counts the accepted inputs that have a slot and no notice yet. `slots` gives the
   reservation of every notice produced so far, `released` how many have been released, `inHand`
   whether the next one is with the observers. `left` and `limit` describe the round in progress, and
   `delivered` the entries it and earlier rounds took.
   */
  datatype State = State(
    queue: seq<Entry>,
    marked: bool,
    closed: bool,
    next: nat,
    admitted: nat,
    slots: seq<Slot>,
    released: nat,
    inHand: bool,
    left: nat,
    limit: nat,
    delivered: seq<nat>)

  const Start: State := State([], false, false, 0, 0, [], 0, false, 0, 0, [])

  const QUANTUM: nat := 64
  const INPUT_SLOTS: nat := 224
  const REJECTION_SLOTS: nat := 32

  function IsInput(slot: Slot): nat { if slot.InputSlot? then 1 else 0 }

  function IsRejection(slot: Slot): nat { if slot.RejectionSlot? then 1 else 0 }

  /** Reservations of a kind in use. */
  function InUse(s: State, f: Slot -> nat): nat
    requires s.released <= |s.slots|
  {
    Sum(s.slots[s.released..], f)
  }

  // ---- Producing ----

  function MarkState(s: State): State {
    if s.closed || s.marked then s
    else s.(marked := true, queue := s.queue + [Marker(s.next)], next := s.next + 1)
  }

  /** A notice with a reservation; once closed it is released at once. */
  function PushNotice(s: State, slot: Slot): State {
    if s.closed then s.(slots := s.slots + [slot], released := s.released + 1)
    else s.(queue := s.queue + [Notice(s.next, |s.slots|)], next := s.next + 1, slots := s.slots + [slot])
  }

  /** A notice without one joins the aggregate at the tail, or opens one there. */
  function Fold(s: State): State {
    if s.closed || (s.queue != [] && s.queue[|s.queue| - 1].Aggregate?) then s
    else s.(queue := s.queue + [Aggregate(s.next)], next := s.next + 1)
  }

  /** An input takes its slot when it is admitted, or is refused for want of one. */
  function AdmitInput(s: State): State
    requires s.released <= |s.slots|
  {
    if s.closed || s.admitted + InUse(s, IsInput) >= INPUT_SLOTS then s else s.(admitted := s.admitted + 1)
  }

  /** The outcome of an admitted input goes out with the slot it holds, whatever else is in use. */
  function NotifyInput(s: State): State {
    if s.admitted == 0 then s else PushNotice(s.(admitted := s.admitted - 1), InputSlot)
  }

  function NotifyRejection(s: State): State
    requires s.released <= |s.slots|
  {
    if InUse(s, IsRejection) >= REJECTION_SLOTS then Fold(s) else PushNotice(s, RejectionSlot)
  }

  // ---- Rounds ----

  predicate Between(s: State) { s.left == 0 && !s.inHand }

  function StartRound(s: State): State {
    if s.closed || !Between(s) then s
    else s.(left := if |s.queue| < QUANTUM then |s.queue| else QUANTUM, limit := s.next)
  }

  /** Takes the oldest entry; a notice stays in hand while the observers see it. */
  function TakeEntry(s: State): State {
    if s.left == 0 || s.inHand || s.queue == [] then s
    else
      var e := s.queue[0];
      s.(queue := s.queue[1..], left := s.left - 1, delivered := s.delivered + [e.serial],
         marked := s.marked && !e.Marker?, inHand := e.Notice?)
  }

  function Release(s: State): State {
    if !s.inHand then s else s.(inHand := false, released := s.released + 1)
  }

  function TryClose(s: State): State {
    if s.queue == [] && Between(s) && s.admitted == 0 then s.(closed := true) else s
  }

  datatype Label = Marking | InputAdmitted | InputSettled | Rejecting | RoundStarting | Taking | Releasing | Closing

  function Step(s: State, l: Label): State
    requires s.released <= |s.slots|
  {
    match l
    case Marking => MarkState(s)
    case InputAdmitted => AdmitInput(s)
    case InputSettled => NotifyInput(s)
    case Rejecting => NotifyRejection(s)
    case RoundStarting => StartRound(s)
    case Taking => TakeEntry(s)
    case Releasing => Release(s)
    case Closing => TryClose(s)
  }

  // ---- The invariant ----

  /** First in, first out: what was delivered was queued before all that waits, in that order. */
  ghost predicate Ordered(s: State) {
    && (forall i, j :: 0 <= i < j < |s.queue| ==> s.queue[i].serial < s.queue[j].serial)
    && (forall i :: 0 <= i < |s.queue| ==> s.queue[i].serial < s.next)
    && (forall i, j :: 0 <= i < j < |s.delivered| ==> s.delivered[i] < s.delivered[j])
    && (forall i, j :: 0 <= i < |s.delivered| && 0 <= j < |s.queue| ==> s.delivered[i] < s.queue[j].serial)
    && (forall i :: 0 <= i < |s.delivered| ==> s.delivered[i] < s.next)
  }

  /** What is left of a round is at the front and was queued before it began. */
  ghost predicate InRound(s: State) {
    && s.left <= |s.queue|
    && (forall i :: 0 <= i < s.left ==> s.queue[i].serial < s.limit)
    && s.limit <= s.next
  }

  ghost predicate Shaped(s: State) {
    && (s.marked <==> exists i :: 0 <= i < |s.queue| && s.queue[i].Marker?)
    && (forall i, j :: 0 <= i < j < |s.queue| ==> !(s.queue[i].Marker? && s.queue[j].Marker?))
    && (forall i :: 0 <= i < |s.queue| - 1 ==> !(s.queue[i].Aggregate? && s.queue[i + 1].Aggregate?))
    && (s.closed ==> s.queue == [] && !s.inHand && s.left == 0 && s.admitted == 0)
  }

  function Notices(queue: seq<Entry>): seq<nat> {
    if queue == [] then []
    else
      var n := |queue| - 1;
      Notices(queue[..n]) + if queue[n].Notice? then [queue[n].id] else []
  }

  function Range(a: nat, b: nat): seq<nat>
    requires a <= b
  {
    seq(b - a, i requires 0 <= i => a + i)
  }

  /** Notices wait in the order they were produced, each until its one release. */
  ghost predicate Reserved(s: State) {
    && s.released + (if s.inHand then 1 else 0) <= |s.slots|
    && Notices(s.queue) == Range(s.released + (if s.inHand then 1 else 0), |s.slots|)
    && s.admitted + InUse(s, IsInput) <= INPUT_SLOTS && InUse(s, IsRejection) <= REJECTION_SLOTS
  }

  ghost predicate Inv(s: State) {
    Ordered(s) && InRound(s) && Shaped(s) && Reserved(s)
  }

  // ---- Steps ----

  lemma NoticesSnoc(queue: seq<Entry>, e: Entry)
    ensures Notices(queue + [e]) == Notices(queue) + if e.Notice? then [e.id] else []
  {
    assert (queue + [e])[..|queue|] == queue;
  }

  lemma {:induction false} NoticesTail(queue: seq<Entry>)
    requires queue != []
    ensures Notices(queue) == (if queue[0].Notice? then [queue[0].id] else []) + Notices(queue[1..])
  {
    var n := |queue| - 1;
    if n == 0 {
      assert queue[..0] == [] && queue[1..] == [];
    } else {
      NoticesTail(queue[..n]);
      assert queue[1..] == queue[..n][1..] + [queue[n]];
      NoticesSnoc(queue[..n][1..], queue[n]);
    }
  }

  /** A new entry at the tail. */
  lemma EnqueueOrders(s: State, e: Entry)
    requires Ordered(s) && InRound(s) && e.serial == s.next
    ensures var t := s.(queue := s.queue + [e], next := s.next + 1); Ordered(t) && InRound(t)
  {
  }

  /** An entry that is no notice. */
  lemma EnqueueReserves(s: State, e: Entry)
    requires Reserved(s) && !e.Notice?
    ensures Reserved(s.(queue := s.queue + [e], next := s.next + 1, marked := s.marked || e.Marker?))
  {
    NoticesSnoc(s.queue, e);
    hide Notices;
  }

  lemma EnqueueShapes(s: State, e: Entry)
    requires Shaped(s) && !s.closed && !(e.Marker? && s.marked)
    requires e.Aggregate? ==> s.queue == [] || !s.queue[|s.queue| - 1].Aggregate?
    ensures Shaped(s.(queue := s.queue + [e], next := s.next + 1, marked := s.marked || e.Marker?))
  {
    var t := s.(queue := s.queue + [e], next := s.next + 1, marked := s.marked || e.Marker?);
    assert forall i :: 0 <= i < |s.queue| ==> t.queue[i] == s.queue[i];
    assert t.queue[|s.queue|] == e;
  }

  lemma MarkKeepsInv(s: State)
    requires Inv(s)
    ensures Inv(MarkState(s))
  {
    if !s.closed && !s.marked {
      EnqueueOrders(s, Marker(s.next));
      EnqueueReserves(s, Marker(s.next));
      EnqueueShapes(s, Marker(s.next));
      hide Ordered, InRound, Reserved, Shaped;
      assert MarkState(s) == s.(queue := s.queue + [Marker(s.next)], next := s.next + 1, marked := s.marked || true);
    }
  }

  lemma FoldKeepsInv(s: State)
    requires Inv(s)
    ensures Inv(Fold(s))
  {
    if !s.closed && (s.queue == [] || !s.queue[|s.queue| - 1].Aggregate?) {
      EnqueueOrders(s, Aggregate(s.next));
      EnqueueReserves(s, Aggregate(s.next));
      EnqueueShapes(s, Aggregate(s.next));
      hide Ordered, InRound, Reserved, Shaped;
      assert Fold(s) == s.(queue := s.queue + [Aggregate(s.next)], next := s.next + 1, marked := s.marked || false);
    }
  }

  lemma SlotsSnoc(s: State, slot: Slot, f: Slot -> nat)
    requires s.released <= |s.slots|
    ensures Sum((s.slots + [slot])[s.released..], f) == InUse(s, f) + f(slot)
  {
    assert (s.slots + [slot])[s.released..] == s.slots[s.released..] + [slot];
    SumAppend(s.slots[s.released..], slot, f);
  }

  lemma PushUses(s: State, slot: Slot)
    requires s.released <= |s.slots| && !s.closed
    ensures InUse(PushNotice(s, slot), IsInput) == InUse(s, IsInput) + IsInput(slot)
    ensures InUse(PushNotice(s, slot), IsRejection) == InUse(s, IsRejection) + IsRejection(slot)
  {
    SlotsSnoc(s, slot, IsInput);
    SlotsSnoc(s, slot, IsRejection);
  }

  lemma PushReserves(s: State, slot: Slot)
    requires Reserved(s) && !s.closed
    requires if slot.InputSlot? then s.admitted + InUse(s, IsInput) < INPUT_SLOTS
             else InUse(s, IsRejection) < REJECTION_SLOTS
    ensures Reserved(PushNotice(s, slot))
  {
    PushUses(s, slot);
    NoticesSnoc(s.queue, Notice(s.next, |s.slots|));
    hide Notices, InUse;
    var a := s.released + (if s.inHand then 1 else 0);
    assert Range(a, |s.slots|) + [|s.slots|] == Range(a, |s.slots| + 1);
  }

  lemma PushKeepsInv(s: State, slot: Slot)
    requires Inv(s) && !s.closed
    requires if slot.InputSlot? then s.admitted + InUse(s, IsInput) < INPUT_SLOTS
             else InUse(s, IsRejection) < REJECTION_SLOTS
    ensures Inv(PushNotice(s, slot))
  {
    EnqueueOrders(s, Notice(s.next, |s.slots|));
    PushShapes(s, slot);
    PushReserves(s, slot);
    hide Shaped, Reserved;
  }

  lemma PushShapes(s: State, slot: Slot)
    requires Shaped(s) && !s.closed
    ensures Shaped(PushNotice(s, slot))
  {
    var t := PushNotice(s, slot);
    assert forall i :: 0 <= i < |s.queue| ==> t.queue[i] == s.queue[i];
  }

  lemma {:induction false} SumDrop(slots: seq<Slot>, f: Slot -> nat)
    requires slots != []
    ensures Sum(slots, f) == f(slots[0]) + Sum(slots[1..], f)
  {
    var n := |slots| - 1;
    if n == 0 {
      assert slots[..0] == [] && slots[1..] == [];
    } else {
      SumDrop(slots[..n], f);
      assert slots[..n][1..] == slots[1..][..n - 1];
    }
  }

  lemma DropSlot(s: State, f: Slot -> nat)
    requires s.released < |s.slots|
    ensures Sum(s.slots[s.released + 1..], f) <= InUse(s, f)
  {
    SumDrop(s.slots[s.released..], f);
    assert s.slots[s.released..][1..] == s.slots[s.released + 1..];
  }

  lemma ClosedPushKeepsInv(s: State, slot: Slot)
    requires Inv(s) && s.closed
    ensures Inv(PushNotice(s, slot))
  {
    var t := PushNotice(s, slot);
    assert s.released == |s.slots| by {
      assert |Notices(s.queue)| == |s.slots| - s.released;
    }
    assert t.slots[t.released..] == [];
    assert Range(t.released, |t.slots|) == [];
  }

  lemma ReleaseKeepsInv(s: State)
    requires Inv(s)
    ensures Inv(Release(s))
  {
    if s.inHand {
      DropSlot(s, IsInput);
      DropSlot(s, IsRejection);
    }
  }

  lemma TakeKeepsInv(s: State)
    requires Inv(s)
    ensures Inv(TakeEntry(s))
  {
    if s.left > 0 && !s.inHand {
      TakeShapes(s);
      NoticesTail(s.queue);
      var a := s.released;
      assert a < |s.slots| ==> Range(a, |s.slots|) == [a] + Range(a + 1, |s.slots|);
      TakeOrders(s);
      TakeReserves(s);
      hide Ordered, InRound, Shaped, Reserved;
    }
  }

  lemma TakeOrders(s: State)
    requires Ordered(s) && InRound(s) && s.left > 0 && !s.inHand
    ensures Ordered(TakeEntry(s)) && InRound(TakeEntry(s))
  {
  }

  lemma TakeShapes(s: State)
    requires Shaped(s) && s.left > 0 && !s.inHand && s.queue != []
    ensures Shaped(TakeEntry(s))
  {
    var t := TakeEntry(s);
    assert forall i :: 0 <= i < |t.queue| ==> t.queue[i] == s.queue[i + 1];
    if s.marked && !s.queue[0].Marker? {
      var i :| 0 <= i < |s.queue| && s.queue[i].Marker?;
      assert t.queue[i - 1].Marker?;
    }
  }

  lemma TakeReserves(s: State)
    requires Reserved(s) && s.left > 0 && !s.inHand && s.queue != []
    ensures Reserved(TakeEntry(s))
  {
    NoticesTail(s.queue);
    var e, a := s.queue[0], s.released;
    if e.Notice? {
      assert |Notices(s.queue)| > 0 && a < |s.slots|;
      assert Range(a, |s.slots|) == [a] + Range(a + 1, |s.slots|);
      assert Notices(s.queue[1..]) == Notices(s.queue)[1..];
    } else {
      assert Notices(s.queue[1..]) == Notices(s.queue);
    }
  }

  lemma StepKeepsInv(s: State, l: Label)
    requires Inv(s)
    ensures s.released <= |s.slots| && Inv(Step(s, l))
  {
    assert s.released <= |s.slots|;
    match l
    case Marking => MarkKeepsInv(s);
    case InputAdmitted => AdmitKeepsInv(s);
    case InputSettled => SettledKeepsInv(s);
    case Rejecting =>
      if InUse(s, IsRejection) < REJECTION_SLOTS {
        if s.closed { ClosedPushKeepsInv(s, RejectionSlot); } else { PushKeepsInv(s, RejectionSlot); }
      } else {
        FoldKeepsInv(s);
      }
    case RoundStarting => RoundKeepsInv(s);
    case Taking => TakeKeepsInv(s);
    case Releasing => ReleaseKeepsInv(s);
    case Closing => CloseKeepsInv(s);
    hide Inv, MarkState, AdmitInput, NotifyInput, PushNotice, Fold, TakeEntry, Release, StartRound, TryClose;
  }

  lemma AdmitKeepsInv(s: State)
    requires Inv(s)
    ensures Inv(AdmitInput(s))
  {
    hide Notices;
  }

  lemma SettledKeepsInv(s: State)
    requires Inv(s)
    ensures Inv(NotifyInput(s))
  {
    if s.admitted > 0 {
      var t := s.(admitted := s.admitted - 1);
      assert Inv(t) && InUse(t, IsInput) == InUse(s, IsInput);
      hide Inv, InUse;
      PushKeepsInv(t, InputSlot);
    }
  }

  lemma RoundKeepsInv(s: State)
    requires Inv(s)
    ensures Inv(StartRound(s))
  {
  }

  lemma CloseKeepsInv(s: State)
    requires Inv(s)
    ensures Inv(TryClose(s))
  {
  }

  // ---- The bound ----

  function Waiting(queue: seq<Entry>): nat { |Notices(queue)| }

  function Markers(queue: seq<Entry>): nat {
    if queue == [] then 0 else Markers(queue[..|queue| - 1]) + if queue[|queue| - 1].Marker? then 1 else 0
  }

  lemma {:induction false} AtMostOneMarker(queue: seq<Entry>)
    requires forall i, j :: 0 <= i < j < |queue| ==> !(queue[i].Marker? && queue[j].Marker?)
    ensures Markers(queue) <= 1
    ensures Markers(queue) == 1 ==> exists i :: 0 <= i < |queue| && queue[i].Marker?
  {
    if queue != [] {
      var n := |queue| - 1;
      AtMostOneMarker(queue[..n]);
      if Markers(queue[..n]) == 1 {
        var i :| 0 <= i < n && queue[..n][i].Marker?;
        assert queue[i].Marker?;
      }
    }
  }

  /** No two aggregates adjacent: they are at most one more than the other entries. */
  lemma {:induction false} AggregatesAreSparse(queue: seq<Entry>)
    requires forall i :: 0 <= i < |queue| - 1 ==> !(queue[i].Aggregate? && queue[i + 1].Aggregate?)
    ensures |queue| <= 2 * (Waiting(queue) + Markers(queue))
                       + if queue != [] && queue[|queue| - 1].Aggregate? then 1 else 0
  {
    if queue != [] {
      var n := |queue| - 1;
      AggregatesAreSparse(queue[..n]);
    }
  }

  lemma {:induction false} SlotKinds(slots: seq<Slot>)
    ensures Sum(slots, IsInput) + Sum(slots, IsRejection) == |slots|
  {
    if slots != [] {
      SlotKinds(slots[..|slots| - 1]);
    }
  }

  // ---- Runs ----

  ghost predicate Run(ws: seq<State>, ls: seq<Label>) {
    && |ws| == |ls| + 1
    && ws[0] == Start
    && forall i :: 0 <= i < |ls| ==> Follows(ws[i], ls[i], ws[i + 1])
  }

  predicate Follows(s: State, l: Label, t: State) {
    s.released <= |s.slots| && t == Step(s, l)
  }

  lemma StartIsInv()
    ensures Inv(Start)
  {
    assert Range(0, 0) == [];
  }

  lemma {:induction false} RunKeepsInv(ws: seq<State>, ls: seq<Label>, n: nat)
    requires Run(ws, ls) && n < |ws|
    ensures Inv(ws[n])
  {
    hide Inv, Step;
    if n == 0 {
      StartIsInv();
    } else {
      RunKeepsInv(ws, ls, n - 1);
      assert Follows(ws[n - 1], ls[n - 1], ws[n]);
      StepKeepsInv(ws[n - 1], ls[n - 1]);
    }
  }

  /** With 224 input and 32 rejection slots the queue never exceeds 515 entries. */
  lemma QueueIsBounded(ws: seq<State>, ls: seq<Label>, n: nat)
    requires Run(ws, ls) && n < |ws|
    ensures |ws[n].queue| <= 515
  {
    RunKeepsInv(ws, ls, n);
    var s := ws[n];
    AtMostOneMarker(s.queue);
    AggregatesAreSparse(s.queue);
    SlotKinds(s.slots[s.released..]);
    assert Waiting(s.queue) <= |s.slots| - s.released;
  }

  /** The outcome of every admitted input is queued for the observers: no close comes before it. */
  lemma SettledIsQueued(ws: seq<State>, ls: seq<Label>, n: nat)
    requires Run(ws, ls) && n < |ls| && ls[n].InputSettled? && ws[n].admitted > 0
    ensures ws[n + 1].queue == ws[n].queue + [Notice(ws[n].next, |ws[n].slots|)]
    ensures ws[n + 1].admitted == ws[n].admitted - 1
  {
    RunKeepsInv(ws, ls, n);
    assert Follows(ws[n], ls[n], ws[n + 1]);
    hide Ordered, InRound, Reserved;
  }

  /** A round takes only entries queued before it began, and none out of order. */
  lemma RoundTakesEarlierEntries(ws: seq<State>, ls: seq<Label>, n: nat)
    requires Run(ws, ls) && n < |ls| && ls[n].Taking? && ws[n + 1] != ws[n]
    ensures ws[n].queue != [] && ws[n].queue[0].serial < ws[n].limit
    ensures forall i :: 0 <= i < |ws[n].delivered| ==> ws[n].delivered[i] < ws[n].queue[0].serial
  {
    RunKeepsInv(ws, ls, n);
    assert Follows(ws[n], ls[n], ws[n + 1]);
    hide Shaped, Reserved;
  }

  /** Every reservation is waiting, in hand or released: one of the three, and in order. */
  lemma ReservationsReleasedOnce(ws: seq<State>, ls: seq<Label>, n: nat)
    requires Run(ws, ls) && n < |ws|
    ensures var s := ws[n];
            var hand := if s.inHand then 1 else 0;
            s.released + hand <= |s.slots| && Notices(s.queue) == Range(s.released + hand, |s.slots|)
  {
    RunKeepsInv(ws, ls, n);
  }

  // ---- The notifier's own object ----

  class ObserverQueue {
    var queue: seq<Entry>
    var marked: bool
    var closed: bool
    var admitted: nat
    var slots: seq<Slot>
    var released: nat
    var inHand: bool
    var left: nat
    ghost var next: nat
    ghost var limit: nat
    ghost var delivered: seq<nat>

    ghost function Value(): State
      reads this
    {
      State(queue, marked, closed, next, admitted, slots, released, inHand, left, limit, delivered)
    }

    constructor ()
      ensures Value() == Start
    {
      queue, marked, closed, slots, released, inHand, left := [], false, false, [], 0, false, 0;
      admitted, next, limit, delivered := 0, 0, 0, [];
    }

    /** One marker at most waits; later changes are read when it is reached. */
    method Mark(serial: nat)
      requires serial == next
      modifies this
      ensures Value() == MarkState(old(Value()))
    {
      if closed || marked {
        return;
      }
      marked := true;
      queue := queue + [Marker(serial)];
      next := next + 1;
    }

    method Push(serial: nat, slot: Slot)
      requires serial == next
      modifies this
      ensures Value() == PushNotice(old(Value()), slot)
    {
      slots := slots + [slot];
      if closed {
        released := released + 1;
        return;
      }
      queue := queue + [Notice(serial, |slots| - 1)];
      next := next + 1;
    }

    method TailAggregate(serial: nat)
      requires serial == next
      modifies this
      ensures Value() == Fold(old(Value()))
    {
      if closed || (queue != [] && queue[|queue| - 1].Aggregate?) {
        return;
      }
      queue := queue + [Aggregate(serial)];
      next := next + 1;
    }

    method Shift() returns (e: Option<Entry>)
      modifies this
      ensures Value() == TakeEntry(old(Value()))
      ensures e == if old(left) == 0 || old(inHand) || old(queue) == [] then None else Some(old(queue)[0])
    {
      if left == 0 || inHand || queue == [] {
        return None;
      }
      e := Some(queue[0]);
      queue, left := queue[1..], left - 1;
      delivered := delivered + [e.value.serial];
      if e.value.Marker? {
        marked := false;
      }
      inHand := e.value.Notice?;
    }
  }
}
