/**
 The input path of a terminal controller: accepted inputs are delivered one at a time in acceptance
 order, in chunks, and are held in generations while the controller cannot send. Every await is a
 point at which any other step may happen.
 */
module Inputs {
  import opened Common

  /** The reason an input fails, by whatever name the caller sees it. */
  type Error = nat

  datatype Outcome = Written | Failed(error: Error)

  /**
   An accepted input. Input number `i` has the input ID `i + 1`. `sentTo` records how many of its
   bytes have been passed to socket.send.
   */
  datatype Item = Item(
    total: nat, written: nat, unknown: nat, started: bool, outcome: Option<Outcome>, hold: Option<nat>, sentTo: nat)
  {
    predicate Settled() { outcome.Some? }

    predicate Complete() { outcome == Some(Written) }
  }

  datatype Hold = Hold(unsettled: int, undelivered: int, cause: Option<Error>, closedAfter: nat)

  /** Bytes `[from, to)` of an input, passed to socket.send. */
  datatype Chunk = Chunk(i: nat, from: nat, to: nat)

  /** The pump at the head of the queue: between chunks, or awaiting the lane. */
  datatype Stage = AtGate | InLane(from: nat, to: nat, startedBefore: bool, entered: bool)

  /**
   The queue is the items from `head` on; the outcomes of the first `noticed` have been queued for
   the observers and those of the first `delivered` have reached them.
   */
  datatype State = State(
    items: seq<Item>,
    head: nat,
    stage: Stage,
    retained: int,
    pending: int,
    slots: int,
    noticed: nat,
    delivered: nat,
    holds: seq<Hold>,
    hold: Option<nat>,
    wire: seq<Chunk>,
    cap: nat)

  function Start(cap: nat): State {
    State([], 0, AtGate, 0, 0, 0, 0, 0, [], None, [], cap)
  }

  const MAX_PAYLOAD: nat := 65536
  const MAX_SLOTS: nat := 224

  predicate Wellformed(s: State) {
    && s.head <= |s.items| && s.noticed <= |s.items|
    && (s.hold.Some? ==> s.hold.value < |s.holds|)
    && (forall i :: 0 <= i < |s.items| && s.items[i].hold.Some? ==> s.items[i].hold.value < |s.holds|)
    && (s.stage.InLane? ==> s.head < |s.items| && s.stage.from <= s.stage.to <= s.items[s.head].total)
  }

  // ---- Settlement ----

  /** The first item from `n` on that still has no outcome. */
  function Unsettled(items: seq<Item>, n: nat): (r: nat)
    requires n <= |items|
    ensures n <= r <= |items|
    ensures forall i :: n <= i < r ==> items[i].Settled()
    ensures r < |items| ==> !items[r].Settled()
    decreases |items| - n
  {
    if n < |items| && items[n].Settled() then Unsettled(items, n + 1) else n
  }

  /** One input gets its outcome; outcomes are queued in acceptance order. */
  function Settle(s: State, i: nat, unknown: nat, o: Outcome): State
    requires Wellformed(s) && i < |s.items|
  {
    var item := s.items[i];
    if item.Settled() then s
    else
      var items := s.items[i := item.(outcome := Some(o), unknown := unknown)];
      s.(items := items,
         retained := s.retained - item.total,
         pending := s.pending - 1,
         holds := if item.hold.None? then s.holds
                  else
                    var h := s.holds[item.hold.value];
                    s.holds[item.hold.value := h.(unsettled := h.unsettled - 1)],
         noticed := Unsettled(items, s.noticed))
  }

  predicate Closes(s: State, at: nat)
    requires Wellformed(s)
  {
    s.hold.Some? && (s.holds[s.hold.value].cause.None? || at < s.holds[s.hold.value].closedAfter)
  }

  function Mark(s: State, at: nat, e: Error): State
    requires Wellformed(s) && s.hold.Some?
  {
    s.(holds := s.holds[s.hold.value := s.holds[s.hold.value].(cause := Some(e), closedAfter := at)])
  }

  /** The unsent inputs of the hold `h`, or of any when `h` is absent, accepted after `at`. */
  predicate Swept(s: State, i: nat, h: Option<nat>, at: nat) {
    && i < |s.items| && !s.items[i].Settled() && !s.items[i].started && i + 1 > at
    && (h.Some? ==> s.items[i].hold == h)
  }

  /** Fails them from position `n` on. */
  function Sweep(s: State, n: nat, h: Option<nat>, at: nat, e: Error): (r: State)
    requires Wellformed(s) && n <= |s.items|
    ensures Wellformed(r) && |r.items| == |s.items|
    decreases |s.items| - n
  {
    if n == |s.items| then s
    else Sweep(if Swept(s, n, h, at) then Settle(s, n, s.items[n].unknown, Failed(e)) else s, n + 1, h, at, e)
  }

  /** The prefix rule: everything held behind the gap at `at` fails with its cause. */
  function CloseSuffix(s: State, at: nat, e: Error): (r: State)
    requires Wellformed(s)
    ensures Wellformed(r)
  {
    if !Closes(s, at) then s else Sweep(Mark(s, at, e), s.head, s.hold, at, e)
  }

  function EndHold(s: State): State
    requires Wellformed(s)
  {
    if s.hold.None? then s
    else
      var h := s.holds[s.hold.value];
      if h.unsettled > 0 || (h.cause.Some? && h.undelivered > 0) then s else s.(hold := None)
  }

  /** An input fails; if it belongs to the open hold, that hold closes at its position. */
  function Fail(s: State, i: nat, unknown: nat, e: Error): State
    requires Wellformed(s) && i < |s.items|
  {
    if s.items[i].Settled() then s
    else
      var held := s.hold.Some? && s.items[i].hold == s.hold;
      var m := if held && Closes(s, i + 1) then Mark(s, i + 1, e) else s;
      var t := Settle(m, i, unknown, Failed(e));
      EndHold(if held && Closes(s, i + 1) then Sweep(t, s.head, s.hold, i + 1, e) else t)
  }

  // ---- Admission and holds ----

  function Joined(items: seq<Item>, h: nat, n: nat): (r: seq<Item>)
    requires n <= |items|
    ensures |r| == |items|
    ensures forall i :: 0 <= i < |items| ==>
              r[i] == if i >= n && !items[i].Settled() && items[i].hold.None?
                      then items[i].(hold := Some(h)) else items[i]
  {
    seq(|items|, i requires 0 <= i < |items| =>
      if i >= n && !items[i].Settled() && items[i].hold.None? then items[i].(hold := Some(h)) else items[i])
  }

  function Barrier(items: seq<Item>, n: nat): (c: nat)
    requires n <= |items|
    decreases |items| - n
  {
    if n == |items| then 0
    else (if !items[n].Settled() && items[n].hold.None? then 1 else 0) + Barrier(items, n + 1)
  }

  /** Opens a hold over every queued unsettled input, unless one is open. */
  function OpenHold(s: State): (r: State)
    requires Wellformed(s)
    ensures Wellformed(r) && r.hold.Some?
  {
    if s.hold.Some? then s
    else
      var n := Barrier(s.items, s.head);
      s.(items := Joined(s.items, |s.holds|, s.head),
         holds := s.holds + [Hold(n, n, None, 0)],
         hold := Some(|s.holds|))
  }

  function JoinHold(s: State): State
    requires Wellformed(s) && s.hold.Some?
  {
    var h := s.holds[s.hold.value];
    s.(holds := s.holds[s.hold.value := h.(unsettled := h.unsettled + 1, undelivered := h.undelivered + 1)])
  }

  /** A new input, last in the queue and in the open hold, if there is one. */
  function Append(s: State, total: nat): State
    requires Wellformed(s)
  {
    var t := if s.hold.Some? then JoinHold(s) else s;
    t.(items := t.items + [Item(total, 0, 0, false, None, t.hold, 0)],
       retained := t.retained + total,
       pending := t.pending + 1,
       slots := t.slots + 1)
  }

  function Accept(s: State, total: nat, sendable: bool): State
    requires Wellformed(s)
  {
    Append(if sendable then s else OpenHold(s), total)
  }

  /** Admission; a capacity rejection closes an open hold to what comes later. */
  function Admit(s: State, total: nat, sendable: bool, e: Error): State
    requires Wellformed(s)
  {
    if total < 1 || (s.hold.Some? && s.holds[s.hold.value].cause.Some?) then s
    else if s.retained + total > s.cap || s.slots >= MAX_SLOTS then CloseSuffix(s, |s.items|, e)
    else Accept(s, total, sendable)
  }

  /** A recovery begins with inputs unsettled. */
  function HoldAll(s: State): State
    requires Wellformed(s)
  {
    if forall i :: s.head <= i < |s.items| ==> s.items[i].Settled() then s else OpenHold(s)
  }

  /** The focus that the held inputs wait for has failed. */
  function FailHeld(s: State, e: Error): State
    requires Wellformed(s)
  {
    if s.hold.None? then s
    else EndHold(Sweep(MarkStart(s, e), s.head, s.hold, 0, e))
  }

  /** Closing from the start keeps the first such cause. */
  function MarkStart(s: State, e: Error): State
    requires Wellformed(s) && s.hold.Some?
  {
    var h := s.holds[s.hold.value];
    Mark(s, 0, if h.cause.None? || h.closedAfter > 0 then e else h.cause.value)
  }

  /** Target loss, a fatal view, a replaced view or retirement. */
  function FailUnsent(s: State, e: Error): State
    requires Wellformed(s)
  {
    EndHold(Sweep(if s.hold.Some? then MarkStart(s, e) else s, s.head, None, 0, e))
  }

  // ---- Delivery ----

  /** The gate as far as the input path decides it; authority and deadlines may still refuse. */
  predicate MayGo(s: State)
    requires Wellformed(s)
  {
    && s.head < |s.items| && !s.items[s.head].Settled()
    && (s.items[s.head].hold.Some? ==>
          var h := s.holds[s.items[s.head].hold.value];
          !(h.cause.Some? && s.head + 1 > h.closedAfter))
  }

  function Min(a: nat, b: nat): nat { if a < b then a else b }

  /** The next chunk is given to the lane. */
  function Offer(s: State): State
    requires Wellformed(s)
  {
    if !s.stage.AtGate? || !MayGo(s) then s
    else
      var item := s.items[s.head];
      if item.written > item.total then s
      else s.(stage := InLane(item.written, Min(item.total, item.written + MAX_PAYLOAD), item.started, false))
  }

  /** The lane's last check: the chunk enters the socket, if there is one, or is refused. */
  function Enter(s: State, socket: bool): State
    requires Wellformed(s)
  {
    if !s.stage.InLane? || s.stage.entered || !MayGo(s) then s
    else
      var item := s.items[s.head];
      var t := s.(items := s.items[s.head := item.(started := true)]);
      if !socket then t
      else t.(items := t.items[s.head := item.(started := true, sentTo := s.stage.to)],
              wire := s.wire + [Chunk(s.head, s.stage.from, s.stage.to)],
              stage := s.stage.(entered := true))
  }

  /** The lane's outcome is a failure; an unsent chunk of an unstarted input may go back to the gate. */
  function LaneFailed(s: State, uncertain: bool, retry: bool, e: Error): State
    requires Wellformed(s)
  {
    if !s.stage.InLane? || (uncertain && !s.stage.entered) then s
    else
      var t := s.(stage := AtGate);
      if s.items[s.head].Settled() then t
      else if !s.stage.entered && !s.stage.startedBefore && retry then t
      else
        var more := if uncertain then s.stage.to - s.stage.from else 0;
        Fail(t, s.head, s.items[s.head].unknown + more, e)
  }

  /** The lane's outcome is a result that reports `length` bytes written. */
  function LaneResult(s: State, length: nat, e: Error): State
    requires Wellformed(s)
  {
    if !s.stage.InLane? || !s.stage.entered then s
    else
      var t := s.(stage := AtGate);
      var item, size := s.items[s.head], s.stage.to - s.stage.from;
      if item.Settled() then t
      else if length > size then Fail(t, s.head, item.unknown + size, e)
      else
        var w := t.(items := t.items[s.head := item.(written := item.written + length)]);
        if length < size then Fail(w, s.head, item.unknown + (size - length), e)
        else if item.written + length == item.total then EndHold(Settle(w, s.head, item.unknown, Written))
        else w
  }

  function GateFailed(s: State, e: Error): State
    requires Wellformed(s)
  {
    if !s.stage.AtGate? || s.head >= |s.items| || s.items[s.head].Settled() then s
    else Fail(s, s.head, s.items[s.head].unknown, e)
  }

  function Pop(s: State): State
    requires Wellformed(s)
  {
    if !s.stage.AtGate? || s.head >= |s.items| || !s.items[s.head].Settled() then s
    else s.(head := s.head + 1)
  }

  /** The hold of the oldest undelivered outcome, if it has one, waits for one fewer. */
  function Released(s: State): State
    requires Wellformed(s) && s.delivered < s.noticed
  {
    var h := s.items[s.delivered].hold;
    if h.None? then s
    else s.(holds := s.holds[h.value := s.holds[h.value].(undelivered := s.holds[h.value].undelivered - 1)])
  }

  /** The oldest queued outcome reaches the observers and its slot is free again. */
  function Deliver(s: State): State
    requires Wellformed(s)
  {
    if s.delivered >= s.noticed then s
    else EndHold(Released(s).(delivered := s.delivered + 1, slots := s.slots - 1))
  }

  // ---- Steps ----

  datatype Label =
    | Admitting(total: nat, sendable: bool, error: Error)
    | RendererRejected(error: Error)
    | Recovering
    | FocusFailed(error: Error)
    | TargetLost(error: Error)
    | Offering
    | Entering(socket: bool)
    | LaneFailing(uncertain: bool, retry: bool, error: Error)
    | LaneAnswering(length: nat, error: Error)
    | GateRefusing(error: Error)
    | Popping
    | Delivering

  function Step(s: State, l: Label): State
    requires Wellformed(s)
  {
    match l
    case Admitting(total, sendable, e) => Admit(s, total, sendable, e)
    case RendererRejected(e) => CloseSuffix(s, |s.items|, e)
    case Recovering => HoldAll(s)
    case FocusFailed(e) => FailHeld(s, e)
    case TargetLost(e) => FailUnsent(s, e)
    case Offering => Offer(s)
    case Entering(socket) => Enter(s, socket)
    case LaneFailing(uncertain, retry, e) => LaneFailed(s, uncertain, retry, e)
    case LaneAnswering(length, e) => LaneResult(s, length, e)
    case GateRefusing(e) => GateFailed(s, e)
    case Popping => Pop(s)
    case Delivering => Deliver(s)
  }
}
