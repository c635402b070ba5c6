/**
 The ordered lane: the one send path of a terminal connection. It correlates replies, schedules
 outbound commands and proves, for each failed command, whether its bytes ever entered the socket.
 Sender callbacks and the socket are foreign code, so a flush is cut into steps at every call out.
 */
module Lane {
  import opened Common

  datatype Kind =
    | Attach | Recover | Detach | Focus | Blur | Resize | Appearance
    | AppliedAck | BaselineProgress | Input | Preview

  datatype Command = Command(
    requestId: string, kind: Kind, subscription: Option<SubscriptionRef>, bytes: nat)

  /** The scheduling key: one per subscription, and one per command that has none. */
  datatype Key = OfRoute(ref: SubscriptionRef) | OfRequest(requestId: string)

  function KeyOf(c: Command): Key {
    if c.subscription.Some? then OfRoute(c.subscription.value) else OfRequest(c.requestId)
  }

  /** Input and previews: what the reserved slots and bytes are kept free of. */
  predicate Ordinary(c: Command) { c.kind.Input? || c.kind.Preview? }

  datatype Outcome = Ok(transfer: bool) | Failed(uncertain: bool, sent: bool)

  datatype Verdict = Success(transfer: bool) | Failure(uncertain: bool)

  /** A command the lane took, from admission to settlement and beyond. */
  datatype Entry = Entry(command: Command, attempting: bool, handedOff: bool, outcome: Option<Outcome>)
  {
    predicate Settled() { outcome.Some? }

    predicate Sent() { attempting || handedOff }
  }

  /** Where a flush stands between two calls to foreign code. */
  datatype Stage = Idle | Choosing | Checking(h: nat) | Sending(h: nat)

  /**
   A command is named by its index in `entries`. `pushed` gives for each command put on the
   outbound queue how many were put there before it; `wire` and `settlements` record, in order,
   every call of socket.send and every settlement.
   */
  datatype State = State(
    entries: seq<Entry>,
    pending: map<string, nat>,
    held: set<string>,
    outbound: seq<nat>,
    retained: int,
    lastSent: Option<Key>,
    stage: Stage,
    socket: bool,
    outCap: nat,
    controlCap: nat,
    pushed: map<nat, nat>,
    wire: seq<nat>,
    settlements: seq<nat>)

  const Start: State := State([], map[], {}, [], 0, None, Idle, false, 0, 0, map[], [], [])

  const MAX_PENDING: nat := 256
  const RESERVED: nat := 32

  // ---- Accounting ----

  function Slot(e: Entry): nat { if e.Settled() then 0 else 1 }

  function Bytes(e: Entry): nat { if e.Settled() then 0 else e.command.bytes }

  function OrdinarySlot(e: Entry): nat { if Ordinary(e.command) then Slot(e) else 0 }

  function OrdinaryBytes(e: Entry): nat { if Ordinary(e.command) then Bytes(e) else 0 }

  function ControlSlot(e: Entry): nat { if Ordinary(e.command) then 0 else Slot(e) }

  function ControlBytes(e: Entry): nat { if Ordinary(e.command) then 0 else Bytes(e) }

  // ---- Steps ----

  /** Whether a send is taken, by identity, slots and bytes. */
  predicate Admits(s: State, c: Command) {
    && s.socket
    && c.requestId !in s.pending
    && c.requestId !in s.held
    && |s.pending| + |s.held| < MAX_PENDING
    && (Ordinary(c) ==> |s.held| + Sum(s.entries, OrdinarySlot) < MAX_PENDING - RESERVED)
    && s.retained + c.bytes <= s.outCap + s.controlCap
    && (Ordinary(c) ==> s.retained + c.bytes <= s.outCap)
  }

  function Admit(s: State, c: Command): State {
    if !Admits(s, c) then s
    else s.(entries := s.entries + [Entry(c, false, false, None)],
            pending := s.pending[c.requestId := |s.entries|],
            retained := s.retained + c.bytes)
  }

  /** The push after the deadline timer was set, unless the command has settled meanwhile. */
  function Push(s: State, h: nat): State {
    if h >= |s.entries| || h in s.pushed || s.entries[h].Settled() then s
    else s.(outbound := s.outbound + [h], pushed := s.pushed[h := |s.pushed|])
  }

  /** Settlement, at most once; `sent` is decided here and only here. */
  function Settle(s: State, h: nat, v: Verdict): State
    requires h < |s.entries|
  {
    var e := s.entries[h];
    if e.Settled() then s
    else
      var id := e.command.requestId;
      var o := if v.Success? then Ok(v.transfer) else Failed(v.uncertain, e.Sent());
      s.(entries := s.entries[h := e.(outcome := Some(o))],
         held := if e.command.kind.Preview? && v == Success(true) then s.held + {id} else s.held,
         pending := s.pending - {id},
         retained := s.retained - e.command.bytes,
         settlements := s.settlements + [h])
  }

  function NotifyHandoff(s: State, h: nat): State
    requires h < |s.entries|
  {
    s.(entries := s.entries[h := s.entries[h].(handedOff := true)])
  }

  // ---- Which command goes next ----

  /** The least index from `i` that satisfies `p`, or `n`. */
  function Least(n: nat, p: nat -> bool, i: nat): (r: nat)
    requires i <= n
    ensures i <= r <= n
    ensures r < n ==> p(r)
    ensures forall j :: i <= j < r ==> !p(j)
    decreases n - i
  {
    if i == n then n else if p(i) then i else Least(n, p, i + 1)
  }

  predicate Wellformed(s: State) {
    && (forall i :: 0 <= i < |s.outbound| ==> s.outbound[i] < |s.entries|)
    && (forall id :: id in s.pending ==> s.pending[id] < |s.entries|)
    && (s.stage.Checking? || s.stage.Sending? ==> s.stage.h < |s.entries|)
  }

  function KeyAt(s: State, i: nat): Key
    requires Wellformed(s) && i < |s.outbound|
  {
    KeyOf(s.entries[s.outbound[i]].command)
  }

  /** No command of the same route is ahead in the queue. */
  predicate FirstOfRoute(s: State, i: nat)
    requires Wellformed(s)
  {
    i < |s.outbound| && forall j :: 0 <= j < i ==> KeyAt(s, j) != KeyAt(s, i)
  }

  predicate Candidate(s: State, i: nat)
    requires Wellformed(s)
  {
    FirstOfRoute(s, i) && !s.entries[s.outbound[i]].Settled()
  }

  predicate OtherRoute(s: State, i: nat)
    requires Wellformed(s)
  {
    Candidate(s, i) && s.lastSent != Some(KeyAt(s, i))
  }

  /** Routes other than the last one served, if any of them has a candidate. */
  predicate InPool(s: State, i: nat)
    requires Wellformed(s)
  {
    Candidate(s, i)
    && (s.lastSent == Some(KeyAt(s, i)) ==> !exists j :: 0 <= j < |s.outbound| && OtherRoute(s, j))
  }

  predicate ControlInPool(s: State, i: nat)
    requires Wellformed(s)
  {
    InPool(s, i) && !Ordinary(s.entries[s.outbound[i]].command)
  }

  /** The first control command of the pool, else its first command, else the head. */
  function Next(s: State): (i: nat)
    requires Wellformed(s) && s.outbound != []
    ensures FirstOfRoute(s, i)
  {
    var n := |s.outbound|;
    var control := Least(n, (i: nat) => ControlInPool(s, i), 0);
    var first := Least(n, (i: nat) => InPool(s, i), 0);
    if control < n then control else if first < n then first else 0
  }

  /** A settled command is only taken when nothing sendable is first of its route. */
  lemma NextIsSendable(s: State, j: nat)
    requires Wellformed(s) && j < |s.outbound| && Candidate(s, j)
    ensures InPool(s, Next(s))
  {
    var p := (i: nat) => InPool(s, i);
    if k :| 0 <= k < |s.outbound| && OtherRoute(s, k) {
      assert p(k);
    } else {
      assert p(j);
    }
  }

  /** Control overtakes ordinary work of other routes, and among equals the earliest goes first. */
  lemma NextIsEarliest(s: State, j: nat)
    requires Wellformed(s) && j < |s.outbound| && InPool(s, j)
    ensures ControlInPool(s, j) ==> ControlInPool(s, Next(s)) && Next(s) <= j
    ensures !ControlInPool(s, Next(s)) ==> Next(s) <= j
  {
    var p, q := (i: nat) => InPool(s, i), (i: nat) => ControlInPool(s, i);
    assert p(j) && q(j) == ControlInPool(s, j);
    var n := |s.outbound|;
    assert Least(n, p, 0) <= j;
    assert q(j) ==> Least(n, q, 0) <= j;
    assert Least(n, q, 0) < n ==> q(Least(n, q, 0));
  }

  // ---- The flush ----

  function Take(s: State): State
    requires Wellformed(s)
  {
    if !s.stage.Choosing? then s
    else if s.outbound == [] then s.(stage := Idle)
    else
      var i := Next(s);
      var h := s.outbound[i];
      s.(outbound := s.outbound[..i] + s.outbound[i + 1..],
         stage := if s.entries[h].Settled() then Choosing else Checking(h))
  }

  /** The sender's check returned, and the command enters the socket if it may. */
  function Checked(s: State, eligible: bool): State
    requires Wellformed(s)
  {
    if !s.stage.Checking? then s
    else if !eligible || !s.socket then Settle(s, s.stage.h, Failure(false)).(stage := Choosing)
    else
      var h, e := s.stage.h, s.entries[s.stage.h];
      s.(entries := s.entries[h := e.(attempting := true)],
         lastSent := if e.command.subscription.Some? then Some(KeyOf(e.command)) else s.lastSent,
         wire := s.wire + [h],
         stage := Sending(h))
  }

  /** socket.send returned. */
  function Returned(s: State, handedOff: bool): State
    requires Wellformed(s)
  {
    if !s.stage.Sending? then s
    else
      var h := s.stage.h;
      var r := if s.entries[h].Settled() then s
               else if handedOff then NotifyHandoff(s, h)
               else Settle(s, h, Failure(true));
      r.(stage := Choosing)
  }

  // ---- Settlement from outside a flush ----

  /** A result or an error reply; a result proves the handoff first. */
  function Reply(s: State, requestId: string, v: Verdict): State
    requires Wellformed(s)
  {
    if requestId !in s.pending then s
    else
      var h := s.pending[requestId];
      Settle(if v.Success? then NotifyHandoff(s, h) else s, h, v)
  }

  /** The deadline, and closing: a command that entered the socket fails as uncertain. */
  function Expire(s: State, h: nat): State {
    if h >= |s.entries| then s else Settle(s, h, Failure(s.entries[h].Sent()))
  }

  function CancelUnsent(s: State, h: nat): State {
    if h >= |s.entries| || s.entries[h].Sent() then s else Settle(s, h, Failure(false))
  }

  function CancelPreview(s: State, requestId: string): State
    requires Wellformed(s)
  {
    var t := s.(held := s.held - {requestId});
    if requestId in t.pending && t.entries[t.pending[requestId]].command.kind.Preview?
    then Expire(t, t.pending[requestId])
    else t
  }

  /** What closing clears once every pending command has been settled. */
  function Clear(s: State): State {
    s.(held := {}, outbound := [], lastSent := None)
  }
}
