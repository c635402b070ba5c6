/**
 Every run of the lane: its accounting is exact, a route's commands reach the socket in the order
 they were queued, every command settles once, and the exact case in which a command reported as
 unsent was passed to the socket all the same.
 */
module LaneRuns {
  import opened Common
  import opened Lane

  /** A flush, cut at its calls to the sender's check and to the socket. */
  datatype FlushLabel = Started | Took | CheckedAs(eligible: bool) | ReturnedAs(handedOff: bool)

  /** What timers, replies and cancellations do to one command at any moment. */
  datatype CommandLabel = HandedOff | Expired | TimerFailed | Cancelled

  datatype ConnectionLabel = Cleared | Disconnected | Connected(outCap: nat, controlCap: nat)

  datatype Label =
    | Admitting(command: Command)
    | Pushing(h: nat)
    | Flushing(flush: FlushLabel)
    | Replying(requestId: string, verdict: Verdict)
    | CancellingPreview(requestId: string)
    | On(h: nat, action: CommandLabel)
    | Connection(connection: ConnectionLabel)

  // ---- The invariant ----

  /** Pending commands are exactly the unsettled ones, and every total is what they add up to. */
  ghost predicate Accounted(s: State) {
    && (forall id :: id in s.pending ==> Names(s, id))
    && (forall h :: 0 <= h < |s.entries| ==> Filed(s, h))
    && s.held !! s.pending.Keys
    && |s.pending| == Sum(s.entries, Slot)
    && s.retained == Sum(s.entries, Bytes)
  }

  predicate Names(s: State, id: string)
    requires id in s.pending
  {
    var h := s.pending[id];
    h < |s.entries| && s.entries[h].command.requestId == id && !s.entries[h].Settled()
  }

  predicate Filed(s: State, h: nat)
    requires h < |s.entries|
  {
    !s.entries[h].Settled() ==>
      var id := s.entries[h].command.requestId;
      id in s.pending && s.pending[id] == h
  }

  /** Slots and bytes stay within the limits, and ordinary work never enters the reserve. */
  predicate Bounded(s: State) {
    && |s.pending| + |s.held| <= MAX_PENDING
    && |s.held| + Sum(s.entries, OrdinarySlot) <= MAX_PENDING - RESERVED
    && s.retained <= s.outCap + s.controlCap
    && Sum(s.entries, OrdinaryBytes) <= s.outCap
  }

  /** Each command is settled as often as its outcome says: never or once. */
  ghost predicate Once(s: State) {
    && (forall h: nat :: h in s.settlements <==> h < |s.entries| && s.entries[h].Settled())
    && (forall i, j :: 0 <= i < j < |s.settlements| ==> s.settlements[i] != s.settlements[j])
  }

  /** Everything named is a command, and what is queued, in hand or on the wire was pushed. */
  ghost predicate Known(s: State) {
    && Wellformed(s)
    && (forall h :: h in s.pushed ==> h < |s.entries| && s.pushed[h] < |s.pushed|)
    && (forall i :: 0 <= i < |s.outbound| ==> s.outbound[i] in s.pushed)
    && (forall i :: 0 <= i < |s.wire| ==> s.wire[i] in s.pushed)
    && (s.stage.Checking? || s.stage.Sending? ==> s.stage.h in s.pushed)
  }

  /** `a` was queued before `b`, if they belong to one route. */
  predicate InTurn(s: State, a: nat, b: nat) {
    && a in s.pushed && b in s.pushed && a < |s.entries| && b < |s.entries|
    && (KeyOf(s.entries[a].command) == KeyOf(s.entries[b].command) ==> s.pushed[a] < s.pushed[b])
  }

  ghost predicate Ordered(s: State) {
    && (forall i, j :: 0 <= i < j < |s.outbound| ==> InTurn(s, s.outbound[i], s.outbound[j]))
    && (forall i, j :: 0 <= i < j < |s.wire| ==> InTurn(s, s.wire[i], s.wire[j]))
    && (forall i, j :: 0 <= i < |s.wire| && 0 <= j < |s.outbound| ==>
          InTurn(s, s.wire[i], s.outbound[j]))
    && (s.stage.Checking? ==>
          && (forall i :: 0 <= i < |s.wire| ==> InTurn(s, s.wire[i], s.stage.h))
          && (forall j :: 0 <= j < |s.outbound| ==> InTurn(s, s.stage.h, s.outbound[j])))
  }

  /** `attempting` is exactly having been passed to socket.send. */
  ghost predicate Attempted(s: State) {
    forall h :: 0 <= h < |s.entries| ==> (s.entries[h].attempting <==> h in s.wire)
  }

  ghost predicate Inv(s: State) {
    Known(s) && Accounted(s) && Bounded(s) && Once(s) && Ordered(s) && Attempted(s)
  }

  // ---- Steps ----

  function Step(s: State, l: Label): State
    requires Wellformed(s)
  {
    match l
    case Admitting(c) => Admit(s, c)
    case Pushing(h) => Push(s, h)
    case Flushing(f) => FlushStep(s, f)
    case Replying(id, v) => Reply(s, id, v)
    case CancellingPreview(id) => CancelPreview(s, id)
    case On(h, a) => CommandStep(s, h, a)
    case Connection(c) => ConnectionStep(s, c)
  }

  function FlushStep(s: State, f: FlushLabel): State
    requires Wellformed(s)
  {
    match f
    case Started => if s.stage.Idle? && s.outbound != [] then s.(stage := Choosing) else s
    case Took => Take(s)
    case CheckedAs(b) => Checked(s, b)
    case ReturnedAs(b) => Returned(s, b)
  }

  function CommandStep(s: State, h: nat, a: CommandLabel): State {
    if h >= |s.entries| then s
    else match a
      case HandedOff => if s.entries[h].Settled() then s else NotifyHandoff(s, h)
      case Expired => Expire(s, h)
      case TimerFailed => Settle(s, h, Failure(false))
      case Cancelled => CancelUnsent(s, h)
  }

  /** A connection is only replaced once nothing is pending. */
  function ConnectionStep(s: State, c: ConnectionLabel): State {
    match c
    case Cleared => Clear(s)
    case Disconnected => s.(socket := false)
    case Connected(o, r) =>
      if s.pending == map[] then s.(socket := true, outCap := o, controlCap := r) else s
  }

  // ---- Sums ----

  lemma {:induction false} SumParts(es: seq<Entry>)
    ensures Sum(es, Slot) == Sum(es, OrdinarySlot) + Sum(es, ControlSlot)
    ensures Sum(es, Bytes) == Sum(es, OrdinaryBytes) + Sum(es, ControlBytes)
  {
    if es != [] {
      SumParts(es[..|es| - 1]);
    }
  }

  // ---- Admission ----

  lemma AdmitKeepsAccounts(s: State, c: Command)
    requires Accounted(s) && Bounded(s)
    ensures Accounted(Admit(s, c)) && Bounded(Admit(s, c))
  {
    if Admits(s, c) {
      var e := Entry(c, false, false, None);
      SumAppend(s.entries, e, Slot);
      SumAppend(s.entries, e, Bytes);
      SumAppend(s.entries, e, OrdinarySlot);
      SumAppend(s.entries, e, OrdinaryBytes);
      SumParts(s.entries);
      var t := Admit(s, c);
      forall id | id in t.pending ensures Names(t, id) {
        assert id != c.requestId ==> Names(s, id);
      }
      forall h | 0 <= h < |t.entries| ensures Filed(t, h) {
        assert h < |s.entries| ==> Filed(s, h);
      }
    }
  }

  /** The reserve does what it is for: a control command is admitted whatever ordinary work waits. */
  lemma ControlAdmitted(s: State, c: Command)
    requires Inv(s) && s.socket && !Ordinary(c)
    requires c.requestId !in s.pending && c.requestId !in s.held
    requires Sum(s.entries, ControlSlot) < RESERVED
    requires Sum(s.entries, ControlBytes) + c.bytes <= s.controlCap
    ensures Admits(s, c)
  {
    SumParts(s.entries);
  }

  // ---- Settlement ----

  lemma SettleKeepsAccounts(s: State, h: nat, v: Verdict)
    requires Accounted(s) && Bounded(s) && h < |s.entries|
    ensures Accounted(Settle(s, h, v)) && Bounded(Settle(s, h, v))
  {
    var e := s.entries[h];
    if !e.Settled() {
      var t := Settle(s, h, v);
      var e' := t.entries[h];
      assert Filed(s, h);
      SumUpdate(s.entries, h, e', Slot);
      SumUpdate(s.entries, h, e', Bytes);
      SumUpdate(s.entries, h, e', OrdinarySlot);
      SumUpdate(s.entries, h, e', OrdinaryBytes);
      SettleFiles(s, h, v);
      assert s.pending.Keys == t.pending.Keys + {e.command.requestId};
      assert |s.pending| == |t.pending| + 1 by {
        assert |s.pending.Keys| == |t.pending.Keys| + 1;
      }
    }
  }

  lemma SettleFiles(s: State, h: nat, v: Verdict)
    requires Accounted(s) && h < |s.entries| && !s.entries[h].Settled()
    ensures forall id :: id in Settle(s, h, v).pending ==> Names(Settle(s, h, v), id)
    ensures forall k :: 0 <= k < |s.entries| ==> Filed(Settle(s, h, v), k)
  {
    var t := Settle(s, h, v);
    assert Filed(s, h);
    forall id | id in t.pending ensures Names(t, id) {
      assert Names(s, id);
    }
    forall k | 0 <= k < |s.entries| ensures Filed(t, k) {
      assert Filed(s, k);
    }
  }

  lemma SettleKeepsOnce(s: State, h: nat, v: Verdict)
    requires Once(s) && h < |s.entries|
    ensures Once(Settle(s, h, v))
  {
    var t := Settle(s, h, v);
    if !s.entries[h].Settled() {
      assert h !in s.settlements;
      forall k: nat ensures k in t.settlements <==> k < |t.entries| && t.entries[k].Settled() {
        assert k in t.settlements <==> k in s.settlements || k == h;
      }
    }
  }

  /** Two states with the same commands, queue, wire and hand are equally well ordered. */
  lemma SameOrder(s: State, t: State)
    requires Known(s) && Ordered(s)
    requires |s.entries| <= |t.entries|
    requires forall h :: 0 <= h < |s.entries| ==> t.entries[h].command == s.entries[h].command
    requires t.outbound == s.outbound && t.wire == s.wire && t.pushed == s.pushed
    requires t.stage == s.stage || t.stage.Idle? || t.stage.Choosing?
    ensures Ordered(t)
    ensures Wellformed(t) ==> Known(t)
  {
    assert forall a, b :: InTurn(s, a, b) ==> InTurn(t, a, b);
  }

  lemma SettleKeepsInv(s: State, h: nat, v: Verdict)
    requires Inv(s) && h < |s.entries|
    ensures Inv(Settle(s, h, v))
  {
    var t := Settle(s, h, v);
    SettleKeepsOrder(s, h, v);
    SettleKeepsAccounts(s, h, v);
    SettleKeepsOnce(s, h, v);
    hide Accounted, Bounded, Once, Ordered, Known, Settle;
  }

  lemma SettleKeepsOrder(s: State, h: nat, v: Verdict)
    requires Known(s) && Ordered(s) && Attempted(s) && h < |s.entries|
    ensures Known(Settle(s, h, v)) && Ordered(Settle(s, h, v)) && Attempted(Settle(s, h, v))
  {
    hide Ordered;
    SameOrder(s, Settle(s, h, v));
  }

  lemma HandoffKeepsInv(s: State, h: nat)
    requires Inv(s) && h < |s.entries|
    ensures Inv(NotifyHandoff(s, h))
  {
    var t := NotifyHandoff(s, h);
    FlagsKeepAccounts(s, t, h);
    FlagsKeepOnce(s, t, h);
    hide Accounted, Bounded, Ordered, Once;
    SameOrder(s, t);
  }

  /** `t` has the commands of `s`, with other flags on one of them. */
  predicate Reflagged(s: State, t: State, h: nat) {
    && h < |s.entries| == |t.entries|
    && t.entries == s.entries[h := t.entries[h]]
    && t.entries[h].command == s.entries[h].command
    && t.entries[h].outcome == s.entries[h].outcome
  }

  lemma FlagsKeepOnce(s: State, t: State, h: nat)
    requires Once(s) && Reflagged(s, t, h) && t.settlements == s.settlements
    ensures Once(t)
  {
    assert forall k: nat :: k < |s.entries| ==> t.entries[k].Settled() == s.entries[k].Settled();
  }

  /** Marking an attempt or a handoff moves no slot and no byte. */
  lemma FlagsKeepAccounts(s: State, t: State, h: nat)
    requires Accounted(s) && Bounded(s)
    requires Reflagged(s, t, h)
    requires t.pending == s.pending && t.held == s.held && t.retained == s.retained
    requires t.outCap == s.outCap && t.controlCap == s.controlCap
    ensures Accounted(t) && Bounded(t)
  {
    SumUpdate(s.entries, h, t.entries[h], Slot);
    SumUpdate(s.entries, h, t.entries[h], Bytes);
    SumUpdate(s.entries, h, t.entries[h], OrdinarySlot);
    SumUpdate(s.entries, h, t.entries[h], OrdinaryBytes);
    forall id | id in t.pending ensures Names(t, id) {
      assert Names(s, id);
    }
    forall k | 0 <= k < |t.entries| ensures Filed(t, k) {
      assert Filed(s, k);
    }
  }

  // ---- Every step keeps the invariant ----

  lemma AdmitKeepsInv(s: State, c: Command)
    requires Inv(s)
    ensures Inv(Admit(s, c))
  {
    AdmitKeepsAccounts(s, c);
    AdmitKeepsOnce(s, c);
    AdmitKeepsOrder(s, c);
    AdmitAttempts(s, c);
    hide Known, Accounted, Bounded, Once, Ordered, Attempted, Admit;
  }

  lemma AdmitKeepsOrder(s: State, c: Command)
    requires Known(s) && Ordered(s)
    ensures Known(Admit(s, c)) && Ordered(Admit(s, c))
  {
    var t := Admit(s, c);
    hide Ordered, Admits;
    assert Wellformed(t);
    SameOrder(s, t);
  }

  lemma AdmitAttempts(s: State, c: Command)
    requires Known(s) && Attempted(s)
    ensures Attempted(Admit(s, c))
  {
    hide Admits;
  }

  lemma AdmitKeepsOnce(s: State, c: Command)
    requires Once(s)
    ensures Once(Admit(s, c))
  {
    assert |s.entries| !in s.settlements;
  }

  lemma PushKeepsInv(s: State, h: nat)
    requires Inv(s)
    ensures Inv(Push(s, h))
  {
    var t := Push(s, h);
    PushKeepsOrder(s, h);
    FrameAccounts(s, t);
    hide Accounted, Bounded, Once, Ordered, Known;
  }

  lemma FrameAccounts(s: State, t: State)
    requires Accounted(s) && Bounded(s) && Once(s)
    requires t.entries == s.entries && t.pending == s.pending && t.held == s.held
    requires t.retained == s.retained && t.settlements == s.settlements
    requires t.outCap == s.outCap && t.controlCap == s.controlCap
    ensures Accounted(t) && Bounded(t) && Once(t)
  {
    assert forall id :: id in s.pending && Names(s, id) ==> Names(t, id);
    assert forall h :: 0 <= h < |s.entries| && Filed(s, h) ==> Filed(t, h);
  }

  lemma PushKeepsOrder(s: State, h: nat)
    requires Known(s) && Ordered(s)
    ensures Known(Push(s, h)) && Ordered(Push(s, h))
  {
    var t := Push(s, h);
    if t != s {
      forall a, b | InTurn(s, a, b) ensures InTurn(t, a, b) {
      }
      forall a | a in s.pushed ensures InTurn(t, a, h) {
      }
    }
  }

  lemma TakeKeepsOrder(s: State)
    requires Known(s) && Ordered(s)
    ensures Known(Take(s)) && Ordered(Take(s))
  {
    if s.stage.Choosing? {
      if s.outbound != [] {
        TakenKeepsOrder(s, Take(s), Next(s));
      } else {
        assert forall a, b :: InTurn(s, a, b) ==> InTurn(Take(s), a, b);
      }
    }
  }

  /** Taking the first of a route: whatever of that route is left comes after it. */
  lemma TakenKeepsOrder(s: State, t: State, i: nat)
    requires Known(s) && Ordered(s) && FirstOfRoute(s, i) && TookAt(s, t, i)
    ensures Known(t) && Ordered(t)
  {
    LeftBehind(s, t, i);
    forall a, b | InTurn(s, a, b) ensures InTurn(t, a, b) {
    }
    hide InTurn, FirstOfRoute, TookAt;
  }

  predicate TookAt(s: State, t: State, i: nat) {
    && i < |s.outbound|
    && t == s.(outbound := s.outbound[..i] + s.outbound[i + 1..], stage := t.stage)
    && (t.stage == Choosing || t.stage == Checking(s.outbound[i]))
  }

  /** What is left keeps its order, and none of it was queued before the one taken. */
  lemma LeftBehind(s: State, t: State, i: nat)
    requires Known(s) && Ordered(s) && FirstOfRoute(s, i) && TookAt(s, t, i)
    ensures Known(t)
    ensures forall j, k :: 0 <= j < k < |t.outbound| ==> InTurn(s, t.outbound[j], t.outbound[k])
    ensures forall j :: 0 <= j < |t.outbound| ==> InTurn(s, s.outbound[i], t.outbound[j])
    ensures forall p, j :: 0 <= p < |s.wire| && 0 <= j < |t.outbound| ==> InTurn(s, s.wire[p], t.outbound[j])
    ensures forall p :: 0 <= p < |s.wire| ==> InTurn(s, s.wire[p], s.outbound[i])
    ensures t.wire == s.wire && (t.stage.Checking? ==> t.stage.h == s.outbound[i])
  {
    assert forall j :: 0 <= j < |t.outbound| ==> t.outbound[j] == s.outbound[if j < i then j else j + 1];
    forall j | 0 <= j < |t.outbound| ensures InTurn(s, s.outbound[i], t.outbound[j]) {
      if j < i {
        assert KeyAt(s, j) != KeyAt(s, i);
        assert InTurn(s, s.outbound[j], s.outbound[i]);
      } else {
        assert InTurn(s, s.outbound[i], s.outbound[j + 1]);
      }
    }
    hide InTurn, FirstOfRoute;
  }

  lemma TakeKeepsInv(s: State)
    requires Inv(s)
    ensures Inv(Take(s))
  {
    TakeKeepsOrder(s);
    FrameAccounts(s, Take(s));
    hide Accounted, Bounded, Once, Ordered, Known, Next;
  }

  /** The command in hand enters the socket. */
  lemma EnterKeepsOrder(s: State)
    requires Known(s) && Ordered(s) && Attempted(s) && s.stage.Checking? && s.socket
    ensures Known(Checked(s, true)) && Ordered(Checked(s, true)) && Attempted(Checked(s, true))
  {
    var t := Checked(s, true);
    forall a, b | InTurn(s, a, b) ensures InTurn(t, a, b) {
    }
    forall k | 0 <= k < |t.entries| ensures t.entries[k].attempting <==> k in t.wire {
      assert k in t.wire <==> k in s.wire || k == s.stage.h;
    }
  }

  lemma EnterKeepsInv(s: State)
    requires Inv(s) && s.stage.Checking? && s.socket
    ensures Inv(Checked(s, true))
  {
    EnterKeepsOrder(s);
    FlagsKeepAccounts(s, Checked(s, true), s.stage.h);
    FlagsKeepOnce(s, Checked(s, true), s.stage.h);
    hide Accounted, Bounded, Once, Ordered, Known, Attempted;
  }

  /** Between two commands of a flush nothing is in hand. */
  lemma RestageKeepsInv(s: State, stage: Stage)
    requires Inv(s) && (stage.Idle? || stage.Choosing?)
    ensures Inv(s.(stage := stage))
  {
    var t := s.(stage := stage);
    FrameAccounts(s, t);
    hide Accounted, Bounded, Once, Ordered;
    SameOrder(s, t);
  }

  lemma CheckedKeepsInv(s: State, eligible: bool)
    requires Inv(s)
    ensures Inv(Checked(s, eligible))
  {
    if s.stage.Checking? {
      if eligible && s.socket {
        EnterKeepsInv(s);
      } else {
        SettleKeepsInv(s, s.stage.h, Failure(false));
        RestageKeepsInv(Settle(s, s.stage.h, Failure(false)), Choosing);
        hide Inv, Settle;
      }
    }
  }

  lemma ReturnedKeepsInv(s: State, handedOff: bool)
    requires Inv(s)
    ensures Inv(Returned(s, handedOff))
  {
    if s.stage.Sending? {
      var h := s.stage.h;
      HandoffKeepsInv(s, h);
      SettleKeepsInv(s, h, Failure(true));
      RestageKeepsInv(s, Choosing);
      RestageKeepsInv(NotifyHandoff(s, h), Choosing);
      RestageKeepsInv(Settle(s, h, Failure(true)), Choosing);
      hide Inv, Settle, NotifyHandoff;
    }
  }

  lemma ReplyKeepsInv(s: State, id: string, v: Verdict)
    requires Inv(s)
    ensures Inv(Reply(s, id, v))
  {
    if id in s.pending {
      var h := s.pending[id];
      if v.Success? {
        HandoffKeepsInv(s, h);
        SettleKeepsInv(NotifyHandoff(s, h), h, v);
      } else {
        SettleKeepsInv(s, h, v);
      }
      hide Inv, Settle;
    }
  }

  /** Dropping held reservations or queued commands keeps every bound and every order. */
  lemma DropKeepsInv(s: State, t: State)
    requires Inv(s) && t.held <= s.held
    requires t == s.(held := t.held, outbound := t.outbound, lastSent := t.lastSent)
    requires t.outbound == s.outbound || t.outbound == []
    ensures Inv(t)
  {
    FrameAccounts(s, t.(held := s.held));
    DropHeld(t.(held := s.held), t.held);
    hide Accounted, Bounded, Once;
    assert forall a, b :: InTurn(s, a, b) ==> InTurn(t, a, b);
  }

  lemma DropHeld(s: State, held: set<string>)
    requires Accounted(s) && Bounded(s) && Once(s) && held <= s.held
    ensures Accounted(s.(held := held)) && Bounded(s.(held := held)) && Once(s.(held := held))
  {
    var t := s.(held := held);
    assert |s.held| == |held| + |s.held - held| by {
      assert s.held == held + (s.held - held);
    }
    assert forall id :: id in s.pending && Names(s, id) ==> Names(t, id);
    assert forall h :: 0 <= h < |s.entries| && Filed(s, h) ==> Filed(t, h);
  }

  lemma InvIsWellformed(s: State)
    requires Inv(s)
    ensures Wellformed(s)
  {
  }

  lemma CancelPreviewKeepsInv(s: State, id: string)
    requires Inv(s)
    ensures Inv(CancelPreview(s, id))
  {
    hide Inv, Settle;
    var t := s.(held := s.held - {id});
    DropKeepsInv(s, t);
    InvIsWellformed(t);
    if id in t.pending {
      var h := t.pending[id];
      SettleKeepsInv(t, h, Failure(t.entries[h].Sent()));
    }
  }

  /** A connection is only replaced once nothing is pending, so no budget is outgrown. */
  lemma ConnectKeepsInv(s: State, o: nat, c: nat)
    requires Inv(s) && s.pending == map[]
    ensures Inv(s.(socket := true, outCap := o, controlCap := c))
  {
    var t := s.(socket := true, outCap := o, controlCap := c);
    SumParts(s.entries);
    NothingPending(s.entries);
    forall h | 0 <= h < |s.entries| ensures Filed(t, h) {
      assert Filed(s, h);
    }
    hide Ordered;
    SameOrder(s, t);
  }

  lemma {:induction false} NothingPending(es: seq<Entry>)
    requires Sum(es, Slot) == 0
    ensures Sum(es, Bytes) == 0
  {
    if es != [] {
      NothingPending(es[..|es| - 1]);
    }
  }

  lemma DisconnectKeepsInv(s: State)
    requires Inv(s)
    ensures Inv(s.(socket := false))
  {
    var t := s.(socket := false);
    FrameAccounts(s, t);
    hide Accounted, Bounded, Once, Ordered;
    SameOrder(s, t);
  }

  lemma CommandStepKeepsInv(s: State, h: nat, a: CommandLabel)
    requires Inv(s)
    ensures Inv(CommandStep(s, h, a))
  {
    hide Inv, Settle, NotifyHandoff;
    if h < |s.entries| {
      HandoffKeepsInv(s, h);
      SettleKeepsInv(s, h, Failure(s.entries[h].Sent()));
      SettleKeepsInv(s, h, Failure(false));
    }
  }

  lemma FlushStepKeepsInv(s: State, f: FlushLabel)
    requires Inv(s)
    ensures Inv(FlushStep(s, f))
  {
    assert Wellformed(s);
    hide Inv, Wellformed, Take, Checked, Returned;
    match f
    case Started => RestageKeepsInv(s, Choosing);
    case Took => TakeKeepsInv(s);
    case CheckedAs(b) => CheckedKeepsInv(s, b);
    case ReturnedAs(b) => ReturnedKeepsInv(s, b);
  }

  lemma ConnectionStepKeepsInv(s: State, c: ConnectionLabel)
    requires Inv(s)
    ensures Inv(ConnectionStep(s, c))
  {
    hide Inv;
    match c
    case Cleared => DropKeepsInv(s, Clear(s));
    case Disconnected => DisconnectKeepsInv(s);
    case Connected(o, r) => if s.pending == map[] { ConnectKeepsInv(s, o, r); }
  }

  lemma StepKeepsInv(s: State, l: Label)
    requires Inv(s)
    ensures Inv(Step(s, l))
  {
    assert Wellformed(s);
    hide Inv, Wellformed, Admit, Push, FlushStep, Reply, CancelPreview, CommandStep, ConnectionStep;
    match l
    case Admitting(c) => AdmitKeepsInv(s, c);
    case Pushing(h) => PushKeepsInv(s, h);
    case Flushing(f) => FlushStepKeepsInv(s, f);
    case Replying(id, v) => ReplyKeepsInv(s, id, v);
    case CancellingPreview(id) => CancelPreviewKeepsInv(s, id);
    case On(h, a) => CommandStepKeepsInv(s, h, a);
    case Connection(c) => ConnectionStepKeepsInv(s, c);
  }

  // ---- Runs ----

  ghost predicate Run(ws: seq<State>, ls: seq<Label>) {
    && |ws| == |ls| + 1
    && ws[0] == Start
    && forall i :: 0 <= i < |ls| ==> Follows(ws[i], ls[i], ws[i + 1])
  }

  predicate Follows(s: State, l: Label, t: State) {
    Wellformed(s) && t == Step(s, l)
  }

  /** Every reachable lane state is accounted for, within its limits, ordered and settled once. */
  lemma {:induction false} RunKeepsInv(ws: seq<State>, ls: seq<Label>, n: nat)
    requires Run(ws, ls) && n < |ws|
    ensures Inv(ws[n])
  {
    hide Inv, Step, Wellformed;
    if n == 0 {
      StartIsInv();
    } else {
      RunKeepsInv(ws, ls, n - 1);
      assert Follows(ws[n - 1], ls[n - 1], ws[n]);
      StepKeepsInv(ws[n - 1], ls[n - 1]);
    }
  }

  lemma StartIsInv()
    ensures Inv(Start)
  {
  }

  /** One route's commands enter the socket in the order they were queued. */
  lemma RouteOrder(ws: seq<State>, ls: seq<Label>, n: nat, i: nat, j: nat)
    requires Run(ws, ls) && n < |ws| && i < j < |ws[n].wire|
    ensures InTurn(ws[n], ws[n].wire[i], ws[n].wire[j])
    ensures ws[n].wire[i] != ws[n].wire[j]
  {
    RunKeepsInv(ws, ls, n);
    hide Accounted, Bounded, Once, Step;
  }

  // ---- What no step undoes ----

  /** Commands stay, outcomes are final, and the wire and the settlements only grow. */
  predicate Extends(s: State, t: State) {
    && |s.entries| <= |t.entries|
    && (forall h :: 0 <= h < |s.entries| ==> Later(s.entries[h], t.entries[h]))
    && s.wire <= t.wire
    && s.settlements <= t.settlements
  }

  predicate Later(d: Entry, e: Entry) {
    d.command == e.command && (d.Settled() ==> e.outcome == d.outcome)
  }

  lemma FlushExtends(s: State, f: FlushLabel)
    requires Wellformed(s)
    ensures Extends(s, FlushStep(s, f))
    ensures forall h :: ReportedUnsent(s, h) ==>
              (h in FlushStep(s, f).wire <==> h in s.wire || SelfSettled(s, Flushing(f), h))
  {
    hide Next;
  }

  lemma ReplyExtends(s: State, id: string, v: Verdict)
    requires Wellformed(s)
    ensures Extends(s, Reply(s, id, v)) && Reply(s, id, v).wire == s.wire
  {
  }

  lemma CancelPreviewExtends(s: State, id: string)
    requires Wellformed(s)
    ensures Extends(s, CancelPreview(s, id)) && CancelPreview(s, id).wire == s.wire
  {
  }

  lemma CommandExtends(s: State, h: nat, a: CommandLabel)
    ensures Extends(s, CommandStep(s, h, a)) && CommandStep(s, h, a).wire == s.wire
  {
  }

  lemma StepExtends(s: State, l: Label)
    requires Wellformed(s)
    ensures Extends(s, Step(s, l))
    ensures !l.Flushing? ==> Step(s, l).wire == s.wire
  {
    hide Admits, FlushStep, Reply, CancelPreview, CommandStep, ConnectionStep;
    match l
    case Flushing(f) => FlushExtends(s, f);
    case Replying(id, v) => ReplyExtends(s, id, v);
    case CancellingPreview(id) => CancelPreviewExtends(s, id);
    case On(h, a) => CommandExtends(s, h, a);
    case Connection(c) => ConnectionExtends(s, c);
    case _ =>
  }

  lemma ConnectionExtends(s: State, c: ConnectionLabel)
    ensures Extends(s, ConnectionStep(s, c)) && ConnectionStep(s, c).wire == s.wire
  {
  }

  /** An outcome, once given, is never given again or changed. */
  lemma {:induction false} OutcomesAreFinal(ws: seq<State>, ls: seq<Label>, m: nat, n: nat, h: nat)
    requires Run(ws, ls) && m <= n < |ws| && h < |ws[m].entries| && ws[m].entries[h].Settled()
    ensures h < |ws[n].entries| && ws[n].entries[h].outcome == ws[m].entries[h].outcome
    ensures exists i :: 0 <= i < |ws[n].settlements| && SettledAt(ws[n], i, h)
    ensures forall i, j :: SettledAt(ws[n], i, h) && SettledAt(ws[n], j, h) ==> i == j
    decreases n
  {
    hide Step;
    if m < n {
      OutcomesAreFinal(ws, ls, m, n - 1, h);
      assert Follows(ws[n - 1], ls[n - 1], ws[n]);
      StepExtends(ws[n - 1], ls[n - 1]);
    }
    RunKeepsInv(ws, ls, n);
    hide Accounted, Bounded, Ordered, Known, Attempted;
    assert h in ws[n].settlements;
    var i :| 0 <= i < |ws[n].settlements| && ws[n].settlements[i] == h;
    assert SettledAt(ws[n], i, h);
  }

  /** Settlement number `i` of the lane was that of command `h`. */
  predicate SettledAt(s: State, i: nat, h: nat) {
    i < |s.settlements| && s.settlements[i] == h
  }

  // ---- Reported unsent ----

  predicate ReportedUnsent(s: State, h: nat) {
    h < |s.entries| && s.entries[h].outcome.Some? && s.entries[h].outcome.value.Failed?
    && !s.entries[h].outcome.value.sent
  }

  /** The command was settled after it was taken, in its own check or in the lookup of the socket, and then let go. */
  predicate SelfSettled(s: State, l: Label, h: nat) {
    s.stage == Checking(h) && l == Flushing(CheckedAs(true)) && s.socket && ReportedUnsent(s, h)
  }

  lemma StepUnsent(s: State, l: Label, h: nat)
    requires Wellformed(s) && ReportedUnsent(s, h)
    ensures ReportedUnsent(Step(s, l), h)
    ensures h in Step(s, l).wire <==> h in s.wire || SelfSettled(s, l, h)
  {
    StepExtends(s, l);
    if l.Flushing? {
      FlushExtends(s, l.flush);
    }
    hide FlushStep, Reply, CancelPreview, CommandStep, ConnectionStep, Admit, Push;
  }

  /** A command is reported unsent only while it has not been passed to the socket. */
  lemma FreshReportIsTrue(s: State, l: Label, h: nat)
    requires Inv(s) && h < |s.entries| && !s.entries[h].Settled()
    requires ReportedUnsent(Step(s, l), h)
    ensures h !in s.wire
  {
    FreshReport(s, l, h);
    hide Accounted, Bounded, Once, Ordered, Known, Step;
  }

  lemma FreshReport(s: State, l: Label, h: nat)
    requires Wellformed(s) && h < |s.entries| && !s.entries[h].Settled()
    requires ReportedUnsent(Step(s, l), h)
    ensures !s.entries[h].attempting
  {
    hide Admits, Next;
  }

  /** Some step in `[i, j)` let a command go that had been settled since it was taken. */
  ghost predicate LetGo(ws: seq<State>, ls: seq<Label>, h: nat, i: nat, j: nat)
    requires Run(ws, ls)
  {
    exists k :: i <= k < j && k < |ls| && SelfSettled(ws[k], ls[k], h)
  }

  /**
   What a report of `sent = false` is worth: the command enters the socket afterwards exactly when
   it was settled between being taken and entering the socket, and its check, if it has one, returned true.
   */
  lemma {:induction false} UnsentExactly(ws: seq<State>, ls: seq<Label>, h: nat, i: nat, j: nat)
    requires Run(ws, ls) && i <= j < |ws|
    requires ReportedUnsent(ws[i], h) && h !in ws[i].wire
    ensures ReportedUnsent(ws[j], h)
    ensures h in ws[j].wire <==> LetGo(ws, ls, h, i, j)
    decreases j
  {
    hide Step;
    if i < j {
      UnsentExactly(ws, ls, h, i, j - 1);
      assert Follows(ws[j - 1], ls[j - 1], ws[j]);
      StepUnsent(ws[j - 1], ls[j - 1], h);
      assert LetGo(ws, ls, h, i, j) <==> LetGo(ws, ls, h, i, j - 1) || SelfSettled(ws[j - 1], ls[j - 1], h);
    }
  }

  /** It happens to every command whose check cancels it and returns true. */
  lemma SelfCancelled(s: State)
    requires Wellformed(s) && s.stage.Checking? && s.socket
    requires !s.entries[s.stage.h].Settled() && !s.entries[s.stage.h].Sent()
    ensures Wellformed(Step(s, On(s.stage.h, Cancelled)))
    ensures var t := Step(Step(s, On(s.stage.h, Cancelled)), Flushing(CheckedAs(true)));
            ReportedUnsent(t, s.stage.h) && s.stage.h in t.wire
  {
  }

  const CHECKING: seq<State> :=
    var command := Command("r", Focus, None, 1);
    var a := Start.(socket := true, outCap := 10, controlCap := 10);
    var b := a.(entries := [Entry(command, false, false, None)], pending := map["r" := 0], retained := 1);
    var c := b.(outbound := [0], pushed := map[0 := 0]);
    var d := c.(stage := Choosing);
    [Start, a, b, c, d, d.(stage := Checking(0), outbound := [])]

  const TO_CHECKING: seq<Label> :=
    [Connection(Connected(10, 10)), Admitting(Command("r", Focus, None, 1)), Pushing(0),
     Flushing(Started), Flushing(Took)]

  lemma CheckingAdmits()
    ensures Follows(CHECKING[0], TO_CHECKING[0], CHECKING[1])
    ensures Follows(CHECKING[1], TO_CHECKING[1], CHECKING[2])
  {
    hide FlushStep, Reply, CancelPreview, CommandStep;
  }

  lemma CheckingQueues()
    ensures Follows(CHECKING[2], TO_CHECKING[2], CHECKING[3])
    ensures Follows(CHECKING[3], TO_CHECKING[3], CHECKING[4])
  {
    hide Admit, Reply, CancelPreview, CommandStep, ConnectionStep;
  }

  lemma CheckingTakes()
    ensures Follows(CHECKING[4], TO_CHECKING[4], CHECKING[5])
  {
    hide Admit, Reply, CancelPreview, CommandStep, ConnectionStep, Next;
    assert Next(CHECKING[4]) == 0;
  }

  /** A run that gets there: one command, admitted, queued and taken. */
  lemma SomeCommandIsChecked()
    ensures Run(CHECKING, TO_CHECKING)
    ensures CHECKING[5].stage == Checking(0) && CHECKING[5].socket
    ensures !CHECKING[5].entries[0].Settled() && !CHECKING[5].entries[0].Sent()
  {
    CheckingAdmits();
    CheckingQueues();
    CheckingTakes();
    hide Follows;
  }
}
