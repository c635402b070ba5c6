/** The lane as the object the source writes, each method proved to take the lane's steps. */
module Delivery {
  import opened Common
  import opened Lane
  import opened LaneRuns

  // ---- Filtered index lists ----

  predicate Increasing(xs: seq<nat>) {
    forall i, j :: 0 <= i < j < |xs| ==> xs[i] < xs[j]
  }

  /** `xs` lists the indices below `n` that satisfy `p`, in order. */
  ghost predicate Lists(xs: seq<nat>, n: nat, p: nat -> bool) {
    Increasing(xs) && forall i: nat :: i in xs <==> i < n && p(i)
  }

  function Filter(xs: seq<nat>, q: nat -> bool): seq<nat> {
    if xs == [] then []
    else Filter(xs[..|xs| - 1], q) + if q(xs[|xs| - 1]) then [xs[|xs| - 1]] else []
  }

  lemma {:induction false} FilterMember(xs: seq<nat>, q: nat -> bool, i: nat)
    ensures i in Filter(xs, q) <==> i in xs && q(i)
  {
    if xs != [] {
      var n := |xs| - 1;
      FilterMember(xs[..n], q, i);
      assert xs == xs[..n] + [xs[n]];
    }
  }

  lemma {:induction false} FilterIncreases(xs: seq<nat>, q: nat -> bool)
    requires Increasing(xs)
    ensures Increasing(Filter(xs, q))
  {
    if xs != [] {
      var n := |xs| - 1;
      var front := Filter(xs[..n], q);
      FilterIncreases(xs[..n], q);
      forall k | 0 <= k < |front| ensures front[k] < xs[n] {
        FilterMember(xs[..n], q, front[k]);
      }
    }
  }

  lemma FilterMembers(xs: seq<nat>, q: nat -> bool)
    requires Increasing(xs)
    ensures Increasing(Filter(xs, q))
    ensures forall i: nat :: i in Filter(xs, q) <==> i in xs && q(i)
  {
    FilterIncreases(xs, q);
    forall i: nat ensures i in Filter(xs, q) <==> i in xs && q(i) {
      FilterMember(xs, q, i);
    }
  }

  lemma FirstIsLeast(xs: seq<nat>, n: nat, p: nat -> bool)
    requires Lists(xs, n, p)
    ensures Least(n, p, 0) == if xs == [] then n else xs[0]
  {
    var least := Least(n, p, 0);
    assert least < n ==> least in xs;
    if xs != [] {
      assert xs[0] in xs;
    }
  }

  // ---- The scheduling choice ----

  function Unsettled(es: seq<Entry>, queue: seq<nat>): nat -> bool {
    (i: nat) => i < |queue| && queue[i] < |es| && !es[queue[i]].Settled()
  }

  function Elsewhere(es: seq<Entry>, queue: seq<nat>, last: Option<Key>): nat -> bool {
    (i: nat) => i < |queue| && queue[i] < |es| && last != Some(KeyOf(es[queue[i]].command))
  }

  function Controls(es: seq<Entry>, queue: seq<nat>): nat -> bool {
    (i: nat) => i < |queue| && queue[i] < |es| && !Ordinary(es[queue[i]].command)
  }

  lemma CandidateLists(s: State, firsts: seq<nat>)
    requires Wellformed(s) && Increasing(firsts) && forall i: nat :: i in firsts <==> FirstOfRoute(s, i)
    ensures var candidates := Filter(firsts, Unsettled(s.entries, s.outbound));
            Increasing(candidates) && forall i: nat :: i in candidates <==> Candidate(s, i)
  {
    FilterMembers(firsts, Unsettled(s.entries, s.outbound));
  }

  lemma PreferredLists(s: State, candidates: seq<nat>)
    requires Wellformed(s) && Increasing(candidates) && forall i: nat :: i in candidates <==> Candidate(s, i)
    ensures var preferred := Filter(candidates, Elsewhere(s.entries, s.outbound, s.lastSent));
            Increasing(preferred) && forall i: nat :: i in preferred <==> OtherRoute(s, i)
  {
    FilterMembers(candidates, Elsewhere(s.entries, s.outbound, s.lastSent));
  }

  /** The pool is the preferred candidates, or all of them where there are none. */
  lemma PoolLists(s: State, candidates: seq<nat>, preferred: seq<nat>)
    requires Wellformed(s)
    requires forall i: nat :: i in candidates <==> Candidate(s, i)
    requires forall i: nat :: i in preferred <==> OtherRoute(s, i)
    ensures forall i: nat :: i in (if preferred != [] then preferred else candidates) <==> InPool(s, i)
  {
    if preferred == [] {
      assert forall j: nat :: !OtherRoute(s, j);
    } else {
      assert preferred[0] in preferred;
    }
  }

  lemma ControlLists(s: State, pool: seq<nat>)
    requires Wellformed(s) && Increasing(pool) && forall i: nat :: i in pool <==> InPool(s, i)
    ensures var controls := Filter(pool, Controls(s.entries, s.outbound));
            Increasing(controls) && forall i: nat :: i in controls <==> ControlInPool(s, i)
  {
    FilterMembers(pool, Controls(s.entries, s.outbound));
  }

  lemma NextFromLists(s: State, pool: seq<nat>, controls: seq<nat>)
    requires Wellformed(s) && s.outbound != []
    requires Increasing(pool) && forall i: nat :: i in pool <==> InPool(s, i)
    requires Increasing(controls) && forall i: nat :: i in controls <==> ControlInPool(s, i)
    ensures Next(s) == if controls != [] then controls[0] else if pool != [] then pool[0] else 0
  {
    FirstIsLeast(pool, |s.outbound|, (i: nat) => InPool(s, i));
    FirstIsLeast(controls, |s.outbound|, (i: nat) => ControlInPool(s, i));
    if controls != [] {
      assert controls[0] in controls;
    }
    if pool != [] {
      assert pool[0] in pool;
    }
  }

  class TerminalLane {
    var entries: seq<Entry>
    var pending: map<string, nat>
    var held: set<string>
    var outbound: seq<nat>
    var retained: int
    var lastSent: Option<Key>
    var stage: Stage
    var socket: bool
    var outCap: nat
    var controlCap: nat
    ghost var pushed: map<nat, nat>
    ghost var wire: seq<nat>
    ghost var settlements: seq<nat>

    ghost function Value(): State
      reads this
    {
      State(entries, pending, held, outbound, retained, lastSent, stage, socket, outCap, controlCap,
            pushed, wire, settlements)
    }

    constructor ()
      ensures Value() == Start
    {
      entries, pending, held, outbound, retained := [], map[], {}, [], 0;
      lastSent, stage, socket, outCap, controlCap := None, Idle, false, 0, 0;
      pushed, wire, settlements := map[], [], [];
    }

    method OrdinaryPending() returns (count: nat)
      ensures count == Sum(entries, OrdinarySlot)
    {
      count := 0;
      for i := 0 to |entries|
        invariant count == Sum(entries[..i], OrdinarySlot)
      {
        if !entries[i].Settled() && Ordinary(entries[i].command) {
          count := count + 1;
        }
        assert entries[..i + 1][..i] == entries[..i];
      }
      assert entries[..|entries|] == entries;
    }

    /** Takes the command if identity, slots and bytes allow it. */
    method Register(c: Command) returns (h: Option<nat>)
      modifies this
      ensures Value() == Admit(old(Value()), c)
      ensures h == if Admits(old(Value()), c) then Some(old(|entries|)) else None
    {
      if !socket || c.requestId in pending || c.requestId in held || |pending| + |held| >= MAX_PENDING {
        return None;
      }
      if Ordinary(c) {
        var ordinary := OrdinaryPending();
        if |held| + ordinary >= MAX_PENDING - RESERVED {
          return None;
        }
      }
      if retained + c.bytes > outCap + controlCap || (Ordinary(c) && retained + c.bytes > outCap) {
        return None;
      }
      h := Some(|entries|);
      pending := pending[c.requestId := |entries|];
      entries := entries + [Entry(c, false, false, None)];
      retained := retained + c.bytes;
    }

    method Enqueue(h: nat)
      requires h < |entries| && h !in pushed
      modifies this
      ensures Value() == Push(old(Value()), h)
    {
      if !entries[h].Settled() {
        outbound := outbound + [h];
        pushed := pushed[h := |pushed|];
      }
    }

    /** The first queued command of every route, found in one pass. */
    method FirstByRoute() returns (firsts: seq<nat>)
      requires Wellformed(Value())
      ensures Increasing(firsts)
      ensures forall i: nat :: i in firsts <==> FirstOfRoute(Value(), i)
    {
      firsts := [];
      var seen: set<Key> := {};
      ghost var s := Value();
      for index := 0 to |outbound|
        invariant Increasing(firsts)
        invariant forall i: nat :: i in firsts <==> i < index && FirstOfRoute(s, i)
        invariant forall i: nat :: i < index ==> KeyAt(s, i) in seen
        invariant forall key :: key in seen ==> exists i: nat :: i < index && KeyAt(s, i) == key
      {
        var key := KeyOf(entries[outbound[index]].command);
        assert key == KeyAt(s, index);
        if key !in seen {
          assert FirstOfRoute(s, index);
          assert forall i :: 0 <= i < |firsts| ==> firsts[i] in firsts;
          seen := seen + {key};
          firsts := firsts + [index];
        } else {
          assert !FirstOfRoute(s, index);
        }
      }
    }

    /** The scheduling choice, by filtering the first command of every route. */
    method ChooseOutbound() returns (index: nat)
      requires Wellformed(Value()) && outbound != []
      ensures index == Next(Value())
    {
      var firsts := FirstByRoute();
      var candidates := Filter(firsts, Unsettled(entries, outbound));
      var preferred := Filter(candidates, Elsewhere(entries, outbound, lastSent));
      var pool := if preferred != [] then preferred else candidates;
      var controls := Filter(pool, Controls(entries, outbound));
      index := if controls != [] then controls[0] else if pool != [] then pool[0] else 0;
      CandidateLists(Value(), firsts);
      PreferredLists(Value(), candidates);
      PoolLists(Value(), candidates, preferred);
      ControlLists(Value(), pool);
      NextFromLists(Value(), pool, controls);
      hide Next, Filter, FirstOfRoute, Candidate, OtherRoute, InPool, ControlInPool;
    }

    method TakeNextOutbound()
      requires Wellformed(Value()) && stage.Choosing?
      modifies this
      ensures Value() == Take(old(Value()))
    {
      if outbound == [] {
        stage := Idle;
      } else {
        var index := ChooseOutbound();
        var h := outbound[index];
        outbound := outbound[..index] + outbound[index + 1..];
        stage := if entries[h].Settled() then Choosing else Checking(h);
      }
    }

    /** Settlement, at most once. */
    method Finish(h: nat, v: Verdict)
      requires h < |entries|
      modifies this
      ensures Value() == Settle(old(Value()), h, v)
    {
      var e := entries[h];
      if e.Settled() {
        return;
      }
      var o := if v.Success? then Ok(v.transfer) else Failed(v.uncertain, e.Sent());
      entries := entries[h := e.(outcome := Some(o))];
      if e.command.kind.Preview? && v == Success(true) {
        held := held + {e.command.requestId};
      }
      pending := pending - {e.command.requestId};
      retained := retained - e.command.bytes;
      settlements := settlements + [h];
    }

    /** After the sender's check: into the socket, or settled as never sent. */
    method EnterSocket(eligible: bool)
      requires Wellformed(Value()) && stage.Checking?
      modifies this
      ensures Value() == Checked(old(Value()), eligible)
    {
      var h := stage.h;
      if !eligible || !socket {
        Finish(h, Failure(false));
        stage := Choosing;
        return;
      }
      entries := entries[h := entries[h].(attempting := true)];
      if entries[h].command.subscription.Some? {
        lastSent := Some(KeyOf(entries[h].command));
      }
      wire := wire + [h];
      stage := Sending(h);
    }

    method LeaveSocket(handedOff: bool)
      requires Wellformed(Value()) && stage.Sending?
      modifies this
      ensures Value() == Returned(old(Value()), handedOff)
    {
      var h := stage.h;
      if handedOff && !entries[h].Settled() {
        entries := entries[h := entries[h].(handedOff := true)];
      } else if !entries[h].Settled() {
        Finish(h, Failure(true));
      }
      stage := Choosing;
    }

    method Receive(requestId: string, v: Verdict)
      requires Wellformed(Value())
      modifies this
      ensures Value() == Reply(old(Value()), requestId, v)
    {
      if requestId in pending {
        var h := pending[requestId];
        if v.Success? {
          entries := entries[h := entries[h].(handedOff := true)];
        }
        Finish(h, v);
      }
    }

    /** Settles exactly the unsent commands of the subscription and the kinds, as never sent. */
    method CancelUnsentOf(ref: SubscriptionRef, kinds: set<Kind>)
      requires Inv(Value())
      modifies this
      ensures Inv(Value()) && |entries| == |old(entries)|
      ensures forall h :: 0 <= h < |entries| ==>
                entries[h] == if Cancellable(old(entries)[h], ref, kinds)
                              then old(entries)[h].(outcome := Some(Failed(false, false)))
                              else old(entries)[h]
      ensures outbound == old(outbound) && wire == old(wire) && stage == old(stage)
      ensures held == old(held) && lastSent == old(lastSent)
    {
      hide Inv, Settle;
      for i := 0 to |entries|
        invariant Inv(Value()) && |entries| == |old(entries)|
        invariant forall h :: i <= h < |entries| ==> entries[h] == old(entries)[h]
        invariant forall h :: 0 <= h < i ==>
                    entries[h] == if Cancellable(old(entries)[h], ref, kinds)
                                  then old(entries)[h].(outcome := Some(Failed(false, false)))
                                  else old(entries)[h]
        invariant outbound == old(outbound) && wire == old(wire) && stage == old(stage)
        invariant held == old(held) && lastSent == old(lastSent)
      {
        if Cancellable(entries[i], ref, kinds) {
          SettleKeepsInv(Value(), i, Failure(false));
          SettleFails(Value(), i, false);
          Finish(i, Failure(false));
        }
      }
    }

    /** Fails every command still pending; one that entered the socket is uncertain. */
    method FailPending()
      requires Inv(Value())
      modifies this
      ensures Inv(Value()) && |entries| == |old(entries)|
      ensures forall h :: 0 <= h < |entries| ==> entries[h] == Closed(old(entries)[h])
      ensures wire == old(wire) && stage == old(stage)
    {
      hide Inv, Settle;
      for i := 0 to |entries|
        invariant Inv(Value()) && |entries| == |old(entries)|
        invariant forall h :: i <= h < |entries| ==> entries[h] == old(entries)[h]
        invariant forall h :: 0 <= h < i ==> entries[h] == Closed(old(entries)[h])
        invariant wire == old(wire) && stage == old(stage)
      {
        if !entries[i].Settled() {
          SettleKeepsInv(Value(), i, Failure(entries[i].Sent()));
          SettleFails(Value(), i, entries[i].Sent());
          Finish(i, Failure(entries[i].Sent()));
        }
      }
    }

    /** Closing settles every command, gives back every slot and byte, and drops the queue. */
    method Close()
      requires Inv(Value())
      modifies this
      ensures Inv(Value()) && |entries| == |old(entries)|
      ensures forall h :: 0 <= h < |entries| ==> entries[h] == Closed(old(entries)[h])
      ensures pending == map[] && held == {} && outbound == [] && retained == 0
      ensures wire == old(wire) && stage == old(stage)
    {
      hide Inv;
      lastSent := None;
      DropKeepsInv(old(Value()), Value());
      FailPending();
      ghost var s := Value();
      held, outbound := {}, [];
      DropKeepsInv(s, Value());
      AllSettled(Value());
    }
  }

  predicate Cancellable(e: Entry, ref: SubscriptionRef, kinds: set<Kind>) {
    !e.Settled() && !e.Sent() && e.command.subscription == Some(ref) && e.command.kind in kinds
  }

  /** Uncertain, and reported as sent, exactly when it had entered the socket. */
  function Closed(e: Entry): Entry {
    if e.Settled() then e else e.(outcome := Some(Failed(e.Sent(), e.Sent())))
  }

  lemma SettleFails(s: State, h: nat, uncertain: bool)
    requires h < |s.entries| && !s.entries[h].Settled()
    ensures var t := Settle(s, h, Failure(uncertain));
            && t.entries == s.entries[h := s.entries[h].(outcome := Some(Failed(uncertain, s.entries[h].Sent())))]
            && t.outbound == s.outbound && t.wire == s.wire && t.stage == s.stage
            && t.held == s.held && t.lastSent == s.lastSent
  {
  }

  lemma AllSettled(s: State)
    requires Inv(s) && forall h :: 0 <= h < |s.entries| ==> s.entries[h].Settled()
    ensures s.pending == map[] && s.retained == 0
  {
    assert s.pending.Keys == {} by {
      assert forall id :: id in s.pending ==> Names(s, id);
    }
    NothingPending(s.entries);
  }
}
