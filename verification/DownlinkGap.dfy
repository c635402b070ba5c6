/**
 The gap fence: while it is down, what waits in the queue of a ready subscription continues the
 view without a hole, provided that it did when the subscription became ready.
 */
module DownlinkGap {
  import opened Common
  import opened Downlink
  import opened DownlinkRuns

  /** The last run event of the queue, or `from` when there is none. */
  function LastOf(queue: seq<Item>, from: nat): nat {
    if queue == [] then from
    else
      var last := queue[|queue| - 1].event;
      if last.RunEvent? then last.at else LastOf(queue[..|queue| - 1], from)
  }

  predicate HasRun(queue: seq<Item>) {
    exists k :: 0 <= k < |queue| && queue[k].event.RunEvent?
  }

  /** The run events of the queue are `from + 1`, `from + 2` and so on. */
  predicate Chain(queue: seq<Item>, from: nat) {
    queue != [] ==>
      var n := |queue| - 1;
      Chain(queue[..n], from) && (queue[n].event.RunEvent? ==> queue[n].event.at == LastOf(queue[..n], from) + 1)
  }

  /** The event the queue has to continue: the one being applied, or the last applied. */
  ghost function Base(w: World): nat {
    if Quiet(w) then w.c.applied else w.c.applied + 1
  }

  ghost predicate InSequence(w: World) {
    Chain(w.c.queue, Base(w))
  }

  predicate Live(w: World) {
    w.c.attached && w.c.phase.Ready? && !w.c.fatal
  }

  /** `queuedSeq` names the last run event received, and only a ready subscription is fenced. */
  ghost predicate Tracked(w: World) {
    && (w.c.gap ==> w.c.phase.Ready?)
    && (w.c.phase.AwaitMarker? ==> w.c.queuedSeq.None?)
    && (Receives(w.c) && !w.c.fatal ==>
          && (w.c.queuedSeq.None? ==> !HasRun(w.c.queue))
          && (w.c.queuedSeq.Some? && HasRun(w.c.queue) ==> w.c.queuedSeq.value == LastOf(w.c.queue, 0))
          && (w.c.queuedSeq.Some? && !HasRun(w.c.queue) ==>
                !LoadingNow(w.c) && !AwaitingStart(w.c) && w.c.queuedSeq.value == Base(w))
          && (w.c.queuedSeq.None? ==> (Exact(w.c) ==> Quiet(w))))
  }

  /** The fence is up exactly when the queue has a hole. */
  ghost predicate Judged(w: World) {
    Live(w) ==> (w.c.gap <==> !InSequence(w))
  }

  // ---- Queues ----

  lemma {:induction false} LastWithRun(queue: seq<Item>, from: nat, other: nat)
    requires HasRun(queue)
    ensures LastOf(queue, from) == LastOf(queue, other)
  {
    var n := |queue| - 1;
    if !queue[n].event.RunEvent? {
      var k :| 0 <= k < |queue| && queue[k].event.RunEvent?;
      assert queue[..n][k].event.RunEvent?;
      LastWithRun(queue[..n], from, other);
    }
  }

  lemma {:induction false} LastWithout(queue: seq<Item>, from: nat)
    requires !HasRun(queue)
    ensures LastOf(queue, from) == from
  {
    if queue != [] {
      var n := |queue| - 1;
      assert forall k :: 0 <= k < n ==> queue[..n][k] == queue[k];
      LastWithout(queue[..n], from);
    }
  }

  lemma SnocChain(queue: seq<Item>, item: Item, from: nat)
    ensures Chain(queue + [item], from) <==>
              Chain(queue, from) && (item.event.RunEvent? ==> item.event.at == LastOf(queue, from) + 1)
    ensures LastOf(queue + [item], from) == if item.event.RunEvent? then item.event.at else LastOf(queue, from)
  {
    assert (queue + [item])[..|queue|] == queue;
  }

  /** Taking the event that comes next. */
  lemma {:induction false} TailChain(queue: seq<Item>, from: nat)
    requires queue != [] && queue[0].event.RunEvent? && queue[0].event.at == from + 1
    ensures Chain(queue, from) <==> Chain(queue[1..], from + 1)
    ensures LastOf(queue, from) == LastOf(queue[1..], from + 1)
  {
    var n := |queue| - 1;
    if n == 0 {
      assert queue == [] + [queue[0]];
      SnocChain([], queue[0], from);
    } else {
      var front, rest := queue[..n], queue[1..];
      TailChain(front, from);
      assert rest == front[1..] + [queue[n]];
      assert queue == front + [queue[n]];
      SnocChain(front[1..], queue[n], from + 1);
      SnocChain(front, queue[n], from);
    }
  }

  // ---- The fence is exact ----

  /** Outside the queue's own loading phases `queuedSeq` and the queue agree on what comes last. */
  lemma LastQueuedIs(w: World)
    requires Inv(w) && Tracked(w) && Live(w)
    ensures LastQueued(w.c) == LastOf(w.c.queue, Base(w))
  {
    if HasRun(w.c.queue) {
      LastWithRun(w.c.queue, 0, Base(w));
    } else {
      LastWithout(w.c.queue, Base(w));
    }
  }

  lemma ReceiveJudged(w: World, e: Event)
    requires Inv(w) && Tracked(w) && Judged(w)
    ensures Judged(Receive(w, e))
  {
    var t := Receive(w, e);
    if t != w && Live(w) {
      LastQueuedIs(w);
      SnocChain(w.c.queue, Item(e, w.c.token), Base(w));
      assert forall i :: Current(t, i) == Current(w, i);
    }
  }

  ghost predicate Good(w: World) {
    Inv(w) && Tracked(w) && Judged(w)
  }

  /** A new token leaves nothing to track or to judge. */
  predicate Reset(t: World) {
    !Receives(t.c) && !t.c.gap && t.c.queuedSeq.None?
  }

  lemma ResetIsTracked(t: World)
    requires Reset(t)
    ensures Tracked(t) && Judged(t)
  {
  }

  lemma ReceiveTracked(w: World, e: Event)
    requires Tracked(w)
    ensures Tracked(Receive(w, e))
  {
    var t := Receive(w, e);
    if t != w {
      SnocChain(w.c.queue, Item(e, w.c.token), 0);
      SnocRun(w.c.queue, Item(e, w.c.token));
      hide LastOf, HasRun;
      assert Quiet(t) == Quiet(w);
    }
  }

  lemma SnocRun(queue: seq<Item>, item: Item)
    ensures HasRun(queue + [item]) <==> HasRun(queue) || item.event.RunEvent?
  {
    var r := queue + [item];
    assert r[|queue|] == item;
    assert forall k :: 0 <= k < |queue| ==> r[k] == queue[k];
  }

  // ---- Draining ----

  lemma {:induction false} TailLast(queue: seq<Item>)
    requires queue != []
    ensures HasRun(queue[1..]) ==> HasRun(queue) && LastOf(queue[1..], 0) == LastOf(queue, 0)
    ensures HasRun(queue) && !HasRun(queue[1..]) ==> queue[0].event.RunEvent? && LastOf(queue, 0) == queue[0].event.at
    ensures !queue[0].event.RunEvent? ==> HasRun(queue) == HasRun(queue[1..])
  {
    assert forall k :: 0 <= k < |queue| - 1 ==> queue[1..][k] == queue[k + 1];
    LastOfTail(queue);
    if queue[0].event.RunEvent? {
      if HasRun(queue[1..]) {
        LastWithRun(queue[1..], queue[0].event.at, 0);
      } else {
        LastWithout(queue[1..], queue[0].event.at);
      }
    } else {
      if k :| 0 <= k < |queue| && queue[k].event.RunEvent? {
        assert queue[1..][k - 1].event.RunEvent?;
      }
    }
  }

  lemma {:induction false} LastOfTail(queue: seq<Item>)
    requires queue != []
    ensures LastOf(queue, 0) == LastOf(queue[1..], if queue[0].event.RunEvent? then queue[0].event.at else 0)
  {
    var n := |queue| - 1;
    if n > 0 && !queue[n].event.RunEvent? {
      LastOfTail(queue[..n]);
      assert queue[1..][..n - 1] == queue[..n][1..];
    }
  }

  predicate Took(w: World, t: World) {
    && w.c.queue != []
    && t.c == w.c.(queue := w.c.queue[1..], ordinal := t.c.ordinal)
    && t.views == w.views
  }

  /** Applying an event under the same token has issued it to the view. */
  lemma ApplyIssues(w: World, e: Event)
    requires w.c.attached && (w.c.operation.Some? ==> !w.c.phase.Ready?) && !w.c.phase.Disposed?
    requires Apply(w, e).c.token == w.c.token
    ensures Apply(w, e).c == w.c.(ordinal := Apply(w, e).c.ordinal) && Apply(w, e).views == w.views
    ensures Current(Apply(w, e), w.next) && Receives(w.c)
    ensures w.c.phase.InBaseline? || Apply(w, e).work[w.next].stage.Writing?
    ensures w.c.phase.InBaseline? ==> !e.RunEvent?
    ensures !w.c.phase.InBaseline? ==> e.RunEvent? && e.at == w.c.applied + 1
  {
    hide Priors;
  }

  /** A drain step that keeps its token has issued the head of the queue to the view. */
  lemma DrainIssues(w: World)
    requires Inv(w) && Draining(w) && w.c.attached && !w.c.fatal && Drain(w).c.token == w.c.token
    ensures Took(w, Drain(w)) && Free(w) && Current(Drain(w), w.next)
    ensures w.c.phase.InBaseline? || !Quiet(Drain(w))
    ensures w.c.phase.InBaseline? ==> !w.c.queue[0].event.RunEvent?
    ensures w.c.phase.Ready? || w.c.phase.InReplay? ==>
              w.c.queue[0].event.RunEvent? && w.c.queue[0].event.at == w.c.applied + 1
    ensures Receives(w.c)
  {
    assert w.c.queue[0].token == w.c.token;
    assert Free(w);
    hide Inv, Apply, Draining;
    ApplyIssues(w.(c := w.c.(queue := w.c.queue[1..])), w.c.queue[0].event);
  }

  lemma DrainResets(w: World)
    requires Draining(w) && Drain(w).c.token != w.c.token
    ensures Reset(Drain(w))
  {
    hide Draining, Priors;
  }

  lemma DrainGood(w: World)
    requires Good(w) && Draining(w)
    ensures Tracked(Drain(w)) && Judged(Drain(w))
  {
    var t := Drain(w);
    if t.c.token != w.c.token {
      DrainResets(w);
      ResetIsTracked(t);
    } else if w.c.fatal || !w.c.attached {
      DrainSkips(w);
    } else {
      DrainIssues(w);
      TailLast(w.c.queue);
      if !w.c.phase.InBaseline? {
        TailChain(w.c.queue, w.c.applied);
      }
      hide Drain, LastOf, Chain, Draining, Inv;
    }
  }

  lemma DrainSkips(w: World)
    requires Tracked(w) && Draining(w) && (w.c.fatal || !w.c.attached) && Drain(w).c.token == w.c.token
    ensures Tracked(Drain(w)) && Judged(Drain(w))
  {
    hide Draining;
  }

  // ---- The other steps ----

  /** The controller's queue, fence and phase are as before, and so is what is being applied. */
  lemma SameGood(w: World, t: World)
    requires Good(w) && t.c == w.c.(retained := t.c.retained, autoUsed := t.c.autoUsed)
    requires Quiet(t) == Quiet(w)
    ensures Tracked(t) && Judged(t)
  {
    hide Inv;
  }

  lemma LandGood(w: World, i: nat)
    requires Good(w)
    ensures Tracked(Land(w, i)) && Judged(Land(w, i))
  {
    var t := Land(w, i);
    assert forall j :: Current(t, j) == Current(w, j);
    SameGood(w, t);
    hide Inv;
  }

  lemma LateGood(w: World, i: nat)
    requires Good(w) && i in w.work && !Current(w, i)
    ensures Tracked(Done(w, i)) && Judged(Done(w, i))
  {
    DoneSame(w, i);
    hide Inv;
    SameGood(w, Done(w, i));
  }

  lemma MarkerGood(w: World, mode: Mode, atSeq: nat)
    requires Good(w)
    ensures Tracked(Marker(w, mode, atSeq)) && Judged(Marker(w, mode, atSeq))
  {
    var t := Marker(w, mode, atSeq);
    if t.c.token != w.c.token {
      ResetIsTracked(t);
    } else if t != w {
      assert w.c.queue == [] && !HasRun(t.c.queue);
      assert forall i :: Current(t, i) == Current(w, i);
      hide Written, Fenced, ViewExact, ViewLoading, Queued;
    }
  }

  /** Becoming ready is the one moment the fence can be wrong. */
  lemma CommitGood(w: World)
    requires Good(w)
    requires Committing(w.c) ==> InSequence(w)
    ensures Tracked(Committed(w)) && Judged(Committed(w))
  {
    var t := Committed(w);
    assert forall i :: Current(t, i) == Current(w, i);
    hide Written, Fenced, ViewExact, ViewLoading, Queued;
  }

  lemma EndGood(w: World, i: nat, b: Baseline)
    requires Good(w) && i in w.work && w.work[i].stage == Writing(Finish(b), true)
    ensures var t := EndBaseline(Done(w, i), w.work[i].token, b); Tracked(t) && Judged(t)
  {
    if !Current(w, i) {
      LateGood(w, i);
    } else {
      assert Suits(w.work[i].stage, w.c);
      DoneSame(w, i);
      var t := EndBaseline(Done(w, i), w.work[i].token, b);
      assert Quiet(t);
      hide Inv;
    }
  }

  lemma AppliedGood(w: World, i: nat, q: nat)
    requires Good(w) && i in w.work && w.work[i].stage == Writing(ApplyEvent(q), true)
    ensures var t := AppliedEvent(Done(w, i), w.work[i].token, q); Tracked(t) && Judged(t)
  {
    if !Current(w, i) {
      LateGood(w, i);
    } else {
      assert Suits(w.work[i].stage, w.c);
      assert q == w.c.applied + 1;
      DoneSame(w, i);
      var t := AppliedEvent(Done(w, i), w.work[i].token, q);
      assert Quiet(t) && !Quiet(w);
      hide Inv;
    }
  }

  lemma StartGood(w: World, i: nat)
    requires Good(w) && i in w.work && w.work[i].stage.Waiting?
    ensures var t := StartBaseline(w, i); Tracked(t) && Judged(t)
  {
    var t := StartBaseline(w, i);
    if !Current(w, i) {
      LateGood(w, i);
    } else {
      assert Suits(w.work[i].stage, w.c);
      if t.c.token != w.c.token {
        ResetIsTracked(t);
      } else {
        hide Inv;
      }
    }
  }

  /** The current item makes its next baseline call, or is done with its last. */
  lemma LoadingGood(w: World, t: World, i: nat)
    requires Good(w) && Current(w, i) && LoadingNow(w.c) && t.c == w.c
    ensures Tracked(t) && Judged(t)
  {
    hide Inv;
  }

  lemma ContinueGood(w: World, i: nat)
    requires Good(w)
    ensures Tracked(Continue(w, i)) && Judged(Continue(w, i))
  {
    if i in w.work && w.work[i].stage.Waiting? {
      StartGood(w, i);
    } else if i in w.work && w.work[i].stage.landed {
      assert Current(w, i) ==> Suits(w.work[i].stage, w.c);
      hide Inv, Tracked, Judged, StartBaseline, EndBaseline, AppliedEvent;
      match w.work[i].stage.call
      case Finish(b) => EndGood(w, i, b);
      case ApplyEvent(q) => AppliedGood(w, i, q);
      case _ => if Current(w, i) { LoadingGood(w, Continue(w, i), i); } else { LateGood(w, i); }
    }
  }

  lemma RejectGood(w: World, i: nat)
    requires Good(w)
    ensures Tracked(Reject(w, i)) && Judged(Reject(w, i))
  {
    if i in w.work {
      if Current(w, i) {
        assert Suits(w.work[i].stage, w.c);
        ResetIsTracked(Reject(w, i));
      } else {
        LateGood(w, i);
      }
      hide Inv;
    }
  }

  lemma RecoverGood(w: World, reason: Reason, sameGrid: bool)
    requires Good(w)
    ensures var t := RecoverStep(w, reason, sameGrid); Tracked(t) && Judged(t)
  {
    var t := RecoverStep(w, reason, sameGrid);
    if t.c.token != w.c.token {
      ResetIsTracked(t);
    }
    hide Inv;
  }

  lemma TriggerGood(w: World, reason: Reason)
    requires Good(w)
    ensures Tracked(Trigger(w, reason)) && Judged(Trigger(w, reason))
  {
    hide Inv, Tracked, Judged, Priors;
    var t := Trigger(w, reason);
    if t.c.token != w.c.token {
      ResetIsTracked(t);
    } else {
      assert Quiet(t) == Quiet(w);
      SameGood(w, t);
    }
  }

  /** Steps that only ever change the token, or nothing the fence reads. */
  lemma OtherGood(w: World, l: Label)
    requires Good(w)
    requires l.Attaching? || l.Replacing? || l.Failing? || l.Detaching? || l.Disposing? || l.ViewFatal?
    ensures Tracked(Step(w, l)) && Judged(Step(w, l))
  {
    var t := Step(w, l);
    hide Inv;
    if t.c.token != w.c.token {
      ResetIsTracked(t);
    }
  }

  lemma HandOffGood(w: World)
    requires Good(w)
    ensures Tracked(HandOff(w)) && Judged(HandOff(w))
  {
    assert forall i :: Current(HandOff(w), i) == Current(w, i);
    SameGood(w, HandOff(w));
    hide Inv;
  }

  lemma StepGood(w: World, l: Label)
    requires Good(w) && !(l.Drained? && StrayStart(w))
    requires l.AckHandedOff? && Committing(w.c) ==> InSequence(w)
    ensures Good(Step(w, l))
  {
    StepKeepsInv(w, l);
    hide Inv, Tracked, Judged, InSequence, RecoverStep, Trigger, Marker, Committed, Receive, Drain, Land, Continue;
    hide Reject, HandOff;
    match l
    case Recovering(reason, sameGrid) => RecoverGood(w, reason, sameGrid);
    case Triggered(reason) => TriggerGood(w, reason);
    case Marked(mode, atSeq) => MarkerGood(w, mode, atSeq);
    case AckHandedOff => CommitGood(w);
    case Receiving(e) =>
      ReceiveJudged(w, e);
      ReceiveTracked(w, e);
    case Drained => if Draining(w) { DrainGood(w); } else { DrainIdle(w); }
    case Landing(i) => LandGood(w, i);
    case Continuing(i) => ContinueGood(w, i);
    case Rejected(i) => RejectGood(w, i);
    case HandingInput => HandOffGood(w);
    case _ => OtherGood(w, l);
  }

  lemma DrainIdle(w: World)
    requires !Draining(w)
    ensures Drain(w) == w
  {
  }

  // ---- Runs ----

  /** No step before point `n` turned a subscription ready over a hole in its queue. */
  ghost predicate Whole(ws: seq<World>, ls: seq<Label>, n: nat)
    requires |ws| == |ls| + 1 && n < |ws|
  {
    forall k :: 0 <= k < n && ls[k].AckHandedOff? && Committing(ws[k].c) ==> InSequence(ws[k])
  }

  /**
   In every run in which no subscription became ready over a hole, the fence of a ready
   subscription is up exactly when its queue has a hole.
   */
  lemma {:induction false} FenceIsExact(ws: seq<World>, ls: seq<Label>, n: nat)
    requires Run(ws, ls) && n < |ws| && Clear(ws, ls, n) && Whole(ws, ls, n)
    ensures Good(ws[n])
  {
    hide Step, Tracked, Judged, Inv, InSequence;
    if n == 0 {
      StartIsGood();
    } else {
      FenceIsExact(ws, ls, n - 1);
      StepGood(ws[n - 1], ls[n - 1]);
    }
  }

  /**
   So an input passes exactly while the subscription is ready and its queue continues the view: none
   is handed off after an out-of-sequence event has arrived, and none is held back without one.
   */
  lemma InputPassesInSequence(ws: seq<World>, ls: seq<Label>, n: nat)
    requires Run(ws, ls) && n < |ls| && Clear(ws, ls, n) && Whole(ws, ls, n) && ls[n].HandingInput?
    ensures ws[n + 1].inputs == ws[n].inputs + 1 <==> Live(ws[n]) && InSequence(ws[n])
  {
    FenceIsExact(ws, ls, n);
    assert OneAtATime(ws[n]);
    hide Inv, InSequence, Tracked, Run;
  }

  lemma StartIsGood()
    ensures Good(Start)
  {
    StartIsInv();
  }

  /** The condition is needed: becoming ready judges the queue rightly only if it has no hole. */
  lemma CommitJudgesExactly(w: World)
    requires Good(w) && Committing(w.c) && !w.c.fatal
    ensures Judged(Committed(w)) <==> InSequence(w)
  {
    var t := Committed(w);
    assert forall i :: Current(t, i) == Current(w, i);
    hide Written, Fenced, ViewExact, ViewLoading, Queued;
  }

  /** An event lost before readiness goes unnoticed: what follows it lands behind a lowered fence. */
  lemma HoleBeforeReady(w: World, q: nat)
    requires Good(w) && Committing(w.c) && !w.c.fatal && w.c.queue == [] && Free(w) && q != w.c.applied + 1
    ensures var t := Committed(Receive(w, RunEvent(q, Plain)));
            Live(t) && !t.c.gap && !InSequence(t)
  {
    var r := Receive(w, RunEvent(q, Plain));
    var t := Committed(r);
    assert forall i :: Current(t, i) == Current(w, i);
    SnocChain([], Item(RunEvent(q, Plain), w.c.token), w.c.applied);
    assert r.c.queue == [] + [Item(RunEvent(q, Plain), w.c.token)];
    hide Written, Fenced, ViewExact, ViewLoading, Queued;
  }
}
