/**
 What control authority means over whole runs: the tracker of module Control, driven by every
 interleaving of target changes, focus results, deliveries and recoveries, against any server
 history in which each grant raises the epoch and a blur only clears the holder.
 */
module ControlRuns {
  import opened Common
  import opened Control

  // ---- Server histories ----

  datatype Authority = Authority(epoch: nat, holder: Option<Holder>)

  /** The authority after each sequence number. */
  type History = nat -> Authority

  ghost predicate LegalChange(a: Authority, b: Authority) {
    || b == a
    || (b.epoch == a.epoch && a.holder.Some? && b.holder.None?)
    || (b.epoch > a.epoch && b.holder.Some?)
  }

  ghost predicate LegalAt(h: History, s: nat) { LegalChange(h(s), h(s + 1)) }

  ghost predicate Legal(h: History) {
    h(0) == Authority(0, None) && forall s: nat :: LegalAt(h, s)
  }

  ghost predicate GrantedAt(h: History, ref: SubscriptionRef, epoch: nat, atSeq: nat) {
    atSeq >= 1 && h(atSeq) == Authority(epoch, Some(HolderOf(ref))) && h(atSeq - 1).epoch < epoch
  }

  /** `ref` holds `epoch` at every sequence number from `from` to `to` (trivially if to < from). */
  ghost predicate HeldFrom(h: History, ref: SubscriptionRef, epoch: nat, from: nat, to: nat) {
    forall t: nat :: from <= t <= to ==> h(t) == Authority(epoch, Some(HolderOf(ref)))
  }

  ghost predicate True(h: History, fact: Fact) {
    h(fact.at) == Authority(fact.epoch, fact.holder)
  }

  lemma {:induction false} EpochsRise(h: History, s: nat, t: nat)
    requires Legal(h) && s <= t
    ensures h(s).epoch <= h(t).epoch
    ensures h(s).epoch == h(t).epoch ==> h(t).holder == h(s).holder || h(t).holder.None?
    decreases t
  {
    if s < t {
      EpochsRise(h, s, t - 1);
      assert LegalAt(h, t - 1);
    }
  }

  /** Holding the granted epoch at `s` proves it was held ever since the grant. */
  lemma HeldSinceGrant(h: History, ref: SubscriptionRef, epoch: nat, atSeq: nat, s: nat)
    requires Legal(h) && GrantedAt(h, ref, epoch, atSeq)
    requires h(s) == Authority(epoch, Some(HolderOf(ref)))
    ensures atSeq <= s && HeldFrom(h, ref, epoch, atSeq, s)
  {
    if s < atSeq { EpochsRise(h, s, atSeq - 1); }
    forall t: nat | atSeq <= t <= s ensures h(t) == Authority(epoch, Some(HolderOf(ref))) {
      EpochsRise(h, atSeq, t);
      EpochsRise(h, t, s);
    }
  }

  /** On legal histories the check is exact: it holds iff the grant has ended by the fact. */
  lemma ContradictsIsExact(h: History, ref: SubscriptionRef, epoch: nat, atSeq: nat, fact: Fact)
    requires Legal(h) && GrantedAt(h, ref, epoch, atSeq) && True(h, fact)
    ensures Contradicts(epoch, atSeq, ref, fact)
            <==> fact.at >= atSeq && !HeldFrom(h, ref, epoch, atSeq, fact.at)
  {
    if fact.at >= atSeq {
      EpochsRise(h, atSeq, fact.at);
      if !Contradicts(epoch, atSeq, ref, fact) { HeldSinceGrant(h, ref, epoch, atSeq, fact.at); }
    } else {
      EpochsRise(h, fact.at, atSeq - 1);
    }
  }

  // ---- Runs ----

  datatype Phase = Unavailable | AwaitMarker | Baseline | Restored | Replay | Ready

  /** A queued run event: its sequence number and, for a control event, the fact it carries. */
  datatype Delivery = Delivery(event: nat, at: nat, control: Option<Fact>)

  /** What a focus command recorded when it was sent. */
  datatype Focus = Focus(ref: SubscriptionRef, viewGeneration: nat, losses: nat)

  datatype World = World(
    c: State,
    ref: Option<SubscriptionRef>,
    phase: Phase,
    viewGeneration: nat,
    appliedSeq: nat,
    queue: seq<Delivery>,
    nextEvent: nat,
    begun: map<int, Focus>)

  datatype Label =
    | SetTarget(foreground: bool, target: bool)
    | Attach(ref: SubscriptionRef)
    | Marker(baseline: bool)
    | BeginFocus
    | FocusResult(intent: int, epoch: nat, atSeq: nat)
    | FocusFailed(intent: int)
    | Arrive(at: nat, control: Option<Fact>)
    | ApplyHead
    | Recover(resizeContext: bool)
    | BaselineEnd(at: nat, authority: Authority)
    | Commit
    | ConnectionLost
    | Retire
    | ReplaceView
    | Exit

  const Start: World := World(Initial, None, Unavailable, 0, 0, [], 0, map[])

  /** What the server is trusted for: it reports its own history. */
  ghost predicate Truthful(h: History, w: World, l: Label) {
    match l
    case FocusResult(i, epoch, atSeq) => i in w.begun ==> GrantedAt(h, w.begun[i].ref, epoch, atSeq)
    case Arrive(at, Some(fact)) => at >= 1 && fact.at == at && True(h, fact)
    case Arrive(at, None) => at >= 1 && h(at) == h(at - 1)
    case BaselineEnd(at, authority) => h(at) == authority
    case _ => true
  }

  /** The local user moves the input target, or the run exits. */
  function TargetStep(w: World, l: Label): (r: World)
    ensures r.begun == w.begun && r.c.targetLosses >= w.c.targetLosses
    ensures l.SetTarget? && !(l.foreground && l.target) ==> r.c.targetLosses > w.c.targetLosses
  {
    match l
    case SetTarget(f, t) => w.(c := w.c.SetTarget(f, t))
    case Exit => w.(c := w.c.Exit())
    case _ => w
  }

  /** A focus is sent, answered or fails. */
  function FocusStep(w: World, l: Label): (r: World)
    ensures r.c.targetLosses == w.c.targetLosses
    ensures r.begun == w.begun || (r.c.intent in r.begun && r.begun == w.begun[r.c.intent := r.begun[r.c.intent]])
    ensures r.begun != w.begun ==> r.c.intent == w.c.intent + 1 > 0
  {
    match l
    case BeginFocus =>
      if w.phase != Ready || w.ref.None? then w
      else
        var (c, next) := w.c.BeginFocus();
        if next.None? then w
        else w.(c := c, begun := w.begun[next.value :=
                    Focus(w.ref.value, w.viewGeneration, w.c.targetLosses)])
    case FocusResult(i, epoch, atSeq) =>
      if i in w.begun && w.ref == Some(w.begun[i].ref) then
        var (c, ok) := w.c.AcceptFocus(i, w.begun[i].ref, w.begun[i].viewGeneration, epoch, atSeq);
        w.(c := if ok then c else w.c.FailFocus(i))
      else w.(c := w.c.FailFocus(i))
    case FocusFailed(i) => w.(c := w.c.FailFocus(i))
    case _ => w
  }

  /** The downlink delivers an event, applies the next one, or completes a baseline. */
  function DownlinkStep(w: World, l: Label): (r: World)
    ensures r.begun == w.begun && r.c.targetLosses == w.c.targetLosses
  {
    match l
    case Arrive(at, control) =>
      if w.ref.None? || w.phase == AwaitMarker || w.phase == Unavailable then w
      else
        var c := if control.None? then w.c
                 else w.c.Observe(w.nextEvent, control.value, w.ref.value).0;
        w.(c := c, queue := w.queue + [Delivery(w.nextEvent, at, control)],
           nextEvent := w.nextEvent + 1)
    case ApplyHead =>
      if (w.phase != Replay && w.phase != Ready) || w.queue == []
         || w.queue[0].at != w.appliedSeq + 1 then w
      else
        w.(c := if w.queue[0].control.None? then w.c else w.c.Apply(w.queue[0].event).0,
           appliedSeq := w.queue[0].at, queue := w.queue[1..])
    case BaselineEnd(at, authority) =>
      if w.phase != Baseline || w.ref.None? || at < w.appliedSeq then w
      else w.(c := w.c.Restore(authority.epoch, authority.holder, at, w.ref.value,
                               w.viewGeneration + 1),
              viewGeneration := w.viewGeneration + 1, appliedSeq := at, phase := Restored)
    case _ => w
  }

  function Withdraw(w: World, c: State): World {
    w.(c := c.ResetForRecovery(), ref := None, phase := Unavailable, queue := [])
  }

  /** An operation begins, is answered or commits, or the subscription is withdrawn. */
  function OperationStep(w: World, l: Label): (r: World)
    ensures r.begun == w.begun && r.c.targetLosses == w.c.targetLosses
  {
    match l
    case Attach(ref) =>
      if w.ref.Some? || w.phase != Unavailable then w
      else w.(ref := Some(ref), phase := AwaitMarker, queue := [])
    case Recover(resizeContext) =>
      if w.phase != Ready || w.ref.None? then w
      else w.(c := if resizeContext then w.c.SuspendForRecovery() else w.c.ResetForRecovery(),
              phase := AwaitMarker, queue := [])
    case Marker(baseline) =>
      if w.phase != AwaitMarker then w
      else w.(phase := if baseline then Baseline else Replay)
    case Commit =>
      if w.phase != Restored && w.phase != Replay then w
      else w.(c := w.c.FinishRecovery(), phase := Ready)
    case ConnectionLost => Withdraw(w, w.c.ConnectionLost())
    case Retire => Withdraw(w, w.c)
    case ReplaceView => Withdraw(w, w.c.ReplaceView()).(viewGeneration := w.viewGeneration + 1)
    case _ => w
  }

  /** One atomic step of the controller; a label whose guard fails changes nothing. */
  function Step(w: World, l: Label): World {
    match l
    case SetTarget(_, _) | Exit => TargetStep(w, l)
    case BeginFocus | FocusResult(_, _, _) | FocusFailed(_) => FocusStep(w, l)
    case Arrive(_, _) | ApplyHead | BaselineEnd(_, _) => DownlinkStep(w, l)
    case _ => OperationStep(w, l)
  }

  ghost predicate IsRun(h: History, ws: seq<World>, ls: seq<Label>) {
    && |ws| == |ls| + 1
    && ws[0] == Start
    && forall i :: 0 <= i < |ls| ==> Truthful(h, ws[i], ls[i]) && ws[i + 1] == Step(ws[i], ls[i])
  }

  // ---- The invariant ----

  /** Every remembered fact is true of the history, and the applied one is in force at appliedSeq. */
  ghost predicate FactsTrue(h: History, w: World) {
    && (forall e :: e in w.c.canonicalFacts ==> True(h, w.c.canonicalFacts[e]) && e < w.nextEvent)
    && (w.c.observed.Some? ==> w.ref.Some? && True(h, w.c.observed.value))
    && (w.c.applied.Some? ==>
          h(w.appliedSeq) == Authority(w.c.applied.value.epoch, w.c.applied.value.holder))
  }

  ghost predicate DeliveryTrue(h: History, w: World, d: Delivery) {
    && d.at >= 1
    && d.event < w.nextEvent
    && (d.control.Some? ==> d.control.value.at == d.at && True(h, d.control.value))
    && (d.control.None? ==> h(d.at) == h(d.at - 1))
  }

  /** One of the first `n` queued events is at or after `at`. */
  ghost predicate Reached(queue: seq<Delivery>, n: nat, at: nat)
    requires n <= |queue|
  {
    exists j :: 0 <= j < n && queue[j].at >= at
  }

  /** A queued control fact was taken over by `observe`, or something newer overtook it. */
  ghost predicate ObservedOrOvertaken(w: World, i: nat)
    requires i < |w.queue|
  {
    w.queue[i].control.None?
    || (w.queue[i].event in w.c.canonicalFacts
        && w.c.canonicalFacts[w.queue[i].event] == w.queue[i].control.value)
    || w.queue[i].at <= w.appliedSeq
    || Reached(w.queue, i, w.queue[i].at)
  }

  ghost predicate QueueTrue(h: History, w: World) {
    && (forall i :: 0 <= i < |w.queue| ==>
          DeliveryTrue(h, w, w.queue[i]) && ObservedOrOvertaken(w, i))
    && (w.c.observed.Some? ==>
          w.c.observed.value.at <= w.appliedSeq
          || Reached(w.queue, |w.queue|, w.c.observed.value.at))
  }

  /** `i` is a focus sent on the current subscription since the last loss of the input target. */
  ghost predicate CurrentFocus(w: World, i: int) {
    && i in w.begun
    && w.ref == Some(w.begun[i].ref)
    && w.begun[i].losses == w.c.targetLosses
  }

  /** A grant this client keeps: really granted, uncontested by what was seen, still wanted. */
  ghost predicate KeptGrant(h: History, w: World, g: Grant) {
    && CurrentFocus(w, g.intent)
    && w.ref == Some(g.ref)
    && GrantedAt(h, g.ref, g.epoch, g.atSeq)
    && (w.c.observed.Some? ==> !Contradicts(g.epoch, g.atSeq, g.ref, w.c.observed.value))
  }

  ghost predicate GrantsKept(h: History, w: World) {
    && (w.c.grant.Some? ==> KeptGrant(h, w, w.c.grant.value))
    && (w.c.carried.Some? ==> KeptGrant(h, w, w.c.carried.value))
    && (w.c.pending.Some? ==> CurrentFocus(w, w.c.pending.value))
    && (w.c.carriedIntent.Some? ==> CurrentFocus(w, w.c.carriedIntent.value))
    && (w.c.recovering ==> w.c.grant.None? && w.c.pending.None? && w.phase != Ready)
    && (w.c.carried.Some? ==> w.c.recovering)
    && (w.phase == AwaitMarker || w.phase == Baseline ==>
          w.c.grant.None? && w.c.pending.None? && (w.c.carriedIntent.Some? ==> w.c.recovering))
    && (w.c.intent < 0 || forall i :: i in w.begun ==> i <= w.c.intent)
    && (forall i :: i in w.begun ==> w.begun[i].losses <= w.c.targetLosses)
  }

  ghost predicate Inv(h: History, w: World) {
    FactsTrue(h, w) && QueueTrue(h, w) && GrantsKept(h, w)
  }

  // ---- Preservation ----

  lemma NewerIsLater(h: History, a: Fact, b: Fact)
    requires Legal(h) && True(h, a) && True(h, b)
    requires a.epoch > b.epoch
    ensures a.at > b.at
  {
    if a.at <= b.at { EpochsRise(h, a.at, b.at); }
  }

  lemma ReachedAppend(queue: seq<Delivery>, d: Delivery, n: nat, at: nat)
    requires n <= |queue| && Reached(queue, n, at)
    ensures Reached(queue + [d], n, at) && Reached(queue + [d], |queue| + 1, at)
  {
    var j :| 0 <= j < n && queue[j].at >= at;
    assert (queue + [d])[j].at >= at;
  }

  lemma ReachedTail(queue: seq<Delivery>, n: nat, at: nat)
    requires 0 < n <= |queue| && Reached(queue, n, at)
    ensures queue[0].at >= at || Reached(queue[1..], n - 1, at)
  {
    var j :| 0 <= j < n && queue[j].at >= at;
    assert j > 0 ==> queue[1..][j - 1].at >= at;
  }

  lemma ArriveKeepsOlder(h: History, w: World, at: nat, control: Option<Fact>, i: nat)
    requires FactsTrue(h, w) && QueueTrue(h, w) && i < |w.queue|
    ensures i < |DownlinkStep(w, Arrive(at, control)).queue|
            && ObservedOrOvertaken(DownlinkStep(w, Arrive(at, control)), i)
  {
    var w' := DownlinkStep(w, Arrive(at, control));
    assert w'.queue[i] == w.queue[i] && ObservedOrOvertaken(w, i) && DeliveryTrue(h, w, w.queue[i]);
    if w' != w && Reached(w.queue, i, w.queue[i].at) {
      ReachedAppend(w.queue, Delivery(w.nextEvent, at, control), i, w.queue[i].at);
    }
  }

  /** An arriving control fact that `observe` refuses is not newer than something before it. */
  lemma RefusedIsOvertaken(h: History, w: World, control: Fact, ref: SubscriptionRef)
    requires Legal(h) && FactsTrue(h, w) && QueueTrue(h, w) && True(h, control)
    requires !w.c.Observe(w.nextEvent, control, ref).1
    ensures control.at <= w.appliedSeq
            || Reached(w.queue, |w.queue|, control.at)
  {
    var was := w.c.observed.value;
    if control.epoch < was.epoch { NewerIsLater(h, was, control); }
  }

  lemma ArriveKeepsQueue(h: History, w: World, at: nat, control: Option<Fact>)
    requires Legal(h) && FactsTrue(h, w) && QueueTrue(h, w) && Truthful(h, w, Arrive(at, control))
    ensures QueueTrue(h, DownlinkStep(w, Arrive(at, control)))
  {
    var w' := DownlinkStep(w, Arrive(at, control));
    if w' != w {
      var n := |w.queue|;
      forall i | 0 <= i < n ensures ObservedOrOvertaken(w', i) && w'.queue[i] == w.queue[i] {
        ArriveKeepsOlder(h, w, at, control, i);
      }
      if control.Some? && !w.c.Observe(w.nextEvent, control.value, w.ref.value).1 {
        RefusedIsOvertaken(h, w, control.value, w.ref.value);
      }
      assert w'.queue[n] == Delivery(w.nextEvent, at, control);
      if Reached(w.queue, n, at) { ReachedAppend(w.queue, w'.queue[n], n, at); }
      assert ObservedOrOvertaken(w', n);
      if w.c.observed.Some? && Reached(w.queue, n, w.c.observed.value.at) {
        ReachedAppend(w.queue, w'.queue[n], n, w.c.observed.value.at);
      }
    }
  }

  lemma ApplyKeepsFacts(h: History, w: World)
    requires Legal(h) && FactsTrue(h, w) && QueueTrue(h, w)
    ensures FactsTrue(h, DownlinkStep(w, ApplyHead))
  {
    if w.queue != [] {
      assert DeliveryTrue(h, w, w.queue[0]) && ObservedOrOvertaken(w, 0);
      assert LegalAt(h, w.appliedSeq);
    }
  }

  lemma ApplyKeepsQueue(h: History, w: World)
    requires QueueTrue(h, w)
    ensures QueueTrue(h, DownlinkStep(w, ApplyHead))
  {
    hide True, Contradicts, Reached;
    var w' := DownlinkStep(w, ApplyHead);
    if w' != w {
      forall i | 0 <= i < |w'.queue|
        ensures DeliveryTrue(h, w', w'.queue[i]) && ObservedOrOvertaken(w', i)
      {
        assert w'.queue[i] == w.queue[i + 1] && ObservedOrOvertaken(w, i + 1);
        if Reached(w.queue, i + 1, w.queue[i + 1].at) {
          ReachedTail(w.queue, i + 1, w.queue[i + 1].at);
        }
      }
      if w.c.observed.Some? && Reached(w.queue, |w.queue|, w.c.observed.value.at) {
        ReachedTail(w.queue, |w.queue|, w.c.observed.value.at);
      }
    }
  }

  lemma BaselineKeeps(h: History, w: World, at: nat, a: Authority)
    requires Legal(h) && Inv(h, w) && h(at) == a
    ensures Inv(h, DownlinkStep(w, BaselineEnd(at, a)))
  {
    var w' := DownlinkStep(w, BaselineEnd(at, a));
    if w' != w {
      forall i | 0 <= i < |w'.queue| ensures ObservedOrOvertaken(w', i) {
        assert ObservedOrOvertaken(w, i);
      }
    }
  }

  /** A step that leaves the queue and the observed facts alone keeps the queue's invariant. */
  lemma QueueUntouched(h: History, w: World, w': World)
    requires QueueTrue(h, w)
    requires w'.queue == w.queue && w'.nextEvent == w.nextEvent && w'.appliedSeq == w.appliedSeq
    requires w'.c.canonicalFacts == w.c.canonicalFacts
    requires w'.c.observed == w.c.observed || w'.c.observed.None?
    ensures QueueTrue(h, w')
  {
    forall i | 0 <= i < |w.queue| ensures ObservedOrOvertaken(w', i) {
      assert ObservedOrOvertaken(w, i);
    }
  }

  lemma BeginFocusKeeps(h: History, w: World)
    requires Legal(h) && Inv(h, w)
    ensures Inv(h, FocusStep(w, BeginFocus))
  {
    var w' := FocusStep(w, BeginFocus);
    QueueUntouched(h, w, w');
    assert FactsTrue(h, w');
  }

  lemma AcceptKeeps(h: History, w: World, i: int, epoch: nat, atSeq: nat)
    requires Legal(h) && Inv(h, w) && i in w.begun && w.ref == Some(w.begun[i].ref)
    requires GrantedAt(h, w.begun[i].ref, epoch, atSeq)
    ensures var f := w.begun[i];
            var c := w.c.AcceptFocus(i, f.ref, f.viewGeneration, epoch, atSeq).0;
            GrantsKept(h, w.(c := c))
  {
  }

  lemma FocusResultKeeps(h: History, w: World, l: Label)
    requires Legal(h) && Inv(h, w) && Truthful(h, w, l)
    requires l.FocusResult? || l.FocusFailed?
    ensures Inv(h, FocusStep(w, l))
  {
    if l.FocusResult? && l.intent in w.begun && w.ref == Some(w.begun[l.intent].ref) {
      AcceptKeeps(h, w, l.intent, l.epoch, l.atSeq);
    }
    hide Contradicts, QueueTrue, GrantedAt;
    var w' := FocusStep(w, l);
    QueueUntouched(h, w, w');
    assert FactsTrue(h, w');
  }

  lemma TargetKeeps(h: History, w: World, l: Label)
    requires Legal(h) && Inv(h, w)
    ensures Inv(h, TargetStep(w, l))
  {
    QueueUntouched(h, w, TargetStep(w, l));
  }

  lemma RecoverKeeps(h: History, w: World, resizeContext: bool)
    requires Legal(h) && Inv(h, w)
    ensures Inv(h, OperationStep(w, Recover(resizeContext)))
  {
  }

  lemma OperationKeeps(h: History, w: World, l: Label)
    requires Legal(h) && Inv(h, w) && !l.Recover?
    ensures Inv(h, OperationStep(w, l))
  {
    var w' := OperationStep(w, l);
    assert FactsTrue(h, w');
    if w'.queue != [] { QueueUntouched(h, w, w'); }
  }

  lemma ArriveKeeps(h: History, w: World, at: nat, control: Option<Fact>)
    requires Legal(h) && Inv(h, w) && Truthful(h, w, Arrive(at, control))
    ensures Inv(h, DownlinkStep(w, Arrive(at, control)))
  {
    ArriveKeepsQueue(h, w, at, control);
  }

  lemma ApplyKeeps(h: History, w: World)
    requires Legal(h) && Inv(h, w)
    ensures Inv(h, DownlinkStep(w, ApplyHead))
  {
    ApplyKeepsFacts(h, w);
    ApplyKeepsQueue(h, w);
    hide Contradicts, FactsTrue, QueueTrue;
  }

  lemma StepKeepsInv(h: History, w: World, l: Label)
    requires Legal(h) && Inv(h, w) && Truthful(h, w, l)
    ensures Inv(h, Step(w, l))
  {
    hide Inv, TargetStep, FocusStep, DownlinkStep, OperationStep;
    match l
    case Arrive(at, control) => ArriveKeeps(h, w, at, control);
    case ApplyHead => ApplyKeeps(h, w);
    case BaselineEnd(at, a) => BaselineKeeps(h, w, at, a);
    case BeginFocus => BeginFocusKeeps(h, w);
    case FocusResult(_, _, _) | FocusFailed(_) => FocusResultKeeps(h, w, l);
    case SetTarget(_, _) | Exit => TargetKeeps(h, w, l);
    case Recover(r) => RecoverKeeps(h, w, r);
    case _ => OperationKeeps(h, w, l);
  }

  lemma {:induction false} RunKeepsInv(h: History, ws: seq<World>, ls: seq<Label>, i: nat)
    requires Legal(h) && IsRun(h, ws, ls) && i < |ws|
    ensures Inv(h, ws[i])
  {
    hide Step, Truthful;
    if i > 0 {
      hide Inv;
      RunKeepsInv(h, ws, ls, i - 1);
      StepKeepsInv(h, ws[i - 1], ls[i - 1]);
    }
  }

  // ---- Main results ----

  /**
   In every run, `ready` means the server granted that epoch to this very subscription and it has
   been held without a break up to everything applied and everything observed.
   */
  lemma ReadyMeansHeld(h: History, ws: seq<World>, ls: seq<Label>, i: nat, ref: SubscriptionRef)
    requires Legal(h) && IsRun(h, ws, ls) && i < |ws|
    requires ws[i].c.Ready(ref, ws[i].viewGeneration, ws[i].appliedSeq)
    ensures var g := ws[i].c.grant.value;
            && ws[i].ref == Some(ref)
            && GrantedAt(h, ref, g.epoch, g.atSeq)
            && g.atSeq <= ws[i].appliedSeq
            && HeldFrom(h, ref, g.epoch, g.atSeq, ws[i].appliedSeq)
            && (ws[i].c.observed.Some? ==>
                  HeldFrom(h, ref, g.epoch, g.atSeq, ws[i].c.observed.value.at))
            && CurrentFocus(ws[i], g.intent)
  {
    RunKeepsInv(h, ws, ls, i);
    var w := ws[i];
    var g := w.c.grant.value;
    HeldSinceGrant(h, ref, g.epoch, g.atSeq, w.appliedSeq);
    if w.c.observed.Some? { HeldSinceGrant(h, ref, g.epoch, g.atSeq, w.c.observed.value.at); }
  }

  /**
   The verdict of a baseline at `at` on a carried grant, in every run: it is reinstated exactly if
   it is still wanted and neither the baseline nor any later observed fact shows it has ended. A
   grant whose own fact is still ahead (at < atSeq) counts as not ended.
   */
  lemma CarriedGrantVerdict(h: History, ws: seq<World>, ls: seq<Label>, i: nat)
    requires Legal(h) && IsRun(h, ws, ls) && i < |ls|
    requires ls[i].BaselineEnd? && ws[i + 1] != ws[i] && ws[i].c.carried.Some?
    ensures var w, g, at := ws[i], ws[i].c.carried.value, ls[i].at;
            && g.ref == ws[i].ref.value
            && CurrentFocus(w, g.intent)
            && (ws[i + 1].c.grant.Some? <==>
                  && w.c.WantsFocus() && !w.c.exited
                  && HeldFrom(h, g.ref, g.epoch, g.atSeq, at)
                  && HeldFrom(h, g.ref, g.epoch, g.atSeq, ws[i + 1].c.observed.value.at))
            && (ws[i + 1].c.grant.Some? ==>
                  ws[i + 1].c.grant.value == g.(viewGeneration := ws[i + 1].viewGeneration))
  {
    RunKeepsInv(h, ws, ls, i);
    RunKeepsInv(h, ws, ls, i + 1);
    var g := ws[i].c.carried.value;
    var a := ls[i].authority;
    assert Truthful(h, ws[i], ls[i]);
    ContradictsIsExact(h, g.ref, g.epoch, g.atSeq, Fact(ls[i].at, a.epoch, a.holder));
    ContradictsIsExact(h, g.ref, g.epoch, g.atSeq, ws[i + 1].c.observed.value);
  }

  /**
   No grant, focus result or carried grant survives the loss of the input target: whatever is kept
   after any number of recoveries was asked for since the last loss.
   */
  lemma NothingKeptAcrossTargetLoss(h: History, ws: seq<World>, ls: seq<Label>, i: nat, j: nat)
    requires Legal(h) && IsRun(h, ws, ls) && i < j < |ws|
    requires ls[i].SetTarget? && !(ls[i].foreground && ls[i].target)
    ensures ws[j].c.grant.Some? ==> ws[j].c.grant.value.intent !in ws[i].begun
    ensures ws[j].c.carried.Some? ==> ws[j].c.carried.value.intent !in ws[i].begun
  {
    RunKeepsInv(h, ws, ls, j);
    LossesOnlyGrow(h, ws, ls, i, j);
    RunKeepsInv(h, ws, ls, i);
    assert forall k :: k in ws[i].begun ==> !CurrentFocus(ws[j], k);
  }

  lemma {:induction false} LossesOnlyGrow(h: History, ws: seq<World>, ls: seq<Label>, i: nat, j: nat)
    requires Legal(h) && IsRun(h, ws, ls) && i < j < |ws|
    ensures ws[j].c.targetLosses >= ws[i].c.targetLosses
    ensures ls[i].SetTarget? && !(ls[i].foreground && ls[i].target) ==>
              ws[j].c.targetLosses > ws[i].c.targetLosses
    ensures forall k :: k in ws[i].begun ==> k in ws[j].begun && ws[j].begun[k] == ws[i].begun[k]
    decreases j
  {
    hide Step, Truthful;
    if j > i + 1 { LossesOnlyGrow(h, ws, ls, i, j - 1); }
    RunKeepsInv(h, ws, ls, j - 1);
    StepGrows(ws[j - 1], ls[j - 1]);
  }

  lemma StepGrows(w: World, l: Label)
    requires w.c.intent < 0 || forall i :: i in w.begun ==> i <= w.c.intent
    ensures Step(w, l).c.targetLosses >= w.c.targetLosses
    ensures l.SetTarget? && !(l.foreground && l.target) ==>
              Step(w, l).c.targetLosses > w.c.targetLosses
    ensures forall k :: k in w.begun ==>
              k in Step(w, l).begun && Step(w, l).begun[k] == w.begun[k]
  {
  }
}
