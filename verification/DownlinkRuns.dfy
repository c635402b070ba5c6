/**
 Every run of the downlink, with view calls landing as late as they like: no event is skipped or
 applied twice, a replay continues an exact view, and no old write reaches a view that has begun a
 new baseline.
 */
module DownlinkRuns {
  import opened Common
  import opened Downlink

  // ---- The invariant ----

  predicate Current(w: World, i: nat) {
    i in w.work && w.work[i].token == w.c.token
  }

  predicate Committing(c: Controller) {
    c.operation.Some? && c.operation.value.committing
  }

  predicate Resuming(c: Controller) {
    c.phase.AwaitMarker? && c.operation.Some? && c.operation.value.resumed
  }

  /** The phases in which the current view holds the log up to `applied`. */
  predicate Exact(c: Controller) {
    Resuming(c) || (c.attached && (c.phase.Ready? || c.phase.InReplay? || (c.phase.InBaseline? && Committing(c))))
  }

  /** A baseline of this operation has begun and not ended. */
  predicate LoadingNow(c: Controller) {
    c.attached && c.phase.InBaseline? && c.operation.Some? && !Committing(c) && c.baseline.Some?
  }

  predicate AwaitingStart(c: Controller) {
    c.attached && c.phase.InBaseline? && c.operation.Some? && !Committing(c) && c.baseline.None?
  }

  /** A call in flight and the view it is made on agree, before and after it lands. */
  predicate Fits(c: Content, call: ViewCall, landed: bool) {
    match call
    case Initialize(_) => landed ==> c.Blank?
    case Begin(b) => c == if landed then Loading(b, 0) else Blank
    case WriteChunk(b, k) => c == Loading(b, if landed then k + 1 else k)
    case Finish(b) => c == if landed then Holding(Upto(b.atSeq)) else Loading(b, b.chunks)
    case ApplyEvent(q) => q > 0 && c == Holding(Upto(if landed then q else q - 1))
  }

  predicate Writer(w: World, i: nat) {
    i in w.work && w.work[i].stage.Writing?
  }

  /** At most one call is in flight on any view, old or new, and it finds what it expects. */
  ghost predicate Written(w: World) {
    && (forall i :: i in w.work ==> i < w.next && w.work[i].token <= w.c.token)
    && (forall i, j :: Writer(w, i) && Writer(w, j) && w.work[i].view == w.work[j].view ==> i == j)
    && (forall i :: Writer(w, i) ==>
          Fits(ContentOf(w, w.work[i].view), w.work[i].stage.call, w.work[i].stage.landed))
  }

  /** One item at a time is applied under the current token, to the current view. */
  ghost predicate OneAtATime(w: World) {
    && (forall i, j :: Current(w, i) && Current(w, j) ==> i == j)
    && (forall i :: Current(w, i) ==> w.work[i].view == w.c.view)
    && (w.c.phase.AwaitMarker? ==>
          w.c.queue == [] && forall i :: i in w.work ==> !Current(w, i))
    && (w.c.operation.Some? ==> !w.c.phase.Ready?)
    && (w.c.baseline.Some? ==> LoadingNow(w.c))
    && (Committing(w.c) ==> w.c.attached && (w.c.phase.InBaseline? || w.c.phase.InReplay?))
  }

  /** Work left over from earlier operations is known to the operation, and gone once it matters. */
  ghost predicate Fenced(w: World) {
    && (w.c.operation.Some? ==> forall i :: Leftover(w, i) ==> i in w.c.operation.value.priors)
    && (w.c.operation.Some? ==> forall i :: i in w.c.operation.value.priors ==>
                                  i < w.next && (i in w.work ==> Leftover(w, i)))
    && (Exact(w.c) || LoadingNow(w.c) ==> forall i :: i in w.work ==> !Leftover(w, i))
  }

  predicate Leftover(w: World, i: nat) {
    i in w.work && w.work[i].view == w.c.view && w.work[i].token != w.c.token
  }

  /** No item of the current token has a call in flight. */
  ghost predicate Quiet(w: World) {
    forall i :: Current(w, i) ==> w.work[i].stage.Waiting?
  }

  /** What the current view holds while it is exact. */
  ghost predicate ViewExact(w: World) {
    Exact(w.c) ==>
      && w.c.applied == w.c.proven
      && (forall i :: Current(w, i) && w.work[i].stage.Writing? ==>
                        w.work[i].stage.call == ApplyEvent(w.c.applied + 1))
      && (Quiet(w) ==> ContentOf(w, w.c.view) == Holding(Upto(w.c.applied)))
  }

  /** What the current view holds while a baseline is being loaded into it. */
  ghost predicate ViewLoading(w: World) {
    && (LoadingNow(w.c) ==>
          && w.c.operation.value.atSeq == Some(w.c.baseline.value.atSeq)
          && w.c.proven <= w.c.baseline.value.atSeq
          && (forall i :: Current(w, i) ==> Loads(w.work[i].stage, w.c.baseline.value, w.c.ordinal))
          && ((forall i :: i in w.work ==> !Current(w, i)) && !w.c.fatal ==>
                ContentOf(w, w.c.view) == Loading(w.c.baseline.value, w.c.ordinal)))
    && (AwaitingStart(w.c) ==> forall i :: Current(w, i) ==> w.work[i].stage.Waiting?)
  }

  predicate Loads(stage: Stage, b: Baseline, ordinal: nat) {
    && stage.Writing?
    && match stage.call
       case Initialize(d) => d == b && ordinal == 0
       case Begin(d) => d == b && ordinal == 0
       case WriteChunk(d, k) => d == b && ordinal == k + 1
       case Finish(d) => d == b && ordinal == b.chunks
       case ApplyEvent(_) => false
  }

  /** Events wait in the queue under the token they arrived under. */
  ghost predicate Queued(w: World) {
    forall k :: 0 <= k < |w.c.queue| ==> w.c.queue[k].token == w.c.token
  }

  /** The item being applied belongs to the phase. */
  ghost predicate InPlace(w: World) {
    forall i :: Current(w, i) ==> Suits(w.work[i].stage, w.c)
  }

  /** The baseline is the one the operation in progress was promised. */
  predicate Matches(c: Controller, b: Baseline) {
    c.operation.Some? && c.operation.value.atSeq == Some(b.atSeq) && c.proven <= b.atSeq
  }

  /** A start taken after the end of a baseline that its operation does not want. */
  predicate Refused(c: Controller, stage: Stage)
    requires stage.Waiting?
  {
    && c.attached && (c.phase.Ready? || (c.phase.InBaseline? && Committing(c)))
    && (stage.atSeq != Some(stage.baseline.atSeq) || stage.baseline.atSeq < c.proven)
  }

  /** A start that waits to begin the baseline of the operation in progress. */
  predicate Expected(c: Controller, stage: Stage)
    requires stage.Waiting?
  {
    AwaitingStart(c) && stage.atSeq == c.operation.value.atSeq && stage.priors == c.operation.value.priors
  }

  predicate Suits(stage: Stage, c: Controller) {
    if stage.Waiting? then Expected(c, stage) || Refused(c, stage)
    else if stage.call.ApplyEvent? then c.attached && (c.phase.Ready? || c.phase.InReplay?)
    else LoadingNow(c)
  }

  ghost predicate Inv(w: World) {
    Written(w) && OneAtATime(w) && InPlace(w) && Fenced(w) && ViewExact(w) && ViewLoading(w) && Queued(w)
  }

  // ---- A new token ----

  /** Whatever was in flight is left over: it may still land, and it still fits. */
  lemma RetireKeepsInv(w: World, phase: Phase)
    requires Inv(w)
    ensures Inv(Retire(w.(c := w.c.(phase := phase))))
  {
    var t := Retire(w.(c := w.c.(phase := phase)));
    assert forall i :: i in t.work ==> !Current(t, i);
    assert forall v :: ContentOf(t, v) == ContentOf(w, v);
  }

  lemma FailKeepsInv(w: World)
    requires Inv(w)
    ensures Inv(Fail(w))
  {
    RetireKeepsInv(w, Unavailable);
    hide Inv;
  }

  lemma BeginKeepsInv(w: World, kind: Kind, resumed: bool)
    requires Inv(w)
    requires resumed ==> w.c.attached && w.c.phase.Ready? && Priors(w) == {}
    ensures Inv(BeginOperation(w, kind, resumed))
  {
    var t := BeginOperation(w, kind, resumed);
    assert forall i :: i in t.work ==> !Current(t, i);
    assert forall v :: ContentOf(t, v) == ContentOf(w, v);
    forall i | Leftover(t, i) ensures i in Priors(w) {
    }
    assert forall i :: Current(w, i) ==> i in Priors(w);
  }

  lemma RecoverKeepsInv(w: World, reason: Reason, sameGrid: bool)
    requires Inv(w)
    ensures Inv(RecoverStep(w, reason, sameGrid))
  {
    hide Inv, BeginOperation;
    if w.c.phase.Ready? && w.c.attached && w.c.operation.None? {
      var resumed := w.c.retained && sameGrid && Priors(w) == {} && reason != Gap && reason != ResizeContext;
      BeginKeepsInv(w, Recover, resumed);
    }
  }

  lemma AttachKeepsInv(w: World)
    requires Inv(w)
    ensures Inv(AttachStep(w))
  {
    hide Inv, BeginOperation;
    if w.c.operation.None? {
      BeginKeepsInv(w, Attach, false);
    }
  }

  /** Fields the invariant does not read. */
  lemma FlagsKeepInv(w: World, retained: bool, autoUsed: bool)
    requires Inv(w)
    ensures Inv(w.(c := w.c.(retained := retained, autoUsed := autoUsed)))
  {
    SameWorkSame(w, w.(c := w.c.(retained := retained, autoUsed := autoUsed)));
    hide Written, Current, Leftover;
  }

  lemma TriggerKeepsInv(w: World, reason: Reason)
    requires Inv(w)
    ensures Inv(Trigger(w, reason))
  {
    hide Inv, Fail, RecoverStep;
    FailKeepsInv(w);
    FlagsKeepInv(w, false, true);
    assert w.(c := w.c.(autoUsed := true, retained := false)) == w.(c := w.c.(retained := false, autoUsed := true));
    RecoverKeepsInv(w.(c := w.c.(autoUsed := true, retained := false)), reason, false);
  }

  // ---- Markers and commits ----

  /** The step changes the controller only, under the same token and view. */
  predicate SameWork(w: World, t: World) {
    t.work == w.work && t.next == w.next && t.views == w.views && t.c.token == w.c.token && t.c.view == w.c.view
  }

  lemma SameWorkSame(w: World, t: World)
    requires SameWork(w, t)
    ensures forall i :: Current(t, i) == Current(w, i)
    ensures forall i :: Leftover(t, i) == Leftover(w, i)
    ensures forall i :: Writer(t, i) == Writer(w, i)
    ensures forall v :: ContentOf(t, v) == ContentOf(w, v)
    ensures Written(w) ==> Written(t)
  {
  }

  lemma MarkerKeepsInv(w: World, mode: Mode, atSeq: nat)
    requires Inv(w)
    ensures Inv(Marker(w, mode, atSeq))
  {
    var t := Marker(w, mode, atSeq);
    FailKeepsInv(w);
    if t != w && t != Fail(w) {
      SameWorkSame(w, t);
      hide Written, Current, Leftover;
    }
  }

  lemma CommitKeepsInv(w: World)
    requires Inv(w)
    ensures Inv(Committed(w))
  {
    var t := Committed(w);
    if t != w {
      SameWorkSame(w, t);
      hide Written, Current, Leftover;
    }
  }

  // ---- Receiving and draining ----

  lemma ReceiveKeepsInv(w: World, e: Event)
    requires Inv(w)
    ensures Inv(Receive(w, e))
  {
    var t := Receive(w, e);
    if t != w {
      assert t == w.(c := w.c.(queue := w.c.queue + [Item(e, w.c.token)], queuedSeq := t.c.queuedSeq, gap := t.c.gap));
      SameWorkSame(w, t);
      ReceiveKeepsViews(w, t);
      hide Written, Current, Leftover, Receive, ViewExact, ViewLoading, InPlace;
    }
  }

  lemma ReceiveKeepsViews(w: World, t: World)
    requires InPlace(w) && ViewExact(w) && ViewLoading(w) && SameWork(w, t)
    requires t.c == w.c.(queue := t.c.queue, queuedSeq := t.c.queuedSeq, gap := t.c.gap)
    ensures InPlace(t) && ViewExact(t) && ViewLoading(t)
  {
    SameWorkSame(w, t);
    hide Current, Leftover;
  }

  lemma FatalKeepsInv(w: World)
    requires Inv(w)
    ensures Inv(w.(c := w.c.(fatal := true)))
  {
    var t := w.(c := w.c.(fatal := true));
    SameWorkSame(w, t);
    hide Written, Current, Leftover;
  }

  /** The head of the queue is taken; nothing is in flight under the current token. */
  function Taken(w: World): World
    requires w.c.queue != []
  {
    w.(c := w.c.(queue := w.c.queue[1..]))
  }

  lemma TakenKeepsInv(w: World)
    requires Inv(w) && w.c.queue != []
    ensures Inv(Taken(w))
  {
    var t := Taken(w);
    SameWorkSame(w, t);
    assert forall k :: 0 <= k < |t.c.queue| ==> t.c.queue[k] == w.c.queue[k + 1];
    hide Written, Current, Leftover;
  }

  /** One more item in flight under the current token. */
  lemma IssueSame(w: World, stage: Stage)
    requires Written(w)
    ensures var t := Issue(w, stage);
            && (forall i :: Current(t, i) <==> Current(w, i) || i == w.next)
            && (forall i :: Leftover(t, i) == Leftover(w, i))
            && (forall v :: ContentOf(t, v) == ContentOf(w, v))
            && (forall i :: i in w.work ==> t.work[i] == w.work[i])
            && t.work[w.next] == Work(w.c.view, w.c.token, stage)
  {
    assert w.next !in w.work;
  }

  predicate Free(w: World) {
    forall i :: i in w.work ==> !Current(w, i)
  }

  /** A call issued with the view clear and fitting keeps every view consistent. */
  lemma IssueKeepsWritten(w: World, call: ViewCall)
    requires Written(w) && Free(w)
    requires forall i :: i in w.work ==> !Leftover(w, i)
    requires Fits(ContentOf(w, w.c.view), call, false)
    ensures Written(Issue(w, Writing(call, false)))
  {
    var t := Issue(w, Writing(call, false));
    IssueSame(w, Writing(call, false));
    forall i | i in w.work ensures w.work[i].view != w.c.view {
      assert !Leftover(w, i) && !Current(w, i);
    }
    forall i | Writer(t, i) ensures i == w.next || Writer(w, i) {
    }
  }

  lemma RunEventKeepsInv(w: World, q: nat)
    requires Inv(w) && Free(w) && w.c.attached && (w.c.phase.InReplay? || w.c.phase.Ready?)
    requires q == w.c.applied + 1
    ensures Inv(Issue(w, Writing(ApplyEvent(q), false)))
  {
    IssueKeepsWritten(w, ApplyEvent(q));
    IssueSame(w, Writing(ApplyEvent(q), false));
    hide Written, Current, Leftover, Fits;
  }

  lemma ChunkIssued(w: World)
    requires Inv(w) && Free(w) && w.c.attached && !w.c.fatal && w.c.phase.InBaseline? && w.c.baseline.Some?
    ensures Inv(Issue(w.(c := w.c.(ordinal := w.c.ordinal + 1)),
                      Writing(WriteChunk(w.c.baseline.value, w.c.ordinal), false)))
  {
    var m := w.(c := w.c.(ordinal := w.c.ordinal + 1));
    var call := WriteChunk(w.c.baseline.value, w.c.ordinal);
    SameWorkSame(w, m);
    assert Free(m);
    IssueKeepsWritten(m, call);
    ChunkFence(w, m, call);
    hide Written, OneAtATime, Fenced, Queued;
    IssueSame(m, Writing(call, false));
    hide Fits, Current, Leftover;
  }

  lemma ChunkFence(w: World, m: World, call: ViewCall)
    requires Inv(w) && Free(w) && Written(m) && SameWork(w, m) && m.c == w.c.(ordinal := m.c.ordinal)
    requires w.c.phase.InBaseline? && w.c.baseline.Some?
    ensures var t := Issue(m, Writing(call, false)); OneAtATime(t) && Fenced(t) && Queued(t)
  {
    SameWorkSame(w, m);
    IssueSame(m, Writing(call, false));
    hide Written, Current, Leftover, ViewExact, ViewLoading;
  }

  lemma ChunkKeepsInv(w: World, id: nat, ordinal: nat)
    requires Inv(w) && Free(w) && w.c.attached && !w.c.fatal
    ensures Inv(ApplyChunk(w, id, ordinal))
  {
    hide Inv, Fail, Issue;
    FailKeepsInv(w);
    if w.c.phase.InBaseline? && w.c.baseline.Some? {
      ChunkIssued(w);
    }
  }

  lemma EndIssued(w: World)
    requires Inv(w) && Free(w) && w.c.attached && !w.c.fatal && w.c.phase.InBaseline? && w.c.baseline.Some?
    requires w.c.ordinal == w.c.baseline.value.chunks
    ensures Inv(Issue(w, Writing(Finish(w.c.baseline.value), false)))
  {
    var call := Finish(w.c.baseline.value);
    IssueKeepsWritten(w, call);
    IssueSame(w, Writing(call, false));
    hide Written, Current, Leftover;
  }

  lemma EndKeepsInv(w: World, b: Baseline)
    requires Inv(w) && Free(w) && w.c.attached && !w.c.fatal
    ensures Inv(ApplyEnd(w, b))
  {
    hide Inv, Fail, Issue;
    FailKeepsInv(w);
    if w.c.phase.InBaseline? && w.c.baseline == Some(b) && w.c.ordinal == b.chunks {
      EndIssued(w);
    }
  }

  /** A start waits: it issues no call yet. */
  lemma StartKeepsInv(w: World, b: Baseline)
    requires Inv(w) && Free(w) && w.c.attached && w.c.phase.InBaseline? && w.c.operation.Some? && w.c.baseline.None?
    requires Committing(w.c) ==> !Matches(w.c, b)
    ensures var op := w.c.operation.value; Inv(Issue(w, Waiting(b, op.atSeq, op.priors)))
  {
    var stage := Waiting(b, w.c.operation.value.atSeq, w.c.operation.value.priors);
    var t := Issue(w, stage);
    IssueSame(w, stage);
    assert forall i :: Writer(t, i) == Writer(w, i);
    assert Written(t);
    hide Written, Current, Leftover;
  }

  lemma RunKeeps(w: World, q: nat, fact: Fact)
    requires Inv(w) && Free(w) && w.c.attached
    ensures Inv(ApplyRunEvent(w, q, fact))
  {
    hide Inv, Fail, Issue, Trigger;
    FailKeepsInv(w);
    TriggerKeepsInv(w, if fact.Resized? then ResizeContext else Gap);
    if (w.c.phase.InReplay? || w.c.phase.Ready?) && q == w.c.applied + 1 {
      RunEventKeepsInv(w, q);
    }
  }

  /**
   The next event starts another baseline, of the sequence the operation was promised, between the
   end of the first and the handoff of its ACK.
   */
  predicate StrayStart(w: World) {
    && Draining(w) && w.c.attached && !w.c.fatal && w.c.phase.InBaseline? && Committing(w.c)
    && w.c.queue[0].event.BaselineStart? && Matches(w.c, w.c.queue[0].event.baseline)
  }

  lemma DrainKeepsInv(w: World)
    requires Inv(w) && !StrayStart(w)
    ensures Inv(Drain(w))
  {
    if Draining(w) {
      var item := w.c.queue[0];
      var t := Taken(w);
      TakenKeepsInv(w);
      FailKeepsInv(t);
      if item.token == w.c.token && w.c.attached && !w.c.fatal {
        assert Free(t);
        hide Inv, Fail, ApplyChunk, ApplyEnd, ApplyRunEvent, Issue;
        match item.event
        case BaselineStart(b) =>
          if w.c.phase.InBaseline? && w.c.operation.Some? && w.c.baseline.None? { StartKeepsInv(t, b); }
        case BaselineChunk(id, ordinal) => ChunkKeepsInv(t, id, ordinal);
        case BaselineEnd(b) => EndKeepsInv(t, b);
        case RunEvent(q, fact) => RunKeeps(t, q, fact);
      }
    }
  }

  // ---- Calls in flight ----

  lemma FitsLanded(c: Content, call: ViewCall)
    requires Fits(c, call, false)
    ensures Fits(Landed(c, call), call, true)
  {
    if call.ApplyEvent? {
      assert Upto(call.at) == Upto(call.at - 1) + [call.at];
    }
  }

  lemma LandKeepsInv(w: World, i: nat)
    requires Inv(w)
    ensures Inv(Land(w, i))
  {
    if i in w.work && w.work[i].stage.Writing? && !w.work[i].stage.landed {
      LandKeepsWritten(w, i);
      LandKeepsFence(w, i);
      LandKeepsViews(w, i);
    }
    hide OneAtATime, Fenced, Queued, Written, ViewExact, ViewLoading;
  }

  lemma LandKeepsFence(w: World, i: nat)
    requires Inv(w) && Writer(w, i) && !w.work[i].stage.landed
    ensures OneAtATime(Land(w, i)) && Fenced(Land(w, i)) && Queued(Land(w, i))
  {
    LandSame(w, i);
    hide Written, Current, Leftover, Landed, ViewExact, ViewLoading;
  }

  lemma LandKeepsViews(w: World, i: nat)
    requires Inv(w) && Writer(w, i) && !w.work[i].stage.landed
    ensures ViewExact(Land(w, i)) && ViewLoading(Land(w, i))
  {
    LandSame(w, i);
    hide Written, Current, Landed, Queued;
    assert Leftover(w, i) || Current(w, i) || w.work[i].view != w.c.view;
  }

  lemma LandKeepsWritten(w: World, i: nat)
    requires Written(w) && Writer(w, i) && !w.work[i].stage.landed
    ensures Written(Land(w, i))
  {
    var t := Land(w, i);
    FitsLanded(ContentOf(w, w.work[i].view), w.work[i].stage.call);
    forall j | Writer(t, j) ensures Fits(ContentOf(t, t.work[j].view), t.work[j].stage.call, t.work[j].stage.landed) {
      assert Writer(w, j) && t.work[j].view == w.work[j].view;
    }
    assert forall j :: Writer(t, j) == Writer(w, j);
    assert forall j :: j in w.work ==> t.work[j].view == w.work[j].view;
  }

  /** Only the view written to changes, and it has no other call in flight. */
  lemma LandSame(w: World, i: nat)
    requires Written(w) && Writer(w, i) && !w.work[i].stage.landed
    ensures var t := Land(w, i);
            && (forall j :: Current(t, j) == Current(w, j))
            && (forall j :: Leftover(t, j) == Leftover(w, j))
            && (forall j :: j in t.work <==> j in w.work)
            && (forall j :: j in w.work && j != i ==> t.work[j] == w.work[j])
            && t.work[i] == w.work[i].(stage := Writing(w.work[i].stage.call, true))
            && (forall v :: v != w.work[i].view ==> ContentOf(t, v) == ContentOf(w, v))
  {
  }

  // ---- An item goes on ----

  lemma DoneSame(w: World, i: nat)
    requires i in w.work
    ensures var t := Done(w, i);
            && (forall j :: j in t.work <==> j in w.work && j != i)
            && (forall j :: j in t.work ==> t.work[j] == w.work[j])
            && (forall j :: Current(t, j) <==> Current(w, j) && j != i)
            && (forall j :: Leftover(t, j) <==> Leftover(w, j) && j != i)
            && (forall v :: ContentOf(t, v) == ContentOf(w, v))
            && (Written(w) ==> Written(t))
  {
    assert forall j :: Writer(Done(w, i), j) ==> Writer(w, j);
  }

  /** An item of an earlier token ends without a trace in the controller. */
  lemma LateKeepsInv(w: World, i: nat)
    requires Inv(w) && i in w.work && !Current(w, i)
    ensures Inv(Done(w, i))
  {
    DoneSame(w, i);
    hide Written, Current, Leftover;
  }

  lemma FailDone(w: World, i: nat)
    requires Inv(w) && Current(w, i) && !w.c.phase.Disposed?
    ensures Inv(Done(Fail(w), i))
  {
    FailKeepsInv(w);
    assert !Current(Fail(w), i);
    LateKeepsInv(Fail(w), i);
    hide Inv;
  }

  /** A call of the baseline landed: the view is where the controller thinks it is. */
  lemma LoadedKeepsInv(w: World, i: nat)
    requires Inv(w) && Current(w, i) && Writer(w, i) && w.work[i].stage.landed
    requires w.work[i].stage.call.Begin? || w.work[i].stage.call.WriteChunk?
    ensures Inv(Done(w, i))
  {
    DoneSame(w, i);
    assert Fits(ContentOf(w, w.c.view), w.work[i].stage.call, true);
    hide Written, Current, Leftover;
  }

  /** The same item, at its next call. */
  lemma RestageSame(w: World, t: World, i: nat, stage: Stage)
    requires i in w.work && t.work == w.work[i := w.work[i].(stage := stage)]
    requires t.c.token == w.c.token && t.c.view == w.c.view && t.views == w.views && t.next == w.next
    ensures forall j :: j in t.work <==> j in w.work
    ensures forall j :: j in w.work && j != i ==> t.work[j] == w.work[j]
    ensures forall j :: Current(t, j) == Current(w, j)
    ensures forall j :: Leftover(t, j) == Leftover(w, j)
    ensures forall v :: ContentOf(t, v) == ContentOf(w, v)
  {
  }

  lemma RestageKeepsWritten(w: World, t: World, i: nat, call: ViewCall)
    requires Written(w) && Current(w, i) && w.work[i].view == w.c.view
    requires t.work == w.work[i := w.work[i].(stage := Writing(call, false))]
    requires t.c.token == w.c.token && t.c.view == w.c.view && t.views == w.views && t.next == w.next
    requires Fits(ContentOf(w, w.c.view), call, false)
    requires forall j :: Writer(w, j) && w.work[j].view == w.c.view ==> j == i
    ensures Written(t)
  {
    assert forall j :: Writer(t, j) ==> Writer(w, j) || j == i;
    assert forall v :: ContentOf(t, v) == ContentOf(w, v);
  }

  /**
   A baseline begins. Everything unfinished when the operation began is over by now, so nothing but
   this item can still write to the view.
   */
  lemma InitializeKeepsInv(w: World, i: nat, b: Baseline)
    requires Inv(w) && Current(w, i) && w.work[i].stage.Waiting? && Expected(w.c, w.work[i].stage)
    requires w.work[i].stage.baseline == b && !w.c.fatal
    requires !exists p :: p in w.work[i].stage.priors && p in w.work
    requires w.work[i].stage.atSeq == Some(b.atSeq) && w.c.proven <= b.atSeq
    ensures Inv(StartBaseline(w, i))
  {
    var t := StartBaseline(w, i);
    forall j | j in w.work ensures !Leftover(w, j) {
    }
    assert forall j :: Writer(w, j) && w.work[j].view == w.c.view ==> j == i;
    RestageSame(w, t, i, Writing(Initialize(b), false));
    RestageKeepsWritten(w, t, i, Initialize(b));
    hide Written, Current, Leftover;
  }

  lemma NotBegunKeepsInv(w: World, i: nat, b: Baseline)
    requires Inv(w) && Current(w, i) && w.work[i].stage.Waiting? && Expected(w.c, w.work[i].stage)
    requires w.work[i].stage.baseline == b && w.c.fatal
    requires !exists p :: p in w.work[i].stage.priors && p in w.work
    requires w.work[i].stage.atSeq == Some(b.atSeq) && w.c.proven <= b.atSeq
    ensures Inv(StartBaseline(w, i))
  {
    var m := w.(c := w.c.(baseline := Some(b), ordinal := 0));
    SameWorkSame(w, m);
    DoneSame(m, i);
    forall j | j in w.work ensures !Leftover(w, j) {
    }
    hide Written, Current, Leftover;
  }

  /** A start taken after the end of a baseline that its operation does not want ends the subscription. */
  lemma RefusedKeepsInv(w: World, i: nat)
    requires Inv(w) && Current(w, i) && w.work[i].stage.Waiting? && Refused(w.c, w.work[i].stage)
    ensures StartBaseline(w, i) == w || StartBaseline(w, i) == Done(Fail(w), i)
    ensures Inv(StartBaseline(w, i))
  {
    FailDone(w, i);
    hide Inv, Fail, Done;
  }

  lemma StartBaselineKeepsInv(w: World, i: nat)
    requires Inv(w) && i in w.work && w.work[i].stage.Waiting?
    ensures Inv(StartBaseline(w, i))
  {
    if !Current(w, i) {
      LateKeepsInv(w, i);
    } else {
      assert Suits(w.work[i].stage, w.c);
      hide Inv, Fail, Done;
      if Refused(w.c, w.work[i].stage) {
        RefusedKeepsInv(w, i);
      } else {
        FailDone(w, i);
        var stage := w.work[i].stage;
        var b := stage.baseline;
        if !(exists p :: p in stage.priors && p in w.work) && stage.atSeq == Some(b.atSeq) && w.c.proven <= b.atSeq {
          if w.c.fatal { NotBegunKeepsInv(w, i, b); } else { InitializeKeepsInv(w, i, b); }
        }
      }
    }
  }

  lemma BeginBaselineKeepsInv(w: World, i: nat, b: Baseline)
    requires Inv(w) && i in w.work && w.work[i].stage == Writing(Initialize(b), true)
    ensures Inv(BeginBaseline(w, i, b))
  {
    if !Current(w, i) {
      LateKeepsInv(w, i);
    } else {
      var t := BeginBaseline(w, i, b);
      assert Writer(w, i);
      RestageSame(w, t, i, Writing(Begin(b), false));
      RestageKeepsWritten(w, t, i, Begin(b));
      hide Written, Current, Leftover;
    }
  }

  lemma EndBaselineKeepsInv(w: World, i: nat, b: Baseline)
    requires Inv(w) && i in w.work && w.work[i].stage == Writing(Finish(b), true)
    ensures Inv(EndBaseline(Done(w, i), w.work[i].token, b))
  {
    if !Current(w, i) {
      LateKeepsInv(w, i);
    } else {
      var d := Done(w, i);
      var t := EndBaseline(d, w.work[i].token, b);
      assert Writer(w, i);
      DoneSame(w, i);
      SameWorkSame(d, t);
      hide Written, Current, Leftover;
    }
  }

  lemma AppliedEventKeepsInv(w: World, i: nat, q: nat)
    requires Inv(w) && i in w.work && w.work[i].stage == Writing(ApplyEvent(q), true)
    ensures Inv(AppliedEvent(Done(w, i), w.work[i].token, q))
  {
    if !Current(w, i) {
      LateKeepsInv(w, i);
    } else {
      var d := Done(w, i);
      var t := AppliedEvent(d, w.work[i].token, q);
      assert Writer(w, i);
      DoneSame(w, i);
      SameWorkSame(d, t);
      hide Written, Current, Leftover;
    }
  }

  lemma ContinueKeepsInv(w: World, i: nat)
    requires Inv(w)
    ensures Inv(Continue(w, i))
  {
    if i in w.work && w.work[i].stage.Waiting? {
      StartBaselineKeepsInv(w, i);
    } else if i in w.work && w.work[i].stage.landed {
      hide Inv, StartBaseline, BeginBaseline, EndBaseline, AppliedEvent, Done;
      match w.work[i].stage.call
      case Initialize(b) => BeginBaselineKeepsInv(w, i, b);
      case Finish(b) => EndBaselineKeepsInv(w, i, b);
      case ApplyEvent(q) => AppliedEventKeepsInv(w, i, q);
      case _ => if Current(w, i) { LoadedKeepsInv(w, i); } else { LateKeepsInv(w, i); }
    }
  }

  lemma RejectKeepsInv(w: World, i: nat)
    requires Inv(w)
    ensures Inv(Reject(w, i))
  {
    if i in w.work {
      if Current(w, i) {
        assert Suits(w.work[i].stage, w.c);
        FailDone(w, i);
      } else {
        LateKeepsInv(w, i);
      }
      hide Inv, Fail, Done;
    }
  }

  /** Calls in flight stay with the view they were made on. */
  lemma ReplaceKeepsInv(w: World, view: nat)
    requires Inv(w)
    ensures Inv(ReplaceView(w, view))
  {
    var t := ReplaceView(w, view);
    if t != w {
      assert forall i :: i in t.work ==> !Current(t, i);
      assert forall i :: Writer(t, i) == Writer(w, i);
      assert forall v :: ContentOf(t, v) == ContentOf(w, v);
    }
  }

  lemma HandOffKeepsInv(w: World)
    requires Inv(w)
    ensures Inv(HandOff(w))
  {
    SameWorkSame(w, HandOff(w));
    hide Written, Current, Leftover, InputGate;
  }

  lemma StepKeepsInv(w: World, l: Label)
    requires Inv(w) && !(l.Drained? && StrayStart(w))
    ensures Inv(Step(w, l))
  {
    hide Inv, AttachStep, RecoverStep, Trigger, Marker, Committed, ReplaceView, Fail, Retire, Receive, Drain, Land;
    hide Continue, Reject, HandOff;
    match l
    case Attaching => AttachKeepsInv(w);
    case Recovering(reason, sameGrid) => RecoverKeepsInv(w, reason, sameGrid);
    case Triggered(reason) => TriggerKeepsInv(w, reason);
    case Marked(mode, atSeq) => MarkerKeepsInv(w, mode, atSeq);
    case AckHandedOff => CommitKeepsInv(w);
    case Replacing(view) => ReplaceKeepsInv(w, view);
    case Failing => FailKeepsInv(w);
    case Detaching =>
      RetireKeepsInv(w, w.c.phase);
      assert w.(c := w.c.(phase := w.c.phase)) == w;
    case Disposing => RetireKeepsInv(w, Disposed);
    case ViewFatal => FatalKeepsInv(w);
    case Receiving(e) => ReceiveKeepsInv(w, e);
    case Drained => DrainKeepsInv(w);
    case Landing(i) => LandKeepsInv(w, i);
    case Continuing(i) => ContinueKeepsInv(w, i);
    case Rejected(i) => RejectKeepsInv(w, i);
    case HandingInput => HandOffKeepsInv(w);
  }

  // ---- Runs ----

  ghost predicate Run(ws: seq<World>, ls: seq<Label>) {
    && |ws| == |ls| + 1
    && ws[0] == Start
    && forall i :: 0 <= i < |ls| ==> ws[i + 1] == Step(ws[i], ls[i])
  }

  /** No step before point `n` takes a start that strays into the window before the handoff. */
  ghost predicate Clear(ws: seq<World>, ls: seq<Label>, n: nat)
    requires |ws| == |ls| + 1 && n < |ws|
  {
    forall k :: 0 <= k < n && ls[k].Drained? ==> !StrayStart(ws[k])
  }

  function Steps(w: World, ls: seq<Label>): World
    decreases |ls|
  {
    if ls == [] then w else Steps(Step(w, ls[0]), ls[1..])
  }

  lemma OneMore(ws: seq<World>, ls: seq<Label>, l: Label)
    requires Run(ws, ls)
    ensures Run(ws + [Step(ws[|ls|], l)], ls + [l])
  {
    hide Step;
  }

  /** Any run goes on with any labels. */
  lemma {:induction false} RunGoesOn(ws: seq<World>, ls: seq<Label>, ms: seq<Label>) returns (vs: seq<World>)
    requires Run(ws, ls)
    ensures Run(vs, ls + ms) && ws <= vs && vs[|ls + ms|] == Steps(ws[|ls|], ms)
    decreases |ms|
  {
    hide Step;
    if ms == [] {
      assert ls + ms == ls;
      vs := ws;
    } else {
      OneMore(ws, ls, ms[0]);
      hide Run;
      vs := RunGoesOn(ws + [Step(ws[|ls|], ms[0])], ls + [ms[0]], ms[1..]);
      assert ls + [ms[0]] + ms[1..] == ls + ms;
    }
  }

  lemma StartIsInv()
    ensures Inv(Start)
  {
  }

  lemma {:induction false} RunKeepsInv(ws: seq<World>, ls: seq<Label>, n: nat)
    requires Run(ws, ls) && n < |ws| && Clear(ws, ls, n)
    ensures Inv(ws[n])
  {
    hide Inv, Step;
    if n == 0 {
      StartIsInv();
    } else {
      RunKeepsInv(ws, ls, n - 1);
      StepKeepsInv(ws[n - 1], ls[n - 1]);
    }
  }

  /** Event `q` lands in a view that holds 1 to `q - 1`, whichever view and token it belongs to. */
  lemma EventExtendsView(ws: seq<World>, ls: seq<Label>, n: nat, i: nat, q: nat)
    requires Run(ws, ls) && n < |ls| && Clear(ws, ls, n) && ls[n] == Landing(i)
    requires i in ws[n].work && ws[n].work[i].stage == Writing(ApplyEvent(q), false)
    ensures q > 0 && ContentOf(ws[n], ws[n].work[i].view) == Holding(Upto(q - 1))
    ensures ContentOf(ws[n + 1], ws[n].work[i].view) == Holding(Upto(q))
    ensures Current(ws[n], i) ==> ws[n].work[i].view == ws[n].c.view && q == ws[n].c.applied + 1
  {
    RunKeepsInv(ws, ls, n);
    assert Writer(ws[n], i);
    assert Upto(q) == Upto(q - 1) + [q];
    assert Current(ws[n], i) ==> Suits(ws[n].work[i].stage, ws[n].c);
    hide Fenced, Queued, ViewLoading;
  }

  /** No item has a call in flight, or yet to make, on the current view. */
  ghost predicate NothingOn(w: World) {
    forall i :: i in w.work ==> !Current(w, i) && !Leftover(w, i)
  }

  /** A replay is only accepted onto a view that holds exactly the log up to `applied`. */
  lemma ReplayContinuesExactView(ws: seq<World>, ls: seq<Label>, n: nat, atSeq: nat)
    requires Run(ws, ls) && n < |ls| && Clear(ws, ls, n) && ls[n] == Marked(ReplayMode, atSeq)
    requires !ws[n].c.phase.InReplay? && ws[n + 1].c.phase.InReplay?
    ensures ContentOf(ws[n + 1], ws[n + 1].c.view) == Holding(Upto(ws[n + 1].c.applied))
    ensures NothingOn(ws[n + 1])
    ensures ws[n + 1].c.applied == ws[n].c.applied <= atSeq
  {
    RunKeepsInv(ws, ls, n);
    var w := ws[n];
    assert Resuming(w.c);
    assert forall i :: i in w.work ==> !Current(w, i) && !Leftover(w, i);
    hide Written, Queued, ViewLoading;
  }

  /** When a baseline begins, and while it loads, no other item has any call left on the view. */
  lemma NoOldWriteAfterStart(ws: seq<World>, ls: seq<Label>, n: nat, i: nat)
    requires Run(ws, ls) && n < |ws| && Clear(ws, ls, n) && LoadingNow(ws[n].c)
    requires i in ws[n].work && ws[n].work[i].view == ws[n].c.view
    ensures Current(ws[n], i)
    ensures forall j :: Current(ws[n], j) || Leftover(ws[n], j) ==> j == i
  {
    RunKeepsInv(ws, ls, n);
    forall j | j in ws[n].work && ws[n].work[j].view == ws[n].c.view ensures Current(ws[n], j) {
      assert !Leftover(ws[n], j);
    }
    hide Written, Queued, ViewLoading, ViewExact;
  }

  lemma ReadyHolds(w: World)
    requires Inv(w) && w.c.attached && w.c.phase.Ready?
    ensures w.c.applied == w.c.proven
    ensures var c := ContentOf(w, w.c.view);
            c == Holding(Upto(w.c.applied)) || c == Holding(Upto(w.c.applied + 1))
  {
    if i :| Current(w, i) && w.work[i].stage.Writing? {
      assert Writer(w, i);
    } else {
      assert Quiet(w);
    }
    hide Fenced, Queued, ViewLoading;
  }

  /** A ready view holds the log up to `applied`, or up to the one event being applied to it. */
  lemma ReadyViewIsExact(ws: seq<World>, ls: seq<Label>, n: nat)
    requires Run(ws, ls) && n < |ws| && Clear(ws, ls, n) && ws[n].c.attached && ws[n].c.phase.Ready?
    ensures ws[n].c.applied == ws[n].c.proven
    ensures var c := ContentOf(ws[n], ws[n].c.view);
            c == Holding(Upto(ws[n].c.applied)) || c == Holding(Upto(ws[n].c.applied + 1))
  {
    hide Inv;
    RunKeepsInv(ws, ls, n);
    ReadyHolds(ws[n]);
  }

  lemma StepProven(w: World, l: Label)
    ensures w.c.proven <= Step(w, l).c.proven
  {
    hide AttachStep, RecoverStep, Trigger, Marker, Committed, ReplaceView, Receive, Drain, Land, Continue, Reject;
  }

  lemma {:induction false} ProvenRises(ws: seq<World>, ls: seq<Label>, m: nat, n: nat)
    requires Run(ws, ls) && m <= n < |ws|
    ensures ws[m].c.proven <= ws[n].c.proven
    decreases n
  {
    if m < n {
      ProvenRises(ws, ls, m, n - 1);
      StepProven(ws[n - 1], ls[n - 1]);
      hide Step;
    }
  }

  /**
   What a ready terminal has applied is in its view at every later point at which it is ready,
   whatever was attached, recovered or replaced in between.
   */
  lemma NeverGoesBack(ws: seq<World>, ls: seq<Label>, m: nat, n: nat)
    requires Run(ws, ls) && m <= n < |ws| && Clear(ws, ls, n)
    requires ws[m].c.attached && ws[m].c.phase.Ready? && ws[n].c.attached && ws[n].c.phase.Ready?
    ensures ContentOf(ws[n], ws[n].c.view).Holding?
    ensures Upto(ws[m].c.applied) <= ContentOf(ws[n], ws[n].c.view).events
  {
    ProvenRises(ws, ls, m, n);
    ReadyViewIsExact(ws, ls, m);
    ReadyViewIsExact(ws, ls, n);
    hide Run;
  }

  // ---- The window before the handoff ----

  predicate ReadyBlank(w: World) {
    w.c.attached && w.c.phase.Ready? && ContentOf(w, w.c.view) == Blank
  }

  /** The next event is taken and goes on, the ACK is handed off, and the call it made lands. */
  function Overtaken(w: World): World {
    Land(Committed(Continue(Drain(w), w.next)), w.next)
  }

  lemma StrayStartIssues(w: World)
    requires Inv(w) && StrayStart(w)
    ensures var b := w.c.queue[0].event.baseline;
            && Drain(w) == Issue(Taken(w), Waiting(b, w.c.operation.value.atSeq, w.c.operation.value.priors))
            && Continue(Drain(w), w.next) ==
                 Issue(Taken(w), Writing(Initialize(b), false)).(c := Taken(w).c.(baseline := Some(b), ordinal := 0))
  {
    var b := w.c.queue[0].event.baseline;
    var t := Issue(Taken(w), Waiting(b, w.c.operation.value.atSeq, w.c.operation.value.priors));
    assert w.c.queue[0].token == w.c.token;
    assert forall p :: p in w.c.operation.value.priors && p in w.work ==> !Leftover(w, p) && !Current(w, p);
    assert !exists p :: p in w.c.operation.value.priors && p in t.work;
    hide Inv;
    assert t.work[w.next := t.work[w.next].(stage := Writing(Initialize(b), false))] ==
           w.work[w.next := Work(w.c.view, w.c.token, Writing(Initialize(b), false))];
  }

  /**
   Exactly when the view is at risk: taking the next event keeps the invariant, from which every
   ready view is exact, unless it is a stray start; and after a stray start the subscription turns
   ready on a blank view if its baseline begins before the ACK of the first is handed off.
   */
  lemma StrayStartExactly(w: World)
    requires Inv(w) && Draining(w)
    ensures Inv(Drain(w)) <==> !StrayStart(w)
    ensures ReadyBlank(Overtaken(w)) <==> StrayStart(w)
  {
    if StrayStart(w) {
      StrayStartIssues(w);
      var t := Drain(w);
      assert Current(t, w.next) && !Suits(t.work[w.next].stage, t.c);
      hide Drain;
    } else {
      DrainKeepsInv(w);
      ContinueKeepsInv(Drain(w), w.next);
      CommitKeepsInv(Continue(Drain(w), w.next));
      LandKeepsInv(Committed(Continue(Drain(w), w.next)), w.next);
      var t := Overtaken(w);
      hide Inv, Drain, Land, Committed, Continue, StrayStart;
      if t.c.attached && t.c.phase.Ready? { ReadyHolds(t); }
    }
  }

  /** So a run that meets a stray start has a continuation to a blank ready view. */
  lemma StrayStartBlanksReadyView(ws: seq<World>, ls: seq<Label>) returns (vs: seq<World>, ks: seq<Label>)
    requires Run(ws, ls) && Clear(ws, ls, |ls|) && StrayStart(ws[|ls|])
    ensures Run(vs, ks) && ws <= vs && ls <= ks && ReadyBlank(vs[|ks|])
  {
    var w := ws[|ls|];
    var ms := [Drained, Continuing(w.next), AckHandedOff, Landing(w.next)];
    RunKeepsInv(ws, ls, |ls|);
    StrayStartExactly(w);
    hide Inv, Drain, Land, Committed, Continue, StrayStart, ReadyBlank, Run, Steps;
    ks := ls + ms;
    vs := RunGoesOn(ws, ls, ms);
    OvertakenIsRun(w, ms);
  }

  lemma OvertakenIsRun(w: World, ms: seq<Label>)
    requires ms == [Drained, Continuing(w.next), AckHandedOff, Landing(w.next)]
    ensures Steps(w, ms) == Overtaken(w)
  {
    hide Drain, Land, Committed, Continue;
    assert ms[1..] == [Continuing(w.next), AckHandedOff, Landing(w.next)];
    assert ms[1..][1..] == [AckHandedOff, Landing(w.next)];
    assert ms[1..][1..][1..] == [Landing(w.next)];
    assert ms[1..][1..][1..][1..] == [];
    var t := Continue(Drain(w), w.next);
    assert Steps(w, ms) == Steps(Drain(w), ms[1..]);
    assert Steps(Drain(w), ms[1..]) == Steps(t, ms[1..][1..]);
    assert Steps(t, ms[1..][1..]) == Steps(Committed(t), ms[1..][1..][1..]);
    assert Steps(Committed(t), ms[1..][1..][1..]) == Steps(Overtaken(w), []);
  }
}
