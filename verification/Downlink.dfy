/**
 The downlink of a terminal controller: attach and recover operations fenced by tokens, baseline or
 replay into a view whose writes are asynchronous, and contiguous application of run events.

 Run event `q` of the server's log is named by its sequence number, so a view's contents are the
 numbers folded into it. A view call is issued, lands in the view at some later moment and is
 awaited; between any two steps of one controller any other step may happen.
 */
module Downlink {
  import opened Common

  datatype Baseline = Baseline(id: nat, atSeq: nat, chunks: nat)

  datatype Fact = Plain | Resized(requiresBaseline: bool)

  datatype Event =
    | BaselineStart(baseline: Baseline)
    | BaselineChunk(id: nat, ordinal: nat)
    | BaselineEnd(baseline: Baseline)
    | RunEvent(at: nat, fact: Fact)

  // ---- Views ----

  datatype Content = Blank | Loading(baseline: Baseline, count: nat) | Holding(events: seq<nat>) | Broken

  datatype ViewCall =
    | Initialize(baseline: Baseline)
    | Begin(baseline: Baseline)
    | WriteChunk(baseline: Baseline, ordinal: nat)
    | Finish(baseline: Baseline)
    | ApplyEvent(at: nat)

  /** The log folded up to `n`: events 1 to `n`, each once and in order. */
  function Upto(n: nat): seq<nat> {
    seq(n, i requires 0 <= i => i + 1)
  }

  /** What a view makes of a call; a call out of place leaves it unusable. */
  function Landed(c: Content, call: ViewCall): Content {
    match call
    case Initialize(_) => Blank
    case Begin(b) => if c.Blank? then Loading(b, 0) else Broken
    case WriteChunk(b, k) => if c == Loading(b, k) then Loading(b, k + 1) else Broken
    case Finish(b) => if c == Loading(b, b.chunks) then Holding(Upto(b.atSeq)) else Broken
    case ApplyEvent(q) => if c.Holding? then Holding(c.events + [q]) else Broken
  }

  // ---- The controller ----

  datatype Phase = Idle | AwaitMarker | InBaseline | InReplay | Ready | Unavailable | Disposed

  datatype Kind = Attach | Recover

  datatype Reason = Gap | ReleasedView | ResizeContext | Expired

  datatype Mode = BaselineMode | ReplayMode

  /** `resumed` records whether the recover command offered a resume point. */
  datatype Operation = Operation(
    kind: Kind, resumed: bool, atSeq: Option<nat>, priors: set<nat>, committing: bool)

  datatype Item = Item(event: Event, token: nat)

  datatype Controller = Controller(
    token: nat,
    phase: Phase,
    view: nat,
    attached: bool,
    queue: seq<Item>,
    operation: Option<Operation>,
    applied: nat,
    proven: nat,
    retained: bool,
    baseline: Option<Baseline>,
    ordinal: nat,
    fatal: bool,
    queuedSeq: Option<nat>,
    gap: bool,
    autoUsed: bool)

  /** An item taken from the queue whose parsing has not finished; a start keeps what its operation wants. */
  datatype Stage =
    | Waiting(baseline: Baseline, atSeq: Option<nat>, priors: set<nat>)
    | Writing(call: ViewCall, landed: bool)

  datatype Work = Work(view: nat, token: nat, stage: Stage)

  /** `inputs` counts the inputs handed off. */
  datatype World = World(c: Controller, work: map<nat, Work>, next: nat, views: map<nat, Content>, inputs: nat)

  function ContentOf(w: World, view: nat): Content {
    if view in w.views then w.views[view] else Blank
  }

  const Start: World := World(
    Controller(0, Idle, 0, false, [], None, 0, 0, false, None, 0, false, None, false, false),
    map[], 0, map[], 0)

  // ---- Operations ----

  /** Unfinished parsing on the current view, which a new operation must wait for. */
  function Priors(w: World): set<nat> {
    set i | i in w.work && w.work[i].view == w.c.view
  }

  function BeginOperation(w: World, kind: Kind, resumed: bool): World {
    w.(c := w.c.(
      token := w.c.token + 1,
      phase := AwaitMarker,
      queue := [],
      queuedSeq := None,
      gap := false,
      baseline := None,
      fatal := w.c.fatal && kind == Recover,
      retained := w.c.retained && w.c.attached,
      operation := Some(Operation(kind, resumed, None, Priors(w), false))))
  }

  /** Ends the subscription; what is in flight keeps its old token. */
  function Retire(w: World): World {
    w.(c := w.c.(
      token := w.c.token + 1,
      attached := false,
      queue := [],
      queuedSeq := None,
      gap := false,
      baseline := None,
      retained := false,
      operation := None))
  }

  function Fail(w: World): World {
    if w.c.phase.Disposed? then w else Retire(w.(c := w.c.(phase := Unavailable)))
  }

  function AttachStep(w: World): (r: World)
    ensures r.c.proven >= w.c.proven
  {
    if w.c.operation.Some? || w.c.attached || w.c.phase.Disposed? then w
    else BeginOperation(w, Attach, false)
  }

  /** Offers a resume point only for an intact model with nothing in flight. */
  function RecoverStep(w: World, reason: Reason, sameGrid: bool): (r: World)
    ensures r.c.proven >= w.c.proven
  {
    if !w.c.phase.Ready? || !w.c.attached || w.c.operation.Some? then w
    else
      var resumed := w.c.retained && sameGrid && Priors(w) == {} && reason != Gap && reason != ResizeContext;
      BeginOperation(w, Recover, resumed)
  }

  /** The automatic recovery after a gap or a resize that needs a baseline. */
  function Trigger(w: World, reason: Reason): (r: World)
    ensures r.c.proven >= w.c.proven
  {
    if w.c.autoUsed || !w.c.phase.Ready? then Fail(w)
    else RecoverStep(w.(c := w.c.(autoUsed := true, retained := false)), reason, false)
  }

  /** The correlated result of attach or recover. A replay answers only a command that offered one. */
  function Marker(w: World, mode: Mode, atSeq: nat): (r: World)
    ensures r.c.proven >= w.c.proven
  {
    if w.c.operation.None? || !w.c.phase.AwaitMarker? then w
    else if mode == ReplayMode && !w.c.operation.value.resumed then w
    else if w.c.operation.value.resumed && atSeq < w.c.applied then w
    else if atSeq < w.c.proven || (mode == ReplayMode && !w.c.retained) then Fail(w)
    else
      var op := w.c.operation.value;
      w.(c := w.c.(
        attached := true,
        retained := w.c.retained && mode == ReplayMode,
        phase := if mode == BaselineMode then InBaseline else InReplay,
        operation := Some(op.(atSeq := Some(atSeq),
                              committing := mode == ReplayMode && atSeq == w.c.applied))))
  }

  /** The ACK of the operation's sequence entered the uplink: the subscription is ready. */
  function Committed(w: World): (r: World)
    ensures r.c.proven >= w.c.proven
  {
    if w.c.operation.None? || !w.c.operation.value.committing then w
    else w.(c := w.c.(phase := Ready, retained := true, autoUsed := false, operation := None))
  }

  function ReplaceView(w: World, view: nat): (r: World)
    ensures r.c.proven >= w.c.proven
  {
    if w.c.phase.Disposed? then w
    else Retire(w.(c := w.c.(view := view, fatal := false)))
  }

  // ---- Receiving and draining ----

  predicate Receives(c: Controller) {
    c.attached && (c.phase.InBaseline? || c.phase.InReplay? || c.phase.Ready?)
  }

  function LastQueued(c: Controller): nat {
    if c.queuedSeq.Some? then c.queuedSeq.value else c.applied
  }

  /** An event of the subscription arrives; while ready, one out of sequence is seen as a gap. */
  function Receive(w: World, e: Event): (r: World)
    ensures r.c.proven >= w.c.proven
  {
    if !Receives(w.c) then w
    else
      var c := w.c.(queue := w.c.queue + [Item(e, w.c.token)]);
      if !e.RunEvent? then w.(c := c)
      else w.(c := c.(queuedSeq := Some(e.at),
                      gap := c.gap || (c.phase.Ready? && e.at != LastQueued(c) + 1)))
  }

  /** One drain loop per token: it takes the next item once the previous one has been applied. */
  predicate Draining(w: World) {
    w.c.queue != [] && !w.c.phase.Disposed?
    && forall i :: i in w.work ==> w.work[i].token != w.c.token
  }

  function Issue(w: World, stage: Stage): World {
    w.(work := w.work[w.next := Work(w.c.view, w.c.token, stage)], next := w.next + 1)
  }

  /** Takes the head of the queue and applies it as far as the first await. */
  function Drain(w: World): (r: World)
    ensures r.c.proven >= w.c.proven
  {
    if !Draining(w) then w
    else
      var item := w.c.queue[0];
      var t := w.(c := w.c.(queue := w.c.queue[1..]));
      if item.token != w.c.token || !w.c.attached || w.c.fatal then t
      else Apply(t, item.event)
  }

  function Apply(w: World, e: Event): World {
    match e
    case BaselineStart(b) =>
      if !w.c.phase.InBaseline? || w.c.operation.None? || w.c.baseline.Some? then Fail(w)
      else Issue(w, Waiting(b, w.c.operation.value.atSeq, w.c.operation.value.priors))
    case BaselineChunk(id, ordinal) => ApplyChunk(w, id, ordinal)
    case BaselineEnd(b) => ApplyEnd(w, b)
    case RunEvent(q, fact) => ApplyRunEvent(w, q, fact)
  }

  function ApplyChunk(w: World, id: nat, ordinal: nat): World {
    if !w.c.phase.InBaseline? || w.c.baseline.None? || id != w.c.baseline.value.id || ordinal != w.c.ordinal
    then Fail(w)
    else Issue(w.(c := w.c.(ordinal := ordinal + 1)), Writing(WriteChunk(w.c.baseline.value, ordinal), false))
  }

  function ApplyEnd(w: World, b: Baseline): World {
    if !w.c.phase.InBaseline? || w.c.operation.None? || w.c.baseline != Some(b) || w.c.ordinal != b.chunks
    then Fail(w)
    else Issue(w, Writing(Finish(b), false))
  }

  function ApplyRunEvent(w: World, q: nat, fact: Fact): World {
    if !w.c.phase.InReplay? && !w.c.phase.Ready? then Fail(w)
    else if q != w.c.applied + 1 || (fact.Resized? && fact.requiresBaseline) || PastReplay(w.c, q)
    then Trigger(w, if fact.Resized? then ResizeContext else Gap)
    else Issue(w, Writing(ApplyEvent(q), false))
  }

  predicate PastReplay(c: Controller, q: nat) {
    c.phase.InReplay? && c.operation.Some? &&
    (c.operation.value.atSeq.None? || q > c.operation.value.atSeq.value)
  }

  // ---- Asynchronous view calls ----

  /** The call takes effect in the view. */
  function Land(w: World, i: nat): (r: World)
    ensures r.c.proven >= w.c.proven
  {
    if i !in w.work || !w.work[i].stage.Writing? || w.work[i].stage.landed then w
    else
      var k := w.work[i];
      w.(work := w.work[i := k.(stage := Writing(k.stage.call, true))],
         views := w.views[k.view := Landed(ContentOf(w, k.view), k.stage.call)])
  }

  function Done(w: World, i: nat): World {
    w.(work := w.work - {i})
  }

  /** The awaited parses or the awaited call have finished and the item goes on. */
  function Continue(w: World, i: nat): (r: World)
    ensures r.c.proven >= w.c.proven
  {
    if i !in w.work then w
    else match w.work[i].stage
      case Waiting(_, _, _) => StartBaseline(w, i)
      case Writing(call, landed) =>
        if !landed then w
        else match call
          case Initialize(b) => BeginBaseline(w, i, b)
          case Begin(_) => Done(w, i)
          case WriteChunk(_, _) => Done(w, i)
          case Finish(b) => EndBaseline(Done(w, i), w.work[i].token, b)
          case ApplyEvent(q) => AppliedEvent(Done(w, i), w.work[i].token, q)
  }

  /**
   A baseline begins once every parse that was unfinished when its operation began is over. It is
   compared with what that operation wants, even if the operation has ended meanwhile.
   */
  function StartBaseline(w: World, i: nat): (r: World)
    requires i in w.work && w.work[i].stage.Waiting?
    ensures r.c.proven >= w.c.proven
  {
    var k := w.work[i];
    var b := k.stage.baseline;
    if k.token != w.c.token then Done(w, i)
    else if exists p :: p in k.stage.priors && p in w.work then w
    else if k.stage.atSeq != Some(b.atSeq) || b.atSeq < w.c.proven then Done(Fail(w), i)
    else
      var t := w.(c := w.c.(baseline := Some(b), ordinal := 0));
      if w.c.operation.None? || w.c.fatal then Done(t, i)
      else t.(work := t.work[i := k.(stage := Writing(Initialize(b), false))])
  }

  function BeginBaseline(w: World, i: nat, b: Baseline): (r: World)
    requires i in w.work
    ensures r.c.proven >= w.c.proven
  {
    var k := w.work[i];
    if k.token != w.c.token then Done(w, i)
    else w.(work := w.work[i := k.(stage := Writing(Begin(b), false))])
  }

  function EndBaseline(w: World, token: nat, b: Baseline): (r: World)
    ensures r.c.proven >= w.c.proven
  {
    if token != w.c.token || w.c.operation.None? then w
    else w.(c := w.c.(
      applied := b.atSeq,
      proven := if w.c.proven < b.atSeq then b.atSeq else w.c.proven,
      retained := true,
      baseline := None,
      operation := Some(w.c.operation.value.(committing := true))))
  }

  function AppliedEvent(w: World, token: nat, q: nat): (r: World)
    ensures r.c.proven >= w.c.proven
  {
    if token != w.c.token then w
    else w.(c := w.c.(
      applied := q,
      proven := if w.c.proven < q then q else w.c.proven,
      operation := if w.c.phase.InReplay? && w.c.operation.Some? && w.c.operation.value.atSeq == Some(q)
                   then Some(w.c.operation.value.(committing := true))
                   else w.c.operation))
  }

  /** The call failed, whether or not it took effect first. */
  function Reject(w: World, i: nat): (r: World)
    ensures r.c.proven >= w.c.proven
  {
    if i !in w.work then w
    else if w.work[i].token == w.c.token then Done(Fail(w), i)
    else Done(w, i)
  }

  // ---- Inputs ----

  /** The gate as far as the downlink decides it: a gap holds input like the recovery it starts. */
  predicate InputGate(c: Controller) {
    c.attached && c.phase.Ready? && c.operation.None? && !c.fatal && !c.gap
  }

  function HandOff(w: World): World {
    if InputGate(w.c) then w.(inputs := w.inputs + 1) else w
  }

  // ---- Steps ----

  datatype Label =
    | Attaching
    | Recovering(reason: Reason, sameGrid: bool)
    | Triggered(reason: Reason)
    | Marked(mode: Mode, atSeq: nat)
    | AckHandedOff
    | Replacing(view: nat)
    | Failing
    | Detaching
    | Disposing
    | ViewFatal
    | Receiving(event: Event)
    | Drained
    | Landing(i: nat)
    | Continuing(i: nat)
    | Rejected(i: nat)
    | HandingInput

  /** The stream may lose, repeat and reorder events, and answers and view calls come when they like. */
  function Step(w: World, l: Label): World {
    match l
    case Attaching => AttachStep(w)
    case Recovering(reason, sameGrid) => RecoverStep(w, reason, sameGrid)
    case Triggered(reason) => Trigger(w, reason)
    case Marked(mode, atSeq) => Marker(w, mode, atSeq)
    case AckHandedOff => Committed(w)
    case Replacing(view) => ReplaceView(w, view)
    case Failing => Fail(w)
    case Detaching => Retire(w)
    case Disposing => Retire(w.(c := w.c.(phase := Disposed)))
    case ViewFatal => w.(c := w.c.(fatal := true))
    case Receiving(e) => Receive(w, e)
    case Drained => Drain(w)
    case Landing(i) => Land(w, i)
    case Continuing(i) => Continue(w, i)
    case Rejected(i) => Reject(w, i)
    case HandingInput => HandOff(w)
  }
}
