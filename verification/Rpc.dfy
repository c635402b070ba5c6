/**
 The settlement of one RPC. Disposing a timer, cancelling a request and posting it are calls to foreign
 code that may call back at once, so the calls in progress are kept as an explicit stack: between any
 two of its changes the same RPC may be cancelled, time out, fail or be answered.
 */
module Rpc {
  import opened Common

  datatype Disposition = NotSent | Unknown | HandedOff

  function Merge(previous: Option<Disposition>, next: Disposition): Disposition {
    if previous == Some(Unknown) || next == Unknown then Unknown
    else if previous == Some(HandedOff) || next == HandedOff then HandedOff
    else NotSent
  }

  datatype Outcome = Value | RpcError | OperationNotSent | OperationUnknown | LocalError

  datatype Settlement = Active | Settling | Settled

  /** What remains to be done once the foreign call on top of the stack returns. */
  datatype Then =
    | CompleteDisposed(outcome: Outcome)
    | CompleteCancelled(outcome: Outcome)
    | UncertainDisposed
    | UncertainCancelled
    | CompleteUncertain
    | PostCancelled
    | Nothing

  /** A cancellation remembers the disposition as it was `before` the request was asked to stop. */
  datatype Call =
    | SettingTimer
    | Posting
    | Disposing(next: Then)
    | Cancelling(next: Then, before: Option<Disposition>)

  /** A disposition the RPC was told, and whether that was `during` the cancellation of its request. */
  datatype Heard = Heard(disposition: Disposition, during: bool)

  /**
   `write` tells an RPC that carries an operation, and `answered` one that an answer began to settle.
   `reports` records every disposition it was told and `resolved` every outcome the caller was given.
   */
  datatype State = State(
    write: bool,
    settlement: Settlement,
    postEntered: bool,
    postInProgress: bool,
    handle: bool,
    cancelRequested: bool,
    cancelStarted: bool,
    deferred: bool,
    armed: bool,
    timer: bool,
    disposalRequested: bool,
    disposalStarted: bool,
    disposition: Option<Disposition>,
    answered: bool,
    stack: seq<Call>,
    reports: seq<Heard>,
    resolved: seq<Outcome>)

  /** The RPC is registered and its timer is being set. */
  function Start(write: bool): State {
    State(write, Active, false, false, false, false, false, false, false, false, false, false, None,
          false, [SettingTimer], [], [])
  }

  // ---- Settlement ----

  function Push(s: State, call: Call): State {
    s.(stack := s.stack + [call])
  }

  function Resolve(s: State, o: Outcome): State {
    s.(settlement := Settled, resolved := s.resolved + [o])
  }

  /** The outcome of an RPC that ends without an answer. */
  function UncertainOutcome(s: State): Outcome {
    if !s.write then LocalError
    else if !s.postEntered || s.disposition == Some(NotSent) then OperationNotSent
    else OperationUnknown
  }

  function Rank(next: Then): nat {
    match next
    case CompleteCancelled(_) => 0
    case CompleteDisposed(_) => 1
    case CompleteUncertain => 2
    case UncertainCancelled => 3
    case UncertainDisposed => 4
    case PostCancelled => 3
    case Nothing => 0
  }

  function DisposeOnce(s: State, next: Then): State
    decreases Rank(next), 1
  {
    var t := s.(disposalRequested := true);
    if !s.timer || s.disposalStarted then Go(t, next)
    else Push(t.(timer := false, disposalStarted := true), Disposing(next))
  }

  function CancelOnce(s: State, next: Then): State
    decreases Rank(next), 1
  {
    var t := s.(cancelRequested := true);
    if !s.handle || s.cancelStarted then Go(t, next)
    else Push(t.(cancelStarted := true), Cancelling(next, s.disposition))
  }

  /** Goes on until the next foreign call. */
  function Go(s: State, next: Then): State
    decreases Rank(next), 0
  {
    match next
    case CompleteDisposed(o) => CancelOnce(s, CompleteCancelled(o))
    case CompleteCancelled(o) => Resolve(s, o)
    case UncertainDisposed => CancelOnce(s, UncertainCancelled)
    case UncertainCancelled =>
      if s.postInProgress && !s.handle then s.(deferred := true) else CancelOnce(s, CompleteUncertain)
    case CompleteUncertain => DisposeOnce(s, CompleteDisposed(UncertainOutcome(s)))
    case PostCancelled => if s.deferred then CancelOnce(s.(deferred := false), CompleteUncertain) else s
    case Nothing => s
  }

  /** An answer settles the RPC, unless something has begun to. */
  function Finish(s: State, o: Outcome): State {
    if !s.settlement.Active? then s
    else DisposeOnce(s.(settlement := Settling, answered := true), CompleteDisposed(o))
  }

  /** A timeout, a cancellation or a failure. */
  function Uncertain(s: State): State {
    if !s.settlement.Active? then s else DisposeOnce(s.(settlement := Settling), UncertainDisposed)
  }

  predicate InCancel(s: State) {
    s.stack != [] && s.stack[|s.stack| - 1].Cancelling?
  }

  function Report(s: State, d: Disposition): State {
    s.(disposition := Some(Merge(s.disposition, d)), reports := s.reports + [Heard(d, InCancel(s))])
  }

  /** What a cancellation returns is merged into the disposition read before it: that is the one kept. */
  function Credit(s: State, before: Option<Disposition>, d: Disposition): State {
    s.(disposition := Some(Merge(before, d)), reports := s.reports + [Heard(d, false)])
  }

  // ---- Steps ----

  /** What a response turns out to be. */
  datatype Answer = Outdated | Unusable | Answered(outcome: Outcome)

  predicate Proper(s: State, o: Outcome) {
    o.Value? || o.RpcError? || (s.write && o.OperationUnknown?)
  }

  function OnDisposition(s: State, d: Disposition): State {
    if !s.postEntered || s.settlement.Settled? then s else Report(s, d)
  }

  function OnResponse(s: State, a: Answer): State {
    if !s.postEntered || s.settlement.Settled? then s
    else
      var t := Report(s, HandedOff);
      match a
      case Outdated => t
      case Unusable => Uncertain(t)
      case Answered(o) => if Proper(s, o) then Finish(t, o) else Uncertain(t)
  }

  function OnFailure(s: State, d: Disposition): State {
    if !s.postEntered || s.settlement.Settled? then s else Uncertain(Report(s, d))
  }

  /** Credentials are there and the RPC is still wanted. */
  function EnterPost(s: State): State {
    if s.stack != [] || !s.armed || s.postEntered || !s.settlement.Active? then s
    else Push(s.(postEntered := true, postInProgress := true), Posting)
  }

  function Popped(s: State): State
    requires s.stack != []
  {
    s.(stack := s.stack[..|s.stack| - 1])
  }

  /** The foreign call on top returns: what it reports matters to a cancellation only. */
  function Return(s: State, d: Disposition): State {
    if s.stack == [] then s
    else
      var t := Popped(s);
      match s.stack[|s.stack| - 1]
      case SettingTimer =>
        var u := t.(timer := true, armed := true);
        if u.disposalRequested || !u.settlement.Active? then DisposeOnce(u, Nothing) else u
      case Posting =>
        var u := t.(postInProgress := false, handle := true);
        if u.cancelRequested || !u.settlement.Active? then CancelOnce(u, PostCancelled) else Go(u, PostCancelled)
      case Disposing(next) => Go(t, next)
      case Cancelling(next, before) => Go(Credit(t, before, d), next)
  }

  /** Setting the timer or posting throws; the other calls are guarded. */
  function Throw(s: State): State {
    if s.stack == [] then s
    else
      var t := Popped(s);
      match s.stack[|s.stack| - 1]
      case SettingTimer => Uncertain(t)
      case Posting =>
        var u := Report(t.(postInProgress := false), Unknown);
        if u.deferred then CancelOnce(u.(deferred := false), CompleteUncertain) else Uncertain(u)
      case _ => s
  }

  datatype Label =
    | Interrupted
    | Disposed(disposition: Disposition)
    | Responded(answer: Answer)
    | Failed(disposition: Disposition)
    | Entering
    | Returned(disposition: Disposition)
    | Threw

  function Step(s: State, l: Label): State {
    match l
    case Interrupted => Uncertain(s)
    case Disposed(d) => OnDisposition(s, d)
    case Responded(a) => OnResponse(s, a)
    case Failed(d) => OnFailure(s, d)
    case Entering => EnterPost(s)
    case Returned(d) => Return(s, d)
    case Threw => Throw(s)
  }

  // ---- The invariant ----

  /** A continuation that will settle the RPC. */
  function Owes(next: Then): nat {
    if next.PostCancelled? || next.Nothing? then 0 else 1
  }

  function Debt(call: Call): nat {
    match call
    case Disposing(next) => Owes(next)
    case Cancelling(next, _) => Owes(next)
    case _ => 0
  }

  function Debts(s: State): nat {
    Sum(s.stack, Debt) + if s.deferred then 1 else 0
  }

  function IsPost(call: Call): nat { if call.Posting? then 1 else 0 }

  /** A call whose return takes up a deferred settlement. */
  function TakesUp(call: Call): nat { if call.Posting? || (call.Cancelling? && call.next.PostCancelled?) then 1 else 0 }

  /** The RPC is settled by exactly one of the things in progress. */
  ghost predicate OneDebt(s: State, debts: nat) {
    && (s.settlement.Active? ==> debts == 0 && s.resolved == [])
    && (s.settlement.Settling? ==> debts == 1 && s.resolved == [])
    && (s.settlement.Settled? ==> debts == 0 && |s.resolved| == 1)
  }

  /** The dispositions that count: those not told during the cancellation. */
  function Kept(reports: seq<Heard>): seq<Disposition> {
    if reports == [] then []
    else
      var n := |reports| - 1;
      Kept(reports[..n]) + if reports[n].during then [] else [reports[n].disposition]
  }

  /** The disposition that counts, whatever a cancellation in progress has been told. */
  function Credited(s: State): Option<Disposition> {
    if InCancel(s) then s.stack[|s.stack| - 1].before else s.disposition
  }

  predicate Handed(d: Option<Disposition>) {
    d.Some? && d != Some(NotSent)
  }

  /** Dispositions, merged. */
  function MergeAll(ds: seq<Disposition>): Option<Disposition> {
    if ds == [] then None else Some(Merge(MergeAll(ds[..|ds| - 1]), ds[|ds| - 1]))
  }

  /** No call in progress carries a verdict of not-sent: it is reached and given in one go. */
  predicate Undecided(call: Call) {
    match call
    case Disposing(CompleteDisposed(o)) => !o.OperationNotSent?
    case Cancelling(CompleteCancelled(o), _) => !o.OperationNotSent?
    case Disposing(next) => next.UncertainDisposed? || next.Nothing?
    case Cancelling(next, _) => next.UncertainCancelled? || next.CompleteUncertain? || next.PostCancelled?
    case _ => true
  }

  /** A call in progress has left its mark; nothing is called from within a cancellation. */
  predicate Grounded(s: State, i: nat)
    requires i < |s.stack|
  {
    match s.stack[i]
    case SettingTimer => i == 0 && !s.armed
    case Posting => s.postEntered
    case Disposing(next) => s.disposalRequested && (next.CompleteDisposed? ==> s.answered)
    case Cancelling(next, _) =>
      && i == |s.stack| - 1 && s.cancelRequested && !s.settlement.Active?
      && (next.CompleteCancelled? ==> s.answered)
  }

  /** What was asked for has been done or cannot be done yet. */
  ghost predicate Asked(s: State) {
    && (s.disposalRequested ==> !s.timer)
    && (s.disposalStarted ==> s.disposalRequested && s.armed)
    && (s.timer ==> s.armed)
    && (s.cancelRequested ==> s.disposalRequested && !s.settlement.Active?)
    && (s.cancelRequested ==> !s.handle || s.cancelStarted)
    && (s.cancelStarted ==> s.handle)
    && Recorded(s) && Calm(s)
  }

  /** The disposition is that of the reports that count, and an answer shows a handoff. */
  predicate Recorded(s: State) {
    && Credited(s) == MergeAll(Kept(s.reports))
    && (s.answered ==> s.postEntered && Handed(Credited(s)))
  }

  /** The same dispositions. */
  predicate SameRecord(s: State, t: State) {
    && t.disposition == s.disposition && t.reports == s.reports
    && t.answered == s.answered && t.postEntered == s.postEntered
  }

  predicate Calm(s: State) {
    forall i :: 0 <= i < |s.stack| ==> Undecided(s.stack[i]) && Grounded(s, i)
  }

  /** `takeUp`: the deferred settlement is about to be taken up. */
  ghost predicate Placed(s: State, takeUp: bool) {
    && Sum(s.stack, IsPost) == (if s.postInProgress then 1 else 0)
    && (s.postInProgress ==> s.postEntered && !s.handle)
    && (s.handle ==> s.postEntered)
    && (s.deferred ==> s.settlement.Settling? && (takeUp || Sum(s.stack, TakesUp) >= 1))
  }

  ghost predicate Inv(s: State) {
    OneDebt(s, Debts(s)) && Asked(s) && Placed(s, false) && (!s.settlement.Active? ==> s.disposalRequested)
  }

  /** The invariant with `next` still to be done. */
  ghost predicate Midway(s: State, next: Then) {
    && OneDebt(s, Debts(s) + Owes(next)) && Asked(s) && Placed(s, next.PostCancelled?)
    && !InCancel(s) && (next.CompleteDisposed? || next.CompleteCancelled? ==> s.answered)
  }

  lemma PushDebt(s: State, call: Call)
    ensures Debts(Push(s, call)) == Debts(s) + Debt(call)
    ensures Sum(Push(s, call).stack, IsPost) == Sum(s.stack, IsPost) + IsPost(call)
    ensures Sum(Push(s, call).stack, TakesUp) == Sum(s.stack, TakesUp) + TakesUp(call)
  {
    SumAppend(s.stack, call, Debt);
    SumAppend(s.stack, call, IsPost);
    SumAppend(s.stack, call, TakesUp);
  }

  lemma KeptNext(reports: seq<Heard>, h: Heard)
    ensures Kept(reports + [h]) == Kept(reports) + if h.during then [] else [h.disposition]
    ensures MergeAll(Kept(reports + [h])) ==
              if h.during then MergeAll(Kept(reports)) else Some(Merge(MergeAll(Kept(reports)), h.disposition))
  {
    assert (reports + [h])[..|reports|] == reports;
    var ds := Kept(reports) + [h.disposition];
    assert ds[..|Kept(reports)|] == Kept(reports);
    assert h.during ==> Kept(reports) + [] == Kept(reports);
  }

  /** The same calls in progress, with at least as much asked for. */
  lemma SameCalm(s: State, t: State)
    requires Calm(s) && t.stack == s.stack && t.armed == s.armed && (s.postEntered ==> t.postEntered)
    requires (s.disposalRequested ==> t.disposalRequested) && (s.cancelRequested ==> t.cancelRequested)
    requires (s.answered ==> t.answered) && (t.settlement.Active? ==> s.settlement.Active?)
    ensures Calm(t)
    ensures Recorded(s) && SameRecord(s, t) ==> Recorded(t)
    ensures InCancel(t) == InCancel(s)
  {
    forall i | 0 <= i < |s.stack| ensures Grounded(t, i) {
      assert Grounded(s, i);
    }
  }

  /** One more foreign call in progress. */
  lemma PushCalm(s: State, call: Call)
    requires Calm(s) && Undecided(call) && !InCancel(s)
    requires call.Disposing? ==> s.disposalRequested && (call.next.CompleteDisposed? ==> s.answered)
    requires call.Cancelling? ==>
               s.cancelRequested && !s.settlement.Active? && (call.next.CompleteCancelled? ==> s.answered)
    requires call.Posting? ==> s.postEntered
    requires !call.SettingTimer?
    ensures Calm(Push(s, call))
    ensures Recorded(s) && (call.Cancelling? ==> call.before == s.disposition) ==> Recorded(Push(s, call))
  {
    var t := Push(s, call);
    forall i | 0 <= i < |t.stack| ensures Undecided(t.stack[i]) && Grounded(t, i) {
      assert i < |s.stack| ==> Undecided(s.stack[i]) && Grounded(s, i);
    }
  }

  lemma {:induction false} PostTakesUp(stack: seq<Call>)
    ensures Sum(stack, IsPost) <= Sum(stack, TakesUp)
  {
    if stack != [] {
      PostTakesUp(stack[..|stack| - 1]);
    }
  }

  // ---- Going on ----

  lemma CancelOnceKeeps(s: State, next: Then)
    requires Midway(s, next) && s.disposalRequested && !s.settlement.Active?
    requires Undecided(Cancelling(next, s.disposition))
    requires !next.UncertainDisposed? && !next.CompleteDisposed? && !next.Nothing?
    ensures Inv(CancelOnce(s, next))
    decreases Rank(next), 1
  {
    var t := s.(cancelRequested := true);
    if !s.handle || s.cancelStarted {
      SameCalm(s, t);
      GoKeeps(t, next);
    } else {
      StopKeeps(s, next);
    }
  }

  lemma Stops(s: State, next: Then)
    requires s.handle && !s.cancelStarted
    ensures CancelOnce(s, next) ==
              Push(s.(cancelRequested := true, cancelStarted := true), Cancelling(next, s.disposition))
  {
    hide Go;
  }

  /** The request is asked to stop. */
  lemma StopKeeps(s: State, next: Then)
    requires Midway(s, next) && s.disposalRequested && !s.settlement.Active? && s.handle && !s.cancelStarted
    requires Undecided(Cancelling(next, s.disposition))
    ensures Inv(CancelOnce(s, next))
  {
    var t := s.(cancelRequested := true, cancelStarted := true);
    PushDebt(t, Cancelling(next, s.disposition));
    SameCalm(s, t);
    PushCalm(t, Cancelling(next, s.disposition));
    Stops(s, next);
    hide Calm, Recorded, CancelOnce;
  }

  /** Once asked for everything, an unanswered RPC is resolved without another foreign call. */
  lemma UncertainResolves(s: State)
    requires s.disposalRequested && !s.timer && s.cancelRequested && (!s.handle || s.cancelStarted)
    ensures Go(s, CompleteUncertain) == Resolve(s, UncertainOutcome(s))
  {
    assert s.(disposalRequested := true) == s && s.(cancelRequested := true) == s;
  }

  lemma GoKeeps(s: State, next: Then)
    requires Midway(s, next) && s.disposalRequested
    requires next.CompleteDisposed? ==> !next.outcome.OperationNotSent?
    requires next.CompleteCancelled? ==> !next.outcome.OperationNotSent?
    requires next.CompleteUncertain? || next.CompleteCancelled? ==> s.cancelRequested
    ensures Inv(Go(s, next))
    decreases Rank(next), 0
  {
    match next
    case CompleteDisposed(o) => CancelOnceKeeps(s, CompleteCancelled(o));
    case CompleteCancelled(o) => SameCalm(s, Resolve(s, o));
    case UncertainDisposed => CancelOnceKeeps(s, UncertainCancelled);
    case UncertainCancelled =>
      if s.postInProgress && !s.handle {
        PostTakesUp(s.stack);
        SameCalm(s, s.(deferred := true));
      } else {
        CancelOnceKeeps(s, CompleteUncertain);
      }
    case CompleteUncertain =>
      UncertainResolves(s);
      SameCalm(s, Resolve(s, UncertainOutcome(s)));
    case PostCancelled =>
      if s.deferred {
        SameCalm(s, s.(deferred := false));
        CancelOnceKeeps(s.(deferred := false), CompleteUncertain);
      }
    case Nothing =>
  }

  lemma DisposeOnceKeeps(s: State, next: Then)
    requires Midway(s.(timer := false), next) && (s.timer ==> !s.disposalStarted && s.armed)
    requires next.UncertainDisposed? || next.Nothing? || (next.CompleteDisposed? && !next.outcome.OperationNotSent?)
    ensures Inv(DisposeOnce(s, next))
  {
    var t := s.(disposalRequested := true);
    if !s.timer || s.disposalStarted {
      SameCalm(s.(timer := false), t);
      GoKeeps(t, next);
    } else {
      PushDebt(t.(timer := false, disposalStarted := true), Disposing(next));
      SameCalm(s.(timer := false), t.(timer := false, disposalStarted := true));
      PushCalm(t.(timer := false, disposalStarted := true), Disposing(next));
      hide Go, Calm, Recorded;
    }
  }

  // ---- Every step keeps the invariant ----

  lemma UncertainKeeps(s: State)
    requires Inv(s)
    ensures Inv(Uncertain(s))
  {
    if s.settlement.Active? {
      SameCalm(s, s.(settlement := Settling, timer := false));
      hide Calm, Recorded;
      DisposeOnceKeeps(s.(settlement := Settling), UncertainDisposed);
    }
  }

  lemma FinishKeeps(s: State, o: Outcome)
    requires Inv(s) && !o.OperationNotSent? && s.postEntered && (s.settlement.Active? ==> Handed(s.disposition))
    ensures Inv(Finish(s, o))
  {
    if s.settlement.Active? {
      SameCalm(s, s.(settlement := Settling, timer := false, answered := true));
      DisposeOnceKeeps(s.(settlement := Settling, answered := true), CompleteDisposed(o));
    }
  }

  lemma ReportKeeps(s: State, d: Disposition)
    requires Inv(s)
    ensures Inv(Report(s, d))
  {
    ReportAsked(s, d);
    hide Asked, Merge;
  }

  lemma ReportAsked(s: State, d: Disposition)
    requires Asked(s)
    ensures Asked(Report(s, d))
  {
    KeptNext(s.reports, Heard(d, InCancel(s)));
    SameCalm(s, Report(s, d));
    hide Kept, MergeAll, Calm;
  }

  lemma CallbackKeeps(s: State, l: Label)
    requires Inv(s) && (l.Disposed? || l.Responded? || l.Failed?)
    ensures Inv(Step(s, l))
  {
    hide Inv, Uncertain, Finish;
    match l
    case Disposed(d) => ReportKeeps(s, d);
    case Responded(a) =>
      ReportKeeps(s, HandedOff);
      UncertainKeeps(Report(s, HandedOff));
      if s.postEntered && a.Answered? && Proper(s, a.outcome) {
        FinishKeeps(Report(s, HandedOff), a.outcome);
      }
    case Failed(d) =>
      ReportKeeps(s, d);
      UncertainKeeps(Report(s, d));
  }

  lemma EnterKeeps(s: State)
    requires Inv(s)
    ensures Inv(EnterPost(s))
  {
    if EnterPost(s) != s {
      PushDebt(s.(postEntered := true, postInProgress := true), Posting);
      assert EnterPost(s).stack == [Posting];
    }
  }

  lemma PopDebt(s: State)
    requires s.stack != []
    ensures var top := s.stack[|s.stack| - 1];
            && Debts(s) == Debts(Popped(s)) + Debt(top)
            && Sum(s.stack, IsPost) == Sum(Popped(s).stack, IsPost) + IsPost(top)
            && Sum(s.stack, TakesUp) == Sum(Popped(s).stack, TakesUp) + TakesUp(top)
  {
  }

  /** Only the call on top can be a cancellation. */
  lemma OneCancel(s: State)
    requires Calm(s) && s.stack != []
    ensures !InCancel(Popped(s))
  {
    var n := |s.stack| - 1;
    if n > 0 {
      assert Grounded(s, n - 1);
    }
  }

  /** The calls below the one that returns. */
  lemma PopCalm(s: State, t: State)
    requires Calm(s) && s.stack != [] && t.stack == Popped(s).stack && (s.postEntered ==> t.postEntered)
    requires (s.disposalRequested ==> t.disposalRequested) && (s.cancelRequested ==> t.cancelRequested)
    requires (t.armed == s.armed || |s.stack| == 1) && (s.answered ==> t.answered)
    ensures Calm(t) && !InCancel(t)
    ensures Recorded(s) && !InCancel(s) && SameRecord(s, t) ==> Recorded(t)
  {
    OneCancel(s);
    forall i | 0 <= i < |t.stack| ensures Undecided(t.stack[i]) && Grounded(t, i) {
      assert Undecided(s.stack[i]) && Grounded(s, i);
    }
  }

  lemma ReturnTimerKeeps(s: State, d: Disposition)
    requires Inv(s) && s.stack != [] && s.stack[|s.stack| - 1].SettingTimer?
    ensures Inv(Return(s, d))
  {
    PopDebt(s);
    var u := Popped(s).(timer := true, armed := true);
    assert Grounded(s, |s.stack| - 1);
    PopCalm(s, u);
    if u.disposalRequested || !u.settlement.Active? {
      SameCalm(u.(timer := false), u.(timer := false));
      DisposeOnceKeeps(u, Nothing);
    }
  }

  lemma ReturnPostKeeps(s: State, d: Disposition)
    requires Inv(s) && s.stack != [] && s.stack[|s.stack| - 1].Posting?
    ensures Inv(Return(s, d))
  {
    var u := Popped(s).(postInProgress := false, handle := true);
    if u.cancelRequested || !u.settlement.Active? {
      hide Inv, CancelOnce;
      PostReturned(s, u);
    } else {
      PopDebt(s);
      assert Grounded(s, |s.stack| - 1);
      PopCalm(s, u);
      hide Calm, CancelOnce;
    }
  }

  lemma PostReturned(s: State, u: State)
    requires Inv(s) && s.stack != [] && s.stack[|s.stack| - 1].Posting?
    requires u == Popped(s).(postInProgress := false, handle := true)
    requires u.cancelRequested || !u.settlement.Active?
    ensures Inv(CancelOnce(u, PostCancelled))
  {
    var v := u.(cancelRequested := true, cancelStarted := true);
    PostInProgress(s);
    Stops(u, PostCancelled);
    StopAsked(s, v);
    hide CancelOnce, Asked;
    PopDebt(s);
    PushDebt(v, Cancelling(PostCancelled, u.disposition));
    hide Sum;
  }

  lemma StopAsked(s: State, v: State)
    requires Inv(s) && s.stack != [] && s.stack[|s.stack| - 1].Posting? && !s.cancelStarted
    requires v == Popped(s).(postInProgress := false, handle := true, cancelRequested := true, cancelStarted := true)
    requires s.cancelRequested || !s.settlement.Active?
    ensures Asked(Push(v, Cancelling(PostCancelled, v.disposition)))
  {
    PopCalm(s, v);
    assert !InCancel(v) by { OneCancel(s); }
    PushCalm(v, Cancelling(PostCancelled, v.disposition));
    hide Calm, Kept, MergeAll, Sum;
  }

  lemma PostInProgress(s: State)
    requires Inv(s) && s.stack != [] && s.stack[|s.stack| - 1].Posting?
    ensures s.postInProgress && !s.handle && !s.cancelStarted
  {
    PopDebt(s);
  }

  /** The cancellation is over and what it returned counts. */
  lemma CreditAsked(s: State, d: Disposition)
    requires Asked(s) && InCancel(s)
    ensures Asked(Credit(Popped(s), s.stack[|s.stack| - 1].before, d))
    ensures !InCancel(Popped(s))
  {
    var t := Credit(Popped(s), s.stack[|s.stack| - 1].before, d);
    OneCancel(s);
    PopCalm(s, t);
    KeptNext(s.reports, Heard(d, false));
    hide Calm, Kept, MergeAll;
  }

  lemma ReturnCallKeeps(s: State, d: Disposition)
    requires Inv(s) && s.stack != [] && (s.stack[|s.stack| - 1].Disposing? || s.stack[|s.stack| - 1].Cancelling?)
    ensures Inv(Return(s, d))
  {
    PopDebt(s);
    var call, t := s.stack[|s.stack| - 1], Popped(s);
    assert Undecided(call) && Grounded(s, |s.stack| - 1);
    PopCalm(s, t);
    if call.Disposing? {
      GoKeeps(t, call.next);
    } else {
      CreditAsked(s, d);
      GoKeeps(Credit(t, call.before, d), call.next);
    }
    hide Go, Calm, Kept, MergeAll;
  }

  lemma ThrowKeeps(s: State)
    requires Inv(s)
    ensures Inv(Throw(s))
  {
    if s.stack != [] && s.stack[|s.stack| - 1].SettingTimer? {
      PopDebt(s);
      PopCalm(s, Popped(s));
      hide Calm;
      UncertainKeeps(Popped(s));
    } else if s.stack != [] && s.stack[|s.stack| - 1].Posting? {
      PostThrew(s);
    }
  }

  lemma PostThrew(s: State)
    requires Inv(s) && s.stack != [] && s.stack[|s.stack| - 1].Posting?
    ensures Inv(Throw(s))
  {
    ThrownAsked(s);
    ThrownPlaced(s);
    hide Inv, CancelOnce, Uncertain, Midway;
    if s.deferred {
      CancelOnceKeeps(Thrown(s).(deferred := false), CompleteUncertain);
    } else {
      UncertainKeeps(Thrown(s));
    }
  }

  /** The post is over, and it may have sent anything. */
  function Thrown(s: State): State
    requires s.stack != []
  {
    Report(Popped(s).(postInProgress := false), Unknown)
  }

  lemma ThrownAsked(s: State)
    requires Asked(s) && s.stack != [] && s.stack[|s.stack| - 1].Posting?
    ensures var u := Thrown(s); !InCancel(u) && Asked(u) && Asked(u.(deferred := false))
  {
    var u := Thrown(s);
    OneCancel(s);
    KeptNext(s.reports, Heard(Unknown, false));
    PopCalm(s, u);
    assert Recorded(u);
    SameCalm(u, u.(deferred := false));
    hide Calm, Recorded, Kept, MergeAll;
  }

  lemma ThrownPlaced(s: State)
    requires Inv(s) && s.stack != [] && s.stack[|s.stack| - 1].Posting? && Asked(Thrown(s))
    requires !InCancel(Thrown(s)) && Asked(Thrown(s).(deferred := false))
    ensures s.deferred ==> !s.settlement.Active? && s.disposalRequested
    ensures s.deferred ==> Midway(Thrown(s).(deferred := false), CompleteUncertain)
    ensures !s.deferred ==> Inv(Thrown(s))
  {
    PopDebt(s);
    PostInProgress(s);
    var u := Thrown(s);
    assert u == s.(stack := u.stack, postInProgress := false, disposition := u.disposition, reports := u.reports);
    assert u.stack == Popped(s).stack;
    hide Thrown, Asked, InCancel, Sum;
  }

  lemma StepKeepsInv(s: State, l: Label)
    requires Inv(s)
    ensures Inv(Step(s, l))
  {
    hide Inv, Uncertain, OnDisposition, OnResponse, OnFailure, EnterPost, Return, Throw;
    match l
    case Interrupted => UncertainKeeps(s);
    case Entering => EnterKeeps(s);
    case Threw => ThrowKeeps(s);
    case Returned(d) => ReturnKeeps(s, d);
    case _ => CallbackKeeps(s, l);
  }

  lemma ReturnKeeps(s: State, d: Disposition)
    requires Inv(s)
    ensures Inv(Return(s, d))
  {
    hide Inv;
    if s.stack != [] {
      match s.stack[|s.stack| - 1]
      case SettingTimer => ReturnTimerKeeps(s, d);
      case Posting => ReturnPostKeeps(s, d);
      case _ => ReturnCallKeeps(s, d);
    }
  }

  // ---- Runs ----

  ghost predicate Run(ws: seq<State>, ls: seq<Label>) {
    && |ws| == |ls| + 1
    && ws[0] == Start(ws[0].write)
    && forall i :: 0 <= i < |ls| ==> ws[i + 1] == Step(ws[i], ls[i])
  }

  lemma StartIsInv(write: bool)
    ensures Inv(Start(write))
  {
    var s := Start(write);
    assert s.stack[..0] == [];
  }

  lemma {:induction false} RunKeepsInv(ws: seq<State>, ls: seq<Label>, n: nat)
    requires Run(ws, ls) && n < |ws|
    ensures Inv(ws[n])
  {
    hide Inv, Step;
    if n == 0 {
      StartIsInv(ws[0].write);
    } else {
      RunKeepsInv(ws, ls, n - 1);
      StepKeepsInv(ws[n - 1], ls[n - 1]);
    }
  }

  /**
   However its calls reenter each other, an RPC is never resolved twice, and once none of them is in
   progress it has been resolved if anything began to settle it.
   */
  lemma ResolvedOnce(ws: seq<State>, ls: seq<Label>, n: nat)
    requires Run(ws, ls) && n < |ws|
    ensures |ws[n].resolved| <= 1
    ensures ws[n].settlement.Settled? <==> |ws[n].resolved| == 1
    ensures ws[n].stack == [] ==> !ws[n].settlement.Settling?
  {
    RunKeepsInv(ws, ls, n);
  }

  lemma {:induction false} AllNotSent(ds: seq<Disposition>)
    ensures MergeAll(ds) == Some(NotSent) <==> ds != [] && forall i :: 0 <= i < |ds| ==> ds[i] == NotSent
  {
    if ds != [] {
      AllNotSent(ds[..|ds| - 1]);
    }
  }

  // ---- What not-sent means ----

  /** Nothing was posted, or what counts says it was not sent. */
  predicate KnownUnsent(s: State) {
    !s.postEntered || s.disposition == Some(NotSent)
  }

  /** A write that this step resolves is reported as not sent exactly if that is known. */
  predicate JudgedBy(s: State, t: State) {
    s.resolved == [] && t.resolved != [] && t.write ==>
      !InCancel(t) && (t.resolved[0].OperationNotSent? <==> KnownUnsent(t))
  }

  predicate NoVerdict(next: Then) {
    (next.CompleteDisposed? || next.CompleteCancelled?) ==> !next.outcome.OperationNotSent?
  }

  predicate Decides(next: Then) { next.CompleteDisposed? || next.CompleteCancelled? }

  lemma GoUnsent(s: State, next: Then)
    requires Asked(s) && s.disposalRequested && NoVerdict(next) && s.resolved == [] && !InCancel(s)
    requires (Decides(next) ==> s.answered) && (!next.Nothing? && !next.PostCancelled? ==> !s.settlement.Active?)
    requires s.deferred ==> !s.settlement.Active?
    requires next.CompleteUncertain? || next.CompleteCancelled? ==> s.cancelRequested
    ensures JudgedBy(s, Go(s, next))
    decreases Rank(next), 0
  {
    match next
    case CompleteDisposed(o) => CancelUnsent(s, CompleteCancelled(o));
    case UncertainDisposed => CancelUnsent(s, UncertainCancelled);
    case UncertainCancelled => CancelUnsent(s, CompleteUncertain);
    case CompleteUncertain => CompleteUnsent(s);
    case PostCancelled =>
      if s.deferred {
        SameCalm(s, s.(deferred := false));
        CancelUnsent(s.(deferred := false), CompleteUncertain);
      }
    case CompleteCancelled(o) => assert Resolve(s, o).resolved[0] == o;
    case Nothing =>
    hide Asked, CancelOnce;
  }

  lemma CompleteUnsent(s: State)
    requires Asked(s) && s.disposalRequested && s.resolved == [] && s.cancelRequested && !InCancel(s)
    ensures JudgedBy(s, Go(s, CompleteUncertain))
  {
    UncertainResolves(s);
    assert Go(s, CompleteUncertain).resolved[0] == UncertainOutcome(s);
  }

  lemma CancelUnsent(s: State, next: Then)
    requires Asked(s) && s.disposalRequested && NoVerdict(next) && s.resolved == [] && !InCancel(s)
    requires (Decides(next) ==> s.answered) && !s.settlement.Active?
    ensures JudgedBy(s, CancelOnce(s, next))
    decreases Rank(next), 1
  {
    if !s.handle || s.cancelStarted {
      SameCalm(s, s.(cancelRequested := true));
      GoUnsent(s.(cancelRequested := true), next);
    }
  }

  lemma DisposeUnsent(s: State, next: Then)
    requires Asked(s.(timer := false)) && NoVerdict(next) && s.resolved == [] && (s.timer ==> !s.disposalStarted)
    requires !InCancel(s) && (Decides(next) ==> s.answered) && (!next.Nothing? ==> !s.settlement.Active?)
    requires s.deferred ==> !s.settlement.Active?
    requires !next.CompleteUncertain? && !next.CompleteCancelled?
    ensures JudgedBy(s, DisposeOnce(s, next))
  {
    if !s.timer || s.disposalStarted {
      SameCalm(s.(timer := false), s.(disposalRequested := true));
      GoUnsent(s.(disposalRequested := true), next);
    }
  }

  lemma UncertainUnsent(s: State)
    requires Inv(s) && s.resolved == []
    ensures JudgedBy(s, Uncertain(s))
  {
    if s.settlement.Active? {
      SameCalm(s, s.(settlement := Settling, timer := false));
      DisposeUnsent(s.(settlement := Settling), UncertainDisposed);
    }
  }

  lemma FinishUnsent(s: State, o: Outcome)
    requires Inv(s) && s.resolved == [] && !o.OperationNotSent?
    requires s.postEntered && (s.settlement.Active? ==> Handed(s.disposition))
    ensures JudgedBy(s, Finish(s, o))
  {
    if s.settlement.Active? {
      SameCalm(s, s.(settlement := Settling, timer := false, answered := true));
      DisposeUnsent(s.(settlement := Settling, answered := true), CompleteDisposed(o));
    }
  }

  lemma CallbackUnsent(s: State, l: Label)
    requires Inv(s) && s.resolved == [] && (l.Disposed? || l.Responded? || l.Failed?)
    ensures JudgedBy(s, Step(s, l))
  {
    hide Inv, Uncertain, Finish;
    match l
    case Disposed(d) =>
    case Responded(a) =>
      ReportKeeps(s, HandedOff);
      UncertainUnsent(Report(s, HandedOff));
      if s.postEntered && a.Answered? && Proper(s, a.outcome) {
        FinishUnsent(Report(s, HandedOff), a.outcome);
      }
    case Failed(d) =>
      ReportKeeps(s, d);
      UncertainUnsent(Report(s, d));
  }

  lemma ReturnUnsent(s: State, d: Disposition)
    requires Inv(s) && s.resolved == []
    ensures JudgedBy(s, Return(s, d))
  {
    if s.stack != [] {
      hide Inv, Return;
      match s.stack[|s.stack| - 1]
      case Disposing(_) => DisposedUnsent(s, d);
      case Cancelling(_, _) => CancelledUnsent(s, d);
      case _ => SetUnsent(s, d);
    }
  }

  /** The timer's disposal has returned. */
  lemma DisposedUnsent(s: State, d: Disposition)
    requires Inv(s) && s.resolved == [] && s.stack != [] && s.stack[|s.stack| - 1].Disposing?
    ensures JudgedBy(s, Return(s, d))
  {
    var call, t := s.stack[|s.stack| - 1], Popped(s);
    assert Undecided(call) && Grounded(s, |s.stack| - 1);
    PopCalm(s, t);
    OneCancel(s);
    PopDebt(s);
    hide Go, Calm, Kept, MergeAll, Sum;
    GoUnsent(t, call.next);
  }

  /** The cancellation has returned. */
  lemma CancelledUnsent(s: State, d: Disposition)
    requires Inv(s) && s.resolved == [] && InCancel(s)
    ensures JudgedBy(s, Return(s, d))
  {
    var call := s.stack[|s.stack| - 1];
    CreditAsked(s, d);
    CancelFacts(s);
    CancelReturns(s, d);
    hide Inv, Go, Asked, Return;
    GoUnsent(Credit(Popped(s), call.before, d), call.next);
  }

  lemma CancelReturns(s: State, d: Disposition)
    requires InCancel(s)
    ensures var call := s.stack[|s.stack| - 1]; Return(s, d) == Go(Credit(Popped(s), call.before, d), call.next)
  {
    hide Go;
  }

  lemma CancelFacts(s: State)
    requires Inv(s) && InCancel(s)
    ensures s.disposalRequested && s.cancelRequested && !s.settlement.Active?
    ensures var next := s.stack[|s.stack| - 1].next; NoVerdict(next) && (Decides(next) ==> s.answered)
  {
    assert Undecided(s.stack[|s.stack| - 1]) && Grounded(s, |s.stack| - 1);
  }

  /** The timer is set, or the post has returned. */
  lemma SetUnsent(s: State, d: Disposition)
    requires Inv(s) && s.resolved == [] && s.stack != []
    requires s.stack[|s.stack| - 1].SettingTimer? || s.stack[|s.stack| - 1].Posting?
    ensures JudgedBy(s, Return(s, d))
  {
    var t, n := Popped(s), |s.stack| - 1;
    assert Grounded(s, n);
    if s.stack[n].SettingTimer? {
      PopCalm(s, t.(armed := true, timer := false));
      DisposeUnsent(t.(timer := true, armed := true), Nothing);
    } else {
      PostInProgress(s);
      Stops(t.(postInProgress := false, handle := true), PostCancelled);
    }
    hide Go, Calm, DisposeOnce;
  }

  lemma ThrowUnsent(s: State)
    requires Inv(s) && s.resolved == []
    ensures JudgedBy(s, Throw(s))
  {
    if s.stack != [] && s.stack[|s.stack| - 1].SettingTimer? {
      PopDebt(s);
      PopCalm(s, Popped(s));
      UncertainUnsent(Popped(s));
    } else if s.stack != [] && s.stack[|s.stack| - 1].Posting? {
      PostThrewUnsent(s);
    }
  }

  /** A post that threw may have sent anything. */
  lemma PostThrewUnsent(s: State)
    requires Inv(s) && s.resolved == [] && s.stack != [] && s.stack[|s.stack| - 1].Posting?
    ensures JudgedBy(s, Throw(s))
  {
    ThrownAsked(s);
    ThrownPlaced(s);
    hide Inv, Asked, CancelOnce, Uncertain, Midway;
    if s.deferred {
      CancelUnsent(Thrown(s).(deferred := false), CompleteUncertain);
    } else {
      UncertainUnsent(Thrown(s));
    }
  }

  lemma StepUnsent(s: State, l: Label)
    requires Inv(s) && s.resolved == []
    ensures JudgedBy(s, Step(s, l))
  {
    match l
    case Interrupted => UncertainUnsent(s);
    case Entering =>
    case Threw => ThrowUnsent(s);
    case Returned(d) => ReturnUnsent(s, d);
    case _ => CallbackUnsent(s, l);
    hide Inv, Uncertain, OnDisposition, OnResponse, OnFailure, Return, Throw;
  }

  predicate AllUnsent(ds: seq<Disposition>) {
    ds != [] && forall i :: 0 <= i < |ds| ==> ds[i] == NotSent
  }

  /**
   However its calls reenter each other, a write is resolved as not sent if and only if it was never
   posted, or the dispositions it was told outside the cancellation of its request, and there was one,
   all said not-sent. What it was told during the cancellation does not count.
   */
  lemma NotSentExactly(ws: seq<State>, ls: seq<Label>, n: nat)
    requires Run(ws, ls) && n < |ls| && ws[n].resolved == [] && ws[n + 1].resolved != [] && ws[n + 1].write
    ensures ws[n + 1].resolved == [OperationNotSent] <==>
              !ws[n + 1].postEntered || AllUnsent(Kept(ws[n + 1].reports))
  {
    RunKeepsInv(ws, ls, n);
    RunKeepsInv(ws, ls, n + 1);
    StepUnsent(ws[n], ls[n]);
    AllNotSent(Kept(ws[n + 1].reports));
    var t := ws[n + 1];
    assert |t.resolved| == 1;
    assert t.resolved == [t.resolved[0]];
    hide Step, Calm, Kept, MergeAll;
  }

  /** At most one report more, told during the cancellation or not. */
  predicate Adds(a: seq<Heard>, b: seq<Heard>, during: bool) {
    b == a || (|b| == |a| + 1 && b[..|a|] == a && b[|a|].during == during)
  }

  /** Going on records nothing. */
  lemma GoAdds(s: State, next: Then)
    ensures Go(s, next).reports == s.reports
    decreases Rank(next), 0
  {
    match next
    case CompleteDisposed(o) => CancelAdds(s, CompleteCancelled(o));
    case UncertainDisposed => CancelAdds(s, UncertainCancelled);
    case UncertainCancelled => CancelAdds(s, CompleteUncertain);
    case CompleteUncertain => DisposeAdds(s, CompleteDisposed(UncertainOutcome(s)));
    case PostCancelled => CancelAdds(s.(deferred := false), CompleteUncertain);
    case _ =>
    hide CancelOnce, DisposeOnce;
  }

  lemma CancelAdds(s: State, next: Then)
    ensures CancelOnce(s, next).reports == s.reports
    decreases Rank(next), 1
  {
    GoAdds(s.(cancelRequested := true), next);
    hide Go;
  }

  lemma DisposeAdds(s: State, next: Then)
    ensures DisposeOnce(s, next).reports == s.reports
    decreases Rank(next), 1
  {
    GoAdds(s.(disposalRequested := true), next);
    hide Go;
  }

  lemma UncertainAdds(s: State)
    ensures Uncertain(s).reports == s.reports
  {
    DisposeAdds(s.(settlement := Settling), UncertainDisposed);
    hide DisposeOnce;
  }

  lemma FinishAdds(s: State, o: Outcome)
    ensures Finish(s, o).reports == s.reports
  {
    DisposeAdds(s.(settlement := Settling, answered := true), CompleteDisposed(o));
    hide DisposeOnce;
  }

  lemma CallbackAdds(s: State, l: Label)
    requires l.Disposed? || l.Responded? || l.Failed?
    ensures Adds(s.reports, Step(s, l).reports, InCancel(s))
  {
    hide Finish, Uncertain, Merge, InCancel;
    match l
    case Disposed(_) =>
    case Responded(a) =>
      UncertainAdds(Report(s, HandedOff));
      if a.Answered? { FinishAdds(Report(s, HandedOff), a.outcome); }
    case Failed(d) => UncertainAdds(Report(s, d));
  }

  lemma ReturnAdds(s: State, d: Disposition)
    ensures Adds(s.reports, Return(s, d).reports, false)
  {
    if s.stack != [] {
      var t := Popped(s);
      match s.stack[|s.stack| - 1]
      case SettingTimer => DisposeAdds(t.(timer := true, armed := true), Nothing);
      case Posting =>
        CancelAdds(t.(postInProgress := false, handle := true), PostCancelled);
        GoAdds(t.(postInProgress := false, handle := true), PostCancelled);
      case Disposing(next) => GoAdds(t, next);
      case Cancelling(next, before) => GoAdds(Credit(t, before, d), next);
      hide Go, DisposeOnce, CancelOnce, Merge;
    }
  }

  lemma ThrowAdds(s: State)
    requires Calm(s)
    ensures Adds(s.reports, Throw(s).reports, false)
  {
    if s.stack != [] {
      OneCancel(s);
      var t := Popped(s);
      UncertainAdds(t);
      var u := Report(t.(postInProgress := false), Unknown);
      UncertainAdds(u);
      CancelAdds(u.(deferred := false), CompleteUncertain);
      hide Uncertain, CancelOnce, Calm, Merge;
    }
  }

  lemma OtherAdds(s: State, l: Label)
    requires Calm(s) && !l.Disposed? && !l.Responded? && !l.Failed?
    ensures Adds(s.reports, Step(s, l).reports, false)
  {
    hide Return, Throw, Uncertain, Calm;
    match l
    case Interrupted => UncertainAdds(s);
    case Entering =>
    case Returned(d) => ReturnAdds(s, d);
    case Threw => ThrowAdds(s);
  }

  /**
   A report is left out of account exactly if it is made while the cancellation is in progress: a step
   records one report at most, and marks it so in that case only.
   */
  lemma DroppedExactly(ws: seq<State>, ls: seq<Label>, n: nat)
    requires Run(ws, ls) && n < |ls|
    ensures Adds(ws[n].reports, ws[n + 1].reports,
                 InCancel(ws[n]) && (ls[n].Disposed? || ls[n].Responded? || ls[n].Failed?))
  {
    RunKeepsInv(ws, ls, n);
    hide Step, InCancel, Adds;
    if ls[n].Disposed? || ls[n].Responded? || ls[n].Failed? {
      CallbackAdds(ws[n], ls[n]);
    } else {
      OtherAdds(ws[n], ls[n]);
    }
  }

  lemma {:induction false} KeptAre(reports: seq<Heard>)
    ensures forall i :: 0 <= i < |reports| && !reports[i].during ==> reports[i].disposition in Kept(reports)
    ensures Kept(reports) != [] ==> reports != []
  {
    if reports != [] {
      KeptAre(reports[..|reports| - 1]);
    }
  }

  /**
   So a posted write resolved as not sent was told nothing else if and only if it was told nothing else
   while its request was being cancelled.
   */
  lemma NotSentIsKnown(ws: seq<State>, ls: seq<Label>, n: nat)
    requires Run(ws, ls) && n < |ls| && ws[n].resolved == [] && ws[n + 1].resolved == [OperationNotSent]
    requires ws[n + 1].postEntered && ws[n + 1].write
    ensures var rs := ws[n + 1].reports;
            && rs != []
            && ((forall i :: 0 <= i < |rs| ==> rs[i].disposition == NotSent) <==>
                (forall i :: 0 <= i < |rs| && rs[i].during ==> rs[i].disposition == NotSent))
  {
    NotSentExactly(ws, ls, n);
    var rs := ws[n + 1].reports;
    KeptAre(rs);
    hide Run, Kept;
    forall i | 0 <= i < |rs| && !rs[i].during ensures rs[i].disposition == NotSent {
      assert rs[i].disposition in Kept(rs);
    }
  }

  // ---- A report that is lost ----

  /** A write that was posted, timed out, and is being cancelled. */
  const BEING_CANCELLED: State :=
    State(true, Settling, true, false, true, true, true, false, true, false, true, true, None, false,
          [Cancelling(UncertainCancelled, None)], [], [])

  const TO_CANCELLED: seq<Label> := [Returned(NotSent), Entering, Returned(NotSent), Interrupted, Returned(NotSent)]

  const UNTIL_CANCELLED: seq<State> :=
    var a := Start(true);
    var b := a.(timer := true, armed := true, stack := []);
    var c := b.(postEntered := true, postInProgress := true, stack := [Posting]);
    var d := c.(postInProgress := false, handle := true, stack := []);
    var e := d.(settlement := Settling, timer := false, disposalRequested := true, disposalStarted := true,
                stack := [Disposing(UncertainDisposed)]);
    [a, b, c, d, e, BEING_CANCELLED]

  lemma PostIsReached()
    ensures Step(UNTIL_CANCELLED[0], TO_CANCELLED[0]) == UNTIL_CANCELLED[1]
    ensures Step(UNTIL_CANCELLED[1], TO_CANCELLED[1]) == UNTIL_CANCELLED[2]
  {
    hide DisposeOnce, CancelOnce, Go;
    assert Popped(UNTIL_CANCELLED[0]).stack == [];
  }

  lemma PostIsOver()
    ensures Step(UNTIL_CANCELLED[2], TO_CANCELLED[2]) == UNTIL_CANCELLED[3]
    ensures Step(UNTIL_CANCELLED[3], TO_CANCELLED[3]) == UNTIL_CANCELLED[4]
  {
    assert Popped(UNTIL_CANCELLED[2]).stack == [];
    hide CancelOnce;
  }

  lemma StopIsAsked()
    ensures Step(UNTIL_CANCELLED[4], TO_CANCELLED[4]) == BEING_CANCELLED
  {
    var t := Popped(UNTIL_CANCELLED[4]);
    assert t.stack == [];
    Stops(t, UncertainCancelled);
    hide CancelOnce;
  }

  lemma CancelIsReached()
    ensures Run(UNTIL_CANCELLED, TO_CANCELLED)
  {
    PostIsReached();
    PostIsOver();
    StopIsAsked();
    hide Step;
  }

  /**
   Whatever is reported while the request is being cancelled, even that it was handed off, a
   cancellation that then returns not-sent resolves the write as not sent.
   */
  lemma LateReportIsLost(d: Disposition) returns (ws: seq<State>, ls: seq<Label>)
    ensures Run(ws, ls) && ws[|ls|].resolved == [OperationNotSent] && ws[|ls|].postEntered
    ensures ws[|ls|].reports == [Heard(d, true), Heard(NotSent, false)]
  {
    CancelIsReached();
    var s := BEING_CANCELLED;
    var t := Report(s, d);
    var v := Credit(Popped(t), None, NotSent);
    UncertainResolves(v);
    assert v.(cancelRequested := true) == v;
    var u := Resolve(v, OperationNotSent);
    assert Step(s, Disposed(d)) == t;
    assert Step(t, Returned(NotSent)) == u;
    ls := TO_CANCELLED + [Disposed(d), Returned(NotSent)];
    ws := UNTIL_CANCELLED + [t, u];
    hide Step;
  }
}
