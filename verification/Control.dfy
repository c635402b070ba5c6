/** Control authority of one terminal subscription: which focus grant may send input. */
module Control {
  import opened Common

  /** An ordered control fact: the authority that holds from sequence number `at` on. */
  datatype Fact = Fact(at: nat, epoch: nat, holder: Option<Holder>)

  datatype Grant = Grant(
    ref: SubscriptionRef, viewGeneration: nat, intent: int, epoch: nat, atSeq: nat)

  predicate HeldBy(ref: SubscriptionRef, fact: Fact) {
    fact.holder == Some(HolderOf(ref))
  }

  /** Whether authority known as of `fact.at` rules out a grant of `epoch` at `atSeq`. */
  predicate Contradicts(epoch: nat, atSeq: nat, ref: SubscriptionRef, fact: Fact) {
    if fact.epoch > epoch then true
    else if fact.epoch == epoch then !HeldBy(ref, fact)
    else fact.at >= atSeq
  }

  /** The fields of the control tracker, and what each of its methods does to them. */
  datatype State = State(
    intent: int,
    foreground: bool,
    target: bool,
    pending: Option<int>,
    grant: Option<Grant>,
    observed: Option<Fact>,
    applied: Option<Fact>,
    canonicalFacts: map<nat, Fact>,
    reconnectFocus: bool,
    exited: bool,
    recovering: bool,
    carried: Option<Grant>,
    carriedIntent: Option<int>,
    restoredGeneration: nat,
    targetLosses: nat)
  {
    predicate WantsFocus() { foreground && target }

    function Invalidate(): State {
      var next := NextCounter(intent);
      this.(intent := if next.Some? then next.value else -1,
            pending := None, grant := None, recovering := false,
            carried := None, carriedIntent := None)
    }

    function SetTarget(foreground: bool, target: bool): State {
      var s := this.(foreground := foreground, target := foreground && target);
      if s.target then s else s.(targetLosses := targetLosses + 1).Invalidate()
    }

    function BeginFocus(): (State, Option<int>) {
      var next := NextCounter(intent);
      if !WantsFocus() || exited || next.None? then (this, None)
      else (this.(intent := next.value, pending := next, grant := None,
                  carried := None, carriedIntent := None), next)
    }

    function AcceptFocus(i: int, ref: SubscriptionRef, viewGeneration: nat, epoch: nat, atSeq: nat)
      : (State, bool)
    {
      var isCarried := carriedIntent == Some(i);
      if (pending != Some(i) && !isCarried) || !WantsFocus() || exited then (this, false)
      else if observed.Some? && Contradicts(epoch, atSeq, ref, observed.value) then (this, false)
      else if isCarried && recovering then
        (this.(carriedIntent := None,
               carried := Some(Grant(ref, viewGeneration, i, epoch, atSeq))), true)
      else if isCarried then
        (this.(carriedIntent := None,
               grant := Some(Grant(ref, restoredGeneration, i, epoch, atSeq))), true)
      else
        (this.(pending := None, grant := Some(Grant(ref, viewGeneration, i, epoch, atSeq))), true)
    }

    function FailFocus(i: int): State {
      this.(pending := if pending == Some(i) then None else pending,
            carriedIntent := if carriedIntent == Some(i) then None else carriedIntent)
    }

    function Observe(event: nat, fact: Fact, ref: SubscriptionRef): (State, bool) {
      if observed.Some? && fact.epoch < observed.value.epoch then (this, false)
      else if observed.Some? && fact.epoch == observed.value.epoch && fact.at < observed.value.at
      then (this, false)
      else
        var s := this.(canonicalFacts := canonicalFacts[event := fact], observed := Some(fact));
        var over := grant.Some? && Contradicts(grant.value.epoch, grant.value.atSeq, ref, fact);
        var carriedOver :=
          carried.Some? && Contradicts(carried.value.epoch, carried.value.atSeq, ref, fact);
        (s.(grant := if over then None else grant,
            pending := if over then None else pending,
            carried := if carriedOver then None else carried), true)
    }

    function Apply(event: nat): (State, Option<Fact>) {
      if event in canonicalFacts
         && (applied.None? || canonicalFacts[event].epoch >= applied.value.epoch)
      then (this.(applied := Some(canonicalFacts[event])), Some(canonicalFacts[event]))
      else (this, None)
    }

    predicate Ready(ref: SubscriptionRef, viewGeneration: nat, appliedSeq: nat) {
      && WantsFocus()
      && !exited
      && grant.Some?
      && grant.value.ref == ref
      && grant.value.viewGeneration == viewGeneration
      && appliedSeq >= grant.value.atSeq
      && applied.Some?
      && applied.value.epoch == grant.value.epoch
      && HeldBy(ref, applied.value)
      && (observed.None?
          || (observed.value.epoch == grant.value.epoch && HeldBy(ref, observed.value)))
    }

    function ResetForRecovery(): State {
      Invalidate().(observed := None, applied := None)
    }

    function SuspendForRecovery(): State {
      var s := ResetForRecovery();
      if !s.WantsFocus() || s.exited then s
      else s.(recovering := true,
              carried := grant,
              carriedIntent := if grant.Some? then None
                               else if pending.Some? then pending else carriedIntent)
    }

    function Restore(epoch: nat, holder: Option<Holder>, atSeq: nat,
                     ref: SubscriptionRef, viewGeneration: nat): State
    {
      var baseline := Fact(atSeq, epoch, holder);
      var newest :=
        if observed.None? || epoch > observed.value.epoch
           || (epoch == observed.value.epoch && atSeq >= observed.value.at)
        then baseline else observed.value;
      var s := this.(observed := Some(newest), applied := Some(baseline), recovering := false,
                     carried := None, restoredGeneration := viewGeneration);
      if carried.None? || !s.WantsFocus() || s.exited || carried.value.ref != ref
         || Contradicts(carried.value.epoch, carried.value.atSeq, ref, baseline)
         || Contradicts(carried.value.epoch, carried.value.atSeq, ref, newest)
      then s
      else s.(grant := Some(carried.value.(viewGeneration := viewGeneration)))
    }

    function FinishRecovery(): State {
      if !recovering then this
      else this.(recovering := false, carried := None, carriedIntent := None)
    }

    function ConnectionLost(): State {
      this.(reconnectFocus := WantsFocus()).ResetForRecovery()
    }

    function TakeReconnectFocus(): (State, bool) {
      (this.(reconnectFocus := false), reconnectFocus && WantsFocus())
    }

    function ReplaceView(): State {
      this.(foreground := false, target := false, reconnectFocus := false).ResetForRecovery()
    }

    function Exit(): State {
      this.(exited := true).ResetForRecovery()
    }
  }

  const Initial: State :=
    State(0, false, false, None, None, None, None, map[], false, false, false, None, None, 0, 0)

  /** The tracker itself. Each method is proved against the value transition above. */
  class TerminalControl {
    var intent: int
    var foreground: bool
    var target: bool
    var pending: Option<int>
    var grant: Option<Grant>
    var observed: Option<Fact>
    var applied: Option<Fact>
    var canonicalFacts: map<nat, Fact>
    var reconnectFocus: bool
    var exited: bool
    var recovering: bool
    var carried: Option<Grant>
    var carriedIntent: Option<int>
    var restoredGeneration: nat
    var targetLosses: nat

    ghost function Value(): State
      reads this
    {
      State(intent, foreground, target, pending, grant, observed, applied, canonicalFacts,
            reconnectFocus, exited, recovering, carried, carriedIntent, restoredGeneration,
            targetLosses)
    }

    constructor ()
      ensures Value() == Initial
    {
      intent, foreground, target := 0, false, false;
      pending, grant, observed, applied := None, None, None, None;
      canonicalFacts := map[];
      reconnectFocus, exited, recovering := false, false, false;
      carried, carriedIntent := None, None;
      restoredGeneration, targetLosses := 0, 0;
    }

    method Invalidate()
      modifies this
      ensures Value() == old(Value().Invalidate())
    {
      var next := NextCounter(intent);
      if next.Some? { intent := next.value; } else { intent := -1; }
      pending := None;
      grant := None;
      recovering := false;
      carried := None;
      carriedIntent := None;
    }

    method SetTarget(isForeground: bool, isTarget: bool)
      modifies this
      ensures Value() == old(Value()).SetTarget(isForeground, isTarget)
    {
      foreground := isForeground;
      target := isForeground && isTarget;
      if !target {
        targetLosses := targetLosses + 1;
        Invalidate();
      }
    }

    method BeginFocus() returns (next: Option<int>)
      modifies this
      ensures (Value(), next) == old(Value().BeginFocus())
    {
      if !(foreground && target) || exited { return None; }
      next := NextCounter(intent);
      if next.None? { return; }
      intent := next.value;
      pending := next;
      grant := None;
      carried := None;
      carriedIntent := None;
    }

    method AcceptFocus(i: int, ref: SubscriptionRef, viewGeneration: nat, epoch: nat, atSeq: nat)
      returns (accepted: bool)
      modifies this
      ensures (Value(), accepted) == old(Value()).AcceptFocus(i, ref, viewGeneration, epoch, atSeq)
    {
      var isCarried := carriedIntent == Some(i);
      if (pending != Some(i) && !isCarried) || !(foreground && target) || exited { return false; }
      if observed.Some? && Contradicts(epoch, atSeq, ref, observed.value) { return false; }
      if isCarried {
        carriedIntent := None;
        if recovering {
          carried := Some(Grant(ref, viewGeneration, i, epoch, atSeq));
        } else {
          grant := Some(Grant(ref, restoredGeneration, i, epoch, atSeq));
        }
        return true;
      }
      pending := None;
      grant := Some(Grant(ref, viewGeneration, i, epoch, atSeq));
      return true;
    }

    method FailFocus(i: int)
      modifies this
      ensures Value() == old(Value()).FailFocus(i)
    {
      if pending == Some(i) { pending := None; }
      if carriedIntent == Some(i) { carriedIntent := None; }
    }

    method Observe(event: nat, fact: Fact, ref: SubscriptionRef) returns (accepted: bool)
      modifies this
      ensures (Value(), accepted) == old(Value()).Observe(event, fact, ref)
    {
      if observed.Some? {
        if fact.epoch < observed.value.epoch { return false; }
        if fact.epoch == observed.value.epoch && fact.at < observed.value.at { return false; }
      }
      canonicalFacts := canonicalFacts[event := fact];
      observed := Some(fact);
      if grant.Some? && Contradicts(grant.value.epoch, grant.value.atSeq, ref, fact) {
        grant := None;
        pending := None;
      }
      if carried.Some? && Contradicts(carried.value.epoch, carried.value.atSeq, ref, fact) {
        carried := None;
      }
      return true;
    }

    method Apply(event: nat) returns (canonical: Option<Fact>)
      modifies this
      ensures (Value(), canonical) == old(Value()).Apply(event)
    {
      if event in canonicalFacts {
        var fact := canonicalFacts[event];
        if applied.None? || fact.epoch >= applied.value.epoch {
          applied := Some(fact);
          return applied;
        }
      }
      return None;
    }

    method ResetForRecovery()
      modifies this
      ensures Value() == old(Value()).ResetForRecovery()
    {
      Invalidate();
      observed := None;
      applied := None;
    }

    method SuspendForRecovery()
      modifies this
      ensures Value() == old(Value()).SuspendForRecovery()
    {
      var held := grant;
      var waiting := if pending.Some? then pending else carriedIntent;
      ResetForRecovery();
      if !(foreground && target) || exited { return; }
      recovering := true;
      carried := held;
      carriedIntent := if held.Some? then None else waiting;
    }

    method Restore(epoch: nat, holder: Option<Holder>, atSeq: nat,
                   ref: SubscriptionRef, viewGeneration: nat)
      modifies this
      ensures Value() == old(Value()).Restore(epoch, holder, atSeq, ref, viewGeneration)
    {
      var canonical := Fact(atSeq, epoch, holder);
      if observed.None? || canonical.epoch > observed.value.epoch
         || (canonical.epoch == observed.value.epoch && canonical.at >= observed.value.at)
      {
        observed := Some(canonical);
      }
      applied := Some(canonical);
      var kept := carried;
      recovering := false;
      carried := None;
      restoredGeneration := viewGeneration;
      if kept.None? || !(foreground && target) || exited || kept.value.ref != ref { return; }
      if Contradicts(kept.value.epoch, kept.value.atSeq, ref, canonical)
         || Contradicts(kept.value.epoch, kept.value.atSeq, ref, observed.value)
      {
        return;
      }
      grant := Some(kept.value.(viewGeneration := viewGeneration));
    }

    method FinishRecovery()
      modifies this
      ensures Value() == old(Value()).FinishRecovery()
    {
      if !recovering { return; }
      recovering := false;
      carried := None;
      carriedIntent := None;
    }

    method ConnectionLost()
      modifies this
      ensures Value() == old(Value()).ConnectionLost()
    {
      reconnectFocus := foreground && target;
      ResetForRecovery();
    }

    method TakeReconnectFocus() returns (focus: bool)
      modifies this
      ensures (Value(), focus) == old(Value()).TakeReconnectFocus()
    {
      focus := reconnectFocus && foreground && target;
      reconnectFocus := false;
    }

    method ReplaceView()
      modifies this
      ensures Value() == old(Value()).ReplaceView()
    {
      foreground := false;
      target := false;
      reconnectFocus := false;
      ResetForRecovery();
    }

    method Exit()
      modifies this
      ensures Value() == old(Value()).Exit()
    {
      exited := true;
      ResetForRecovery();
    }
  }
}
