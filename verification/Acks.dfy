/**
 Acknowledgements of applied events: one in flight per subscription, newer ones folded together, and
 the fence that keeps input and other granted work behind the ACK of the last control or resize fact.
 */
module Acks {
  import opened Common

  datatype Phase = Recovering | Committing | Ready

  datatype Ack = Ack(token: nat, at: nat, handed: bool, settled: bool)

  /** What entered the uplink: an ACK, by its index, or work that needs `needs` acknowledged. */
  datatype Uplink = AckSent(k: nat) | WorkSent(token: nat, needs: nat)

  /**
   `acks` holds every ACK command sent, oldest first; `fences` the control and resize facts applied
   and the granted results received under the current token; `followUp` the send registered by the result of an ACK.
   */
  datatype State = State(
    token: nat,
    phase: Phase,
    applied: nat,
    inFlight: bool,
    pending: Option<nat>,
    fence: nat,
    handed: nat,
    followUp: Option<(nat, nat)>,
    acks: seq<Ack>,
    uplink: seq<Uplink>,
    fences: seq<nat>)

  const Start: State := State(0, Recovering, 0, false, None, 0, 0, None, [], [], [])

  function Max(a: nat, b: nat): nat { if a < b then b else a }

  // ---- Operations ----

  /** A new operation forgets the ACK state of the one before. */
  function Begin(s: State): State {
    s.(token := s.token + 1, phase := Recovering, inFlight := false, pending := None, fence := 0,
       handed := 0, fences := [])
  }

  function SendAck(s: State, at: nat): State {
    if s.inFlight then s.(pending := Some(if s.pending.Some? then Max(s.pending.value, at) else at))
    else s.(inFlight := true, acks := s.acks + [Ack(s.token, at, false, false)])
  }

  function RaiseFence(s: State, fencing: bool): State {
    if fencing then s.(fence := Max(s.fence, s.applied), fences := s.fences + [s.applied]) else s
  }

  /** The result of a granted resize or appearance moves the boundary, before its fact is applied. */
  function Granted(s: State, token: nat, at: nat): State {
    if token != s.token then s else s.(fence := Max(s.fence, at), fences := s.fences + [at])
  }

  /** An event of a replay: applied, and acknowledged with the commit. */
  function Replayed(s: State, fencing: bool): State {
    if !s.phase.Recovering? then s else RaiseFence(s.(applied := s.applied + 1), fencing)
  }

  /** A baseline puts the view at its own sequence. */
  function Loaded(s: State, atSeq: nat): State {
    if !s.phase.Recovering? then s else s.(applied := atSeq)
  }

  function Commit(s: State): State {
    if !s.phase.Recovering? then s else SendAck(s.(phase := Committing), s.applied)
  }

  /** A live event is acknowledged as soon as it is applied. */
  function Live(s: State, fencing: bool): State {
    if !s.phase.Ready? then s
    else
      var t := RaiseFence(s.(applied := s.applied + 1), fencing);
      SendAck(t, t.applied)
  }

  /** ACK `k` entered the uplink. */
  function Handoff(s: State, k: nat): State {
    if k >= |s.acks| || s.acks[k].handed || s.acks[k].settled then s
    else
      var t := s.(acks := s.acks[k := s.acks[k].(handed := true)], uplink := s.uplink + [AckSent(k)]);
      if s.acks[k].token != s.token then t
      else t.(handed := Max(s.handed, s.acks[k].at), phase := if s.phase.Committing? then Ready else s.phase)
  }

  /** ACK `k` has its result; a newer sequence folded meanwhile is sent as follow-up work. */
  function Result(s: State, k: nat, ok: bool): State {
    if k >= |s.acks| || s.acks[k].settled || (ok && !s.acks[k].handed) || s.followUp.Some? then s
    else
      var a := s.acks[k];
      var t := s.(acks := s.acks[k := a.(settled := true)]);
      if a.token != s.token then t
      else if !ok then t.(inFlight := false)
      else t.(inFlight := false, pending := None,
              followUp := if s.pending.Some? && s.pending.value > a.at
                          then Some((s.token, s.pending.value)) else None)
  }

  function FollowUp(s: State): State {
    if s.followUp.None? then s
    else
      var t := s.(followUp := None);
      if s.followUp.value.0 != s.token then t else SendAck(t, s.followUp.value.1)
  }

  /** Input, resize or appearance under a grant known since `grant`. */
  function Work(s: State, grant: nat): State {
    if !s.phase.Ready? || s.handed < Max(s.fence, grant) then s
    else s.(uplink := s.uplink + [WorkSent(s.token, Max(s.fence, grant))])
  }

  datatype Label =
    | Beginning
    | Replaying(fencing: bool)
    | Loading(atSeq: nat)
    | CommittingNow
    | Applying(fencing: bool)
    | GrantedResult(token: nat, at: nat)
    | HandingOff(k: nat)
    | Resulting(k: nat, ok: bool)
    | FollowingUp
    | Working(grant: nat)

  function Step(s: State, l: Label): State {
    match l
    case Beginning => Begin(s)
    case Replaying(f) => Replayed(s, f)
    case Loading(n) => Loaded(s, n)
    case CommittingNow => Commit(s)
    case Applying(f) => Live(s, f)
    case GrantedResult(token, at) => Granted(s, token, at)
    case HandingOff(k) => Handoff(s, k)
    case Resulting(k, ok) => Result(s, k, ok)
    case FollowingUp => FollowUp(s)
    case Working(grant) => Work(s, grant)
  }

  // ---- The invariant ----

  predicate Mine(s: State, k: int) {
    0 <= k < |s.acks| && s.acks[k].token == s.token
  }

  /** ACKs of one token grow strictly, and only the newest of all is unsettled under this token. */
  ghost predicate OneInFlight(s: State) {
    && (forall k :: 0 <= k < |s.acks| ==> s.acks[k].token <= s.token)
    && (forall i, j :: 0 <= i < j < |s.acks| ==> s.acks[i].token <= s.acks[j].token)
    && (forall i, j :: 0 <= i < j < |s.acks| && s.acks[i].token == s.acks[j].token ==>
                       s.acks[i].at < s.acks[j].at && s.acks[i].settled)
    && (s.inFlight ==> Mine(s, |s.acks| - 1))
    && (forall k :: Mine(s, k) ==>
          s.acks[k].at <= s.applied && (!s.acks[k].settled <==> s.inFlight && k == |s.acks| - 1))
  }

  function LastAt(s: State): nat {
    if |s.acks| > 0 && s.acks[|s.acks| - 1].token == s.token then s.acks[|s.acks| - 1].at else 0
  }

  function Followed(s: State): nat {
    if s.followUp.Some? && s.followUp.value.0 == s.token then s.followUp.value.1 else 0
  }

  /** Nothing applied is forgotten: the newest is acknowledged, folded or about to be sent. */
  ghost predicate Newest(s: State) {
    && (s.pending.Some? ==> s.pending.value <= s.applied)
    && Followed(s) <= s.applied
    && (s.followUp.Some? ==> s.followUp.value.0 <= s.token)
    && (s.followUp.Some? && s.followUp.value.0 == s.token && !s.inFlight ==> LastAt(s) < Followed(s))
    && (!s.phase.Recovering? ==>
          && Mine(s, |s.acks| - 1)
          && s.applied == Max(LastAt(s), Max(if s.pending.Some? then s.pending.value else 0, Followed(s))))
    && (s.phase.Recovering? ==> s.pending.None? && !s.inFlight && Followed(s) == 0 && forall k :: !Mine(s, k))
  }

  /** The uplink repeats no ACK and keeps each token's in order; `handed` is the newest there. */
  ghost predicate Sent(s: State) {
    && (forall p :: 0 <= p < |s.uplink| && s.uplink[p].AckSent? ==>
          s.uplink[p].k < |s.acks| && s.acks[s.uplink[p].k].handed)
    && (forall p, q :: 0 <= p < q < |s.uplink| && s.uplink[p].AckSent? && s.uplink[q].AckSent? ==>
                       InOrder(s, s.uplink[p].k, s.uplink[q].k))
    && (s.handed > 0 ==> HandedIn(s, s.token, s.handed))
    && (forall f :: f in s.fences ==> f <= s.fence)
  }

  predicate InOrder(s: State, i: nat, j: nat) {
    i < |s.acks| && j < |s.acks| && i != j && (s.acks[i].token == s.acks[j].token ==> s.acks[i].at < s.acks[j].at)
  }

  /** An ACK of the token at or past `at` is in the uplink. */
  ghost predicate HandedIn(s: State, token: nat, at: nat) {
    exists p :: 0 <= p < |s.uplink| && Covers(s, p, token, at)
  }

  predicate Covers(s: State, p: nat, token: nat, at: nat) {
    && p < |s.uplink| && s.uplink[p].AckSent? && s.uplink[p].k < |s.acks|
    && s.acks[s.uplink[p].k].token == token && s.acks[s.uplink[p].k].at >= at
  }

  /** Work follows, in the uplink, an ACK that covers what it needs. */
  ghost predicate Behind(s: State) {
    forall q :: 0 <= q < |s.uplink| && s.uplink[q].WorkSent? && s.uplink[q].needs > 0 ==> Preceded(s, q)
  }

  ghost predicate Preceded(s: State, q: nat)
    requires q < |s.uplink| && s.uplink[q].WorkSent?
  {
    exists p :: 0 <= p < q && Covers(s, p, s.uplink[q].token, s.uplink[q].needs)
  }

  ghost predicate Inv(s: State) {
    OneInFlight(s) && Newest(s) && Sent(s) && Behind(s)
  }

  // ---- Sending ----

  lemma SendKeepsOne(s: State, at: nat)
    requires OneInFlight(s) && at <= s.applied && (!s.inFlight ==> forall k :: Mine(s, k) ==> s.acks[k].at < at)
    ensures OneInFlight(SendAck(s, at))
  {
    var t := SendAck(s, at);
    if s.inFlight {
      assert forall k :: Mine(t, k) == Mine(s, k);
    } else {
      assert forall k :: Mine(t, k) <==> Mine(s, k) || k == |s.acks|;
      assert forall k :: 0 <= k < |s.acks| ==> t.acks[k] == s.acks[k];
    }
  }

  /** More ACKs on record change nothing that the uplink says. */
  lemma SendKeepsUplink(s: State, at: nat)
    requires Sent(s) && Behind(s)
    ensures Sent(SendAck(s, at)) && Behind(SendAck(s, at))
  {
    UplinkFrame(s, SendAck(s, at));
  }

  /** The same ACKs, and possibly further ones, with a longer uplink. */
  predicate Extends(s: State, t: State) {
    && s.uplink <= t.uplink && |s.acks| <= |t.acks|
    && forall k :: 0 <= k < |s.acks| ==>
         t.acks[k].token == s.acks[k].token && t.acks[k].at == s.acks[k].at && (s.acks[k].handed ==> t.acks[k].handed)
  }

  lemma CoversExtends(s: State, t: State, p: nat, token: nat, at: nat)
    requires Extends(s, t) && Covers(s, p, token, at)
    ensures Covers(t, p, token, at)
  {
  }

  lemma PrecededExtends(s: State, t: State, q: nat)
    requires Extends(s, t) && q < |s.uplink| && s.uplink[q].WorkSent? && Preceded(s, q)
    ensures t.uplink[q] == s.uplink[q] && Preceded(t, q)
  {
    var p :| 0 <= p < q && Covers(s, p, s.uplink[q].token, s.uplink[q].needs);
    CoversExtends(s, t, p, s.uplink[q].token, s.uplink[q].needs);
  }

  lemma OrderExtends(s: State, t: State)
    requires Sent(s) && Extends(s, t)
    ensures forall p :: 0 <= p < |s.uplink| && t.uplink[p].AckSent? ==>
              t.uplink[p].k < |s.acks| && t.acks[t.uplink[p].k].handed
    ensures forall p, q :: 0 <= p < q < |s.uplink| && t.uplink[p].AckSent? && t.uplink[q].AckSent? ==>
                           InOrder(t, t.uplink[p].k, t.uplink[q].k)
  {
    forall p, q | 0 <= p < q < |s.uplink| && t.uplink[p].AckSent? && t.uplink[q].AckSent?
      ensures InOrder(t, t.uplink[p].k, t.uplink[q].k)
    {
      assert InOrder(s, s.uplink[p].k, s.uplink[q].k);
    }
  }

  lemma HandedExtends(s: State, t: State, token: nat, at: nat)
    requires Extends(s, t) && HandedIn(s, token, at)
    ensures HandedIn(t, token, at)
  {
    var p :| 0 <= p < |s.uplink| && Covers(s, p, token, at);
    CoversExtends(s, t, p, token, at);
  }

  lemma BehindExtends(s: State, t: State)
    requires Behind(s) && Extends(s, t)
    requires |t.uplink| <= |s.uplink| + 1
    requires |t.uplink| == |s.uplink| + 1 && t.uplink[|s.uplink|].WorkSent? && t.uplink[|s.uplink|].needs > 0 ==>
               Preceded(t, |s.uplink|)
    ensures Behind(t)
  {
    forall q | 0 <= q < |t.uplink| && t.uplink[q].WorkSent? && t.uplink[q].needs > 0 ensures Preceded(t, q) {
      if q < |s.uplink| {
        PrecededExtends(s, t, q);
      }
    }
  }

  /** The same uplink. */
  lemma UplinkFrame(s: State, t: State)
    requires Sent(s) && Behind(s) && Extends(s, t) && t.uplink == s.uplink
    requires t.handed == 0 || (t.handed == s.handed && t.token == s.token)
    requires forall f :: f in t.fences ==> f <= t.fence
    ensures Sent(t) && Behind(t)
  {
    OrderExtends(s, t);
    BehindExtends(s, t);
    if t.handed > 0 {
      HandedExtends(s, t, s.token, s.handed);
    }
  }

  /** What a state must satisfy just before it sends an ACK for `at`. */
  ghost predicate Sendable(s: State, at: nat) {
    && !s.phase.Recovering? && at <= s.applied && Followed(s) <= s.applied
    && (s.pending.Some? ==> s.pending.value <= s.applied)
    && (s.followUp.Some? ==> s.followUp.value.0 <= s.token)
    && (!s.inFlight ==> forall k :: Mine(s, k) ==> s.acks[k].at < at)
    && (!s.inFlight && s.followUp.Some? && s.followUp.value.0 == s.token ==> LastAt(s) < Followed(s))
    && (at == s.applied
        || s.applied == Max(LastAt(s), Max(if s.pending.Some? then s.pending.value else 0, Max(Followed(s), at))))
  }

  lemma SendKeepsInv(s: State, at: nat)
    requires OneInFlight(s) && Sent(s) && Behind(s) && Sendable(s, at)
    ensures Inv(SendAck(s, at))
  {
    SendKeepsOne(s, at);
    SendKeepsUplink(s, at);
    hide OneInFlight, Sent, Behind;
  }

  // ---- Every step keeps the invariant ----

  lemma BeginKeepsInv(s: State)
    requires Inv(s)
    ensures Inv(Begin(s))
  {
    var t := Begin(s);
    UplinkFrame(s, t);
    assert forall k :: !Mine(t, k);
    hide Sent, Behind;
  }

  lemma ReplayKeepsInv(s: State, l: Label)
    requires Inv(s) && (l.Replaying? || l.Loading?)
    ensures Inv(Step(s, l))
  {
    var t := Step(s, l);
    if t != s {
      UplinkFrame(s, t);
      assert forall k :: Mine(t, k) == Mine(s, k);
      hide Sent, Behind;
    }
  }

  lemma CommitKeepsInv(s: State)
    requires Inv(s)
    ensures Inv(Commit(s))
  {
    if s.phase.Recovering? {
      var t := s.(phase := Committing);
      UplinkFrame(s, t);
      assert forall k :: Mine(t, k) == Mine(s, k);
      hide Sent, Behind;
      SendKeepsInv(t, s.applied);
    }
  }

  lemma RaiseKeepsUplink(s: State, fencing: bool)
    requires Inv(s)
    ensures var t := RaiseFence(s.(applied := s.applied + 1), fencing); Sent(t) && Behind(t)
  {
    var t := RaiseFence(s.(applied := s.applied + 1), fencing);
    forall f | f in t.fences ensures f <= t.fence {
      assert f in s.fences || f == t.applied;
    }
    UplinkFrame(s, t);
  }

  lemma LiveSendable(s: State, t: State)
    requires Inv(s) && s.phase.Ready? && t.applied == s.applied + 1
    requires t == s.(applied := t.applied, fence := t.fence, fences := t.fences)
    ensures OneInFlight(t) && Sendable(t, t.applied)
  {
    AppliedKeepsOne(s, t);
    hide Sent, Behind, OneInFlight;
  }

  lemma LiveKeepsInv(s: State, fencing: bool)
    requires Inv(s)
    ensures Inv(Live(s, fencing))
  {
    hide Inv, Sent, Behind, OneInFlight, Sendable, SendAck;
    if s.phase.Ready? {
      var t := RaiseFence(s.(applied := s.applied + 1), fencing);
      RaiseKeepsUplink(s, fencing);
      LiveSendable(s, t);
      SendKeepsInv(t, t.applied);
    }
  }

  lemma AppliedKeepsOne(s: State, t: State)
    requires OneInFlight(s) && t.acks == s.acks && t.token == s.token && t.inFlight == s.inFlight
    requires t.applied == s.applied + 1
    ensures OneInFlight(t) && forall k :: Mine(t, k) ==> t.acks[k].at < t.applied
  {
    assert forall k :: Mine(t, k) == Mine(s, k);
  }

  /** The ACK that enters the uplink is newer than its token's others, which are settled. */
  lemma HandoffIsNewest(s: State, k: nat, i: nat)
    requires OneInFlight(s) && k < |s.acks| && !s.acks[k].handed && !s.acks[k].settled
    requires i < |s.acks| && s.acks[i].handed
    ensures InOrder(Handoff(s, k), i, k)
  {
  }

  lemma HandoffKeepsUplink(s: State, k: nat)
    requires OneInFlight(s) && Sent(s) && Behind(s) && k < |s.acks| && !s.acks[k].handed && !s.acks[k].settled
    ensures Sent(Handoff(s, k)) && Behind(Handoff(s, k))
  {
    var t := Handoff(s, k);
    OrderExtends(s, t);
    BehindExtends(s, t);
    forall p | 0 <= p < |s.uplink| && s.uplink[p].AckSent? ensures InOrder(t, t.uplink[p].k, k) {
      HandoffIsNewest(s, k, s.uplink[p].k);
    }
    hide OneInFlight, InOrder;
    assert Covers(t, |s.uplink|, s.acks[k].token, s.acks[k].at);
    if s.handed > 0 {
      HandedExtends(s, t, s.token, s.handed);
    }
  }

  lemma HandoffKeepsInv(s: State, k: nat)
    requires Inv(s)
    ensures Inv(Handoff(s, k))
  {
    if k < |s.acks| && !s.acks[k].handed && !s.acks[k].settled {
      HandoffKeepsUplink(s, k);
      HandoffKeepsOne(s, k);
      hide Sent, Behind, OneInFlight;
    }
  }

  lemma HandoffKeepsOne(s: State, k: nat)
    requires OneInFlight(s)
    ensures OneInFlight(Handoff(s, k)) && forall j :: Mine(Handoff(s, k), j) == Mine(s, j)
  {
  }

  lemma ResultKeepsInv(s: State, k: nat, ok: bool)
    requires Inv(s)
    ensures Inv(Result(s, k, ok))
  {
    var t := Result(s, k, ok);
    if t != s {
      UplinkFrame(s, t);
      assert forall j :: Mine(t, j) == Mine(s, j);
      hide Sent, Behind;
      assert Mine(s, k) ==> k == |s.acks| - 1;
    }
  }

  lemma FollowUpKeepsInv(s: State)
    requires Inv(s)
    ensures Inv(FollowUp(s))
  {
    if s.followUp.Some? {
      var t := s.(followUp := None);
      UplinkFrame(s, t);
      assert forall j :: Mine(t, j) == Mine(s, j);
      hide Sent, Behind;
      if s.followUp.value.0 == s.token {
        assert !s.inFlight ==> forall j :: Mine(s, j) ==> s.acks[j].at <= LastAt(s);
        SendKeepsInv(t, s.followUp.value.1);
      }
    }
  }

  lemma WorkKeepsInv(s: State, grant: nat)
    requires Inv(s)
    ensures Inv(Work(s, grant))
  {
    var t := Work(s, grant);
    if t != s {
      WorkKeepsUplink(s, grant);
      assert forall j :: Mine(t, j) == Mine(s, j);
      hide Sent, Behind;
    }
  }

  lemma WorkKeepsUplink(s: State, grant: nat)
    requires Sent(s) && Behind(s) && s.phase.Ready? && s.handed >= Max(s.fence, grant)
    ensures Sent(Work(s, grant)) && Behind(Work(s, grant))
  {
    var t := Work(s, grant);
    var n := |s.uplink|;
    OrderExtends(s, t);
    if s.handed > 0 {
      HandedExtends(s, t, s.token, s.handed);
      var p :| 0 <= p < n && Covers(s, p, s.token, s.handed);
      assert Covers(t, p, s.token, t.uplink[n].needs);
      assert Preceded(t, n);
    }
    BehindExtends(s, t);
  }

  lemma GrantedKeepsInv(s: State, token: nat, at: nat)
    requires Inv(s)
    ensures Inv(Granted(s, token, at))
  {
    var t := Granted(s, token, at);
    if t != s {
      forall f | f in t.fences ensures f <= t.fence {
        assert f in s.fences || f == at;
      }
      UplinkFrame(s, t);
      assert forall j :: Mine(t, j) == Mine(s, j);
      hide Sent, Behind;
    }
  }

  lemma StepKeepsInv(s: State, l: Label)
    requires Inv(s)
    ensures Inv(Step(s, l))
  {
    hide Inv;
    match l
    case Beginning => BeginKeepsInv(s);
    case Replaying(_) => ReplayKeepsInv(s, l);
    case Loading(_) => ReplayKeepsInv(s, l);
    case CommittingNow => CommitKeepsInv(s);
    case Applying(f) => LiveKeepsInv(s, f);
    case GrantedResult(token, at) => GrantedKeepsInv(s, token, at);
    case HandingOff(k) => HandoffKeepsInv(s, k);
    case Resulting(k, ok) => ResultKeepsInv(s, k, ok);
    case FollowingUp => FollowUpKeepsInv(s);
    case Working(grant) => WorkKeepsInv(s, grant);
  }

  // ---- Runs ----

  ghost predicate Run(ws: seq<State>, ls: seq<Label>) {
    && |ws| == |ls| + 1
    && ws[0] == Start
    && forall i :: 0 <= i < |ls| ==> ws[i + 1] == Step(ws[i], ls[i])
  }

  lemma {:induction false} RunKeepsInv(ws: seq<State>, ls: seq<Label>, n: nat)
    requires Run(ws, ls) && n < |ws|
    ensures Inv(ws[n])
  {
    if n > 0 {
      RunKeepsInv(ws, ls, n - 1);
      hide Inv, Step;
      StepKeepsInv(ws[n - 1], ls[n - 1]);
    }
  }

  /** The ACKs of one subscription attempt enter the uplink in strictly increasing order. */
  lemma AcksIncrease(ws: seq<State>, ls: seq<Label>, n: nat, p: nat, q: nat)
    requires Run(ws, ls) && n < |ws| && p < q < |ws[n].uplink|
    requires ws[n].uplink[p].AckSent? && ws[n].uplink[q].AckSent?
    ensures InOrder(ws[n], ws[n].uplink[p].k, ws[n].uplink[q].k)
  {
    RunKeepsInv(ws, ls, n);
    hide OneInFlight, Newest, Behind;
  }

  /** Once nothing is in flight, folded or about to be sent, all that was applied is acknowledged. */
  lemma AllAcknowledged(ws: seq<State>, ls: seq<Label>, n: nat)
    requires Run(ws, ls) && n < |ws|
    requires var s := ws[n]; s.phase.Ready? && !s.inFlight && s.pending.None? && s.followUp.None?
    ensures var s := ws[n]; Mine(s, |s.acks| - 1) && s.acks[|s.acks| - 1].at == s.applied
  {
    RunKeepsInv(ws, ls, n);
    hide OneInFlight, Sent, Behind;
  }

  /** Work sent in this step follows an ACK at or past every fact applied and granted result so far. */
  lemma WorkFollowsAck(ws: seq<State>, ls: seq<Label>, n: nat, grant: nat)
    requires Run(ws, ls) && n < |ls| && ls[n] == Working(grant) && ws[n + 1] != ws[n]
    ensures forall f :: f in ws[n].fences && f > 0 ==> HandedIn(ws[n], ws[n].token, f)
    ensures grant > 0 ==> HandedIn(ws[n], ws[n].token, grant)
  {
    RunKeepsInv(ws, ls, n);
    var s := ws[n];
    hide OneInFlight, Newest, Behind;
    if s.handed > 0 {
      var p :| 0 <= p < |s.uplink| && Covers(s, p, s.token, s.handed);
      forall f | f in s.fences ensures Covers(s, p, s.token, f) {
      }
      assert Covers(s, p, s.token, grant);
    }
  }
}
