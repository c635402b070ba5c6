/**
 The operation ledger of a server session: every write is tracked under its own ID until it is proven
 not to have happened or known to be over, across reconnections and whatever order answers arrive in.
 */
module Ledger {
  import opened Common

  datatype Delivery = Dispatching | Unknown | NotSent | Confirmed

  datatype Observation = Unqueried | Recorded | NotFound | Unavailable

  datatype Record = Record(revision: nat, final: bool)

  /**
   One dispatched write. `answered` records its call's outcome, `tracked` that it was entered in the
   ledger's table and has not been forgotten. A forgotten write lives on in the calls that refer to it.
   */
  datatype Local = Local(
    id: string, verb: string, bytes: nat, generation: nat, tracked: bool,
    delivery: Delivery, observation: Observation, record: Option<Record>, answered: Option<Outcome>)

  /** How the client's call of a write ends. */
  datatype Outcome = Accepted | WasNotSent | LocalFailure | RpcFailure | IsUnknown

  /** The outcomes that prove the write was not sent or not accepted. */
  predicate Proof(o: Outcome) { o.WasNotSent? || o.LocalFailure? || o.RpcFailure? }

  /**
   A call that has found its ID unused and waits for the codec, and whether another call of its ID and
   attempt has been entered since.
   */
  datatype Opened = Opened(id: string, verb: string, generation: nat, overtaken: bool)

  /** The codec may call back, so the calls that wait for it are a stack. */
  datatype State = State(
    current: bool, generation: nat, locals: seq<Local>, table: map<string, nat>, intentBytes: int,
    open: seq<Opened>)

  const Start: State := State(false, 0, [], map[], 0, [])

  const MAX_TRACKED: nat := 256
  const MAX_INTENT_BYTES: nat := 65536

  predicate Wellformed(s: State) {
    forall id :: id in s.table ==>
      s.table[id] < |s.locals| && s.locals[s.table[id]].id == id && s.locals[s.table[id]].tracked
  }

  // ---- Updates ----

  datatype Update = Update(delivery: Option<Delivery>, observation: Option<Observation>, record: Option<Record>)

  /** A confirmed write with a record stays confirmed, and a record is never replaced by an older one. */
  function Updated(l: Local, u: Update): Local {
    var delivery := if u.delivery.None? then l.delivery
                    else if l.delivery.Confirmed? && l.record.Some? then Confirmed
                    else u.delivery.value;
    var record := if u.record.None? || (l.record.Some? && u.record.value.revision < l.record.value.revision)
                  then l.record else u.record;
    l.(delivery := delivery, record := record,
       observation := if u.observation.Some? then u.observation.value else l.observation)
  }

  function Change(s: State, h: nat, u: Update): State
    requires h < |s.locals|
  {
    s.(locals := s.locals[h := Updated(s.locals[h], u)])
  }

  // ---- Steps ----

  /** A write needs an ID that is not tracked; its intent is then given to the codec. */
  function Look(s: State, id: string, verb: string): State {
    if !s.current || id in s.table then s
    else s.(open := s.open + [Opened(id, verb, s.generation, false)])
  }

  /** The attempt the call began under is the current one, and there is room. */
  predicate Admits(s: State, bytes: nat, generation: nat) {
    && s.current && generation == s.generation
    && |s.table| < MAX_TRACKED && s.intentBytes + bytes <= MAX_INTENT_BYTES
  }

  function Top(s: State): Opened
    requires s.open != []
  {
    s.open[|s.open| - 1]
  }

  function Popped(s: State): State
    requires s.open != []
  {
    s.(open := s.open[..|s.open| - 1])
  }

  predicate SameWrite(a: Opened, b: Opened) { a.id == b.id && a.generation == b.generation }

  function Overtake(open: seq<Opened>, c: Opened): (r: seq<Opened>)
    ensures |r| == |open|
    ensures forall i :: 0 <= i < |open| ==>
              r[i] == if SameWrite(open[i], c) then open[i].(overtaken := true) else open[i]
  {
    seq(|open|, i requires 0 <= i < |open| =>
      if SameWrite(open[i], c) then open[i].(overtaken := true) else open[i])
  }

  /** The codec returns: the write is entered and dispatched, without another look at its ID. */
  function Enter(s: State, bytes: nat): State {
    if s.open == [] then s
    else
      var c, t := Top(s), Popped(s);
      if !Admits(s, bytes, c.generation) then t
      else t.(locals := s.locals + [Local(c.id, c.verb, bytes, c.generation, true, Dispatching, Unqueried, None, None)],
              table := s.table[c.id := |s.locals|],
              intentBytes := s.intentBytes + bytes,
              open := Overtake(t.open, c))
  }

  /** The codec throws. */
  function GiveUp(s: State): State {
    if s.open == [] then s else Popped(s)
  }

  /** The call of write `h` ends; under a later generation only a proof counts. */
  function Answer(s: State, h: nat, o: Outcome, record: Option<Record>): State {
    if h >= |s.locals| || s.locals[h].answered.Some? then s
    else
      var t := s.(locals := s.locals[h := s.locals[h].(answered := Some(o))]);
      if !s.current || s.locals[h].generation != s.generation then
        if o.WasNotSent? || o.LocalFailure? then Change(t, h, Update(Some(NotSent), None, None)) else t
      else
        var delivery := if o.Accepted? then Confirmed else if o.IsUnknown? then Unknown else NotSent;
        if o.Accepted? && record.Some? then Change(t, h, Update(Some(delivery), Some(Recorded), record))
        else Change(t, h, Update(Some(delivery), None, None))
  }

  /** A sequenced fact about an operation. */
  function Fact(s: State, id: string, verb: string, record: Record): State
    requires Wellformed(s)
  {
    if id !in s.table || s.locals[s.table[id]].verb != verb then s
    else Change(s, s.table[id], Update(Some(Confirmed), Some(Recorded), Some(record)))
  }

  /** The answer to a reconciliation query for a write that is still tracked. */
  function Queried(s: State, id: string, found: Option<Record>, missing: bool): State
    requires Wellformed(s)
  {
    if id !in s.table then s
    else if found.Some? then Change(s, s.table[id], Update(Some(Confirmed), Some(Recorded), found))
    else Change(s, s.table[id], Update(None, Some(if missing then NotFound else Unavailable), None))
  }

  predicate Forgettable(l: Local) {
    l.delivery.NotSent? || (l.delivery.Confirmed? && l.record.Some? && l.record.value.final)
  }

  function Forget(s: State, id: string): State
    requires Wellformed(s)
  {
    if id !in s.table || !Forgettable(s.locals[s.table[id]]) then s
    else
      var h := s.table[id];
      s.(locals := s.locals[h := s.locals[h].(tracked := false)], table := s.table - {id},
         intentBytes := s.intentBytes - s.locals[h].bytes)
  }

  function Lost(s: State, h: nat): Local
    requires h < |s.locals|
  {
    var l := s.locals[h];
    if l.id in s.table && s.table[l.id] == h && l.delivery.Dispatching?
    then Updated(l, Update(Some(Unknown), None, None)) else l
  }

  /** The connection ends: a write still in flight becomes unknown. */
  function Retire(s: State): State {
    s.(current := false, generation := s.generation + 1,
       locals := seq(|s.locals|, h requires 0 <= h < |s.locals| => Lost(s, h)))
  }

  datatype Label =
    | Connecting
    | Looking(id: string, verb: string)
    | Encoded(bytes: nat)
    | GivingUp
    | Answering(h: nat, outcome: Outcome, record: Option<Record>)
    | Observing(id: string, verb: string, fact: Record)
    | Querying(id: string, found: Option<Record>, missing: bool)
    | Forgetting(id: string)
    | Retiring

  function Step(s: State, l: Label): State
    requires Wellformed(s)
  {
    match l
    case Connecting => s.(current := true)
    case Looking(id, verb) => Look(s, id, verb)
    case Encoded(bytes) => Enter(s, bytes)
    case GivingUp => GiveUp(s)
    case Answering(h, o, record) => Answer(s, h, o, record)
    case Observing(id, verb, fact) => Fact(s, id, verb, fact)
    case Querying(id, found, missing) => Queried(s, id, found, missing)
    case Forgetting(id) => Forget(s, id)
    case Retiring => Retire(s)
  }

  // ---- The invariant ----

  function Intent(l: Local): nat { if l.tracked then l.bytes else 0 }

  /** The table's entries are tracked writes, and the bytes of all tracked writes add up within the limits. */
  ghost predicate Accounted(s: State) {
    && Wellformed(s)
    && s.intentBytes == Sum(s.locals, Intent)
    && |s.table| <= MAX_TRACKED && s.intentBytes <= MAX_INTENT_BYTES
  }

  /** Every tracked write is the table's entry under its ID. */
  ghost predicate Once(s: State) {
    forall h :: 0 <= h < |s.locals| && s.locals[h].tracked ==>
      s.locals[h].id in s.table && s.table[s.locals[h].id] == h
  }

  /** A call of this attempt waits for the codec under a tracked ID only if another one came in between. */
  ghost predicate Looked(s: State) {
    forall i :: 0 <= i < |s.open| ==>
      && s.open[i].generation <= s.generation
      && (s.open[i].generation == s.generation && s.open[i].id in s.table ==> s.open[i].overtaken)
  }

  /** Not-sent is only said of a write whose own call proved it. */
  ghost predicate Proven(s: State) {
    forall h :: 0 <= h < |s.locals| && s.locals[h].delivery.NotSent? ==> Unsent(s.locals[h])
  }

  predicate Unsent(l: Local) { l.answered.Some? && Proof(l.answered.value) }

  predicate Over(l: Local) { l.delivery.Confirmed? && l.record.Some? && l.record.value.final }

  ghost predicate Inv(s: State) {
    Accounted(s) && Proven(s) && Looked(s)
  }

  /** The same writes in the table, under other states. */
  predicate SameIntents(s: State, t: State) {
    && t.table == s.table && t.intentBytes == s.intentBytes && |t.locals| == |s.locals|
    && forall h :: 0 <= h < |s.locals| ==>
         && t.locals[h].id == s.locals[h].id && t.locals[h].bytes == s.locals[h].bytes
         && t.locals[h].tracked == s.locals[h].tracked
  }

  lemma {:induction false} SumSame(a: seq<Local>, b: seq<Local>)
    requires |a| == |b| && forall i :: 0 <= i < |a| ==> Intent(a[i]) == Intent(b[i])
    ensures Sum(a, Intent) == Sum(b, Intent)
  {
    if a != [] {
      SumSame(a[..|a| - 1], b[..|b| - 1]);
    }
  }

  lemma SameIntentsAccounted(s: State, t: State)
    requires Accounted(s) && SameIntents(s, t)
    ensures Accounted(t)
  {
    SumSame(s.locals, t.locals);
  }

  lemma UpdatesKeepIntents(s: State, l: Label)
    requires Wellformed(s) && !l.Encoded? && !l.Forgetting?
    ensures SameIntents(s, Step(s, l))
  {
  }

  lemma EnterAccounted(s: State, bytes: nat)
    requires Accounted(s)
    ensures Accounted(Enter(s, bytes))
  {
    if s.open != [] && Admits(s, bytes, Top(s).generation) {
      var c := Top(s);
      PutSize(s.table, c.id, |s.locals|);
      SumAppend(s.locals, Local(c.id, c.verb, bytes, c.generation, true, Dispatching, Unqueried, None, None), Intent);
    }
  }

  lemma ForgetAccounted(s: State, id: string)
    requires Accounted(s)
    ensures Accounted(Forget(s, id))
  {
    if id in s.table && Forgettable(s.locals[s.table[id]]) {
      var h := s.table[id];
      SumUpdate(s.locals, h, s.locals[h].(tracked := false), Intent);
      RemoveSize(s.table, id);
    }
  }

  lemma ProvenStep(s: State, l: Label)
    requires Wellformed(s) && Proven(s)
    ensures Proven(Step(s, l))
  {
  }

  lemma LookedStep(s: State, l: Label)
    requires Wellformed(s) && Looked(s)
    ensures Looked(Step(s, l))
  {
  }

  lemma StepKeepsInv(s: State, l: Label)
    requires Inv(s)
    ensures Inv(Step(s, l))
  {
    ProvenStep(s, l);
    LookedStep(s, l);
    if l.Encoded? {
      EnterAccounted(s, l.bytes);
    } else if l.Forgetting? {
      ForgetAccounted(s, l.id);
    } else {
      UpdatesKeepIntents(s, l);
      hide Step, Proven, Accounted;
      SameIntentsAccounted(s, Step(s, l));
    }
  }

  // ---- One dispatch ----

  predicate Enters(s: State, l: Label) {
    l.Encoded? && s.open != [] && Admits(s, l.bytes, Top(s).generation)
  }

  /** A write is entered under an ID that the table has come to hold since its call looked. */
  predicate Replaces(s: State, l: Label) {
    Enters(s, l) && Top(s).id in s.table
  }

  /** A write is entered while an earlier call of its ID and attempt is still with the codec. */
  predicate Nested(s: State, l: Label) {
    Enters(s, l) && exists i :: 0 <= i < |s.open| - 1 && SameWrite(s.open[i], Top(s))
  }

  /** Two tracked writes have one ID. */
  ghost predicate Twice(s: State) {
    exists i, j :: 0 <= i < j < |s.locals| && s.locals[i].tracked && s.locals[j].tracked
                   && s.locals[i].id == s.locals[j].id
  }

  lemma OnceIsNotTwice(s: State)
    requires Once(s)
    ensures !Twice(s)
  {
  }

  lemma StepKeepsOnce(s: State, l: Label)
    requires Wellformed(s) && Once(s) && !Replaces(s, l)
    ensures Once(Step(s, l))
  {
    if !l.Encoded? && !l.Forgetting? {
      UpdatesKeepIntents(s, l);
      hide Step;
    }
  }

  /**
   An ID is dispatched a second time while tracked exactly at an entry over it, and that call was
   overtaken by another one of its ID while it was with the codec.
   */
  lemma ReplacedExactly(s: State, l: Label)
    requires Inv(s) && Once(s)
    ensures Twice(Step(s, l)) <==> Replaces(s, l)
    ensures Once(Step(s, l)) <==> !Replaces(s, l)
    ensures Replaces(s, l) ==> Top(s).overtaken
  {
    if Replaces(s, l) {
      var t, i := Step(s, l), s.table[Top(s).id];
      assert t.locals[i].tracked && t.locals[|s.locals|].tracked && t.locals[i].id == t.locals[|s.locals|].id;
      assert Twice(t);
      if Once(t) { OnceIsNotTwice(t); }
    } else {
      StepKeepsOnce(s, l);
      OnceIsNotTwice(Step(s, l));
    }
  }

  /** A call that waits for the codec becomes overtaken exactly when another one of its ID and attempt is entered. */
  lemma OvertakenExactly(s: State, l: Label, i: nat)
    requires Wellformed(s) && i < |s.open| && i < |Step(s, l).open| && !s.open[i].overtaken
    ensures Step(s, l).open[i].overtaken <==> Enters(s, l) && SameWrite(s.open[i], Top(s))
  {
  }

  /** No call that waits for the codec has been overtaken. */
  predicate InTurn(s: State) {
    forall i :: 0 <= i < |s.open| ==> !s.open[i].overtaken
  }

  lemma StepKeepsTurn(s: State, l: Label)
    requires Wellformed(s) && InTurn(s) && !Nested(s, l)
    ensures InTurn(Step(s, l))
  {
  }

  // ---- Runs ----

  ghost predicate Run(ws: seq<State>, ls: seq<Label>) {
    && |ws| == |ls| + 1
    && ws[0] == Start
    && forall i :: 0 <= i < |ls| ==> Follows(ws[i], ls[i], ws[i + 1])
  }

  predicate Follows(s: State, l: Label, t: State) {
    Wellformed(s) && t == Step(s, l)
  }

  lemma StartIsInv()
    ensures Inv(Start) && Once(Start)
  {
  }

  /** No call before point `n` is entered while an earlier one of its ID is still with the codec. */
  ghost predicate Unnested(ws: seq<State>, ls: seq<Label>, n: nat)
    requires |ws| == |ls| + 1 && n < |ws|
  {
    forall k :: 0 <= k < n ==> !Nested(ws[k], ls[k])
  }

  /**
   In every run the table's entries, the bytes and the limits are exact, and a call with the codec finds
   its ID tracked only if it was overtaken.
   */
  lemma {:induction false} RunKeepsInv(ws: seq<State>, ls: seq<Label>, n: nat)
    requires Run(ws, ls) && n < |ws|
    ensures Inv(ws[n])
  {
    hide Step, Inv, Wellformed;
    if n == 0 {
      StartIsInv();
    } else {
      RunKeepsInv(ws, ls, n - 1);
      assert Follows(ws[n - 1], ls[n - 1], ws[n]);
      StepKeepsInv(ws[n - 1], ls[n - 1]);
    }
  }

  /**
   In every run in which no call is entered while an earlier one of its ID is with the codec, an ID is
   dispatched at most once while tracked, and the IDs that calls have found unused stay so.
   */
  lemma DispatchedOnce(ws: seq<State>, ls: seq<Label>, n: nat)
    requires Run(ws, ls) && n < |ws| && Unnested(ws, ls, n)
    ensures Once(ws[n]) && !Twice(ws[n])
    ensures forall i :: 0 <= i < |ws[n].open| && ws[n].open[i].generation == ws[n].generation ==>
              ws[n].open[i].id !in ws[n].table
  {
    OnceIfUnnested(ws, ls, n);
    RunKeepsInv(ws, ls, n);
    hide Run, Accounted, Proven;
    OnceIsNotTwice(ws[n]);
  }

  lemma {:induction false} OnceIfUnnested(ws: seq<State>, ls: seq<Label>, n: nat)
    requires Run(ws, ls) && n < |ws| && Unnested(ws, ls, n)
    ensures Once(ws[n]) && InTurn(ws[n])
  {
    hide Step, Nested, Replaces, Inv, Once;
    if n == 0 {
      StartIsInv();
    } else {
      var s, l := ws[n - 1], ls[n - 1];
      OnceIfUnnested(ws, ls, n - 1);
      RunKeepsInv(ws, ls, n - 1);
      assert Follows(s, l, ws[n]);
      UnovertakenKeeps(s, l);
    }
  }

  lemma UnovertakenKeeps(s: State, l: Label)
    requires Inv(s) && Once(s) && InTurn(s) && !Nested(s, l)
    ensures Wellformed(s) && Once(Step(s, l)) && InTurn(Step(s, l))
  {
    ReplacedExactly(s, l);
    StepKeepsTurn(s, l);
    assert Replaces(s, l) ==> false;
  }

  /** The codecs in progress above the first `m` calls throw. */
  lemma {:induction false} Unwound(ws: seq<State>, ls: seq<Label>, m: nat) returns (vs: seq<State>, ks: seq<Label>)
    requires Run(ws, ls) && m <= |ws[|ls|].open|
    ensures Run(vs, ks) && ws <= vs && ls <= ks && vs[|ks|] == ws[|ls|].(open := ws[|ls|].open[..m])
    decreases |ws[|ls|].open|
  {
    var s := ws[|ls|];
    if m == |s.open| {
      assert s.open[..m] == s.open;
      vs, ks := ws, ls;
    } else {
      OneMore(ws, ls, GivingUp);
      hide Run;
      assert Popped(s).open[..m] == s.open[..m];
      vs, ks := Unwound(ws + [Popped(s)], ls + [GivingUp], m);
    }
  }

  lemma OneMore(ws: seq<State>, ls: seq<Label>, l: Label)
    requires Run(ws, ls)
    ensures Wellformed(ws[|ls|]) && Run(ws + [Step(ws[|ls|], l)], ls + [l])
  {
    RunKeepsInv(ws, ls, |ls|);
    var t := Step(ws[|ls|], l);
    hide Step;
    var vs, ks := ws + [t], ls + [l];
    assert forall i :: 0 <= i < |ls| ==> Follows(ws[i], ls[i], ws[i + 1]);
    assert Follows(ws[|ls|], l, t);
    assert forall i :: 0 <= i < |ks| ==> Follows(vs[i], ks[i], vs[i + 1]);
  }

  /** Room for a write of `bytes`. */
  predicate Room(s: State, bytes: nat) {
    |s.table| < MAX_TRACKED && s.intentBytes + bytes <= MAX_INTENT_BYTES
  }

  /**
   The condition is needed: every run whose last step enters a write in that way, with room for one
   more, has a continuation in which the ID is dispatched twice while tracked.
   */
  lemma NestedIsTwice(ws: seq<State>, ls: seq<Label>, bytes: nat, more: nat)
    returns (vs: seq<State>, ks: seq<Label>)
    requires Run(ws, ls) && Nested(ws[|ls|], Encoded(bytes)) && Room(Enter(ws[|ls|], bytes), more)
    ensures Run(vs, ks) && ws <= vs && ls <= ks && Twice(vs[|ks|])
  {
    var s := ws[|ls|];
    var i :| 0 <= i < |s.open| - 1 && SameWrite(s.open[i], Top(s));
    var t := Enter(s, bytes);
    OneMore(ws, ls, Encoded(bytes));
    EnteredTwice(s, bytes, more, i);
    hide Run, Enter, Nested, Room, Twice;
    vs, ks := Unwound(ws + [t], ls + [Encoded(bytes)], i + 1);
    var v := Enter(vs[|ks|], more);
    OneMore(vs, ks, Encoded(more));
    vs, ks := vs + [v], ks + [Encoded(more)];
  }

  lemma EnteredTwice(s: State, bytes: nat, more: nat, i: nat)
    requires Enters(s, Encoded(bytes)) && i < |s.open| - 1 && SameWrite(s.open[i], Top(s))
    requires Room(Enter(s, bytes), more)
    ensures i + 1 <= |Enter(s, bytes).open|
    ensures var t := Enter(s, bytes); Twice(Enter(t.(open := t.open[..i + 1]), more))
  {
    var t := Enter(s, bytes);
    var u := t.(open := t.open[..i + 1]);
    assert Top(u) == t.open[i] && SameWrite(Top(u), Top(s));
    var v := Enter(u, more);
    assert v.locals[|s.locals|] == t.locals[|s.locals|];
    assert v.locals[|s.locals|].tracked && v.locals[|t.locals|].tracked;
  }

  const CALLED_BACK: seq<Label> := [Connecting, Looking("a", "v"), Looking("a", "v"), Encoded(1), Encoded(1)]

  const CALLING_BACK: seq<State> :=
    var c := Opened("a", "v", 0, false);
    var local := Local("a", "v", 1, 0, true, Dispatching, Unqueried, None, None);
    var a := Start.(current := true);
    var b := a.(locals := [local], table := map["a" := 0], intentBytes := 1, open := [c.(overtaken := true)]);
    [Start, a, a.(open := [c]), a.(open := [c, c]), b,
     b.(locals := [local, local], table := map["a" := 1], intentBytes := 2, open := [])]

  lemma BothLook()
    ensures forall i :: 0 <= i < 3 ==> Follows(CALLING_BACK[i], CALLED_BACK[i], CALLING_BACK[i + 1])
  {
    var ws := CALLING_BACK;
    assert ws[1].open + [Opened("a", "v", 0, false)] == ws[2].open;
    assert ws[2].open + [Opened("a", "v", 0, false)] == ws[3].open;
    assert Follows(ws[0], CALLED_BACK[0], ws[1]);
    assert Follows(ws[1], CALLED_BACK[1], ws[2]);
    assert Follows(ws[2], CALLED_BACK[2], ws[3]);
  }

  lemma InnerEnters()
    ensures Follows(CALLING_BACK[3], CALLED_BACK[3], CALLING_BACK[4])
    ensures Nested(CALLING_BACK[3], CALLED_BACK[3])
  {
    var d, e := CALLING_BACK[3], CALLING_BACK[4];
    assert Popped(d).open == [d.open[0]] && SameWrite(d.open[0], Top(d));
    assert Overtake([d.open[0]], Top(d)) == e.open;
    assert Enter(d, 1).locals == e.locals;
    assert Enter(d, 1) == e;
  }

  lemma OuterEnters()
    ensures Follows(CALLING_BACK[4], CALLED_BACK[4], CALLING_BACK[5])
    ensures Replaces(CALLING_BACK[4], CALLED_BACK[4]) && Twice(CALLING_BACK[5])
  {
    var e, f := CALLING_BACK[4], CALLING_BACK[5];
    assert |e.table| == 1;
    assert Popped(e).open == [] && Overtake([], Top(e)) == [];
    assert Enter(e, 1).locals == f.locals;
    assert Enter(e, 1) == f;
    assert f.locals[0].tracked && f.locals[1].tracked;
  }

  /** A codec that calls back once with the ID it is working on. */
  lemma NestingIsReached()
    ensures Run(CALLING_BACK, CALLED_BACK) && Unnested(CALLING_BACK, CALLED_BACK, 3)
    ensures Nested(CALLING_BACK[3], CALLED_BACK[3])
    ensures Replaces(CALLING_BACK[4], CALLED_BACK[4]) && Twice(CALLING_BACK[5])
  {
    BothLook();
    InnerEnters();
    OuterEnters();
    hide Follows, Replaces, Twice;
  }

  /** Not-sent is only ever said of a write whose own call proved it. */
  lemma RunProves(ws: seq<State>, ls: seq<Label>, n: nat)
    requires Run(ws, ls) && n < |ws|
    ensures Proven(ws[n])
  {
    RunKeepsInv(ws, ls, n);
  }

  /** A write leaves the ledger only once it is proven not sent or not accepted, or is known to be over. */
  lemma ForgottenOnlyWhenSafe(ws: seq<State>, ls: seq<Label>, n: nat, h: nat)
    requires Run(ws, ls) && n < |ls| && h < |ws[n].locals| && ws[n].locals[h].tracked
    requires h < |ws[n + 1].locals| && !ws[n + 1].locals[h].tracked
    ensures Unsent(ws[n].locals[h]) || Over(ws[n].locals[h])
  {
    RunProves(ws, ls, n);
    assert Follows(ws[n], ls[n], ws[n + 1]);
    if !ls[n].Encoded? && !ls[n].Forgetting? {
      UpdatesKeepIntents(ws[n], ls[n]);
    }
    hide Proven;
  }

  /** What is known of a write's record never gets older. */
  predicate NoOlder(a: Local, b: Local) {
    a.record.Some? ==> b.record.Some? && a.record.value.revision <= b.record.value.revision
  }

  lemma StepNoOlder(s: State, l: Label, h: nat)
    requires Wellformed(s) && h < |s.locals|
    ensures h < |Step(s, l).locals| && NoOlder(s.locals[h], Step(s, l).locals[h])
  {
  }

  lemma {:induction false} RecordsNeverDrop(ws: seq<State>, ls: seq<Label>, h: nat, m: nat, n: nat)
    requires Run(ws, ls) && m <= n < |ws| && h < |ws[m].locals|
    ensures h < |ws[n].locals| && NoOlder(ws[m].locals[h], ws[n].locals[h])
    decreases n
  {
    hide Step, Wellformed;
    if m < n {
      RecordsNeverDrop(ws, ls, h, m, n - 1);
      assert Follows(ws[n - 1], ls[n - 1], ws[n]);
      StepNoOlder(ws[n - 1], ls[n - 1], h);
    }
  }

  // ---- The session's own object ----

  /** A change frame's facts about operations, in order. */
  datatype Sequenced = Sequenced(id: string, verb: string, fact: Record)

  function Facts(s: State, fs: seq<Sequenced>): (r: State)
    requires Wellformed(s)
    ensures Wellformed(r)
  {
    if fs == [] then s
    else
      var t := Facts(s, fs[..|fs| - 1]);
      var f := fs[|fs| - 1];
      Fact(t, f.id, f.verb, f.fact)
  }

  class OperationLedger {
    var current: bool
    var generation: nat
    var locals: seq<Local>
    var table: map<string, nat>
    var intentBytes: int
    ghost var open: seq<Opened>

    ghost function Value(): State
      reads this
    {
      State(current, generation, locals, table, intentBytes, open)
    }

    constructor ()
      ensures Value() == Start
    {
      current, generation, locals, table, intentBytes, open := false, 0, [], map[], 0, [];
    }

    /** The attempt a call of an unused ID begins under, before the codec is asked. */
    method LookUp(id: string, verb: string) returns (attempt: Option<nat>)
      modifies this`open
      ensures Value() == Look(old(Value()), id, verb)
      ensures attempt == if current && id !in table then Some(generation) else None
    {
      if !current || id in table {
        return None;
      }
      attempt := Some(generation);
      open := open + [Opened(id, verb, generation, false)];
    }

    /** Tracks the write, once its intent is encoded, before it is dispatched; a refused one is not dispatched. */
    method Track(id: string, verb: string, bytes: nat, attempt: nat) returns (h: Option<nat>)
      requires open != []
      requires var c := open[|open| - 1]; c.id == id && c.verb == verb && c.generation == attempt
      modifies this
      ensures Value() == Enter(old(Value()), bytes)
      ensures h == if Admits(old(Value()), bytes, attempt) then Some(|old(locals)|) else None
    {
      ghost var c := open[|open| - 1];
      open := open[..|open| - 1];
      if |table| >= MAX_TRACKED || intentBytes + bytes > MAX_INTENT_BYTES {
        return None;
      }
      if !current || attempt != generation {
        return None;
      }
      h := Some(|locals|);
      table := table[id := |locals|];
      locals := locals + [Local(id, verb, bytes, attempt, true, Dispatching, Unqueried, None, None)];
      intentBytes := intentBytes + bytes;
      open := Overtake(open, c);
    }

    method UpdateOperation(h: nat, u: Update)
      requires h < |locals|
      modifies this`locals
      ensures Value() == Change(old(Value()), h, u)
    {
      var l := locals[h];
      var update := u;
      if l.delivery.Confirmed? && l.record.Some? && u.delivery.Some? && !u.delivery.value.Confirmed? {
        update := update.(delivery := Some(Confirmed));
      }
      if u.record.Some? && l.record.Some? && u.record.value.revision < l.record.value.revision {
        update := update.(record := l.record);
      }
      locals := locals[h := l.(
        delivery := if update.delivery.Some? then update.delivery.value else l.delivery,
        observation := if update.observation.Some? then update.observation.value else l.observation,
        record := if update.record.Some? then update.record else l.record)];
    }

    method ReceiveFacts(fs: seq<Sequenced>)
      requires Wellformed(Value())
      modifies this`locals
      ensures Wellformed(Value()) && Value() == Facts(old(Value()), fs)
    {
      for i := 0 to |fs|
        invariant Wellformed(Value()) && Value() == Facts(old(Value()), fs[..i])
      {
        assert fs[..i + 1][..i] == fs[..i];
        if fs[i].id in table && locals[table[fs[i].id]].verb == fs[i].verb {
          UpdateOperation(table[fs[i].id], Update(Some(Confirmed), Some(Recorded), Some(fs[i].fact)));
        }
      }
      assert fs[..|fs|] == fs;
    }

    method ForgetOperation(id: string) returns (forgotten: bool)
      requires Wellformed(Value())
      modifies this
      ensures Value() == Forget(old(Value()), id)
      ensures forgotten <==> id in old(table) && Forgettable(old(locals)[old(table)[id]])
    {
      if id !in table || !Forgettable(locals[table[id]]) {
        return false;
      }
      var h := table[id];
      table := table - {id};
      intentBytes := intentBytes - locals[h].bytes;
      locals := locals[h := locals[h].(tracked := false)];
      forgotten := true;
    }

    method RetireAttempt()
      modifies this
      ensures Value() == Retire(old(Value()))
    {
      current, generation := false, generation + 1;
      for h := 0 to |locals|
        invariant |locals| == |old(locals)|
        invariant table == old(table) && intentBytes == old(intentBytes)
        invariant !current && generation == old(generation) + 1 && open == old(open)
        invariant forall k :: 0 <= k < h ==> locals[k] == Lost(old(Value()), k)
        invariant forall k :: h <= k < |locals| ==> locals[k] == old(locals)[k]
      {
        if locals[h].id in table && table[locals[h].id] == h && locals[h].delivery.Dispatching? {
          UpdateOperation(h, Update(Some(Unknown), None, None));
        }
      }
      assert locals == Retire(old(Value())).locals;
    }
  }
}
