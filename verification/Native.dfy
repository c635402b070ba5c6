/**
 The native client: HTTP and socket operations run by concurrent Go routines over one lock. A step is
 one critical section, so a run is any interleaving of any number of routines.
 */
module Native {
  import opened Common

  datatype Disposition = NotSent | Unknown | HandedOff

  /** An operation outlives its release: its own routines keep a pointer to it. */
  datatype Operation = Operation(id: int, entry: nat, disposition: Disposition, done: bool, cancelled: bool)

  datatype Entry = Entry(generation: int, closed: bool)

  /** An event for the host, by its number, with the size of its encoding. */
  datatype Event = Event(serial: nat, op: nat, terminal: bool, disposition: Disposition, size: nat)

  /**
   `ops` holds every operation admitted, named by its index, and `live` the ones still in the
   client's table. `writes` records the operations for which a Write was permitted, `produced` every
   event made so far, `emitting` those whose routine has not queued them yet, and `pulled` those the
   host has taken.
   */
  datatype State = State(
    closed: bool,
    mutating: bool,
    generation: int,
    entries: seq<Entry>,
    ops: seq<Operation>,
    live: map<int, nat>,
    lastId: int,
    events: seq<Event>,
    eventBytes: int,
    writes: seq<nat>,
    produced: seq<Event>,
    emitting: seq<Event>,
    pulled: seq<Event>)

  const Start: State := State(false, false, 1, [], [], map[], 0, [], 0, [], [], [], [])

  const MAX_OPERATIONS: nat := 32
  const MAX_EVENTS: nat := 64
  const MAX_EVENT_BYTES: nat := 4194304

  function Size(e: Event): nat { e.size }

  predicate Wellformed(s: State) {
    && (forall h :: 0 <= h < |s.ops| ==> s.ops[h].entry < |s.entries|)
    && (forall id :: id in s.live ==> s.live[id] < |s.ops| && s.ops[s.live[id]].id == id)
  }

  // ---- Critical sections ----

  function OpenEntry(s: State): State {
    if s.closed || s.mutating then s else s.(entries := s.entries + [Entry(s.generation, false)])
  }

  predicate Admits(s: State, e: nat, id: int) {
    && e < |s.entries| && s.lastId < id <= MAX_SAFE_INTEGER && !s.closed && !s.mutating
    && !s.entries[e].closed && s.entries[e].generation == s.generation && |s.live| < MAX_OPERATIONS
  }

  function Admit(s: State, e: nat, id: int): State {
    if !Admits(s, e, id) then s
    else s.(ops := s.ops + [Operation(id, e, NotSent, false, false)], live := s.live[id := |s.ops|], lastId := id)
  }

  /** A response arrived: the request was handed off. */
  function Mark(s: State, h: nat): State {
    if h >= |s.ops| || s.ops[h].done then s
    else s.(ops := s.ops[h := s.ops[h].(disposition := HandedOff)])
  }

  /** `ended` says that the operation's context has ended: it was cancelled or ran out of time. */
  predicate MayWrite(s: State, h: nat, ended: bool)
    requires Wellformed(s)
  {
    && h < |s.ops| && !s.closed && !s.ops[h].done && !s.ops[h].cancelled && !ended
    && !s.entries[s.ops[h].entry].closed && s.entries[s.ops[h].entry].generation == s.generation
  }

  /** Asked before every Write on the operation's connection. */
  function WillWrite(s: State, h: nat, ended: bool): State
    requires Wellformed(s)
  {
    if !MayWrite(s, h, ended) then s
    else
      var now := if s.ops[h].disposition == NotSent then Unknown else s.ops[h].disposition;
      s.(ops := s.ops[h := s.ops[h].(disposition := now)], writes := s.writes + [h])
  }

  /** What a cancellation reports. */
  function CancelReport(s: State, id: int): Disposition
    requires Wellformed(s)
  {
    if id in s.live then s.ops[s.live[id]].disposition else NotSent
  }

  function Cancel(s: State, id: int): State
    requires Wellformed(s)
  {
    if id !in s.live then s
    else s.(ops := s.ops[s.live[id] := s.ops[s.live[id]].(cancelled := true)])
  }

  function Release(s: State, id: int): State
    requires Wellformed(s)
  {
    if id in s.live && s.ops[s.live[id]].done then s.(live := s.live - {id}) else s
  }

  function Produce(s: State, e: Event): State {
    s.(produced := s.produced + [e], emitting := s.emitting + [e])
  }

  /** Data of a socket, before its operation ends. */
  function Data(s: State, h: nat, size: nat): State {
    if h >= |s.ops| then s else Produce(s, Event(|s.produced|, h, false, s.ops[h].disposition, size))
  }

  /** The first to finish an operation decides its terminal event. */
  function Finish(s: State, h: nat, size: nat): State {
    if h >= |s.ops| || s.ops[h].done then s
    else Produce(s.(ops := s.ops[h := s.ops[h].(done := true)]),
                 Event(|s.produced|, h, true, s.ops[h].disposition, size))
  }

  function Without(es: seq<Event>, i: nat): seq<Event>
    requires i < |es|
  {
    es[..i] + es[i + 1..]
  }

  /** One attempt to queue a decided event; without room it waits and tries again. */
  function Emit(s: State, i: nat): State {
    if i >= |s.emitting| then s
    else
      var e := s.emitting[i];
      if e.size > MAX_EVENT_BYTES || s.closed then s.(emitting := Without(s.emitting, i))
      else if |s.events| < MAX_EVENTS && s.eventBytes + e.size <= MAX_EVENT_BYTES
      then s.(emitting := Without(s.emitting, i), events := s.events + [e], eventBytes := s.eventBytes + e.size)
      else s
  }

  function NextEvent(s: State): State {
    if s.closed || s.events == [] then s
    else s.(events := s.events[1..], eventBytes := s.eventBytes - s.events[0].size, pulled := s.pulled + [s.events[0]])
  }

  /** Cancels the unfinished operations in the table that `p` selects. */
  function CancelWhere(s: State, p: Operation -> bool): (r: State)
    requires Wellformed(s)
    ensures r == s.(ops := r.ops) && |r.ops| == |s.ops|
    ensures forall h :: 0 <= h < |s.ops| ==>
              r.ops[h] == if s.ops[h].id in s.live && s.live[s.ops[h].id] == h && !s.ops[h].done && p(s.ops[h])
                          then s.ops[h].(cancelled := true) else s.ops[h]
  {
    s.(ops := seq(|s.ops|, h requires 0 <= h < |s.ops| =>
      if s.ops[h].id in s.live && s.live[s.ops[h].id] == h && !s.ops[h].done && p(s.ops[h])
      then s.ops[h].(cancelled := true) else s.ops[h]))
  }

  function CancelOperations(s: State): State
    requires Wellformed(s)
  {
    CancelWhere(s, (op: Operation) => true)
  }

  function CloseEntry(s: State, e: nat): State
    requires Wellformed(s)
  {
    if e >= |s.entries| then s
    else CancelWhere(s, (op: Operation) => op.entry == e).(entries := s.entries[e := s.entries[e].(closed := true)])
  }

  function BeginMutation(s: State): State {
    s.(mutating := true, generation := s.generation + 1)
  }

  function EndMutation(s: State): State {
    s.(mutating := false)
  }

  function Stop(s: State): State {
    if s.closed then s else s.(closed := true, events := [], eventBytes := 0)
  }

  datatype Label =
    | Opening
    | Admitting(entry: nat, id: int)
    | Marking(h: nat)
    | Writing(h: nat, ended: bool)
    | Cancelling(id: int)
    | Releasing(id: int)
    | Producing(h: nat, size: nat)
    | Finishing(h: nat, size: nat)
    | Emitting(i: nat)
    | Pulling
    | CancellingAll
    | ClosingEntry(entry: nat)
    | BeginningMutation
    | EndingMutation
    | Stopping

  function Step(s: State, l: Label): State
    requires Wellformed(s)
  {
    match l
    case Opening => OpenEntry(s)
    case Admitting(e, id) => Admit(s, e, id)
    case Marking(h) => Mark(s, h)
    case Writing(h, ended) => WillWrite(s, h, ended)
    case Cancelling(id) => Cancel(s, id)
    case Releasing(id) => Release(s, id)
    case Producing(h, size) => Data(s, h, size)
    case Finishing(h, size) => Finish(s, h, size)
    case Emitting(i) => Emit(s, i)
    case Pulling => NextEvent(s)
    case CancellingAll => CancelOperations(s)
    case ClosingEntry(e) => CloseEntry(s, e)
    case BeginningMutation => BeginMutation(s)
    case EndingMutation => EndMutation(s)
    case Stopping => Stop(s)
  }

  // ---- The invariant ----

  /** A permitted Write shows in the disposition, and a terminal event is decided once. */
  ghost predicate Recorded(s: State) {
    && (forall w :: w in s.writes ==> w < |s.ops| && s.ops[w].disposition != NotSent)
    && (forall i :: 0 <= i < |s.produced| ==> Truthful(s, i))
    && OneTerminal(s.produced)
  }

  predicate OneTerminal(es: seq<Event>) {
    forall i, j :: 0 <= i < j < |es| && es[i].terminal && es[j].terminal ==> es[i].op != es[j].op
  }

  predicate Truthful(s: State, i: nat)
    requires i < |s.produced|
  {
    var e := s.produced[i];
    && e.serial == i && e.op < |s.ops|
    && (e.terminal ==> s.ops[e.op].done && e.disposition == s.ops[e.op].disposition)
  }

  predicate Known(s: State, e: Event) {
    e.serial < |s.produced| && s.produced[e.serial] == e
  }

  /** What the host has been given and what it will be given next, in order. */
  function Handed(s: State): seq<Event> { s.pulled + s.events }

  /** Each event is waiting, queued or taken by the host, or gone: never twice and never in two places. */
  ghost predicate Queued(s: State) {
    && (forall i :: 0 <= i < |Handed(s)| ==> Known(s, Handed(s)[i]))
    && (forall i :: 0 <= i < |s.emitting| ==> Known(s, s.emitting[i]))
    && (forall i, j :: 0 <= i < j < |Handed(s)| ==> Handed(s)[i].serial != Handed(s)[j].serial)
    && (forall i, j :: 0 <= i < j < |s.emitting| ==> s.emitting[i].serial != s.emitting[j].serial)
    && (forall i, j :: 0 <= i < |Handed(s)| && 0 <= j < |s.emitting| ==> Handed(s)[i].serial != s.emitting[j].serial)
  }

  ghost predicate Sized(s: State) {
    s.eventBytes == Sum(s.events, Size) && |s.events| <= MAX_EVENTS && s.eventBytes <= MAX_EVENT_BYTES
  }

  ghost predicate Tabled(s: State) {
    && Wellformed(s)
    && (forall h :: 0 <= h < |s.ops| ==> s.ops[h].id <= s.lastId)
    && (forall i, j :: 0 <= i < j < |s.ops| ==> s.ops[i].id < s.ops[j].id)
    && |s.live| <= MAX_OPERATIONS
  }

  ghost predicate Inv(s: State) {
    Tabled(s) && Recorded(s) && Queued(s) && Sized(s)
  }

  // ---- The table ----

  /** What the sections that neither admit nor release do to the operations. */
  predicate SameTable(s: State, t: State) {
    && t.live == s.live && t.lastId == s.lastId && |t.ops| == |s.ops| && |s.entries| <= |t.entries|
    && forall h :: 0 <= h < |s.ops| ==>
         && t.ops[h].id == s.ops[h].id && t.ops[h].entry == s.ops[h].entry
         && (s.ops[h].done ==> t.ops[h].done) && (s.ops[h].cancelled ==> t.ops[h].cancelled)
         && Advances(s.ops[h], t.ops[h])
  }

  /** Dispositions go from not-sent to unknown to handed-off, and stay once the operation is done. */
  predicate Advances(a: Operation, b: Operation) {
    && (a.disposition == b.disposition || (!a.done && b.disposition != NotSent && a.disposition != HandedOff))
  }

  lemma CancelKeepsTable(s: State, p: Operation -> bool)
    requires Wellformed(s)
    ensures SameTable(s, CancelWhere(s, p))
  {
    hide CancelWhere, Wellformed;
  }

  lemma SectionsKeepTable(s: State, l: Label)
    requires Wellformed(s) && !l.Admitting? && !l.Releasing?
    ensures SameTable(s, Step(s, l))
  {
    if l.CancellingAll? {
      CancelKeepsTable(s, (op: Operation) => true);
    } else if l.ClosingEntry? {
      CancelKeepsTable(s, (op: Operation) => op.entry == l.entry);
    }
    hide CancelWhere;
  }

  lemma SameTabled(s: State, t: State)
    requires Tabled(s) && SameTable(s, t)
    ensures Tabled(t)
  {
  }

  lemma TabledStep(s: State, l: Label)
    requires Tabled(s)
    ensures Tabled(Step(s, l))
  {
    if l.Releasing? {
      RemoveSize(s.live, l.id);
    } else if !l.Admitting? {
      SectionsKeepTable(s, l);
      hide Step, Tabled, SameTable;
      SameTabled(s, Step(s, l));
    }
  }

  // ---- Writes and events ----

  lemma SameRecorded(s: State, t: State)
    requires Recorded(s) && |s.ops| <= |t.ops| && t.writes == s.writes && t.produced == s.produced
    requires forall h :: 0 <= h < |s.ops| ==> (s.ops[h].done ==> t.ops[h].done) && Advances(s.ops[h], t.ops[h])
    ensures Recorded(t)
  {
    forall i | 0 <= i < |t.produced| ensures Truthful(t, i) {
      assert Truthful(s, i);
    }
  }

  lemma WriteRecorded(s: State, h: nat, ended: bool)
    requires Wellformed(s) && Recorded(s)
    ensures Recorded(WillWrite(s, h, ended))
  {
    var t := WillWrite(s, h, ended);
    if t != s {
      forall i | 0 <= i < |t.produced| ensures Truthful(t, i) {
        assert Truthful(s, i);
      }
      assert forall w :: w in t.writes ==> w in s.writes || w == h;
    }
  }

  lemma ProduceRecorded(s: State, l: Label)
    requires Wellformed(s) && Recorded(s) && (l.Producing? || l.Finishing?)
    ensures Recorded(Step(s, l))
  {
    var t := Step(s, l);
    if t != s {
      forall i | 0 <= i < |t.produced| ensures Truthful(t, i) {
        assert i < |s.produced| ==> Truthful(s, i);
      }
      forall i | 0 <= i < |s.produced| && s.produced[i].terminal && l.Finishing? ensures s.produced[i].op != l.h {
        assert Truthful(s, i);
      }
    }
  }

  lemma RecordedStep(s: State, l: Label)
    requires Tabled(s) && Recorded(s)
    ensures Recorded(Step(s, l))
  {
    if l.Writing? {
      WriteRecorded(s, l.h, l.ended);
    } else if l.Producing? || l.Finishing? {
      ProduceRecorded(s, l);
    } else if l.Admitting? || l.Releasing? {
      hide Recorded;
      SameRecorded(s, Step(s, l));
    } else {
      SectionsKeepTable(s, l);
      OtherSections(s, l);
      hide Step, Recorded, Tabled;
      SameRecorded(s, Step(s, l));
    }
  }

  lemma OtherSections(s: State, l: Label)
    requires Wellformed(s) && !l.Writing? && !l.Producing? && !l.Finishing?
    ensures Step(s, l).writes == s.writes && Step(s, l).produced == s.produced
  {
  }

  lemma QueueFrame(s: State, t: State)
    requires Queued(s) && s.produced <= t.produced
    requires Handed(t) == Handed(s) && t.emitting == s.emitting
    ensures Queued(t)
  {
    assert forall e :: Known(s, e) ==> Known(t, e);
  }

  lemma ProduceQueued(s: State, e: Event)
    requires Queued(s) && e.serial == |s.produced|
    ensures Queued(Produce(s, e))
  {
    var t := Produce(s, e);
    assert Handed(t) == Handed(s);
    hide Handed;
    assert forall x :: Known(s, x) ==> Known(t, x) && x.serial != e.serial;
    assert Known(t, e);
  }

  lemma WithoutAt(es: seq<Event>, i: nat)
    requires i < |es|
    ensures |Without(es, i)| == |es| - 1
    ensures forall j :: 0 <= j < |es| - 1 ==> Without(es, i)[j] == es[if j < i then j else j + 1]
  {
  }

  /** A routine is done with its event. */
  lemma DropQueued(s: State, i: nat)
    requires Queued(s) && i < |s.emitting|
    ensures Queued(s.(emitting := Without(s.emitting, i)))
    ensures forall j :: 0 <= j < |s.emitting| - 1 ==> Without(s.emitting, i)[j].serial != s.emitting[i].serial
  {
    WithoutAt(s.emitting, i);
    hide Without;
    var t := s.(emitting := Without(s.emitting, i));
    assert Handed(t) == Handed(s);
    hide Handed;
    assert forall e :: Known(s, e) == Known(t, e);
  }

  lemma AppendQueued(s: State, e: Event)
    requires Queued(s) && Known(s, e)
    requires forall j :: 0 <= j < |s.emitting| ==> s.emitting[j].serial != e.serial
    requires forall j :: 0 <= j < |Handed(s)| ==> Handed(s)[j].serial != e.serial
    ensures Queued(s.(events := s.events + [e], eventBytes := s.eventBytes + e.size))
  {
    var t := s.(events := s.events + [e], eventBytes := s.eventBytes + e.size);
    assert forall x :: Known(s, x) == Known(t, x);
    assert Handed(t) == Handed(s) + [e];
  }

  lemma EmitQueued(s: State, i: nat)
    requires Queued(s)
    ensures Queued(Emit(s, i))
  {
    if i < |s.emitting| {
      DropQueued(s, i);
      WithoutAt(s.emitting, i);
      var e, m := s.emitting[i], s.(emitting := Without(s.emitting, i));
      assert Known(s, e) && Known(m, e);
      assert forall j :: 0 <= j < |Handed(s)| ==> Handed(m)[j].serial != e.serial;
      hide Queued, Without, Known;
      AppendQueued(m, e);
    }
  }

  /** What was queued is gone, and what the host has taken stays taken. */
  lemma StopQueued(s: State)
    requires Queued(s)
    ensures Queued(Stop(s))
  {
    var t := Stop(s);
    assert forall e :: Known(s, e) == Known(t, e);
    if t != s {
      assert Handed(t) == s.pulled;
      assert forall i :: 0 <= i < |s.pulled| ==> Handed(s)[i] == s.pulled[i];
    }
  }

  lemma QueuedStep(s: State, l: Label)
    requires Tabled(s) && Queued(s)
    ensures Queued(Step(s, l))
  {
    match l
    case Producing(h, size) =>
      if h < |s.ops| { ProduceQueued(s, Event(|s.produced|, h, false, s.ops[h].disposition, size)); }
    case Finishing(h, size) =>
      if h < |s.ops| && !s.ops[h].done {
        var m := s.(ops := s.ops[h := s.ops[h].(done := true)]);
        QueueFrame(s, m);
        ProduceQueued(m, Event(|s.produced|, h, true, s.ops[h].disposition, size));
      }
    case Emitting(i) => EmitQueued(s, i);
    case Pulling =>
      assert Handed(NextEvent(s)) == Handed(s);
      QueueFrame(s, NextEvent(s));
    case Stopping => StopQueued(s);
    case _ =>
      hide Queued, Tabled;
      QueueFrame(s, Step(s, l));
  }

  lemma {:induction false} SumHead(es: seq<Event>)
    requires es != []
    ensures Sum(es, Size) == es[0].size + Sum(es[1..], Size)
  {
    var n := |es| - 1;
    if n == 0 {
      assert es[..0] == [] && es[1..] == [];
    } else {
      SumHead(es[..n]);
      assert es[..n][1..] == es[1..][..n - 1];
    }
  }

  lemma SizedStep(s: State, l: Label)
    requires Wellformed(s) && Sized(s)
    ensures Sized(Step(s, l))
  {
    if l.Emitting? && l.i < |s.emitting| {
      SumAppend(s.events, s.emitting[l.i], Size);
    }
    if l.Pulling? && s.events != [] {
      SumHead(s.events);
    }
  }

  lemma StepKeepsInv(s: State, l: Label)
    requires Inv(s)
    ensures Inv(Step(s, l))
  {
    TabledStep(s, l);
    RecordedStep(s, l);
    QueuedStep(s, l);
    SizedStep(s, l);
    hide Step, Recorded, Queued, Sized;
  }

  // ---- Runs ----

  ghost predicate Run(ws: seq<State>, ls: seq<Label>) {
    && |ws| == |ls| + 1
    && ws[0] == Start
    && forall i :: 0 <= i < |ls| ==> Follows(ws[i], ls[i], ws[i + 1])
  }

  predicate Follows(s: State, l: Label, t: State) {
    Wellformed(s) && t == Step(s, l)
  }

  lemma StartIsInv()
    ensures Inv(Start)
  {
  }

  /** In every interleaving: the table, the events and the byte count of the queue are exact. */
  lemma {:induction false} RunKeepsInv(ws: seq<State>, ls: seq<Label>, n: nat)
    requires Run(ws, ls) && n < |ws|
    ensures Inv(ws[n])
  {
    hide Step, Inv, Wellformed;
    if n == 0 {
      StartIsInv();
    } else {
      RunKeepsInv(ws, ls, n - 1);
      assert Follows(ws[n - 1], ls[n - 1], ws[n]);
      StepKeepsInv(ws[n - 1], ls[n - 1]);
    }
  }

  /** No further Write is permitted to an operation that was cancelled or has finished. */
  predicate Barred(s: State, h: nat) {
    h < |s.ops| && (s.ops[h].cancelled || s.ops[h].done)
  }

  lemma BarredStep(s: State, l: Label, h: nat)
    requires Wellformed(s) && Barred(s, h)
    ensures Barred(Step(s, l), h) && (h in Step(s, l).writes ==> h in s.writes)
  {
    if !l.Admitting? && !l.Releasing? {
      SectionsKeepTable(s, l);
    }
    if !l.Writing? && !l.Producing? && !l.Finishing? {
      OtherSections(s, l);
      hide Wellformed;
    }
  }

  lemma {:induction false} BarredForGood(ws: seq<State>, ls: seq<Label>, h: nat, m: nat, n: nat)
    requires Run(ws, ls) && m <= n < |ws| && Barred(ws[m], h)
    ensures Barred(ws[n], h) && (h in ws[n].writes ==> h in ws[m].writes)
    decreases n
  {
    hide Step, Wellformed;
    if m < n {
      BarredForGood(ws, ls, h, m, n - 1);
      assert Follows(ws[n - 1], ls[n - 1], ws[n]);
      BarredStep(ws[n - 1], ls[n - 1], h);
    }
  }

  /**
   A cancellation of an operation still in the table that reports not-sent: no Write on its
   connection had been permitted, and in no continuation is one ever permitted.
   */
  lemma CancelledNotSent(ws: seq<State>, ls: seq<Label>, id: int, m: nat, n: nat)
    requires Run(ws, ls) && m < n < |ws| && ls[m] == Cancelling(id) && id in ws[m].live
    requires Wellformed(ws[m]) && CancelReport(ws[m], id) == NotSent
    ensures ws[m].live[id] !in ws[n].writes
  {
    var h := ws[m].live[id];
    RunKeepsInv(ws, ls, m);
    assert h !in ws[m].writes;
    assert Follows(ws[m], ls[m], ws[m + 1]);
    hide Inv;
    assert Barred(ws[m + 1], h) && ws[m + 1].writes == ws[m].writes;
    BarredForGood(ws, ls, h, m + 1, n);
  }

  /** A terminal event that says not-sent is as final: nothing was written and nothing ever is. */
  lemma FinishedNotSent(ws: seq<State>, ls: seq<Label>, i: nat, m: nat, n: nat)
    requires Run(ws, ls) && m <= n < |ws| && i < |ws[m].produced|
    requires ws[m].produced[i].terminal && ws[m].produced[i].disposition == NotSent
    ensures ws[m].produced[i].op !in ws[n].writes
  {
    RunKeepsInv(ws, ls, m);
    assert Truthful(ws[m], i);
    var h := ws[m].produced[i].op;
    hide Queued, Sized, Tabled, Step;
    BarredForGood(ws, ls, h, m, n);
  }

  /** At most one terminal event of an operation is ever made, and the host is never given a second one. */
  lemma OneTerminalEvent(ws: seq<State>, ls: seq<Label>, n: nat)
    requires Run(ws, ls) && n < |ws|
    ensures OneTerminal(ws[n].produced) && OneTerminal(Handed(ws[n]))
  {
    RunKeepsInv(ws, ls, n);
    hide Run;
    var s := ws[n];
    forall i, j | 0 <= i < j < |Handed(s)| && Handed(s)[i].terminal && Handed(s)[j].terminal
      ensures Handed(s)[i].op != Handed(s)[j].op
    {
      assert Known(s, Handed(s)[i]) && Known(s, Handed(s)[j]);
    }
    hide Tabled, Sized;
  }

  lemma AdvancesStep(s: State, l: Label, h: nat)
    requires Wellformed(s) && h < |s.ops|
    ensures h < |Step(s, l).ops| && Rank(s.ops[h].disposition) <= Rank(Step(s, l).ops[h].disposition)
  {
    if !l.Admitting? && !l.Releasing? {
      SectionsKeepTable(s, l);
      hide Step;
    }
  }

  function Rank(d: Disposition): nat {
    match d
    case NotSent => 0
    case Unknown => 1
    case HandedOff => 2
  }

  /** Over whole runs a disposition only advances. */
  lemma {:induction false} DispositionsAdvance(ws: seq<State>, ls: seq<Label>, h: nat, m: nat, n: nat)
    requires Run(ws, ls) && m <= n < |ws| && h < |ws[m].ops|
    ensures h < |ws[n].ops| && Rank(ws[m].ops[h].disposition) <= Rank(ws[n].ops[h].disposition)
    decreases n
  {
    hide Step, Wellformed;
    if m < n {
      DispositionsAdvance(ws, ls, h, m, n - 1);
      assert Follows(ws[n - 1], ls[n - 1], ws[n]);
      AdvancesStep(ws[n - 1], ls[n - 1], h);
    }
  }

  /** Being in the table matters: after its release any operation is reported as not sent. */
  lemma ReleasedReportsNotSent(s: State, id: int)
    requires Inv(s) && id in s.live && s.ops[s.live[id]].done
    ensures Wellformed(Release(s, id)) && CancelReport(Release(s, id), id) == NotSent
  {
    TabledStep(s, Releasing(id));
  }
}
