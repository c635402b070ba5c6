/**
 Runs that show the two conditions of the downlink at work: one baseline of one chunk is loaded, and
 before the ACK of its sequence is handed off a second one starts, or an event comes out of sequence.
 */
module DownlinkWitness {
  import opened Common
  import opened Downlink
  import opened DownlinkRuns
  import opened DownlinkGap

  /** Some run gets there without a stray start or a hole. */
  ghost predicate Reached(w: World) {
    exists ws, ls :: Arrives(ws, ls, w)
  }

  ghost predicate Arrives(ws: seq<World>, ls: seq<Label>, w: World) {
    Run(ws, ls) && Clear(ws, ls, |ls|) && Whole(ws, ls, |ls|) && ws[|ls|] == w
  }

  lemma Onward(w: World, l: Label)
    requires Reached(w) && !(l.Drained? && StrayStart(w)) && !l.AckHandedOff?
    ensures Reached(Step(w, l))
  {
    hide Step, StrayStart, InSequence;
    var ws, ls :| Arrives(ws, ls, w);
    OneMore(ws, ls, l);
    var vs, ks := ws + [Step(w, l)], ls + [l];
    assert forall k :: 0 <= k < |ls| ==> vs[k] == ws[k] && ks[k] == ls[k];
    hide Run;
    assert Arrives(vs, ks, Step(w, l));
  }

  const FIRST := Baseline(0, 3, 1)
  const SECOND := Baseline(1, 3, 1)

  /** The controller after an attach answered with the baseline of sequence 3. */
  function Opened(queue: seq<Event>, baseline: Option<Baseline>, ordinal: nat): Controller {
    Controller(1, InBaseline, 0, true, seq(|queue|, k requires 0 <= k < |queue| => Item(queue[k], 1)),
               Some(Operation(Attach, false, Some(3), {}, false)), 0, 0, false, baseline, ordinal,
               false, None, false, false)
  }

  /** The first baseline has begun, and `ordinal` of its chunks are in the view. */
  function Loaded(ordinal: nat): World {
    World(Opened([], Some(FIRST), ordinal), map[], ordinal + 1, map[0 := Loading(FIRST, ordinal)], 0)
  }

  /** The first baseline is in the view and its ACK is not handed off yet. */
  const COMMITTING: World :=
    World(Controller(1, InBaseline, 0, true, [], Some(Operation(Attach, false, Some(3), {}, true)), 3, 3, true,
                     None, 1, false, None, false, false),
          map[], 3, map[0 := Holding(Upto(3))], 0)

  const WAITING: World := World(Opened([], None, 0), map[0 := Work(0, 1, Waiting(FIRST, Some(3), {}))], 1, map[], 0)

  lemma AttachIsReached()
    ensures Reached(World(Opened([], None, 0), map[], 0, map[], 0))
  {
    assert Run([Start], []) && Arrives([Start], [], Start);
    Onward(Start, Attaching);
    var w := AttachStep(Start);
    assert Priors(Start) == {};
    Onward(w, Marked(BaselineMode, 3));
    hide Reached;
    assert Opened([], None, 0).queue == [];
    assert Step(w, Marked(BaselineMode, 3)) == World(Opened([], None, 0), map[], 0, map[], 0);
  }

  lemma StartIsTaken()
    ensures Reached(WAITING)
  {
    AttachIsReached();
    hide Reached;
    var w := World(Opened([], None, 0), map[], 0, map[], 0);
    Onward(w, Receiving(BaselineStart(FIRST)));
    var t := Receive(w, BaselineStart(FIRST));
    Onward(t, Drained);
    assert Draining(t) && Drain(t) == WAITING;
  }

  /** The item at work in the view, under the first token. */
  function At(baseline: Option<Baseline>, ordinal: nat, i: nat, stage: Stage, views: map<nat, Content>): World {
    World(Opened([], baseline, ordinal), map[i := Work(0, 1, stage)], i + 1, views, 0)
  }

  lemma StartIsApplied()
    ensures Reached(Loaded(0))
  {
    StartIsTaken();
    hide Reached;
    Onward(WAITING, Continuing(0));
    var a := At(Some(FIRST), 0, 0, Writing(Initialize(FIRST), false), map[]);
    assert Continue(WAITING, 0) == a;
    Onward(a, Landing(0));
    var b := At(Some(FIRST), 0, 0, Writing(Initialize(FIRST), true), map[0 := Blank]);
    assert Land(a, 0) == b;
    Onward(b, Continuing(0));
    var c := At(Some(FIRST), 0, 0, Writing(Begin(FIRST), false), map[0 := Blank]);
    assert Continue(b, 0) == c;
    BeginIsApplied(c);
  }

  lemma BeginIsApplied(c: World)
    requires c == At(Some(FIRST), 0, 0, Writing(Begin(FIRST), false), map[0 := Blank]) && Reached(c)
    ensures Reached(Loaded(0))
  {
    hide Reached;
    Onward(c, Landing(0));
    var d := At(Some(FIRST), 0, 0, Writing(Begin(FIRST), true), map[0 := Loading(FIRST, 0)]);
    assert Land(c, 0) == d;
    Onward(d, Continuing(0));
    assert Continue(d, 0) == Loaded(0);
  }

  lemma ChunkIsTaken()
    ensures Reached(At(Some(FIRST), 1, 1, Writing(WriteChunk(FIRST, 0), false), map[0 := Loading(FIRST, 0)]))
  {
    StartIsApplied();
    hide Reached;
    var w := Loaded(0);
    Onward(w, Receiving(BaselineChunk(0, 0)));
    var t := Receive(w, BaselineChunk(0, 0));
    Onward(t, Drained);
    var a := At(Some(FIRST), 1, 1, Writing(WriteChunk(FIRST, 0), false), map[0 := Loading(FIRST, 0)]);
    assert Draining(t) && Drain(t) == a;
  }

  lemma ChunkIsApplied()
    ensures Reached(Loaded(1))
  {
    ChunkIsTaken();
    hide Reached;
    var a := At(Some(FIRST), 1, 1, Writing(WriteChunk(FIRST, 0), false), map[0 := Loading(FIRST, 0)]);
    Onward(a, Landing(1));
    var b := At(Some(FIRST), 1, 1, Writing(WriteChunk(FIRST, 0), true), map[0 := Loading(FIRST, 1)]);
    assert Land(a, 1) == b;
    Onward(b, Continuing(1));
    assert Continue(b, 1) == Loaded(1);
  }

  lemma EndIsTaken()
    ensures Reached(At(Some(FIRST), 1, 2, Writing(Finish(FIRST), false), map[0 := Loading(FIRST, 1)]))
  {
    ChunkIsApplied();
    hide Reached;
    var w := Loaded(1);
    Onward(w, Receiving(BaselineEnd(FIRST)));
    var t := Receive(w, BaselineEnd(FIRST));
    Onward(t, Drained);
    var a := At(Some(FIRST), 1, 2, Writing(Finish(FIRST), false), map[0 := Loading(FIRST, 1)]);
    assert Draining(t) && Drain(t) == a;
  }

  lemma EndIsApplied()
    ensures Reached(COMMITTING)
  {
    EndIsTaken();
    hide Reached;
    var a := At(Some(FIRST), 1, 2, Writing(Finish(FIRST), false), map[0 := Loading(FIRST, 1)]);
    Onward(a, Landing(2));
    var b := At(Some(FIRST), 1, 2, Writing(Finish(FIRST), true), map[0 := Holding(Upto(3))]);
    assert Land(a, 2) == b;
    Onward(b, Continuing(2));
    assert Continue(b, 2) == COMMITTING;
  }

  /** The stream can start a second baseline in the window: the view then turns ready blank. */
  lemma StrayStartIsReached() returns (ws: seq<World>, ls: seq<Label>)
    ensures Run(ws, ls) && Clear(ws, ls, |ls|) && StrayStart(ws[|ls|])
  {
    EndIsApplied();
    Onward(COMMITTING, Receiving(BaselineStart(SECOND)));
    var t := Receive(COMMITTING, BaselineStart(SECOND));
    ws, ls :| Arrives(ws, ls, t);
    assert StrayStart(t);
  }

  /** Event 4 is lost, and event 5 arrives while the view finishes the baseline. */
  const LOST: World :=
    COMMITTING.(c := COMMITTING.c.(queue := [Item(RunEvent(5, Plain), 1)], queuedSeq := Some(5)))

  lemma LostIsReached()
    ensures Reached(LOST)
  {
    EndIsTaken();
    hide Reached;
    var a := At(Some(FIRST), 1, 2, Writing(Finish(FIRST), false), map[0 := Loading(FIRST, 1)]);
    Onward(a, Receiving(RunEvent(5, Plain)));
    var b := Receive(a, RunEvent(5, Plain));
    Onward(b, Landing(2));
    var c := Land(b, 2);
    Onward(c, Continuing(2));
    assert b.c.queue == [Item(RunEvent(5, Plain), 1)];
    assert c.views == map[0 := Holding(Upto(3))];
    assert Continue(c, 2) == LOST;
  }

  /** An input then passes although the queue has a hole. */
  lemma HoleIsReached() returns (ws: seq<World>, ls: seq<Label>)
    ensures Run(ws, ls) && Clear(ws, ls, |ls|)
    ensures Live(ws[|ls|]) && !InSequence(ws[|ls|]) && ws[|ls|].inputs == 1
  {
    EndIsApplied();
    LostIsReached();
    LostIsReady();
    hide Live, InSequence, Committed, HandOff, Receive, Clear, Run, Reached;
    ws, ls := HandsOver(LOST);
  }

  lemma HandsOver(w: World) returns (ws: seq<World>, ls: seq<Label>)
    requires Reached(w)
    ensures Run(ws, ls) && Clear(ws, ls, |ls|) && ws[|ls|] == HandOff(Committed(w))
  {
    hide Committed, HandOff, Whole;
    ws, ls :| Arrives(ws, ls, w);
    hide Clear, Run;
    ws, ls := ClearOn(ws, ls, AckHandedOff, Committed(w));
    ws, ls := ClearOn(ws, ls, HandingInput, HandOff(Committed(w)));
  }

  lemma ClearOn(ws: seq<World>, ls: seq<Label>, l: Label, t: World) returns (vs: seq<World>, ks: seq<Label>)
    requires Run(ws, ls) && Clear(ws, ls, |ls|) && !l.Drained? && t == Step(ws[|ls|], l)
    ensures Run(vs, ks) && Clear(vs, ks, |ks|) && vs[|ks|] == t
  {
    hide Step, StrayStart;
    OneMore(ws, ls, l);
    vs, ks := ws + [t], ls + [l];
    assert forall k :: 0 <= k < |ls| ==> vs[k] == ws[k] && ks[k] == ls[k];
  }

  lemma LostIsReceived()
    ensures LOST == Receive(COMMITTING, RunEvent(5, Plain))
  {
    assert COMMITTING.c.queue + [Item(RunEvent(5, Plain), 1)] == LOST.c.queue;
  }

  lemma LostIsReady()
    requires Reached(COMMITTING)
    ensures var u := HandOff(Committed(LOST)); Live(u) && !InSequence(u) && u.inputs == 1
  {
    CommittingIsGood();
    hide Reached;
    HoleBeforeReady(COMMITTING, 5);
    LostIsReceived();
    hide Good, Receive;
    var t := Committed(LOST);
    assert forall i :: Current(HandOff(t), i) == Current(t, i);
  }

  lemma CommittingIsGood()
    requires Reached(COMMITTING)
    ensures Good(COMMITTING)
  {
    var ws, ls :| Arrives(ws, ls, COMMITTING);
    hide Good, Run;
    FenceIsExact(ws, ls, |ls|);
  }
}
