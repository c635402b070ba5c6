/**
 Every run of the mirror: its records are the reference fold of the accepted frames, its byte count
 is exact, rejected frames leave it alone, and resuming at its cursor is as good as no interruption.
 */
module MirrorRuns {
  import opened Common
  import opened Mirror
  import opened MirrorFacts

  datatype Label =
    | Beginning(target: Identity, since: Option<Cursor>)
    | GoingStale(discard: bool)
    | Accepting(frame: Frame)

  function Step(s: State, l: Label): State {
    match l
    case Beginning(target, since) => Begin(s, target, since).0
    case GoingStale(discard) => GoStale(s, discard)
    case Accepting(f) => Accept(s, f).0
  }

  ghost predicate Run(ws: seq<State>, ls: seq<Label>) {
    && |ws| == |ls| + 1
    && ws[0] == Start(ws[0].kinds)
    && forall i :: 0 <= i < |ls| ==> ws[i + 1] == Step(ws[i], ls[i])
  }

  /** The frames accepted in the first `n` steps. */
  ghost function Accepted(ws: seq<State>, ls: seq<Label>, n: nat): seq<Frame>
    requires |ws| == |ls| + 1 && n <= |ls|
  {
    if n == 0 then []
    else
      var front := Accepted(ws, ls, n - 1);
      if ls[n - 1].Accepting? && Accept(ws[n - 1], ls[n - 1].frame).1.None? then front + [ls[n - 1].frame] else front
  }

  // ---- The reference ----

  /** The records of all pages since the last snapshot began. */
  function Pages(log: seq<Frame>): seq<Record> {
    if log == [] then []
    else
      var n := |log| - 1;
      match log[n]
      case SnapshotBegin(_) => []
      case SnapshotPage(_, _, rs) => Pages(log[..n]) + rs
      case _ => Pages(log[..n])
  }

  /** The last complete snapshot and the changes since. */
  function Confirmed(log: seq<Frame>): seq<Record> {
    if log == [] then []
    else
      var n := |log| - 1;
      match log[n]
      case SnapshotEnd(_, _, _) => Pages(log[..n])
      case Changes(_, _, cs) => Fold(Confirmed(log[..n]), cs)
      case _ => Confirmed(log[..n])
  }

  // ---- The invariant ----

  predicate Whole(rs: seq<Record>, bytes: nat) {
    Distinct(rs) && bytes == BytesOf(rs) && |rs| <= MAX_ITEMS && bytes <= MAX_BYTES
  }

  ghost predicate Inv(s: State, log: seq<Frame>) {
    && !s.status.Disposed?
    && s.records == Confirmed(log)
    && Whole(s.records, s.bytes)
    && (s.stage.Some? ==> s.stage.value.records == Pages(log) && Whole(s.stage.value.records, s.stage.value.bytes))
    && (s.cursor.Some? ==>
          s.initialized && s.target == Some(Identity(s.cursor.value.serverId, s.cursor.value.relayInstanceId)))
    && (s.initialized ==> s.stage.None?)
  }

  /** A page that is taken is taken whole. */
  lemma {:induction false} PageTaken(stage: Stage, rs: seq<Record>, target: Identity, kinds: set<Kind>)
    requires Whole(stage.records, stage.bytes) && AddPage(stage, rs, target, kinds).1.None?
    ensures var t := AddPage(stage, rs, target, kinds).0;
            t == stage.(records := stage.records + rs, bytes := t.bytes) && Whole(t.records, t.bytes)
  {
    if rs == [] {
      assert stage.records + rs == stage.records;
    } else {
      var n := |rs| - 1;
      PageTaken(stage, rs[..n], target, kinds);
      var prior := AddPage(stage, rs[..n], target, kinds).0;
      assert stage.records + rs == prior.records + [rs[n]] by {
        assert rs == rs[..n] + [rs[n]];
      }
      SumAppend(prior.records, rs[n], Size);
    }
  }

  lemma JudgeKeepsInv(s: State, log: seq<Frame>, f: Frame)
    requires Inv(s, log) && s.target.Some? && Judge(s, f).1.None?
    requires CursorOf(f).Some? ==> Bound(CursorOf(f).value, s.target.value, s.kinds)
    ensures Inv(Judge(s, f).0, log + [f])
  {
    assert (log + [f])[..|log|] == log;
    match f
    case SnapshotPage(_, _, rs) => PageTaken(s.stage.value, rs, s.target.value, s.kinds);
    case Changes(_, _, cs) => FoldKeepsKeys(s.records, cs);
    case _ =>
  }

  lemma AcceptKeepsInv(s: State, log: seq<Frame>, f: Frame)
    requires Inv(s, log)
    ensures Inv(Accept(s, f).0, if Accept(s, f).1.None? then log + [f] else log)
  {
    if Accept(s, f).1.None? {
      JudgeKeepsInv(s, log, f);
    }
    hide Judge, Confirmed, Pages, Whole;
  }

  lemma StartIsInv(kinds: set<Kind>)
    ensures Inv(Start(kinds), [])
  {
  }

  lemma StepKeepsInv(s: State, log: seq<Frame>, l: Label)
    requires Inv(s, log) && !l.Accepting?
    ensures Inv(Step(s, l), log)
  {
    hide Whole, Confirmed, Pages;
  }

  lemma {:induction false} RunKeepsInv(ws: seq<State>, ls: seq<Label>, n: nat)
    requires Run(ws, ls) && n <= |ls|
    ensures Inv(ws[n], Accepted(ws, ls, n))
  {
    hide Accept, Inv, Begin, GoStale;
    if n == 0 {
      StartIsInv(ws[0].kinds);
    } else {
      RunKeepsInv(ws, ls, n - 1);
      if ls[n - 1].Accepting? {
        AcceptKeepsInv(ws[n - 1], Accepted(ws, ls, n - 1), ls[n - 1].frame);
      } else {
        StepKeepsInv(ws[n - 1], Accepted(ws, ls, n - 1), ls[n - 1]);
      }
    }
  }

  /**
   In every run the confirmed records are the reference fold of the frames accepted so far, each key
   once, and the byte count is that of their encoding.
   */
  lemma RecordsAreTheFold(ws: seq<State>, ls: seq<Label>, n: nat)
    requires Run(ws, ls) && n <= |ls|
    ensures ws[n].records == Confirmed(Accepted(ws, ls, n)) && Distinct(ws[n].records)
    ensures ws[n].bytes == 2 + (if ws[n].records == [] then 0 else |ws[n].records| - 1) + Sum(ws[n].records, Size)
    ensures |ws[n].records| <= MAX_ITEMS && ws[n].bytes <= MAX_BYTES
  {
    RunKeepsInv(ws, ls, n);
  }

  // ---- Revisions ----

  predicate Takes(s: State, l: Label) {
    l.Accepting? && Accept(s, l.frame).1.None?
  }

  /** From point `m` to point `n` no new snapshot is completed and no accepted change deletes the key. */
  ghost predicate Lasting(ws: seq<State>, ls: seq<Label>, m: nat, n: nat, k: Key)
    requires |ws| == |ls| + 1 && n <= |ls|
  {
    forall i :: m <= i < n && Takes(ws[i], ls[i]) ==>
      !ls[i].frame.SnapshotEnd? && (ls[i].frame.Changes? ==> DeletesNone(ls[i].frame.changes, k))
  }

  predicate SparesStep(s: State, l: Label, k: Key) {
    Takes(s, l) && l.frame.Changes? ==> Spares(s.records, l.frame.changes, k)
  }

  ghost predicate Spared(ws: seq<State>, ls: seq<Label>, m: nat, n: nat, k: Key)
    requires |ws| == |ls| + 1 && n <= |ls|
  {
    forall i :: m <= i < n ==> SparesStep(ws[i], ls[i], k)
  }

  ghost predicate Stays(ws: seq<State>, m: nat, n: nat, k: Key)
    requires n < |ws|
  {
    forall i :: m <= i <= n ==> Has(ws[i].records, k)
  }

  lemma ConfirmedNext(log: seq<Frame>, f: Frame)
    requires !f.SnapshotEnd?
    ensures Confirmed(log + [f]) == if f.Changes? then Fold(Confirmed(log), f.changes) else Confirmed(log)
  {
    assert (log + [f])[..|log|] == log;
    hide Fold;
  }

  lemma StepRecords(ws: seq<State>, ls: seq<Label>, i: nat)
    requires Run(ws, ls) && i < |ls| && !(Takes(ws[i], ls[i]) && ls[i].frame.SnapshotEnd?)
    ensures Distinct(ws[i].records)
    ensures ws[i + 1].records == if Takes(ws[i], ls[i]) && ls[i].frame.Changes?
                                 then Fold(ws[i].records, ls[i].frame.changes) else ws[i].records
  {
    assert |ws| == |ls| + 1;
    hide Run, Fold, Accept, Distinct, Confirmed, Sum;
    RecordsAreTheFold(ws, ls, i);
    RecordsAreTheFold(ws, ls, i + 1);
    if Takes(ws[i], ls[i]) {
      ConfirmedNext(Accepted(ws, ls, i), ls[i].frame);
    }
  }

  lemma StepStays(ws: seq<State>, ls: seq<Label>, i: nat, k: Key)
    requires Run(ws, ls) && i < |ls| && Lasting(ws, ls, i, i + 1, k)
    ensures Has(ws[i].records, k) ==>
              && (Has(ws[i + 1].records, k) <==> SparesStep(ws[i], ls[i], k))
              && (Has(ws[i + 1].records, k) ==> NoOlder(At(ws[i].records, k), At(ws[i + 1].records, k)))
              && (k.kind != Operation && k.kind != Mirror.Run ==> Has(ws[i + 1].records, k))
  {
    StepRecords(ws, ls, i);
    hide Run, Fold, Find, Distinct, Spares, Accept, DeletesNone;
    if Has(ws[i].records, k) && Takes(ws[i], ls[i]) && ls[i].frame.Changes? {
      FoldRises(ws[i].records, ls[i].frame.changes, k);
    }
  }

  /**
   In every run a resource that no change deletes and no snapshot replaces stays throughout exactly
   if every accepted change frame spares it, and then what is known of it only gets newer.
   */
  lemma {:induction false} RevisionsInRuns(ws: seq<State>, ls: seq<Label>, m: nat, n: nat, k: Key)
    requires Run(ws, ls) && m <= n <= |ls| && Lasting(ws, ls, m, n, k) && Has(ws[m].records, k)
    ensures Stays(ws, m, n, k) <==> Spared(ws, ls, m, n, k)
    ensures Stays(ws, m, n, k) ==> NoOlder(At(ws[m].records, k), At(ws[n].records, k))
    ensures k.kind != Operation && k.kind != Mirror.Run ==> Stays(ws, m, n, k)
    decreases n
  {
    hide Find, Spares, Takes, DeletesNone, Accept, Fold, Distinct, SparesStep;
    if m < n {
      RevisionsInRuns(ws, ls, m, n - 1, k);
      StepStays(ws, ls, n - 1, k);
    }
  }

  /** A rejected frame touches no confirmed record; what it costs is the cursor. */
  lemma RejectedChangesNothing(s: State, f: Frame)
    requires Accept(s, f).1.Some?
    ensures Accept(s, f).0 == if s.status.Disposed? then s
                              else s.(status := Stale, stage := None, ready := false, cursor := None)
  {
    hide Judge;
  }

  // ---- Resuming ----

  /** The same view, as far as change frames can tell. */
  predicate SameView(s: State, t: State) {
    && !s.status.Disposed? && !t.status.Disposed?
    && s.target == t.target && s.target.Some? && s.cursor == t.cursor && s.cursor.Some?
    && s.records == t.records && s.bytes == t.bytes
    && s.initialized && t.initialized && s.kinds == t.kinds
  }

  function AcceptAll(s: State, fs: seq<Frame>): (State, bool) {
    if fs == [] then (s, true)
    else
      var (t, ok) := AcceptAll(s, fs[..|fs| - 1]);
      if !ok then (t, false)
      else
        var (u, rejected) := Accept(t, fs[|fs| - 1]);
        (u, rejected.None?)
  }

  lemma ChangesSameView(s: State, t: State, f: Frame)
    requires SameView(s, t) && f.Changes?
    ensures Accept(s, f).1 == Accept(t, f).1
    ensures Accept(s, f).1.None? ==> SameView(Accept(s, f).0, Accept(t, f).0)
    ensures Accept(s, f).0.records == Accept(t, f).0.records && Accept(s, f).0.bytes == Accept(t, f).0.bytes
  {
    hide Prune, ApplyAll, BytesOf, BadChange;
  }

  lemma {:induction false} StreamsSameView(s: State, t: State, fs: seq<Frame>)
    requires SameView(s, t) && forall f :: f in fs ==> f.Changes?
    ensures AcceptAll(s, fs).1 == AcceptAll(t, fs).1
    ensures AcceptAll(s, fs).1 ==> SameView(AcceptAll(s, fs).0, AcceptAll(t, fs).0)
    ensures AcceptAll(s, fs).0.records == AcceptAll(t, fs).0.records
    ensures AcceptAll(s, fs).0.bytes == AcceptAll(t, fs).0.bytes
  {
    if fs != [] {
      var n := |fs| - 1;
      assert fs[n] in fs && forall f :: f in fs[..n] ==> f in fs;
      StreamsSameView(s, t, fs[..n]);
      hide Accept;
      if AcceptAll(s, fs[..n]).1 {
        ChangesSameView(AcceptAll(s, fs[..n]).0, AcceptAll(t, fs[..n]).0, fs[n]);
      }
    }
  }

  /**
   Disconnecting and resuming at the retained cursor: whatever changes the server then sends are
   judged, and end in the same records and bytes, as if the connection had never been lost.
   */
  lemma ResumeIsSeamless(ws: seq<State>, ls: seq<Label>, n: nat, fs: seq<Frame>)
    requires Run(ws, ls) && n <= |ls| && ws[n].cursor.Some?
    requires forall f :: f in fs ==> f.Changes?
    ensures ws[n].target.Some?
    ensures var s := ws[n];
            var (t, rejected) := Begin(GoStale(s, false), s.target.value, s.cursor);
            && rejected.None?
            && AcceptAll(t, fs).1 == AcceptAll(s, fs).1
            && AcceptAll(t, fs).0.records == AcceptAll(s, fs).0.records
            && AcceptAll(t, fs).0.bytes == AcceptAll(s, fs).0.bytes
  {
    RunKeepsInv(ws, ls, n);
    var s := ws[n];
    var t := Begin(GoStale(s, false), s.target.value, s.cursor).0;
    hide Confirmed, Pages, Whole, AcceptAll;
    assert SameView(s, t);
    StreamsSameView(s, t, fs);
  }
}
