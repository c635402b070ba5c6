/** The reader of one /events connection, and its lock-step with the mirror it feeds. */
module Reader {
  import opened Common
  import opened Mirror

  datatype Progress = Progress(id: string, page: nat, items: nat, bytes: nat)

  datatype Reading = Reading(
    target: Identity,
    kinds: set<Kind>,
    since: Option<Cursor>,
    initialized: bool,
    ready: bool,
    cursor: Option<Cursor>,
    snapshot: Option<Progress>)

  function Open(target: Identity, kinds: set<Kind>, since: Option<Cursor>): Reading {
    Reading(target, kinds, since, since.Some?, false, since, None)
  }

  /** Counts the records of a page and the bytes of their encoding. */
  function Count(p: Progress, rs: seq<Record>): Progress {
    if rs == [] then p
    else
      var prior := Count(p, rs[..|rs| - 1]);
      prior.(bytes := prior.bytes + rs[|rs| - 1].size + (if prior.items > 0 then 1 else 0), items := prior.items + 1)
  }

  /** The reader's own check of a frame; None is an error that ends the connection. */
  function Check(r: Reading, f: Frame): Option<Reading> {
    match f
    case SnapshotBegin(id) =>
      if r.initialized || r.snapshot.Some? || r.since.Some? then None
      else Some(r.(snapshot := Some(Progress(id, 0, 0, 2))))
    case SnapshotPage(id, page, rs) =>
      if r.snapshot.None? || r.snapshot.value.id != id || r.snapshot.value.page != page then None
      else
        var p := Count(r.snapshot.value, rs);
        if p.bytes > MAX_BYTES || p.items > MAX_ITEMS then None
        else Some(r.(snapshot := Some(p.(page := p.page + 1))))
    case SnapshotEnd(id, pages, cursor) =>
      if r.snapshot.None? || r.snapshot.value.id != id || r.snapshot.value.page != pages then None
      else Some(r.(cursor := Some(cursor), initialized := true, snapshot := None))
    case Changes(after, cursor, _) =>
      if !r.initialized || !Contiguous(r.cursor, after, cursor) then None
      else Some(r.(cursor := Some(cursor)))
    case Ready(cursor) =>
      if r.ready || !r.initialized || r.cursor != Some(cursor) then None
      else Some(r.(ready := true))
    case Reset => Some(r)
    case Refused => Some(r)
  }

  /** A frame that passes, with a cursor of this stream if it has one, is forwarded. */
  function Handle(r: Reading, f: Frame): Option<Reading> {
    var t := Check(r, f);
    if t.None? || (CursorOf(f).Some? && !Bound(CursorOf(f).value, r.target, r.kinds)) then None else t
  }

  /** The reader and the mirror are at the same point of the same stream. */
  predicate LockStep(r: Reading, m: State) {
    && !m.status.Disposed? && m.target == Some(r.target) && m.kinds == r.kinds
    && r.initialized == m.initialized && r.ready == m.ready && r.cursor == m.cursor
    && (r.since.Some? ==> r.initialized)
    && (r.snapshot.Some? <==> m.stage.Some?)
    && (r.snapshot.Some? ==>
          var p, stage := r.snapshot.value, m.stage.value;
          p.id == stage.id && p.page == stage.page && p.items == |stage.records| && p.bytes == stage.bytes
          && p.items <= MAX_ITEMS && p.bytes <= MAX_BYTES)
  }

  /** A page the reader counts and the mirror does not refuse for a record is counted alike. */
  lemma {:induction false} PageLockStep(p: Progress, stage: Stage, rs: seq<Record>, target: Identity, kinds: set<Kind>)
    requires p.id == stage.id && p.page == stage.page && p.items == |stage.records| && p.bytes == stage.bytes
    ensures var q := Count(p, rs);
            var (t, rejected) := AddPage(stage, rs, target, kinds);
            && q.id == p.id && q.page == p.page && q.items >= p.items && q.bytes >= p.bytes
            && (q.items <= MAX_ITEMS && q.bytes <= MAX_BYTES ==> rejected != Some(Capacity))
            && (rejected.Some? ==> rejected == Some(SnapshotRecord) || rejected == Some(Capacity))
            && (rejected.None? && rs != [] ==> q.items <= MAX_ITEMS && q.bytes <= MAX_BYTES)
            && (rejected.None? ==>
                  t.id == stage.id && t.page == stage.page && q.items == |t.records| && q.bytes == t.bytes)
  {
    if rs != [] {
      PageLockStep(p, stage, rs[..|rs| - 1], target, kinds);
    }
  }

  lemma {:induction false} BadChangeReasons(cs: seq<Change>, target: Identity, kinds: set<Kind>)
    ensures var b := BadChange(cs, target, kinds); b.Some? ==> b == Some(BadFilter) || b == Some(BadRecord)
  {
    if cs != [] {
      BadChangeReasons(cs[..|cs| - 1], target, kinds);
    }
  }

  /** The reasons the mirror can still have to refuse what the reader forwards. */
  predicate OwnReason(f: Frame, reason: Rejection) {
    match f
    case SnapshotPage(_, _, _) => reason == SnapshotRecord
    case Changes(_, _, _) => reason == BadFilter || reason == BadRecord || reason == Capacity
    case Reset => reason == BySender
    case Refused => reason == BySender
    case _ => false
  }

  /**
   Lock-step: a forwarded frame is accepted by the mirror and keeps the two together, or is refused
   for a reason only the mirror can see in the records themselves.
   */
  lemma ForwardedKeepsLockStep(r: Reading, m: State, f: Frame)
    requires LockStep(r, m) && Handle(r, f).Some?
    ensures var (t, rejected) := Accept(m, f);
            if rejected.None? then LockStep(Handle(r, f).value, t) else OwnReason(f, rejected.value)
  {
    match f
    case SnapshotPage(_, _, rs) => PageLockStep(r.snapshot.value, m.stage.value, rs, r.target, r.kinds);
    case Changes(_, _, cs) => BadChangeReasons(cs, r.target, r.kinds);
    case _ =>
    hide Count, AddPage, Prune, ApplyAll, BadChange, BytesOf;
  }

  /** What the reader refuses, as out of place or as too large a page, the mirror would have refused too. */
  lemma RefusedByBoth(r: Reading, m: State, f: Frame)
    requires LockStep(r, m) && Handle(r, f).None?
    ensures Accept(m, f).1.Some?
  {
    if f.SnapshotPage? && r.snapshot.Some? {
      PageLockStep(r.snapshot.value, m.stage.value, f.records, r.target, r.kinds);
      if f.records == [] { assert Count(r.snapshot.value, []) == r.snapshot.value; }
    }
    hide Prune, ApplyAll, BadChange, BytesOf, Count, AddPage;
  }

  /** A connection opened where the mirror stands starts in lock-step. */
  lemma OpenIsLockStep(m: State, target: Identity, since: Option<Cursor>)
    requires Begin(m, target, since).1.None?
    ensures LockStep(Open(target, m.kinds, since), Begin(m, target, since).0)
  {
  }

  /** Feeds the mirror every frame the reader forwards, up to the first either refuses. */
  function Pump(r: Reading, m: State, fs: seq<Frame>): (Reading, State, Option<Rejection>, bool) {
    if fs == [] then (r, m, None, true)
    else
      var (q, n, rejected, open) := Pump(r, m, fs[..|fs| - 1]);
      var f := fs[|fs| - 1];
      if !open || rejected.Some? then (q, n, rejected, open)
      else if Handle(q, f).None? then (q, n, None, false)
      else
        var (t, why) := Accept(n, f);
        (Handle(q, f).value, t, why, true)
  }

  /** From a common start the two agree after every frame of every stream. */
  lemma {:induction false} StreamKeepsLockStep(r: Reading, m: State, fs: seq<Frame>)
    requires LockStep(r, m)
    ensures var (q, n, rejected, open) := Pump(r, m, fs);
            && (rejected.None? ==> LockStep(q, n))
            && (rejected.Some? ==> exists i :: 0 <= i < |fs| && OwnReason(fs[i], rejected.value))
  {
    if fs != [] {
      var f := fs[|fs| - 1];
      StreamKeepsLockStep(r, m, fs[..|fs| - 1]);
      hide Handle, Accept;
      var (q, n, rejected, open) := Pump(r, m, fs[..|fs| - 1]);
      if rejected.Some? {
        var i :| 0 <= i < |fs| - 1 && OwnReason(fs[..|fs| - 1][i], rejected.value);
        assert OwnReason(fs[i], rejected.value);
      } else if open && Handle(q, f).Some? {
        ForwardedKeepsLockStep(q, n, f);
      }
    }
  }
}
