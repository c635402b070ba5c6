/**
 The business mirror: confirmed records of a server, loaded from a paged snapshot and kept current
 by change frames, with history pruning, exact byte accounting and resumable cursors.

 Records keep the insertion order of the source's map, which decides ties between runs. The encoded
 size of a record is a field of the record.
 */
module Mirror {
  import opened Common

  datatype Kind = Repo | Task | Tab | Run | Operation | Config | Runtime

  /** A resource ID as the server sends it, or the ID derived from a run. */
  datatype Id = Named(text: string) | OfRun(relayInstanceId: string, runId: string)

  datatype RunName = RunName(serverId: string, relayInstanceId: string, runId: string)

  function RunId(run: RunName): Id { OfRun(run.relayInstanceId, run.runId) }

  datatype Body =
    | RepoBody(repoId: Id, revision: nat)
    | TaskBody(taskId: Id, revision: nat)
    | TabBody(tabId: Id, revision: nat, latestRun: Option<RunName>)
    | RunBody(run: RunName, tab: Option<Id>, startedAt: nat, active: bool)
    | OperationBody(operationId: Id, revision: nat, final: bool)
    | ConfigBody(revision: nat)
    | RuntimeBody(run: RunName)

  datatype Record = Record(id: Id, body: Body, size: nat)

  datatype Key = Key(kind: Kind, id: Id)

  function KindOf(r: Record): Kind {
    match r.body
    case RepoBody(_, _) => Repo
    case TaskBody(_, _) => Task
    case TabBody(_, _, _) => Tab
    case RunBody(_, _, _, _) => Run
    case OperationBody(_, _, _) => Operation
    case ConfigBody(_) => Config
    case RuntimeBody(_) => Runtime
  }

  function KeyOf(r: Record): Key { Key(KindOf(r), r.id) }

  /** Runs and runtime facts carry no revision. */
  predicate Revised(r: Record) { !r.body.RunBody? && !r.body.RuntimeBody? }

  // ---- Ordered maps ----

  predicate Distinct(rs: seq<Record>) {
    forall i, j :: 0 <= i < j < |rs| ==> KeyOf(rs[i]) != KeyOf(rs[j])
  }

  /** Where a key is, or the length. */
  function Find(rs: seq<Record>, k: Key): (i: nat)
    ensures i <= |rs|
    ensures i < |rs| ==> KeyOf(rs[i]) == k
    ensures forall j :: 0 <= j < i ==> KeyOf(rs[j]) != k
  {
    if rs == [] then 0
    else if KeyOf(rs[0]) == k then 0
    else
      var i := 1 + Find(rs[1..], k);
      assert forall j :: 1 <= j < i ==> rs[j] == rs[1..][j - 1];
      i
  }

  predicate Has(rs: seq<Record>, k: Key) { Find(rs, k) < |rs| }

  function At(rs: seq<Record>, k: Key): (r: Record)
    requires Has(rs, k)
    ensures KeyOf(r) == k && r in rs
  {
    rs[Find(rs, k)]
  }

  /** A known key keeps its place, a new one comes last. */
  function Put(rs: seq<Record>, r: Record): seq<Record> {
    var i := Find(rs, KeyOf(r));
    if i < |rs| then rs[i := r] else rs + [r]
  }

  function Remove(rs: seq<Record>, k: Key): seq<Record> {
    var i := Find(rs, k);
    if i < |rs| then rs[..i] + rs[i + 1..] else rs
  }

  function Size(r: Record): nat { r.size }

  /** The size of the JSON array of the records. */
  function BytesOf(rs: seq<Record>): nat {
    2 + (if |rs| > 0 then |rs| - 1 else 0) + Sum(rs, Size)
  }

  // ---- Changes ----

  datatype Change = Upsert(value: Record) | Delete(kind: Kind, id: Id)

  /** An upsert older than what is known is ignored. */
  predicate Outdated(rs: seq<Record>, r: Record) {
    Has(rs, KeyOf(r)) && Revised(r) && Revised(At(rs, KeyOf(r))) && At(rs, KeyOf(r)).body.revision > r.body.revision
  }

  function Change1(rs: seq<Record>, c: Change): seq<Record> {
    match c
    case Delete(kind, id) => Remove(rs, Key(kind, id))
    case Upsert(r) => if Outdated(rs, r) then rs else Put(rs, r)
  }

  function ApplyAll(rs: seq<Record>, cs: seq<Change>): seq<Record> {
    if cs == [] then rs else Change1(ApplyAll(rs, cs[..|cs| - 1]), cs[|cs| - 1])
  }

  // ---- History ----

  predicate RunOf(r: Record, tab: Id) { r.body.RunBody? && r.body.tab == Some(tab) }

  /** The run of a tab that started last; of equals, the one that comes later. */
  function Newest(rs: seq<Record>, tab: Id): (newest: Option<Record>)
    ensures newest.Some? ==> RunOf(newest.value, tab)
  {
    if rs == [] then None
    else
      var last, prior := rs[|rs| - 1], Newest(rs[..|rs| - 1], tab);
      if RunOf(last, tab) && (prior.None? || last.body.startedAt >= prior.value.body.startedAt)
      then Some(last)
      else prior
  }

  /** The latest run of a tab as its own row names it, else the newest one known. */
  function Latest(rs: seq<Record>, tab: Id): Option<Id> {
    var i := Find(rs, Key(Tab, tab));
    if i < |rs| && rs[i].body.TabBody? && rs[i].body.latestRun.Some? then Some(RunId(rs[i].body.latestRun.value))
    else if Newest(rs, tab).Some? then Some(Newest(rs, tab).value.id)
    else None
  }

  /** Final operations go, and so do ended runs that are not the latest of a tab. */
  predicate Kept(rs: seq<Record>, r: Record) {
    && !(r.body.OperationBody? && r.body.final)
    && !(r.body.RunBody? && !r.body.active && (r.body.tab.None? || Latest(rs, r.body.tab.value) != Some(r.id)))
  }

  function Select(rs: seq<Record>, keep: Record -> bool): seq<Record> {
    if rs == [] then []
    else
      var n := |rs| - 1;
      Select(rs[..n], keep) + if keep(rs[n]) then [rs[n]] else []
  }

  function Prune(rs: seq<Record>): seq<Record> {
    Select(rs, (r: Record) => Kept(rs, r))
  }

  // ---- The mirror ----

  datatype Identity = Identity(serverId: string, relayInstanceId: string)

  datatype Cursor = Cursor(
    serverId: string, relayInstanceId: string, streamId: string, at: nat, filter: set<Kind>)

  datatype Frame =
    | SnapshotBegin(snapshotId: string)
    | SnapshotPage(snapshotId: string, page: nat, records: seq<Record>)
    | SnapshotEnd(snapshotId: string, pages: nat, cursor: Cursor)
    | Ready(cursor: Cursor)
    | Changes(after: Cursor, cursor: Cursor, changes: seq<Change>)
    | Reset
    | Refused

  datatype Status = Idle | Stale | Snapshot | Current | Disposed

  datatype Stage = Stage(id: string, page: nat, records: seq<Record>, bytes: nat)

  datatype Rejection =
    | IsDisposed | BadIdentity | BadCursor | BySender | SnapshotOrder | SnapshotRecord | Capacity
    | GapInCursor | BadFilter | BadRecord | BadReady

  datatype State = State(
    status: Status,
    target: Option<Identity>,
    identity: Option<Identity>,
    cursor: Option<Cursor>,
    records: seq<Record>,
    bytes: nat,
    stage: Option<Stage>,
    initialized: bool,
    ready: bool,
    kinds: set<Kind>)

  const MAX_ITEMS: nat := 65536
  const MAX_BYTES: nat := 16777216

  function Start(kinds: set<Kind>): State {
    State(Idle, None, None, None, [], 2, None, false, false, kinds)
  }

  function GoStale(s: State, discard: bool): State {
    if s.status.Disposed? then s
    else s.(status := Stale, stage := None, ready := false, cursor := if discard then None else s.cursor)
  }

  /** A cursor of this instance, which is all that can be resumed. */
  predicate Resumable(s: State, target: Identity, since: Cursor) {
    s.cursor == Some(since) && since.serverId == target.serverId && since.relayInstanceId == target.relayInstanceId
  }

  function Begin(s: State, target: Identity, since: Option<Cursor>): (State, Option<Rejection>) {
    if s.status.Disposed? then (s, Some(IsDisposed))
    else if since.Some? && !Resumable(s, target, since.value) then (GoStale(s, true), Some(BadCursor))
    else (s.(target := Some(target), cursor := since, stage := None, initialized := since.Some?, ready := false,
             status := Stale), None)
  }

  predicate Bound(cursor: Cursor, target: Identity, kinds: set<Kind>) {
    cursor.serverId == target.serverId && cursor.relayInstanceId == target.relayInstanceId && cursor.filter == kinds
  }

  /** The record is of a wanted kind and names itself as its kind prescribes. */
  predicate ValidRecord(r: Record, target: Identity, kinds: set<Kind>) {
    && KindOf(r) in kinds
    && match r.body
       case RepoBody(id, _) => r.id == id
       case TaskBody(id, _) => r.id == id
       case TabBody(id, _, _) => r.id == id
       case RunBody(run, _, _, _) => r.id == RunId(run) && run.serverId == target.serverId
       case OperationBody(id, _, _) => r.id == id
       case ConfigBody(_) => true
       case RuntimeBody(run) =>
         r.id == RunId(run) && run.serverId == target.serverId && run.relayInstanceId == target.relayInstanceId
  }

  /** The cursor of a frame that has one. */
  function CursorOf(f: Frame): Option<Cursor> {
    if f.SnapshotEnd? || f.Ready? || f.Changes? then Some(f.cursor) else None
  }

  /** One more page, record by record, up to the first that does not fit. */
  function AddPage(stage: Stage, rs: seq<Record>, target: Identity, kinds: set<Kind>): (Stage, Option<Rejection>)
    decreases |rs|
  {
    if rs == [] then (stage, None)
    else
      var (prior, rejected) := AddPage(stage, rs[..|rs| - 1], target, kinds);
      var r := rs[|rs| - 1];
      if rejected.Some? then (prior, rejected)
      else if !ValidRecord(r, target, kinds) || Has(prior.records, KeyOf(r)) then (prior, Some(SnapshotRecord))
      else
        var next := prior.(records := prior.records + [r],
                           bytes := prior.bytes + r.size + if prior.records != [] then 1 else 0);
        (next, if |next.records| > MAX_ITEMS || next.bytes > MAX_BYTES then Some(Capacity) else None)
  }

  /** The first change the mirror does not take. */
  function BadChange(cs: seq<Change>, target: Identity, kinds: set<Kind>): Option<Rejection> {
    if cs == [] then None
    else
      var prior := BadChange(cs[..|cs| - 1], target, kinds);
      if prior.Some? then prior
      else match cs[|cs| - 1]
        case Delete(kind, _) => if kind in kinds then None else Some(BadFilter)
        case Upsert(r) => if ValidRecord(r, target, kinds) then None else Some(BadRecord)
  }

  predicate Contiguous(cursor: Option<Cursor>, after: Cursor, next: Cursor) {
    cursor == Some(after) && next == after.(at := after.at + 1)
  }

  /** What a frame does, or why it is rejected. */
  function Judge(s: State, f: Frame): (State, Option<Rejection>)
    requires s.target.Some?
  {
    var target := s.target.value;
    match f
    case SnapshotBegin(id) =>
      if s.initialized || s.stage.Some? then (s, Some(SnapshotOrder))
      else (s.(stage := Some(Stage(id, 0, [], 2)), status := Snapshot), None)
    case SnapshotPage(id, page, rs) =>
      if s.stage.None? || s.stage.value.id != id || s.stage.value.page != page then (s, Some(SnapshotOrder))
      else
        var (stage, rejected) := AddPage(s.stage.value, rs, target, s.kinds);
        (s.(stage := Some(stage.(page := stage.page + 1))), rejected)
    case SnapshotEnd(id, pages, cursor) =>
      if s.stage.None? || s.stage.value.id != id || s.stage.value.page != pages then (s, Some(SnapshotOrder))
      else (s.(records := s.stage.value.records, bytes := s.stage.value.bytes, identity := s.target, stage := None,
               initialized := true, cursor := Some(cursor), status := Stale), None)
    case Changes(after, cursor, cs) =>
      if !s.initialized || !Contiguous(s.cursor, after, cursor) then (s, Some(GapInCursor))
      else if BadChange(cs, target, s.kinds).Some? then (s, BadChange(cs, target, s.kinds))
      else
        var next := Prune(ApplyAll(s.records, cs));
        if |next| > MAX_ITEMS || BytesOf(next) > MAX_BYTES then (s, Some(Capacity))
        else (s.(records := next, bytes := BytesOf(next), cursor := Some(cursor)), None)
    case Ready(cursor) =>
      if s.ready || !s.initialized || s.cursor != Some(cursor) then (s, Some(BadReady))
      else (s.(ready := true, status := Current), None)
    case Reset => (s, Some(BySender))
    case Refused => (s, Some(BySender))
  }

  /** A rejected frame makes the mirror stale and drops its cursor, and nothing else. */
  function Accept(s: State, f: Frame): (State, Option<Rejection>) {
    if s.status.Disposed? then (s, Some(IsDisposed))
    else if s.target.None? then (GoStale(s, true), Some(BadIdentity))
    else if f.Reset? || f.Refused? then (GoStale(s, true), Some(BySender))
    else if CursorOf(f).Some? && !Bound(CursorOf(f).value, s.target.value, s.kinds)
    then (GoStale(s, true), Some(BadCursor))
    else
      var (t, rejected) := Judge(s, f);
      if rejected.Some? then (GoStale(s, true), rejected) else (t, None)
  }
}
