/** The mirror as the object the source writes: its loops and maps, proved to take the mirror's steps. */
module MirrorObject {
  import opened Common
  import opened Mirror
  import opened MirrorFacts
  import opened MirrorRuns

  /** `latest` holds what the rows seen so far name as the latest run of each tab. */
  ghost predicate TabsScanned(rs: seq<Record>, latest: map<Id, Id>) {
    && (forall tab :: tab in latest <==> Named(rs, tab))
    && (forall tab :: tab in latest ==> latest[tab] == RunId(At(rs, Key(Tab, tab)).body.latestRun.value))
  }

  /** `newest` holds the newest run seen so far of each tab. */
  ghost predicate RunsScanned(rs: seq<Record>, newest: map<Id, Record>) {
    && (forall tab :: tab in newest <==> Newest(rs, tab).Some?)
    && (forall tab :: tab in newest ==> newest[tab] == Newest(rs, tab).value)
  }

  /** The row of the tab names its latest run. */
  predicate Named(rs: seq<Record>, tab: Id)
    ensures Named(rs, tab) ==> Has(rs, Key(Tab, tab)) && At(rs, Key(Tab, tab)).body.TabBody?
  {
    Has(rs, Key(Tab, tab)) && At(rs, Key(Tab, tab)).body.TabBody? && At(rs, Key(Tab, tab)).body.latestRun.Some?
  }

  lemma ScanTab(rs: seq<Record>, r: Record, tab: Id)
    requires Distinct(rs + [r])
    ensures Named(rs + [r], tab) <==>
              Named(rs, tab) || (r.body.TabBody? && r.id == tab && r.body.latestRun.Some?)
    ensures Named(rs, tab) ==> At(rs + [r], Key(Tab, tab)) == At(rs, Key(Tab, tab))
    ensures r.body.TabBody? && r.id == tab ==> Has(rs + [r], Key(Tab, tab)) && At(rs + [r], Key(Tab, tab)) == r
  {
    var t := rs + [r];
    var k := Key(Tab, tab);
    assert Distinct(rs) by {
      assert forall i :: 0 <= i < |rs| ==> t[i] == rs[i];
    }
    if Has(rs, k) {
      MemberIsAt(t, At(rs, k));
    }
    if KeyOf(r) == k {
      assert t[|rs|] == r;
      MemberIsAt(t, r);
    }
    if Has(t, k) && KeyOf(r) != k {
      var x := At(t, k);
      assert x in rs;
      MemberIsAt(rs, x);
    }
  }

  lemma ScanRun(rs: seq<Record>, r: Record, tab: Id)
    ensures Newest(rs + [r], tab) ==
              if RunOf(r, tab) && (Newest(rs, tab).None? || r.body.startedAt >= Newest(rs, tab).value.body.startedAt)
              then Some(r) else Newest(rs, tab)
  {
    assert (rs + [r])[..|rs|] == rs;
  }

  function NoteTab(latest: map<Id, Id>, r: Record): map<Id, Id> {
    if r.body.TabBody? && r.body.latestRun.Some? then latest[r.id := RunId(r.body.latestRun.value)] else latest
  }

  function NoteRun(newest: map<Id, Record>, r: Record): map<Id, Record> {
    if r.body.RunBody? && r.body.tab.Some? &&
       (r.body.tab.value !in newest || !newest[r.body.tab.value].body.RunBody?
        || r.body.startedAt >= newest[r.body.tab.value].body.startedAt)
    then newest[r.body.tab.value := r]
    else newest
  }

  lemma NoteTabScans(rs: seq<Record>, latest: map<Id, Id>, r: Record)
    requires TabsScanned(rs, latest) && Distinct(rs + [r])
    ensures TabsScanned(rs + [r], NoteTab(latest, r))
  {
    var t := NoteTab(latest, r);
    forall tab ensures tab in t <==> Named(rs + [r], tab) {
      ScanTab(rs, r, tab);
    }
    forall tab | tab in t ensures t[tab] == RunId(At(rs + [r], Key(Tab, tab)).body.latestRun.value) {
      ScanTab(rs, r, tab);
    }
  }

  lemma NoteRunScans(rs: seq<Record>, newest: map<Id, Record>, r: Record)
    requires RunsScanned(rs, newest)
    ensures RunsScanned(rs + [r], NoteRun(newest, r))
  {
    var t := NoteRun(newest, r);
    forall tab ensures tab in t <==> Newest(rs + [r], tab).Some? {
      ScanRun(rs, r, tab);
    }
    forall tab | tab in t ensures t[tab] == Newest(rs + [r], tab).value {
      ScanRun(rs, r, tab);
    }
  }

  /** One pass over the rows: what each tab's row names, and each tab's newest run. */
  method Scan(rs: seq<Record>) returns (latest: map<Id, Id>, newest: map<Id, Record>)
    requires Distinct(rs)
    ensures TabsScanned(rs, latest) && RunsScanned(rs, newest)
  {
    latest, newest := map[], map[];
    for i := 0 to |rs|
      invariant TabsScanned(rs[..i], latest) && RunsScanned(rs[..i], newest)
    {
      NoteTabScans(rs[..i], latest, rs[i]);
      NoteRunScans(rs[..i], newest, rs[i]);
      hide TabsScanned, RunsScanned;
      latest := NoteTab(latest, rs[i]);
      newest := NoteRun(newest, rs[i]);
      assert rs[..i] + [rs[i]] == rs[..i + 1];
    }
    assert rs[..|rs|] == rs;
  }

  /** The latest run of a tab from the two maps. */
  function LatestIn(latest: map<Id, Id>, newest: map<Id, Record>, tab: Id): Option<Id> {
    if tab in latest then Some(latest[tab]) else if tab in newest then Some(newest[tab].id) else None
  }

  lemma ScannedLatest(rs: seq<Record>, latest: map<Id, Id>, newest: map<Id, Record>, tab: Id)
    requires TabsScanned(rs, latest) && RunsScanned(rs, newest)
    ensures LatestIn(latest, newest, tab) == Latest(rs, tab)
  {
  }

  /** History pruning in two passes over the rows instead of one search per row. */
  method PruneHistory(rs: seq<Record>) returns (kept: seq<Record>)
    requires Distinct(rs)
    ensures kept == Prune(rs)
  {
    var latest, newest := Scan(rs);
    kept := [];
    ghost var keep := (r: Record) => Kept(rs, r);
    for i := 0 to |rs|
      invariant kept == Select(rs[..i], keep)
    {
      var r := rs[i];
      assert rs[..i + 1][..i] == rs[..i];
      var drop := r.body.OperationBody? && r.body.final;
      if r.body.RunBody? && !r.body.active {
        drop := r.body.tab.None? || LatestIn(latest, newest, r.body.tab.value) != Some(r.id);
        if r.body.tab.Some? {
          ScannedLatest(rs, latest, newest, r.body.tab.value);
        }
      }
      assert keep(r) == !drop;
      if !drop {
        kept := kept + [r];
      }
    }
    assert rs[..|rs|] == rs;
  }

  class BusinessMirror {
    var status: Status
    var target: Option<Identity>
    var identity: Option<Identity>
    var cursor: Option<Cursor>
    var records: seq<Record>
    var bytes: nat
    var stage: Option<Stage>
    var initialized: bool
    var ready: bool
    const kinds: set<Kind>

    ghost function Value(): State
      reads this
    {
      State(status, target, identity, cursor, records, bytes, stage, initialized, ready, kinds)
    }

    constructor (kinds: set<Kind>)
      ensures Value() == Start(kinds)
    {
      status, target, identity, cursor := Idle, None, None, None;
      records, bytes, stage, initialized, ready := [], 2, None, false, false;
      this.kinds := kinds;
    }

    method BecomeStale(discard: bool)
      modifies this
      ensures Value() == GoStale(old(Value()), discard)
    {
      if !status.Disposed? {
        status, stage, ready := Stale, None, false;
        if discard {
          cursor := None;
        }
      }
    }

    method BeginAt(to: Identity, since: Option<Cursor>) returns (rejected: Option<Rejection>)
      modifies this
      ensures (Value(), rejected) == Begin(old(Value()), to, since)
    {
      if status.Disposed? {
        return Some(IsDisposed);
      }
      if since.Some? && !(cursor == since && since.value.serverId == to.serverId
                          && since.value.relayInstanceId == to.relayInstanceId) {
        BecomeStale(true);
        return Some(BadCursor);
      }
      target, cursor, stage, initialized, ready, status := Some(to), since, None, since.Some?, false, Stale;
      rejected := None;
    }

    /** Adds a page record by record; a refused page leaves a stage that is then dropped. */
    method ReceivePage(rs: seq<Record>) returns (rejected: Option<Rejection>)
      requires stage.Some? && target.Some?
      modifies this`stage
      ensures var (after, why) := AddPage(old(stage).value, rs, target.value, kinds);
              rejected == why && (why.None? ==> stage == Some(after.(page := after.page + 1)))
    {
      var now := stage.value;
      for i := 0 to |rs|
        invariant AddPage(old(stage).value, rs[..i], target.value, kinds) == (now, None)
      {
        var r := rs[i];
        assert rs[..i + 1][..i] == rs[..i];
        if !ValidRecord(r, target.value, kinds) || Has(now.records, KeyOf(r)) {
          PageStops(old(stage).value, rs, i + 1, target.value, kinds);
          return Some(SnapshotRecord);
        }
        now := now.(bytes := now.bytes + r.size + (if now.records != [] then 1 else 0), records := now.records + [r]);
        if |now.records| > MAX_ITEMS || now.bytes > MAX_BYTES {
          PageStops(old(stage).value, rs, i + 1, target.value, kinds);
          return Some(Capacity);
        }
      }
      assert rs[..|rs|] == rs;
      stage := Some(now.(page := now.page + 1));
      rejected := None;
    }

    /** The changes of a frame, in order, on a copy. */
    method ApplyChanges(cs: seq<Change>) returns (next: seq<Record>, rejected: Option<Rejection>)
      requires target.Some?
      ensures rejected == BadChange(cs, target.value, kinds)
      ensures rejected.None? ==> next == ApplyAll(records, cs)
    {
      next := records;
      for i := 0 to |cs|
        invariant BadChange(cs[..i], target.value, kinds).None? && next == ApplyAll(records, cs[..i])
      {
        assert cs[..i + 1][..i] == cs[..i];
        if cs[i].Delete? {
          if cs[i].kind !in kinds {
            ChangeStops(cs, i + 1, target.value, kinds);
            return next, Some(BadFilter);
          }
          next := Remove(next, Key(cs[i].kind, cs[i].id));
        } else {
          if !ValidRecord(cs[i].value, target.value, kinds) {
            ChangeStops(cs, i + 1, target.value, kinds);
            return next, Some(BadRecord);
          }
          if !Outdated(next, cs[i].value) {
            next := Put(next, cs[i].value);
          }
        }
      }
      assert cs[..|cs|] == cs;
      rejected := None;
    }

    method ReceiveChanges(after: Cursor, to: Cursor, cs: seq<Change>) returns (rejected: Option<Rejection>)
      requires target.Some? && Distinct(records)
      modifies this
      ensures var (t, why) := Judge(old(Value()), Changes(after, to, cs));
              rejected == why && Value() == t
    {
      if !initialized || cursor != Some(after) || to != after.(at := after.at + 1) {
        return Some(GapInCursor);
      }
      var next;
      next, rejected := ApplyChanges(cs);
      if rejected.Some? {
        return;
      }
      ApplyKeepsKeys(records, cs);
      var kept := PruneHistory(next);
      if |kept| > MAX_ITEMS || BytesOf(kept) > MAX_BYTES {
        return Some(Capacity);
      }
      records, bytes, cursor := kept, BytesOf(kept), Some(to);
    }

    /** A frame bound to this stream, before a rejection takes effect. */
    method Take(f: Frame) returns (rejected: Option<Rejection>)
      requires target.Some? && Distinct(records) && !f.Reset? && !f.Refused?
      modifies this
      ensures var (t, why) := Judge(old(Value()), f);
              && rejected == why
              && (why.None? ==> Value() == t)
              && (why.Some? ==> Value() == old(Value()).(stage := stage))
    {
      rejected := None;
      match f
      case SnapshotBegin(id) =>
        if initialized || stage.Some? {
          return Some(SnapshotOrder);
        }
        stage, status := Some(Stage(id, 0, [], 2)), Snapshot;
      case SnapshotPage(id, page, rs) =>
        if stage.None? || stage.value.id != id || stage.value.page != page {
          return Some(SnapshotOrder);
        }
        rejected := ReceivePage(rs);
      case SnapshotEnd(id, pages, to) =>
        if stage.None? || stage.value.id != id || stage.value.page != pages {
          return Some(SnapshotOrder);
        }
        records, bytes, identity, stage := stage.value.records, stage.value.bytes, target, None;
        initialized, cursor, status := true, Some(to), Stale;
      case Changes(after, to, cs) =>
        rejected := ReceiveChanges(after, to, cs);
      case Ready(at) =>
        if ready || !initialized || cursor != Some(at) {
          return Some(BadReady);
        }
        ready, status := true, Current;
    }

    method Receive(f: Frame) returns (rejected: Option<Rejection>)
      requires Distinct(records)
      modifies this
      ensures (Value(), rejected) == Accept(old(Value()), f)
    {
      if status.Disposed? {
        return Some(IsDisposed);
      }
      if target.None? {
        rejected := Some(BadIdentity);
      } else if f.Reset? || f.Refused? {
        rejected := Some(BySender);
      } else if CursorOf(f).Some? && !Bound(CursorOf(f).value, target.value, kinds) {
        rejected := Some(BadCursor);
      } else {
        rejected := Take(f);
      }
      if rejected.Some? {
        BecomeStale(true);
      }
    }
  }

  /** Once a record is refused the rest of the page does not matter. */
  lemma {:induction false} PageStops(stage: Stage, rs: seq<Record>, n: nat, to: Identity, kinds: set<Kind>)
    requires n <= |rs| && AddPage(stage, rs[..n], to, kinds).1.Some?
    ensures AddPage(stage, rs, to, kinds).1 == AddPage(stage, rs[..n], to, kinds).1
    decreases |rs|
  {
    if n == |rs| {
      assert rs[..n] == rs;
    } else {
      var front := rs[..|rs| - 1];
      assert front[..n] == rs[..n];
      PageStops(stage, front, n, to, kinds);
    }
  }

  lemma {:induction false} ChangeStops(cs: seq<Change>, n: nat, to: Identity, kinds: set<Kind>)
    requires n <= |cs| && BadChange(cs[..n], to, kinds).Some?
    ensures BadChange(cs, to, kinds) == BadChange(cs[..n], to, kinds)
    decreases |cs|
  {
    if n == |cs| {
      assert cs[..n] == cs;
    } else {
      var front := cs[..|cs| - 1];
      assert front[..n] == cs[..n];
      ChangeStops(front, n, to, kinds);
    }
  }
}
