/** What holds of the mirror's records: keys, pruning and revisions. */
module MirrorFacts {
  import opened Common
  import opened Mirror

  // ---- Keys ----

  lemma FindUnique(rs: seq<Record>, i: nat)
    requires Distinct(rs) && i < |rs|
    ensures Find(rs, KeyOf(rs[i])) == i
  {
  }

  lemma PutKeepsKeys(rs: seq<Record>, r: Record)
    requires Distinct(rs)
    ensures Distinct(Put(rs, r))
  {
    var i := Find(rs, KeyOf(r));
    if i < |rs| {
      assert forall j :: 0 <= j < |rs| && j != i ==> KeyOf(rs[j]) != KeyOf(r);
    }
  }

  lemma RemoveKeepsKeys(rs: seq<Record>, k: Key)
    requires Distinct(rs)
    ensures Distinct(Remove(rs, k))
    ensures forall r :: r in Remove(rs, k) <==> r in rs && KeyOf(r) != k
  {
    var i := Find(rs, k);
    if i < |rs| {
      var t := Remove(rs, k);
      assert forall j :: 0 <= j < |t| ==> t[j] == if j < i then rs[j] else rs[j + 1];
      forall r ensures r in t <==> r in rs && KeyOf(r) != k {
        if r in rs && KeyOf(r) != k {
          var j :| 0 <= j < |rs| && rs[j] == r;
          assert j < i ==> t[j] == r;
          assert j > i ==> t[j - 1] == r;
        }
      }
    }
  }

  lemma PutMembers(rs: seq<Record>, r: Record)
    requires Distinct(rs)
    ensures forall x :: x in Put(rs, r) <==> x == r || (x in rs && KeyOf(x) != KeyOf(r))
  {
    var i, t := Find(rs, KeyOf(r)), Put(rs, r);
    if i < |rs| {
      assert t[i] == r;
      forall x ensures x in t <==> x == r || (x in rs && KeyOf(x) != KeyOf(r)) {
        if x in rs && KeyOf(x) != KeyOf(r) {
          var j :| 0 <= j < |rs| && rs[j] == x;
          assert t[j] == x;
        }
      }
    }
  }

  lemma {:induction false} ApplyKeepsKeys(rs: seq<Record>, cs: seq<Change>)
    requires Distinct(rs)
    ensures Distinct(ApplyAll(rs, cs))
  {
    if cs != [] {
      var n := |cs| - 1;
      ApplyKeepsKeys(rs, cs[..n]);
      var t := ApplyAll(rs, cs[..n]);
      match cs[n]
      case Delete(kind, id) => RemoveKeepsKeys(t, Key(kind, id));
      case Upsert(r) => PutKeepsKeys(t, r);
    }
  }

  lemma {:induction false} SelectMembers(rs: seq<Record>, keep: Record -> bool)
    ensures forall r :: r in Select(rs, keep) <==> r in rs && keep(r)
  {
    if rs != [] {
      var n := |rs| - 1;
      SelectMembers(rs[..n], keep);
      assert rs == rs[..n] + [rs[n]];
    }
  }

  lemma {:induction false} SelectKeepsKeys(rs: seq<Record>, keep: Record -> bool)
    requires Distinct(rs)
    ensures Distinct(Select(rs, keep))
  {
    if rs != [] {
      var n := |rs| - 1;
      SelectKeepsKeys(rs[..n], keep);
      SelectMembers(rs[..n], keep);
      var front := Select(rs[..n], keep);
      forall i | 0 <= i < |front| ensures KeyOf(front[i]) != KeyOf(rs[n]) {
        assert front[i] in front && front[i] in rs[..n];
      }
    }
  }

  lemma {:induction false} SelectAll(rs: seq<Record>, keep: Record -> bool)
    requires forall r :: r in rs ==> keep(r)
    ensures Select(rs, keep) == rs
  {
    if rs != [] {
      var n := |rs| - 1;
      assert rs[n] in rs && forall r :: r in rs[..n] ==> r in rs;
      SelectAll(rs[..n], keep);
      assert rs == rs[..n] + [rs[n]];
    }
  }

  // ---- Pruning ----

  /** The newest run of a tab is one of its runs, and none of them started after it. */
  lemma {:induction false} NewestIsNewest(rs: seq<Record>, tab: Id)
    ensures var n := Newest(rs, tab);
            && (n.Some? ==> n.value in rs && RunOf(n.value, tab))
            && (forall r :: r in rs && RunOf(r, tab) ==> n.Some? && n.value.body.startedAt >= r.body.startedAt)
  {
    if rs != [] {
      var n := |rs| - 1;
      NewestIsNewest(rs[..n], tab);
      assert rs == rs[..n] + [rs[n]];
    }
  }

  /** Leaving out records other than it does not change which run is the newest. */
  lemma {:induction false} NewestSelected(rs: seq<Record>, keep: Record -> bool, tab: Id)
    requires Newest(rs, tab).Some? ==> keep(Newest(rs, tab).value)
    ensures Newest(Select(rs, keep), tab) == Newest(rs, tab)
  {
    if rs != [] {
      var n := |rs| - 1;
      var front, kept := rs[..n], Select(rs[..n], keep);
      NewestIsNewest(front, tab);
      NewestIsNewest(kept, tab);
      SelectMembers(front, keep);
      if Newest(rs, tab) == Newest(front, tab) && !(RunOf(rs[n], tab) && Newest(rs, tab) == Some(rs[n])) {
        NewestSelected(front, keep, tab);
      }
      if keep(rs[n]) {
        assert Select(rs, keep)[..|kept|] == kept;
      } else {
        assert Select(rs, keep) == kept;
      }
    }
  }

  lemma PruneMembers(rs: seq<Record>)
    ensures forall r :: r in Prune(rs) <==> r in rs && Kept(rs, r)
  {
    SelectMembers(rs, (r: Record) => Kept(rs, r));
  }

  lemma PruneKeepsKeys(rs: seq<Record>)
    requires Distinct(rs)
    ensures Distinct(Prune(rs))
  {
    SelectKeepsKeys(rs, (r: Record) => Kept(rs, r));
  }

  /** The rows of tabs survive pruning. */
  lemma TabSurvives(rs: seq<Record>, tab: Id)
    requires Distinct(rs)
    ensures Has(Prune(rs), Key(Tab, tab)) == Has(rs, Key(Tab, tab))
    ensures Has(rs, Key(Tab, tab)) ==> At(Prune(rs), Key(Tab, tab)) == At(rs, Key(Tab, tab))
  {
    var k := Key(Tab, tab);
    PruneMembers(rs);
    PruneKeepsKeys(rs);
    if Has(rs, k) {
      var r := At(rs, k);
      assert r in Prune(rs);
      MemberIsAt(Prune(rs), r);
    }
    if Has(Prune(rs), k) {
      assert At(Prune(rs), k) in rs;
      MemberIsAt(rs, At(Prune(rs), k));
    }
  }

  lemma MemberIsAt(rs: seq<Record>, r: Record)
    requires Distinct(rs) && r in rs
    ensures Has(rs, KeyOf(r)) && At(rs, KeyOf(r)) == r
  {
    var i :| 0 <= i < |rs| && rs[i] == r;
    FindUnique(rs, i);
  }

  lemma LatestSurvives(rs: seq<Record>, tab: Id)
    requires Distinct(rs)
    ensures Latest(Prune(rs), tab) == Latest(rs, tab)
  {
    TabSurvives(rs, tab);
    var n := Newest(rs, tab);
    var k := Key(Tab, tab);
    var named := Has(rs, k) && At(rs, k).body.TabBody? && At(rs, k).body.latestRun.Some?;
    if !named {
      NewestIsNewest(rs, tab);
      NewestSelected(rs, (r: Record) => Kept(rs, r), tab);
    }
  }

  /** Pruning again removes nothing more. */
  lemma PruneIsIdempotent(rs: seq<Record>)
    requires Distinct(rs)
    ensures Prune(Prune(rs)) == Prune(rs)
  {
    var p := Prune(rs);
    PruneMembers(rs);
    forall r | r in p ensures Kept(p, r) {
      if r.body.RunBody? && r.body.tab.Some? {
        LatestSurvives(rs, r.body.tab.value);
      }
    }
    SelectAll(p, (r: Record) => Kept(p, r));
  }

  // ---- Revisions ----

  predicate DeletesNone(cs: seq<Change>, k: Key) {
    forall c :: c in cs ==> !(c.Delete? && Key(c.kind, c.id) == k)
  }

  predicate NoOlder(before: Record, after: Record) {
    Revised(before) ==> Revised(after) && after.body.revision >= before.body.revision
  }

  lemma ChangeRises(rs: seq<Record>, c: Change, k: Key)
    requires Distinct(rs) && Has(rs, k) && !(c.Delete? && Key(c.kind, c.id) == k)
    ensures Has(Change1(rs, c), k) && NoOlder(At(rs, k), At(Change1(rs, c), k))
  {
    if c.Delete? {
      RemoveOther(rs, Key(c.kind, c.id), k);
    } else {
      PutOther(rs, c.value, k);
    }
  }

  /** Within a frame, what is known of a resource only gets newer, unless the frame deletes it. */
  lemma {:induction false} RevisionRises(rs: seq<Record>, cs: seq<Change>, k: Key)
    requires Distinct(rs) && Has(rs, k) && DeletesNone(cs, k)
    ensures Has(ApplyAll(rs, cs), k) && NoOlder(At(rs, k), At(ApplyAll(rs, cs), k))
  {
    if cs != [] {
      var n := |cs| - 1;
      assert DeletesNone(cs[..n], k) && cs[n] in cs;
      RevisionRises(rs, cs[..n], k);
      ApplyKeepsKeys(rs, cs[..n]);
      hide Change1, Find, Distinct;
      ChangeRises(ApplyAll(rs, cs[..n]), cs[n], k);
    }
  }

  lemma RemoveOther(rs: seq<Record>, k: Key, other: Key)
    requires Distinct(rs) && Has(rs, other) && k != other
    ensures Has(Remove(rs, k), other) && At(Remove(rs, k), other) == At(rs, other)
  {
    RemoveKeepsKeys(rs, k);
    MemberIsAt(Remove(rs, k), At(rs, other));
  }

  lemma PutOther(rs: seq<Record>, r: Record, k: Key)
    requires Distinct(rs) && Has(rs, k)
    ensures Has(Put(rs, r), k) && At(Put(rs, r), k) == if KeyOf(r) == k then r else At(rs, k)
  {
    PutMembers(rs, r);
    PutKeepsKeys(rs, r);
    MemberIsAt(Put(rs, r), if KeyOf(r) == k then r else At(rs, k));
  }

  /** A change frame as a whole: apply, then prune. */
  function Fold(rs: seq<Record>, cs: seq<Change>): seq<Record> {
    Prune(ApplyAll(rs, cs))
  }

  function FoldAll(rs: seq<Record>, frames: seq<seq<Change>>): seq<Record> {
    if frames == [] then rs else Fold(FoldAll(rs, frames[..|frames| - 1]), frames[|frames| - 1])
  }

  lemma FoldKeepsKeys(rs: seq<Record>, cs: seq<Change>)
    requires Distinct(rs)
    ensures Distinct(Fold(rs, cs))
  {
    ApplyKeepsKeys(rs, cs);
    PruneKeepsKeys(ApplyAll(rs, cs));
  }

  lemma {:induction false} FoldAllKeepsKeys(rs: seq<Record>, frames: seq<seq<Change>>)
    requires Distinct(rs)
    ensures Distinct(FoldAll(rs, frames))
  {
    if frames != [] {
      FoldAllKeepsKeys(rs, frames[..|frames| - 1]);
      FoldKeepsKeys(FoldAll(rs, frames[..|frames| - 1]), frames[|frames| - 1]);
    }
  }

  /** What the frame makes of the resource is not history: no finished operation and no superseded run. */
  predicate Spares(rs: seq<Record>, cs: seq<Change>, k: Key) {
    var t := ApplyAll(rs, cs);
    Has(t, k) && Kept(t, At(t, k))
  }

  lemma PruneAt(rs: seq<Record>, k: Key)
    requires Distinct(rs) && Has(rs, k)
    ensures Has(Prune(rs), k) <==> Kept(rs, At(rs, k))
    ensures Has(Prune(rs), k) ==> At(Prune(rs), k) == At(rs, k)
  {
    PruneMembers(rs);
    PruneKeepsKeys(rs);
    if Kept(rs, At(rs, k)) {
      MemberIsAt(Prune(rs), At(rs, k));
    } else if Has(Prune(rs), k) {
      MemberIsAt(rs, At(Prune(rs), k));
    }
  }

  /** One frame: a resource it does not delete is there exactly if the frame spares it, and no older. */
  lemma FoldRises(rs: seq<Record>, cs: seq<Change>, k: Key)
    requires Distinct(rs) && Has(rs, k) && DeletesNone(cs, k)
    ensures Has(Fold(rs, cs), k) <==> Spares(rs, cs, k)
    ensures Has(Fold(rs, cs), k) ==> NoOlder(At(rs, k), At(Fold(rs, cs), k))
    ensures k.kind == Operation ==>
              Has(ApplyAll(rs, cs), k) && (Spares(rs, cs, k) <==> !At(ApplyAll(rs, cs), k).body.final)
    ensures k.kind != Operation && k.kind != Run ==> Spares(rs, cs, k)
  {
    RevisionRises(rs, cs, k);
    ApplyKeepsKeys(rs, cs);
    hide ApplyAll, Prune, Find;
    PruneAt(ApplyAll(rs, cs), k);
  }

  ghost predicate SparedUpTo(rs: seq<Record>, frames: seq<seq<Change>>, k: Key, n: nat)
    requires n <= |frames|
  {
    forall i :: 0 <= i < n ==> Spares(FoldAll(rs, frames[..i]), frames[i], k)
  }

  ghost predicate StaysUpTo(rs: seq<Record>, frames: seq<seq<Change>>, k: Key, n: nat)
    requires n <= |frames|
  {
    forall i :: 0 <= i <= n ==> Has(FoldAll(rs, frames[..i]), k)
  }

  /**
   Over any number of frames none of which deletes it, a resource of any kind stays throughout
   exactly if every frame spares it, and then its revision never drops.
   */
  lemma {:induction false} RevisionsNeverDrop(rs: seq<Record>, frames: seq<seq<Change>>, k: Key, n: nat)
    requires Distinct(rs) && Has(rs, k) && n <= |frames|
    requires forall i :: 0 <= i < |frames| ==> DeletesNone(frames[i], k)
    ensures StaysUpTo(rs, frames, k, n) <==> SparedUpTo(rs, frames, k, n)
    ensures StaysUpTo(rs, frames, k, n) ==> NoOlder(At(rs, k), At(FoldAll(rs, frames[..n]), k))
    ensures k.kind != Operation && k.kind != Run ==> StaysUpTo(rs, frames, k, n)
  {
    if n == 0 {
      assert frames[..0] == [];
    } else {
      var before := FoldAll(rs, frames[..n - 1]);
      FoldAllKeepsKeys(rs, frames[..n - 1]);
      OneMore(rs, frames, k, n);
      hide Fold, Find, Distinct, Spares, FoldAll, StaysUpTo, SparedUpTo;
      RevisionsNeverDrop(rs, frames, k, n - 1);
      if StaysUpTo(rs, frames, k, n - 1) { FoldRises(before, frames[n - 1], k); }
    }
  }

  lemma OneMore(rs: seq<Record>, frames: seq<seq<Change>>, k: Key, n: nat)
    requires 0 < n <= |frames|
    ensures FoldAll(rs, frames[..n]) == Fold(FoldAll(rs, frames[..n - 1]), frames[n - 1])
    ensures StaysUpTo(rs, frames, k, n) <==> StaysUpTo(rs, frames, k, n - 1) && Has(FoldAll(rs, frames[..n]), k)
    ensures StaysUpTo(rs, frames, k, n - 1) ==> Has(FoldAll(rs, frames[..n - 1]), k)
    ensures SparedUpTo(rs, frames, k, n) <==>
              SparedUpTo(rs, frames, k, n - 1) && Spares(FoldAll(rs, frames[..n - 1]), frames[n - 1], k)
  {
    assert frames[..n][..n - 1] == frames[..n - 1] && frames[..n][n - 1] == frames[n - 1];
    hide Fold, Find, Spares;
  }

  predicate Took(rs: seq<Record>, r: Record) {
    Has(rs, KeyOf(r)) && At(rs, KeyOf(r)) == r
  }

  /**
   What is not there is not remembered: an unfinished state of an operation sent in a frame of its
   own becomes the row, unless a newer row is there to hold it off.
   */
  lemma LateStateTakenExactly(rs: seq<Record>, late: Record)
    requires Distinct(rs) && late.body.OperationBody? && !late.body.final
    ensures Took(Fold(rs, [Upsert(late)]), late) <==> !Outdated(rs, late)
  {
    var cs, k := [Upsert(late)], KeyOf(late);
    assert cs[..0] == [] && ApplyAll(rs, cs) == Change1(ApplyAll(rs, []), cs[0]);
    ApplyKeepsKeys(rs, cs);
    var t := ApplyAll(rs, cs);
    if !Outdated(rs, late) {
      PutMembers(rs, late);
      MemberIsAt(t, late);
    }
    hide ApplyAll, Prune, Find;
    PruneAt(t, k);
  }

  lemma LateStateAfterFrame(rs: seq<Record>, cs: seq<Change>, late: Record)
    requires Distinct(rs) && Has(rs, KeyOf(late)) && late.body.OperationBody? && !late.body.final
    requires late.body.revision < At(rs, KeyOf(late)).body.revision && DeletesNone(cs, KeyOf(late))
    ensures Took(Fold(Fold(rs, cs), [Upsert(late)]), late) <==> !Spares(rs, cs, KeyOf(late))
  {
    hide Fold, Find, Distinct, Spares, DeletesNone;
    FoldKeepsKeys(rs, cs);
    FoldRises(rs, cs, KeyOf(late));
    LateStateTakenExactly(Fold(rs, cs), late);
  }

  /**
   So the frame after which a state older than the first row is taken, revision and all, is exactly
   the one that finishes the operation; until then the row holds it off.
   */
  lemma RevisionDropsExactly(rs: seq<Record>, frames: seq<seq<Change>>, late: Record)
    requires Distinct(rs) && Has(rs, KeyOf(late)) && late.body.OperationBody? && !late.body.final
    requires late.body.revision < At(rs, KeyOf(late)).body.revision
    requires forall i :: 0 <= i < |frames| ==> DeletesNone(frames[i], KeyOf(late))
    requires frames != [] && SparedUpTo(rs, frames, KeyOf(late), |frames| - 1)
    ensures var n := |frames| - 1;
            Took(Fold(FoldAll(rs, frames), [Upsert(late)]), late) <==>
              !Spares(FoldAll(rs, frames[..n]), frames[n], KeyOf(late))
  {
    var k, n := KeyOf(late), |frames| - 1;
    hide Fold, Find, Distinct, Spares, FoldAll, StaysUpTo, SparedUpTo, DeletesNone;
    assert frames[..|frames|] == frames;
    FoldAllKeepsKeys(rs, frames[..n]);
    RevisionsNeverDrop(rs, frames, k, n);
    OneMore(rs, frames, k, n + 1);
    assert Has(FoldAll(rs, frames[..n]), k);
    LateStateAfterFrame(FoldAll(rs, frames[..n]), frames[n], late);
  }

  /** One such case: a finished operation is pruned, and an older unfinished state is taken as new. */
  lemma FinishedOperationForgotten(id: Id, low: nat, high: nat, size: nat)
    requires low < high
    ensures var before := [Record(id, OperationBody(id, low, false), size)];
            var done := [Upsert(Record(id, OperationBody(id, high, true), size))];
            var late := [Upsert(Record(id, OperationBody(id, low, false), size))];
            FoldAll(before, [done]) == [] && FoldAll(before, [done, late]) == before
  {
    var stale := Record(id, OperationBody(id, low, false), size);
    var fin := Record(id, OperationBody(id, high, true), size);
    var before, done, late := [stale], [Upsert(fin)], [Upsert(stale)];
    assert done[..0] == [] && late[..0] == [] && before[..0] == [];
    assert ApplyAll(before, done) == Change1(ApplyAll(before, []), Upsert(fin));
    assert ApplyAll(before, done) == [fin];
    assert Select([fin][..0], (r: Record) => Kept([fin], r)) == [];
    assert Fold(before, done) == [];
    assert ApplyAll([], late) == Change1(ApplyAll([], []), Upsert(stale));
    assert ApplyAll([], late) == [stale];
    SelectAll([stale], (r: Record) => Kept([stale], r));
    assert Fold([], late) == [stale];
    var one, two := [done], [done, late];
    assert one[..0] == [] && two[..1] == one;
    assert FoldAll(before, one) == Fold(before, done);
    assert FoldAll(before, two) == Fold(FoldAll(before, one), late);
  }
}
