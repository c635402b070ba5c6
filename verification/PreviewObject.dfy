/** The preview client as the object the source writes, its methods proved to take its steps. */
module PreviewObject {
  import opened Common
  import opened Preview
  import opened PreviewRuns

  class TerminalPreview {
    var items: seq<Item>
    var pending: map<Key, nat>
    var provisional: map<Key, nat>
    var quarantined: map<Key, Id>
    var recent: seq<Recent>
    var index: set<(Key, Id)>
    var retained: int
    var used: set<Id>
    var reservations: nat
    const maxRuns: nat
    const globalBytes: nat

    ghost function Value(): State
      reads this
    {
      State(items, pending, provisional, quarantined, recent, index, retained, used, reservations, maxRuns, globalBytes)
    }

    constructor (maxRuns: nat, globalBytes: nat)
      ensures Value() == Begin(maxRuns, globalBytes)
    {
      items, pending, provisional, quarantined := [], map[], map[], map[];
      recent, index, retained, used, reservations := [], {}, 0, {}, 0;
      this.maxRuns, this.globalBytes := maxRuns, globalBytes;
    }

    method Claim(key: Key) returns (reservation: Option<nat>)
      modifies this
      ensures Value() == Reserve(old(Value()), key)
      ensures reservation == if Admits(old(Value()), key) then Some(old(reservations)) else None
    {
      if key in quarantined || key in pending || key in provisional || |pending| + |provisional| >= maxRuns
         || |pending| + |provisional| + |quarantined| >= FENCE_LIMIT {
        return None;
      }
      reservation := Some(reservations);
      provisional := provisional[key := reservations];
      reservations := reservations + 1;
    }

    /** Makes room, oldest first, then adds the settled preview and its index entry. */
    method RememberSettled(r: Recent)
      requires |recent| <= RECENT_WINDOW
      modifies this`recent, this`index
      ensures Value() == Remember(old(Value()), r)
    {
      while |recent| >= RECENT_WINDOW
        invariant |recent| <= RECENT_WINDOW
        invariant |recent| == RECENT_WINDOW ==> recent == old(recent) && index == old(index)
        invariant |recent| < RECENT_WINDOW ==> Value() == Evict(old(Value()))
      {
        var oldest := recent[0];
        recent := recent[1..];
        if oldest.previewId.Some? {
          index := index - {(oldest.key, oldest.previewId.value)};
        }
      }
      recent := recent + [r];
      if r.previewId.Some? {
        index := index + {(r.key, r.previewId.value)};
      }
    }

    method FinishPreview(h: nat, p: Pending, o: Outcome)
      requires h < |items| && |recent| <= RECENT_WINDOW
      modifies this
      ensures Value() == Finish(old(Value()), h, p, o)
    {
      var key := items[h].key;
      retained := retained - items[h].pending.reserved;
      pending := pending - {key};
      items := items[h := items[h].(pending := p, outcome := Some(o))];
      if o.Failed? && (o.uncertain || p.transfer.Some?) {
        quarantined := quarantined[key := p.requestId];
      } else if p.observed {
        RememberSettled(Recent(p.requestId, key, TransferId(p)));
      }
    }

    /** Fails every open preview, uncertain where it had been sent, and forgets every fence. */
    method Close()
      requires Inv(Value())
      modifies this
      ensures Inv(Value()) && |items| == |old(items)|
      ensures forall h :: 0 <= h < |items| ==>
                items[h] == if old(items)[h].outcome.Some? then old(items)[h]
                            else old(items)[h].(outcome := Some(Failed(old(items)[h].pending.started)))
      ensures pending == map[] && provisional == map[] && quarantined == map[] && recent == [] && index == {}
      ensures retained == 0
    {
      hide Inv;
      FailOpen();
      AllSettled(Value());
      ghost var s := Value();
      provisional, recent, index, quarantined := map[], [], {}, map[];
      ClearKeepsInv(s);
    }

    method FailOpen()
      requires Inv(Value())
      modifies this
      ensures Inv(Value()) && |items| == |old(items)|
      ensures forall h :: 0 <= h < |items| ==>
                items[h] == if old(items)[h].outcome.Some? then old(items)[h]
                            else old(items)[h].(outcome := Some(Failed(old(items)[h].pending.started)))
    {
      hide Inv, Finish;
      for i := 0 to |items|
        invariant Inv(Value()) && |items| == |old(items)|
        invariant forall h :: i <= h < |items| ==> items[h] == old(items)[h]
        invariant forall h :: 0 <= h < i ==>
                    items[h] == if old(items)[h].outcome.Some? then old(items)[h]
                                else old(items)[h].(outcome := Some(Failed(old(items)[h].pending.started)))
      {
        if items[i].outcome.None? {
          OpenFacts(Value(), i);
          FinishKeepsInv(Value(), i, items[i].pending, Failed(items[i].pending.started));
          FinishItems(Value(), i, items[i].pending, Failed(items[i].pending.started));
          FinishPreview(i, items[i].pending, Failed(items[i].pending.started));
        }
      }
    }
  }

  lemma OpenFacts(s: State, h: nat)
    requires Inv(s) && h < |s.items| && s.items[h].outcome.None?
    ensures |s.recent| <= RECENT_WINDOW
    ensures s.items[h].pending.transfer.Some? ==>
              (s.items[h].key, s.items[h].pending.transfer.value.previewId) !in s.index
  {
  }

  lemma FinishItems(s: State, h: nat, p: Pending, o: Outcome)
    requires h < |s.items|
    ensures Finish(s, h, p, o).items == s.items[h := s.items[h].(pending := p, outcome := Some(o))]
  {
  }

  lemma {:induction false} NothingReserved(items: seq<Item>)
    requires forall h :: 0 <= h < |items| ==> items[h].outcome.Some?
    ensures Sum(items, Reserved) == 0
  {
    if items != [] {
      NothingReserved(items[..|items| - 1]);
    }
  }

  lemma AllSettled(s: State)
    requires Inv(s) && forall h :: 0 <= h < |s.items| ==> s.items[h].outcome.Some?
    ensures s.pending == map[] && s.retained == 0
  {
    NothingReserved(s.items);
    assert s.pending.Keys == {};
  }
}
