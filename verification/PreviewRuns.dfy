/** Every run of the preview client: its fences, its recent window and its byte reservations. */
module PreviewRuns {
  import opened Common
  import opened Preview

  /** One preview from its registration on, with the events it has heard; it is open until it has an outcome. */
  datatype Item = Item(key: Key, pending: Pending, outcome: Option<Outcome>, log: seq<Event>)

  datatype Recent = Recent(requestId: Id, key: Key, previewId: Option<Id>)

  /**
   `pending` names the open preview of a run by its index in `items`; `index` is the source's set of
   recent transfers; `used` the request IDs given out, each only once.
   */
  datatype State = State(
    items: seq<Item>,
    pending: map<Key, nat>,
    provisional: map<Key, nat>,
    quarantined: map<Key, Id>,
    recent: seq<Recent>,
    index: set<(Key, Id)>,
    retained: int,
    used: set<Id>,
    reservations: nat,
    maxRuns: nat,
    globalBytes: nat)

  const FENCE_LIMIT: nat := 256
  const RECENT_WINDOW: nat := 256

  function Begin(maxRuns: nat, globalBytes: nat): State {
    State([], map[], map[], map[], [], {}, 0, {}, 0, maxRuns, globalBytes)
  }

  predicate Wellformed(s: State) {
    forall k :: k in s.pending ==> s.pending[k] < |s.items| && s.items[s.pending[k]].key == k
                                   && s.items[s.pending[k]].outcome.None?
  }

  // ---- Steps ----

  predicate Admits(s: State, key: Key) {
    && key !in s.quarantined && key !in s.pending && key !in s.provisional
    && |s.pending| + |s.provisional| < s.maxRuns
    && |s.pending| + |s.provisional| + |s.quarantined| < FENCE_LIMIT
  }

  /** The run is claimed before the ID supplier, which may reenter. */
  function Reserve(s: State, key: Key): State {
    if !Admits(s, key) then s
    else s.(provisional := s.provisional[key := s.reservations], reservations := s.reservations + 1)
  }

  predicate Holds(s: State, key: Key, reservation: nat) {
    key in s.provisional && s.provisional[key] == reservation
  }

  function Abandon(s: State, key: Key, reservation: nat): State {
    if Holds(s, key, reservation) then s.(provisional := s.provisional - {key}) else s
  }

  function Register(s: State, key: Key, reservation: nat, requestId: Id, known: Option<nat>): State {
    if !Holds(s, key, reservation) || requestId in s.used then s
    else s.(provisional := s.provisional - {key},
            pending := s.pending[key := |s.items|],
            used := s.used + {requestId},
            items := s.items + [Item(key, Pending(requestId, known, false, false, None, None, 0), None, [])])
  }

  function Sent(s: State, key: Key): State
    requires Wellformed(s)
  {
    if key !in s.pending then s
    else Keep(s, s.pending[key], s.items[s.pending[key]].pending.(started := true), 0)
  }

  /** The open preview `h` goes on, with `more` bytes reserved. */
  function Keep(s: State, h: nat, p: Pending, more: int): State
    requires h < |s.items|
  {
    s.(items := s.items[h := s.items[h].(pending := p)], retained := s.retained + more)
  }

  /** Room for one more in the window, oldest out first, each with its index entry. */
  function Evict(s: State): State {
    if |s.recent| < RECENT_WINDOW then s
    else
      var r := s.recent[0];
      s.(recent := s.recent[1..],
         index := if r.previewId.Some? then s.index - {(r.key, r.previewId.value)} else s.index)
  }

  function Remember(s: State, r: Recent): State {
    var t := Evict(s);
    t.(recent := t.recent + [r],
       index := if r.previewId.Some? then t.index + {(r.key, r.previewId.value)} else t.index)
  }

  function TransferId(p: Pending): Option<Id> {
    if p.transfer.Some? then Some(p.transfer.value.previewId) else None
  }

  /** Uncertain, or failed with a transfer begun: its events may still come. */
  predicate Fences(p: Pending, o: Outcome) {
    o.Failed? && (o.uncertain || p.transfer.Some?)
  }

  function Finish(s: State, h: nat, p: Pending, o: Outcome): State
    requires h < |s.items|
  {
    var key := s.items[h].key;
    var t := s.(pending := s.pending - {key},
                items := s.items[h := s.items[h].(pending := p, outcome := Some(o))],
                retained := s.retained - s.items[h].pending.reserved);
    if Fences(p, o) then t.(quarantined := t.quarantined[key := p.requestId])
    else if p.observed then Remember(t, Recent(p.requestId, key, TransferId(p)))
    else t
  }

  predicate Obsolete(s: State, key: Key, previewId: Id) {
    (key, previewId) in s.index || key in s.quarantined
  }

  /** A transfer event of the run: `room` tells whether the lane has room for its bytes. */
  function Receive(s: State, key: Key, e: Event, room: bool): State
    requires Wellformed(s)
  {
    if IsReply(e) || Obsolete(s, key, e.previewId) || key !in s.pending then s
    else
      var h := s.pending[key];
      var fits := room && (e.Start? ==> s.retained + e.declared <= s.globalBytes);
      Settle(s, h, if e.Start? then e.(fits := e.fits && fits) else e)
  }

  function Logged(s: State, h: nat, e: Event): State
    requires h < |s.items|
  {
    s.(items := s.items[h := s.items[h].(log := s.items[h].log + [e])])
  }

  /** The open preview `h` hears an event and goes on or is finished by it. */
  function Settle(s: State, h: nat, e: Event): State
    requires h < |s.items|
  {
    var heard, t := Hear(s.items[h].pending, e), Logged(s, h, e);
    if heard.outcome.None? then Keep(t, h, heard.pending, heard.pending.reserved - s.items[h].pending.reserved)
    else Finish(t, h, heard.pending, heard.outcome.value)
  }

  /** The one reply of the request, unless it has been settled meanwhile. */
  function Reply(s: State, key: Key, e: Event): State
    requires Wellformed(s)
  {
    if !IsReply(e) || key !in s.pending || s.items[s.pending[key]].pending.result.Some? then s
    else Settle(s, s.pending[key], e)
  }

  /** A failure of the command, a timeout, or a reply that does not match. */
  function Fail(s: State, key: Key, uncertain: bool, observed: bool): State
    requires Wellformed(s)
  {
    if key !in s.pending then s
    else
      var p := s.items[s.pending[key]].pending;
      Finish(s, s.pending[key], p.(observed := p.observed || observed), Failed(uncertain))
  }

  /** What closing clears once every open preview has failed. */
  function Clear(s: State): State {
    s.(provisional := map[], recent := [], index := {}, quarantined := map[])
  }

  datatype Label =
    | Reserving(key: Key)
    | Abandoning(key: Key, reservation: nat)
    | Registering(key: Key, reservation: nat, requestId: Id, known: Option<nat>)
    | Sending(key: Key)
    | Receiving(key: Key, event: Event, room: bool)
    | Replying(key: Key, event: Event)
    | Failing(key: Key, uncertain: bool, observed: bool)
    | Closing

  function Step(s: State, l: Label): State
    requires Wellformed(s)
  {
    match l
    case Reserving(key) => Reserve(s, key)
    case Abandoning(key, r) => Abandon(s, key, r)
    case Registering(key, r, id, known) => Register(s, key, r, id, known)
    case Sending(key) => Sent(s, key)
    case Receiving(key, e, room) => Receive(s, key, e, room)
    case Replying(key, e) => Reply(s, key, e)
    case Failing(key, uncertain, observed) => Fail(s, key, uncertain, observed)
    case Closing => if s.pending == map[] then Clear(s) else s
  }

  // ---- The invariant ----

  function Reserved(i: Item): nat { if i.outcome.Some? then 0 else i.pending.reserved }

  /** Open previews are exactly the pending ones, and their reserved bytes add up. */
  ghost predicate Open(s: State) {
    && Wellformed(s)
    && (forall h :: 0 <= h < |s.items| && s.items[h].outcome.None? ==>
          s.items[h].key in s.pending && s.pending[s.items[h].key] == h)
    && s.retained == Sum(s.items, Reserved) && s.retained <= s.globalBytes
    && (forall h :: 0 <= h < |s.items| && s.items[h].outcome.None? ==> ReservedFor(s.items[h].pending))
  }

  predicate ReservedFor(p: Pending) {
    p.reserved == if p.transfer.Some? then p.transfer.value.declared else 0
  }

  /** A run is pending, provisional or quarantined, never two of these, and they are few. */
  ghost predicate Apart(s: State) {
    && (forall k :: k in s.pending ==> k !in s.provisional && k !in s.quarantined)
    && (forall k :: k in s.provisional ==> k !in s.quarantined)
    && |s.pending| + |s.provisional| + |s.quarantined| <= FENCE_LIMIT
  }

  /** The index holds exactly the transfers of the window, none of which an open preview has. */
  ghost predicate Indexed(s: State) {
    && |s.recent| <= RECENT_WINDOW
    && (forall k, id :: (k, id) in s.index <==> InWindow(s.recent, k, id))
    && (forall i, j :: 0 <= i < j < |s.recent| && s.recent[i].previewId.Some? && s.recent[j].previewId.Some? ==>
          (s.recent[i].key, s.recent[i].previewId) != (s.recent[j].key, s.recent[j].previewId))
    && (forall h :: 0 <= h < |s.items| && s.items[h].outcome.None? && s.items[h].pending.transfer.Some? ==>
          (s.items[h].key, s.items[h].pending.transfer.value.previewId) !in s.index)
  }

  predicate InWindow(recent: seq<Recent>, k: Key, id: Id) {
    exists i :: 0 <= i < |recent| && recent[i].key == k && recent[i].previewId == Some(id)
  }

  ghost predicate Inv(s: State) {
    Open(s) && Apart(s) && Indexed(s)
  }

  // ---- The window ----

  lemma EvictIndexed(s: State)
    requires Indexed(s)
    ensures Indexed(Evict(s)) && |Evict(s).recent| < RECENT_WINDOW
  {
    var t := Evict(s);
    if t != s {
      forall k, id ensures (k, id) in t.index <==> InWindow(t.recent, k, id) {
        if InWindow(t.recent, k, id) {
          var i :| 0 <= i < |t.recent| && t.recent[i].key == k && t.recent[i].previewId == Some(id);
          assert s.recent[i + 1] == t.recent[i];
        }
        if (k, id) in t.index {
          var i :| 0 <= i < |s.recent| && s.recent[i].key == k && s.recent[i].previewId == Some(id);
          assert i > 0 && t.recent[i - 1] == s.recent[i];
        }
      }
      assert forall i :: 0 <= i < |t.recent| ==> t.recent[i] == s.recent[i + 1];
    }
  }

  lemma RememberIndexed(s: State, r: Recent)
    requires Indexed(s) && (r.previewId.Some? ==> (r.key, r.previewId.value) !in s.index)
    requires forall h :: 0 <= h < |s.items| && s.items[h].outcome.None? ==> s.items[h].key != r.key
    ensures Indexed(Remember(s, r))
  {
    EvictIndexed(s);
    var t, u := Evict(s), Remember(s, r);
    assert t.index <= s.index;
    forall k, id ensures (k, id) in u.index <==> InWindow(u.recent, k, id) {
      if InWindow(t.recent, k, id) {
        var i :| 0 <= i < |t.recent| && t.recent[i].key == k && t.recent[i].previewId == Some(id);
        assert u.recent[i] == t.recent[i];
      }
      if r.key == k && r.previewId == Some(id) {
        assert u.recent[|t.recent|] == r;
      }
    }
    forall i | 0 <= i < |t.recent| && t.recent[i].previewId.Some? && r.previewId.Some?
      ensures (t.recent[i].key, t.recent[i].previewId) != (r.key, r.previewId)
    {
      assert InWindow(t.recent, t.recent[i].key, t.recent[i].previewId.value);
    }
  }

  // ---- One preview goes on or is settled ----

  /** What hearing an event does to the bytes a preview has reserved. */
  predicate HeardWell(s: State, h: nat, p: Pending)
    requires h < |s.items|
  {
    && p.requestId == s.items[h].pending.requestId && ReservedFor(p)
    && s.retained + p.reserved - s.items[h].pending.reserved <= s.globalBytes
    && (p.transfer.Some? ==> (s.items[h].key, p.transfer.value.previewId) !in s.index)
  }

  lemma KeepKeepsInv(s: State, h: nat, p: Pending)
    requires Inv(s) && h < |s.items| && s.items[h].outcome.None? && HeardWell(s, h, p)
    ensures Inv(Keep(s, h, p, p.reserved - s.items[h].pending.reserved))
  {
    KeepOpens(s, h, p);
    KeepIndexed(s, h, p);
    hide Open, Indexed;
  }

  lemma KeepOpens(s: State, h: nat, p: Pending)
    requires Open(s) && h < |s.items| && s.items[h].outcome.None? && HeardWell(s, h, p)
    ensures Open(Keep(s, h, p, p.reserved - s.items[h].pending.reserved))
  {
    SumUpdate(s.items, h, s.items[h].(pending := p), Reserved);
    hide Sum;
  }

  lemma KeepIndexed(s: State, h: nat, p: Pending)
    requires Indexed(s) && h < |s.items| && HeardWell(s, h, p)
    ensures Indexed(Keep(s, h, p, p.reserved - s.items[h].pending.reserved))
  {
  }

  lemma FinishOpens(s: State, h: nat, p: Pending, o: Outcome)
    requires Open(s) && h < |s.items| && s.items[h].outcome.None?
    ensures Open(Finish(s, h, p, o))
  {
    var t := Finish(s, h, p, o);
    var item := s.items[h].(pending := p, outcome := Some(o));
    SumUpdate(s.items, h, item, Reserved);
    assert t.items == s.items[h := item] && t.pending == s.pending - {s.items[h].key};
    hide Sum, ReservedFor, Finish;
  }

  lemma FinishApart(s: State, h: nat, p: Pending, o: Outcome)
    requires Apart(s) && h < |s.items| && s.items[h].key in s.pending
    ensures Apart(Finish(s, h, p, o))
  {
    var key := s.items[h].key;
    RemoveSize(s.pending, key);
    PutSize(s.quarantined, key, p.requestId);
  }

  lemma FinishIndexed(s: State, h: nat, p: Pending, o: Outcome)
    requires Open(s) && Indexed(s) && h < |s.items| && s.items[h].outcome.None?
    requires p.transfer.Some? ==> (s.items[h].key, p.transfer.value.previewId) !in s.index
    ensures Indexed(Finish(s, h, p, o))
  {
    var key := s.items[h].key;
    var t := s.(pending := s.pending - {key}, items := s.items[h := s.items[h].(pending := p, outcome := Some(o))],
                retained := s.retained - s.items[h].pending.reserved);
    assert Indexed(t);
    if !Fences(p, o) && p.observed {
      RememberIndexed(t, Recent(p.requestId, key, TransferId(p)));
    }
  }

  lemma FinishKeepsInv(s: State, h: nat, p: Pending, o: Outcome)
    requires Inv(s) && h < |s.items| && s.items[h].outcome.None?
    requires p.transfer.Some? ==> (s.items[h].key, p.transfer.value.previewId) !in s.index
    ensures Inv(Finish(s, h, p, o))
  {
    FinishOpens(s, h, p, o);
    FinishApart(s, h, p, o);
    FinishIndexed(s, h, p, o);
    hide Open, Apart, Indexed, Finish;
  }

  /** Hearing changes nothing of what identifies a preview, and reserves what it declares. */
  lemma HearReserves(p: Pending, e: Event)
    requires ReservedFor(p)
    ensures var q := Hear(p, e).pending;
            && q.requestId == p.requestId && ReservedFor(q)
            && (q.transfer.Some? && p.transfer.None? ==>
                  && e.Start? && e.fits && q.transfer.value.previewId == e.previewId
                  && q.reserved == e.declared && p.reserved == 0)
            && (p.transfer.Some? ==>
                  && q.transfer.Some? && q.transfer.value.previewId == p.transfer.value.previewId
                  && q.reserved == p.reserved)
  {
  }

  lemma HearIsWell(s: State, h: nat, e: Event)
    requires Inv(s) && h < |s.items| && s.items[h].outcome.None?
    requires e.Start? && e.fits ==>
               s.retained + e.declared <= s.globalBytes && (s.items[h].key, e.previewId) !in s.index
    ensures HeardWell(s, h, Hear(s.items[h].pending, e).pending)
  {
    assert ReservedFor(s.items[h].pending);
    HearReserves(s.items[h].pending, e);
    hide Hear, Sum, Apart, ReservedFor;
  }

  /** The log is only a record. */
  lemma LogKeepsInv(s: State, h: nat, e: Event)
    requires Inv(s) && h < |s.items|
    ensures Inv(Logged(s, h, e))
  {
    SumUpdate(s.items, h, s.items[h].(log := s.items[h].log + [e]), Reserved);
    hide Sum, ReservedFor;
  }

  lemma SettleKeepsInv(s: State, h: nat, e: Event)
    requires Inv(s) && h < |s.items| && s.items[h].outcome.None?
    requires e.Start? && e.fits ==>
               s.retained + e.declared <= s.globalBytes && (s.items[h].key, e.previewId) !in s.index
    ensures Inv(Settle(s, h, e))
  {
    hide Hear, Inv, ReservedFor, Keep, Finish;
    LogKeepsInv(s, h, e);
    var t := Logged(s, h, e);
    HearIsWell(t, h, e);
    var heard := Hear(s.items[h].pending, e);
    if heard.outcome.None? {
      KeepKeepsInv(t, h, heard.pending);
    } else {
      FinishKeepsInv(t, h, heard.pending, heard.outcome.value);
    }
  }

  // ---- Every step keeps the invariant ----

  /** The same previews and window. */
  lemma SameWindow(s: State, t: State)
    requires Open(s) && Indexed(s) && t.items == s.items && t.recent == s.recent && t.index == s.index
    requires t.pending == s.pending && t.retained == s.retained && t.globalBytes == s.globalBytes
    ensures Open(t) && Indexed(t)
  {
    hide Sum, ReservedFor;
  }

  lemma ReserveKeepsInv(s: State, key: Key)
    requires Inv(s)
    ensures Inv(Reserve(s, key))
  {
    PutSize(s.provisional, key, s.reservations);
    SameWindow(s, Reserve(s, key));
    hide Open, Indexed;
  }

  lemma AbandonKeepsInv(s: State, key: Key, r: nat)
    requires Inv(s)
    ensures Inv(Abandon(s, key, r))
  {
    RemoveSize(s.provisional, key);
    SameWindow(s, Abandon(s, key, r));
    hide Open, Indexed;
  }

  lemma RegisterKeepsInv(s: State, key: Key, r: nat, id: Id, known: Option<nat>)
    requires Inv(s)
    ensures Inv(Register(s, key, r, id, known))
  {
    if Holds(s, key, r) && id !in s.used {
      RegisterOpens(s, key, r, id, known);
      RegisterIndexed(s, key, r, id, known);
      RegisterApart(s, key, r, id, known);
      hide Open, Indexed, Apart;
    }
  }

  lemma RegisterOpens(s: State, key: Key, r: nat, id: Id, known: Option<nat>)
    requires Open(s) && Holds(s, key, r) && id !in s.used && key !in s.pending
    ensures Open(Register(s, key, r, id, known))
  {
    var item := Item(key, Pending(id, known, false, false, None, None, 0), None, []);
    var t := Register(s, key, r, id, known);
    SumAppend(s.items, item, Reserved);
    assert t.retained == Sum(t.items, Reserved);
    hide Sum;
    forall h | 0 <= h < |t.items| && t.items[h].outcome.None?
      ensures t.items[h].key in t.pending && t.pending[t.items[h].key] == h && ReservedFor(t.items[h].pending)
    {
      assert h < |s.items| ==> t.items[h] == s.items[h];
    }
    assert Wellformed(t);
  }

  lemma RegisterApart(s: State, key: Key, r: nat, id: Id, known: Option<nat>)
    requires Apart(s) && Holds(s, key, r)
    ensures Apart(Register(s, key, r, id, known))
  {
    RemoveSize(s.provisional, key);
    PutSize(s.pending, key, |s.items|);
  }

  lemma RegisterIndexed(s: State, key: Key, r: nat, id: Id, known: Option<nat>)
    requires Indexed(s)
    ensures Indexed(Register(s, key, r, id, known))
  {
  }

  lemma SentKeepsInv(s: State, key: Key)
    requires Inv(s)
    ensures Inv(Sent(s, key))
  {
    if key in s.pending {
      var h := s.pending[key];
      var p := s.items[h].pending.(started := true);
      assert ReservedFor(s.items[h].pending);
      assert HeardWell(s, h, p);
      hide Inv, ReservedFor;
      KeepKeepsInv(s, h, p);
    }
  }

  lemma FailKeepsInv(s: State, key: Key, uncertain: bool, observed: bool)
    requires Inv(s)
    ensures Inv(Fail(s, key, uncertain, observed))
  {
    if key in s.pending {
      var h := s.pending[key];
      assert s.items[h].pending.transfer.Some? ==> (key, s.items[h].pending.transfer.value.previewId) !in s.index;
      FinishKeepsInv(s, h, s.items[h].pending.(observed := s.items[h].pending.observed || observed), Failed(uncertain));
      hide Inv, Finish;
    }
  }

  lemma ReplyKeepsInv(s: State, key: Key, e: Event)
    requires Inv(s)
    ensures Inv(Reply(s, key, e))
  {
    if IsReply(e) && key in s.pending {
      SettleKeepsInv(s, s.pending[key], e);
    }
    hide Inv, Settle, Hear;
  }

  lemma InvIsWellformed(s: State)
    requires Inv(s)
    ensures Wellformed(s)
  {
  }

  lemma StepKeepsInv(s: State, l: Label)
    requires Inv(s)
    ensures Wellformed(s) && Inv(Step(s, l))
  {
    hide Inv, Wellformed, Reserve, Abandon, Register, Sent, Receive, Reply, Fail;
    InvIsWellformed(s);
    match l
    case Reserving(key) => ReserveKeepsInv(s, key);
    case Abandoning(key, r) => AbandonKeepsInv(s, key, r);
    case Registering(key, r, id, known) => RegisterKeepsInv(s, key, r, id, known);
    case Sending(key) => SentKeepsInv(s, key);
    case Receiving(key, e, room) => ReceiveKeepsInv(s, key, e, room);
    case Replying(key, e) => ReplyKeepsInv(s, key, e);
    case Failing(key, uncertain, observed) => FailKeepsInv(s, key, uncertain, observed);
    case Closing => if s.pending == map[] { ClearKeepsInv(s); }
  }

  lemma ReceiveKeepsInv(s: State, key: Key, e: Event, room: bool)
    requires Inv(s)
    ensures Inv(Receive(s, key, e, room))
  {
    if !IsReply(e) && !Obsolete(s, key, e.previewId) && key in s.pending {
      var fits := room && (e.Start? ==> s.retained + e.declared <= s.globalBytes);
      SettleKeepsInv(s, s.pending[key], if e.Start? then e.(fits := e.fits && fits) else e);
    }
    hide Inv, Settle, Hear;
  }

  lemma ClearKeepsInv(s: State)
    requires Inv(s) && s.pending == map[]
    ensures Inv(Clear(s))
  {
  }

  // ---- Runs ----

  ghost predicate Run(ws: seq<State>, ls: seq<Label>) {
    && |ws| == |ls| + 1
    && ws[0] == Begin(ws[0].maxRuns, ws[0].globalBytes)
    && forall i :: 0 <= i < |ls| ==> Follows(ws[i], ls[i], ws[i + 1])
  }

  predicate Follows(s: State, l: Label, t: State) {
    Wellformed(s) && t == Step(s, l)
  }

  lemma BeginIsInv(maxRuns: nat, globalBytes: nat)
    ensures Inv(Begin(maxRuns, globalBytes))
  {
  }

  /**
   In every run: bytes reserved are those of the open transfers, runs pending, provisional and
   quarantined are apart and at most 256, and the transfer set is the exact index of the window.
   */
  lemma {:induction false} RunKeepsInv(ws: seq<State>, ls: seq<Label>, n: nat)
    requires Run(ws, ls) && n < |ws|
    ensures Inv(ws[n])
  {
    hide Inv, Step, Wellformed;
    if n == 0 {
      BeginIsInv(ws[0].maxRuns, ws[0].globalBytes);
    } else {
      RunKeepsInv(ws, ls, n - 1);
      assert Follows(ws[n - 1], ls[n - 1], ws[n]);
      StepKeepsInv(ws[n - 1], ls[n - 1]);
    }
  }

  lemma FenceStep(s: State, l: Label, key: Key)
    requires Wellformed(s) && key in s.quarantined && !l.Closing?
    ensures key in Step(s, l).quarantined
  {
    hide Hear;
  }

  /** An uncertain run stays fenced until the connection is closed. */
  lemma {:induction false} FencedUntilClose(ws: seq<State>, ls: seq<Label>, key: Key, m: nat, n: nat)
    requires Run(ws, ls) && m <= n < |ws| && key in ws[m].quarantined
    requires forall k :: m <= k < n ==> !ls[k].Closing?
    ensures key in ws[n].quarantined && !Admits(ws[n], key) && forall id :: Obsolete(ws[n], key, id)
    decreases n
  {
    hide Step, Wellformed;
    if m < n {
      FencedUntilClose(ws, ls, key, m, n - 1);
      assert Follows(ws[n - 1], ls[n - 1], ws[n]);
      FenceStep(ws[n - 1], ls[n - 1], key);
    }
  }

  lemma FinishFences(s: State, h: nat, p: Pending, o: Outcome)
    requires h < |s.items|
    ensures Fences(p, o) ==> s.items[h].key in Finish(s, h, p, o).quarantined
    ensures Finish(s, h, p, o).items == s.items[h := s.items[h].(pending := p, outcome := Some(o))]
  {
  }

  lemma SettleFences(s: State, h: nat, e: Event)
    requires h < |s.items|
    ensures var t := Settle(s, h, e);
            && |t.items| == |s.items| && t.items[h].key == s.items[h].key
            && (forall i :: 0 <= i < |s.items| && i != h ==> t.items[i] == s.items[i])
            && (s.items[h].outcome.None? && FencedBy(t.items[h]) ==> s.items[h].key in t.quarantined)
  {
    hide Hear, Finish, Fences;
    var heard := Hear(s.items[h].pending, e);
    if heard.outcome.Some? {
      FinishFences(Logged(s, h, e), h, heard.pending, heard.outcome.value);
    }
  }

  /** The preview failed uncertain, or with a transfer begun. */
  predicate FencedBy(i: Item) {
    i.outcome.Some? && Fences(i.pending, i.outcome.value)
  }

  lemma FailureRaisesFence(s: State, l: Label, h: nat)
    requires Wellformed(s) && h < |s.items| && s.items[h].outcome.None?
    requires h < |Step(s, l).items| && FencedBy(Step(s, l).items[h])
    ensures s.items[h].key in Step(s, l).quarantined && !l.Closing?
  {
    hide Settle, Finish, Fences;
    match l
    case Receiving(key, e, room) =>
      if key in s.pending {
        var fits := room && (e.Start? ==> s.retained + e.declared <= s.globalBytes);
        SettleFences(s, s.pending[key], if e.Start? then e.(fits := e.fits && fits) else e);
      }
    case Replying(key, e) => if key in s.pending { SettleFences(s, s.pending[key], e); }
    case Failing(key, uncertain, observed) =>
      if key in s.pending {
        var p := s.items[s.pending[key]].pending;
        FinishFences(s, s.pending[key], p.(observed := p.observed || observed), Failed(uncertain));
      }
    case _ =>
  }

  /**
   Whatever made a preview fail uncertain, or with a transfer begun, an event, a reply or a failure of
   its command: its run is fenced from then on, and admits no new preview, until a close.
   */
  lemma UncertainFailureFences(ws: seq<State>, ls: seq<Label>, h: nat, m: nat, n: nat)
    requires Run(ws, ls) && m < n < |ws| && h < |ws[m].items| && h < |ws[m + 1].items|
    requires ws[m].items[h].outcome.None? && FencedBy(ws[m + 1].items[h])
    requires forall k :: m < k < n ==> !ls[k].Closing?
    ensures var key := ws[m].items[h].key;
            key in ws[n].quarantined && !Admits(ws[n], key) && forall id :: Obsolete(ws[n], key, id)
  {
    hide Step, Wellformed, FencedBy;
    assert Follows(ws[m], ls[m], ws[m + 1]);
    FailureRaisesFence(ws[m], ls[m], h);
    FencedUntilClose(ws, ls, ws[m].items[h].key, m + 1, n);
  }

  // ---- What a preview was told ----

  /**
   What an open preview has heard adds up so far, and a preview completed with a transfer exactly if
   what it heard delivers that transfer: its own result names it and its declared bytes arrived once.
   */
  ghost predicate Told(i: Item) {
    && (i.outcome.None? ==> Consistent(i.pending, i.log))
    && (forall t :: i.outcome == Some(Transferred(t)) <==> Delivers(i.log, t))
    && (i.outcome.Some? && i.outcome.value.Transferred? ==> i.pending.transfer == Some(i.outcome.value.transfer))
  }

  ghost predicate AllTold(s: State) {
    forall h :: 0 <= h < |s.items| ==> Told(s.items[h])
  }

  /** A log that has heard the start has it from the transfer at hand. */
  lemma HeardStart(p: Pending, es: seq<Event>, t: Transfer)
    requires Consistent(p, es)
    requires Transfers(es) != [] && Transfers(es)[0] == Start(t.previewId, t.version, t.atSeq, t.declared, true)
    ensures p.transfer.Some?
    ensures var n := |Transfers(es)|;
            p.transfer.value == t.(bytes := if n >= 2 then Some(t.declared) else None, ended := n >= 3)
  {
    hide Transfers, Replies;
    var x := p.transfer.value;
    assert Transfers(es)[0] == Start(x.previewId, x.version, x.atSeq, x.declared, true);
  }

  lemma HeardReply(p: Pending, es: seq<Event>, id: Id, version: nat)
    requires Consistent(p, es) && Replies(es) == [ResultTransfer(id, version)]
    ensures p.result == Some(Named(id, version))
  {
    hide Transfers, Replies;
    assert p.result.Some? && Replies(es)[0] == ResultTransfer(p.result.value.previewId, p.result.value.version);
  }

  /** The event that makes a log deliver completes its preview. */
  lemma DeliveryCompletes(p: Pending, es: seq<Event>, e: Event, t: Transfer)
    requires Consistent(p, es) && Delivers(es + [e], t)
    ensures Hear(p, e).outcome == Some(Transferred(t))
  {
    SnocLogs(es, e);
    hide Transfers, Replies;
    if IsReply(e) {
      assert Transfers(es + [e]) == Transfers(es);
      assert Transfers(es)[0] == Start(t.previewId, t.version, t.atSeq, t.declared, true);
      HeardStart(p, es, t);
      assert (Replies(es) + [e])[|Replies(es)|] == e;
    } else {
      var all := Transfers(es) + [e];
      assert all[2] == e && Transfers(es) == all[..2] && Transfers(es)[0] == all[0];
      HeardStart(p, es, t);
      HeardReply(p, es, t.previewId, t.version);
    }
    hide Consistent;
  }

  lemma HearTells(p: Pending, es: seq<Event>, e: Event)
    requires Consistent(p, es) && (IsReply(e) ==> p.result.None?)
    ensures var h := Hear(p, e);
            && (h.outcome.None? ==> Consistent(h.pending, es + [e]))
            && (forall t :: h.outcome == Some(Transferred(t)) <==> Delivers(es + [e], t))
            && (h.outcome.Some? && h.outcome.value.Transferred? ==>
                  h.pending.transfer == Some(h.outcome.value.transfer))
  {
    if IsReply(e) {
      SnocLogs(es, e);
      HearReply(p, es, e);
    } else {
      HearTransfer(p, es, e);
    }
    forall t | Delivers(es + [e], t) ensures Hear(p, e).outcome == Some(Transferred(t)) {
      DeliveryCompletes(p, es, e, t);
    }
    hide Delivers, Consistent;
  }

  lemma SettleTells(s: State, h: nat, e: Event)
    requires AllTold(s) && h < |s.items| && s.items[h].outcome.None?
    requires IsReply(e) ==> s.items[h].pending.result.None?
    ensures AllTold(Settle(s, h, e))
  {
    assert Told(s.items[h]);
    HearTells(s.items[h].pending, s.items[h].log, e);
    hide Hear, Consistent, Delivers;
    var t := Settle(s, h, e);
    SettleItems(s, h, e);
    hide Settle;
    assert Told(t.items[h]);
  }

  lemma SettleItems(s: State, h: nat, e: Event)
    requires h < |s.items|
    ensures var heard, i := Hear(s.items[h].pending, e), s.items[h];
            Settle(s, h, e).items ==
              s.items[h := i.(pending := heard.pending, log := i.log + [e],
                              outcome := if heard.outcome.Some? then heard.outcome else i.outcome)]
  {
    hide Hear;
  }

  lemma FailTells(s: State, key: Key, uncertain: bool, observed: bool)
    requires Wellformed(s) && AllTold(s)
    ensures AllTold(Fail(s, key, uncertain, observed))
  {
    if key in s.pending {
      var h := s.pending[key];
      assert Told(s.items[h]);
      hide Consistent, Delivers;
      assert Told(Fail(s, key, uncertain, observed).items[h]);
    }
  }

  lemma ReceiveTells(s: State, key: Key, e: Event, room: bool)
    requires Wellformed(s) && AllTold(s)
    ensures AllTold(Receive(s, key, e, room))
  {
    if key in s.pending && !IsReply(e) {
      hide Settle, Hear, Told;
      var fits := room && (e.Start? ==> s.retained + e.declared <= s.globalBytes);
      SettleTells(s, s.pending[key], if e.Start? then e.(fits := e.fits && fits) else e);
    }
  }

  lemma ReplyTells(s: State, key: Key, e: Event)
    requires Wellformed(s) && AllTold(s)
    ensures AllTold(Reply(s, key, e))
  {
    hide Settle, Hear, Told;
    if key in s.pending && s.items[s.pending[key]].pending.result.None? {
      SettleTells(s, s.pending[key], e);
    }
  }

  lemma StepTells(s: State, l: Label)
    requires Wellformed(s) && AllTold(s)
    ensures AllTold(Step(s, l))
  {
    hide Wellformed, AllTold, Reserve, Abandon, Register, Sent, Receive, Reply, Fail;
    match l
    case Registering(key, r, id, known) => RegisterTells(s, key, r, id, known);
    case Sending(key) => SentTells(s, key);
    case Receiving(key, e, room) => ReceiveTells(s, key, e, room);
    case Replying(key, e) => ReplyTells(s, key, e);
    case Failing(key, uncertain, observed) => FailTells(s, key, uncertain, observed);
    case _ =>
      SameItemsStep(s, l);
      SameItemsTold(s, Step(s, l));
  }

  lemma SameItemsStep(s: State, l: Label)
    requires Wellformed(s) && (l.Reserving? || l.Abandoning? || l.Closing?)
    ensures Step(s, l).items == s.items
  {
  }

  lemma SameItemsTold(s: State, t: State)
    requires AllTold(s) && t.items == s.items
    ensures AllTold(t)
  {
  }

  lemma RegisterTells(s: State, key: Key, r: nat, id: Id, known: Option<nat>)
    requires AllTold(s)
    ensures AllTold(Register(s, key, r, id, known))
  {
    var item := Item(key, Pending(id, known, false, false, None, None, 0), None, []);
    assert Told(item);
    hide Told;
  }

  lemma SentTells(s: State, key: Key)
    requires Wellformed(s) && AllTold(s)
    ensures AllTold(Sent(s, key))
  {
    if key in s.pending {
      var h := s.pending[key];
      assert Told(s.items[h]);
      hide Delivers;
      assert Told(Sent(s, key).items[h]);
    }
  }

  lemma {:induction false} RunTells(ws: seq<State>, ls: seq<Label>, n: nat)
    requires Run(ws, ls) && n < |ws|
    ensures AllTold(ws[n])
  {
    hide Step, Wellformed, Told;
    if n > 0 {
      RunTells(ws, ls, n - 1);
      assert Follows(ws[n - 1], ls[n - 1], ws[n]);
      StepTells(ws[n - 1], ls[n - 1]);
    }
  }

  /**
   In every run, with any number of previews in flight: a preview completes with a transfer if and
   only if it has heard a result of its own naming that preview and version, and the start, the one
   chunk of the declared size and the end of it, each once and in order.
   */
  lemma CompletedAsNamed(ws: seq<State>, ls: seq<Label>, n: nat, h: nat, t: Transfer)
    requires Run(ws, ls) && n < |ws| && h < |ws[n].items|
    ensures ws[n].items[h].outcome == Some(Transferred(t)) <==> Delivers(ws[n].items[h].log, t)
  {
    RunTells(ws, ls, n);
    assert Told(ws[n].items[h]);
    hide Delivers, Run;
  }
}
