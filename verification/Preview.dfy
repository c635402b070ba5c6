/**
 Preview transfers: pictures of a run fetched over the ordered lane. Their events name a run and a
 preview but no request, so an uncertain preview fences its run until the connection is replaced.
 */
module Preview {
  import opened Common

  type Key = string
  type Id = string

  /** A transfer as far as it has arrived; `bytes` is the size of its one chunk. */
  datatype Transfer = Transfer(
    previewId: Id, version: nat, atSeq: nat, declared: nat, bytes: Option<nat>, ended: bool)

  datatype Named = Named(previewId: Id, version: nat)

  datatype Pending = Pending(
    requestId: Id, known: Option<nat>, started: bool, observed: bool,
    result: Option<Named>, transfer: Option<Transfer>, reserved: nat)

  datatype Outcome = Unchanged(version: nat) | Transferred(transfer: Transfer) | Failed(uncertain: bool)

  /** What a pending preview can hear, in any order. `fits`: there is room for the declared bytes. */
  datatype Event =
    | Start(previewId: Id, version: nat, atSeq: nat, declared: nat, fits: bool)
    | Chunk(previewId: Id, version: nat, size: nat)
    | End(previewId: Id, version: nat, total: nat, atSeq: nat)
    | ResultTransfer(previewId: Id, version: nat)
    | ResultUnchanged(version: nat)

  /** The preview after an event, and its outcome if that settles it. */
  datatype Heard = Heard(pending: Pending, outcome: Option<Outcome>)

  function Invalid(p: Pending): Heard { Heard(p, Some(Failed(p.started))) }

  function Complete(p: Pending): Heard {
    if p.transfer.None? || !p.transfer.value.ended || p.result.None? then Heard(p, None)
    else
      var t, r := p.transfer.value, p.result.value;
      if t.previewId != r.previewId || t.version != r.version || t.bytes.None? then Invalid(p)
      else Heard(p, Some(Transferred(t)))
  }

  function Hear(p: Pending, e: Event): Heard {
    match e
    case Start(id, version, atSeq, declared, fits) =>
      if p.transfer.Some? || (p.result.Some? && p.result.value.previewId != id) then Invalid(p)
      else if !fits then Invalid(p)
      else Heard(p.(transfer := Some(Transfer(id, version, atSeq, declared, None, false)), reserved := declared), None)
    case Chunk(id, version, size) =>
      if !Matches(p, id, version) || p.transfer.value.bytes.Some? || size != p.transfer.value.declared then Invalid(p)
      else Heard(p.(transfer := Some(p.transfer.value.(bytes := Some(size)))), None)
    case End(id, version, total, atSeq) =>
      if !Matches(p, id, version) || p.transfer.value.ended || p.transfer.value.bytes.None?
         || total != p.transfer.value.declared || atSeq != p.transfer.value.atSeq then Invalid(p)
      else Complete(p.(transfer := Some(p.transfer.value.(ended := true))))
    case ResultTransfer(id, version) =>
      var q := p.(observed := true);
      if p.transfer.Some? && p.transfer.value.previewId != id then Invalid(q)
      else Complete(q.(result := Some(Named(id, version))))
    case ResultUnchanged(version) =>
      var q := p.(observed := true);
      if p.known != Some(version) || p.transfer.Some? then Invalid(q)
      else Heard(q, Some(Unchanged(version)))
  }

  predicate Matches(p: Pending, id: Id, version: nat) {
    p.transfer.Some? && p.transfer.value.previewId == id && p.transfer.value.version == version
  }

  // ---- When a transfer completes ----

  function Fresh(requestId: Id, known: Option<nat>): Pending {
    Pending(requestId, known, true, false, None, None, 0)
  }

  /** The events heard in order, up to the one that settles. The lane gives a request one reply. */
  function HearAll(p: Pending, es: seq<Event>): Heard {
    if es == [] then Heard(p, None)
    else
      var h := HearAll(p, es[..|es| - 1]);
      if h.outcome.Some? then h else Hear(h.pending, es[|es| - 1])
  }

  /** The transfer events of a log, and its replies. */
  function Transfers(es: seq<Event>): seq<Event> {
    if es == [] then []
    else
      var e := es[|es| - 1];
      Transfers(es[..|es| - 1]) + if e.ResultTransfer? || e.ResultUnchanged? then [] else [e]
  }

  function Replies(es: seq<Event>): seq<Event> {
    if es == [] then []
    else
      var e := es[|es| - 1];
      Replies(es[..|es| - 1]) + if e.ResultTransfer? || e.ResultUnchanged? then [e] else []
  }

  /** A log in which the declared bytes of the transfer its own result names arrived once. */
  predicate Delivers(es: seq<Event>, t: Transfer) {
    && t.bytes == Some(t.declared) && t.ended
    && Transfers(es) == [Start(t.previewId, t.version, t.atSeq, t.declared, true),
                         Chunk(t.previewId, t.version, t.declared),
                         End(t.previewId, t.version, t.declared, t.atSeq)]
    && Replies(es) == [ResultTransfer(t.previewId, t.version)]
  }

  /** What a preview that is still open has heard. */
  predicate Consistent(p: Pending, es: seq<Event>) {
    && (p.transfer.None? ==> Transfers(es) == [])
    && (p.transfer.Some? ==>
          var t := p.transfer.value;
          var start := Start(t.previewId, t.version, t.atSeq, t.declared, true);
          var chunk := Chunk(t.previewId, t.version, t.declared);
          var end := End(t.previewId, t.version, t.declared, t.atSeq);
          && (t.bytes.Some? ==> t.bytes.value == t.declared)
          && (t.ended ==> t.bytes.Some? && Transfers(es) == [start, chunk, end])
          && (!t.ended && t.bytes.Some? ==> Transfers(es) == [start, chunk])
          && (t.bytes.None? ==> Transfers(es) == [start]))
    && (p.result.None? ==> Replies(es) == [])
    && (p.result.Some? ==> Replies(es) == [ResultTransfer(p.result.value.previewId, p.result.value.version)])
  }

  lemma SnocLogs(es: seq<Event>, e: Event)
    ensures var reply := e.ResultTransfer? || e.ResultUnchanged?;
            && Transfers(es + [e]) == Transfers(es) + (if reply then [] else [e])
            && Replies(es + [e]) == Replies(es) + (if reply then [e] else [])
  {
    assert (es + [e])[..|es|] == es;
  }

  /** One reply per request, as the lane settles each command once. */
  predicate OneReply(es: seq<Event>) { |Replies(es)| <= 1 }

  predicate Sound(h: Heard, es: seq<Event>) {
    && (h.outcome.None? ==> Consistent(h.pending, es))
    && (h.outcome.Some? && h.outcome.value.Transferred? ==> Delivers(es, h.outcome.value.transfer))
  }

  lemma HearTransfer(p: Pending, es: seq<Event>, e: Event)
    requires Consistent(p, es) && (e.Start? || e.Chunk? || e.End?)
    ensures Sound(Hear(p, e), es + [e])
  {
    SnocLogs(es, e);
    hide Transfers, Replies;
  }

  lemma HearReply(p: Pending, es: seq<Event>, e: Event)
    requires Consistent(p, es) && (e.ResultTransfer? || e.ResultUnchanged?) && OneReply(es + [e])
    ensures Sound(Hear(p, e), es + [e])
  {
    SnocLogs(es, e);
    hide Transfers, Replies;
    assert p.result.None?;
  }

  /** A preview completes with a transfer only if its log delivers that transfer. */
  lemma {:induction false} CompletesOnlyIfDelivered(requestId: Id, known: Option<nat>, es: seq<Event>)
    requires OneReply(es)
    ensures var h := HearAll(Fresh(requestId, known), es);
            && (h.outcome.None? ==> Consistent(h.pending, es))
            && (h.outcome.Some? && h.outcome.value.Transferred? ==>
                  exists n :: 0 <= n <= |es| && Delivers(es[..n], h.outcome.value.transfer))
  {
    if es != [] {
      var n := |es| - 1;
      SnocLogs(es[..n], es[n]);
      assert es == es[..n] + [es[n]] && es[..|es|] == es;
      hide Transfers, Replies, Delivers, Hear, Consistent;
      CompletesOnlyIfDelivered(requestId, known, es[..n]);
      var h := HearAll(Fresh(requestId, known), es[..n]);
      if h.outcome.None? {
        if es[n].ResultTransfer? || es[n].ResultUnchanged? {
          HearReply(h.pending, es[..n], es[n]);
        } else {
          HearTransfer(h.pending, es[..n], es[n]);
        }
      } else if h.outcome.value.Transferred? {
        var m :| 0 <= m <= n && Delivers(es[..n][..m], h.outcome.value.transfer);
        assert es[..n][..m] == es[..m];
      }
    }
  }

  function Expected(t: Transfer): seq<Event> {
    [Start(t.previewId, t.version, t.atSeq, t.declared, true), Chunk(t.previewId, t.version, t.declared),
     End(t.previewId, t.version, t.declared, t.atSeq)]
  }

  /** A preview that has heard the first `k` events of its transfer and, perhaps, its result. */
  function Track(p: Pending, t: Transfer, k: nat, replied: bool): Pending {
    p.(observed := p.observed || replied,
       result := if replied then Some(Named(t.previewId, t.version)) else p.result,
       transfer := if k == 0 then None
                   else Some(t.(bytes := if k >= 2 then Some(t.declared) else None, ended := k >= 3)),
       reserved := if k == 0 then p.reserved else t.declared)
  }

  predicate IsReply(e: Event) { e.ResultTransfer? || e.ResultUnchanged? }

  lemma NextTransfer(front: seq<Event>, e: Event, t: Transfer)
    requires !IsReply(e) && Transfers(front + [e]) <= Expected(t)
    ensures Transfers(front) <= Expected(t) && Replies(front + [e]) == Replies(front)
    ensures |Transfers(front + [e])| == |Transfers(front)| + 1
    ensures |Transfers(front)| < 3 && Expected(t)[|Transfers(front)|] == e
  {
    SnocLogs(front, e);
    hide Transfers, Replies;
    PrefixSnoc(Transfers(front), e, Expected(t));
  }

  lemma NextReply(front: seq<Event>, e: Event, t: Transfer)
    requires IsReply(e) && Replies(front + [e]) <= [ResultTransfer(t.previewId, t.version)]
    ensures Transfers(front + [e]) == Transfers(front)
    ensures |Replies(front)| == 0 && |Replies(front + [e])| == 1 && e == ResultTransfer(t.previewId, t.version)
  {
    SnocLogs(front, e);
    hide Transfers, Replies;
    PrefixSnoc(Replies(front), e, [ResultTransfer(t.previewId, t.version)]);
  }

  lemma PrefixSnoc(a: seq<Event>, e: Event, b: seq<Event>)
    requires a + [e] <= b
    ensures |a| < |b| && b[|a|] == e
  {
    assert (a + [e])[|a|] == e;
  }

  lemma TrackHearsTransfer(p: Pending, t: Transfer, k: nat, replied: bool)
    requires p.transfer.None? && p.result.None? && k < 3
    ensures var h := Hear(Track(p, t, k, replied), Expected(t)[k]);
            if k == 2 && replied then h.outcome == Some(Transferred(t.(bytes := Some(t.declared), ended := true)))
            else h == Heard(Track(p, t, k + 1, replied), None)
  {
  }

  lemma TrackHearsReply(p: Pending, t: Transfer, k: nat)
    requires p.transfer.None? && p.result.None? && k <= 3
    ensures var h := Hear(Track(p, t, k, false), ResultTransfer(t.previewId, t.version));
            if k == 3 then h.outcome == Some(Transferred(t.(bytes := Some(t.declared), ended := true)))
            else h == Heard(Track(p, t, k, true), None)
  {
  }

  /** One more event of a complete log. */
  lemma TrackHears(p: Pending, front: seq<Event>, e: Event, t: Transfer)
    requires p.transfer.None? && p.result.None?
    requires Transfers(front + [e]) <= Expected(t) && Replies(front + [e]) <= [ResultTransfer(t.previewId, t.version)]
    requires HearAll(p, front) == Heard(Track(p, t, |Transfers(front)|, |Replies(front)| == 1), None)
    ensures var es := front + [e];
            var h := HearAll(p, es);
            if |Transfers(es)| == 3 && |Replies(es)| == 1
            then h.outcome == Some(Transferred(t.(bytes := Some(t.declared), ended := true)))
            else h == Heard(Track(p, t, |Transfers(es)|, |Replies(es)| == 1), None)
  {
    var k := |Transfers(front)|;
    HearSnoc(p, front, e);
    if IsReply(e) {
      NextReply(front, e, t);
      SnocLogs(front, e);
      hide Transfers, Replies, Track, Hear, HearAll;
      TrackHearsReply(p, t, k);
    } else {
      NextTransfer(front, e, t);
      SnocLogs(front, e);
      hide Transfers, Replies, Track, Hear, HearAll;
      TrackHearsTransfer(p, t, k, |Replies(front)| == 1);
    }
  }

  lemma HearSnoc(p: Pending, es: seq<Event>, e: Event)
    requires HearAll(p, es).outcome.None?
    ensures HearAll(p, es + [e]) == Hear(HearAll(p, es).pending, e)
  {
    assert (es + [e])[..|es|] == es;
  }

  /** Whatever part of a complete log has been heard, the preview is open and on track. */
  lemma {:induction false} OnTrack(p: Pending, es: seq<Event>, t: Transfer)
    requires p.transfer.None? && p.result.None?
    requires Transfers(es) <= Expected(t) && Replies(es) <= [ResultTransfer(t.previewId, t.version)]
    requires |Transfers(es)| < 3 || |Replies(es)| < 1
    ensures HearAll(p, es) == Heard(Track(p, t, |Transfers(es)|, |Replies(es)| == 1), None)
  {
    if es != [] {
      var n := |es| - 1;
      var front, e := es[..n], es[n];
      SnocLogs(front, e);
      assert es == front + [e];
      hide Transfers, Replies, HearAll, Track;
      OnTrack(p, front, t);
      TrackHears(p, front, e, t);
    }
  }

  /** And if its log delivers a transfer, wherever the result comes among the events, it completes. */
  lemma DeliveredCompletes(requestId: Id, known: Option<nat>, es: seq<Event>, t: Transfer)
    requires Delivers(es, t)
    ensures HearAll(Fresh(requestId, known), es).outcome == Some(Transferred(t))
  {
    assert es != [];
    var n := |es| - 1;
    var front, e := es[..n], es[n];
    SnocLogs(front, e);
    assert es == front + [e];
    hide Transfers, Replies, HearAll, Track;
    OnTrack(Fresh(requestId, known), front, t);
    TrackHears(Fresh(requestId, known), front, e, t);
  }
}
