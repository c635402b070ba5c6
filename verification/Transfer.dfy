/**
 Baseline transfers: the descriptor check, the check of a whole transfer and the controller's own
 check chunk by chunk as the transfer streams in.
 */
module Transfer {
  import opened Common

  const MAX_CHUNK: nat := 65536
  const MAX_VT_BYTES: nat := 8388608
  const MAX_TAIL_BYTES: nat := 65536
  const MAX_CHUNKS: nat := 129
  const MAX_HISTORY: nat := 1000

  datatype Grid = Grid(cols: nat, rows: nat)

  datatype Descriptor = Descriptor(
    baselineId: string,
    run: RunRef,
    subscription: SubscriptionRef,
    checkpointSeq: nat,
    atSeq: nat,
    captured: Grid,
    current: Grid,
    includedLines: nat,
    historyLines: nat,
    epoch: nat,
    holder: Option<Holder>,
    vtBytes: nat,
    tailBytes: nat,
    chunkCount: nat)

  datatype Chunk = Chunk(run: RunRef, baselineId: string, subscription: SubscriptionRef, ordinal: nat, size: nat)

  datatype End = End(
    run: RunRef, baselineId: string, subscription: SubscriptionRef, chunkCount: nat, totalBytes: nat, atSeq: nat)

  function Total(d: Descriptor): nat { d.vtBytes + d.tailBytes }

  /** The count of chunks can carry the bytes: none empty, none above the limit. */
  predicate CountFits(count: nat, total: nat) {
    count <= total && total <= count * MAX_CHUNK
  }

  predicate ValidDescriptor(d: Descriptor, historyLimit: nat) {
    && historyLimit <= MAX_HISTORY
    && 1 <= d.vtBytes <= MAX_VT_BYTES && d.tailBytes <= MAX_TAIL_BYTES && 1 <= d.chunkCount <= MAX_CHUNKS
    && d.checkpointSeq <= d.atSeq && (d.epoch == 0 ==> d.holder.None?) && d.subscription.run == d.run
    && d.captured == d.current
    && d.includedLines <= d.historyLines <= historyLimit
    && CountFits(d.chunkCount, Total(d))
  }

  // ---- Chunk counts ----

  predicate ChunkSizes(sizes: seq<nat>) {
    forall i :: 0 <= i < |sizes| ==> 1 <= sizes[i] <= MAX_CHUNK
  }

  function Same(n: nat): nat { n }

  /** A split of `total` bytes into `count` chunks: full ones first, the rest as small as need be. */
  function Split(count: nat, total: nat): (sizes: seq<nat>)
    requires CountFits(count, total)
    ensures |sizes| == count && ChunkSizes(sizes) && Sum(sizes, Same) == total
  {
    if count == 0 then []
    else
      var last := if total - (count - 1) < MAX_CHUNK then total - (count - 1) else MAX_CHUNK;
      var front := Split(count - 1, total - last);
      assert (front + [last])[..count - 1] == front;
      front + [last]
  }

  lemma {:induction false} SizesFit(sizes: seq<nat>)
    requires ChunkSizes(sizes)
    ensures CountFits(|sizes|, Sum(sizes, Same))
  {
    if sizes != [] {
      SizesFit(sizes[..|sizes| - 1]);
    }
  }

  /** The descriptor's count passes exactly when some split into that many legal chunks exists. */
  lemma CountFitsExactly(count: nat, total: nat)
    ensures CountFits(count, total) <==>
              exists sizes: seq<nat> :: |sizes| == count && ChunkSizes(sizes) && Sum(sizes, Same) == total
  {
    if CountFits(count, total) {
      var sizes := Split(count, total);
      assert ChunkSizes(sizes);
    }
    if sizes: seq<nat> :| |sizes| == count && ChunkSizes(sizes) && Sum(sizes, Same) == total {
      SizesFit(sizes);
    }
  }

  datatype Budgets = Budgets(vtBytes: nat, tailBytes: nat, chunks: nat)

  /** The negotiated budgets that concern a baseline. */
  predicate ValidBudgets(b: Budgets) {
    && 1 <= b.vtBytes <= MAX_VT_BYTES && 1 <= b.tailBytes <= MAX_TAIL_BYTES && 1 <= b.chunks <= MAX_CHUNKS
    && b.vtBytes + b.tailBytes <= b.chunks * MAX_CHUNK
  }

  /** Whatever fits the byte budgets can be sent within the chunk budget. */
  lemma BudgetsSuffice(b: Budgets, total: nat)
    requires ValidBudgets(b) && 1 <= total <= b.vtBytes + b.tailBytes
    ensures exists count: nat :: 1 <= count <= b.chunks && CountFits(count, total)
  {
    var count := (total + MAX_CHUNK - 1) / MAX_CHUNK;
    assert 1 <= count <= b.chunks && CountFits(count, total);
  }

  // ---- The whole transfer ----

  function SizeOf(c: Chunk): nat { c.size }

  predicate EndMatches(d: Descriptor, end: End) {
    && end.run == d.run && end.baselineId == d.baselineId && end.subscription == d.subscription
    && end.atSeq == d.atSeq && end.chunkCount == d.chunkCount && end.totalBytes == Total(d)
  }

  predicate ChunkMatches(d: Descriptor, c: Chunk, ordinal: nat) {
    && c.run == d.run && c.ordinal == ordinal && c.baselineId == d.baselineId && c.subscription == d.subscription
    && 1 <= c.size <= MAX_CHUNK
  }

  /** What a complete transfer of the descriptor is. */
  predicate Transferred(d: Descriptor, chunks: seq<Chunk>, end: End) {
    && ValidDescriptor(d, MAX_HISTORY) && |chunks| == d.chunkCount && EndMatches(d, end)
    && (forall i :: 0 <= i < |chunks| ==> ChunkMatches(d, chunks[i], i))
    && Sum(chunks, SizeOf) == Total(d)
  }

  lemma {:induction false} SumGrows(chunks: seq<Chunk>, n: nat)
    requires n <= |chunks|
    ensures Sum(chunks[..n], SizeOf) <= Sum(chunks, SizeOf)
  {
    if n == |chunks| {
      assert chunks[..n] == chunks;
    } else {
      SumGrows(chunks[..|chunks| - 1], n);
      assert chunks[..|chunks| - 1][..n] == chunks[..n];
    }
  }

  /** The batch validator: one pass that stops at the first fault. */
  method ValidateTransfer(d: Descriptor, chunks: seq<Chunk>, end: End) returns (accepted: bool)
    ensures accepted <==> Transferred(d, chunks, end)
  {
    if !ValidDescriptor(d, MAX_HISTORY) || |chunks| != d.chunkCount {
      return false;
    }
    if end.run != d.run || end.baselineId != d.baselineId || end.subscription != d.subscription
       || end.atSeq != d.atSeq || end.chunkCount != d.chunkCount || end.totalBytes != d.vtBytes + d.tailBytes {
      return false;
    }
    var total := 0;
    for index := 0 to |chunks|
      invariant total == Sum(chunks[..index], SizeOf)
      invariant forall i :: 0 <= i < index ==> ChunkMatches(d, chunks[i], i)
    {
      var c := chunks[index];
      if c.run != d.run || c.ordinal != index || c.baselineId != d.baselineId || c.subscription != d.subscription
         || c.size < 1 || c.size > MAX_CHUNK {
        assert !ChunkMatches(d, chunks[index], index);
        return false;
      }
      assert chunks[..index + 1][..index] == chunks[..index];
      total := total + c.size;
      if total > end.totalBytes {
        SumGrows(chunks, index + 1);
        return false;
      }
    }
    assert chunks[..|chunks|] == chunks;
    accepted := total == end.totalBytes;
  }

  // ---- The stream ----

  /** What the controller knows between two events: the next ordinal and the bytes so far. */
  datatype Progress = Progress(ordinal: nat, bytes: nat)

  function Take(d: Descriptor, p: Progress, c: Chunk): Option<Progress> {
    if c.baselineId != d.baselineId || c.ordinal != p.ordinal || c.size < 1 || c.size > MAX_CHUNK
       || p.bytes + c.size > Total(d)
    then None
    else Some(Progress(p.ordinal + 1, p.bytes + c.size))
  }

  function TakeAll(d: Descriptor, chunks: seq<Chunk>): Option<Progress> {
    if chunks == [] then Some(Progress(0, 0))
    else
      var p := TakeAll(d, chunks[..|chunks| - 1]);
      if p.None? then None else Take(d, p.value, chunks[|chunks| - 1])
  }

  predicate Ends(d: Descriptor, p: Progress, end: End) {
    && end.baselineId == d.baselineId && end.chunkCount == d.chunkCount && p.ordinal == d.chunkCount
    && end.totalBytes == Total(d) && p.bytes == end.totalBytes && end.atSeq == d.atSeq
  }

  /** The stream's verdict on the events routed to it. */
  predicate Streams(d: Descriptor, chunks: seq<Chunk>, end: End) {
    && ValidDescriptor(d, MAX_HISTORY)
    && TakeAll(d, chunks).Some? && Ends(d, TakeAll(d, chunks).value, end)
  }

  /** Events reach a controller only under its own subscription, which names the run. */
  predicate Routed(d: Descriptor, chunks: seq<Chunk>, end: End) {
    && (forall i :: 0 <= i < |chunks| ==> chunks[i].run == d.run && chunks[i].subscription == d.subscription)
    && end.run == d.run && end.subscription == d.subscription
  }

  lemma {:induction false} TakenExactly(d: Descriptor, chunks: seq<Chunk>)
    requires forall i :: 0 <= i < |chunks| ==> chunks[i].run == d.run && chunks[i].subscription == d.subscription
    ensures var p := TakeAll(d, chunks);
            && (p.Some? <==>
                  (forall i :: 0 <= i < |chunks| ==> ChunkMatches(d, chunks[i], i)) && Sum(chunks, SizeOf) <= Total(d))
            && (p.Some? ==> p.value == Progress(|chunks|, Sum(chunks, SizeOf)))
  {
    if chunks != [] {
      var n := |chunks| - 1;
      TakenExactly(d, chunks[..n]);
      SumGrows(chunks, n);
      assert forall i :: 0 <= i < n ==> chunks[..n][i] == chunks[i];
    }
  }

  /** Chunk by chunk or as a whole: a routed transfer passes one check exactly when it passes the other. */
  lemma StreamingIsBatch(d: Descriptor, chunks: seq<Chunk>, end: End)
    requires Routed(d, chunks, end)
    ensures Streams(d, chunks, end) <==> Transferred(d, chunks, end)
  {
    TakenExactly(d, chunks);
  }
}
