/** What a request handler sends, over all interleavings of its threads. */
module HandlerRuns {
  import opened Wire
  import opened Chunking
  import opened Handler

  function Count(h: Handler): nat
    requires 0 < h.chunkSize
  {
    NumChunks(|h.content.data|, h.chunkSize)
  }

  /** The chunks 0 to k - 1 of a response, as far as they exist. */
  function ChunkList(c: Content, chunkSize: nat, id: nat, k: nat): seq<ClientMessage> {
    if k == 0 || k > U64 || (k - 1) * chunkSize >= |c.data| then []
    else ChunkList(c, chunkSize, id, k - 1) + [ContentChunk(id, k - 1, Slice(c.data, chunkSize, k - 1))]
  }

  /** The messages that a block stands for: the header, the first chunks, the close. */
  function BlockMessages(c: Content, chunkSize: nat, b: Block): seq<ClientMessage>
    requires |c.data| < U64
  {
    (if b.header then [HeaderMessage(c, b.id)] else [])
    + ChunkList(c, chunkSize, b.id, b.chunks)
    + (if b.closed then [CloseResponse(b.id)] else [])
  }

  function AllMessages(c: Content, chunkSize: nat, blocks: seq<Block>): seq<ClientMessage>
    requires |c.data| < U64
  {
    if blocks == [] then []
    else AllMessages(c, chunkSize, blocks[..|blocks| - 1]) + BlockMessages(c, chunkSize, blocks[|blocks| - 1])
  }

  /** What the serve loop sent, in order. */
  function ServedLog(log: seq<Emission>): seq<ClientMessage> {
    if log == [] then []
    else
      var e, before := log[|log| - 1], ServedLog(log[..|log| - 1]);
      if e.ByServe? then before + [e.m] else before
  }

  /** What cancellations of queued requests sent, in order. */
  function CancelledLog(log: seq<Emission>): seq<ClientMessage> {
    if log == [] then []
    else
      var e, before := log[|log| - 1], CancelledLog(log[..|log| - 1]);
      if e.ByCancel? then before + [e.m] else before
  }

  function Ids(blocks: seq<Block>): seq<nat> {
    if blocks == [] then [] else Ids(blocks[..|blocks| - 1]) + [blocks[|blocks| - 1].id]
  }

  /** The enqueued ids that were not dropped from the queue, in order. */
  function Kept(ids: seq<nat>, dropped: set<nat>): seq<nat> {
    if ids == [] then []
    else
      var before := Kept(ids[..|ids| - 1], dropped);
      if ids[|ids| - 1] in dropped then before else before + [ids[|ids| - 1]]
  }

  function Blocks(h: Handler): seq<Block> {
    if h.current.Some? then h.past + [h.current.value] else h.past
  }

  /** A response that is over: complete, or closed before its last chunk. */
  predicate Finished(size: nat, chunkSize: nat, b: Block)
    requires 0 < chunkSize
  {
    b.header && if b.closed then b.chunks < NumChunks(size, chunkSize) else b.chunks == NumChunks(size, chunkSize)
  }

  predicate AllFinished(size: nat, chunkSize: nat, blocks: seq<Block>)
    requires 0 < chunkSize
  {
    blocks == [] || (AllFinished(size, chunkSize, blocks[..|blocks| - 1]) && Finished(size, chunkSize, blocks[|blocks| - 1]))
  }

  /** Cancellations of queued requests only close dropped ones. */
  predicate ClosesDropped(ms: seq<ClientMessage>, dropped: set<nat>) {
    ms == [] || (ClosesDropped(ms[..|ms| - 1], dropped) && ms[|ms| - 1].CloseResponse? && ms[|ms| - 1].requestId in dropped)
  }

  predicate AfterChunk(h: Handler, b: Block, n: nat)
    requires 0 < h.chunkSize
  {
    && 0 < b.chunks
    && h.total == (b.chunks - 1) * h.chunkSize < |h.content.data|
    && n == ChunkLen(|h.content.data|, h.chunkSize, b.chunks - 1)
    && h.good == (n == h.chunkSize)
  }

  /** Where the response being served stands. */
  predicate Position(h: Handler)
    requires 0 < h.chunkSize
  {
    match h.current
    case None => (h.pc.Waiting? || h.pc.Exited?) && h.handling == None && !h.cancel
    case Some(b) =>
      && !h.pc.Waiting?
      && (if h.pc.Exited? then h.handling == None else h.handling == Some(b.id))
      && !b.closed && b.chunks <= Count(h) && (b.chunks > 0 ==> b.header)
      && match h.pc
         case HeaderReady => !b.header && h.sequence == 0 && h.total == 0 && h.good
         case HeaderSent(ok) => b.header == ok && b.chunks == 0 && h.sequence == 0 && h.total == 0 && h.good
         case ChunkReady(data) =>
           && b.header && h.sequence == b.chunks + 1 && h.total == b.chunks * h.chunkSize < |h.content.data|
           && data == Slice(h.content.data, h.chunkSize, b.chunks) && h.good == (|data| == h.chunkSize)
         case ChunkSent(n, ok) =>
           && b.header && h.sequence == (if ok then b.chunks else b.chunks + 1)
           && (ok ==> AfterChunk(h, b, n))
           && h.total + n <= |h.content.data|
         case Callback => b.header && b.chunks == Count(h) && h.total == |h.content.data|
         case CallbackDone => b.header && b.chunks == Count(h) && h.total == |h.content.data|
         case Exited => true
         case Waiting => false
  }

  /** The part of the invariant that does not speak of the serve thread's place. */
  predicate Common(h: Handler) {
    && 0 < |h.content.data| < U64 && 0 < h.chunkSize < U64
    && h.total <= |h.content.data|
    && NoRepeats(h.enqueued) && (set id | id in h.enqueued) >= h.dropped
    && Kept(h.enqueued, h.dropped) == Ids(Blocks(h)) + h.pending
    && AllFinished(|h.content.data|, h.chunkSize, h.past)
    && ServedLog(h.log) == AllMessages(h.content, h.chunkSize, Blocks(h))
    && ClosesDropped(CancelledLog(h.log), h.dropped)
  }

  predicate Inv(h: Handler) {
    && Common(h) && Position(h) && (h.done <==> h.pc.Exited?)
    && (h.stop && h.handling.Some? ==> h.cancel)
  }

  lemma Logged(log: seq<Emission>, e: Emission)
    ensures ServedLog(log + [e]) == if e.ByServe? then ServedLog(log) + [e.m] else ServedLog(log)
    ensures CancelledLog(log + [e]) == if e.ByCancel? then CancelledLog(log) + [e.m] else CancelledLog(log)
  {}

  lemma OneMoreBlock(c: Content, chunkSize: nat, past: seq<Block>, b: Block)
    requires |c.data| < U64 && 0 < chunkSize
    ensures AllMessages(c, chunkSize, past + [b]) == AllMessages(c, chunkSize, past) + BlockMessages(c, chunkSize, b)
    ensures Ids(past + [b]) == Ids(past) + [b.id]
    ensures AllFinished(|c.data|, chunkSize, past + [b]) == (AllFinished(|c.data|, chunkSize, past) && Finished(|c.data|, chunkSize, b))
  {}

  /** Sending the next message of the current response. */
  lemma EmitKeeps(h: Handler, h': Handler, b': Block, m: ClientMessage)
    requires Common(h) && h.current.Some? && b'.id == h.current.value.id && h'.total == h.total
    requires h'.content == h.content && h'.chunkSize == h.chunkSize && h'.pending == h.pending
    requires h'.enqueued == h.enqueued && h'.dropped == h.dropped && h'.past == h.past
    requires h'.current == Some(b') && h'.log == h.log + [ByServe(m)]
    requires BlockMessages(h.content, h.chunkSize, b') == BlockMessages(h.content, h.chunkSize, h.current.value) + [m]
    ensures Common(h')
  {
    Logged(h.log, ByServe(m));
    OneMoreBlock(h.content, h.chunkSize, h.past, h.current.value);
    OneMoreBlock(h.content, h.chunkSize, h.past, b');
  }

  /** A finished response becomes part of the past. */
  lemma FileKeeps(h: Handler, h': Handler)
    requires Common(h) && h.current.Some? && Finished(|h.content.data|, h.chunkSize, h.current.value)
    requires h' == h.(handling := None, cancel := false, past := h.past + [h.current.value], current := None)
    ensures Common(h')
  {}

  /** The state at the head of the loop, once the last response is dealt with. */
  predicate Between(h: Handler) {
    Common(h) && !h.done && h.current.None? && h.handling.None? && !h.cancel
  }

  lemma TakeKeeps(h: Handler)
    requires Between(h) && !h.stop && h.pending != []
    ensures Common(Next(h))
  {
    var t, b := Next(h), Block(h.pending[0], false, 0, false);
    OneMoreBlock(h.content, h.chunkSize, h.past, b);
    assert BlockMessages(h.content, h.chunkSize, b) == [];
    assert Ids(Blocks(t)) + t.pending == Ids(h.past) + h.pending;
  }

  lemma NextKeeps(h: Handler)
    requires Between(h)
    ensures Inv(Next(h))
  {
    if !h.stop && h.pending != [] { TakeKeeps(h); }
  }

  /** The state when an iteration is over: the response is complete, or is to be closed early. */
  predicate Over(h: Handler) {
    && Common(h) && !h.done && h.current.Some?
    && var b := h.current.value;
    && h.handling == Some(b.id) && b.header && !b.closed
    && if h.cancel then b.chunks < Count(h) else b.chunks == Count(h)
  }

  lemma LoopHeadKeeps(h: Handler, ok: bool)
    requires Over(h)
    ensures Inv(LoopHead(h, ok))
  {
    var b := h.current.value;
    if h.cancel && ok {
      var m, b1 := CloseResponse(b.id), b.(closed := true);
      var h1 := Served(h, m).(current := Some(b1));
      assert BlockMessages(h.content, h.chunkSize, b1) == BlockMessages(h.content, h.chunkSize, b) + [m];
      EmitKeeps(h, h1, b1, m);
      FileKeeps(h1, h1.(handling := None, cancel := false, past := h.past + [b1], current := None));
      NextKeeps(h1.(handling := None, cancel := false, past := h.past + [b1], current := None));
    } else if !h.cancel {
      FileKeeps(h, h.(handling := None, cancel := false, past := h.past + [b], current := None));
      NextKeeps(h.(handling := None, cancel := false, past := h.past + [b], current := None));
    }
  }

  /** The state when no more chunks are read: total says how much of the content was sent. */
  predicate Read(h: Handler) {
    && Common(h) && !h.done && h.current.Some?
    && var b := h.current.value;
    && h.handling == Some(b.id) && b.header && !b.closed
    && b.chunks <= Count(h)
    && (h.total == |h.content.data| <==> b.chunks == Count(h))
  }

  lemma IterationEndKeeps(h: Handler, ok: bool)
    requires Read(h) && (h.cancel || h.total == |h.content.data|)
    ensures Inv(IterationEnd(h, ok))
  {
    LoopHeadKeeps(if h.total == |h.content.data| then h.(cancel := false) else h, ok);
  }

  lemma AfterChunksKeeps(h: Handler, ok: bool)
    requires Read(h) && (h.cancel || h.total == |h.content.data|) && (h.stop ==> h.cancel)
    ensures Inv(AfterChunks(h, ok))
  {
    if h.cancel { IterationEndKeeps(h, ok); }
  }

  /** The state at the head of the chunk loop, b.chunks chunks sent. */
  predicate Reading(h: Handler) {
    && Common(h) && !h.done && h.current.Some?
    && var b := h.current.value;
    && h.handling == Some(b.id) && b.header && !b.closed && h.sequence == b.chunks <= Count(h)
    && h.total == Covered(|h.content.data|, h.chunkSize, b.chunks)
    && (!h.good ==> h.total == |h.content.data|)
    && (h.stop ==> h.cancel)
  }

  lemma CountReached(h: Handler, k: nat)
    requires 0 < h.chunkSize && k <= Count(h)
    ensures Covered(|h.content.data|, h.chunkSize, k) == |h.content.data| <==> k == Count(h)
    ensures k < Count(h) ==> Covered(|h.content.data|, h.chunkSize, k) == k * h.chunkSize
  {
    ChunkExists(|h.content.data|, h.chunkSize, k);
  }

  lemma ReadChunkKeeps(h: Handler, ok: bool)
    requires Reading(h)
    ensures Inv(ReadChunk(h, ok))
  {
    CountReached(h, h.current.value.chunks);
    if !h.good {
      AfterChunksKeeps(h, ok);
    } else if h.total == |h.content.data| {
      AfterChunksKeeps(h.(good := false), ok);
    } else {
      ReadMoreKeeps(h, ok);
    }
  }

  lemma ReadMoreKeeps(h: Handler, ok: bool)
    requires Reading(h) && h.good && h.total < |h.content.data|
    ensures Inv(ReadChunk(h, ok))
  {
    var k, c := h.current.value.chunks, h.chunkSize;
    CountReached(h, k);
    ReadMoreIs(h, ok, k);
    assert Common(ReadChunk(h, ok));
  }

  lemma ReadMoreIs(h: Handler, ok: bool, k: nat)
    requires h.current.Some? && 0 < h.chunkSize && h.good && h.total == k * h.chunkSize < |h.content.data|
    ensures var data := Slice(h.content.data, h.chunkSize, k);
            ReadChunk(h, ok) == h.(good := |data| == h.chunkSize, sequence := h.sequence + 1, pc := ChunkReady(data))
  {}

  lemma HeaderReadyKeeps(h: Handler, ok: bool)
    requires Inv(h) && h.pc.HeaderReady?
    ensures Inv(ServeStep(h, ok))
  {}

  lemma HeaderSentKeeps(h: Handler, ok: bool)
    requires Inv(h) && h.pc.HeaderSent?
    ensures Inv(ServeStep(h, ok))
  {
    CountReached(h, 0);
    if h.pc.ok {
      if h.cancel { LoopHeadKeeps(h, ok); } else { ReadChunkKeeps(h, ok); }
    }
  }

  lemma OneMoreChunk(c: Content, chunkSize: nat, b: Block)
    requires |c.data| < U64 && b.chunks < U64 && b.chunks * chunkSize < |c.data| && !b.closed
    ensures BlockMessages(c, chunkSize, b.(chunks := b.chunks + 1)) ==
            BlockMessages(c, chunkSize, b) + [ContentChunk(b.id, b.chunks, Slice(c.data, chunkSize, b.chunks))]
  {
    assert ChunkList(c, chunkSize, b.id, b.chunks + 1) ==
           ChunkList(c, chunkSize, b.id, b.chunks) + [ContentChunk(b.id, b.chunks, Slice(c.data, chunkSize, b.chunks))];
  }

  /** Where a chunk that is about to be sent lies in the content. */
  lemma ChunkReadyFits(h: Handler)
    requires Inv(h) && h.pc.ChunkReady?
    ensures var k := h.current.value.chunks;
            && k < U64 - 1 && k * h.chunkSize < |h.content.data| && k < Count(h)
            && |h.pc.data| == ChunkLen(|h.content.data|, h.chunkSize, k) && h.total + |h.pc.data| <= |h.content.data|
  {
    var k := h.current.value.chunks;
    ChunkBounds(|h.content.data|, h.chunkSize, k);
    ChunkExists(|h.content.data|, h.chunkSize, k);
  }

  lemma ChunkSentKeeps(h: Handler)
    requires Inv(h) && Ready(h) && h.pc.ChunkReady?
    ensures Inv(ServeStep(h, true))
  {
    var b := h.current.value;
    ChunkReadyFits(h);
    OneMoreChunk(h.content, h.chunkSize, b);
    EmitKeeps(h, ServeStep(h, true), b.(chunks := b.chunks + 1), ContentChunk(b.id, h.sequence - 1, h.pc.data));
  }

  lemma ChunkFailedKeeps(h: Handler)
    requires Inv(h) && Ready(h) && h.pc.ChunkReady?
    ensures Inv(ServeStep(h, false))
  {
    ChunkReadyFits(h);
  }

  lemma ChunkReadyKeeps(h: Handler, ok: bool)
    requires Inv(h) && h.pc.ChunkReady?
    ensures Ready(h) && Inv(ServeStep(h, ok))
  {
    InvReady(h);
    if ok { ChunkSentKeeps(h); } else { ChunkFailedKeeps(h); }
  }

  lemma SentTotal(h: Handler, b: Block, n: nat)
    requires 0 < h.chunkSize && AfterChunk(h, b, n) && b.chunks <= Count(h)
    ensures h.total + n == Covered(|h.content.data|, h.chunkSize, b.chunks)
    ensures !h.good ==> h.total + n == |h.content.data|
    ensures h.total + n == |h.content.data| <==> b.chunks == Count(h)
  {
    LastChunk(|h.content.data|, h.chunkSize, b.chunks - 1);
  }

  lemma SentCounts(h: Handler)
    requires Inv(h) && h.pc.ChunkSent? && h.pc.ok
    ensures var h1 := h.(total := h.total + h.pc.n);
            Read(h1) && Reading(h1) && (h.stop ==> h.cancel)
  {
    SentTotal(h, h.current.value, h.pc.n);
  }

  lemma SentStepIs(h: Handler, ok: bool)
    requires CanServe(h) && Ready(h) && h.pc.ChunkSent? && h.pc.ok && (h.stop ==> h.cancel)
    ensures var h1 := h.(total := h.total + h.pc.n);
            ServeStep(h, ok) == if h.cancel then AfterChunks(h1, ok) else ReadChunk(h1, ok)
  {}

  lemma SentStepKeeps(h: Handler, ok: bool)
    requires Inv(h) && Ready(h) && h.pc.ChunkSent? && h.pc.ok
    ensures Inv(ServeStep(h, ok))
  {
    var h1 := h.(total := h.total + h.pc.n);
    SentCounts(h);
    SentStepIs(h, ok);
    if h.cancel { AfterChunksKeeps(h1, ok); } else { ReadChunkKeeps(h1, ok); }
  }

  lemma FailedStepKeeps(h: Handler, ok: bool)
    requires Inv(h) && Ready(h) && h.pc.ChunkSent? && !h.pc.ok
    ensures Inv(ServeStep(h, ok))
  {}

  lemma InvReady(h: Handler)
    requires Inv(h)
    ensures Ready(h)
  {
    if h.pc.ChunkReady? { ChunkReadyFits(h); }
  }

  lemma ServeStepKeeps(h: Handler, ok: bool)
    requires Inv(h) && CanServe(h)
    ensures Ready(h) && Inv(ServeStep(h, ok))
  {
    InvReady(h);
    match h.pc {
      case Waiting => NextKeeps(h);
      case HeaderReady => HeaderReadyKeeps(h, ok);
      case HeaderSent(_) => HeaderSentKeeps(h, ok);
      case ChunkReady(_) => ChunkReadyKeeps(h, ok);
      case ChunkSent(_, sent) => if sent { SentStepKeeps(h, ok); } else { FailedStepKeeps(h, ok); }
      case Callback =>
      case CallbackDone => IterationEndKeeps(h, ok);
    }
  }

  // ---- the other threads ----

  lemma {:induction false} KeptElements(ids: seq<nat>, dropped: set<nat>)
    ensures forall id :: id in Kept(ids, dropped) <==> id in ids && id !in dropped
    ensures NoRepeats(ids) ==> NoRepeats(Kept(ids, dropped))
  {
    if ids != [] {
      var init, last := ids[..|ids| - 1], ids[|ids| - 1];
      KeptElements(init, dropped);
      assert forall id :: id in ids <==> id in init || id == last;
      if NoRepeats(ids) {
        assert last !in init;
      }
    }
  }

  lemma {:induction false} WithoutLater(a: seq<nat>, b: seq<nat>, id: nat)
    requires id !in a
    ensures Without(a + b, id) == a + Without(b, id)
  {
    if a == [] {
      assert a + b == b;
    } else {
      assert (a + b)[1..] == a[1..] + b;
      WithoutLater(a[1..], b, id);
    }
  }

  lemma {:induction false} WithoutEarlier(a: seq<nat>, b: seq<nat>, id: nat)
    requires id in a
    ensures Without(a + b, id) == Without(a, id) + b
  {
    assert (a + b)[1..] == a[1..] + b && (a + b)[0] == a[0];
    if a[0] != id {
      assert id in a[1..];
      WithoutEarlier(a[1..], b, id);
    }
  }

  lemma WithoutSplit(a: seq<nat>, b: seq<nat>, id: nat)
    ensures id !in a ==> Without(a + b, id) == a + Without(b, id)
    ensures id in a ==> Without(a + b, id) == Without(a, id) + b
  {
    if id in a { WithoutEarlier(a, b, id); } else { WithoutLater(a, b, id); }
  }

  /** Dropping one more id takes it out of the list of kept ids. */
  lemma {:induction false} KeptDrop(ids: seq<nat>, dropped: set<nat>, id: nat)
    requires NoRepeats(ids)
    ensures Kept(ids, dropped + {id}) == Without(Kept(ids, dropped), id)
  {
    if ids != [] {
      var init, last := ids[..|ids| - 1], ids[|ids| - 1];
      KeptDrop(init, dropped, id);
      KeptElements(init, dropped);
      assert last !in init;
      WithoutSplit(Kept(init, dropped), [last], id);
      if id !in Kept(init, dropped) { WithoutAbsent(Kept(init, dropped), id); }
      assert Without([last], id) == if last == id then [] else [last];
    }
  }

  lemma {:induction false} WithoutAbsent(ids: seq<nat>, id: nat)
    requires id !in ids
    ensures Without(ids, id) == ids
  {
    WithoutSplit(ids, [], id);
    assert ids + [] == ids;
  }

  /** Without removes the element at its first position. */
  lemma WithoutAt(ids: seq<nat>, i: nat, id: nat)
    requires i < |ids| && ids[i] == id && id !in ids[..i]
    ensures Without(ids, id) == ids[..i] + ids[i + 1..]
  {
    WithoutSplit(ids[..i], ids[i..], id);
    assert ids[..i] + ids[i..] == ids && ids[i..][1..] == ids[i + 1..];
  }

  lemma {:induction false} ClosesMore(ms: seq<ClientMessage>, dropped: set<nat>, id: nat)
    requires ClosesDropped(ms, dropped)
    ensures ClosesDropped(ms, dropped + {id})
  {
    if ms != [] { ClosesMore(ms[..|ms| - 1], dropped, id); }
  }

  lemma KeptSnoc(ids: seq<nat>, dropped: set<nat>, id: nat)
    requires NoRepeats(ids) && id !in ids && (set x | x in ids) >= dropped
    ensures NoRepeats(ids + [id]) && (set x | x in ids + [id]) >= dropped
    ensures Kept(ids + [id], dropped) == Kept(ids, dropped) + [id]
  {}

  lemma EnqueueKeeps(h: Handler, id: nat)
    requires Inv(h) && id !in h.enqueued
    ensures Inv(Enqueue(h, id))
  {
    if !h.done {
      KeptSnoc(h.enqueued, h.dropped, id);
      var t := Enqueue(h, id);
      assert Ids(Blocks(t)) + t.pending == Ids(Blocks(h)) + h.pending + [id];
    }
  }

  lemma ClosesOneMore(ms: seq<ClientMessage>, dropped: set<nat>, id: nat)
    requires ClosesDropped(ms, dropped) && id in dropped
    ensures ClosesDropped(ms + [CloseResponse(id)], dropped)
  {
    assert (ms + [CloseResponse(id)])[..|ms|] == ms;
  }

  lemma CancelledKeeps(h: Handler, id: nat)
    requires Inv(h) && id in h.dropped
    ensures Inv(h.(log := h.log + [ByCancel(CloseResponse(id))]))
  {
    var t := h.(log := h.log + [ByCancel(CloseResponse(id))]);
    Logged(h.log, ByCancel(CloseResponse(id)));
    ClosesOneMore(CancelledLog(h.log), h.dropped, id);
    assert Blocks(t) == Blocks(h) && Common(t);
  }

  lemma CancelKeeps(h: Handler, id: nat, ok: bool)
    requires Inv(h)
    ensures Inv(CancelRequest(h, id, ok))
  {
    if !h.done && h.handling != Some(id) && id in h.pending {
      DropKeeps(h, id);
      if ok { CancelledKeeps(h.(pending := Without(h.pending, id), dropped := h.dropped + {id}), id); }
    }
  }

  lemma DropKeeps(h: Handler, id: nat)
    requires Inv(h) && id in h.pending
    ensures Inv(h.(pending := Without(h.pending, id), dropped := h.dropped + {id}))
    ensures id !in Ids(Blocks(h)) && id !in h.dropped && id in h.enqueued
  {
    KeptElements(h.enqueued, h.dropped);
    assert id in Kept(h.enqueued, h.dropped);
    DropKept(h.enqueued, h.dropped, Ids(Blocks(h)), h.pending, id);
    ClosesMore(CancelledLog(h.log), h.dropped, id);
    var t := h.(pending := Without(h.pending, id), dropped := h.dropped + {id});
    assert Blocks(t) == Blocks(h);
    assert Common(t);
  }

  lemma DropKept(ids: seq<nat>, dropped: set<nat>, served: seq<nat>, pending: seq<nat>, id: nat)
    requires NoRepeats(ids) && Kept(ids, dropped) == served + pending && id in pending
    ensures id !in served
    ensures Kept(ids, dropped + {id}) == served + Without(pending, id)
  {
    KeptElements(ids, dropped);
    Apart(served, pending, id);
    KeptDrop(ids, dropped, id);
    WithoutSplit(served, pending, id);
  }

  lemma Apart(a: seq<nat>, b: seq<nat>, id: nat)
    requires NoRepeats(a + b) && id in b
    ensures id !in a
  {
    var j :| 0 <= j < |b| && b[j] == id;
    assert (a + b)[|a| + j] == id;
    forall i | 0 <= i < |a| ensures a[i] != id {
      assert (a + b)[i] == a[i];
    }
  }

  lemma StepFrame(h: Handler, input: Input)
    requires Enabled(h, input) && Ready(h)
    ensures Step(h, input).content == h.content && Step(h, input).chunkSize == h.chunkSize
  {}

  lemma ExitKeeps(h: Handler)
    requires Inv(h)
    ensures Inv(RequestExit(h))
  {}

  lemma StepKeeps(h: Handler, input: Input)
    requires Inv(h) && Enabled(h, input)
    ensures Ready(h) && Inv(Step(h, input))
    ensures Step(h, input).content == h.content && Step(h, input).chunkSize == h.chunkSize
  {
    InvReady(h);
    StepFrame(h, input);
    match input {
      case Serve(ok) => ServeStepKeeps(h, ok);
      case Add(id) => EnqueueKeeps(h, id);
      case Cancel(id, ok) => CancelKeeps(h, id, ok);
      case GracefulExit => ExitKeeps(h);
    }
  }

  lemma NewInv(content: Content, chunkSize: nat)
    requires 0 < |content.data| < U64 && 0 < chunkSize < U64
    ensures Inv(NewHandler(content, chunkSize))
  {}

  /** The state after any sequence of inputs; an input that is not enabled when its turn comes is skipped. */
  function Run(h: Handler, inputs: seq<Input>): (r: Handler)
    requires Inv(h)
    ensures Inv(r) && r.content == h.content && r.chunkSize == h.chunkSize
  {
    if inputs == [] then h
    else
      var before, input := Run(h, inputs[..|inputs| - 1]), inputs[|inputs| - 1];
      if Enabled(before, input) then
        StepKeeps(before, input);
        Step(before, input)
      else before
  }
}
