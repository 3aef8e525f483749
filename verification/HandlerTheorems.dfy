/** The guarantees of a request handler, for every run: what it sends for each request, in which
    order, and how it stops. */
module HandlerTheorems {
  import opened Wire
  import opened Chunking
  import opened Handler
  import opened HandlerRuns

  // ---- what is sent for one request ----

  /** Everything sent, in order. */
  function Messages(log: seq<Emission>): seq<ClientMessage> {
    if log == [] then [] else Messages(log[..|log| - 1]) + [log[|log| - 1].m]
  }

  /** The messages about one request. */
  function Of(ms: seq<ClientMessage>, id: nat): seq<ClientMessage> {
    if ms == [] then []
    else
      var before := Of(ms[..|ms| - 1], id);
      if ms[|ms| - 1].Id() == id then before + [ms[|ms| - 1]] else before
  }

  lemma {:induction false} OfConcat(a: seq<ClientMessage>, b: seq<ClientMessage>, id: nat)
    ensures Of(a + b, id) == Of(a, id) + Of(b, id)
  {
    if b == [] {
      assert a + b == a;
    } else {
      var init := b[..|b| - 1];
      assert (a + b)[..|a + b| - 1] == a + init;
      OfConcat(a, init, id);
    }
  }

  /** All messages of a list belong to one request. */
  predicate Only(ms: seq<ClientMessage>, id: nat) {
    forall m :: m in ms ==> m.Id() == id
  }

  lemma {:induction false} OfOnly(ms: seq<ClientMessage>, id: nat, other: nat)
    requires Only(ms, id)
    ensures Of(ms, other) == if other == id then ms else []
  {
    if ms != [] {
      var init := ms[..|ms| - 1];
      assert ms == init + [ms[|ms| - 1]];
      OfOnly(init, id, other);
    }
  }

  lemma {:induction false} BlockIsOnly(c: Content, chunkSize: nat, b: Block)
    requires |c.data| < U64
    ensures Only(BlockMessages(c, chunkSize, b), b.id)
  {
    ChunksAreOnly(c, chunkSize, b.id, b.chunks);
  }

  lemma {:induction false} ChunksAreOnly(c: Content, chunkSize: nat, id: nat, k: nat)
    ensures Only(ChunkList(c, chunkSize, id, k), id)
  {
    if !(k == 0 || k > U64 || (k - 1) * chunkSize >= |c.data|) {
      ChunksAreOnly(c, chunkSize, id, k - 1);
    }
  }

  lemma Snoc(blocks: seq<Block>)
    requires blocks != [] && NoRepeats(Ids(blocks))
    ensures var init, last := blocks[..|blocks| - 1], blocks[|blocks| - 1];
            NoRepeats(Ids(init)) && last.id !in Ids(init)
  {
    var init, last := blocks[..|blocks| - 1], blocks[|blocks| - 1];
    var ids := Ids(init);
    forall i | 0 <= i < |ids| ensures ids[i] != last.id {
      assert Ids(blocks)[i] == ids[i] && Ids(blocks)[|ids|] == last.id;
    }
    forall i, j | 0 <= i < j < |ids| ensures ids[i] != ids[j] {
      assert Ids(blocks)[i] == ids[i] && Ids(blocks)[j] == ids[j];
    }
  }

  lemma LastBlock(c: Content, chunkSize: nat, blocks: seq<Block>, id: nat)
    requires |c.data| < U64 && blocks != []
    ensures var init, last := blocks[..|blocks| - 1], blocks[|blocks| - 1];
            Of(AllMessages(c, chunkSize, blocks), id) ==
            Of(AllMessages(c, chunkSize, init), id) + if id == last.id then BlockMessages(c, chunkSize, last) else []
  {
    var init, last := blocks[..|blocks| - 1], blocks[|blocks| - 1];
    BlockIsOnly(c, chunkSize, last);
    OfOnly(BlockMessages(c, chunkSize, last), last.id, id);
    OfConcat(AllMessages(c, chunkSize, init), BlockMessages(c, chunkSize, last), id);
  }

  lemma {:induction false} OfAbsent(c: Content, chunkSize: nat, blocks: seq<Block>, id: nat)
    requires |c.data| < U64 && id !in Ids(blocks)
    ensures Of(AllMessages(c, chunkSize, blocks), id) == []
  {
    if blocks != [] {
      var init, last := blocks[..|blocks| - 1], blocks[|blocks| - 1];
      assert Ids(blocks)[|Ids(init)|] == last.id;
      OfAbsent(c, chunkSize, init, id);
      LastBlock(c, chunkSize, blocks, id);
    }
  }

  /** The messages of one request are those of its block. */
  lemma {:induction false} OfBlock(c: Content, chunkSize: nat, blocks: seq<Block>, b: Block)
    requires |c.data| < U64 && NoRepeats(Ids(blocks)) && b in blocks
    ensures Of(AllMessages(c, chunkSize, blocks), b.id) == BlockMessages(c, chunkSize, b)
  {
    var init, last := blocks[..|blocks| - 1], blocks[|blocks| - 1];
    Snoc(blocks);
    LastBlock(c, chunkSize, blocks, b.id);
    if b == last {
      OfAbsent(c, chunkSize, init, b.id);
    } else {
      assert b in init;
      IdsOf(init);
      OfBlock(c, chunkSize, init, b);
    }
  }

  lemma {:induction false} IdsOf(blocks: seq<Block>)
    ensures |Ids(blocks)| == |blocks|
    ensures forall b :: b in blocks ==> b.id in Ids(blocks)
    ensures forall id :: id in Ids(blocks) ==> exists b :: b in blocks && b.id == id
  {
    if blocks != [] {
      var init, last := blocks[..|blocks| - 1], blocks[|blocks| - 1];
      IdsOf(init);
      assert forall b :: b in blocks <==> b in init || b == last;
    }
  }

  /** A log without messages of the serve loop about an id has only cancellations of it. */
  lemma {:induction false} OfLog(log: seq<Emission>, id: nat)
    ensures Of(CancelledLog(log), id) == [] ==> Of(Messages(log), id) == Of(ServedLog(log), id)
    ensures Of(ServedLog(log), id) == [] ==> Of(Messages(log), id) == Of(CancelledLog(log), id)
  {
    if log != [] {
      var init, m := log[..|log| - 1], log[|log| - 1].m;
      OfLog(init, id);
      OfConcat(Messages(init), [m], id);
      OfConcat(ServedLog(init), [m], id);
      OfConcat(CancelledLog(init), [m], id);
    }
  }

  lemma {:induction false} OfDropped(ms: seq<ClientMessage>, dropped: set<nat>, id: nat)
    requires ClosesDropped(ms, dropped) && id !in dropped
    ensures Of(ms, id) == []
  {
    if ms != [] { OfDropped(ms[..|ms| - 1], dropped, id); }
  }

  /** What may be sent for a request: nothing; the header and the first k chunks; the header, fewer
      chunks than there are, and a CloseResponse; or, if it never left the queue, a CloseResponse. */
  datatype Form = Nothing | Partial(k: nat) | ClosedEarly(k: nat) | Dropped

  predicate HasForm(c: Content, chunkSize: nat, id: nat, ms: seq<ClientMessage>, form: Form)
    requires |c.data| < U64 && 0 < chunkSize
  {
    match form
    case Nothing => ms == []
    case Partial(k) => k <= NumChunks(|c.data|, chunkSize) && ms == BlockMessages(c, chunkSize, Block(id, true, k, false))
    case ClosedEarly(k) => k < NumChunks(|c.data|, chunkSize) && ms == BlockMessages(c, chunkSize, Block(id, true, k, true))
    case Dropped => ms == [CloseResponse(id)]
  }

  lemma {:induction false} FinishedBlock(size: nat, chunkSize: nat, blocks: seq<Block>, b: Block)
    requires 0 < chunkSize && AllFinished(size, chunkSize, blocks) && b in blocks
    ensures Finished(size, chunkSize, b)
  {
    var init, last := blocks[..|blocks| - 1], blocks[|blocks| - 1];
    if b != last {
      assert b in init;
      FinishedBlock(size, chunkSize, init, b);
    }
  }

  lemma EmptyBlock(c: Content, chunkSize: nat, b: Block)
    requires |c.data| < U64 && !b.header && b.chunks == 0 && !b.closed
    ensures BlockMessages(c, chunkSize, b) == []
  {}

  /** The history bookkeeping of an id in the queue or in a block. */
  lemma Bookkeeping(h: Handler)
    requires Inv(h)
    ensures NoRepeats(Ids(Blocks(h)))
    ensures forall b :: b in Blocks(h) ==> b.id !in h.dropped && b.id in h.enqueued && b.id !in h.pending
    ensures forall id :: id in h.pending ==> id !in Ids(Blocks(h)) && id !in h.dropped && id in h.enqueued
  {
    KeptElements(h.enqueued, h.dropped);
    IdsOf(Blocks(h));
    var ids := Ids(Blocks(h));
    assert NoRepeats(ids) by {
      forall i, j | 0 <= i < j < |ids| ensures ids[i] != ids[j] {
        assert (ids + h.pending)[i] == ids[i] && (ids + h.pending)[j] == ids[j];
      }
    }
    forall id | id in h.pending ensures id !in ids && id !in h.dropped && id in h.enqueued {
      Apart(ids, h.pending, id);
      assert id in Kept(h.enqueued, h.dropped);
    }
    forall b | b in Blocks(h) ensures b.id !in h.dropped && b.id in h.enqueued && b.id !in h.pending {
      assert b.id in ids && b.id in Kept(h.enqueued, h.dropped);
    }
  }

  // ---- the main results ----

  /** What was sent for a request that the serve loop took from the queue. */
  lemma BlockForm(h: Handler, b: Block)
    requires Inv(h) && b in Blocks(h)
    ensures Of(Messages(h.log), b.id) == BlockMessages(h.content, h.chunkSize, b)
    ensures if !b.header then HasForm(h.content, h.chunkSize, b.id, Of(Messages(h.log), b.id), Nothing)
            else if b.closed then HasForm(h.content, h.chunkSize, b.id, Of(Messages(h.log), b.id), ClosedEarly(b.chunks))
            else HasForm(h.content, h.chunkSize, b.id, Of(Messages(h.log), b.id), Partial(b.chunks))
  {
    Bookkeeping(h);
    OfDropped(CancelledLog(h.log), h.dropped, b.id);
    OfLog(h.log, b.id);
    OfBlock(h.content, h.chunkSize, Blocks(h), b);
    if b in h.past {
      FinishedBlock(|h.content.data|, h.chunkSize, h.past, b);
    } else if !b.header {
      EmptyBlock(h.content, h.chunkSize, b);
    }
  }

  /** What was sent for any other id, provided a dropped request is closed at most once. */
  lemma OtherForm(h: Handler, id: nat)
    requires Inv(h) && id !in Ids(Blocks(h))
    ensures Of(Messages(h.log), id) == Of(CancelledLog(h.log), id)
    ensures id !in h.dropped ==> Of(Messages(h.log), id) == []
  {
    OfAbsent(h.content, h.chunkSize, Blocks(h), id);
    OfLog(h.log, id);
    if id !in h.dropped { OfDropped(CancelledLog(h.log), h.dropped, id); }
  }

  /** A dropped request is closed by at most one message. */
  predicate DroppedOnce(h: Handler, id: nat) {
    Of(CancelledLog(h.log), id) == [] || (id in h.dropped && Of(CancelledLog(h.log), id) == [CloseResponse(id)])
  }

  lemma FramedCancels(h: Handler, t: Handler)
    requires Framed(h, t)
    ensures CancelledLog(t.log) == CancelledLog(h.log)
  {}

  lemma DroppedOnceStep(h: Handler, input: Input, id: nat)
    requires Inv(h) && Enabled(h, input) && Ready(h) && DroppedOnce(h, id)
    ensures DroppedOnce(Step(h, input), id)
  {
    match input {
      case Serve(ok) => FramedCancels(h, ServeStep(h, ok));
      case Cancel(d, ok) => CancelDropsOnce(h, d, ok, id);
      case _ =>
    }
  }

  lemma CancelDropsOnce(h: Handler, d: nat, ok: bool, id: nat)
    requires Inv(h) && DroppedOnce(h, id)
    ensures DroppedOnce(CancelRequest(h, d, ok), id)
  {
    CancelLogs(h, d, ok);
    if CancelRequest(h, d, ok).log != h.log { DropOnce(h, d, id); }
  }

  lemma CancelLogs(h: Handler, d: nat, ok: bool)
    ensures var t := CancelRequest(h, d, ok);
            || (t.log == h.log && t.dropped in {h.dropped, h.dropped + {d}})
            || (d in h.pending && t.log == h.log + [ByCancel(CloseResponse(d))] && t.dropped == h.dropped + {d})
  {}

  lemma DropOnce(h: Handler, d: nat, id: nat)
    requires Inv(h) && d in h.pending && DroppedOnce(h, id)
    ensures var ms := CancelledLog(h.log + [ByCancel(CloseResponse(d))]);
            Of(ms, id) == [] || (id in h.dropped + {d} && Of(ms, id) == [CloseResponse(id)])
  {
    Logged(h.log, ByCancel(CloseResponse(d)));
    var ms, m := CancelledLog(h.log), CloseResponse(d);
    assert (ms + [m])[..|ms|] == ms;
    Bookkeeping(h);
    if d == id { OfDropped(ms, h.dropped, id); }
  }

  lemma {:induction false} RunDroppedOnce(h: Handler, inputs: seq<Input>, id: nat)
    requires Inv(h) && DroppedOnce(h, id)
    ensures DroppedOnce(Run(h, inputs), id)
  {
    if inputs != [] {
      var before, input := Run(h, inputs[..|inputs| - 1]), inputs[|inputs| - 1];
      RunDroppedOnce(h, inputs[..|inputs| - 1], id);
      if Enabled(before, input) {
        StepKeeps(before, input);
        DroppedOnceStep(before, input, id);
      }
    }
  }

  lemma FormOf(h: Handler, id: nat) returns (form: Form)
    requires Inv(h) && DroppedOnce(h, id)
    ensures HasForm(h.content, h.chunkSize, id, Of(Messages(h.log), id), form)
  {
    IdsOf(Blocks(h));
    if id in Ids(Blocks(h)) {
      var b :| b in Blocks(h) && b.id == id;
      BlockForm(h, b);
      form := if !b.header then Nothing else if b.closed then ClosedEarly(b.chunks) else Partial(b.chunks);
    } else {
      OtherForm(h, id);
      form := if Of(Messages(h.log), id) == [] then Nothing else Dropped;
    }
  }

  /** In every run of a handler, what it sends for any request has one of the four forms: in
      particular a CloseResponse never follows a complete response, and is never sent twice. */
  lemma ResponseForm(content: Content, chunkSize: nat, inputs: seq<Input>, id: nat) returns (form: Form)
    requires 0 < |content.data| < U64 && 0 < chunkSize < U64
    ensures HasForm(content, chunkSize, id, Of(Messages(Run(NewHandlerInv(content, chunkSize), inputs).log), id), form)
  {
    var h0 := NewHandlerInv(content, chunkSize);
    assert DroppedOnce(h0, id);
    form := RunForm(h0, inputs, id);
  }

  lemma RunForm(h: Handler, inputs: seq<Input>, id: nat) returns (form: Form)
    requires Inv(h) && DroppedOnce(h, id)
    ensures HasForm(h.content, h.chunkSize, id, Of(Messages(Run(h, inputs).log), id), form)
  {
    RunDroppedOnce(h, inputs, id);
    form := FormOf(Run(h, inputs), id);
  }

  function NewHandlerInv(content: Content, chunkSize: nat): (h: Handler)
    requires 0 < |content.data| < U64 && 0 < chunkSize < U64
    ensures Inv(h) && h == NewHandler(content, chunkSize)
  {
    NewInv(content, chunkSize);
    NewHandler(content, chunkSize)
  }

  // ---- order ----

  /** The ids of the headers sent, in order. */
  function HeaderIds(ms: seq<ClientMessage>): seq<nat> {
    if ms == [] then []
    else
      var m, before := ms[|ms| - 1], HeaderIds(ms[..|ms| - 1]);
      if m.ContentHeader? then before + [m.Id()] else before
  }

  lemma {:induction false} HeaderIdsConcat(a: seq<ClientMessage>, b: seq<ClientMessage>)
    ensures HeaderIds(a + b) == HeaderIds(a) + HeaderIds(b)
  {
    if b == [] {
      assert a + b == a;
    } else {
      assert (a + b)[..|a + b| - 1] == a + b[..|b| - 1];
      HeaderIdsConcat(a, b[..|b| - 1]);
    }
  }

  lemma {:induction false} NoHeaders(ms: seq<ClientMessage>)
    requires forall m :: m in ms ==> !m.ContentHeader?
    ensures HeaderIds(ms) == []
  {
    if ms != [] { NoHeaders(ms[..|ms| - 1]); }
  }

  lemma {:induction false} ChunksAreChunks(c: Content, chunkSize: nat, id: nat, k: nat)
    ensures forall m :: m in ChunkList(c, chunkSize, id, k) ==> m.ContentChunk?
  {
    if !(k == 0 || k > U64 || (k - 1) * chunkSize >= |c.data|) {
      ChunksAreChunks(c, chunkSize, id, k - 1);
    }
  }

  lemma BlockHeader(c: Content, chunkSize: nat, b: Block)
    requires |c.data| < U64
    ensures HeaderIds(BlockMessages(c, chunkSize, b)) == if b.header then [b.id] else []
  {
    var head := if b.header then [HeaderMessage(c, b.id)] else [];
    var chunks, tail := ChunkList(c, chunkSize, b.id, b.chunks), if b.closed then [CloseResponse(b.id)] else [];
    ChunksAreChunks(c, chunkSize, b.id, b.chunks);
    NoHeaders(chunks);
    NoHeaders(tail);
    HeaderIdsConcat(head, chunks);
    HeaderIdsConcat(head + chunks, tail);
    if b.header { assert HeaderIds([]) == [] && head[..0] == []; }
  }

  lemma {:induction false} HeadersOfBlocks(c: Content, chunkSize: nat, blocks: seq<Block>)
    requires |c.data| < U64 && 0 < chunkSize && AllFinished(|c.data|, chunkSize, blocks)
    ensures HeaderIds(AllMessages(c, chunkSize, blocks)) == Ids(blocks)
  {
    if blocks != [] {
      var init, last := blocks[..|blocks| - 1], blocks[|blocks| - 1];
      HeadersOfBlocks(c, chunkSize, init);
      BlockHeader(c, chunkSize, last);
      HeaderIdsConcat(AllMessages(c, chunkSize, init), BlockMessages(c, chunkSize, last));
    }
  }

  /** In every run, headers go out in the order in which requests were enqueued, skipping exactly
      the ones that were cancelled in the queue. */
  lemma HeadersInOrder(h: Handler)
    requires Inv(h)
    ensures HeaderIds(ServedLog(h.log)) <= Kept(h.enqueued, h.dropped)
  {
    HeadersOfBlocks(h.content, h.chunkSize, h.past);
    if h.current.Some? {
      var b := h.current.value;
      OneMoreBlock(h.content, h.chunkSize, h.past, b);
      BlockHeader(h.content, h.chunkSize, b);
      HeaderIdsConcat(AllMessages(h.content, h.chunkSize, h.past), BlockMessages(h.content, h.chunkSize, b));
    }
  }

  /** The serve loop's messages about one request are contiguous. */
  predicate Contiguous(ms: seq<ClientMessage>) {
    forall i, j, k :: 0 <= i < j < k < |ms| && ms[i].Id() == ms[k].Id() ==> ms[j].Id() == ms[i].Id()
  }

  lemma {:induction false} BlocksContiguous(c: Content, chunkSize: nat, blocks: seq<Block>)
    requires |c.data| < U64 && NoRepeats(Ids(blocks))
    ensures Contiguous(AllMessages(c, chunkSize, blocks))
    ensures forall m :: m in AllMessages(c, chunkSize, blocks) ==> m.Id() in Ids(blocks)
  {
    if blocks != [] {
      var init, last := blocks[..|blocks| - 1], blocks[|blocks| - 1];
      Snoc(blocks);
      BlocksContiguous(c, chunkSize, init);
      BlockIsOnly(c, chunkSize, last);
      JoinContiguous(AllMessages(c, chunkSize, init), BlockMessages(c, chunkSize, last), last.id);
    }
  }

  lemma JoinContiguous(a: seq<ClientMessage>, b: seq<ClientMessage>, id: nat)
    requires Contiguous(a) && Only(b, id) && forall m :: m in a ==> m.Id() != id
    ensures Contiguous(a + b)
  {}

  /** In every run of a handler, responses are sent in the order of the requests and never interleave. */
  lemma ServingIsFifoAndExclusive(content: Content, chunkSize: nat, inputs: seq<Input>)
    requires 0 < |content.data| < U64 && 0 < chunkSize < U64
    ensures var h := Run(NewHandlerInv(content, chunkSize), inputs);
            && HeaderIds(ServedLog(h.log)) <= Kept(h.enqueued, h.dropped)
            && Contiguous(ServedLog(h.log))
  {
    var h := Run(NewHandlerInv(content, chunkSize), inputs);
    HeadersInOrder(h);
    Bookkeeping(h);
    BlocksContiguous(content, chunkSize, Blocks(h));
  }

  // ---- stopping ----

  /** The message that the serve thread has prepared, if any. */
  function Prepared(h: Handler): seq<ClientMessage>
    requires Ready(h)
  {
    if h.pc.HeaderReady? then [HeaderMessage(h.content, h.handling.value)]
    else if h.pc.ChunkReady? then [ContentChunk(h.handling.value, h.sequence - 1, h.pc.data)]
    else []
  }

  /** What the serve loop may still send once it was asked to stop: a prepared message, then a close. */
  predicate LastWords(h: Handler, tail: seq<ClientMessage>)
    requires Ready(h)
  {
    || tail == []
    || tail == Prepared(h)
    || (h.handling.Some? && tail == [CloseResponse(h.handling.value)])
    || (h.handling.Some? && tail == Prepared(h) + [CloseResponse(h.handling.value)])
  }

  /** How many steps the serve thread has left once it was asked to stop. */
  function StepsToExit(h: Handler): nat {
    match h.pc
    case Exited => 0
    case HeaderReady => 2
    case ChunkReady(_) => 2
    case Callback => 2
    case _ => 1
  }

  /** At the head of the loop, a stopping serve thread closes a cancelled response and leaves. */
  lemma StopAtHead(h: Handler, ok: bool)
    requires h.stop && h.current.Some?
    ensures var t := IterationEnd(h, ok);
            && t.done && t.pc.Exited? && t.handling.None?
            && (t.log == h.log || (h.handling.Some? && t.log == h.log + [ByServe(CloseResponse(h.handling.value))]))
    ensures var t := LoopHead(h, ok);
            && t.done && t.pc.Exited? && t.handling.None?
            && (t.log == h.log || (h.handling.Some? && t.log == h.log + [ByServe(CloseResponse(h.handling.value))]))
  {}

  predicate StopsWell(h: Handler, t: Handler)
    requires Ready(h)
  {
    && StepsToExit(t) < StepsToExit(h)
    && (Prepared(h) != [] ==> !t.done && t.handling == h.handling && t.log in {h.log, h.log + [ByServe(Prepared(h)[0])]})
    && (Prepared(h) == [] ==> t.log == h.log || (h.handling.Some? && t.log == h.log + [ByServe(CloseResponse(h.handling.value))] && t.done))
    && (!t.done ==> t.handling == h.handling && !t.pc.HeaderReady? && !t.pc.ChunkReady?)
  }

  lemma StoppingSent(h: Handler, ok: bool)
    requires Ready(h) && CanServe(h) && h.stop && !h.done && h.pc.ChunkSent? && (h.pc.ok ==> h.cancel)
    ensures StopsWell(h, ServeStep(h, ok))
  {}

  lemma StoppingElse(h: Handler, ok: bool)
    requires Ready(h) && CanServe(h) && h.stop && !h.done && !h.pc.ChunkSent? && (h.pc.HeaderSent? && h.pc.ok ==> h.cancel)
    ensures StopsWell(h, ServeStep(h, ok))
  {
    if h.current.Some? { StopAtHead(h, ok); }
  }

  /** Once asked to stop, the serve thread can always run, comes closer to its end with each step, and
      sends nothing but the prepared message and a close for the request it was handling. */
  lemma StoppingStep(h: Handler, ok: bool)
    requires Inv(h) && h.stop && !h.done
    ensures CanServe(h) && Ready(h) && StopsWell(h, ServeStep(h, ok))
  {
    InvReady(h);
    if h.pc.ChunkSent? { StoppingSent(h, ok); } else { StoppingElse(h, ok); }
  }

  /** Other threads do not hold up a stopping serve thread, nor add to what it sends. */
  lemma StoppingOthers(h: Handler, input: Input)
    requires h.stop && !input.Serve? && Enabled(h, input) && Ready(h)
    ensures var t := Step(h, input);
            && t.stop && StepsToExit(t) == StepsToExit(h) && t.handling == h.handling && t.pc == h.pc && t.done == h.done
            && t.sequence == h.sequence && t.content == h.content && ServedLog(t.log) == ServedLog(h.log)
  {
    if input.Cancel? {
      Logged(h.log, ByCancel(CloseResponse(input.id)));
    }
  }

  /** How far a stopping serve thread has got: it has not run, or has nothing prepared any more, or is done. */
  ghost predicate Since(h: Handler, t: Handler)
    requires Ready(h)
  {
    && t.stop
    && var before, now := ServedLog(h.log), ServedLog(t.log);
    || (t.pc == h.pc && t.handling == h.handling && t.sequence == h.sequence && t.content == h.content && t.done == h.done && now == before)
    || (!t.done && t.handling == h.handling && !t.pc.HeaderReady? && !t.pc.ChunkReady? && (now == before || now == before + Prepared(h)))
    || (t.done && exists tail :: LastWords(h, tail) && now == before + tail)
  }

  lemma SinceServe(h: Handler, t: Handler, u: Handler)
    requires Ready(h) && Ready(t) && !t.done && u.stop && Since(h, t) && StopsWell(t, u)
    ensures Since(h, u)
  {
    var before, now := ServedLog(h.log), ServedLog(t.log);
    if Prepared(t) != [] {
      assert Prepared(t) == Prepared(h) && Prepared(h) == [Prepared(h)[0]];
      Logged(t.log, ByServe(Prepared(t)[0]));
    } else {
      var tail := if now == before then [] else Prepared(h);
      assert now == before + tail;
      if u.log == t.log {
        if u.done { assert LastWords(h, tail) && ServedLog(u.log) == before + tail; }
      } else {
        SinceClosed(h, t, u, tail);
      }
    }
  }

  lemma SinceDone(h: Handler, u: Handler, tail: seq<ClientMessage>)
    requires Ready(h) && u.stop && u.done && LastWords(h, tail) && ServedLog(u.log) == ServedLog(h.log) + tail
    ensures Since(h, u)
  {}

  lemma SinceClosed(h: Handler, t: Handler, u: Handler, tail: seq<ClientMessage>)
    requires Ready(h) && u.stop && u.done && t.handling == h.handling && h.handling.Some?
    requires u.log == t.log + [ByServe(CloseResponse(h.handling.value))]
    requires ServedLog(t.log) == ServedLog(h.log) + tail && (tail == [] || tail == Prepared(h))
    ensures Since(h, u)
  {
    var m := CloseResponse(h.handling.value);
    Logged(t.log, ByServe(m));
    ClosingWords(h, tail, m);
    assert ServedLog(h.log) + tail + [m] == ServedLog(h.log) + (tail + [m]);
    SinceDone(h, u, tail + [m]);
  }

  lemma ClosingWords(h: Handler, tail: seq<ClientMessage>, m: ClientMessage)
    requires Ready(h) && h.handling.Some? && m == CloseResponse(h.handling.value) && (tail == [] || tail == Prepared(h))
    ensures LastWords(h, tail + [m])
  {}

  /** From the moment graceful exit is requested, whatever the threads do: the serve thread sends at
      most the message it had prepared and then at most one CloseResponse. */
  lemma {:induction false} ExitIsPrompt(h: Handler, inputs: seq<Input>)
    requires Inv(h) && h.stop
    ensures Ready(h) && Since(h, Run(h, inputs))
    ensures exists tail :: LastWords(h, tail) && ServedLog(Run(h, inputs).log) == ServedLog(h.log) + tail
  {
    InvReady(h);
    if inputs != [] {
      var t, input := Run(h, inputs[..|inputs| - 1]), inputs[|inputs| - 1];
      ExitIsPrompt(h, inputs[..|inputs| - 1]);
      if Enabled(t, input) { SinceStep(h, t, input); }
    }
    SinceTail(h, Run(h, inputs));
  }

  lemma SinceStep(h: Handler, t: Handler, input: Input)
    requires Inv(h) && Ready(h) && Inv(t) && Since(h, t) && Enabled(t, input)
    ensures Ready(t) && Since(h, Step(t, input))
  {
    InvReady(t);
    if input.Serve? {
      StoppingStep(t, input.ok);
      SinceServe(h, t, ServeStep(t, input.ok));
    } else {
      StoppingOthers(t, input);
    }
  }

  lemma SinceTail(h: Handler, t: Handler)
    requires Ready(h) && Since(h, t)
    ensures exists tail :: LastWords(h, tail) && ServedLog(t.log) == ServedLog(h.log) + tail
  {
    var before, now := ServedLog(h.log), ServedLog(t.log);
    if now == before {
      assert LastWords(h, []) && now == before + [];
    } else if now == before + Prepared(h) {
      assert LastWords(h, Prepared(h));
    }
  }

  /** Nothing moves in a handler that is done. A request that is still in its queue then is never
      answered: nothing was sent for it, and nothing ever will be, whoever cancels it. */
  lemma {:induction false} LeftInQueue(h: Handler, inputs: seq<Input>, id: nat)
    requires Inv(h) && h.done && id in h.pending
    ensures Run(h, inputs) == h && Of(Messages(Run(h, inputs).log), id) == []
  {
    if inputs == [] {
      Bookkeeping(h);
      IdsOf(Blocks(h));
      OtherForm(h, id);
    } else {
      LeftInQueue(h, inputs[..|inputs| - 1], id);
    }
  }

  // ---- which requests are left ----

  /** A send in this step succeeds. */
  predicate GoesOut(input: Input) {
    (input.Serve? ==> input.ok) && (input.Cancel? ==> input.ok)
  }

  predicate AllGoOut(inputs: seq<Input>) {
    forall i :: 0 <= i < |inputs| ==> GoesOut(inputs[i])
  }

  /** What holds while sends succeed: the serve loop leaves only when it is asked to stop, and not in
      the middle of a response. */
  predicate Smooth(h: Handler) {
    && (h.pc.HeaderSent? ==> h.pc.ok) && (h.pc.ChunkSent? ==> h.pc.ok)
    && (h.pc.Exited? ==> h.current.None? && h.stop)
  }

  lemma HeadSmooth(h: Handler)
    requires h.current.Some?
    ensures Smooth(LoopHead(h, true)) && Smooth(IterationEnd(h, true)) && Smooth(AfterChunks(h, true))
  {}

  lemma ReadSmooth(h: Handler)
    requires h.current.Some? && h.total <= |h.content.data|
    ensures Smooth(ReadChunk(h, true))
  {
    HeadSmooth(h);
    HeadSmooth(h.(good := false));
  }

  lemma ServeSmooth(h: Handler)
    requires Inv(h) && Ready(h) && CanServe(h) && Smooth(h)
    ensures Smooth(ServeStep(h, true))
  {
    match h.pc {
      case HeaderSent(_) =>
        HeadSmooth(h);
        ReadSmooth(h);
      case ChunkSent(n, _) =>
        SentCounts(h);
        SentStepIs(h, true);
        HeadSmooth(h.(total := h.total + n));
        ReadSmooth(h.(total := h.total + n));
      case CallbackDone => HeadSmooth(h);
      case _ =>
    }
  }

  lemma StepSmooth(h: Handler, input: Input)
    requires Inv(h) && Ready(h) && Enabled(h, input) && Smooth(h) && GoesOut(input)
    ensures Smooth(Step(h, input))
  {
    if input.Serve? { ServeSmooth(h); }
  }

  /** A request that was dropped from the queue was closed. */
  predicate DropIsClosed(h: Handler, id: nat) {
    id in h.dropped ==> CloseResponse(id) in CancelledLog(h.log)
  }

  lemma StepDropIsClosed(h: Handler, input: Input, id: nat)
    requires Ready(h) && Enabled(h, input) && DropIsClosed(h, id) && GoesOut(input)
    ensures DropIsClosed(Step(h, input), id)
  {
    if input.Serve? {
      FramedCancels(h, Step(h, input));
    } else if input.Cancel? {
      Logged(h.log, ByCancel(CloseResponse(input.id)));
    }
  }

  lemma {:induction false} RunSmooth(h: Handler, inputs: seq<Input>, id: nat)
    requires Inv(h) && Smooth(h) && DropIsClosed(h, id) && AllGoOut(inputs)
    ensures Smooth(Run(h, inputs)) && DropIsClosed(Run(h, inputs), id)
  {
    if inputs != [] {
      var init, input := inputs[..|inputs| - 1], inputs[|inputs| - 1];
      RunSmooth(h, init, id);
      var t := Run(h, init);
      if Enabled(t, input) {
        StepKeeps(t, input);
        StepSmooth(t, input);
        StepDropIsClosed(t, input, id);
      }
    }
  }

  lemma {:induction false} OfMember(ms: seq<ClientMessage>, m: ClientMessage)
    requires m in ms
    ensures Of(ms, m.Id()) != []
  {
    if ms[|ms| - 1] != m { OfMember(ms[..|ms| - 1], m); }
  }

  /** The response has come to its end: complete, closed early, or dropped. */
  predicate Concluded(c: Content, chunkSize: nat, id: nat, ms: seq<ClientMessage>, form: Form)
    requires |c.data| < U64 && 0 < chunkSize
  {
    HasForm(c, chunkSize, id, ms, form) && !form.Nothing? && (form.Partial? ==> form.k == NumChunks(|c.data|, chunkSize))
  }

  /** Where a request stands when the handler is done. */
  lemma WhenDone(h: Handler, id: nat) returns (form: Form)
    requires Inv(h) && DroppedOnce(h, id) && Smooth(h) && DropIsClosed(h, id) && h.done && id in h.enqueued
    ensures Of(Messages(h.log), id) == [] <==> id in h.pending
    ensures id !in h.pending ==> Concluded(h.content, h.chunkSize, id, Of(Messages(h.log), id), form)
  {
    Bookkeeping(h);
    IdsOf(h.past);
    form := Nothing;
    if id in h.pending {
      OtherForm(h, id);
    } else if id in h.dropped {
      OtherForm(h, id);
      OfMember(CancelledLog(h.log), CloseResponse(id));
      form := Dropped;
    } else {
      TakenWhenDone(h, id);
      var b :| b in h.past && b.id == id;
      BlockForm(h, b);
      FinishedBlock(|h.content.data|, h.chunkSize, h.past, b);
      form := if b.closed then ClosedEarly(b.chunks) else Partial(b.chunks);
    }
  }

  lemma TakenWhenDone(h: Handler, id: nat)
    requires Inv(h) && h.current.None? && id in h.enqueued && id !in h.dropped && id !in h.pending
    ensures id in Ids(h.past)
  {
    KeptElements(h.enqueued, h.dropped);
    assert id in Kept(h.enqueued, h.dropped);
  }

  /** In every run whose sends succeed: when the handler is done, the requests that nothing was sent
      for are exactly those left in its queue; every other one was answered to its end. */
  lemma UnansweredExactlyWhenLeft(content: Content, chunkSize: nat, inputs: seq<Input>, id: nat) returns (form: Form)
    requires 0 < |content.data| < U64 && 0 < chunkSize < U64 && AllGoOut(inputs)
    requires var h := Run(NewHandlerInv(content, chunkSize), inputs); h.done && id in h.enqueued
    ensures var h := Run(NewHandlerInv(content, chunkSize), inputs);
            && (Of(Messages(h.log), id) == [] <==> id in h.pending)
            && (id !in h.pending ==> Concluded(content, chunkSize, id, Of(Messages(h.log), id), form))
  {
    var h0 := NewHandlerInv(content, chunkSize);
    assert DroppedOnce(h0, id);
    RunDroppedOnce(h0, inputs, id);
    RunSmooth(h0, inputs, id);
    form := WhenDone(Run(h0, inputs), id);
  }

  // ---- cancellation ----

  /** Somebody asked for this response to be closed. */
  predicate Asked(inputs: seq<Input>, id: nat) {
    exists i :: 0 <= i < |inputs| && (inputs[i].GracefulExit? || (inputs[i].Cancel? && inputs[i].id == id))
  }

  lemma StillAsked(inputs: seq<Input>, id: nat)
    requires inputs != [] && Asked(inputs[..|inputs| - 1], id)
    ensures Asked(inputs, id)
  {}

  /** A response is closed only on request: by a cancellation of this very id, or by graceful exit. */
  lemma ClosedOnlyOnRequest(content: Content, chunkSize: nat, inputs: seq<Input>, id: nat)
    requires 0 < |content.data| < U64 && 0 < chunkSize < U64
    ensures CloseResponse(id) in Messages(Run(NewHandlerInv(content, chunkSize), inputs).log) ==> Asked(inputs, id)
  {
    RunAsked(NewHandlerInv(content, chunkSize), inputs, id);
  }

  predicate Closing(h: Handler, id: nat) {
    (h.cancel && h.handling == Some(id)) || CloseResponse(id) in Messages(h.log)
  }

  lemma {:induction false} RunAsked(h0: Handler, inputs: seq<Input>, id: nat)
    requires Inv(h0) && !Closing(h0, id)
    ensures Closing(Run(h0, inputs), id) ==> Asked(inputs, id)
  {
    if inputs != [] {
      var init, input := inputs[..|inputs| - 1], inputs[|inputs| - 1];
      var h := Run(h0, init);
      RunAsked(h0, init, id);
      if Asked(init, id) {
        StillAsked(inputs, id);
      } else if Enabled(h, input) {
        StepAsked(h, inputs, input, id);
      }
    }
  }

  lemma StepAsked(h: Handler, inputs: seq<Input>, input: Input, id: nat)
    requires Inv(h) && !Closing(h, id) && Enabled(h, input) && inputs != [] && inputs[|inputs| - 1] == input
    ensures Ready(h)
    ensures Closing(Step(h, input), id) ==> Asked(inputs, id)
  {
    InvReady(h);
    if Closing(Step(h, input), id) {
      NewCloses(h, input, id);
    }
  }

  lemma NewCloses(h: Handler, input: Input, id: nat)
    requires Enabled(h, input) && Ready(h) && !Closing(h, id) && Closing(Step(h, input), id)
    ensures input.GracefulExit? || (input.Cancel? && input.id == id)
  {}
}
