/** A request handler of the C++ client (client/src/request_handler.cpp): one serve thread that races
    with enqueueing, cancelling and graceful exit. A step is what a thread does between two releases
    of the data lock; a send with the lock released is a step of its own. */
module Handler {
  import opened Wire

  datatype Content = Content(
    contentType: string,
    data: seq<Byte>,
    maxCacheDuration: Option<nat>,
    filename: Option<string>)

  /** Where the serve thread stands. The lock is released in each of these places. */
  datatype Pc =
    | Waiting                        // for a request, or for the stop flag
    | HeaderReady                    // about to send the header
    | HeaderSent(ok: bool)
    | ChunkReady(data: seq<Byte>)    // about to send the chunk with the last sequence number
    | ChunkSent(n: nat, ok: bool)
    | Callback                       // about to report the response as sent
    | CallbackDone
    | Exited

  /** Who sent a message: the serve loop, or a cancellation of a request that was still queued. */
  datatype Emission = ByServe(m: ClientMessage) | ByCancel(m: ClientMessage)

  /** History: what was sent for one request that the serve loop took from the queue. */
  datatype Block = Block(id: nat, header: bool, chunks: nat, closed: bool)

  /** `sequence`, `total` and `good` are the locals of the serve loop: the next chunk number, the
      bytes sent, and the state of the stream. The last four fields record the history. */
  datatype Handler = Handler(
    content: Content,
    chunkSize: nat,
    pending: seq<nat>,
    handling: Option<nat>,
    cancel: bool,
    stop: bool,
    done: bool,
    pc: Pc,
    sequence: nat,
    total: nat,
    good: bool,
    log: seq<Emission>,
    enqueued: seq<nat>,
    dropped: set<nat>,
    past: seq<Block>,
    current: Option<Block>)

  function NewHandler(content: Content, chunkSize: nat): Handler {
    Handler(content, chunkSize, [], None, false, false, false, Waiting, 0, 0, true, [], [], {}, [], None)
  }

  function HeaderMessage(c: Content, id: nat): ClientMessage
    requires |c.data| < U64
  {
    ContentHeader(Header(id, c.contentType, |c.data|, c.maxCacheDuration, c.filename))
  }

  function Served(h: Handler, m: ClientMessage): Handler {
    h.(log := h.log + [ByServe(m)])
  }

  /** What a step of the serve thread leaves alone. It sends at most one message. */
  predicate Framed(h: Handler, t: Handler) {
    && t.content == h.content && t.chunkSize == h.chunkSize && t.stop == h.stop
    && t.enqueued == h.enqueued && t.dropped == h.dropped
    && (t.log == h.log || (|t.log| == |h.log| + 1 && t.log[..|h.log|] == h.log && t.log[|h.log|].ByServe?))
    && (t.cancel && t.handling.Some? ==> h.cancel && t.handling == h.handling)
    && (t.log != h.log && t.log[|h.log|].m.CloseResponse? ==> h.cancel && h.handling == Some(t.log[|h.log|].m.requestId))
  }

  // ---- the sections of the serve loop ----

  /** Leaving the loop: the deferred action resets the handled request and reports the end. */
  function Exit(h: Handler): Handler {
    h.(handling := None, done := true, pc := Exited)
  }

  /** From the wait on: leave, take the next request, or wait with the lock released. */
  function Next(h: Handler): (t: Handler)
    requires !h.cancel
    ensures Framed(h, t) && t.log == h.log
  {
    if h.stop then Exit(h)
    else if h.pending == [] then h.(pc := Waiting)
    else
      h.(pending := h.pending[1..],
         handling := Some(h.pending[0]),
         sequence := 0, total := 0, good := true,
         current := Some(Block(h.pending[0], false, 0, false)),
         pc := HeaderReady)
  }

  /** The head of the loop: close the response of a cancelled request, forget it, go on. */
  function LoopHead(h: Handler, ok: bool): (t: Handler)
    requires h.current.Some?
    ensures Framed(h, t)
  {
    if h.cancel && h.handling.Some? then
      if !ok then Exit(h)
      else
        var h1 := Served(h, CloseResponse(h.handling.value));
        Next(h1.(handling := None, cancel := false,
                 past := h.past + [h.current.value.(closed := true)], current := None))
    else
      Next(h.(handling := None, cancel := false, past := h.past + [h.current.value], current := None))
  }

  /** The end of an iteration: a complete response does not need to be cancelled any more. */
  function IterationEnd(h: Handler, ok: bool): (t: Handler)
    requires h.current.Some?
    ensures Framed(h, t)
  {
    LoopHead(if h.total == |h.content.data| then h.(cancel := false) else h, ok)
  }

  /** After the chunk loop: report a response that was not cancelled, with the lock released. */
  function AfterChunks(h: Handler, ok: bool): (t: Handler)
    requires h.current.Some?
    ensures Framed(h, t)
  {
    if !h.cancel then h.(pc := Callback) else IterationEnd(h, ok)
  }

  /** The head of the chunk loop. The stream yields up to chunkSize bytes from its position, and is
      no longer good once it could not fill the buffer. */
  function ReadChunk(h: Handler, ok: bool): (t: Handler)
    requires h.current.Some? && h.total <= |h.content.data|
    ensures Framed(h, t)
  {
    if !h.good then AfterChunks(h, ok)
    else
      var left := |h.content.data| - h.total;
      var n := if left < h.chunkSize then left else h.chunkSize;
      var h1 := h.(good := n == h.chunkSize);
      if n == 0 then AfterChunks(h1, ok)
      else h1.(sequence := h.sequence + 1, pc := ChunkReady(h.content.data[h.total..h.total + n]))
  }

  /** The serve thread can run unless it waits with nothing to do, or has exited. */
  predicate CanServe(h: Handler) {
    !h.pc.Exited? && (h.pc.Waiting? ==> h.stop || h.pending != [])
  }

  /** What the steps of the serve thread rely on between them. */
  predicate Ready(h: Handler) {
    && 0 < |h.content.data| < U64 && 0 < h.chunkSize < U64
    && (!h.pc.Waiting? && !h.pc.Exited? ==> h.current.Some? && h.handling == Some(h.current.value.id))
    && (h.pc.Waiting? ==> !h.cancel)
    && (h.pc.ChunkReady? ==> 0 < h.sequence < U64 && h.total + |h.pc.data| <= |h.content.data|)
    && (h.pc.ChunkSent? ==> h.total + h.pc.n <= |h.content.data|)
    && h.total <= |h.content.data|
  }

  /** After the header was sent, or its sending failed. */
  function HeaderWasSent(h: Handler, sent: bool, ok: bool): (t: Handler)
    requires h.current.Some? && h.total <= |h.content.data|
    ensures Framed(h, t)
  {
    if !sent then Exit(h)
    else if h.cancel then LoopHead(h, ok)
    else if h.stop then Exit(h)
    else ReadChunk(h, ok)
  }

  /** After a chunk of n bytes was sent, or its sending failed. */
  function ChunkWasSent(h: Handler, n: nat, sent: bool, ok: bool): (t: Handler)
    requires h.current.Some? && h.total + n <= |h.content.data|
    ensures Framed(h, t)
  {
    if !sent then Exit(h)
    else
      var h1 := h.(total := h.total + n);
      if h.cancel then AfterChunks(h1, ok)
      else if h.stop then Exit(h1)
      else ReadChunk(h1, ok)
  }

  /** One step of the serve thread; `ok` tells how a send in this step goes. */
  function ServeStep(h: Handler, ok: bool): (t: Handler)
    requires CanServe(h) && Ready(h)
    ensures Framed(h, t)
  {
    match h.pc
    case Waiting => Next(h)
    case HeaderReady =>
      if ok then
        Served(h, HeaderMessage(h.content, h.handling.value)).(
          pc := HeaderSent(true), current := Some(h.current.value.(header := true)))
      else h.(pc := HeaderSent(false))
    case HeaderSent(sent) => HeaderWasSent(h, sent, ok)
    case ChunkReady(data) =>
      if ok then
        Served(h, ContentChunk(h.handling.value, h.sequence - 1, data)).(
          pc := ChunkSent(|data|, true), current := Some(h.current.value.(chunks := h.current.value.chunks + 1)))
      else h.(pc := ChunkSent(|data|, false))
    case ChunkSent(n, sent) => ChunkWasSent(h, n, sent, ok)
    case Callback => h.(pc := CallbackDone)
    case CallbackDone => IterationEnd(h, ok)
  }

  // ---- the other threads ----

  function Enqueue(h: Handler, id: nat): Handler {
    if h.done then h else h.(pending := h.pending + [id], enqueued := h.enqueued + [id])
  }

  /** The queue without the first occurrence of an id. */
  function Without(ids: seq<nat>, id: nat): seq<nat> {
    if ids == [] then [] else if ids[0] == id then ids[1..] else [ids[0]] + Without(ids[1..], id)
  }

  function CancelRequest(h: Handler, id: nat, ok: bool): Handler {
    if h.done then h
    else if h.handling == Some(id) then h.(cancel := true)
    else if id in h.pending then
      var h1 := h.(pending := Without(h.pending, id), dropped := h.dropped + {id});
      if ok then h1.(log := h.log + [ByCancel(CloseResponse(id))]) else h1
    else h
  }

  /** The first part of exit_gracefully; the caller then waits until the serve loop is done. */
  function RequestExit(h: Handler): Handler {
    if h.done then h
    else h.(cancel := h.cancel || h.handling.Some?, stop := true)
  }

  datatype Input =
    | Serve(ok: bool)
    | Add(id: nat)
    | Cancel(id: nat, ok: bool)
    | GracefulExit

  /** Request ids are never used twice, and a handler is asked to exit once. */
  predicate Enabled(h: Handler, input: Input) {
    match input
    case Serve(_) => CanServe(h)
    case Add(id) => id !in h.enqueued
    case Cancel(_, _) => true
    case GracefulExit => !h.stop || h.done
  }

  function Step(h: Handler, input: Input): Handler
    requires Enabled(h, input) && Ready(h)
  {
    match input
    case Serve(ok) => ServeStep(h, ok)
    case Add(id) => Enqueue(h, id)
    case Cancel(id, ok) => CancelRequest(h, id, ok)
    case GracefulExit => RequestExit(h)
  }
}
