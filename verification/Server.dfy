/** The protocol loop of one server-side client connection (pkg/server/client.go), on values.
    Every handler is a function from the state before it to the state after it; the class in
    ServerLoop carries out the same handlers in place. */
module Server {
  import opened Wire
  import opened History

  /** The chunk channel of a response is the list of chunks ever put on it, and whether it was closed. */
  datatype ResponseState = ResponseState(
    header: Header,
    chunkSequence: u64,
    chunks: seq<seq<Byte>>,
    chunksClosed: bool)

  /** The one-slot channel that hands the response to the caller. It is closed as soon as it is filled. */
  datatype Handover = Pending | HandedOver(header: Option<Header>)

  datatype RequestState = RequestState(
    id: nat,
    path: string,
    created: int,
    lastUpdated: int,
    handover: Handover,
    response: Option<ResponseState>,
    completed: bool,
    closed: bool)

  /** Stopping: the done channel was closed by the handler that is still running.
      Panicked: a panic statement or a misuse of a closed channel was reached. */
  datatype Status = Open | Stopping | Ended | Panicked

  /** `requests` is the map of in-flight requests; `gone` remembers the request objects that were
      deleted from it, which HTTP handlers may still hold. */
  datatype Server = Server(
    status: Status,
    requests: map<nat, RequestState>,
    gone: map<nat, RequestState>,
    nextRequest: nat,
    hist: seq<Event>)

  datatype Err =
    | NoError
    | ErrRequestDeleted
    | ErrRequestClosed
    | ErrRequestCompleted
    | ErrRequestNotCompleted
    | ErrClientClosed

  const Initial := Server(Open, map[], map[], 0, [])

  // ---- operations on one request ----

  function NewRequest(id: nat, path: string, now: int): RequestState {
    RequestState(id, path, now, now, Pending, None, false, false)
  }

  function ResetTimeout(r: RequestState, now: int): RequestState {
    if r.closed then r else r.(lastUpdated := now)
  }

  function CloseChannel(r: RequestState): RequestState {
    if r.completed || r.closed then r else r.(closed := true)
  }

  /** None stands for a panic: a second response, or a second value on the hand-over channel. */
  function ProvideResponse(r: RequestState, response: Option<ResponseState>): Option<RequestState> {
    if r.response.Some? then None
    else if r.closed then Some(r.(response := response))
    else if r.handover.HandedOver? then None
    else Some(r.(response := response,
                 handover := HandedOver(if response.Some? then Some(response.value.header) else None)))
  }

  datatype ChunkInfo = ChunkInfo(sequence: u64, size: nat, last: bool)

  /** None stands for a panic: everything was already received. Products and sums wrap at 2^64. */
  function NextChunkInfo(cfg: Config, response: ResponseState): Option<(ResponseState, ChunkInfo)> {
    var total := response.header.contentSize;
    var received := (response.chunkSequence * cfg.chunkSize) % U64;
    if received >= total then None
    else
      var size := if total - received < cfg.chunkSize then total - received else cfg.chunkSize;
      Some((response.(chunkSequence := (response.chunkSequence + 1) % U64),
            ChunkInfo(response.chunkSequence, size, (received + size) % U64 == total)))
  }

  /** None stands for a panic: sending on a closed channel. */
  function WriteChunk(r: RequestState, data: seq<Byte>): Option<RequestState>
    requires r.response.Some?
  {
    if r.closed then Some(r)
    else if r.response.value.chunksClosed then None
    else Some(r.(response := Some(r.response.value.(chunks := r.response.value.chunks + [data]))))
  }

  // ---- operations on the connection ----

  function Put(s: Server, r: RequestState): Server {
    s.(requests := s.requests[r.id := r])
  }

  function Delete(s: Server, id: nat): Server {
    if id !in s.requests then s
    else s.(requests := s.requests - {id}, gone := s.gone[id := s.requests[id]])
  }

  function Accept(s: Server, m: ClientMessage): Server {
    s.(hist := s.hist + [In(m)])
  }

  function Send(s: Server, m: ServerMessage): Server {
    s.(hist := s.hist + [Out(m)])
  }

  function EndConnection(s: Server, reason: Reason): Server {
    Send(s, Close(reason)).(status := Stopping)
  }

  function Refuse(s: Server, m: ClientMessage, reason: Reason): Server {
    EndConnection(s.(hist := s.hist + [Refused(m)]), reason)
  }

  function Panic(s: Server): Server {
    s.(status := Panicked)
  }

  function CompleteRequest(s: Server, r: RequestState): Server {
    if r.completed then Panic(s)
    else if r.closed then Delete(s, r.id)
    else
      var r1 := r.(completed := true);
      if r1.response.None? then Put(s, r1)
      else if r1.response.value.chunksClosed then Panic(s)
      else Put(s, r1.(response := Some(r1.response.value.(chunksClosed := true))))
  }

  /** Whether completeRequest runs without a panic. */
  predicate Completable(r: RequestState) {
    !r.completed && (r.closed || r.response.None? || !r.response.value.chunksClosed)
  }

  lemma PutTwice(s: Server, r: RequestState, r': RequestState)
    requires r.id == r'.id
    ensures Put(Put(s, r), r') == Put(s, r')
  {}

  function OnCloseResponse(s: Server, id: nat): Server {
    var m := CloseResponse(id);
    if id !in s.requests then Refuse(s, m, InvalidRequestId)
    else
      var r := s.requests[id];
      if r.response.None? then Refuse(s, m, InvalidClientMessage)
      else if r.completed then Refuse(s, m, InvalidClientMessage)
      else Delete(Put(Accept(s, m), CloseChannel(r)), r.id)
  }

  function OnEmptyResponse(s: Server, id: nat): Server {
    var m := EmptyResponse(id);
    if id !in s.requests then Refuse(s, m, InvalidRequestId)
    else
      var r := s.requests[id];
      if r.id != id then Panic(s)
      else if r.response.Some? then Refuse(s, m, InvalidClientMessage)
      else
        match ProvideResponse(r, None)
        case None => Panic(s)
        case Some(r1) =>
          var s1 := CompleteRequest(Put(Accept(s, m), r1), r1);
          if s1.status.Panicked? then s1 else Delete(s1, id)
  }

  function OnContentHeader(cfg: Config, s: Server, header: Header, now: int): Server {
    var m := ContentHeader(header);
    var id := header.requestId;
    if id !in s.requests then Refuse(s, m, InvalidRequestId)
    else
      var r := s.requests[id];
      if r.id != id then Panic(s)
      else if r.response.Some? then Refuse(s, m, InvalidClientMessage)
      else if header.contentSize > cfg.maxContentSize then Refuse(s, m, InvalidContentSize)
      else if header.contentSize == 0 then Refuse(s, m, InvalidContentSize)
      else if header.filename.Some? && |header.filename.value| == 0 then Refuse(s, m, InvalidFilename)
      else if MediaType(header.contentType) !in cfg.contentTypes then Refuse(s, m, ForbiddenContentType)
      else
        match ProvideResponse(ResetTimeout(r, now), Some(ResponseState(header, 0, [], false)))
        case None => Panic(s)
        case Some(r1) => Put(Accept(s, m), r1)
  }

  function OnContentChunk(cfg: Config, s: Server, m: ClientMessage, now: int): Server
    requires m.ContentChunk?
  {
    var id := m.requestId;
    if id !in s.requests then Refuse(s, m, InvalidRequestId)
    else
      var r := s.requests[id];
      if r.id != id then Panic(s)
      else if r.response.None? then Refuse(s, m, InvalidClientMessage)
      else if r.completed then Refuse(s, m, InvalidClientMessage)
      else
        match NextChunkInfo(cfg, r.response.value)
        case None => Panic(s)
        case Some((response, expected)) =>
          var r1 := r.(response := Some(response));
          if m.sequence != expected.sequence then Refuse(Put(s, r1), m, ChunkOutOfSequence)
          else if |m.data| != expected.size then Refuse(Put(s, r1), m, InvalidChunkSize)
          else
            match WriteChunk(ResetTimeout(r1, now), m.data)
            case None => Panic(s)
            case Some(r2) =>
              var s1 := Put(Accept(s, m), r2);
              if expected.last then CompleteRequest(s1, r2) else s1
  }

  /** The chunk handler step by step, for a caller that has already used up the chunk number. */
  lemma ChunkSteps(cfg: Config, s: Server, m: ClientMessage, now: int)
    requires m.ContentChunk? && m.requestId in s.requests && s.requests[m.requestId].id == m.requestId
    requires s.requests[m.requestId].response.Some? && !s.requests[m.requestId].completed
    requires !s.status.Panicked? && !OnContentChunk(cfg, s, m, now).status.Panicked?
    ensures NextChunkInfo(cfg, s.requests[m.requestId].response.value).Some?
    ensures var r := s.requests[m.requestId];
            var (response, expected) := NextChunkInfo(cfg, r.response.value).value;
            var r1 := r.(response := Some(response));
            var s1 := Put(s, r1);
            if m.sequence != expected.sequence then OnContentChunk(cfg, s, m, now) == Refuse(s1, m, ChunkOutOfSequence)
            else if |m.data| != expected.size then OnContentChunk(cfg, s, m, now) == Refuse(s1, m, InvalidChunkSize)
            else
              && WriteChunk(ResetTimeout(r1, now), m.data).Some?
              && var r2 := WriteChunk(ResetTimeout(r1, now), m.data).value;
              && (expected.last ==> Completable(r2))
              && OnContentChunk(cfg, s, m, now) ==
                 if expected.last then CompleteRequest(Put(Accept(s1, m), r2), r2) else Put(Accept(s1, m), r2)
  {
    var r := s.requests[m.requestId];
    var (response, expected) := NextChunkInfo(cfg, r.response.value).value;
    var r1 := r.(response := Some(response));
    if m.sequence == expected.sequence && |m.data| == expected.size {
      var r2 := WriteChunk(ResetTimeout(r1, now), m.data).value;
      PutTwice(Accept(s, m), r1, r2);
      assert Put(Accept(s, m), r1) == Accept(Put(s, r1), m);
    }
  }

  function OnMessage(cfg: Config, s: Server, m: ClientMessage, now: int): Server {
    match m
    case EmptyResponse(id) => OnEmptyResponse(s, id)
    case ContentHeader(header) => OnContentHeader(cfg, s, header, now)
    case ContentChunk(_, _, _) => OnContentChunk(cfg, s, m, now)
    case CloseResponse(id) => OnCloseResponse(s, id)
  }

  /** The ids in use that are larger than n. */
  function Above(used: set<nat>, n: nat): set<nat> {
    set k | k in used && n < k
  }

  lemma AboveShrinks(used: set<nat>, n: nat)
    requires n + 1 in used
    ensures |Above(used, n + 1)| < |Above(used, n)|
  {
    assert Above(used, n) == Above(used, n + 1) + {n + 1};
  }

  /** The request-id loop: count up until an unused id is found. */
  function NextId(used: set<nat>, next: nat): (id: nat)
    ensures next < id && id !in used
    decreases |Above(used, next)|
  {
    if next + 1 in used then
      AboveShrinks(used, next);
      NextId(used, next + 1)
    else next + 1
  }

  /** `ok` says whether a message could be queued or the connection was found done instead. */
  function SendRequest(s: Server, path: string, now: int, ok: bool): (Server, Err) {
    var id := NextId(s.requests.Keys, s.nextRequest);
    var s1 := Put(s.(nextRequest := id), NewRequest(id, path, now));
    if ok then (Send(s1, RequestMsg(id, path)), NoError)
    else (s1.(status := Stopping), ErrClientClosed)
  }

  function SendSuccess(s: Server, id: nat, ok: bool): (Server, Err) {
    if id !in s.requests then (s, ErrRequestDeleted)
    else
      var r := s.requests[id];
      if r.closed then (s, ErrRequestClosed)
      else if !r.completed then (s, ErrRequestNotCompleted)
      else if !ok then (s.(status := Stopping), ErrClientClosed)
      else (Delete(Send(s, Success(r.id)), r.id), NoError)
  }

  function CloseRequest(s: Server, id: nat, message: string, now: int, ok: bool): (Server, Err) {
    if id !in s.requests then (s, ErrRequestDeleted)
    else
      var r := s.requests[id];
      if r.closed then (s, NoError)
      else if r.completed then (s, ErrRequestCompleted)
      else if !ok then (s.(status := Stopping), ErrClientClosed)
      else (Put(Send(s, RequestClosed(r.id, message)), CloseChannel(ResetTimeout(r, now))), NoError)
  }

  const TIMEOUT_MESSAGE := "request timed out"

  predicate Expired(cfg: Config, r: RequestState, now: int) {
    now - r.lastUpdated >= cfg.clientTimeout
  }

  /** One timeout check visits the requests in some order. Sends to the ids in `lost` find the
      connection done; the result of such a close is ignored and the loop goes on. */
  function Sweep(cfg: Config, s: Server, now: int, order: seq<nat>, lost: set<nat>): Server
    decreases |order|
  {
    if order == [] then s
    else
      var id, rest := order[0], order[1..];
      if id !in s.requests || !Expired(cfg, s.requests[id], now) then Sweep(cfg, s, now, rest, lost)
      else if s.requests[id].closed then
        if s.status.Open? then EndConnection(s, TimedOut) else s
      else if s.requests[id].completed then Sweep(cfg, Delete(s, id), now, rest, lost)
      else Sweep(cfg, CloseRequest(s, id, TIMEOUT_MESSAGE, now, id !in lost).0, now, rest, lost)
  }

  function ClosedExcept(requests: map<nat, RequestState>, rest: set<nat>): map<nat, RequestState> {
    map id | id in requests :: if id in rest then requests[id] else CloseChannel(requests[id])
  }

  lemma ClosedOneMore(requests: map<nat, RequestState>, rest: set<nat>, id: nat)
    requires id in rest && id in requests
    ensures ClosedExcept(requests, rest)[id := CloseChannel(requests[id])] == ClosedExcept(requests, rest - {id})
  {}

  /** What the loop does on its way out: close every request and drop the map. */
  function CleanUp(s: Server): Server {
    s.(status := Ended,
       requests := map[],
       gone := s.gone + ClosedExcept(s.requests, {}))
  }

  function Finish(s: Server): Server {
    if s.status.Stopping? then CleanUp(s) else s
  }

  // ---- the loop ----

  datatype Input =
    | Receive(m: ClientMessage)
    | Forward(path: string, ok: bool)
    | TriggerSuccess(id: nat, ok: bool)
    | TriggerClose(id: nat, message: string, ok: bool)
    | Tick(order: seq<nat>, lost: set<nat>)
    | Done

  function Handle(cfg: Config, s: Server, now: int, input: Input): (Server, Err) {
    match input
    case Receive(m) => (OnMessage(cfg, s, m, now), NoError)
    case Forward(path, ok) => SendRequest(s, path, now, ok)
    case TriggerSuccess(id, ok) => SendSuccess(s, id, ok)
    case TriggerClose(id, message, ok) => CloseRequest(s, id, message, now, ok)
    case Tick(order, lost) => (Sweep(cfg, s, now, order, lost), NoError)
    case Done => (s.(status := Stopping), NoError)
  }

  /** One turn of the loop. Once the connection is over nothing is handled any more. */
  function Step(cfg: Config, s: Server, now: int, input: Input): Server {
    if s.status.Open? then Finish(Handle(cfg, s, now, input).0) else s
  }

  datatype Timed = Timed(now: int, input: Input)

  /** A tick visits each request of the map exactly once. */
  predicate Visits(order: seq<nat>, ids: set<nat>) {
    && (forall i :: 0 <= i < |order| ==> order[i] in ids)
    && (forall id :: id in ids ==> id in order)
    && NoRepeats(order)
  }

  predicate Enabled(s: Server, input: Input) {
    input.Tick? && s.status.Open? ==> Visits(input.order, s.requests.Keys)
  }

  /** The state after a sequence of inputs, starting from a new connection. */
  function Run(cfg: Config, inputs: seq<Timed>): Server {
    if inputs == [] then Initial
    else
      var t := inputs[|inputs| - 1];
      Step(cfg, Run(cfg, inputs[..|inputs| - 1]), t.now, t.input)
  }

  predicate ValidRun(cfg: Config, inputs: seq<Timed>) {
    inputs == [] ||
    var prefix, t := inputs[..|inputs| - 1], inputs[|inputs| - 1];
    && ValidRun(cfg, prefix)
    && (prefix != [] ==> prefix[|prefix| - 1].now <= t.now)
    && Enabled(Run(cfg, prefix), t.input)
  }

  lemma RunOneMore(cfg: Config, inputs: seq<Timed>, i: nat)
    requires i < |inputs|
    ensures Run(cfg, inputs[..i + 1]) == Step(cfg, Run(cfg, inputs[..i]), inputs[i].now, inputs[i].input)
  {
    assert inputs[..i + 1][..i] == inputs[..i];
  }
}
