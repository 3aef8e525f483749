/** What one connection has seen so far, and the rules of the protocol stated on that record alone. */
module History {
  import opened Wire
  import opened Chunking

  /** In: a client message that was accepted. Refused: one that made the server close the connection.
      Out: a message handed to the connection for sending. */
  datatype Event =
    | In(m: ClientMessage)
    | Refused(m: ClientMessage)
    | Out(s: ServerMessage)

  /** The accepted client messages about one request, in order. */
  function InOf(hist: seq<Event>, id: nat): seq<ClientMessage> {
    if hist == [] then []
    else
      var e := hist[|hist| - 1];
      var before := InOf(hist[..|hist| - 1], id);
      if e.In? && e.m.Id() == id then before + [e.m] else before
  }

  /** The server messages about one request, in order. */
  function OutOf(hist: seq<Event>, id: nat): seq<ServerMessage> {
    if hist == [] then []
    else
      var e := hist[|hist| - 1];
      var before := OutOf(hist[..|hist| - 1], id);
      if e.Out? && !e.s.Close? && e.s.id == id then before + [e.s] else before
  }

  /** The id of the most recent request, 0 when there is none. */
  function LastRequest(hist: seq<Event>): nat {
    if hist == [] then 0
    else
      var e := hist[|hist| - 1];
      if e.Out? && e.s.RequestMsg? then e.s.id else LastRequest(hist[..|hist| - 1])
  }

  /** Every client message accepted, in order. */
  function Accepted(hist: seq<Event>): seq<ClientMessage> {
    if hist == [] then []
    else
      var e, before := hist[|hist| - 1], Accepted(hist[..|hist| - 1]);
      if e.In? then before + [e.m] else before
  }

  /** Every message about a request that was handed over for sending, in order. */
  function Queued(hist: seq<Event>): seq<ServerMessage> {
    if hist == [] then []
    else
      var e, before := hist[|hist| - 1], Queued(hist[..|hist| - 1]);
      if e.Out? && !e.s.Close? then before + [e.s] else before
  }

  /** The accepted messages for a request are a header and as many chunks as its size needs. */
  predicate Full(cfg: Config, ins: seq<ClientMessage>)
    requires cfg.Valid()
  {
    && ins != [] && ins[0].ContentHeader? && !ins[|ins| - 1].CloseResponse?
    && |ins| - 1 == NumChunks(ins[0].header.contentSize, cfg.chunkSize)
  }

  /** No further client message may follow. */
  predicate Final(cfg: Config, ins: seq<ClientMessage>)
    requires cfg.Valid()
  {
    && ins != []
    && (ins[|ins| - 1].CloseResponse? || ins[|ins| - 1].EmptyResponse? || Full(cfg, ins))
  }

  /** Whether message m may come after the messages already accepted for its request. */
  predicate MayFollow(cfg: Config, ins: seq<ClientMessage>, m: ClientMessage)
    requires cfg.Valid()
  {
    match m
    case EmptyResponse(_) => ins == []
    case ContentHeader(header) => ins == [] && HeaderAllowed(cfg, header)
    case CloseResponse(_) => ins != [] && !Final(cfg, ins)
    case ContentChunk(_, sequence, data) =>
      && ins != [] && !Final(cfg, ins) && ins[0].ContentHeader?
      && sequence == |ins| - 1
      && sequence * cfg.chunkSize < ins[0].header.contentSize
      && |data| == ChunkLen(ins[0].header.contentSize, cfg.chunkSize, sequence)
  }

  /** The rule that each kind of event has to obey, given everything before it. */
  predicate GoodEvent(cfg: Config, hist: seq<Event>, e: Event)
    requires cfg.Valid()
  {
    match e
    case In(m) => OutOf(hist, m.Id()) != [] && MayFollow(cfg, InOf(hist, m.Id()), m)
    case Refused(m) => OutOf(hist, m.Id()) == [] || !MayFollow(cfg, InOf(hist, m.Id()), m)
    case Out(RequestMsg(id, _)) =>
      LastRequest(hist) < id && OutOf(hist, id) == [] && InOf(hist, id) == []
    case Out(Success(id)) =>
      |OutOf(hist, id)| == 1 && Full(cfg, InOf(hist, id))
    case Out(RequestClosed(id, _)) =>
      |OutOf(hist, id)| == 1 && !Final(cfg, InOf(hist, id))
    case Out(Close(_)) => true
  }

  /** A record that obeys the protocol: every event obeys its rule, a refused message is answered by
      a Close, and nothing follows a Close. */
  predicate GoodHistory(cfg: Config, hist: seq<Event>)
    requires cfg.Valid()
  {
    hist == [] ||
    var prefix, e := hist[..|hist| - 1], hist[|hist| - 1];
    && GoodHistory(cfg, prefix)
    && GoodEvent(cfg, prefix, e)
    && (prefix != [] ==> !IsClose(prefix[|prefix| - 1]))
    && (prefix != [] && prefix[|prefix| - 1].Refused? ==> IsClose(e))
  }

  predicate IsClose(e: Event) {
    e.Out? && e.s.Close?
  }
}
