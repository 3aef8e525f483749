/** What server and client guarantee together, for every run of the connection. */
module ConnectionTheorems {
  import opened Wire
  import opened Chunking
  import opened History
  import S = Server
  import V = ServerInvariant
  import opened ServerDelivery
  import H = Handler
  import R = HandlerRuns
  import opened HandlerTheorems
  import C = Client
  import ClientHandlers
  import ClientInvariant
  import ServerTheorems
  import opened Responses
  import opened Connection

  /** The content whose handler was given the request. */
  function Source(c: C.Client, id: nat): H.Content
    requires id in c.owner && c.owner[id] < |c.handlers|
  {
    c.handlers[c.owner[id]].content
  }

  // ---- what the client sent about a request ----

  /** A header for a request was sent by the handler that the request was given to, as part of a response. */
  lemma HeaderMeansBlock(cfg: Config, c: C.Client, id: nat) returns (b: H.Block)
    requires cfg.Valid() && ClientInvariant.Inv(cfg, c) && Of(c.sent, id) != [] && Of(c.sent, id)[0].ContentHeader?
    ensures id in c.owner && c.owner[id] < |c.handlers|
    ensures b.id == id && b.header && b.chunks <= NumChunks(|Source(c, id).data|, cfg.chunkSize)
    ensures |Source(c, id).data| < U64 && Of(c.sent, id) == R.BlockMessages(Source(c, id), cfg.chunkSize, b)
  {
    assert ClientInvariant.AnswerOk(c, id);
    var h := c.handlers[c.owner[id]];
    assert ClientHandlers.HandlerOk(cfg, h);
    assert DroppedOnce(h, id);
    var form := FormOf(h, id);
    b := H.Block(id, true, if form.Partial? || form.ClosedEarly? then form.k else 0, form.ClosedEarly?);
  }

  /** What was accepted about a request is the beginning of what was sent about it. */
  lemma AcceptedIsPrefix(cfg: Config, j: Connection, id: nat)
    requires cfg.Valid() && Inv(cfg, j)
    ensures InOf(j.server.hist, id) <= Of(j.client.sent, id)
    ensures j.server.status.Open? ==> Of(j.client.sent, id) == InOf(j.server.hist, id) + Of(j.toServer, id)
  {
    var a, sent := Accepted(j.server.hist), j.client.sent;
    AcceptedAbout(j.server.hist, id);
    assert sent == a + sent[|a|..];
    OfConcat(a, sent[|a|..], id);
    if j.server.status.Open? { OfConcat(a, j.toServer, id); }
  }

  // ---- the bytes ----

  lemma ShapeIsSource(cfg: Config, c: H.Content, id: nat, resp: S.ResponseState, ins: seq<ClientMessage>, ms: seq<ClientMessage>, b: H.Block)
    requires cfg.Valid() && V.ResponseShape(cfg, id, resp, V.Body(ins)) && ins <= ms
    requires |c.data| < U64 && b.id == id && b.header && b.chunks <= NumChunks(|c.data|, cfg.chunkSize)
    requires ms == R.BlockMessages(c, cfg.chunkSize, b)
    ensures ContentHeader(resp.header) == H.HeaderMessage(c, id)
    ensures |resp.chunks| <= NumChunks(|c.data|, cfg.chunkSize)
    ensures Flatten(resp.chunks) == c.data[..Covered(|c.data|, cfg.chunkSize, |resp.chunks|)]
    ensures |resp.chunks| == NumChunks(|c.data|, cfg.chunkSize) ==> Flatten(resp.chunks) == c.data
  {
    var body := V.Body(ins);
    assert body[0] == ms[0];
    BlockAt(c, cfg.chunkSize, b, 0);
    forall i: nat | i < |resp.chunks| ensures i * cfg.chunkSize < |c.data| && resp.chunks[i] == Slice(c.data, cfg.chunkSize, i) {
      assert V.DataAt(resp, body, i) && body[i + 1] == ms[i + 1];
      BlockAt(c, cfg.chunkSize, b, i);
    }
    FlattenSlices(c.data, cfg.chunkSize, resp.chunks);
  }

  /** The header says about the content what was registered. */
  predicate SameHeader(header: Header, content: H.Content, id: nat) {
    && header.requestId == id && header.contentType == content.contentType && header.contentSize == |content.data|
    && header.maxCacheDuration == content.maxCacheDuration && header.filename == content.filename
  }

  /** In every run, what the server forwards of a response are the first bytes of the content that the
      client registered, under the header of that content; and all of its bytes once it is completed. */
  lemma ForwardedIsSource(cfg: Config, moves: seq<Move>, id: nat)
    requires cfg.Valid()
    requires var s := Run(cfg, moves).server; Has(s, id) && Object(s, id).response.Some?
    ensures var j := Run(cfg, moves);
            var r, c := Object(j.server, id), j.client;
            && id in c.owner && c.owner[id] < |c.handlers| && |Source(c, id).data| < U64
            && ContentHeader(r.response.value.header) == H.HeaderMessage(Source(c, id), id)
            && SameHeader(r.response.value.header, Source(c, id), id)
            && Flatten(r.response.value.chunks) <= Source(c, id).data
            && (r.completed ==> Flatten(r.response.value.chunks) == Source(c, id).data)
  {
    RunKeeps(cfg, moves);
    BytesOf(cfg, Run(cfg, moves), id);
  }

  lemma BytesOf(cfg: Config, j: Connection, id: nat)
    requires cfg.Valid() && Inv(cfg, j) && Has(j.server, id) && Object(j.server, id).response.Some?
    ensures var r, c := Object(j.server, id), j.client;
            && id in c.owner && c.owner[id] < |c.handlers| && |Source(c, id).data| < U64
            && ContentHeader(r.response.value.header) == H.HeaderMessage(Source(c, id), id)
            && Flatten(r.response.value.chunks) <= Source(c, id).data
            && (r.completed ==> Flatten(r.response.value.chunks) == Source(c, id).data)
  {
    var ins, resp := InOf(j.server.hist, id), Object(j.server, id).response.value;
    ObjectShape(cfg, j.server, id);
    AcceptedIsPrefix(cfg, j, id);
    assert V.Body(ins)[0] == Of(j.client.sent, id)[0];
    var b := HeaderMeansBlock(cfg, j.client, id);
    ShapeIsSource(cfg, Source(j.client, id), id, resp, ins, Of(j.client.sent, id), b);
  }

  // ---- completion ----

  lemma FullBlock(cfg: Config, h: H.Handler, b: H.Block)
    requires cfg.Valid() && ClientHandlers.HandlerOk(cfg, h) && b in R.Blocks(h) && b.chunks == NumChunks(|h.content.data|, cfg.chunkSize)
    ensures Of(Messages(h.log), b.id) == R.BlockMessages(h.content, cfg.chunkSize, b) && b.header
    ensures Full(cfg, Of(Messages(h.log), b.id))
  {
    BlockForm(h, b);
    ChunkExists(|h.content.data|, cfg.chunkSize, 0);
    assert b.header by {
      if b in h.past { FinishedBlock(|h.content.data|, h.chunkSize, h.past, b); }
    }
    BlockAt(h.content, cfg.chunkSize, b, b.chunks - 1);
  }

  /** Once a handler has sent all chunks of a response and the server has taken them, the request is
      completed with all the bytes of the content, unless the server itself had closed it. */
  lemma SentMeansCompleted(cfg: Config, moves: seq<Move>, id: nat, b: H.Block)
    requires cfg.Valid()
    requires var j := Run(cfg, moves);
             && j.server.status.Open? && Of(j.toServer, id) == []
             && id in j.client.owner && j.client.owner[id] < |j.client.handlers|
             && var h := j.client.handlers[j.client.owner[id]];
                b in R.Blocks(h) && b.id == id && b.chunks == NumChunks(|h.content.data|, cfg.chunkSize)
    ensures var j := Run(cfg, moves);
            var outs := OutOf(j.server.hist, id);
            && Has(j.server, id)
            && (!(|outs| == 2 && outs[1].RequestClosed?) ==>
                  && Object(j.server, id).completed && Object(j.server, id).response.Some?
                  && Flatten(Object(j.server, id).response.value.chunks) == Source(j.client, id).data)
  {
    RunKeeps(cfg, moves);
    var j := Run(cfg, moves);
    var s, h, outs := j.server, j.client.handlers[j.client.owner[id]], OutOf(j.server.hist, id);
    assert ClientHandlers.HandlerOk(cfg, h);
    FullBlock(cfg, h, b);
    assert ClientInvariant.AnswerOk(j.client, id);
    AcceptedIsPrefix(cfg, j, id);
    FullMeansCompleted(cfg, s, id);
    if !(|outs| == 2 && outs[1].RequestClosed?) { BytesOf(cfg, j, id); }
  }

  lemma FullMeansCompleted(cfg: Config, s: S.Server, id: nat)
    requires cfg.Valid() && V.CoreInv(cfg, s) && Full(cfg, InOf(s.hist, id))
    ensures Has(s, id)
    ensures var outs := OutOf(s.hist, id);
            !(|outs| == 2 && outs[1].RequestClosed?) ==> Object(s, id).completed && Object(s, id).response.Some?
  {}

  // ---- refusals ----

  /** In every run, the only message that the server ever refuses is a CloseResponse for a request
      about which it has accepted nothing; and it ends the connection for this reason or for a timeout. */
  lemma OnlyBareClosesAreRefused(cfg: Config, moves: seq<Move>)
    requires cfg.Valid()
    ensures var hist := Run(cfg, moves).server.hist;
            && (forall m :: Refused(m) in hist ==> m.CloseResponse? && InOf(hist, m.requestId) == [])
            && (forall r :: Out(Close(r)) in hist ==> r == TimedOut || (r == InvalidClientMessage && exists m :: Refused(m) in hist))
  {
    RunKeeps(cfg, moves);
    var j := Run(cfg, moves);
    forall m | Refused(m) in j.server.hist ensures m.CloseResponse? && InOf(j.server.hist, m.requestId) == [] {
      assert Bare(j.server.hist, m);
    }
  }

  /** The request was given to a handler, and was cancelled while it was still in the queue. */
  predicate WasDropped(c: C.Client, id: nat) {
    id in c.owner && c.owner[id] < |c.handlers| && id in c.handlers[c.owner[id]].dropped
  }

  /** In every run, the next message of the client is refused if and only if its request was dropped
      from its handler's queue; and if and only if it is a CloseResponse and nothing was accepted about
      the request. Nothing sent for a request that the serve loop has begun to serve is refused. */
  lemma RefusedExactlyWhenDropped(cfg: Config, moves: seq<Move>, now: int)
    requires cfg.Valid() && Run(cfg, moves).server.status.Open? && Run(cfg, moves).toServer != []
    ensures var j := Run(cfg, moves);
            var m, c := j.toServer[0], j.client;
            var t := S.Step(cfg, j.server, now, S.Receive(m));
            && (!t.status.Open? <==> WasDropped(c, m.Id()))
            && (!t.status.Open? <==> m.CloseResponse? && InOf(j.server.hist, m.Id()) == [])
            && (!t.status.Open? ==> m.Id() !in R.Ids(R.Blocks(c.handlers[c.owner[m.Id()]])))
  {
    RunKeeps(cfg, moves);
    var j := Run(cfg, moves);
    var m, c := j.toServer[0], j.client;
    TakesAllButBare(cfg, j, now);
    SplitSent(Accepted(j.server.hist), j.toServer, c.sent, m.Id());
    AcceptedAbout(j.server.hist, m.Id());
    if Bare(j.server.hist, m) { BareIsDropped(cfg, c, m.Id()); }
    if WasDropped(c, m.Id()) { DroppedIsBare(cfg, c, m.Id(), InOf(j.server.hist, m.Id()), m, Of(j.toServer[1..], m.Id())); }
  }

  /** All that is ever sent for a dropped request is one CloseResponse. */
  lemma DroppedIsBare(cfg: Config, c: C.Client, id: nat, ins: seq<ClientMessage>, m: ClientMessage, rest: seq<ClientMessage>)
    requires cfg.Valid() && ClientInvariant.Inv(cfg, c) && WasDropped(c, id) && Of(c.sent, id) == ins + [m] + rest
    ensures ins == [] && m == CloseResponse(id)
  {
    assert ClientInvariant.AnswerOk(c, id);
    DroppedSends(cfg, c.handlers[c.owner[id]], id);
    assert (ins + [m] + rest)[|ins|] == m;
  }

  lemma DroppedSends(cfg: Config, h: H.Handler, id: nat)
    requires ClientHandlers.HandlerOk(cfg, h) && id in h.dropped
    ensures Of(Messages(h.log), id) == [] || Of(Messages(h.log), id) == [CloseResponse(id)]
  {
    Bookkeeping(h);
    IdsOf(R.Blocks(h));
    OtherForm(h, id);
    assert DroppedOnce(h, id);
  }

  lemma BlockStart(c: H.Content, chunkSize: nat, b: H.Block)
    requires |c.data| < U64
    ensures b.header ==> R.BlockMessages(c, chunkSize, b) != [] && R.BlockMessages(c, chunkSize, b)[0].ContentHeader?
  {}

  lemma BareIsDropped(cfg: Config, c: C.Client, id: nat)
    requires cfg.Valid() && ClientInvariant.Inv(cfg, c) && Of(c.sent, id) != [] && Of(c.sent, id)[0].CloseResponse?
    ensures id in c.owner && c.owner[id] < |c.handlers|
    ensures id in c.handlers[c.owner[id]].dropped && id !in R.Ids(R.Blocks(c.handlers[c.owner[id]]))
  {
    assert ClientInvariant.AnswerOk(c, id);
    var h := c.handlers[c.owner[id]];
    assert ClientHandlers.HandlerOk(cfg, h);
    Bookkeeping(h);
    IdsOf(R.Blocks(h));
    if id in R.Ids(R.Blocks(h)) {
      var b :| b in R.Blocks(h) && b.id == id;
      BlockForm(h, b);
      BlockStart(h.content, h.chunkSize, b);
    } else {
      OtherForm(h, id);
    }
  }

  // ---- the client's own expectations ----

  /** In every run, no request id is used twice, no handler is asked to exit twice, and every Success
      is for a known request. A response is reported for an unknown request exactly if the server had
      closed that request before the report. */
  lemma OnlyLateReportsSurprise(cfg: Config, moves: seq<Move>)
    requires cfg.Valid()
    ensures var c := Run(cfg, moves).client;
            forall f :: f in c.faults ==> f.UnknownCallback? && f.id in c.called && ClientInvariant.GotClosed(c, f.id)
  {
    RunKeeps(cfg, moves);
    var j := Run(cfg, moves);
    forall f | f in j.client.faults
      ensures f.UnknownCallback? && f.id in j.client.called && ClientInvariant.GotClosed(j.client, f.id)
    {
      assert ClientInvariant.FaultOk(j.client, f);
      if ClientInvariant.GotSuccess(j.client, f.id) { SuccessMeansFull(cfg, j, f.id); }
    }
  }

  /** When a serve thread is about to report a response, the report finds the request unregistered if
      and only if the server has closed the request by then. */
  lemma ReportSurprisesExactlyWhenClosed(cfg: Config, moves: seq<Move>, i: nat, ok: bool)
    requires cfg.Valid()
    requires var c := Run(cfg, moves).client;
             i < |c.handlers| && c.handlers[i].pc.Callback? && C.Possible(c, C.ServeThread(i, ok))
    ensures var c := Run(cfg, moves).client;
            && c.handlers[i].handling.Some? && H.Ready(c.handlers[i])
            && var id := c.handlers[i].handling.value;
            C.UnknownCallback(id) in C.ServeTurn(c, i, ok).faults <==> ClientInvariant.GotClosed(c, id)
  {
    RunKeeps(cfg, moves);
    ClientInvariant.ReportFaults(cfg, Run(cfg, moves).client, i, ok);
  }

  /** The client hears of a success only for a request that a handler answered in full. */
  lemma SuccessMeansFull(cfg: Config, j: Connection, id: nat)
    requires cfg.Valid() && Inv(cfg, j) && ClientInvariant.GotSuccess(j.client, id)
    ensures id in j.client.owner && j.client.owner[id] < |j.client.handlers|
    ensures Full(cfg, InOf(j.server.hist, id))
  {
    var hist, c := j.server.hist, j.client;
    QueuedAbout(hist, id);
    AboutConcat(c.received, j.toClient, id);
    assert OutOf(hist, id)[1] == C.About(c.received, id)[1];
    GoodRecord(cfg, j.server);
    ServerTheorems.RecordForms(cfg, hist, id);
    AcceptedIsPrefix(cfg, j, id);
    assert Of(c.sent, id)[0] == InOf(hist, id)[0];
    var b := HeaderMeansBlock(cfg, c, id);
  }


  /** In every run, the served callback runs at most once for a request, and exactly when the response
      was reported as sent and the server confirmed it; the server then has the complete response. */
  lemma ServedOnceAndDelivered(cfg: Config, moves: seq<Move>, id: nat)
    requires cfg.Valid()
    ensures var j := Run(cfg, moves);
            && NoRepeats(j.client.served)
            && (id in j.client.served <==> id in j.client.called && ClientInvariant.GotSuccess(j.client, id))
            && (id in j.client.served ==> Full(cfg, InOf(j.server.hist, id)))
  {
    RunKeeps(cfg, moves);
    var j := Run(cfg, moves);
    assert ClientInvariant.EntryOk(j.client, id);
    if ClientInvariant.GotSuccess(j.client, id) { SuccessMeansFull(cfg, j, id); }
  }

  // ---- two runs that go wrong ----

  const TINY := Config(1, 1, {"text/plain"}, 1)
  const NOTE := H.Content("text/plain", [0], None, None)

  lemma OneMore(cfg: Config, moves: seq<Move>, move: Move)
    requires cfg.Valid() && Possible(Run(cfg, moves), move)
    ensures Able(Run(cfg, moves), move) && Run(cfg, moves + [move]) == Effect(cfg, Run(cfg, moves), move)
  {
    RunKeeps(cfg, moves);
    assert (moves + [move])[..|moves|] == moves;
  }

  lemma NoteIsAcceptable()
    ensures C.Acceptable(TINY, NOTE) && TINY.Valid()
  {
    assert MediaType("text/plain") == "text/plain" by { PlainType("text/plain"); }
  }

  lemma {:induction false} PlainType(contentType: string)
    requires ';' !in contentType
    ensures MediaType(contentType) == contentType
  {
    if contentType != [] { PlainType(contentType[1..]); }
  }

  // The states that both runs go through: one content is registered, one request for it arrives.

  const ASKED := S.Server(S.Open, map[1 := S.NewRequest(1, "note", 0)], map[], 1, [Out(RequestMsg(1, "note"))])
  const OFFERING := C.Connected.(handlers := [H.NewHandler(NOTE, 1)], content := map["note" := 0])
  const GIVEN := OFFERING.(
    handlers := [H.Enqueue(H.NewHandler(NOTE, 1), 1)],
    requests := map[1 := C.Entry(0, false)],
    owner := map[1 := 0],
    received := [RequestMsg(1, "note")])

  lemma ServerAsks()
    ensures S.Step(TINY, S.Initial, 0, S.Forward("note", true)) == ASKED
    ensures Queued(ASKED.hist) == [RequestMsg(1, "note")] && Queued([]) == []
  {}

  lemma Registered()
    ensures TINY.Valid() && C.Register(TINY, C.Connected, "note", NOTE) == OFFERING
  {
    NoteIsAcceptable();
  }

  lemma AfterRegistering(moves: seq<Move>)
    requires TINY.Valid() && Run(TINY, moves) == Start
    ensures Run(TINY, moves + [ClientSide(C.RegisterContent("note", NOTE))]) == Connection(S.Initial, OFFERING, [], [])
  {
    OneMore(TINY, moves, ClientSide(C.RegisterContent("note", NOTE)));
    Registered();
  }

  lemma AfterAsking(moves: seq<Move>)
    requires TINY.Valid() && Run(TINY, moves) == Connection(S.Initial, OFFERING, [], [])
    ensures Run(TINY, moves + [ServerSide(0, S.Forward("note", true))]) == Connection(ASKED, OFFERING, [], [RequestMsg(1, "note")])
  {}

  lemma AfterGiving(moves: seq<Move>)
    requires TINY.Valid() && Run(TINY, moves) == Connection(ASKED, OFFERING, [], [RequestMsg(1, "note")])
    ensures Run(TINY, moves + [ClientTakes(false, true)]) == Connection(ASKED, GIVEN, [], [])
  {}

  lemma Prologue() returns (moves: seq<Move>)
    ensures TINY.Valid()
    ensures Run(TINY, moves) == Connection(ASKED, GIVEN, [], [])
  {
    Registered();
    moves := [];
    AfterRegistering(moves);
    moves := moves + [ClientSide(C.RegisterContent("note", NOTE))];
    AfterAsking(moves);
    moves := moves + [ServerSide(0, S.Forward("note", true))];
    AfterGiving(moves);
    moves := moves + [ClientTakes(false, true)];
  }

  const CLOSED := S.Server(
    S.Open, map[1 := S.CloseChannel(S.NewRequest(1, "note", 0))], map[], 1,
    [Out(RequestMsg(1, "note")), Out(RequestClosed(1, "gone"))])

  lemma ServerCloses()
    ensures S.Step(TINY, ASKED, 0, S.TriggerClose(1, "gone", true)) == CLOSED
    ensures Queued(CLOSED.hist) == [RequestMsg(1, "note"), RequestClosed(1, "gone")]
  {}

  /** The server closes the request while the client stands as given. */
  lemma AfterClosing(moves: seq<Move>, client: C.Client)
    requires TINY.Valid() && Run(TINY, moves).server == ASKED && Run(TINY, moves).client == client && Run(TINY, moves).toClient == []
    ensures var j := Run(TINY, moves + [ServerSide(0, S.TriggerClose(1, "gone", true))]);
            j == Run(TINY, moves).(server := CLOSED, toClient := [RequestClosed(1, "gone")])
  {
    OneMore(TINY, moves, ServerSide(0, S.TriggerClose(1, "gone", true)));
    ServerAsks();
    ServerCloses();
  }

  lemma ClientDrops()
    ensures C.Linked(GIVEN)
    ensures var t := C.Receive(GIVEN, RequestClosed(1, "gone"), false, true);
            t.sent == [CloseResponse(1)] && t.ws.Idle?
  {}

  lemma AfterDropping(moves: seq<Move>)
    requires TINY.Valid() && Run(TINY, moves) == Connection(CLOSED, GIVEN, [], [RequestClosed(1, "gone")])
    ensures var j := Run(TINY, moves + [ClientTakes(false, true)]);
            j.server == CLOSED && j.toServer == [CloseResponse(1)]
  {
    OneMore(TINY, moves, ClientTakes(false, true));
    ClientDrops();
  }

  lemma AfterRefusing(moves: seq<Move>)
    requires TINY.Valid() && Run(TINY, moves).server == CLOSED && Run(TINY, moves).toServer == [CloseResponse(1)]
    ensures Run(TINY, moves + [ServerTakes(0)]).server.hist ==
            CLOSED.hist + [Refused(CloseResponse(1)), Out(Close(InvalidClientMessage))]
  {
    RunKeeps(TINY, moves);
    TakesAllButBare(TINY, Run(TINY, moves), 0);
    OneMore(TINY, moves, ServerTakes(0));
    assert InOf(CLOSED.hist, 1) == [] by { assert CLOSED.hist[..1] == ASKED.hist; }
  }

  /** A request that the server closes before its handler gets to it costs the whole connection. */
  lemma ClosedWhileQueuedIsRefused() returns (moves: seq<Move>)
    ensures TINY.Valid()
    ensures var hist := Run(TINY, moves).server.hist;
            Refused(CloseResponse(1)) in hist && Out(Close(InvalidClientMessage)) in hist
  {
    moves := Prologue();
    AfterClosing(moves, GIVEN);
    moves := moves + [ServerSide(0, S.TriggerClose(1, "gone", true))];
    AfterDropping(moves);
    moves := moves + [ClientTakes(false, true)];
    AfterRefusing(moves);
    moves := moves + [ServerTakes(0)];
  }

  // The handler on its way to the end of the response.

  const H0 := H.Enqueue(H.NewHandler(NOTE, 1), 1)
  const H1 := H0.(pending := [], handling := Some(1), current := Some(H.Block(1, false, 0, false)), pc := H.HeaderReady)
  const H2 := H1.(
    pc := H.HeaderSent(true), log := [H.ByServe(H.HeaderMessage(NOTE, 1))], current := Some(H.Block(1, true, 0, false)))
  const H3 := H2.(pc := H.ChunkReady([0]), sequence := 1)
  const H4 := H3.(
    pc := H.ChunkSent(1, true), log := [H.ByServe(H.HeaderMessage(NOTE, 1)), H.ByServe(ContentChunk(1, 0, [0]))],
    current := Some(H.Block(1, true, 1, false)))
  const H5 := H4.(pc := H.Callback, total := 1, good := false)

  function Stage(k: nat): H.Handler {
    if k == 0 then H0 else if k == 1 then H1 else if k == 2 then H2 else if k == 3 then H3 else if k == 4 then H4 else H5
  }

  lemma NextStage(k: nat)
    requires k < 5
    ensures H.CanServe(Stage(k)) && H.Ready(Stage(k)) && !Stage(k).pc.Callback?
    ensures H.ServeStep(Stage(k), true) == Stage(k + 1)
  {
    assert H0.pending == [1] && H0.pending[1..] == [];
    assert NOTE.data[0..1] == [0];
  }

  /** The connection while the handler of the only request moves. */
  predicate Serving(j: Connection, h: H.Handler) {
    && j.server == ASKED && j.toClient == []
    && j.client.handlers == [h] && j.client.requests == GIVEN.requests && j.client.ws.Idle?
    && j.client.unregistering.None? && j.client.content == GIVEN.content
  }

  lemma AfterServing(moves: seq<Move>, k: nat)
    requires TINY.Valid() && Serving(Run(TINY, moves), Stage(k)) && k < 5
    ensures Serving(Run(TINY, moves + [ClientSide(C.ServeThread(0, true))]), Stage(k + 1))
  {
    NextStage(k);
    ClientServes(Run(TINY, moves).client, Stage(k));
    OneMore(TINY, moves, ClientSide(C.ServeThread(0, true)));
  }

  lemma ClientServes(c: C.Client, h: H.Handler)
    requires c.handlers == [h] && H.CanServe(h) && H.Ready(h) && !h.pc.Callback?
    requires c.requests == GIVEN.requests && c.content == GIVEN.content
    ensures C.Linked(c) && C.AllReady(c)
    ensures C.ServeTurn(c, 0, true) == C.Replace(c, 0, H.ServeStep(h, true))
    ensures C.ServeTurn(c, 0, true).handlers == [H.ServeStep(h, true)]
  {}

  lemma {:induction false} ServedUpTo(k: nat) returns (moves: seq<Move>)
    requires k <= 5
    ensures TINY.Valid() && Serving(Run(TINY, moves), Stage(k))
  {
    if k == 0 {
      moves := Prologue();
    } else {
      moves := ServedUpTo(k - 1);
      AfterServing(moves, k - 1);
      moves := moves + [ClientSide(C.ServeThread(0, true))];
    }
  }

  lemma AfterCancelling(moves: seq<Move>)
    requires TINY.Valid() && Run(TINY, moves).toClient == [RequestClosed(1, "gone")]
    requires Serving(Run(TINY, moves).(server := ASKED, toClient := []), H5)
    ensures var j := Run(TINY, moves + [ClientTakes(false, true)]);
            j.client.handlers == [H5.(cancel := true)] && j.client.requests == map[] && j.client.ws.Idle?
  {
    OneMore(TINY, moves, ClientTakes(false, true));
    assert H.CancelRequest(H5, 1, true) == H5.(cancel := true);
    assert map[1 := C.Entry(0, false)] - {1} == map[];
  }

  lemma AfterReporting(moves: seq<Move>)
    requires TINY.Valid() && Run(TINY, moves).client.handlers == [H5.(cancel := true)]
    requires Run(TINY, moves).client.requests == map[] && Run(TINY, moves).client.ws.Idle?
    ensures C.UnknownCallback(1) in Run(TINY, moves + [ClientSide(C.ServeThread(0, true))]).client.faults
  {
    OneMore(TINY, moves, ClientSide(C.ServeThread(0, true)));
  }

  /** The assertion that a reported response is registered can fail: the server closes a request whose
      last chunk was just sent, and the client hears of it before the serve thread reports. */
  lemma LateReportHappens() returns (moves: seq<Move>)
    ensures TINY.Valid() && C.UnknownCallback(1) in Run(TINY, moves).client.faults
  {
    moves := ServedUpTo(5);
    AfterClosing(moves, Run(TINY, moves).client);
    moves := moves + [ServerSide(0, S.TriggerClose(1, "gone", true))];
    AfterCancelling(moves);
    moves := moves + [ClientTakes(false, true)];
    AfterReporting(moves);
    moves := moves + [ClientSide(C.ServeThread(0, true))];
  }
}
