/** Which requests are in the map of the server, and how old they are, told from the record of the
    connection and the times of the inputs alone. */
module ServerClock {
  import opened Wire
  import opened Chunking
  import opened History
  import opened Server
  import opened ServerInvariant
  import opened ServerRuns
  import opened ServerDelivery
  import opened ServerTiming
  import ServerEffects
  import ServerTheorems

  // ---- the reference ----

  /** The exchange about a request is over: it was answered with a Success, its response is empty or was
      closed, or it was completed after the server had closed it. */
  predicate Over(cfg: Config, outs: seq<ServerMessage>, ins: seq<ClientMessage>)
    requires cfg.Valid()
  {
    || (|outs| == 2 && outs[1].Success?)
    || (ins != [] && (ins[|ins| - 1].CloseResponse? || ins[|ins| - 1].EmptyResponse?))
    || (|outs| == 2 && outs[1].RequestClosed? && Full(cfg, ins))
  }

  /** A turn that counts as life: a message to the client about the request, or an accepted one from it,
      unless the request was closed before. */
  predicate Touched(before: seq<Event>, after: seq<Event>, id: nat) {
    OutOf(after, id) != OutOf(before, id) || (InOf(after, id) != InOf(before, id) && |OutOf(before, id)| == 1)
  }

  /** The time of the last such turn. */
  function LastLife(cfg: Config, inputs: seq<Timed>, id: nat): int {
    if inputs == [] then 0
    else
      var prefix, t := inputs[..|inputs| - 1], inputs[|inputs| - 1];
      if Touched(Run(cfg, prefix).hist, Run(cfg, inputs).hist, id) then t.now else LastLife(cfg, prefix, id)
  }

  /** A timeout check came upon the completed request when it was not confirmed for too long. */
  predicate Forgotten(cfg: Config, inputs: seq<Timed>, id: nat)
    requires cfg.Valid()
  {
    inputs != [] &&
    var prefix, t := inputs[..|inputs| - 1], inputs[|inputs| - 1];
    || Forgotten(cfg, prefix, id)
    || (t.input.Tick? && FullAndOpen(cfg, Run(cfg, prefix).hist, id) && t.now - LastLife(cfg, prefix, id) >= cfg.clientTimeout)
  }

  predicate FullAndOpen(cfg: Config, hist: seq<Event>, id: nat)
    requires cfg.Valid()
  {
    |OutOf(hist, id)| == 1 && Full(cfg, InOf(hist, id))
  }

  // ---- one turn ----

  /** What a turn means for one id: whether it is in the map afterwards, and the time on its clock. */
  predicate Moves(cfg: Config, s: Server, t: Server, now: int, tick: bool, id: nat)
    requires cfg.Valid()
  {
    && OutOf(s.hist, id) <= OutOf(t.hist, id)
    && (id in s.requests ==> OutOf(s.hist, id) != [] && !Over(cfg, OutOf(s.hist, id), InOf(s.hist, id)))
    && (id in s.requests ==>
          (id in t.requests <==>
            && !Over(cfg, OutOf(t.hist, id), InOf(t.hist, id))
            && !(tick && FullAndOpen(cfg, s.hist, id) && now - s.requests[id].lastUpdated >= cfg.clientTimeout)))
    && (id !in s.requests && id in t.requests ==>
          && OutOf(s.hist, id) == [] && OutOf(t.hist, id) != [] && t.requests[id].lastUpdated == now
          && !Over(cfg, OutOf(t.hist, id), InOf(t.hist, id)))
    && (id !in s.requests && id !in t.requests ==> OutOf(t.hist, id) == OutOf(s.hist, id) && InOf(t.hist, id) == InOf(s.hist, id))
    && (id in s.requests && id in t.requests ==>
          t.requests[id].lastUpdated == if Touched(s.hist, t.hist, id) then now else s.requests[id].lastUpdated)
  }

  lemma NotOver(cfg: Config, s: Server, id: nat)
    requires cfg.Valid() && CoreInv(cfg, s) && id in s.requests
    ensures OutOf(s.hist, id) != [] && !Over(cfg, OutOf(s.hist, id), InOf(s.hist, id))
  {
    LivePosition(cfg, id, s.requests[id], InOf(s.hist, id), OutOf(s.hist, id));
  }

  /** A turn that does nothing to this request and says nothing about it. */
  lemma Untouched(cfg: Config, s: Server, t: Server, now: int, id: nat)
    requires cfg.Valid() && CoreInv(cfg, s)
    requires OutOf(t.hist, id) == OutOf(s.hist, id) && InOf(t.hist, id) == InOf(s.hist, id)
    requires (id in s.requests <==> id in t.requests) && (id in s.requests ==> t.requests[id].lastUpdated == s.requests[id].lastUpdated)
    ensures Moves(cfg, s, t, now, false, id)
  {
    if id in s.requests { NotOver(cfg, s, id); }
  }

  /** One event, about one request. */
  ghost predicate OneEvent(s: Server, t: Server, id: nat, e: Event) {
    && t.hist == s.hist + [e] && (e.In? || (e.Out? && !e.s.Close?)) && id == (if e.In? then e.m.Id() else e.s.id)
    && forall k :: k != id ==> (k in s.requests <==> k in t.requests) && (k in s.requests ==> t.requests[k] == s.requests[k])
  }

  lemma OthersUntouched(cfg: Config, s: Server, t: Server, now: int, id: nat, e: Event, k: nat)
    requires cfg.Valid() && CoreInv(cfg, s) && OneEvent(s, t, id, e) && k != id
    ensures Moves(cfg, s, t, now, false, k)
  {
    Recorded(s.hist, e);
    Untouched(cfg, s, t, now, k);
  }

  // ---- the calls of the server ----

  lemma ForwardMoves(cfg: Config, s: Server, now: int, path: string, id: nat)
    requires cfg.Valid() && s.status.Open? && CoreInv(cfg, s)
    ensures Moves(cfg, s, SendRequest(s, path, now, true).0, now, false, id)
  {
    ServerEffects.ForwardsNext(cfg, s, now, path, true);
    var t, added := SendRequest(s, path, now, true).0, s.nextRequest + 1;
    var e := Out(RequestMsg(added, path));
    Recorded(s.hist, e);
    if id != added { OthersUntouched(cfg, s, t, now, added, e, id); } else { NextIdIsNext(cfg, s); }
  }

  lemma SuccessMoves(cfg: Config, s: Server, now: int, k: nat, id: nat)
    requires cfg.Valid() && s.status.Open? && CoreInv(cfg, s) && k in s.requests && s.requests[k].completed
    ensures Moves(cfg, s, SendSuccess(s, k, true).0, now, false, id)
  {
    ServerEffects.WhileInMap(cfg, s, k);
    var t, e := SendSuccess(s, k, true).0, Out(Success(k));
    Recorded(s.hist, e);
    if id != k { OthersUntouched(cfg, s, t, now, k, e, id); } else { NotOver(cfg, s, k); }
  }

  lemma CloseMoves(cfg: Config, s: Server, now: int, k: nat, message: string, id: nat)
    requires cfg.Valid() && s.status.Open? && CoreInv(cfg, s) && k in s.requests && !s.requests[k].completed && !s.requests[k].closed
    ensures Moves(cfg, s, CloseRequest(s, k, message, now, true).0, now, false, id)
  {
    ServerEffects.WhileInMap(cfg, s, k);
    var t, e := CloseRequest(s, k, message, now, true).0, Out(RequestClosed(k, message));
    Recorded(s.hist, e);
    if id != k { OthersUntouched(cfg, s, t, now, k, e, id); } else { NotOver(cfg, s, k); }
  }

  lemma CallMoves(cfg: Config, s: Server, now: int, input: Input, id: nat)
    requires cfg.Valid() && s.status.Open? && CoreInv(cfg, s) && !input.Receive? && !input.Tick?
    requires Handle(cfg, s, now, input).0.status.Open?
    ensures Moves(cfg, s, Handle(cfg, s, now, input).0, now, false, id)
  {
    match input {
      case Forward(path, _) => ForwardMoves(cfg, s, now, path, id);
      case TriggerSuccess(k, _) =>
        if k in s.requests && s.requests[k].completed { SuccessMoves(cfg, s, now, k, id); } else { Untouched(cfg, s, s, now, id); }
      case TriggerClose(k, message, _) =>
        if k in s.requests && !s.requests[k].completed && !s.requests[k].closed { CloseMoves(cfg, s, now, k, message, id); }
        else { Untouched(cfg, s, s, now, id); }
      case Done =>
    }
  }

  // ---- client messages ----

  /** A message that ends the exchange and takes the request out of the map. */
  lemma LastWordMoves(cfg: Config, s: Server, t: Server, now: int, m: ClientMessage, id: nat)
    requires cfg.Valid() && CoreInv(cfg, s) && OneEvent(s, t, m.Id(), In(m)) && (m.EmptyResponse? || m.CloseResponse?)
    requires m.Id() in s.requests && m.Id() !in t.requests
    ensures Moves(cfg, s, t, now, false, id)
  {
    Recorded(s.hist, In(m));
    if id != m.Id() { OthersUntouched(cfg, s, t, now, m.Id(), In(m), id); } else { NotOver(cfg, s, id); }
  }

  lemma EmptyShape(s: Server, k: nat)
    requires s.status.Open? && OnEmptyResponse(s, k).status.Open?
    ensures k in s.requests && k !in OnEmptyResponse(s, k).requests && OneEvent(s, OnEmptyResponse(s, k), k, In(EmptyResponse(k)))
  {
    var r1 := ProvideResponse(s.requests[k], None).value;
    var s1 := Put(Accept(s, EmptyResponse(k)), r1);
    assert s1.requests == s.requests[k := r1];
    var s2 := CompleteRequest(s1, r1);
    assert s2.requests - {k} == s.requests - {k} && s2.hist == s1.hist;
    OthersOf(s, OnEmptyResponse(s, k), k);
  }

  lemma OthersOf(s: Server, t: Server, k: nat)
    requires t.requests - {k} == s.requests - {k}
    ensures forall j :: j != k ==> (j in s.requests <==> j in t.requests) && (j in s.requests ==> t.requests[j] == s.requests[j])
  {
    forall j | j != k ensures (j in s.requests <==> j in t.requests) && (j in s.requests ==> t.requests[j] == s.requests[j]) {
      assert j in s.requests <==> j in s.requests - {k};
      assert j in t.requests <==> j in t.requests - {k};
      if j in s.requests { assert (s.requests - {k})[j] == (t.requests - {k})[j]; }
    }
  }

  lemma CloseShape(s: Server, k: nat)
    requires s.status.Open? && OnCloseResponse(s, k).status.Open? && (k in s.requests ==> s.requests[k].id == k)
    ensures k in s.requests && k !in OnCloseResponse(s, k).requests && OneEvent(s, OnCloseResponse(s, k), k, In(CloseResponse(k)))
  {}

  lemma ShortMoves(cfg: Config, s: Server, now: int, m: ClientMessage, id: nat)
    requires cfg.Valid() && s.status.Open? && CoreInv(cfg, s) && OnMessage(cfg, s, m, now).status.Open?
    requires m.EmptyResponse? || m.CloseResponse?
    ensures Moves(cfg, s, OnMessage(cfg, s, m, now), now, false, id)
  {
    TidyFromInv(cfg, s);
    if m.EmptyResponse? { EmptyShape(s, m.requestId); } else { CloseShape(s, m.requestId); }
    LastWordMoves(cfg, s, OnMessage(cfg, s, m, now), now, m, id);
  }

  /** A message after which the exchange goes on, or is over because the request was closed. */
  lemma BodyMoves(cfg: Config, s: Server, t: Server, now: int, m: ClientMessage, over: bool)
    requires cfg.Valid() && CoreInv(cfg, s) && OneEvent(s, t, m.Id(), In(m)) && (m.ContentHeader? || m.ContentChunk?)
    requires var k, ins, outs := m.Id(), InOf(s.hist, m.Id()), OutOf(s.hist, m.Id());
             && k in s.requests && (s.requests[k].closed <==> |outs| == 2) && 1 <= |outs| <= 2 && (|outs| == 2 ==> !outs[1].Success?)
             && !Full(cfg, ins) && (over <==> |outs| == 2 && outs[1].RequestClosed? && Full(cfg, ins + [m]))
             && (k in t.requests <==> !over)
             && (k in t.requests ==> t.requests[k].lastUpdated == if s.requests[k].closed then s.requests[k].lastUpdated else now)
    ensures Moves(cfg, s, t, now, false, m.Id())
  {
    Recorded(s.hist, In(m));
    NotOver(cfg, s, m.Id());
  }

  lemma NoSuccessYet(cfg: Config, s: Server, id: nat)
    requires cfg.Valid() && CoreInv(cfg, s) && id in s.requests
    ensures var outs := OutOf(s.hist, id); |outs| == 2 ==> outs[1].RequestClosed?
  {
    assert Live(cfg, id, s.requests[id], InOf(s.hist, id), OutOf(s.hist, id));
  }

  lemma HeaderShape(cfg: Config, s: Server, now: int, header: Header)
    requires s.status.Open? && OnContentHeader(cfg, s, header, now).status.Open?
    ensures var t, k := OnContentHeader(cfg, s, header, now), header.requestId;
            && k in s.requests && s.requests[k].response.None? && k in t.requests && OneEvent(s, t, k, In(ContentHeader(header)))
            && t.requests[k].lastUpdated == (if s.requests[k].closed then s.requests[k].lastUpdated else now)
            && 0 < header.contentSize
  {}

  lemma HeaderMoves(cfg: Config, s: Server, now: int, header: Header, id: nat)
    requires cfg.Valid() && s.status.Open? && CoreInv(cfg, s) && OnContentHeader(cfg, s, header, now).status.Open?
    ensures Moves(cfg, s, OnContentHeader(cfg, s, header, now), now, false, id)
  {
    var t, k, m := OnContentHeader(cfg, s, header, now), header.requestId, ContentHeader(header);
    HeaderShape(cfg, s, now, header);
    if id != k {
      OthersUntouched(cfg, s, t, now, k, In(m), id);
    } else {
      ServerEffects.WhileInMap(cfg, s, k);
      NoSuccessYet(cfg, s, k);
      ChunkExists(header.contentSize, cfg.chunkSize, 0);
      assert InOf(s.hist, k) + [m] == [m];
      BodyMoves(cfg, s, t, now, m, false);
    }
  }

  lemma ChunkShape(cfg: Config, s: Server, now: int, m: ClientMessage)
    requires cfg.Valid() && m.ContentChunk? && m.requestId in s.requests
    requires var r := s.requests[m.requestId]; r.id == m.requestId && Expected(cfg, r, m) && !r.response.value.chunksClosed
    ensures var t, k, r := OnContentChunk(cfg, s, m, now), m.requestId, s.requests[m.requestId];
            && OneEvent(s, t, k, In(m))
            && (k in t.requests <==>
                  !(r.closed && r.response.value.chunkSequence + 1 == NumChunks(r.response.value.header.contentSize, cfg.chunkSize)))
            && (k in t.requests ==> t.requests[k].lastUpdated == if r.closed then r.lastUpdated else now)
  {
    ExpectedChunk(cfg, s, m, now);
  }

  /** The message that was accepted was the expected one. */
  lemma WasExpected(cfg: Config, s: Server, now: int, m: ClientMessage)
    requires cfg.Valid() && s.status.Open? && CoreInv(cfg, s) && m.ContentChunk? && OnContentChunk(cfg, s, m, now).status.Open?
    ensures m.requestId in s.requests
    ensures var r := s.requests[m.requestId]; r.id == m.requestId && Expected(cfg, r, m) && !r.response.value.chunksClosed
  {
    var k := m.requestId;
    ServerEffects.WhileInMap(cfg, s, k);
    var r := s.requests[k];
    NextChunkInfoMeaning(cfg, r.response.value);
    ChunkExists(r.response.value.header.contentSize, cfg.chunkSize, m.sequence);
  }

  lemma ChunkMoves(cfg: Config, s: Server, now: int, m: ClientMessage, id: nat)
    requires cfg.Valid() && s.status.Open? && CoreInv(cfg, s) && m.ContentChunk? && OnContentChunk(cfg, s, m, now).status.Open?
    ensures Moves(cfg, s, OnContentChunk(cfg, s, m, now), now, false, id)
  {
    WasExpected(cfg, s, now, m);
    ChunkShape(cfg, s, now, m);
    var t, k := OnContentChunk(cfg, s, m, now), m.requestId;
    if id != k { OthersUntouched(cfg, s, t, now, k, In(m), id); } else { ChunkMovesOwn(cfg, s, t, now, m); }
  }

  lemma ChunkMovesOwn(cfg: Config, s: Server, t: Server, now: int, m: ClientMessage)
    requires cfg.Valid() && CoreInv(cfg, s) && m.ContentChunk? && m.requestId in s.requests
    requires OneEvent(s, t, m.requestId, In(m)) && s.requests[m.requestId].response.Some? && !s.requests[m.requestId].completed
    requires var k, r := m.requestId, s.requests[m.requestId];
             && (k in t.requests <==>
                   !(r.closed && r.response.value.chunkSequence + 1 == NumChunks(r.response.value.header.contentSize, cfg.chunkSize)))
             && (k in t.requests ==> t.requests[k].lastUpdated == if r.closed then r.lastUpdated else now)
    ensures Moves(cfg, s, t, now, false, m.requestId)
  {
    var k := m.requestId;
    ServerEffects.WhileInMap(cfg, s, k);
    NoSuccessYet(cfg, s, k);
    FullAfter(cfg, k, s.requests[k], InOf(s.hist, k), OutOf(s.hist, k), m);
    BodyMoves(cfg, s, t, now, m, k !in t.requests);
  }

  lemma FullAfter(cfg: Config, id: nat, r: RequestState, ins: seq<ClientMessage>, outs: seq<ServerMessage>, m: ClientMessage)
    requires cfg.Valid() && Live(cfg, id, r, ins, outs) && r.response.Some? && m.ContentChunk?
    ensures Full(cfg, ins + [m]) <==> r.response.value.chunkSequence + 1 == NumChunks(r.response.value.header.contentSize, cfg.chunkSize)
  {}

  lemma MessageMoves(cfg: Config, s: Server, now: int, m: ClientMessage, id: nat)
    requires cfg.Valid() && s.status.Open? && CoreInv(cfg, s) && OnMessage(cfg, s, m, now).status.Open?
    ensures Moves(cfg, s, OnMessage(cfg, s, m, now), now, false, id)
  {
    match m {
      case ContentHeader(header) => HeaderMoves(cfg, s, now, header, id);
      case ContentChunk(_, _, _) => ChunkMoves(cfg, s, now, m, id);
      case _ => ShortMoves(cfg, s, now, m, id);
    }
  }

  // ---- the timeout check ----

  /** What the messages of a check say about one request. */
  lemma {:induction false} ClosingsAbout(cfg: Config, s: Server, now: int, hist: seq<Event>, order: seq<nat>, id: nat)
    requires NoRepeats(order)
    ensures var after := hist + Closings(cfg, s, now, order);
            && InOf(after, id) == InOf(hist, id)
            && OutOf(after, id) == OutOf(hist, id) +
               if id in order && ExpiredIn(cfg, s, now, id) && !s.requests[id].completed
               then [RequestClosed(id, TIMEOUT_MESSAGE)] else []
    decreases |order|
  {
    if order == [] {
      assert hist + Closings(cfg, s, now, order) == hist;
    } else {
      var k, rest := order[0], order[1..];
      assert k !in rest && forall j :: j in order <==> j == k || j in rest;
      var first := Closings(cfg, s, now, [k]);
      ClosingsCons(cfg, s, now, order);
      assert hist + Closings(cfg, s, now, order) == (hist + first) + Closings(cfg, s, now, rest);
      ClosingsAbout(cfg, s, now, hist + first, rest, id);
      FirstClosing(cfg, s, now, hist, k, id);
    }
  }

  lemma FirstClosing(cfg: Config, s: Server, now: int, hist: seq<Event>, k: nat, id: nat)
    ensures var after := hist + Closings(cfg, s, now, [k]);
            && InOf(after, id) == InOf(hist, id)
            && OutOf(after, id) == OutOf(hist, id) +
               if id == k && ExpiredIn(cfg, s, now, k) && !s.requests[k].completed then [RequestClosed(k, TIMEOUT_MESSAGE)] else []
  {
    assert Closings(cfg, s, now, [k][1..]) == [];
    if ExpiredIn(cfg, s, now, k) && !s.requests[k].completed {
      Recorded(hist, Out(RequestClosed(k, TIMEOUT_MESSAGE)));
      assert Closings(cfg, s, now, [k]) == [Out(RequestClosed(k, TIMEOUT_MESSAGE))];
    } else {
      assert hist + Closings(cfg, s, now, [k]) == hist;
    }
  }

  lemma OutcomeMoves(cfg: Config, s: Server, t: Server, now: int, order: seq<nat>, id: nat)
    requires cfg.Valid() && CoreInv(cfg, s) && Visits(order, s.requests.Keys) && CheckOutcome(cfg, s, t, now, order)
    requires id in s.requests && Expired(cfg, s.requests[id], now) ==> !s.requests[id].closed
    ensures Moves(cfg, s, t, now, true, id)
  {
    ClosingsAbout(cfg, s, now, s.hist, order, id);
    if id in s.requests {
      ServerEffects.WhileInMap(cfg, s, id);
      NotOver(cfg, s, id);
    }
  }

  lemma TickMoves(cfg: Config, s: Server, now: int, order: seq<nat>, lost: set<nat>, id: nat)
    requires cfg.Valid() && s.status.Open? && CoreInv(cfg, s) && Visits(order, s.requests.Keys)
    requires Step(cfg, s, now, Tick(order, lost)).status.Open?
    ensures Moves(cfg, s, Step(cfg, s, now, Tick(order, lost)), now, true, id)
  {
    TidyFromInv(cfg, s);
    CheckIsExact(cfg, s, now, order, lost);
    assert ExpiredIn(cfg, s, now, id) ==> !s.requests[id].closed;
    OutcomeMoves(cfg, s, Step(cfg, s, now, Tick(order, lost)), now, order, id);
  }

  lemma StepMoves(cfg: Config, s: Server, now: int, input: Input, id: nat)
    requires cfg.Valid() && s.status.Open? && CoreInv(cfg, s) && Enabled(s, input)
    requires Step(cfg, s, now, input).status.Open?
    ensures Moves(cfg, s, Step(cfg, s, now, input), now, input.Tick?, id)
  {
    match input {
      case Receive(m) => MessageMoves(cfg, s, now, m, id);
      case Tick(order, lost) => TickMoves(cfg, s, now, order, lost, id);
      case _ => CallMoves(cfg, s, now, input, id);
    }
  }

  // ---- runs ----

  /** In every run, while the connection is open: a request is in the map if and only if it was sent, its
      exchange is not over, and no check has forgotten it; and its clock shows the time of the last turn
      that counted as life. */
  lemma {:induction false} MapExactly(cfg: Config, inputs: seq<Timed>, id: nat)
    requires cfg.Valid() && ValidRun(cfg, inputs) && Run(cfg, inputs).status.Open?
    ensures var s := Run(cfg, inputs);
            && (id in s.requests <==>
                  OutOf(s.hist, id) != [] && !Over(cfg, OutOf(s.hist, id), InOf(s.hist, id)) && !Forgotten(cfg, inputs, id))
            && (id in s.requests ==> s.requests[id].lastUpdated == LastLife(cfg, inputs, id))
            && (Forgotten(cfg, inputs, id) ==> OutOf(s.hist, id) != [])
  {
    if inputs != [] {
      var prefix, t := inputs[..|inputs| - 1], inputs[|inputs| - 1];
      MapExactly(cfg, prefix, id);
      RunKeeps(cfg, prefix);
      StepMoves(cfg, Run(cfg, prefix), t.now, t.input, id);
      OneMoreTurn(cfg, inputs, id);
    }
  }

  lemma OneMoreTurn(cfg: Config, inputs: seq<Timed>, id: nat)
    requires cfg.Valid() && inputs != []
    requires var prefix, t := inputs[..|inputs| - 1], inputs[|inputs| - 1];
             var s := Run(cfg, prefix);
             && Moves(cfg, s, Run(cfg, inputs), t.now, t.input.Tick?, id)
             && (id in s.requests <==>
                   OutOf(s.hist, id) != [] && !Over(cfg, OutOf(s.hist, id), InOf(s.hist, id)) && !Forgotten(cfg, prefix, id))
             && (id in s.requests ==> s.requests[id].lastUpdated == LastLife(cfg, prefix, id))
             && (Forgotten(cfg, prefix, id) ==> OutOf(s.hist, id) != [])
    ensures var s := Run(cfg, inputs);
            && (id in s.requests <==>
                  OutOf(s.hist, id) != [] && !Over(cfg, OutOf(s.hist, id), InOf(s.hist, id)) && !Forgotten(cfg, inputs, id))
            && (id in s.requests ==> s.requests[id].lastUpdated == LastLife(cfg, inputs, id))
            && (Forgotten(cfg, inputs, id) ==> OutOf(s.hist, id) != [])
  {}

  /** So a Success is due exactly when the record says so and no check has forgotten the request. */
  lemma DueExactly(cfg: Config, inputs: seq<Timed>, id: nat)
    requires cfg.Valid() && ValidRun(cfg, inputs) && Run(cfg, inputs).status.Open?
    ensures ServerEffects.Due(cfg, Run(cfg, inputs), id) <==> FullAndOpen(cfg, Run(cfg, inputs).hist, id) && !Forgotten(cfg, inputs, id)
  {
    MapExactly(cfg, inputs, id);
    ServerTheorems.RunRecord(cfg, inputs);
    FullIsNotOver(cfg, Run(cfg, inputs).hist, id);
  }

  lemma FullIsNotOver(cfg: Config, hist: seq<Event>, id: nat)
    requires cfg.Valid() && GoodHistory(cfg, hist)
    ensures FullAndOpen(cfg, hist, id) ==> !Over(cfg, OutOf(hist, id), InOf(hist, id))
  {
    ServerTheorems.RecordForms(cfg, hist, id);
    var ins := InOf(hist, id);
    if FullAndOpen(cfg, hist, id) {
      var header :| ServerTheorems.HeaderAndChunks(cfg, header, Body(ins));
      if |ins| > 1 { assert ChunkAt(cfg, ResponseState(header, 0, [], false), Body(ins), |ins| - 2); }
    }
  }
}
