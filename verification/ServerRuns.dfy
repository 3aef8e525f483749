/** Every handler keeps the invariant, so every run does; what that means for the protocol. */
module ServerRuns {
  import opened Wire
  import opened Chunking
  import opened History
  import opened Server
  import opened ServerInvariant

  /** A handler ends well: it did not panic, and the invariant holds if the connection is still open,
      or will hold once the loop has cleaned up. */
  ghost predicate Sound(cfg: Config, s: Server)
    requires cfg.Valid()
  {
    match s.status
    case Open => CoreInv(cfg, s)
    case Stopping => EndedInv(cfg, CleanUp(s))
    case _ => false
  }

  /** A response closed by the client ends its request. */
  lemma LiveCancelled(cfg: Config, id: nat, r: RequestState, ins: seq<ClientMessage>, outs: seq<ServerMessage>, m: ClientMessage)
    requires cfg.Valid() && Live(cfg, id, r, ins, outs) && r.response.Some? && !r.completed && m == CloseResponse(id)
    ensures Dead(cfg, id, CloseChannel(r), ins + [m], outs, true)
  {}

  /** So does an empty response. */
  lemma LiveEmpty(cfg: Config, id: nat, r: RequestState, ins: seq<ClientMessage>, outs: seq<ServerMessage>, m: ClientMessage)
    requires cfg.Valid() && Live(cfg, id, r, ins, outs) && r.response.None? && m == EmptyResponse(id)
    ensures ProvideResponse(r, None).Some?
    ensures var r1 := ProvideResponse(r, None).value;
            Dead(cfg, id, if r.closed then r1 else r1.(completed := true), ins + [m], outs, true)
  {}

  lemma OnCloseResponseKeeps(cfg: Config, s: Server, id: nat)
    requires cfg.Valid() && s.status.Open? && CoreInv(cfg, s)
    ensures Sound(cfg, OnCloseResponse(s, id))
  {
    var m := CloseResponse(id);
    if id !in s.requests {
      UnknownId(cfg, s, m);
      PlainRefuseKeeps(cfg, s, m, InvalidRequestId);
    } else {
      var r, ins, outs := s.requests[id], InOf(s.hist, id), OutOf(s.hist, id);
      LivePosition(cfg, id, r, ins, outs);
      if r.response.None? || r.completed {
        PlainRefuseKeeps(cfg, s, m, InvalidClientMessage);
      } else {
        Recorded(s.hist, In(m));
        LiveCancelled(cfg, id, r, ins, outs, m);
        RemoveKeeps(cfg, s, CloseChannel(r), In(m));
      }
    }
  }

  lemma OnEmptyResponseKeeps(cfg: Config, s: Server, id: nat)
    requires cfg.Valid() && s.status.Open? && CoreInv(cfg, s)
    ensures Sound(cfg, OnEmptyResponse(s, id))
  {
    var m := EmptyResponse(id);
    if id !in s.requests {
      UnknownId(cfg, s, m);
      PlainRefuseKeeps(cfg, s, m, InvalidRequestId);
    } else {
      var r, ins, outs := s.requests[id], InOf(s.hist, id), OutOf(s.hist, id);
      LivePosition(cfg, id, r, ins, outs);
      if r.response.Some? {
        PlainRefuseKeeps(cfg, s, m, InvalidClientMessage);
      } else {
        Recorded(s.hist, In(m));
        LiveEmpty(cfg, id, r, ins, outs, m);
        var r1 := ProvideResponse(r, None).value;
        var r2 := if r.closed then r1 else r1.(completed := true);
        DeleteTwice(s, m, r1, r2, id);
        RemoveKeeps(cfg, s, r2, In(m));
      }
    }
  }

  /** Completing and then deleting a request amounts to one deletion, whichever of the two removes it. */
  lemma DeleteTwice(s: Server, m: ClientMessage, r1: RequestState, r2: RequestState, id: nat)
    requires id in s.requests && r1.id == id && !r1.completed && r1.response.None? && !s.status.Panicked?
    requires r2 == if r1.closed then r1 else r1.(completed := true)
    ensures var s1 := CompleteRequest(Put(Accept(s, m), r1), r1);
            !s1.status.Panicked? && Delete(s1, id) == Delete(Put(Accept(s, m), r2), id)
  {}

  lemma OnContentHeaderKeeps(cfg: Config, s: Server, header: Header, now: int)
    requires cfg.Valid() && s.status.Open? && CoreInv(cfg, s)
    ensures Sound(cfg, OnContentHeader(cfg, s, header, now))
  {
    var m, id := ContentHeader(header), header.requestId;
    if id !in s.requests {
      UnknownId(cfg, s, m);
      PlainRefuseKeeps(cfg, s, m, InvalidRequestId);
    } else {
      var r, ins, outs := s.requests[id], InOf(s.hist, id), OutOf(s.hist, id);
      LivePosition(cfg, id, r, ins, outs);
      if r.response.Some? || !HeaderAllowed(cfg, header) {
        forall reason ensures EndedInv(cfg, CleanUp(Refuse(s, m, reason))) {
          PlainRefuseKeeps(cfg, s, m, reason);
        }
      } else {
        Recorded(s.hist, In(m));
        var r1 := ProvideResponse(ResetTimeout(r, now), Some(ResponseState(header, 0, [], false))).value;
        ChunkExists(header.contentSize, cfg.chunkSize, 0);
        PutKeeps(cfg, s, r1, In(m));
      }
    }
  }

  /** The next chunk extends the response it belongs to, and its channel when the data is passed on. */
  lemma {:induction false} ChunkExtends(cfg: Config, id: nat, resp: ResponseState, resp': ResponseState, ins: seq<ClientMessage>, m: ClientMessage)
    requires cfg.Valid() && ResponseShape(cfg, id, resp, ins) && m.ContentChunk?
    requires |ins| - 1 < NumChunks(resp.header.contentSize, cfg.chunkSize)
    requires m.sequence == |ins| - 1 && m.sequence * cfg.chunkSize < resp.header.contentSize
    requires |m.data| == ChunkLen(resp.header.contentSize, cfg.chunkSize, m.sequence)
    requires resp'.header == resp.header
    requires resp'.chunks == resp.chunks || (resp'.chunks == resp.chunks + [m.data] && |resp.chunks| == |ins| - 1)
    ensures ResponseShape(cfg, id, resp', ins + [m])
  {
    var ins' := ins + [m];
    forall i: nat | i < |ins'| - 1 ensures ChunkAt(cfg, resp', ins', i) {
      if i < |ins| - 1 { assert ChunkAt(cfg, resp, ins, i); }
    }
    forall i: nat | i < |resp'.chunks| ensures DataAt(resp', ins', i) {
      if i < |resp.chunks| { assert DataAt(resp, ins, i); }
    }
  }

  lemma ChunkRefused(cfg: Config, s: Server, r1: RequestState, m: ClientMessage, reason: Reason)
    requires cfg.Valid() && s.status.Open? && CoreInv(cfg, s)
    requires r1.id in s.requests && SameButNumber(s.requests[r1.id], r1)
    requires GoodEvent(cfg, s.hist, Refused(m))
    ensures Sound(cfg, Refuse(Put(s, r1), m, reason))
  {
    RefuseKeeps(cfg, s, s.requests[r1.id := r1], m, reason);
  }

  predicate Expected(cfg: Config, r: RequestState, m: ClientMessage)
    requires cfg.Valid()
  {
    && m.ContentChunk? && r.response.Some? && !r.completed
    && var size := r.response.value.header.contentSize;
    && m.sequence == r.response.value.chunkSequence < NumChunks(size, cfg.chunkSize)
    && m.sequence * cfg.chunkSize < size
    && |m.data| == ChunkLen(size, cfg.chunkSize, m.sequence)
  }

  /** The request after the expected chunk was written. */
  function Written(r: RequestState, m: ClientMessage, now: int): RequestState
    requires r.response.Some? && m.ContentChunk? && r.response.value.chunkSequence + 1 < U64
  {
    var resp := r.response.value.(chunkSequence := r.response.value.chunkSequence + 1);
    var r1 := ResetTimeout(r.(response := Some(resp)), now);
    if r.closed then r1 else r1.(response := Some(resp.(chunks := resp.chunks + [m.data])))
  }

  function Completed(r: RequestState): RequestState
    requires r.response.Some?
  {
    r.(completed := true, response := Some(r.response.value.(chunksClosed := true)))
  }

  /** An expected chunk moves a request on: to one more chunk received, out of the map when it was
      closed and is now complete, or to completion. */
  lemma LiveChunk(cfg: Config, id: nat, r: RequestState, ins: seq<ClientMessage>, outs: seq<ServerMessage>, m: ClientMessage, now: int)
    requires cfg.Valid() && Live(cfg, id, r, ins, outs) && Expected(cfg, r, m) && r.response.value.chunkSequence + 1 < U64
    ensures var r2, last := Written(r, m, now), |ins| == NumChunks(r.response.value.header.contentSize, cfg.chunkSize);
            if !last then Live(cfg, id, r2, ins + [m], outs)
            else if r.closed then Dead(cfg, id, r2, ins + [m], outs, true)
            else Live(cfg, id, Completed(r2), ins + [m], outs)
  {
    var resp, r2 := r.response.value, Written(r, m, now);
    ChunkExtends(cfg, id, resp, r2.response.value, ins, m);
    ChunkExtends(cfg, id, resp, Completed(r2).response.value, ins, m);
    assert Body(ins + [m]) == ins + [m];
  }

  /** What the chunk handler does with an expected chunk. */
  lemma ExpectedChunk(cfg: Config, s: Server, m: ClientMessage, now: int)
    requires cfg.Valid() && m.ContentChunk? && m.requestId in s.requests
    requires var r := s.requests[m.requestId];
             r.id == m.requestId && Expected(cfg, r, m) && !r.response.value.chunksClosed
    ensures s.requests[m.requestId].response.value.chunkSequence + 1 < U64
    ensures var r := s.requests[m.requestId];
            var r2 := Written(r, m, now);
            OnContentChunk(cfg, s, m, now) ==
            if r2.response.value.chunkSequence != NumChunks(r.response.value.header.contentSize, cfg.chunkSize) then Put(Accept(s, m), r2)
            else if r.closed then Delete(Put(Accept(s, m), r2), r.id)
            else Put(Accept(s, m), Completed(r2))
  {
    var r := s.requests[m.requestId];
    NextChunkInfoMeaning(cfg, r.response.value);
    var r2 := Written(r, m, now);
    assert Put(Put(Accept(s, m), r2), Completed(r2)) == Put(Accept(s, m), Completed(r2));
  }

  lemma ChunkAccepted(cfg: Config, s: Server, m: ClientMessage, now: int)
    requires cfg.Valid() && s.status.Open? && CoreInv(cfg, s)
    requires m.ContentChunk? && m.requestId in s.requests && Expected(cfg, s.requests[m.requestId], m)
    ensures Sound(cfg, OnContentChunk(cfg, s, m, now))
  {
    var id := m.requestId;
    var r, ins, outs := s.requests[id], InOf(s.hist, id), OutOf(s.hist, id);
    LivePosition(cfg, id, r, ins, outs);
    ExpectedChunk(cfg, s, m, now);
    LiveChunk(cfg, id, r, ins, outs, m, now);
    Recorded(s.hist, In(m));
    var r2 := Written(r, m, now);
    if |ins| != NumChunks(r.response.value.header.contentSize, cfg.chunkSize) {
      PutKeeps(cfg, s, r2, In(m));
    } else if r.closed {
      RemoveKeeps(cfg, s, r2, In(m));
    } else {
      PutKeeps(cfg, s, Completed(r2), In(m));
    }
  }

  lemma OnContentChunkKeeps(cfg: Config, s: Server, m: ClientMessage, now: int)
    requires cfg.Valid() && s.status.Open? && CoreInv(cfg, s) && m.ContentChunk?
    ensures Sound(cfg, OnContentChunk(cfg, s, m, now))
  {
    var id := m.requestId;
    if id !in s.requests {
      UnknownId(cfg, s, m);
      PlainRefuseKeeps(cfg, s, m, InvalidRequestId);
    } else {
      var r, ins, outs := s.requests[id], InOf(s.hist, id), OutOf(s.hist, id);
      LivePosition(cfg, id, r, ins, outs);
      if r.response.None? || r.completed {
        PlainRefuseKeeps(cfg, s, m, InvalidClientMessage);
      } else {
        NextChunkInfoMeaning(cfg, r.response.value);
        var (resp1, expected) := NextChunkInfo(cfg, r.response.value).value;
        if m.sequence == expected.sequence && |m.data| == expected.size {
          ChunkAccepted(cfg, s, m, now);
        } else {
          var reason := if m.sequence != expected.sequence then ChunkOutOfSequence else InvalidChunkSize;
          ChunkRefused(cfg, s, r.(response := Some(resp1)), m, reason);
        }
      }
    }
  }

  // ---- the server's own handlers ----

  /** Ids in the map never exceed the counter, so the first candidate is already unused. */
  lemma NextIdIsNext(cfg: Config, s: Server)
    requires cfg.Valid() && Entries(cfg, s)
    ensures NextId(s.requests.Keys, s.nextRequest) == s.nextRequest + 1
    ensures Fresh(s, s.nextRequest + 1)
  {}

  lemma AddOthers(cfg: Config, s: Server, t: Server, r: RequestState)
    requires cfg.Valid() && Entries(cfg, s) && Fresh(s, r.id) && r.id == t.nextRequest == s.nextRequest + 1
    requires t.requests == s.requests[r.id := r] && t.gone == s.gone
    requires forall id :: id != r.id ==> InOf(t.hist, id) == InOf(s.hist, id) && OutOf(t.hist, id) == OutOf(s.hist, id)
    requires Live(cfg, r.id, r, InOf(t.hist, r.id), OutOf(t.hist, r.id))
    ensures Entries(cfg, t)
  {
    forall id | id in t.requests ensures Live(cfg, id, t.requests[id], InOf(t.hist, id), OutOf(t.hist, id)) {
      if id != r.id {
        assert t.requests[id] == s.requests[id] && InOf(t.hist, id) == InOf(s.hist, id) && OutOf(t.hist, id) == OutOf(s.hist, id);
      }
    }
    forall id | id in t.gone ensures Dead(cfg, id, t.gone[id], InOf(t.hist, id), OutOf(t.hist, id), true) {
      assert t.gone[id] == s.gone[id] && InOf(t.hist, id) == InOf(s.hist, id) && OutOf(t.hist, id) == OutOf(s.hist, id);
    }
    forall id | Fresh(t, id) ensures InOf(t.hist, id) == [] && OutOf(t.hist, id) == [] {
      assert Fresh(s, id);
    }
  }

  lemma RequestSentKeeps(cfg: Config, s: Server, path: string, now: int)
    requires cfg.Valid() && s.status.Open? && CoreInv(cfg, s)
    ensures Sound(cfg, SendRequest(s, path, now, true).0)
  {
    NextIdIsNext(cfg, s);
    var id := s.nextRequest + 1;
    var t := SendRequest(s, path, now, true).0;
    var e := Out(RequestMsg(id, path));
    Recorded(s.hist, e);
    GoodAppend(cfg, s.hist, e);
    AddOthers(cfg, s, t, NewRequest(id, path, now));
  }

  /** When the connection turns out to be over, the new request is closed with all the others. */
  lemma RequestLostKeeps(cfg: Config, s: Server, path: string, now: int)
    requires cfg.Valid() && s.status.Open? && CoreInv(cfg, s)
    ensures Sound(cfg, SendRequest(s, path, now, false).0)
  {
    NextIdIsNext(cfg, s);
    var t := SendRequest(s, path, now, false).0;
    forall k | k in t.requests ensures Dead(cfg, k, CloseChannel(t.requests[k]), InOf(t.hist, k), OutOf(t.hist, k), false) {
      if k in s.requests {
        LiveDead(cfg, k, s.requests[k], InOf(s.hist, k), OutOf(s.hist, k));
      } else {
        assert Fresh(s, k);
      }
    }
    forall k | k in t.gone ensures Dead(cfg, k, t.gone[k], InOf(t.hist, k), OutOf(t.hist, k), false) {
      DeadWeaken(cfg, k, s.gone[k], InOf(s.hist, k), OutOf(s.hist, k));
    }
    forall k | Fresh(t, k) ensures InOf(t.hist, k) == [] && OutOf(t.hist, k) == [] {
      assert Fresh(s, k);
    }
    CleanUpKeeps(cfg, t);
  }

  lemma LiveSuccess(cfg: Config, id: nat, r: RequestState, ins: seq<ClientMessage>, outs: seq<ServerMessage>)
    requires cfg.Valid() && Live(cfg, id, r, ins, outs) && r.completed
    ensures Dead(cfg, id, r, ins, outs, true) && Dead(cfg, id, r, ins, outs + [Success(id)], true)
  {
    LivePosition(cfg, id, r, ins, outs);
  }

  lemma SuccessSentKeeps(cfg: Config, s: Server, id: nat)
    requires cfg.Valid() && s.status.Open? && CoreInv(cfg, s)
    requires id in s.requests && s.requests[id].completed
    ensures s.requests[id].id == id && CoreInv(cfg, Delete(Send(s, Success(id)), id))
  {
    var r, ins, outs := s.requests[id], InOf(s.hist, id), OutOf(s.hist, id);
    var e := Out(Success(id));
    LivePosition(cfg, id, r, ins, outs);
    LiveSuccess(cfg, id, r, ins, outs);
    Recorded(s.hist, e);
    assert s.requests[id := r] == s.requests;
    RemoveKeeps(cfg, s, r, e);
  }

  lemma SendSuccessKeeps(cfg: Config, s: Server, id: nat, ok: bool)
    requires cfg.Valid() && s.status.Open? && CoreInv(cfg, s)
    ensures Sound(cfg, SendSuccess(s, id, ok).0)
  {
    if id in s.requests && s.requests[id].completed && !s.requests[id].closed {
      if ok { SuccessSentKeeps(cfg, s, id); } else { CoreCleanUp(cfg, s.(status := Stopping)); }
    }
  }

  /** Closing keeps the invariant in the middle of a sweep too, when the connection may be stopping. */
  lemma CloseRequestKeeps(cfg: Config, s: Server, id: nat, message: string, now: int, ok: bool)
    requires cfg.Valid() && CoreInv(cfg, s)
    ensures CoreInv(cfg, CloseRequest(s, id, message, now, ok).0)
    ensures CloseRequest(s, id, message, now, ok).0.status in {s.status, Stopping}
  {
    if id in s.requests && !s.requests[id].closed && !s.requests[id].completed && ok {
      RequestClosedKeeps(cfg, s, id, message, now);
    }
  }

  lemma LiveClosed(cfg: Config, id: nat, r: RequestState, ins: seq<ClientMessage>, outs: seq<ServerMessage>, message: string, now: int)
    requires cfg.Valid() && Live(cfg, id, r, ins, outs) && !r.closed && !r.completed
    ensures Live(cfg, id, CloseChannel(ResetTimeout(r, now)), ins, outs + [RequestClosed(id, message)])
  {}

  lemma RequestClosedKeeps(cfg: Config, s: Server, id: nat, message: string, now: int)
    requires cfg.Valid() && CoreInv(cfg, s)
    requires id in s.requests && !s.requests[id].closed && !s.requests[id].completed
    ensures s.requests[id].id == id
    ensures CoreInv(cfg, Put(Send(s, RequestClosed(id, message)), CloseChannel(ResetTimeout(s.requests[id], now))))
  {
    var r, ins, outs := s.requests[id], InOf(s.hist, id), OutOf(s.hist, id);
    var e := Out(RequestClosed(id, message));
    LivePosition(cfg, id, r, ins, outs);
    LiveClosed(cfg, id, r, ins, outs, message, now);
    Recorded(s.hist, e);
    PutKeeps(cfg, s, CloseChannel(ResetTimeout(r, now)), e);
  }

  /** A completed request that is given up leaves the map without a message. */
  lemma DropKeeps(cfg: Config, s: Server, id: nat)
    requires cfg.Valid() && CoreInv(cfg, s) && id in s.requests && s.requests[id].completed
    ensures CoreInv(cfg, Delete(s, id))
  {
    var r, ins, outs := s.requests[id], InOf(s.hist, id), OutOf(s.hist, id);
    LiveSuccess(cfg, id, r, ins, outs);
    RemovedOthers(cfg, s, Delete(s, id), r);
  }

  lemma {:induction false} SweepKeeps(cfg: Config, s: Server, now: int, order: seq<nat>, lost: set<nat>)
    requires cfg.Valid() && CoreInv(cfg, s) && (s.status.Open? || s.status.Stopping?)
    ensures Sound(cfg, Sweep(cfg, s, now, order, lost))
    decreases |order|
  {
    if order == [] {
      CoreCleanUp(cfg, s);
    } else {
      var id, rest := order[0], order[1..];
      if id !in s.requests || !Expired(cfg, s.requests[id], now) {
        SweepKeeps(cfg, s, now, rest, lost);
      } else if s.requests[id].closed {
        CoreCleanUp(cfg, s);
        EndConnectionKeeps(cfg, s, TimedOut);
      } else if s.requests[id].completed {
        DropKeeps(cfg, s, id);
        SweepKeeps(cfg, Delete(s, id), now, rest, lost);
      } else {
        CloseRequestKeeps(cfg, s, id, TIMEOUT_MESSAGE, now, id !in lost);
        SweepKeeps(cfg, CloseRequest(s, id, TIMEOUT_MESSAGE, now, id !in lost).0, now, rest, lost);
      }
    }
  }

  lemma MessageKeeps(cfg: Config, s: Server, now: int, m: ClientMessage)
    requires cfg.Valid() && s.status.Open? && CoreInv(cfg, s)
    ensures Sound(cfg, OnMessage(cfg, s, m, now))
  {
    match m {
      case EmptyResponse(id) => OnEmptyResponseKeeps(cfg, s, id);
      case ContentHeader(header) => OnContentHeaderKeeps(cfg, s, header, now);
      case ContentChunk(_, _, _) => OnContentChunkKeeps(cfg, s, m, now);
      case CloseResponse(id) => OnCloseResponseKeeps(cfg, s, id);
    }
  }

  lemma HandleKeeps(cfg: Config, s: Server, now: int, input: Input)
    requires cfg.Valid() && s.status.Open? && CoreInv(cfg, s)
    ensures Sound(cfg, Handle(cfg, s, now, input).0)
  {
    match input {
      case Receive(m) => MessageKeeps(cfg, s, now, m);
      case Forward(path, ok) =>
        if ok { RequestSentKeeps(cfg, s, path, now); } else { RequestLostKeeps(cfg, s, path, now); }
      case TriggerSuccess(id, ok) => SendSuccessKeeps(cfg, s, id, ok);
      case TriggerClose(id, message, ok) =>
        CloseRequestKeeps(cfg, s, id, message, now, ok);
        CoreCleanUp(cfg, CloseRequest(s, id, message, now, ok).0);
      case Tick(order, lost) => SweepKeeps(cfg, s, now, order, lost);
      case Done => CoreCleanUp(cfg, s.(status := Stopping));
    }
  }

  lemma StepKeeps(cfg: Config, s: Server, now: int, input: Input)
    requires cfg.Valid() && Inv(cfg, s)
    ensures Inv(cfg, Step(cfg, s, now, input))
    ensures !Step(cfg, s, now, input).status.Panicked?
  {
    if s.status.Open? { HandleKeeps(cfg, s, now, input); }
  }

  /** The invariant holds after every sequence of inputs at all, and no panic is ever reached. */
  lemma {:induction false} RunKeeps(cfg: Config, inputs: seq<Timed>)
    requires cfg.Valid()
    ensures Inv(cfg, Run(cfg, inputs))
    ensures !Run(cfg, inputs).status.Panicked?
  {
    if inputs != [] {
      var prefix, t := inputs[..|inputs| - 1], inputs[|inputs| - 1];
      RunKeeps(cfg, prefix);
      StepKeeps(cfg, Run(cfg, prefix), t.now, t.input);
    }
  }
}
