/** What every handler of the protocol loop keeps, and what follows for whole runs. */
module ServerInvariant {
  import opened Wire
  import opened Chunking
  import opened History
  import opened Server

  /** The accepted messages of a request without a trailing CloseResponse or EmptyResponse. */
  function Body(ins: seq<ClientMessage>): seq<ClientMessage> {
    if ins != [] && (ins[|ins| - 1].CloseResponse? || ins[|ins| - 1].EmptyResponse?) then ins[..|ins| - 1] else ins
  }

  predicate ChunkAt(cfg: Config, resp: ResponseState, body: seq<ClientMessage>, i: nat)
    requires i + 1 < |body|
  {
    && i * cfg.chunkSize < resp.header.contentSize
    && body[i + 1].ContentChunk?
    && body[i + 1].sequence == i
    && |body[i + 1].data| == ChunkLen(resp.header.contentSize, cfg.chunkSize, i)
  }

  predicate DataAt(resp: ResponseState, body: seq<ClientMessage>, i: nat)
    requires i < |resp.chunks|
  {
    i + 1 < |body| && body[i + 1].ContentChunk? && resp.chunks[i] == body[i + 1].data
  }

  /** A response is the header and chunks accepted for it; its channel holds a prefix of those chunks. */
  predicate ResponseShape(cfg: Config, id: nat, resp: ResponseState, body: seq<ClientMessage>)
    requires cfg.Valid()
  {
    var size := resp.header.contentSize;
    && body != [] && body[0] == ContentHeader(resp.header)
    && resp.header.requestId == id && HeaderAllowed(cfg, resp.header)
    && |body| - 1 <= NumChunks(size, cfg.chunkSize)
    && (forall i: nat :: i < |body| - 1 ==> ChunkAt(cfg, resp, body, i))
    && |resp.chunks| <= |body| - 1
    && (forall i: nat :: i < |resp.chunks| ==> DataAt(resp, body, i))
  }

  /** The invariant of a request in the map, given the messages accepted and sent for its id. */
  predicate Live(cfg: Config, id: nat, r: RequestState, ins: seq<ClientMessage>, outs: seq<ServerMessage>)
    requires cfg.Valid()
  {
    && r.id == id
    && !(r.closed && r.completed)
    && |outs| == (if r.closed then 2 else 1)
    && outs[0] == RequestMsg(id, r.path)
    && (r.closed ==> outs[1].RequestClosed?)
    && match r.response
       case None => ins == [] && !r.completed && r.handover == Pending
       case Some(resp) =>
         && ResponseShape(cfg, id, resp, ins)
         && resp.chunkSequence == |ins| - 1
         && (r.completed <==> |ins| - 1 == NumChunks(resp.header.contentSize, cfg.chunkSize))
         && (r.completed <==> resp.chunksClosed)
         && (!r.closed ==> |resp.chunks| == |ins| - 1 && r.handover == HandedOver(Some(resp.header)))
         && (r.handover.HandedOver? ==> r.handover == HandedOver(Some(resp.header)))
  }

  /** The invariant of a request that was deleted from the map. */
  predicate Dead(cfg: Config, id: nat, r: RequestState, ins: seq<ClientMessage>, outs: seq<ServerMessage>, open: bool)
    requires cfg.Valid()
  {
    && r.id == id
    && (r.closed <==> !r.completed)
    && |outs| <= 2
    && (|outs| > 0 ==> outs[0] == RequestMsg(id, r.path))
    && (|outs| == 2 ==> (outs[1].Success? && r.completed && Full(cfg, ins)) || (outs[1].RequestClosed? && r.closed))
    && (open ==> |outs| > 0 && Final(cfg, ins))
    && (open && Full(cfg, ins) ==> r.completed || (|outs| == 2 && outs[1].RequestClosed?))
    && (ins != [] && ins[|ins| - 1].EmptyResponse? && |outs| == 1 ==> r.completed)
    && (ins != [] && ins[|ins| - 1].CloseResponse? ==> r.closed)
    && (match r.response
        case None =>
          && Body(ins) == []
          && (r.completed ==> r.handover == HandedOver(None))
          && (!r.completed ==> r.handover == Pending)
        case Some(resp) =>
          && ResponseShape(cfg, id, resp, Body(ins))
          && (r.completed <==> resp.chunksClosed)
          && (r.completed ==> ins == Body(ins) && |ins| - 1 == NumChunks(resp.header.contentSize, cfg.chunkSize) == |resp.chunks|)
          && (r.handover.HandedOver? ==> r.handover == HandedOver(Some(resp.header)))
          && (r.completed ==> r.handover.HandedOver?))
  }

  predicate Fresh(s: Server, id: nat) {
    id !in s.requests && id !in s.gone
  }

  predicate NoClose(hist: seq<Event>) {
    hist == [] || (!IsClose(hist[|hist| - 1]) && !hist[|hist| - 1].Refused?)
  }

  ghost predicate Entries(cfg: Config, s: Server)
    requires cfg.Valid()
  {
    && (forall id :: id in s.requests ==> 0 < id <= s.nextRequest && id !in s.gone)
    && (forall id :: id in s.gone ==> 0 < id <= s.nextRequest)
    && (forall id :: id in s.requests ==> Live(cfg, id, s.requests[id], InOf(s.hist, id), OutOf(s.hist, id)))
    && (forall id :: id in s.gone ==> Dead(cfg, id, s.gone[id], InOf(s.hist, id), OutOf(s.hist, id), true))
    && (forall id :: Fresh(s, id) ==> InOf(s.hist, id) == [] && OutOf(s.hist, id) == [])
  }

  /** The invariant while the connection is open, and until the running handler is through. */
  ghost predicate CoreInv(cfg: Config, s: Server)
    requires cfg.Valid()
  {
    && Entries(cfg, s)
    && LastRequest(s.hist) <= s.nextRequest
    && GoodHistory(cfg, s.hist)
    && NoClose(s.hist)
  }

  /** What is left once the connection is over. */
  ghost predicate EndedInv(cfg: Config, s: Server)
    requires cfg.Valid()
  {
    && s.status.Ended?
    && s.requests == map[]
    && (forall id :: id in s.gone ==> Dead(cfg, id, s.gone[id], InOf(s.hist, id), OutOf(s.hist, id), false))
    && (forall id :: Fresh(s, id) ==> InOf(s.hist, id) == [] && OutOf(s.hist, id) == [])
    && GoodHistory(cfg, s.hist)
  }

  ghost predicate Inv(cfg: Config, s: Server)
    requires cfg.Valid()
  {
    if s.status.Open? then CoreInv(cfg, s) else EndedInv(cfg, s)
  }

  // ---- recording one event ----

  lemma Recorded(hist: seq<Event>, e: Event)
    ensures (hist + [e])[..|hist|] == hist
    ensures forall id :: InOf(hist + [e], id) == if e.In? && e.m.Id() == id then InOf(hist, id) + [e.m] else InOf(hist, id)
    ensures forall id :: OutOf(hist + [e], id) == if e.Out? && !e.s.Close? && e.s.id == id then OutOf(hist, id) + [e.s] else OutOf(hist, id)
    ensures LastRequest(hist + [e]) == if e.Out? && e.s.RequestMsg? then e.s.id else LastRequest(hist)
  {}

  /** An event about one id leaves the record of every other id alone. */
  lemma GoodAppend(cfg: Config, hist: seq<Event>, e: Event)
    requires cfg.Valid() && GoodHistory(cfg, hist) && NoClose(hist) && GoodEvent(cfg, hist, e)
    ensures GoodHistory(cfg, hist + [e])
  {}

  /** A live request stands at the point of the exchange that its state says. */
  lemma {:induction false} LivePosition(cfg: Config, id: nat, r: RequestState, ins: seq<ClientMessage>, outs: seq<ServerMessage>)
    requires cfg.Valid() && Live(cfg, id, r, ins, outs)
    ensures Final(cfg, ins) <==> r.completed
    ensures Full(cfg, ins) <==> r.completed
    ensures Body(ins) == ins
  {
    if r.response.Some? {
      var resp := r.response.value;
      if |ins| > 1 { assert ChunkAt(cfg, resp, ins, |ins| - 2); }
    }
  }

  lemma NoWrap(x: nat)
    requires x < U64
    ensures x % U64 == x
  {}

  /** The product in nextChunkInfo does not overflow while content is missing. */
  lemma {:induction false} NextChunkInfoMeaning(cfg: Config, resp: ResponseState)
    requires cfg.Valid()
    requires resp.chunkSequence < NumChunks(resp.header.contentSize, cfg.chunkSize)
    ensures resp.chunkSequence * cfg.chunkSize < resp.header.contentSize
    ensures resp.chunkSequence + 1 < U64
    ensures NextChunkInfo(cfg, resp) ==
            Some((resp.(chunkSequence := resp.chunkSequence + 1),
                  ChunkInfo(resp.chunkSequence, ChunkLen(resp.header.contentSize, cfg.chunkSize, resp.chunkSequence),
                            resp.chunkSequence + 1 == NumChunks(resp.header.contentSize, cfg.chunkSize))))
  {
    var k, c, size := resp.chunkSequence, cfg.chunkSize, resp.header.contentSize;
    ChunkExists(size, c, k);
    LastChunk(size, c, k);
    Positions(k, c);
    NoWrap(k * c);
    NoWrap(k + 1);
    NoWrap(k * c + ChunkLen(size, c, k));
  }

  // ---- changing one request ----

  /** An event about one request, together with that request's new state, keeps the invariant. */
  lemma PutKeeps(cfg: Config, s: Server, r: RequestState, e: Event)
    requires cfg.Valid() && CoreInv(cfg, s) && r.id in s.requests
    requires e.In? || (e.Out? && !e.s.Close? && !e.s.RequestMsg?)
    requires r.id == if e.In? then e.m.Id() else e.s.id
    requires GoodEvent(cfg, s.hist, e)
    requires Live(cfg, r.id, r, InOf(s.hist + [e], r.id), OutOf(s.hist + [e], r.id))
    ensures CoreInv(cfg, Put(s.(hist := s.hist + [e]), r))
  {
    var t := Put(s.(hist := s.hist + [e]), r);
    Recorded(s.hist, e);
    GoodAppend(cfg, s.hist, e);
    PutOthers(cfg, s, t, r);
  }

  lemma PutOthers(cfg: Config, s: Server, t: Server, r: RequestState)
    requires cfg.Valid() && Entries(cfg, s) && r.id in s.requests && t.nextRequest == s.nextRequest
    requires t.requests == s.requests[r.id := r] && t.gone == s.gone
    requires forall id :: id != r.id ==> InOf(t.hist, id) == InOf(s.hist, id) && OutOf(t.hist, id) == OutOf(s.hist, id)
    requires Live(cfg, r.id, r, InOf(t.hist, r.id), OutOf(t.hist, r.id))
    ensures Entries(cfg, t)
  {
    forall id | id in t.requests ensures Live(cfg, id, t.requests[id], InOf(t.hist, id), OutOf(t.hist, id)) {
      if id != r.id {
        assert t.requests[id] == s.requests[id] && InOf(t.hist, id) == InOf(s.hist, id) && OutOf(t.hist, id) == OutOf(s.hist, id);
      }
    }
    forall id | id in t.gone ensures Dead(cfg, id, t.gone[id], InOf(t.hist, id), OutOf(t.hist, id), true) {
      assert t.gone[id] == s.gone[id] && InOf(t.hist, id) == InOf(s.hist, id) && OutOf(t.hist, id) == OutOf(s.hist, id);
    }
    forall id | Fresh(t, id) ensures InOf(t.hist, id) == [] && OutOf(t.hist, id) == [] {
      assert Fresh(s, id);
    }
  }

  /** The same when the request leaves the map. */
  lemma RemoveKeeps(cfg: Config, s: Server, r: RequestState, e: Event)
    requires cfg.Valid() && CoreInv(cfg, s) && r.id in s.requests
    requires e.In? || (e.Out? && !e.s.Close? && !e.s.RequestMsg?)
    requires r.id == if e.In? then e.m.Id() else e.s.id
    requires GoodEvent(cfg, s.hist, e)
    requires Dead(cfg, r.id, r, InOf(s.hist + [e], r.id), OutOf(s.hist + [e], r.id), true)
    ensures CoreInv(cfg, Delete(Put(s.(hist := s.hist + [e]), r), r.id))
  {
    var t := Delete(Put(s.(hist := s.hist + [e]), r), r.id);
    Recorded(s.hist, e);
    GoodAppend(cfg, s.hist, e);
    PutThenDelete(s.(hist := s.hist + [e]), r);
    RemovedOthers(cfg, s, t, r);
  }

  lemma PutThenDelete(s: Server, r: RequestState)
    ensures var t := Delete(Put(s, r), r.id);
            t.requests == s.requests - {r.id} && t.gone == s.gone[r.id := r] && t.nextRequest == s.nextRequest && t.hist == s.hist
  {
    assert s.requests[r.id := r] - {r.id} == s.requests - {r.id};
  }

  lemma RemovedOthers(cfg: Config, s: Server, t: Server, r: RequestState)
    requires cfg.Valid() && Entries(cfg, s) && r.id in s.requests && t.nextRequest == s.nextRequest
    requires t.requests == s.requests - {r.id} && t.gone == s.gone[r.id := r]
    requires forall id :: id != r.id ==> InOf(t.hist, id) == InOf(s.hist, id) && OutOf(t.hist, id) == OutOf(s.hist, id)
    requires Dead(cfg, r.id, r, InOf(t.hist, r.id), OutOf(t.hist, r.id), true)
    ensures Entries(cfg, t)
  {
    forall id | id in t.requests ensures Live(cfg, id, t.requests[id], InOf(t.hist, id), OutOf(t.hist, id)) {
      assert t.requests[id] == s.requests[id] && InOf(t.hist, id) == InOf(s.hist, id) && OutOf(t.hist, id) == OutOf(s.hist, id);
    }
    forall id | id in t.gone ensures Dead(cfg, id, t.gone[id], InOf(t.hist, id), OutOf(t.hist, id), true) {
      if id != r.id {
        assert t.gone[id] == s.gone[id] && InOf(t.hist, id) == InOf(s.hist, id) && OutOf(t.hist, id) == OutOf(s.hist, id);
      }
    }
    forall id | Fresh(t, id) ensures InOf(t.hist, id) == [] && OutOf(t.hist, id) == [] {
      assert Fresh(s, id);
    }
  }

  // ---- the end of the connection ----

  lemma {:induction false} LiveDead(cfg: Config, id: nat, r: RequestState, ins: seq<ClientMessage>, outs: seq<ServerMessage>)
    requires cfg.Valid() && Live(cfg, id, r, ins, outs)
    ensures Dead(cfg, id, CloseChannel(r), ins, outs, false)
  {
    LivePosition(cfg, id, r, ins, outs);
  }

  /** Leaving the loop keeps what is known about every request, in the map or not. */
  lemma CleanUpKeeps(cfg: Config, s: Server)
    requires cfg.Valid() && GoodHistory(cfg, s.hist)
    requires forall id :: id in s.requests ==>
      Dead(cfg, id, CloseChannel(s.requests[id]), InOf(s.hist, id), OutOf(s.hist, id), false)
    requires forall id :: id in s.gone ==>
      Dead(cfg, id, s.gone[id], InOf(s.hist, id), OutOf(s.hist, id), false)
    requires forall id :: Fresh(s, id) ==> InOf(s.hist, id) == [] && OutOf(s.hist, id) == []
    ensures EndedInv(cfg, CleanUp(s))
  {}

  lemma CoreCleanUp(cfg: Config, s: Server)
    requires cfg.Valid() && CoreInv(cfg, s)
    ensures EndedInv(cfg, CleanUp(s))
  {
    forall id | id in s.requests
      ensures Dead(cfg, id, CloseChannel(s.requests[id]), InOf(s.hist, id), OutOf(s.hist, id), false)
    {
      LiveDead(cfg, id, s.requests[id], InOf(s.hist, id), OutOf(s.hist, id));
    }
    CleanUpKeeps(cfg, s);
  }

  lemma EndConnectionKeeps(cfg: Config, s: Server, reason: Reason)
    requires cfg.Valid() && CoreInv(cfg, s)
    ensures EndedInv(cfg, CleanUp(EndConnection(s, reason)))
  {
    var e := Out(Close(reason));
    Recorded(s.hist, e);
    GoodAppend(cfg, s.hist, e);
    forall id | id in s.requests
      ensures Dead(cfg, id, CloseChannel(s.requests[id]), InOf(s.hist, id), OutOf(s.hist, id), false)
    {
      LiveDead(cfg, id, s.requests[id], InOf(s.hist, id), OutOf(s.hist, id));
    }
    CleanUpKeeps(cfg, EndConnection(s, reason));
  }

  /** The chunk number of a response may run ahead of the chunks that were accepted. */
  predicate SameButNumber(r: RequestState, r': RequestState) {
    && r.response.Some? == r'.response.Some?
    && r' == r.(response := r'.response)
    && (r.response.Some? ==> r'.response.value == r.response.value.(chunkSequence := r'.response.value.chunkSequence))
  }

  lemma NumberIsIrrelevant(cfg: Config, id: nat, r: RequestState, r': RequestState, ins: seq<ClientMessage>, outs: seq<ServerMessage>)
    requires cfg.Valid() && Dead(cfg, id, r, ins, outs, false) && SameButNumber(r, r')
    ensures Dead(cfg, id, r', ins, outs, false)
  {
    if r.response.Some? {
      var body := Body(ins);
      forall i: nat | i < |body| - 1 ensures ChunkAt(cfg, r'.response.value, body, i) {
        assert ChunkAt(cfg, r.response.value, body, i);
      }
      forall i: nat | i < |r'.response.value.chunks| ensures DataAt(r'.response.value, body, i) {
        assert DataAt(r.response.value, body, i);
      }
    }
  }

  /** Refusing a message is right when it breaks the protocol, also after its chunk number was used up. */
  lemma RefuseKeeps(cfg: Config, s: Server, bumped: map<nat, RequestState>, m: ClientMessage, reason: Reason)
    requires cfg.Valid() && CoreInv(cfg, s)
    requires bumped.Keys == s.requests.Keys
    requires forall id :: id in s.requests ==> SameButNumber(s.requests[id], bumped[id])
    requires GoodEvent(cfg, s.hist, Refused(m))
    ensures EndedInv(cfg, CleanUp(Refuse(s.(requests := bumped), m, reason)))
  {
    var h1 := s.hist + [Refused(m)];
    var t := Refuse(s.(requests := bumped), m, reason);
    Recorded(s.hist, Refused(m));
    GoodAppend(cfg, s.hist, Refused(m));
    Recorded(h1, Out(Close(reason)));
    assert t.hist == h1 + [Out(Close(reason))];
    forall id | id in t.requests
      ensures Dead(cfg, id, CloseChannel(t.requests[id]), InOf(t.hist, id), OutOf(t.hist, id), false)
    {
      LiveDead(cfg, id, s.requests[id], InOf(s.hist, id), OutOf(s.hist, id));
      NumberIsIrrelevant(cfg, id, CloseChannel(s.requests[id]), CloseChannel(t.requests[id]), InOf(s.hist, id), OutOf(s.hist, id));
    }
    forall id | id in t.gone
      ensures Dead(cfg, id, t.gone[id], InOf(t.hist, id), OutOf(t.hist, id), false)
    {
      DeadWeaken(cfg, id, s.gone[id], InOf(s.hist, id), OutOf(s.hist, id));
    }
    forall id | Fresh(t, id) ensures InOf(t.hist, id) == [] && OutOf(t.hist, id) == [] {
      assert Fresh(s, id);
    }
    CleanUpKeeps(cfg, t);
  }

  lemma DeadWeaken(cfg: Config, id: nat, r: RequestState, ins: seq<ClientMessage>, outs: seq<ServerMessage>)
    requires cfg.Valid() && Dead(cfg, id, r, ins, outs, true)
    ensures Dead(cfg, id, r, ins, outs, false)
  {}

  lemma PlainRefuseKeeps(cfg: Config, s: Server, m: ClientMessage, reason: Reason)
    requires cfg.Valid() && CoreInv(cfg, s)
    requires GoodEvent(cfg, s.hist, Refused(m))
    ensures EndedInv(cfg, CleanUp(Refuse(s, m, reason)))
  {
    RefuseKeeps(cfg, s, s.requests, m, reason);
  }

  /** A message for an id that is not in the map breaks the protocol. */
  lemma UnknownId(cfg: Config, s: Server, m: ClientMessage)
    requires cfg.Valid() && CoreInv(cfg, s) && m.Id() !in s.requests
    ensures GoodEvent(cfg, s.hist, Refused(m))
  {}
}
