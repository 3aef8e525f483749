/** What reaches the HTTP side of a request: the chunk channel over whole runs. */
module ServerDelivery {
  import opened Wire
  import opened Chunking
  import opened History
  import opened Server
  import opened ServerInvariant
  import opened ServerRuns

  predicate Has(s: Server, id: nat) {
    id in s.requests || id in s.gone
  }

  /** The request object with this id, whether or not it is still in the map. */
  function Object(s: Server, id: nat): RequestState
    requires Has(s, id)
  {
    if id in s.requests then s.requests[id] else s.gone[id]
  }

  /** How a request object may change: flags only get set, a provided response stays, channels that
      were closed stay as they are, and chunks are only added at the end. */
  predicate Grown(r: RequestState, r': RequestState) {
    && r'.id == r.id && r'.path == r.path && r'.created == r.created
    && (r.completed ==> r'.completed)
    && (r.closed ==> r'.closed)
    && (r.handover.HandedOver? ==> r'.handover == r.handover)
    && (r.response.Some? ==>
          && r'.response.Some?
          && var resp, resp' := r.response.value, r'.response.value;
          && resp'.header == resp.header
          && resp.chunks <= resp'.chunks
          && (resp.chunksClosed ==> resp'.chunksClosed && resp'.chunks == resp.chunks)
          && (r.closed ==> resp'.chunks == resp.chunks && resp'.chunksClosed == resp.chunksClosed))
  }

  ghost predicate AllGrown(s: Server, s': Server) {
    forall id :: Has(s, id) ==> Has(s', id) && Grown(Object(s, id), Object(s', id))
  }

  predicate Tidy(s: Server) {
    && (forall id :: id in s.requests ==> s.requests[id].id == id && id !in s.gone && id <= s.nextRequest)
    && (forall id :: id in s.gone ==> id <= s.nextRequest)
  }

  lemma GrownTransitive(a: Server, b: Server, c: Server)
    requires AllGrown(a, b) && AllGrown(b, c)
    ensures AllGrown(a, c)
  {}

  lemma PutGrown(s: Server, s': Server, r: RequestState)
    requires Tidy(s) && r.id in s.requests && Grown(s.requests[r.id], r)
    requires s'.requests == s.requests[r.id := r] && s'.gone == s.gone && s'.nextRequest == s.nextRequest
    ensures AllGrown(s, s') && Tidy(s')
  {}

  lemma DeleteGrown(s: Server, s': Server, id: nat, r: RequestState)
    requires Tidy(s) && id in s.requests && r.id == id && Grown(s.requests[id], r)
    requires s'.requests == s.requests - {id} && s'.gone == s.gone[id := r] && s'.nextRequest == s.nextRequest
    ensures AllGrown(s, s') && Tidy(s')
  {}

  lemma SameGrown(s: Server, s': Server)
    requires s'.requests == s.requests && s'.gone == s.gone
    ensures AllGrown(s, s')
  {}

  lemma CleanUpGrown(s: Server)
    requires Tidy(s)
    ensures AllGrown(s, CleanUp(s))
  {}

  lemma CloseResponseGrown(s: Server, id: nat)
    requires Tidy(s) && s.status.Open?
    ensures var t := OnCloseResponse(s, id); AllGrown(s, t) && Tidy(t)
  {
    var t := OnCloseResponse(s, id);
    if id in s.requests && s.requests[id].response.Some? && !s.requests[id].completed {
      var r := CloseChannel(s.requests[id]);
      assert t.requests == s.requests - {id};
      DeleteGrown(s, t, id, r);
    }
  }

  lemma EmptyResponseGrown(s: Server, id: nat)
    requires Tidy(s) && s.status.Open? && !OnEmptyResponse(s, id).status.Panicked?
    ensures var t := OnEmptyResponse(s, id); AllGrown(s, t) && Tidy(t)
  {
    var t := OnEmptyResponse(s, id);
    if id in s.requests && s.requests[id].response.None? {
      var r1 := ProvideResponse(s.requests[id], None).value;
      var r2 := if r1.closed then r1 else r1.(completed := true);
      DeleteTwice(s, EmptyResponse(id), r1, r2, id);
      assert t.requests == s.requests - {id};
      DeleteGrown(s, t, id, r2);
    }
  }

  lemma ContentHeaderGrown(cfg: Config, s: Server, header: Header, now: int)
    requires Tidy(s) && s.status.Open? && !OnContentHeader(cfg, s, header, now).status.Panicked?
    ensures var t := OnContentHeader(cfg, s, header, now); AllGrown(s, t) && Tidy(t)
  {
    var t, id := OnContentHeader(cfg, s, header, now), header.requestId;
    if id in s.requests && t.status.Open? {
      PutGrown(s, t, t.requests[id]);
    }
  }

  /** The next chunk of a response leaves the rest of the request as it was. */
  lemma ChunkGrown(cfg: Config, r: RequestState, m: ClientMessage, now: int)
    requires m.ContentChunk? && r.response.Some? && !r.completed && NextChunkInfo(cfg, r.response.value).Some?
    ensures var r1 := r.(response := Some(NextChunkInfo(cfg, r.response.value).value.0));
            && Grown(r, r1)
            && (WriteChunk(ResetTimeout(r1, now), m.data).Some? ==>
                  var r2 := WriteChunk(ResetTimeout(r1, now), m.data).value;
                  && Grown(r, r2) && r2.response.Some?
                  && (!r2.closed ==> Grown(r, r2.(completed := true, response := Some(r2.response.value.(chunksClosed := true))))))
  {}

  lemma ContentChunkGrown(cfg: Config, s: Server, m: ClientMessage, now: int)
    requires Tidy(s) && s.status.Open? && m.ContentChunk? && !OnContentChunk(cfg, s, m, now).status.Panicked?
    ensures var t := OnContentChunk(cfg, s, m, now); AllGrown(s, t) && Tidy(t)
  {
    var id := m.requestId;
    if id in s.requests && s.requests[id].response.Some? && !s.requests[id].completed {
      TakenChunkGrown(cfg, s, m, now);
    }
  }

  lemma TakenChunkGrown(cfg: Config, s: Server, m: ClientMessage, now: int)
    requires Tidy(s) && s.status.Open? && m.ContentChunk? && !OnContentChunk(cfg, s, m, now).status.Panicked?
    requires m.requestId in s.requests && s.requests[m.requestId].response.Some? && !s.requests[m.requestId].completed
    ensures var t := OnContentChunk(cfg, s, m, now); AllGrown(s, t) && Tidy(t)
  {
    var t, id := OnContentChunk(cfg, s, m, now), m.requestId;
    var r := s.requests[id];
    ChunkGrown(cfg, r, m, now);
    var (resp1, expected) := NextChunkInfo(cfg, r.response.value).value;
    var r1 := r.(response := Some(resp1));
    if m.sequence != expected.sequence || |m.data| != expected.size {
      PutGrown(s, t, r1);
    } else {
      var r2 := WriteChunk(ResetTimeout(r1, now), m.data).value;
      var s1 := Put(Accept(s, m), r2);
      if !expected.last {
        PutGrown(s, t, r2);
      } else if r2.closed {
        assert t.requests == s.requests - {id};
        DeleteGrown(s, t, id, r2);
      } else {
        var r3 := r2.(completed := true, response := Some(r2.response.value.(chunksClosed := true)));
        PutTwice(Accept(s, m), r2, r3);
        PutGrown(s, t, r3);
      }
    }
  }

  lemma CloseRequestGrown(s: Server, id: nat, message: string, now: int, ok: bool)
    requires Tidy(s)
    ensures var t := CloseRequest(s, id, message, now, ok).0; AllGrown(s, t) && Tidy(t)
  {}

  lemma {:induction false} SweepGrown(cfg: Config, s: Server, now: int, order: seq<nat>, lost: set<nat>)
    requires Tidy(s)
    ensures var t := Sweep(cfg, s, now, order, lost); AllGrown(s, t) && Tidy(t)
    decreases |order|
  {
    if order != [] {
      var id, rest := order[0], order[1..];
      if id !in s.requests || !Expired(cfg, s.requests[id], now) {
        SweepGrown(cfg, s, now, rest, lost);
      } else if s.requests[id].closed {
        SameGrown(s, Sweep(cfg, s, now, order, lost));
      } else {
        var s1 := if s.requests[id].completed then Delete(s, id) else CloseRequest(s, id, TIMEOUT_MESSAGE, now, id !in lost).0;
        if s.requests[id].completed { DeleteGrown(s, s1, id, s.requests[id]); }
        else { CloseRequestGrown(s, id, TIMEOUT_MESSAGE, now, id !in lost); }
        SweepGrown(cfg, s1, now, rest, lost);
        GrownTransitive(s, s1, Sweep(cfg, s, now, order, lost));
      }
    }
  }

  lemma SendRequestGrown(s: Server, path: string, now: int, ok: bool)
    requires Tidy(s)
    ensures var t := SendRequest(s, path, now, ok).0; AllGrown(s, t) && Tidy(t)
  {}

  lemma HandleGrown(cfg: Config, s: Server, now: int, input: Input)
    requires Tidy(s) && s.status.Open? && !Handle(cfg, s, now, input).0.status.Panicked?
    ensures var t := Handle(cfg, s, now, input).0; AllGrown(s, t) && Tidy(t)
  {
    match input {
      case Receive(m) =>
        match m {
          case EmptyResponse(id) => EmptyResponseGrown(s, id);
          case ContentHeader(header) => ContentHeaderGrown(cfg, s, header, now);
          case ContentChunk(_, _, _) => ContentChunkGrown(cfg, s, m, now);
          case CloseResponse(id) => CloseResponseGrown(s, id);
        }
      case Forward(path, ok) => SendRequestGrown(s, path, now, ok);
      case TriggerSuccess(id, ok) =>
        if id in s.requests && s.requests[id].completed && !s.requests[id].closed && ok {
          DeleteGrown(s, SendSuccess(s, id, ok).0, id, s.requests[id]);
        }
      case TriggerClose(id, message, ok) => CloseRequestGrown(s, id, message, now, ok);
      case Tick(order, lost) => SweepGrown(cfg, s, now, order, lost);
      case Done =>
    }
  }

  lemma StepGrown(cfg: Config, s: Server, now: int, input: Input)
    requires cfg.Valid() && Inv(cfg, s)
    ensures AllGrown(s, Step(cfg, s, now, input))
  {
    if s.status.Open? {
      StepKeeps(cfg, s, now, input);
      var t := Handle(cfg, s, now, input).0;
      TidyFromInv(cfg, s);
      HandleGrown(cfg, s, now, input);
      if t.status.Stopping? {
        CleanUpGrown(t);
        GrownTransitive(s, t, CleanUp(t));
      }
    } else {
      SameGrown(s, s);
    }
  }

  lemma TidyFromInv(cfg: Config, s: Server)
    requires cfg.Valid() && CoreInv(cfg, s)
    ensures Tidy(s)
  {}

  /** From any point of a run to any later one, a request object only grows: chunks already on a
      channel stay in place, and a closed channel is never closed again nor written to. */
  lemma {:induction false} ChannelsOnlyGrow(cfg: Config, inputs: seq<Timed>, k: nat)
    requires cfg.Valid() && k <= |inputs|
    ensures AllGrown(Run(cfg, inputs[..k]), Run(cfg, inputs))
    decreases |inputs|
  {
    if k == |inputs| {
      assert inputs[..k] == inputs;
    } else {
      var prefix, t := inputs[..|inputs| - 1], inputs[|inputs| - 1];
      assert prefix[..k] == inputs[..k];
      ChannelsOnlyGrow(cfg, prefix, k);
      RunKeeps(cfg, prefix);
      StepGrown(cfg, Run(cfg, prefix), t.now, t.input);
      GrownTransitive(Run(cfg, inputs[..k]), Run(cfg, prefix), Run(cfg, inputs));
    }
  }

  /** The data of the chunks accepted for a request, in order. */
  function ChunkData(ins: seq<ClientMessage>): seq<seq<Byte>> {
    if ins == [] then []
    else
      var m, before := ins[|ins| - 1], ChunkData(ins[..|ins| - 1]);
      if m.ContentChunk? then before + [m.data] else before
  }

  lemma {:induction false} ChunkDataOfBody(cfg: Config, id: nat, resp: ResponseState, body: seq<ClientMessage>, k: nat, i: nat)
    requires cfg.Valid() && ResponseShape(cfg, id, resp, body) && 0 < k <= |body|
    ensures |ChunkData(body[..k])| == k - 1
    ensures i < k - 1 ==> body[i + 1].ContentChunk? && ChunkData(body[..k])[i] == body[i + 1].data
    decreases k
  {
    if k > 1 {
      ChunkDataOfBody(cfg, id, resp, body, k - 1, i);
      assert body[..k][..k - 1] == body[..k - 1];
      assert ChunkAt(cfg, resp, body, k - 2);
    } else {
      assert body[..1] == [body[0]];
    }
  }

  /** In every run, for every request whose response was handed over: the channel holds the first
      chunks accepted for it, and if it was closed it holds all of them, ContentSize bytes in total. */
  lemma Delivery(cfg: Config, inputs: seq<Timed>, id: nat)
    requires cfg.Valid() && Has(Run(cfg, inputs), id) && Object(Run(cfg, inputs), id).response.Some?
    ensures var s := Run(cfg, inputs);
            var r, ins := Object(s, id), InOf(s.hist, id);
            var resp := r.response.value;
            && resp.chunks <= ChunkData(ins)
            && ins != [] && ins[0] == ContentHeader(resp.header)
            && (r.completed <==> resp.chunksClosed)
            && !(r.completed && r.closed)
            && (resp.chunksClosed ==> resp.chunks == ChunkData(ins) && |Flatten(resp.chunks)| == resp.header.contentSize)
  {
    RunKeeps(cfg, inputs);
    ObjectShape(cfg, Run(cfg, inputs), id);
    ShapeDelivers(cfg, id, Object(Run(cfg, inputs), id).response.value, InOf(Run(cfg, inputs).hist, id));
  }

  /** What the invariant says about a response, in the map or out of it. */
  lemma ObjectShape(cfg: Config, s: Server, id: nat)
    requires cfg.Valid() && Inv(cfg, s) && Has(s, id) && Object(s, id).response.Some?
    ensures var r, ins := Object(s, id), InOf(s.hist, id);
            var resp := r.response.value;
            && ResponseShape(cfg, id, resp, Body(ins))
            && (r.completed <==> resp.chunksClosed) && !(r.completed && r.closed)
            && (r.completed ==> ins == Body(ins) && |ins| - 1 == NumChunks(resp.header.contentSize, cfg.chunkSize) == |resp.chunks|)
  {
    var r, ins, outs := Object(s, id), InOf(s.hist, id), OutOf(s.hist, id);
    if id in s.requests {
      LivePosition(cfg, id, r, ins, outs);
    } else {
      assert Dead(cfg, id, r, ins, outs, s.status.Open?);
    }
  }

  /** The channel holds the first chunks accepted. */
  lemma ShapePrefix(cfg: Config, id: nat, resp: ResponseState, body: seq<ClientMessage>)
    requires cfg.Valid() && ResponseShape(cfg, id, resp, body)
    ensures |ChunkData(body)| == |body| - 1 && resp.chunks <= ChunkData(body)
  {
    assert body[..|body|] == body;
    ChunkDataOfBody(cfg, id, resp, body, |body|, 0);
    forall i: nat | i < |resp.chunks| ensures resp.chunks[i] == ChunkData(body)[i] {
      ChunkDataOfBody(cfg, id, resp, body, |body|, i);
      assert DataAt(resp, body, i);
    }
  }

  lemma ShapeChunk(cfg: Config, id: nat, resp: ResponseState, body: seq<ClientMessage>, i: nat)
    requires cfg.Valid() && ResponseShape(cfg, id, resp, body) && i < |resp.chunks|
    ensures i * cfg.chunkSize < resp.header.contentSize && |resp.chunks[i]| == ChunkLen(resp.header.contentSize, cfg.chunkSize, i)
  {
    assert ChunkAt(cfg, resp, body, i) && DataAt(resp, body, i);
  }

  /** All chunks together are as long as the content. */
  lemma ShapeLength(cfg: Config, id: nat, resp: ResponseState, body: seq<ClientMessage>)
    requires cfg.Valid() && ResponseShape(cfg, id, resp, body)
    requires |resp.chunks| == NumChunks(resp.header.contentSize, cfg.chunkSize)
    ensures |Flatten(resp.chunks)| == resp.header.contentSize
  {
    var size, c, chunks := resp.header.contentSize, cfg.chunkSize, resp.chunks;
    forall i | 0 <= i < |chunks| ensures i * c < size && |chunks[i]| == ChunkLen(size, c, i) {
      ShapeChunk(cfg, id, resp, body, i);
    }
    FlattenLength(size, c, chunks);
  }

  lemma ShapeDelivers(cfg: Config, id: nat, resp: ResponseState, ins: seq<ClientMessage>)
    requires cfg.Valid() && ResponseShape(cfg, id, resp, Body(ins))
    ensures resp.chunks <= ChunkData(ins) && ins != [] && ins[0] == ContentHeader(resp.header)
    ensures ins == Body(ins) && |ins| - 1 == NumChunks(resp.header.contentSize, cfg.chunkSize) == |resp.chunks| ==>
              resp.chunks == ChunkData(ins) && |Flatten(resp.chunks)| == resp.header.contentSize
  {
    ShapePrefix(cfg, id, resp, Body(ins));
    assert ChunkData(ins) == ChunkData(Body(ins));
    if |resp.chunks| == NumChunks(resp.header.contentSize, cfg.chunkSize) { ShapeLength(cfg, id, resp, Body(ins)); }
  }
}
