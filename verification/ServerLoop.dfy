/** The protocol loop of pkg/server/client.go as it is written: request and response objects in a
    map, updated in place. Every handler is proved to do what its function in Server says, and one
    turn of the loop to keep the invariant. A panic statement is an assertion that it is not reached. */
module ServerLoop {
  import opened Wire
  import opened History
  import opened ServerInvariant
  import opened ServerRuns
  import S = Server

  class InternalResponse {
    const request: InternalRequest
    const header: Header
    var chunkSequence: u64
    var chunks: seq<seq<Byte>>
    var chunksClosed: bool

    ghost function Value(): S.ResponseState
      reads this
    {
      S.ResponseState(header, chunkSequence, chunks, chunksClosed)
    }

    constructor (request: InternalRequest, header: Header)
      ensures this.request == request && this.header == header
      ensures Value() == S.ResponseState(header, 0, [], false)
    {
      this.request, this.header := request, header;
      chunkSequence, chunks, chunksClosed := 0, [], false;
    }

    /** Sending on a closed channel panics. */
    method Write(chunk: seq<Byte>)
      requires request.closed || !chunksClosed
      modifies this
      ensures chunkSequence == old(chunkSequence) && chunksClosed == old(chunksClosed)
      ensures chunks == if request.closed then old(chunks) else old(chunks) + [chunk]
    {
      if !request.closed {
        chunks := chunks + [chunk];
      }
    }

    /** Closing a closed channel panics. */
    method Done()
      requires request.closed || !chunksClosed
      modifies this
      ensures chunkSequence == old(chunkSequence) && chunks == old(chunks)
      ensures chunksClosed == (old(chunksClosed) || !request.closed)
    {
      if !request.closed {
        chunksClosed := true;
      }
    }

    method NextChunkInfo(config: Config) returns (info: S.ChunkInfo)
      requires S.NextChunkInfo(config, Value()).Some?
      modifies this
      ensures S.NextChunkInfo(config, old(Value())) == Some((Value(), info))
    {
      var total := header.contentSize;
      var received := (chunkSequence * config.chunkSize) % U64;
      if received >= total { assert false; }
      var size := if total - received < config.chunkSize then total - received else config.chunkSize;
      info := S.ChunkInfo(chunkSequence, size, (received + size) % U64 == total);
      chunkSequence := (chunkSequence + 1) % U64;
    }
  }

  class InternalRequest {
    const id: nat
    const path: string
    ghost const created: int
    var pendingResponse: S.Handover
    var response: InternalResponse?
    var lastUpdated: int
    var completed: bool
    var closed: bool

    /** A response belongs to one request, so two requests never share one. */
    ghost predicate Owns()
      reads this
    {
      response != null ==> response.request == this
    }

    ghost function Footprint(): set<object>
      reads this
    {
      if response == null then {this} else {this, response}
    }

    ghost function Value(): S.RequestState
      reads Footprint()
    {
      S.RequestState(id, path, created, lastUpdated, pendingResponse,
                     if response == null then None else Some(response.Value()), completed, closed)
    }

    constructor (id: nat, path: string, now: int)
      ensures this.id == id && response == null
      ensures Value() == S.NewRequest(id, path, now)
    {
      this.id, this.path, this.created := id, path, now;
      pendingResponse, response, lastUpdated, completed, closed := S.Pending, null, now, false, false;
    }

    method ResetTimeout(now: int)
      modifies this
      ensures response == old(response) && Value() == S.ResetTimeout(old(Value()), now)
    {
      if !closed {
        lastUpdated := now;
      }
    }

    method ProvideResponse(provided: InternalResponse?)
      requires S.ProvideResponse(Value(), if provided == null then None else Some(provided.Value())).Some?
      requires provided != null ==> provided.request == this
      modifies this
      ensures response == provided
      ensures Some(Value()) == old(S.ProvideResponse(Value(), if provided == null then None else Some(provided.Value())))
    {
      if response != null { assert false; }
      response := provided;
      if !closed {
        if pendingResponse.HandedOver? { assert false; }
        pendingResponse := S.HandedOver(if provided == null then None else Some(provided.header));
      }
    }

    method Close()
      modifies this
      ensures response == old(response) && Value() == S.CloseChannel(old(Value()))
    {
      if completed {
        return;
      }
      if closed {
        return;
      }
      closed := true;
    }

    method Complete()
      requires !completed && !closed
      modifies this
      ensures response == old(response) && Value() == old(Value()).(completed := true)
    {
      if completed { assert false; }
      if closed { assert false; }
      completed := true;
    }
  }

  class ClientImpl {
    const config: Config
    var requests: map<nat, InternalRequest>
    var nextRequest: nat
    var done: bool
    var running: bool
    /** Requests that were deleted from the map; HTTP handlers may still hold them. */
    ghost var gone: map<nat, InternalRequest>
    /** The state that the fields and objects stand for, with the record of messages. */
    ghost var model: S.Server
    ghost var Repr: set<object>

    /** The object is filed under its own id, belongs to the representation, and stands for v. */
    ghost predicate Filed(id: nat, r: InternalRequest, v: S.RequestState)
      reads this, Repr
    {
      && r in Repr && r.id == id && r.Owns() && (r.response != null ==> r.response in Repr)
      && r.Value() == v
    }

    ghost predicate Valid()
      reads this, Repr
    {
      && this !in Repr
      && model.status == (if !running then S.Ended else if done then S.Stopping else S.Open)
      && model.nextRequest == nextRequest
      && requests.Keys == model.requests.Keys && gone.Keys == model.gone.Keys && requests.Keys !! gone.Keys
      && (forall id :: id in requests ==> Filed(id, requests[id], model.requests[id]))
      && (forall id :: id in gone ==> Filed(id, gone[id], model.gone[id]))
    }

    constructor (config: Config)
      ensures this.config == config && Valid() && fresh(Repr) && model == S.Initial
    {
      this.config := config;
      requests, nextRequest, done, running := map[], 0, false, true;
      gone, model, Repr := map[], S.Initial, {};
    }

    /** Changing one request object and its entry in the model keeps the two in step. */
    twostate lemma Touched(r: InternalRequest)
      requires old(Valid()) && old(Repr) <= Repr && this !in Repr
      requires requests == old(requests) && gone == old(gone) && r.id in requests && requests[r.id] == r
      requires nextRequest == old(nextRequest) && running == old(running)
      requires model.status == (if !running then S.Ended else if done then S.Stopping else S.Open)
      requires model.requests == old(model.requests)[r.id := r.Value()]
      requires model.gone == old(model.gone) && model.nextRequest == old(model.nextRequest)
      requires Filed(r.id, r, r.Value())
      requires forall o :: o in old(Repr) && o != r && o != old(r.response) ==> unchanged(o)
      ensures Valid()
    {
      forall id | id in requests ensures Filed(id, requests[id], model.requests[id]) {
        assert old(Filed(id, requests[id], model.requests[id]));
      }
      forall id | id in gone ensures Filed(id, gone[id], model.gone[id]) {
        assert old(Filed(id, gone[id], model.gone[id]));
      }
    }

    /** Queues a message; `ok` is false when the done channel was found closed instead. */
    method SendMessage(m: ServerMessage, ok: bool)
      requires Valid() && running
      modifies this`done, this`model
      ensures Valid() && done == (old(done) || !ok)
      ensures model == if ok then S.Send(old(model), m) else old(model).(status := S.Stopping)
    {
      if ok {
        model := S.Send(model, m);
      } else {
        done := true;
        model := model.(status := S.Stopping);
      }
    }

    /** Sends a Close message and closes the done channel. */
    method CloseConnection(reason: Reason)
      requires Valid() && running && !done
      modifies this`done, this`model
      ensures Valid() && done && model == S.EndConnection(old(model), reason)
    {
      model := S.EndConnection(model, reason);
      done := true;
    }

    /** Records a message as refused and ends the connection. */
    method Refuse(m: ClientMessage, reason: Reason)
      requires Valid() && running && !done
      modifies this`done, this`model
      ensures Valid() && done && model == S.Refuse(old(model), m, reason)
    {
      model := model.(hist := model.hist + [Refused(m)]);
      CloseConnection(reason);
    }

    method DeleteRequest(request: InternalRequest)
      requires Valid() && running && (request.id in requests ==> requests[request.id] == request)
      modifies this`requests, this`gone, this`model
      ensures Valid() && model == S.Delete(old(model), request.id)
    {
      if request.id in requests {
        assert Filed(request.id, request, model.requests[request.id]);
        model := S.Delete(model, request.id);
        gone := gone[request.id := request];
        requests := requests - {request.id};
        Moved(request);
      }
    }

    /** Moving one request to the deleted ones, here and in the model, keeps the two in step. */
    twostate lemma Moved(request: InternalRequest)
      requires old(Valid()) && Repr == old(Repr) && running == old(running) && done == old(done) && nextRequest == old(nextRequest)
      requires request.id in old(requests) && old(requests[request.id]) == request
      requires requests == old(requests) - {request.id} && gone == old(gone)[request.id := request]
      requires model == S.Delete(old(model), request.id)
      requires forall o :: o in Repr ==> unchanged(o)
      ensures Valid()
    {
      assert old(Filed(request.id, request, model.requests[request.id]));
      forall id | id in requests ensures Filed(id, requests[id], model.requests[id]) {
        assert old(Filed(id, requests[id], model.requests[id]));
      }
      forall id | id in gone ensures Filed(id, gone[id], model.gone[id]) {
        assert id != request.id ==> old(Filed(id, gone[id], model.gone[id]));
      }
    }

    /** Records a message as accepted. */
    ghost method Accept(m: ClientMessage)
      requires Valid() && running && !done
      modifies this`model
      ensures Valid() && model == S.Accept(old(model), m)
    {
      model := S.Accept(model, m);
    }

    method MarkClosed(request: InternalRequest)
      requires Valid() && request.id in requests && requests[request.id] == request
      modifies this`model, request
      ensures Valid() && model == S.Put(old(model), S.CloseChannel(old(model.requests[request.id])))
    {
      request.Close();
      model := S.Put(model, request.Value());
      Touched(request);
    }

    method ResetTimeout(request: InternalRequest, now: int)
      requires Valid() && request.id in requests && requests[request.id] == request
      modifies this`model, request
      ensures Valid() && model == S.Put(old(model), S.ResetTimeout(old(model.requests[request.id]), now))
      ensures request.response == old(request.response)
    {
      request.ResetTimeout(now);
      model := S.Put(model, request.Value());
      Touched(request);
    }

    method ProvideNone(request: InternalRequest)
      requires Valid() && request.id in requests && requests[request.id] == request
      requires S.ProvideResponse(model.requests[request.id], None).Some?
      modifies this`model, request
      ensures Valid() && model == S.Put(old(model), S.ProvideResponse(old(model.requests[request.id]), None).value)
    {
      request.ProvideResponse(null);
      model := S.Put(model, request.Value());
      Touched(request);
    }

    method Provide(request: InternalRequest, response: InternalResponse)
      requires Valid() && request.id in requests && requests[request.id] == request
      requires response.request == request && response !in Repr
      requires S.ProvideResponse(model.requests[request.id], Some(response.Value())).Some?
      modifies this`model, this`Repr, request
      ensures Valid() && Repr == old(Repr) + {response}
      ensures model == S.Put(old(model), old(S.ProvideResponse(model.requests[request.id], Some(response.Value())).value))
    {
      request.ProvideResponse(response);
      Repr := Repr + {response};
      model := S.Put(model, request.Value());
      Touched(request);
    }

    method NextChunkInfo(request: InternalRequest, response: InternalResponse) returns (info: S.ChunkInfo)
      requires Valid() && request.id in requests && requests[request.id] == request && request.response == response
      requires S.NextChunkInfo(config, response.Value()).Some?
      modifies this`model, response
      ensures Valid()
      ensures S.NextChunkInfo(config, old(response.Value())) == Some((response.Value(), info))
      ensures model == S.Put(old(model), old(model.requests[request.id]).(response := Some(response.Value())))
    {
      info := response.NextChunkInfo(config);
      model := S.Put(model, request.Value());
      Touched(request);
    }

    method Write(request: InternalRequest, response: InternalResponse, data: seq<Byte>)
      requires Valid() && request.id in requests && requests[request.id] == request && request.response == response
      requires S.WriteChunk(model.requests[request.id], data).Some?
      modifies this`model, response
      ensures Valid() && model == S.Put(old(model), S.WriteChunk(old(model.requests[request.id]), data).value)
    {
      response.Write(data);
      model := S.Put(model, request.Value());
      Touched(request);
    }

    /** The last steps of completeRequest: the request is marked and the chunk channel closed. */
    method MarkCompleted(request: InternalRequest)
      requires Valid() && request.id in requests && requests[request.id] == request
      requires !request.completed && !request.closed && (request.response != null ==> !request.response.chunksClosed)
      modifies this`model, request, request.response
      ensures Valid() && model == S.CompleteRequest(old(model), old(model.requests[request.id]))
    {
      assert request.Value() == model.requests[request.id];
      request.Complete();
      var response := request.response;
      if response != null {
        response.Done();
      }
      model := S.Put(model, request.Value());
      Touched(request);
    }

    method CompleteRequest(request: InternalRequest)
      requires Valid() && running && !done && request.id in requests && requests[request.id] == request
      requires S.Completable(model.requests[request.id])
      modifies this`model, this`requests, this`gone, request, request.response
      ensures Valid() && model == S.CompleteRequest(old(model), old(model.requests[request.id]))
      ensures request.id in requests ==> requests[request.id] == request
    {
      assert request.Value() == model.requests[request.id];
      if request.completed { assert false; }
      if request.closed {
        DeleteRequest(request);
        return;
      }
      MarkCompleted(request);
    }

    method OnCloseResponse(id: nat)
      requires Valid() && running && !done
      modifies this, Repr
      ensures Valid() && running && Repr == old(Repr) && model == S.OnCloseResponse(old(model), id)
    {
      if id !in requests {
        Refuse(CloseResponse(id), InvalidRequestId);
        return;
      }
      var request := requests[id];
      assert Filed(id, request, model.requests[id]);
      if request.response == null {
        Refuse(CloseResponse(id), InvalidClientMessage);
        return;
      }
      if request.completed {
        Refuse(CloseResponse(id), InvalidClientMessage);
        return;
      }
      FinishClose(request);
    }

    method FinishClose(request: InternalRequest)
      requires Valid() && running && !done && request.id in requests && requests[request.id] == request
      modifies this`model, this`requests, this`gone, request
      ensures Valid()
      ensures model == S.Delete(S.Put(S.Accept(old(model), CloseResponse(request.id)), S.CloseChannel(old(model.requests[request.id]))), request.id)
    {
      Accept(CloseResponse(request.id));
      MarkClosed(request);
      DeleteRequest(request);
    }

    method OnEmptyResponse(id: nat)
      requires Valid() && running && !done && !S.OnEmptyResponse(model, id).status.Panicked?
      modifies this, Repr
      ensures Valid() && running && Repr == old(Repr) && model == S.OnEmptyResponse(old(model), id)
    {
      if id !in requests {
        Refuse(EmptyResponse(id), InvalidRequestId);
        return;
      }
      var request := requests[id];
      assert Filed(id, request, model.requests[id]);
      if request.id != id { assert false; }
      if request.response != null {
        Refuse(EmptyResponse(id), InvalidClientMessage);
        return;
      }
      AnswerEmpty(request);
    }

    method AnswerEmpty(request: InternalRequest)
      requires Valid() && running && !done && request.id in requests && requests[request.id] == request
      requires request.response == null && !S.OnEmptyResponse(model, request.id).status.Panicked?
      modifies this`model, this`requests, this`gone, request
      ensures Valid() && model == S.OnEmptyResponse(old(model), request.id)
    {
      assert Filed(request.id, request, model.requests[request.id]);
      Accept(EmptyResponse(request.id));
      FinishEmpty(request);
    }

    method FinishEmpty(request: InternalRequest)
      requires Valid() && running && !done && request.id in requests && requests[request.id] == request
      requires S.ProvideResponse(model.requests[request.id], None).Some?
      requires S.Completable(S.ProvideResponse(model.requests[request.id], None).value)
      requires request.response == null
      modifies this`model, this`requests, this`gone, request
      ensures Valid()
      ensures var r1 := S.ProvideResponse(old(model.requests[request.id]), None).value;
              model == S.Delete(S.CompleteRequest(S.Put(old(model), r1), r1), request.id)
    {
      CompleteEmpty(request);
      DeleteRequest(request);
    }

    method CompleteEmpty(request: InternalRequest)
      requires Valid() && running && !done && request.id in requests && requests[request.id] == request
      requires S.ProvideResponse(model.requests[request.id], None).Some?
      requires S.Completable(S.ProvideResponse(model.requests[request.id], None).value)
      requires request.response == null
      modifies this`model, this`requests, this`gone, request
      ensures Valid() && (request.id in requests ==> requests[request.id] == request)
      ensures var r1 := S.ProvideResponse(old(model.requests[request.id]), None).value;
              model == S.CompleteRequest(S.Put(old(model), r1), r1)
    {
      ProvideNone(request);
      CompleteRequest(request);
    }

    method OnContentHeader(header: Header, now: int)
      requires Valid() && running && !done && !S.OnContentHeader(config, model, header, now).status.Panicked?
      modifies this, Repr
      ensures Valid() && running && fresh(Repr - old(Repr)) && old(Repr) <= Repr
      ensures model == S.OnContentHeader(config, old(model), header, now)
    {
      if header.requestId !in requests {
        Refuse(ContentHeader(header), InvalidRequestId);
        return;
      }
      var request := requests[header.requestId];
      assert Filed(header.requestId, request, model.requests[header.requestId]);
      if request.id != header.requestId { assert false; }
      if request.response != null {
        Refuse(ContentHeader(header), InvalidClientMessage);
        return;
      }
      if header.contentSize > config.maxContentSize {
        Refuse(ContentHeader(header), InvalidContentSize);
        return;
      }
      if header.contentSize == 0 {
        Refuse(ContentHeader(header), InvalidContentSize);
        return;
      }
      if header.filename.Some? && |header.filename.value| == 0 {
        Refuse(ContentHeader(header), InvalidFilename);
        return;
      }
      if MediaType(header.contentType) !in config.contentTypes {
        Refuse(ContentHeader(header), ForbiddenContentType);
        return;
      }
      Accept(ContentHeader(header));
      OpenResponse(request, header, now);
    }

    method OpenResponse(request: InternalRequest, header: Header, now: int)
      requires Valid() && running && !done && request.id in requests && requests[request.id] == request
      requires S.ProvideResponse(S.ResetTimeout(model.requests[request.id], now), Some(S.ResponseState(header, 0, [], false))).Some?
      modifies this`model, this`Repr, request
      ensures Valid() && fresh(Repr - old(Repr)) && old(Repr) <= Repr
      ensures model == S.Put(old(model), S.ProvideResponse(S.ResetTimeout(old(model.requests[request.id]), now),
                                           Some(S.ResponseState(header, 0, [], false))).value)
    {
      ghost var r1 := S.ResetTimeout(model.requests[request.id], now);
      S.PutTwice(model, r1, S.ProvideResponse(r1, Some(S.ResponseState(header, 0, [], false))).value);
      ResetTimeout(request, now);
      ProvideNew(request, header);
    }

    method ProvideNew(request: InternalRequest, header: Header)
      requires Valid() && request.id in requests && requests[request.id] == request
      requires S.ProvideResponse(model.requests[request.id], Some(S.ResponseState(header, 0, [], false))).Some?
      modifies this`model, this`Repr, request
      ensures Valid() && fresh(Repr - old(Repr)) && old(Repr) <= Repr
      ensures model == S.Put(old(model), S.ProvideResponse(old(model.requests[request.id]), Some(S.ResponseState(header, 0, [], false))).value)
    {
      var response := new InternalResponse(request, header);
      Provide(request, response);
    }

    method OnContentChunk(m: ClientMessage, now: int)
      requires Valid() && running && !done && m.ContentChunk?
      requires !S.OnContentChunk(config, model, m, now).status.Panicked?
      modifies this, Repr
      ensures Valid() && running && Repr == old(Repr) && model == S.OnContentChunk(config, old(model), m, now)
    {
      if m.requestId !in requests {
        Refuse(m, InvalidRequestId);
        return;
      }
      var request := requests[m.requestId];
      assert Filed(m.requestId, request, model.requests[m.requestId]);
      if request.id != m.requestId { assert false; }
      if request.response == null {
        Refuse(m, InvalidClientMessage);
        return;
      }
      if request.completed {
        Refuse(m, InvalidClientMessage);
        return;
      }
      TakeChunk(request, request.response, m, now);
    }

    method TakeChunk(request: InternalRequest, response: InternalResponse, m: ClientMessage, now: int)
      requires Valid() && running && !done && m.ContentChunk? && m.requestId == request.id && request.id in requests
      requires requests[request.id] == request && request.response == response && !request.completed
      requires !S.OnContentChunk(config, model, m, now).status.Panicked?
      modifies this`model, this`done, this`requests, this`gone, request, response
      ensures Valid() && model == S.OnContentChunk(config, old(model), m, now)
    {
      assert Filed(request.id, request, model.requests[request.id]);
      S.ChunkSteps(config, model, m, now);
      var expected := NextChunkInfo(request, response);
      if m.sequence != expected.sequence {
        Refuse(m, ChunkOutOfSequence);
        return;
      }
      if |m.data| != expected.size {
        Refuse(m, InvalidChunkSize);
        return;
      }
      StoreChunk(request, response, m, expected.last, now);
    }

    method StoreChunk(request: InternalRequest, response: InternalResponse, m: ClientMessage, last: bool, now: int)
      requires Valid() && running && !done && m.ContentChunk? && request.id in requests && requests[request.id] == request && request.response == response
      requires S.WriteChunk(S.ResetTimeout(model.requests[request.id], now), m.data).Some?
      requires last ==> S.Completable(S.WriteChunk(S.ResetTimeout(model.requests[request.id], now), m.data).value)
      modifies this`model, this`requests, this`gone, request, response
      ensures Valid()
      ensures var r2 := S.WriteChunk(S.ResetTimeout(old(model.requests[request.id]), now), m.data).value;
              model == if last then S.CompleteRequest(S.Put(S.Accept(old(model), m), r2), r2) else S.Put(S.Accept(old(model), m), r2)
    {
      AppendChunk(request, response, m, now);
      if last {
        CompleteRequest(request);
      }
    }

    method AppendChunk(request: InternalRequest, response: InternalResponse, m: ClientMessage, now: int)
      requires Valid() && running && !done && m.ContentChunk? && request.id in requests && requests[request.id] == request && request.response == response
      requires S.WriteChunk(S.ResetTimeout(model.requests[request.id], now), m.data).Some?
      modifies this`model, request, response
      ensures Valid() && request.response == response
      ensures model == S.Put(S.Accept(old(model), m), S.WriteChunk(S.ResetTimeout(old(model.requests[request.id]), now), m.data).value)
    {
      ghost var r1 := S.ResetTimeout(model.requests[request.id], now);
      ghost var r2 := S.WriteChunk(r1, m.data).value;
      Accept(m);
      S.PutTwice(model, r1, r2);
      ResetTimeout(request, now);
      Write(request, response, m.data);
    }

    method NextRequestID() returns (id: nat)
      requires Valid()
      modifies this`nextRequest, this`model
      ensures Valid() && id == old(nextRequest) + 1
      ensures model == old(model).(nextRequest := id)
    {
      nextRequest := nextRequest + 1;
      model := model.(nextRequest := nextRequest);
      id := nextRequest;
    }

    /** Counts up to an id that is not in the map. */
    method UnusedID() returns (id: nat)
      requires Valid()
      modifies this`nextRequest, this`model
      ensures Valid() && id == S.NextId(requests.Keys, old(nextRequest))
      ensures model == old(model).(nextRequest := id)
    {
      ghost var used := requests.Keys;
      id := NextRequestID();
      while id in requests
        invariant Valid() && model == old(model).(nextRequest := id) && 0 < id && used == requests.Keys
        invariant S.NextId(used, id - 1) == S.NextId(used, old(nextRequest))
        decreases |S.Above(used, id - 1)|
      {
        S.AboveShrinks(used, id - 1);
        id := NextRequestID();
      }
    }

    method File(request: InternalRequest)
      requires Valid() && running && request.id !in requests && request.id !in gone && request !in Repr
      requires request.response == null
      modifies this`requests, this`model, this`Repr
      ensures Valid() && requests == old(requests)[request.id := request] && Repr == old(Repr) + {request}
      ensures model == S.Put(old(model), request.Value())
    {
      requests := requests[request.id := request];
      Repr := Repr + {request};
      model := S.Put(model, request.Value());
      forall id | id in requests && id != request.id ensures Filed(id, requests[id], model.requests[id]) {
        assert old(Filed(id, requests[id], model.requests[id]));
      }
      forall id | id in gone ensures Filed(id, gone[id], model.gone[id]) {
        assert old(Filed(id, gone[id], model.gone[id]));
      }
    }

    method SendRequest(path: string, now: int, ok: bool) returns (request: InternalRequest?, err: S.Err)
      requires Valid() && running && !done && S.NextId(requests.Keys, nextRequest) !in gone
      modifies this
      ensures Valid() && running && fresh(Repr - old(Repr)) && old(Repr) <= Repr
      ensures (model, err) == S.SendRequest(old(model), path, now, ok)
      ensures request != null <==> err == S.NoError
      ensures request != null ==> request.id in requests && requests[request.id] == request
    {
      var id := UnusedID();
      var filed := new InternalRequest(id, path, now);
      File(filed);
      SendMessage(RequestMsg(id, path), ok);
      if ok {
        return filed, S.NoError;
      } else {
        return null, S.ErrClientClosed;
      }
    }

    method SendSuccess(id: nat, ok: bool) returns (err: S.Err)
      requires Valid() && running && !done
      modifies this`done, this`model, this`requests, this`gone
      ensures Valid() && (model, err) == S.SendSuccess(old(model), id, ok)
    {
      if id !in requests {
        return S.ErrRequestDeleted;
      }
      var request := requests[id];
      assert Filed(id, request, model.requests[id]);
      if request.closed {
        return S.ErrRequestClosed;
      }
      if !request.completed {
        return S.ErrRequestNotCompleted;
      }
      SendMessage(Success(request.id), ok);
      if !ok {
        return S.ErrClientClosed;
      }
      DeleteRequest(request);
      return S.NoError;
    }

    method CloseRequest(id: nat, message: string, now: int, ok: bool) returns (err: S.Err)
      requires Valid() && running
      modifies this`done, this`model, Repr
      ensures Valid() && (model, err) == S.CloseRequest(old(model), id, message, now, ok)
    {
      if id !in requests {
        return S.ErrRequestDeleted;
      }
      var request := requests[id];
      assert Filed(id, request, model.requests[id]);
      if request.closed {
        return S.NoError;
      }
      if request.completed {
        return S.ErrRequestCompleted;
      }
      SendMessage(RequestClosed(request.id, message), ok);
      if !ok {
        return S.ErrClientClosed;
      }
      ghost var r1 := S.ResetTimeout(model.requests[id], now);
      S.PutTwice(model, r1, S.CloseChannel(r1));
      ResetTimeout(request, now);
      MarkClosed(request);
      return S.NoError;
    }

    /** The timeout check. `order` is the order in which the map yields its entries; an entry that was
        deleted on the way is not yielded. */
    method CheckTimeouts(now: int, order: seq<nat>, lost: set<nat>)
      requires Valid() && running && !done
      modifies this`done, this`model, this`requests, this`gone, Repr
      ensures Valid() && model == S.Sweep(config, old(model), now, order, lost)
    {
      for i := 0 to |order|
        invariant Valid()
        invariant S.Sweep(config, model, now, order[i..], lost) == S.Sweep(config, old(model), now, order, lost)
      {
        var id := order[i];
        assert order[i..][1..] == order[i + 1..];
        if id in requests {
          var request := requests[id];
          assert Filed(id, request, model.requests[id]);
          if now - request.lastUpdated < config.clientTimeout {
            continue;
          }
          if request.closed {
            if !done {
              CloseConnection(TimedOut);
            }
            return;
          }
          if request.completed {
            DeleteRequest(request);
            continue;
          }
          var _ := CloseRequest(id, S.TIMEOUT_MESSAGE, now, id !in lost);
        }
      }
    }

    method CloseAll()
      requires Valid()
      modifies this`model, Repr
      ensures Valid()
      ensures model == old(model).(requests := S.ClosedExcept(old(model).requests, {}))
    {
      ghost var was := model;
      var rest := requests.Keys;
      assert S.ClosedExcept(was.requests, rest) == was.requests;
      while rest != {}
        invariant Valid() && rest <= requests.Keys
        invariant model == was.(requests := model.requests)
        invariant model.requests == S.ClosedExcept(was.requests, rest)
      {
        var id :| id in rest;
        assert requests[id].id == id by { assert Filed(id, requests[id], model.requests[id]); }
        MarkClosed(requests[id]);
        S.ClosedOneMore(was.requests, rest, id);
        rest := rest - {id};
      }
    }

    method DropAll()
      requires Valid() && running && done
      modifies this`running, this`model, this`requests, this`gone
      ensures Valid() && !running
      ensures model == old(model).(status := S.Ended, requests := map[], gone := old(model).gone + old(model).requests)
    {
      gone := gone + requests;
      requests := map[];
      running := false;
      model := model.(status := S.Ended, requests := map[], gone := model.gone + model.requests);
      forall id | id in gone ensures Filed(id, gone[id], model.gone[id]) {
        if id in old(requests) {
          assert old(Filed(id, requests[id], model.requests[id]));
        } else {
          assert old(Filed(id, gone[id], model.gone[id]));
        }
      }
    }

    /** Leaving the loop: every request is closed and the map dropped. */
    method CleanUp()
      requires Valid() && running && done
      modifies this`running, this`model, this`requests, this`gone, Repr
      ensures Valid() && !running && model == S.CleanUp(old(model))
    {
      CloseAll();
      DropAll();
    }

    /** One turn of the loop: one input is handled, and the loop is left once the connection is done. */
    method Turn(now: int, input: S.Input)
      requires config.Valid() && Valid() && running && !done && Inv(config, model)
      modifies this, Repr
      ensures Valid() && Inv(config, model) && fresh(Repr - old(Repr))
      ensures model == S.Step(config, old(model), now, input)
      ensures running <==> !done
    {
      StepKeeps(config, model, now, input);
      Handle(now, input);
      if done {
        CleanUp();
      }
    }

    method SetDone()
      requires Valid() && running && !done
      modifies this`done, this`model
      ensures Valid() && model == old(model).(status := S.Stopping)
    {
      done := true;
      model := model.(status := S.Stopping);
    }

    /** A call of an HTTP handler: a new request, a success, or a close. */
    method OnCall(now: int, input: S.Input)
      requires Valid() && running && !done
      requires input.Forward? || input.TriggerSuccess? || input.TriggerClose?
      requires input.Forward? ==> S.NextId(requests.Keys, nextRequest) !in gone
      modifies this, Repr
      ensures Valid() && running && fresh(Repr - old(Repr))
      ensures model == S.Handle(config, old(model), now, input).0
    {
      match input
      case Forward(path, ok) => var _, _ := SendRequest(path, now, ok);
      case TriggerSuccess(id, ok) => var _ := SendSuccess(id, ok);
      case TriggerClose(id, message, ok) => var _ := CloseRequest(id, message, now, ok);
    }

    method OnMessage(m: ClientMessage, now: int)
      requires Valid() && running && !done && !S.OnMessage(config, model, m, now).status.Panicked?
      modifies this, Repr
      ensures Valid() && running && fresh(Repr - old(Repr))
      ensures model == S.OnMessage(config, old(model), m, now)
    {
      match m
      case EmptyResponse(id) => OnEmptyResponse(id);
      case ContentHeader(header) => OnContentHeader(header, now);
      case ContentChunk(_, _, _) => OnContentChunk(m, now);
      case CloseResponse(id) => OnCloseResponse(id);
    }

    method Handle(now: int, input: S.Input)
      requires Valid() && running && !done
      requires !S.Handle(config, model, now, input).0.status.Panicked?
      requires input.Forward? ==> S.NextId(requests.Keys, nextRequest) !in gone
      modifies this, Repr
      ensures Valid() && running && fresh(Repr - old(Repr))
      ensures model == S.Handle(config, old(model), now, input).0
    {
      match input
      case Receive(m) => OnMessage(m, now);
      case Tick(order, lost) => CheckTimeouts(now, order, lost);
      case Done => SetDone();
      case _ => OnCall(now, input);
    }
  }

  /** The whole loop, from a new connection: it goes through exactly the states of the run of its
      inputs, and every one of them satisfies the invariant. */
  method Protocol(config: Config, inputs: seq<S.Timed>) returns (client: ClientImpl)
    requires config.Valid()
    ensures client.config == config && client.Valid() && client.model == S.Run(config, inputs) && Inv(config, client.model)
  {
    client := new ClientImpl(config);
    var i := 0;
    while i < |inputs|
      invariant 0 <= i <= |inputs| && client.config == config && client.Valid() && fresh(client) && fresh(client.Repr)
      invariant client.model == S.Run(config, inputs[..i]) && Inv(config, client.model)
    {
      S.RunOneMore(config, inputs, i);
      if client.running {
        client.Turn(inputs[i].now, inputs[i].input);
      }
      i := i + 1;
    }
    assert inputs[..i] == inputs;
  }
}
