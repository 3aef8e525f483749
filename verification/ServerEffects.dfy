/** What every turn of the protocol loop does, stated on the record: which message it sends, which error
    it answers with, which reason it gives for a refusal, and what it does to the clock of a request. */
module ServerEffects {
  import opened Wire
  import opened Chunking
  import opened History
  import opened Server
  import opened ServerInvariant
  import opened ServerRuns
  import ServerTheorems

  /** A request in the map, as far as its record tells. */
  lemma WhileInMap(cfg: Config, s: Server, id: nat)
    requires cfg.Valid() && CoreInv(cfg, s) && id in s.requests
    ensures var r, ins, outs := s.requests[id], InOf(s.hist, id), OutOf(s.hist, id);
            && r.id == id && 1 <= |outs| <= 2 && outs[0] == RequestMsg(id, r.path)
            && (r.closed <==> |outs| == 2) && (r.completed <==> Full(cfg, ins)) && (Final(cfg, ins) <==> Full(cfg, ins))
            && (r.response.None? <==> ins == []) && !(r.closed && r.completed)
  {
    LivePosition(cfg, id, s.requests[id], InOf(s.hist, id), OutOf(s.hist, id));
  }

  // ---- the three calls ----

  /** A Success is due: the request is still there, nothing was said about it but the request itself,
      and its response has arrived in full. */
  predicate Due(cfg: Config, s: Server, id: nat)
    requires cfg.Valid()
  {
    id in s.requests && |OutOf(s.hist, id)| == 1 && Full(cfg, InOf(s.hist, id))
  }

  /** In every run: a success goes out exactly when it is due, and the request is then forgotten;
      otherwise nothing happens, and the error tells why. */
  lemma SuccessExactly(cfg: Config, inputs: seq<Timed>, now: int, id: nat, ok: bool)
    requires cfg.Valid() && Run(cfg, inputs).status.Open?
    ensures var s := Run(cfg, inputs);
            var t, err := Step(cfg, s, now, TriggerSuccess(id, ok)), Handle(cfg, s, now, TriggerSuccess(id, ok)).1;
            && (Due(cfg, s, id) && ok ==>
                  && t.hist == s.hist + [Out(Success(id))] && t.status.Open? && err == NoError
                  && t.requests == s.requests - {id} && t.nextRequest == s.nextRequest)
            && (Due(cfg, s, id) && !ok ==> t.hist == s.hist && t.status.Ended? && err == ErrClientClosed)
            && (!Due(cfg, s, id) ==>
                  && t == s
                  && err == if id !in s.requests then ErrRequestDeleted
                            else if |OutOf(s.hist, id)| == 2 then ErrRequestClosed else ErrRequestNotCompleted)
  {
    RunKeeps(cfg, inputs);
    var s := Run(cfg, inputs);
    if id in s.requests { WhileInMap(cfg, s, id); }
  }

  /** The new request waits in the map, and exactly one Request went out for it; or nothing went out, and
      the connection is over. */
  predicate ForwardedAs(s: Server, t: Server, err: Err, id: nat, path: string, now: int, ok: bool) {
    && LastRequest(s.hist) < id && OutOf(s.hist, id) == [] && id !in s.requests
    && if ok then
         && t.hist == s.hist + [Out(RequestMsg(id, path))] && t.status.Open? && err == NoError
         && t.requests == s.requests[id := RequestState(id, path, now, now, Pending, None, false, false)]
       else t.hist == s.hist && t.status.Ended? && err == ErrClientClosed
  }

  /** In every run: forwarding sends exactly one Request with the given path, under a fresh id, and puts a
      request that waits for its response into the map. */
  lemma ForwardExactly(cfg: Config, inputs: seq<Timed>, now: int, path: string, ok: bool) returns (id: nat)
    requires cfg.Valid() && Run(cfg, inputs).status.Open?
    ensures var s, input := Run(cfg, inputs), Forward(path, ok);
            ForwardedAs(s, Step(cfg, s, now, input), Handle(cfg, s, now, input).1, id, path, now, ok)
  {
    RunKeeps(cfg, inputs);
    id := Run(cfg, inputs).nextRequest + 1;
    StepForwards(cfg, Run(cfg, inputs), now, path, ok);
  }

  lemma StepForwards(cfg: Config, s: Server, now: int, path: string, ok: bool)
    requires cfg.Valid() && s.status.Open? && CoreInv(cfg, s)
    ensures ForwardedAs(s, Step(cfg, s, now, Forward(path, ok)), Handle(cfg, s, now, Forward(path, ok)).1, s.nextRequest + 1, path, now, ok)
  {
    ForwardsNext(cfg, s, now, path, ok);
  }

  lemma ForwardsNext(cfg: Config, s: Server, now: int, path: string, ok: bool)
    requires cfg.Valid() && s.status.Open? && CoreInv(cfg, s)
    ensures var id, (t, err) := s.nextRequest + 1, Handle(cfg, s, now, Forward(path, ok));
            && LastRequest(s.hist) < id && OutOf(s.hist, id) == [] && id !in s.requests
            && t.requests == s.requests[id := NewRequest(id, path, now)]
            && t.hist == (if ok then s.hist + [Out(RequestMsg(id, path))] else s.hist)
            && t.status == (if ok then Open else Stopping) && err == (if ok then NoError else ErrClientClosed)
  {
    NextIdIsNext(cfg, s);
  }

  /** A request can be closed: its response has not arrived in full, and it was not closed before. */
  predicate Closable(cfg: Config, s: Server, id: nat)
    requires cfg.Valid()
  {
    id in s.requests && |OutOf(s.hist, id)| == 1 && !Full(cfg, InOf(s.hist, id))
  }

  /** In every run: closing a request sends exactly one RequestClosed with the given message if the
      request can be closed; otherwise nothing happens, and the error tells why. */
  lemma CloseExactly(cfg: Config, inputs: seq<Timed>, now: int, id: nat, message: string, ok: bool)
    requires cfg.Valid() && Run(cfg, inputs).status.Open?
    ensures var s, input := Run(cfg, inputs), TriggerClose(id, message, ok);
            var t, err := Step(cfg, s, now, input), Handle(cfg, s, now, input).1;
            && (Closable(cfg, s, id) && ok ==>
                  && t.hist == s.hist + [Out(RequestClosed(id, message))] && t.status.Open? && err == NoError
                  && t.requests == s.requests[id := s.requests[id].(closed := true, lastUpdated := now)])
            && (Closable(cfg, s, id) && !ok ==> t.hist == s.hist && t.status.Ended? && err == ErrClientClosed)
            && (!Closable(cfg, s, id) ==>
                  && t == s
                  && err == if id !in s.requests then ErrRequestDeleted
                            else if |OutOf(s.hist, id)| == 2 then NoError else ErrRequestCompleted)
  {
    RunKeeps(cfg, inputs);
    var s := Run(cfg, inputs);
    if id in s.requests { WhileInMap(cfg, s, id); }
  }

  // ---- refusals ----

  function HeaderReason(cfg: Config, header: Header): Reason {
    if header.contentSize == 0 || header.contentSize > cfg.maxContentSize then InvalidContentSize
    else if header.filename == Some([]) then InvalidFilename
    else ForbiddenContentType
  }

  /** The reason for refusing a message about a request of the map, of which ins was accepted. */
  function RefusalReason(cfg: Config, ins: seq<ClientMessage>, m: ClientMessage): Reason
    requires cfg.Valid()
  {
    match m
    case EmptyResponse(_) => InvalidClientMessage
    case CloseResponse(_) => InvalidClientMessage
    case ContentHeader(header) => if ins != [] then InvalidClientMessage else HeaderReason(cfg, header)
    case ContentChunk(_, sequence, _) =>
      if ins == [] || Full(cfg, ins) then InvalidClientMessage
      else if sequence != |ins| - 1 then ChunkOutOfSequence
      else InvalidChunkSize
  }

  /** In every run: a message that the protocol does not allow is recorded as refused and answered with
      the reason that fits, and the connection is over. */
  lemma RefusedWithReason(cfg: Config, inputs: seq<Timed>, now: int, m: ClientMessage)
    requires cfg.Valid() && Run(cfg, inputs).status.Open?
    requires var s := Run(cfg, inputs); !(OutOf(s.hist, m.Id()) != [] && MayFollow(cfg, InOf(s.hist, m.Id()), m))
    ensures var s := Run(cfg, inputs);
            var t := Step(cfg, s, now, Receive(m));
            && t.status.Ended?
            && t.hist == s.hist + [Refused(m)] + [Out(Close(
                 if m.Id() !in s.requests then InvalidRequestId else RefusalReason(cfg, InOf(s.hist, m.Id()), m)))]
  {
    RunKeeps(cfg, inputs);
    ServerTheorems.AcceptedExactlyWhenAllowed(cfg, inputs, now, m);
    StepKeeps(cfg, Run(cfg, inputs), now, Receive(m));
    RefusesWell(cfg, Run(cfg, inputs), now, m);
  }

  lemma RefusesWell(cfg: Config, s: Server, now: int, m: ClientMessage)
    requires cfg.Valid() && s.status.Open? && CoreInv(cfg, s)
    requires !OnMessage(cfg, s, m, now).status.Open? && !OnMessage(cfg, s, m, now).status.Panicked?
    ensures var t := OnMessage(cfg, s, m, now);
            && t.status.Stopping?
            && t.hist == s.hist + [Refused(m)] + [Out(Close(
                 if m.Id() !in s.requests then InvalidRequestId else RefusalReason(cfg, InOf(s.hist, m.Id()), m)))]
  {
    if m.Id() in s.requests {
      WhileInMap(cfg, s, m.Id());
      match m {
        case ContentHeader(header) => HeaderRefusedWell(cfg, s, header, now, InOf(s.hist, m.Id()));
        case ContentChunk(_, _, _) => ChunkRefusedWell(cfg, s, now, m, InOf(s.hist, m.Id()), OutOf(s.hist, m.Id()));
        case _ => ShortRefusedWell(cfg, s, now, m);
      }
    } else {
      UnknownRefusedWell(cfg, s, now, m);
    }
  }

  lemma UnknownRefusedWell(cfg: Config, s: Server, now: int, m: ClientMessage)
    requires m.Id() !in s.requests
    ensures var t := OnMessage(cfg, s, m, now); t.status.Stopping? && t.hist == s.hist + [Refused(m)] + [Out(Close(InvalidRequestId))]
  {}

  lemma ShortRefusedWell(cfg: Config, s: Server, now: int, m: ClientMessage)
    requires m.Id() in s.requests && (m.EmptyResponse? || m.CloseResponse?) && s.status.Open?
    requires !OnMessage(cfg, s, m, now).status.Open? && !OnMessage(cfg, s, m, now).status.Panicked?
    ensures var t := OnMessage(cfg, s, m, now); t.status.Stopping? && t.hist == s.hist + [Refused(m)] + [Out(Close(InvalidClientMessage))]
  {}

  lemma HeaderRefusedWell(cfg: Config, s: Server, header: Header, now: int, ins: seq<ClientMessage>)
    requires cfg.Valid() && header.requestId in s.requests && s.requests[header.requestId].id == header.requestId
    requires s.status.Open? && (s.requests[header.requestId].response.None? <==> ins == [])
    requires var t := OnContentHeader(cfg, s, header, now); !t.status.Open? && !t.status.Panicked?
    ensures var m, t := ContentHeader(header), OnContentHeader(cfg, s, header, now);
            t.status.Stopping? && t.hist == s.hist + [Refused(m)] + [Out(Close(RefusalReason(cfg, ins, m)))]
  {}

  lemma ChunkRefusedWell(cfg: Config, s: Server, now: int, m: ClientMessage, ins: seq<ClientMessage>, outs: seq<ServerMessage>)
    requires cfg.Valid() && s.status.Open? && m.ContentChunk? && m.requestId in s.requests
    requires Live(cfg, m.requestId, s.requests[m.requestId], ins, outs)
    requires !OnContentChunk(cfg, s, m, now).status.Open? && !OnContentChunk(cfg, s, m, now).status.Panicked?
    ensures var t := OnContentChunk(cfg, s, m, now);
            t.status.Stopping? && t.hist == s.hist + [Refused(m)] + [Out(Close(RefusalReason(cfg, ins, m)))]
  {
    var r := s.requests[m.requestId];
    LivePosition(cfg, m.requestId, r, ins, outs);
    if r.response.Some? && !r.completed {
      NextChunkInfoMeaning(cfg, r.response.value);
      ChunkStatus(cfg, s, now, m);
    }
  }

  lemma ChunkStatus(cfg: Config, s: Server, now: int, m: ClientMessage)
    requires s.status.Open? && m.ContentChunk? && m.requestId in s.requests && s.requests[m.requestId].id == m.requestId
    requires var r := s.requests[m.requestId]; r.response.Some? && !r.completed && NextChunkInfo(cfg, r.response.value).Some?
    requires !OnContentChunk(cfg, s, m, now).status.Open? && !OnContentChunk(cfg, s, m, now).status.Panicked?
    ensures var expected, t := NextChunkInfo(cfg, s.requests[m.requestId].response.value).value.1, OnContentChunk(cfg, s, m, now);
            && (m.sequence != expected.sequence || |m.data| != expected.size)
            && t.status.Stopping?
            && t.hist == s.hist + [Refused(m)] + [Out(Close(if m.sequence != expected.sequence then ChunkOutOfSequence else InvalidChunkSize))]
  {}
}
