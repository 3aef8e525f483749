/** What registering and unregistering content change, and how the client answers a request for a path
    under which nothing is registered, in every run of the connection. */
module ConnectionCalls {
  import opened Wire
  import opened History
  import S = Server
  import ServerInvariant
  import H = Handler
  import T = HandlerTheorems
  import C = Client
  import ClientHandlers
  import ClientInvariant
  import ClientRuns
  import opened Connection
  import opened ConnectionTheorems
  import opened ServerDelivery

  // ---- registering content ----

  /** Content that the source's two checks let pass. */
  predicate Fits(cfg: Config, content: H.Content) {
    && content.data != [] && |content.data| <= cfg.maxContentSize
    && MediaType(content.contentType) in cfg.contentTypes
    && content.filename != Some([])
  }

  /** In every run: registering content adds exactly one path, with a new handler for exactly this content
      and an empty queue, if the path is free and the content fits; otherwise it changes nothing. */
  lemma RegistersExactly(cfg: Config, moves: seq<Move>, path: string, content: H.Content)
    requires cfg.Valid() && Possible(Run(cfg, moves), ClientSide(C.RegisterContent(path, content)))
    ensures var j, t := Run(cfg, moves), Run(cfg, moves + [ClientSide(C.RegisterContent(path, content))]);
            var c, d := j.client, t.client;
            if path !in c.content && Fits(cfg, content) then
              && d.content.Keys == c.content.Keys + {path}
              && (forall p :: p in c.content ==> d.content[p] == c.content[p])
              && d.content[path] == |c.handlers| && |d.handlers| == |c.handlers| + 1 && d.handlers[..|c.handlers|] == c.handlers
              && var h := d.handlers[|c.handlers|];
              && h.content == content && h.chunkSize == cfg.chunkSize && h.pending == [] && h.handling == None
              && !h.stop && !h.done && h.pc == H.Waiting
              && t == j.(client := c.(handlers := d.handlers, content := d.content))
            else t == j
  {
    OneMore(cfg, moves, ClientSide(C.RegisterContent(path, content)));
    var c := Run(cfg, moves).client;
    assert Since(c.sent, c.sent) == [];
  }

  /** In every run: when the handler of the content being unregistered is done, the call can return, and
      exactly that path is gone. */
  lemma FinishesExactly(cfg: Config, moves: seq<Move>)
    requires cfg.Valid() && Run(cfg, moves).client.unregistering.Some?
    ensures var j, t := Run(cfg, moves), Run(cfg, moves + [ClientSide(C.FinishUnregister)]);
            var c, path := j.client, j.client.unregistering.value;
            && path in c.content && c.content[path] < |c.handlers|
            && if c.handlers[c.content[path]].done
               then t == j.(client := c.(content := c.content - {path}, unregistering := None))
               else t == j
  {
    RunKeeps(cfg, moves);
    var j, move := Run(cfg, moves), ClientSide(C.FinishUnregister);
    assert (moves + [move])[..|moves|] == moves;
    assert Since(j.client.sent, j.client.sent) == [];
    if Possible(j, move) { OneMore(cfg, moves, move); }
  }

  // ---- requests for nothing ----

  /** The next message for the client is a request for a path under which nothing is registered. */
  predicate NextIsAbsent(j: Connection, id: nat) {
    j.toClient != [] && j.toClient[0].RequestMsg? && j.toClient[0].id == id && j.toClient[0].path !in j.client.content
  }

  lemma TakenAbsent(cfg: Config, c: C.Client, m: ServerMessage, ok: bool)
    requires ClientInvariant.Inv(cfg, c) && C.Linked(c) && ClientRuns.Arrived(c, m) && m.RequestMsg? && m.path !in c.content
    ensures var t := C.Receive(c, m, false, ok); t.ws == C.Replying(m.id) && m.id in t.absent && t.sent == c.sent
  {
    ClientRuns.FreshRequest(cfg, c, m);
  }

  lemma RunTakenAbsent(cfg: Config, moves: seq<Move>, ok: bool, id: nat)
    requires cfg.Valid() && Possible(Run(cfg, moves), ClientTakes(false, ok)) && NextIsAbsent(Run(cfg, moves), id)
    ensures Run(cfg, moves + [ClientTakes(false, ok)]).client.ws == C.Replying(id)
  {
    RunKeeps(cfg, moves);
    OneMore(cfg, moves, ClientTakes(false, ok));
    TakenAbsent(cfg, Run(cfg, moves).client, Run(cfg, moves).toClient[0], ok);
  }

  /** No empty response is sent in these moves. */
  predicate NoReply(moves: seq<Move>) {
    forall k :: 0 <= k < |moves| ==> !(moves[k].ClientSide? && moves[k].action.SendEmpty?)
  }

  lemma StepStaysReplying(cfg: Config, c: C.Client, input: C.Input)
    requires C.Linked(c) && C.AllReady(c) && C.Possible(c, input) && c.ws.Replying? && !input.SendEmpty?
    ensures C.Step(cfg, c, input).ws == c.ws
  {}

  lemma MoveStaysReplying(cfg: Config, moves: seq<Move>, move: Move)
    requires cfg.Valid() && Run(cfg, moves).client.ws.Replying? && !(move.ClientSide? && move.action.SendEmpty?)
    ensures Run(cfg, moves + [move]).client.ws == Run(cfg, moves).client.ws
  {
    var j := Run(cfg, moves);
    assert (moves + [move])[..|moves|] == moves;
    if Able(j, move) && move.ClientSide? { StepStaysReplying(cfg, j.client, move.action); }
  }

  lemma {:induction false} StaysReplying(cfg: Config, before: seq<Move>, more: seq<Move>)
    requires cfg.Valid() && Run(cfg, before).client.ws.Replying? && NoReply(more)
    ensures Run(cfg, before + more).client.ws == Run(cfg, before).client.ws
  {
    if more == [] {
      assert before + more == before;
    } else {
      var init, move := more[..|more| - 1], more[|more| - 1];
      assert before + more == before + init + [move];
      StaysReplying(cfg, before, init);
      MoveStaysReplying(cfg, before + init, move);
    }
  }

  lemma ReplySent(cfg: Config, moves: seq<Move>, id: nat)
    requires cfg.Valid() && Run(cfg, moves).client.ws == C.Replying(id)
    ensures var t := Run(cfg, moves + [ClientSide(C.SendEmpty(true))]).client;
            t.ws == C.Idle && T.Of(t.sent, id) == [EmptyResponse(id)] && id in t.absent && id !in t.owner
  {
    RunKeeps(cfg, moves);
    OneMore(cfg, moves, ClientSide(C.SendEmpty(true)));
    var c := Run(cfg, moves).client;
    assert ClientInvariant.AnswerOk(c, id);
    ClientHandlers.OneMoreSent(c.sent, EmptyResponse(id), id);
  }

  lemma StepAbsentStays(cfg: Config, c: C.Client, input: C.Input, id: nat)
    requires C.Linked(c) && C.AllReady(c) && C.Possible(c, input) && id in c.absent
    ensures id in C.Step(cfg, c, input).absent && c.sent <= C.Step(cfg, c, input).sent
  {
    match input {
      case ServeThread(i, ok) => ServeOnlyAdds(c, i, ok);
      case Take(m, limited, ok) => TakeOnlyAdds(c, m, limited, ok);
      case _ =>
    }
  }

  lemma ServeOnlyAdds(c: C.Client, i: nat, ok: bool)
    requires i < |c.handlers| && H.CanServe(c.handlers[i]) && H.Ready(c.handlers[i])
    ensures C.ServeTurn(c, i, ok).absent == c.absent && c.sent <= C.ServeTurn(c, i, ok).sent
  {}

  lemma TakeOnlyAdds(c: C.Client, m: ServerMessage, limited: bool, ok: bool)
    requires C.Linked(c) && !m.Close?
    ensures var t := C.Receive(c, m, limited, ok); c.absent <= t.absent && c.sent <= t.sent
  {}

  lemma EffectAbsentStays(cfg: Config, j: Connection, move: Move, id: nat)
    requires Able(j, move) && id in j.client.absent
    ensures id in Effect(cfg, j, move).client.absent && j.client.sent <= Effect(cfg, j, move).client.sent
  {
    match move {
      case ClientSide(action) => StepAbsentStays(cfg, j.client, action, id);
      case ClientTakes(limited, ok) => StepAbsentStays(cfg, j.client, C.Take(j.toClient[0], limited, ok), id);
      case _ =>
    }
  }

  lemma MoveAbsentStays(cfg: Config, moves: seq<Move>, move: Move, id: nat)
    requires cfg.Valid() && id in Run(cfg, moves).client.absent
    ensures id in Run(cfg, moves + [move]).client.absent && Run(cfg, moves).client.sent <= Run(cfg, moves + [move]).client.sent
  {
    assert (moves + [move])[..|moves|] == moves;
    if Able(Run(cfg, moves), move) { EffectAbsentStays(cfg, Run(cfg, moves), move, id); }
  }

  /** Nothing more can be sent about a request that was answered as absent. */
  lemma AnsweredForGood(cfg: Config, d: C.Client, sent: seq<ClientMessage>, id: nat)
    requires ClientInvariant.Inv(cfg, d) && id in d.absent && sent <= d.sent && T.Of(sent, id) == [EmptyResponse(id)]
    ensures T.Of(d.sent, id) == [EmptyResponse(id)]
  {
    assert d.sent == sent + d.sent[|sent|..];
    T.OfConcat(sent, d.sent[|sent|..], id);
    assert ClientInvariant.AnswerOk(d, id);
  }

  lemma MoveAnswered(cfg: Config, moves: seq<Move>, move: Move, id: nat)
    requires cfg.Valid() && id in Run(cfg, moves).client.absent && T.Of(Run(cfg, moves).client.sent, id) == [EmptyResponse(id)]
    ensures id in Run(cfg, moves + [move]).client.absent && T.Of(Run(cfg, moves + [move]).client.sent, id) == [EmptyResponse(id)]
  {
    RunKeeps(cfg, moves + [move]);
    MoveAbsentStays(cfg, moves, move, id);
    AnsweredForGood(cfg, Run(cfg, moves + [move]).client, Run(cfg, moves).client.sent, id);
  }

  lemma {:induction false} StaysAnswered(cfg: Config, before: seq<Move>, more: seq<Move>, id: nat)
    requires cfg.Valid() && id in Run(cfg, before).client.absent && T.Of(Run(cfg, before).client.sent, id) == [EmptyResponse(id)]
    ensures id in Run(cfg, before + more).client.absent && T.Of(Run(cfg, before + more).client.sent, id) == [EmptyResponse(id)]
  {
    if more == [] {
      assert before + more == before;
    } else {
      var init, move := more[..|more| - 1], more[|more| - 1];
      assert before + more == before + init + [move];
      StaysAnswered(cfg, before, init, id);
      MoveAnswered(cfg, before + init, move, id);
    }
  }

  /** In every run: when the client takes a request for a path under which nothing is registered, it owes
      an empty response, which it can send at any later moment; once it has, that is all that is ever sent
      about the request, and an open server that has taken it has completed the request, with nothing
      handed over unless it had closed it before. */
  lemma AbsentIsAnswered(cfg: Config, before: seq<Move>, ok: bool, meanwhile: seq<Move>, more: seq<Move>, id: nat)
    requires cfg.Valid() && Possible(Run(cfg, before), ClientTakes(false, ok)) && NextIsAbsent(Run(cfg, before), id)
    requires NoReply(meanwhile)
    ensures var owing := Run(cfg, before + [ClientTakes(false, ok)] + meanwhile);
            Possible(owing, ClientSide(C.SendEmpty(true))) && T.Of(owing.client.sent, id) == []
    ensures var j := Run(cfg, before + [ClientTakes(false, ok)] + meanwhile + [ClientSide(C.SendEmpty(true))] + more);
            && T.Of(j.client.sent, id) == [EmptyResponse(id)]
            && (j.server.status.Open? && T.Of(j.toServer, id) == [] ==>
                  && id !in j.server.requests && id in j.server.gone
                  && (|OutOf(j.server.hist, id)| == 1 ==> j.server.gone[id].completed && j.server.gone[id].handover == S.HandedOver(None))
                  && j.server.gone[id].response == None)
  {
    var taken := before + [ClientTakes(false, ok)];
    RunTakenAbsent(cfg, before, ok, id);
    StaysReplying(cfg, taken, meanwhile);
    OwesReply(cfg, taken + meanwhile, id);
    ReplySent(cfg, taken + meanwhile, id);
    var replied := taken + meanwhile + [ClientSide(C.SendEmpty(true))];
    StaysAnswered(cfg, replied, more, id);
    TookEmpty(cfg, replied + more, id);
  }

  lemma OwesReply(cfg: Config, moves: seq<Move>, id: nat)
    requires cfg.Valid() && Run(cfg, moves).client.ws == C.Replying(id)
    ensures T.Of(Run(cfg, moves).client.sent, id) == []
  {
    RunKeeps(cfg, moves);
    assert ClientInvariant.AnswerOk(Run(cfg, moves).client, id);
  }

  lemma TookEmpty(cfg: Config, moves: seq<Move>, id: nat)
    requires cfg.Valid() && T.Of(Run(cfg, moves).client.sent, id) == [EmptyResponse(id)] && id in Run(cfg, moves).client.absent
    ensures var j := Run(cfg, moves);
            j.server.status.Open? && T.Of(j.toServer, id) == [] ==>
              && id !in j.server.requests && id in j.server.gone
              && (|OutOf(j.server.hist, id)| == 1 ==> j.server.gone[id].completed && j.server.gone[id].handover == S.HandedOver(None))
              && j.server.gone[id].response == None
  {
    var j := Run(cfg, moves);
    RunKeeps(cfg, moves);
    AcceptedIsPrefix(cfg, j, id);
    if j.server.status.Open? && T.Of(j.toServer, id) == [] { EmptyIsFiled(cfg, j.server, id); }
  }

  lemma EmptyIsFiled(cfg: Config, s: S.Server, id: nat)
    requires cfg.Valid() && ServerInvariant.CoreInv(cfg, s) && InOf(s.hist, id) == [EmptyResponse(id)]
    ensures id !in s.requests && id in s.gone
    ensures |OutOf(s.hist, id)| == 1 ==> s.gone[id].completed && s.gone[id].handover == S.HandedOver(None)
    ensures s.gone[id].response == None
  {
    assert !ServerInvariant.Fresh(s, id);
    assert id in s.requests ==> ServerInvariant.Live(cfg, id, s.requests[id], InOf(s.hist, id), OutOf(s.hist, id));
    assert id in s.gone ==> ServerInvariant.Dead(cfg, id, s.gone[id], InOf(s.hist, id), OutOf(s.hist, id), true);
    assert ServerInvariant.Body(InOf(s.hist, id)) == [];
  }

  // ---- and only then ----

  /** At this point of the run the client takes a request for a path under which nothing is registered. */
  predicate TakesAbsent(cfg: Config, moves: seq<Move>, k: nat, id: nat)
    requires k < |moves|
  {
    moves[k].ClientTakes? && !moves[k].limited && NextIsAbsent(Run(cfg, moves[..k]), id)
  }

  lemma StepAbsent(cfg: Config, c: C.Client, input: C.Input, id: nat)
    requires C.Linked(c) && C.AllReady(c) && C.Possible(c, input)
    requires id !in c.absent && id in C.Step(cfg, c, input).absent
    ensures input.Take? && !input.limited && input.m.RequestMsg? && input.m.id == id && input.m.path !in c.content
  {}

  lemma {:induction false} AbsentWasTaken(cfg: Config, moves: seq<Move>, id: nat)
    requires cfg.Valid() && id in Run(cfg, moves).client.absent
    ensures exists k: nat :: k < |moves| && TakesAbsent(cfg, moves, k, id)
  {
    var init, move := moves[..|moves| - 1], moves[|moves| - 1];
    var j := Run(cfg, init);
    if id in j.client.absent {
      AbsentWasTaken(cfg, init, id);
      var k: nat :| k < |init| && TakesAbsent(cfg, init, k, id);
      assert init[..k] == moves[..k] && init[k] == moves[k];
      assert TakesAbsent(cfg, moves, k, id);
    } else {
      match move {
        case ClientSide(action) => StepAbsent(cfg, j.client, action, id);
        case ClientTakes(limited, ok) => StepAbsent(cfg, j.client, C.Take(j.toClient[0], limited, ok), id);
        case _ =>
      }
      assert TakesAbsent(cfg, moves, |moves| - 1, id);
    }
  }

  /** In every run: an empty response was sent about a request only if nothing was registered under its
      path at the moment the client took it. */
  lemma EmptyOnlyForAbsent(cfg: Config, moves: seq<Move>, id: nat)
    requires cfg.Valid() && EmptyResponse(id) in T.Of(Run(cfg, moves).client.sent, id)
    ensures exists k: nat :: k < |moves| && TakesAbsent(cfg, moves, k, id)
  {
    RunKeeps(cfg, moves);
    EmptyIsAbsent(cfg, Run(cfg, moves).client, id);
    AbsentWasTaken(cfg, moves, id);
  }

  lemma EmptyIsAbsent(cfg: Config, c: C.Client, id: nat)
    requires ClientInvariant.Inv(cfg, c) && EmptyResponse(id) in T.Of(c.sent, id)
    ensures id in c.absent
  {
    assert ClientInvariant.AnswerOk(c, id);
    if id in c.owner {
      var h := c.handlers[c.owner[id]];
      assert ClientHandlers.HandlerOk(cfg, h) && T.DroppedOnce(h, id);
      var form := T.FormOf(h, id);
      FormIsNotEmpty(h.content, h.chunkSize, id, T.Of(c.sent, id), form);
    }
  }

  lemma FormIsNotEmpty(c: H.Content, chunkSize: nat, id: nat, ms: seq<ClientMessage>, form: T.Form)
    requires |c.data| < U64 && 0 < chunkSize && T.HasForm(c, chunkSize, id, ms, form)
    ensures EmptyResponse(id) !in ms
  {
    if form.Partial? || form.ClosedEarly? { T.ChunksAreChunks(c, chunkSize, id, form.k); }
  }
}
