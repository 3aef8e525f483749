/** A request that nobody closes is completed: how far a handler gets in a run of the connection, and
    what that means for the server. */
module Completion {
  import opened Wire
  import opened Chunking
  import opened History
  import S = Server
  import opened ServerDelivery
  import H = Handler
  import R = HandlerRuns
  import opened HandlerTheorems
  import P = HandlerProgress
  import C = Client
  import ClientHandlers
  import ClientInvariant
  import ClientClosing
  import ClientRuns
  import ServerTheorems
  import opened Connection
  import opened ConnectionTheorems

  // ---- nobody closed it, so it was sent in full ----

  lemma {:induction false} RunExplained(cfg: Config, moves: seq<Move>)
    requires cfg.Valid()
    ensures ClientClosing.ClosingOk(Run(cfg, moves).client)
  {
    if moves != [] {
      var before, move := Run(cfg, moves[..|moves| - 1]), moves[|moves| - 1];
      RunExplained(cfg, moves[..|moves| - 1]);
      RunKeeps(cfg, moves[..|moves| - 1]);
      if Able(before, move) {
        match move {
          case ClientSide(action) => ClientClosing.StepExplained(cfg, before.client, action);
          case ClientTakes(limited, ok) =>
            ClientClosing.StepExplained(cfg, before.client, C.Take(before.toClient[0], limited, ok));
          case _ =>
        }
      }
    }
  }

  /** A response that the serve loop is through with was closed early, or sent in full. */
  lemma PastBlock(cfg: Config, c: C.Client, i: nat, id: nat) returns (b: H.Block)
    requires cfg.Valid() && ClientInvariant.Inv(cfg, c) && i < |c.handlers| && id in R.Ids(c.handlers[i].past)
    ensures b in c.handlers[i].past && b in R.Blocks(c.handlers[i]) && b.id == id
    ensures b.closed ==> id in ClientClosing.ClosedIn(c.handlers[i].past)
    ensures !b.closed ==> b.chunks == NumChunks(|c.handlers[i].content.data|, cfg.chunkSize)
    ensures id in c.owner && c.owner[id] == i
  {
    var h := c.handlers[i];
    assert ClientHandlers.HandlerOk(cfg, h);
    IdsOf(h.past);
    b :| b in h.past && b.id == id;
    FinishedBlock(|h.content.data|, h.chunkSize, h.past, b);
    Bookkeeping(h);
    assert id in h.enqueued;
  }

  /** The server's messages about a request that the client has seen are the first ones sent. */
  lemma SeenFirst(cfg: Config, j: Connection, id: nat)
    requires cfg.Valid() && Inv(cfg, j)
    ensures C.About(j.client.received, id) <= OutOf(j.server.hist, id)
  {
    QueuedAbout(j.server.hist, id);
    AboutConcat(j.client.received, j.toClient, id);
  }

  predicate ServerClosed(s: S.Server, id: nat) {
    exists m :: m in OutOf(s.hist, id) && m.RequestClosed?
  }

  lemma ClosedSecond(cfg: Config, s: S.Server, id: nat)
    requires cfg.Valid() && GoodHistory(cfg, s.hist)
    ensures var outs := OutOf(s.hist, id); ServerClosed(s, id) <==> |outs| == 2 && outs[1].RequestClosed?
  {
    ServerTheorems.RecordForms(cfg, s.hist, id);
  }

  /** In every run: once the serve loop is through with a request and the server has taken what was
      sent, the request is completed with exactly the bytes of the source, if the server did not close
      the request and the handler was not asked to stop. */
  lemma NobodyClosedMeansCompleted(cfg: Config, moves: seq<Move>, i: nat, id: nat)
    requires cfg.Valid()
    requires var j := Run(cfg, moves);
             && j.server.status.Open? && Of(j.toServer, id) == [] && !ServerClosed(j.server, id)
             && i < |j.client.handlers| && !j.client.handlers[i].stop && id in R.Ids(j.client.handlers[i].past)
    ensures var j := Run(cfg, moves);
            && Has(j.server, id) && Object(j.server, id).completed && Object(j.server, id).response.Some?
            && Flatten(Object(j.server, id).response.value.chunks) == j.client.handlers[i].content.data
  {
    RunKeeps(cfg, moves);
    RunExplained(cfg, moves);
    var j := Run(cfg, moves);
    var b := PastBlock(cfg, j.client, i, id);
    GoodRecord(cfg, j.server);
    ClosedSecond(cfg, j.server, id);
    SeenFirst(cfg, j, id);
    assert ClientClosing.Explained(j.client, i, id);
    SentMeansCompleted(cfg, moves, id, b);
  }

  // ---- the serve loop gets through with it ----

  /** What a step of the client means for one of its handlers: nothing, or one input. */
  predicate Projects(c: C.Client, input: C.Input, t: C.Client, i: nat, step: Option<H.Input>)
    requires i < |c.handlers|
  {
    && i < |t.handlers|
    && match step
       case None => t.handlers[i] == c.handlers[i] && !(input.ServeThread? && input.i == i)
       case Some(x) =>
         && H.Enabled(c.handlers[i], x) && H.Ready(c.handlers[i]) && t.handlers[i] == H.Step(c.handlers[i], x)
         && (x.Serve? <==> input.ServeThread? && input.i == i) && (x.Serve? ==> x.ok == input.ok)
         && (x.Cancel? ==> input.Take? && input.m.RequestClosed? && input.m.id == x.id && x.ok == input.ok)
         && (x.GracefulExit? ==> input.UnregisterContent? && input.path in c.content && c.content[input.path] == i)
  }

  /** What an incoming message does to one handler. */
  lemma TakenHandler(c: C.Client, m: ServerMessage, limited: bool, ok: bool, i: nat)
    requires C.Linked(c) && !m.Close? && i < |c.handlers|
    ensures var t, h := C.Receive(c, m, limited, ok), c.handlers[i];
            && |t.handlers| == |c.handlers|
            && t.handlers[i] == (
               if m.RequestMsg? && m.id !in c.requests && !limited && m.path in c.content && c.content[m.path] == i then H.Enqueue(h, m.id)
               else if m.RequestClosed? && m.id in c.requests && c.requests[m.id].handler == i then H.CancelRequest(h, m.id, ok)
               else h)
  {}

  lemma TakeProjects(cfg: Config, c: C.Client, m: ServerMessage, limited: bool, ok: bool, i: nat) returns (step: Option<H.Input>)
    requires ClientInvariant.Inv(cfg, c) && C.Linked(c) && C.AllReady(c) && C.Possible(c, C.Take(m, limited, ok)) && i < |c.handlers|
    ensures Projects(c, C.Take(m, limited, ok), C.Receive(c, m, limited, ok), i, step)
  {
    TakenHandler(c, m, limited, ok, i);
    step := None;
    if m.RequestMsg? && m.id !in c.requests && !limited && m.path in c.content && c.content[m.path] == i {
      NotEnqueued(cfg, c, m, i);
      step := Some(H.Add(m.id));
    } else if m.RequestClosed? && m.id in c.requests && c.requests[m.id].handler == i {
      step := Some(H.Cancel(m.id, ok));
    }
  }

  lemma NotEnqueued(cfg: Config, c: C.Client, m: ServerMessage, i: nat)
    requires ClientInvariant.Inv(cfg, c) && ClientRuns.Arrived(c, m) && m.RequestMsg? && i < |c.handlers|
    ensures m.id !in c.handlers[i].enqueued
  {
    ClientRuns.FreshRequest(cfg, c, m);
  }

  lemma ServeProjects(c: C.Client, i: nat, ok: bool, k: nat) returns (step: Option<H.Input>)
    requires k < |c.handlers| && i < |c.handlers| && H.CanServe(c.handlers[i]) && H.Ready(c.handlers[i])
    ensures Projects(c, C.ServeThread(i, ok), C.ServeTurn(c, i, ok), k, step)
  {
    var u := H.ServeStep(c.handlers[i], ok);
    assert C.Replace(c, i, u).handlers == c.handlers[i := u];
    assert C.ServeTurn(c, i, ok).handlers == c.handlers[i := u];
    step := if k == i then Some(H.Serve(ok)) else None;
  }

  lemma UnregisterProjects(c: C.Client, path: string, k: nat) returns (step: Option<H.Input>)
    requires C.Linked(c) && C.AllReady(c) && k < |c.handlers|
    ensures Projects(c, C.UnregisterContent(path), C.Unregister(c, path), k, step)
  {
    step := if path in c.content && c.content[path] == k && (!c.handlers[k].stop || c.handlers[k].done) then Some(H.GracefulExit) else None;
  }

  lemma StepProjects(cfg: Config, c: C.Client, input: C.Input, i: nat) returns (step: Option<H.Input>)
    requires cfg.Valid() && ClientInvariant.Inv(cfg, c) && C.Linked(c) && C.AllReady(c) && C.Possible(c, input) && i < |c.handlers|
    ensures Projects(c, input, C.Step(cfg, c, input), i, step)
  {
    match input {
      case UnregisterContent(path) => step := UnregisterProjects(c, path, i);
      case ServeThread(k, ok) => step := ServeProjects(c, k, ok, i);
      case Take(m, limited, ok) => step := TakeProjects(cfg, c, m, limited, ok, i);
      case _ => step := None;
    }
  }

  /** A move that does not interrupt handler i in serving this request. */
  predicate QuietMove(j: Connection, move: Move, i: nat, id: nat) {
    match move
    case ClientSide(UnregisterContent(path)) => path in j.client.content ==> j.client.content[path] != i
    case ClientSide(ServeThread(k, ok)) => k == i ==> ok
    case ClientTakes(_, _) => j.toClient != [] ==> !(j.toClient[0].RequestClosed? && j.toClient[0].id == id)
    case _ => true
  }

  /** Continuing a run with moves that do not interrupt the handler. */
  predicate Quiet(cfg: Config, before: seq<Move>, more: seq<Move>, i: nat, id: nat) {
    more == [] ||
    var init := more[..|more| - 1];
    Quiet(cfg, before, init, i, id) && QuietMove(Run(cfg, before + init), more[|more| - 1], i, id)
  }

  predicate IsServeMove(j: Connection, move: Move, i: nat) {
    move.ClientSide? && move.action.ServeThread? && move.action.i == i && Possible(j, move)
  }

  /** How often the serve thread of handler i runs in the continuation. */
  function ServeMoves(cfg: Config, before: seq<Move>, more: seq<Move>, i: nat): nat {
    if more == [] then 0
    else
      var init := more[..|more| - 1];
      ServeMoves(cfg, before, init, i) + if IsServeMove(Run(cfg, before + init), more[|more| - 1], i) then 1 else 0
  }

  predicate HandlerOnTime(c: C.Client, i: nat, id: nat, budget: nat, served: nat) {
    i < |c.handlers| && P.OnTime(c.handlers[i], id, budget, served)
  }

  lemma ClientOnTime(cfg: Config, c: C.Client, input: C.Input, i: nat, id: nat, budget: nat, served: nat)
    requires cfg.Valid() && ClientInvariant.Inv(cfg, c) && C.Linked(c) && C.AllReady(c) && C.Possible(c, input)
    requires HandlerOnTime(c, i, id, budget, served)
    requires input.UnregisterContent? ==> input.path in c.content ==> c.content[input.path] != i
    requires input.ServeThread? && input.i == i ==> input.ok
    requires input.Take? ==> !(input.m.RequestClosed? && input.m.id == id)
    ensures HandlerOnTime(C.Step(cfg, c, input), i, id, budget, if input.ServeThread? && input.i == i then served + 1 else served)
  {
    var step := StepProjects(cfg, c, input, i);
    if step.Some? {
      assert ClientHandlers.HandlerOk(cfg, c.handlers[i]);
      assert P.Harmless(step.value, id);
      P.OnTimeStep(c.handlers[i], step.value, id, budget, served);
    }
  }

  lemma MoveOnTime(cfg: Config, j: Connection, move: Move, i: nat, id: nat, budget: nat, served: nat)
    requires cfg.Valid() && Inv(cfg, j) && Able(j, move) && QuietMove(j, move, i, id)
    requires HandlerOnTime(j.client, i, id, budget, served)
    ensures HandlerOnTime(Effect(cfg, j, move).client, i, id, budget, if IsServeMove(j, move, i) then served + 1 else served)
  {
    match move {
      case ClientSide(action) => ClientOnTime(cfg, j.client, action, i, id, budget, served);
      case ClientTakes(limited, ok) => ClientOnTime(cfg, j.client, C.Take(j.toClient[0], limited, ok), i, id, budget, served);
      case _ =>
    }
  }

  lemma RunMoveOnTime(cfg: Config, moves: seq<Move>, move: Move, i: nat, id: nat, budget: nat, served: nat)
    requires cfg.Valid() && HandlerOnTime(Run(cfg, moves).client, i, id, budget, served)
    requires QuietMove(Run(cfg, moves), move, i, id)
    ensures HandlerOnTime(Run(cfg, moves + [move]).client, i, id, budget,
                          if IsServeMove(Run(cfg, moves), move, i) then served + 1 else served)
  {
    var j := Run(cfg, moves);
    assert (moves + [move])[..|moves|] == moves;
    RunKeeps(cfg, moves);
    if Able(j, move) { MoveOnTime(cfg, j, move, i, id, budget, served); }
  }

  lemma {:induction false} StaysOnTime(cfg: Config, before: seq<Move>, more: seq<Move>, i: nat, id: nat, budget: nat)
    requires cfg.Valid() && HandlerOnTime(Run(cfg, before).client, i, id, budget, 0) && Quiet(cfg, before, more, i, id)
    ensures HandlerOnTime(Run(cfg, before + more).client, i, id, budget, ServeMoves(cfg, before, more, i))
  {
    if more == [] {
      assert before + more == before;
    } else {
      var init, move := more[..|more| - 1], more[|more| - 1];
      assert before + more == before + init + [move];
      StaysOnTime(cfg, before, init, i, id, budget);
      RunMoveOnTime(cfg, before + init, move, i, id, budget, ServeMoves(cfg, before, init, i));
    }
  }

  /** In every run: once a request is served by a handler or waits in its queue, as many turns of the
      serve thread as TurnsLeft says are enough to file the complete response, whatever else happens in
      between short of an interruption. */
  lemma ServedInTime(cfg: Config, before: seq<Move>, more: seq<Move>, i: nat, id: nat)
    requires cfg.Valid() && i < |Run(cfg, before).client.handlers|
    requires P.OnTheWay(Run(cfg, before).client.handlers[i], id) && Quiet(cfg, before, more, i, id)
    ensures i < |Run(cfg, before + more).client.handlers|
    ensures ServeMoves(cfg, before, more, i) >= P.TurnsLeft(Run(cfg, before).client.handlers[i], id) ==>
              P.Filed(Run(cfg, before + more).client.handlers[i], id)
  {
    var budget := P.TurnsLeft(Run(cfg, before).client.handlers[i], id);
    P.StartsOnTime(Run(cfg, before).client.handlers[i], id);
    StaysOnTime(cfg, before, more, i, id, budget);
    RunOutOfTime(cfg, before + more, i, id, budget, ServeMoves(cfg, before, more, i));
  }

  /** Counted from the moment the serve loop turns to a request: two turns for each chunk, and four. */
  lemma EnoughTurns(cfg: Config, before: seq<Move>, more: seq<Move>, i: nat, id: nat)
    requires cfg.Valid() && i < |Run(cfg, before).client.handlers|
    requires var h := Run(cfg, before).client.handlers[i]; h.pc.HeaderReady? && P.Healthy(h, id)
    requires Quiet(cfg, before, more, i, id)
    requires var size := |Run(cfg, before).client.handlers[i].content.data|;
             ServeMoves(cfg, before, more, i) >= 2 * NumChunks(size, cfg.chunkSize) + 4
    ensures i < |Run(cfg, before + more).client.handlers| && P.Filed(Run(cfg, before + more).client.handlers[i], id)
  {
    RunKeeps(cfg, before);
    assert ClientHandlers.HandlerOk(cfg, Run(cfg, before).client.handlers[i]);
    P.TurnsAtStart(Run(cfg, before).client.handlers[i], id);
    ServedInTime(cfg, before, more, i, id);
  }

  /** Counted from any place p in the queue: the rest of the current response, and as many for each of
      the p requests ahead. */
  lemma EnoughTurnsFromQueue(cfg: Config, before: seq<Move>, more: seq<Move>, i: nat, id: nat, p: nat)
    requires cfg.Valid() && i < |Run(cfg, before).client.handlers|
    requires var h := Run(cfg, before).client.handlers[i]; P.Sound(h) && p < |h.pending| && h.pending[p] == id
    requires Quiet(cfg, before, more, i, id)
    requires var h := Run(cfg, before).client.handlers[i];
             ServeMoves(cfg, before, more, i) >= P.StepsLeft(h) + (p + 1) * (2 * NumChunks(|h.content.data|, cfg.chunkSize) + 4)
    ensures i < |Run(cfg, before + more).client.handlers| && P.Filed(Run(cfg, before + more).client.handlers[i], id)
  {
    RunKeeps(cfg, before);
    HandlerIsOk(cfg, Run(cfg, before).client, i);
    P.TurnsAtPlace(Run(cfg, before).client.handlers[i], id, p);
    ServedInTime(cfg, before, more, i, id);
  }

  lemma RunOutOfTime(cfg: Config, moves: seq<Move>, i: nat, id: nat, budget: nat, served: nat)
    requires cfg.Valid() && HandlerOnTime(Run(cfg, moves).client, i, id, budget, served)
    ensures served >= budget ==> P.Filed(Run(cfg, moves).client.handlers[i], id)
  {
    RunKeeps(cfg, moves);
    assert ClientHandlers.HandlerOk(cfg, Run(cfg, moves).client.handlers[i]);
    P.OutOfTime(Run(cfg, moves).client.handlers[i], id, budget, served);
  }

  /** Together: if nobody closes the request and its handler is not interrupted, then after enough turns
      of the serve thread, and once the server has taken everything, the request is completed with
      exactly the bytes of the source. */
  lemma RequestEndsCompleted(cfg: Config, before: seq<Move>, more: seq<Move>, i: nat, id: nat)
    requires cfg.Valid() && i < |Run(cfg, before).client.handlers|
    requires P.OnTheWay(Run(cfg, before).client.handlers[i], id) && Quiet(cfg, before, more, i, id)
    requires ServeMoves(cfg, before, more, i) >= P.TurnsLeft(Run(cfg, before).client.handlers[i], id)
    requires var j := Run(cfg, before + more); j.server.status.Open? && Of(j.toServer, id) == [] && !ServerClosed(j.server, id)
    ensures var j := Run(cfg, before + more);
            && i < |j.client.handlers|
            && Has(j.server, id) && Object(j.server, id).completed && Object(j.server, id).response.Some?
            && Flatten(Object(j.server, id).response.value.chunks) == j.client.handlers[i].content.data
  {
    ServedInTime(cfg, before, more, i, id);
    FiledMeansCompleted(cfg, before + more, i, id);
  }

  lemma FiledMeansCompleted(cfg: Config, moves: seq<Move>, i: nat, id: nat)
    requires cfg.Valid()
    requires var j := Run(cfg, moves);
             && j.server.status.Open? && Of(j.toServer, id) == [] && !ServerClosed(j.server, id)
             && i < |j.client.handlers| && P.Filed(j.client.handlers[i], id)
    ensures var j := Run(cfg, moves);
            && Has(j.server, id) && Object(j.server, id).completed && Object(j.server, id).response.Some?
            && Flatten(Object(j.server, id).response.value.chunks) == j.client.handlers[i].content.data
  {
    var h := Run(cfg, moves).client.handlers[i];
    var b := H.Block(id, true, R.Count(h), false);
    assert b in R.Blocks(h);
    OwnsBlock(cfg, moves, i, b);
    SentMeansCompleted(cfg, moves, id, b);
  }

  /** The next message for the client is a request for the content of handler i. */
  predicate NextIsFor(j: Connection, i: nat, id: nat) {
    && j.toClient != [] && j.toClient[0].RequestMsg? && j.toClient[0].id == id
    && j.toClient[0].path in j.client.content && j.client.content[j.toClient[0].path] == i < |j.client.handlers|
  }

  lemma EnqueuedLast(h: H.Handler, id: nat)
    requires R.Inv(h) && P.Sound(h)
    ensures var t := H.Enqueue(h, id);
            P.Sound(t) && P.StepsLeft(t) == P.StepsLeft(h) && t.pending == h.pending + [id] && t.content == h.content
  {}

  lemma TakenEnqueues(cfg: Config, c: C.Client, m: ServerMessage, ok: bool, i: nat)
    requires ClientInvariant.Inv(cfg, c) && C.Linked(c) && ClientRuns.Arrived(c, m)
    requires m.RequestMsg? && m.path in c.content && c.content[m.path] == i && i < |c.handlers|
    ensures var t := C.Receive(c, m, false, ok); |t.handlers| == |c.handlers| && t.handlers[i] == H.Enqueue(c.handlers[i], m.id)
  {
    ClientRuns.FreshRequest(cfg, c, m);
    TakenHandler(c, m, false, ok, i);
  }

  lemma HandlerIsOk(cfg: Config, c: C.Client, i: nat)
    requires ClientInvariant.Inv(cfg, c) && i < |c.handlers|
    ensures R.Inv(c.handlers[i]) && c.handlers[i].chunkSize == cfg.chunkSize
  {
    assert ClientHandlers.HandlerOk(cfg, c.handlers[i]);
  }

  lemma EffectEnqueues(cfg: Config, j: Connection, ok: bool, i: nat, id: nat)
    requires cfg.Valid() && Inv(cfg, j) && Able(j, ClientTakes(false, ok)) && NextIsFor(j, i, id)
    ensures var t := Effect(cfg, j, ClientTakes(false, ok)).client;
            |t.handlers| == |j.client.handlers| && t.handlers[i] == H.Enqueue(j.client.handlers[i], id)
  {
    TakenEnqueues(cfg, j.client, j.toClient[0], ok, i);
  }

  /** A request that the client takes for registered content is at the end of the queue of its handler,
      which is as sound as before. */
  lemma TakenIsQueued(cfg: Config, moves: seq<Move>, ok: bool, i: nat, id: nat)
    requires cfg.Valid()
    requires var j := Run(cfg, moves);
             Possible(j, ClientTakes(false, ok)) && NextIsFor(j, i, id) && P.Sound(j.client.handlers[i])
    ensures var j, t := Run(cfg, moves), Run(cfg, moves + [ClientTakes(false, ok)]);
            && i < |t.client.handlers|
            && P.Sound(t.client.handlers[i]) && P.StepsLeft(t.client.handlers[i]) == P.StepsLeft(j.client.handlers[i])
            && t.client.handlers[i].pending == j.client.handlers[i].pending + [id]
            && t.client.handlers[i].content == j.client.handlers[i].content
  {
    RunKeeps(cfg, moves);
    var j := Run(cfg, moves);
    OneMore(cfg, moves, ClientTakes(false, ok));
    EffectEnqueues(cfg, j, ok, i, id);
    HandlerIsOk(cfg, j.client, i);
    EnqueuedLast(j.client.handlers[i], id);
  }

  /** From the message to the bytes: a request that the client takes for registered content, with n
      requests ahead of it in the queue, is completed with exactly the bytes of the source after the
      rest of the current response and n + 1 whole ones, if nobody closes it, its handler is not
      interrupted, and the server has taken everything. */
  lemma TakenEndsCompleted(cfg: Config, before: seq<Move>, ok: bool, more: seq<Move>, i: nat, id: nat)
    requires cfg.Valid()
    requires var j := Run(cfg, before);
             Possible(j, ClientTakes(false, ok)) && NextIsFor(j, i, id) && P.Sound(j.client.handlers[i])
    requires var h, after := Run(cfg, before).client.handlers[i], before + [ClientTakes(false, ok)];
             && Quiet(cfg, after, more, i, id)
             && ServeMoves(cfg, after, more, i) >=
                P.StepsLeft(h) + (|h.pending| + 1) * (2 * NumChunks(|h.content.data|, cfg.chunkSize) + 4)
    requires var j := Run(cfg, before + [ClientTakes(false, ok)] + more);
             j.server.status.Open? && Of(j.toServer, id) == [] && !ServerClosed(j.server, id)
    ensures var j := Run(cfg, before + [ClientTakes(false, ok)] + more);
            && i < |j.client.handlers|
            && Has(j.server, id) && Object(j.server, id).completed && Object(j.server, id).response.Some?
            && Flatten(Object(j.server, id).response.value.chunks) == j.client.handlers[i].content.data
  {
    var after := before + [ClientTakes(false, ok)];
    TakenIsQueued(cfg, before, ok, i, id);
    EnoughTurnsFromQueue(cfg, after, more, i, id, |Run(cfg, before).client.handlers[i].pending|);
    FiledMeansCompleted(cfg, after + more, i, id);
  }

  lemma OwnsBlock(cfg: Config, moves: seq<Move>, i: nat, b: H.Block)
    requires cfg.Valid() && i < |Run(cfg, moves).client.handlers| && b in R.Blocks(Run(cfg, moves).client.handlers[i])
    ensures var c := Run(cfg, moves).client;
            b.id in c.owner && c.owner[b.id] == i && c.handlers[i].chunkSize == cfg.chunkSize
  {
    RunKeeps(cfg, moves);
    OwnerOf(cfg, Run(cfg, moves).client, i, b);
  }

  lemma OwnerOf(cfg: Config, c: C.Client, i: nat, b: H.Block)
    requires ClientInvariant.HandlersOk(cfg, c) && ClientInvariant.OwnersOk(c)
    requires i < |c.handlers| && b in R.Blocks(c.handlers[i])
    ensures b.id in c.owner && c.owner[b.id] == i && c.handlers[i].chunkSize == cfg.chunkSize
  {
    TakenIsEnqueued(cfg, c.handlers[i], b);
  }

  lemma TakenIsEnqueued(cfg: Config, h: H.Handler, b: H.Block)
    requires ClientHandlers.HandlerOk(cfg, h) && b in R.Blocks(h)
    ensures b.id in h.enqueued && h.chunkSize == cfg.chunkSize
  {
    Bookkeeping(h);
  }
}
