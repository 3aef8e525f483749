/** What closing a request and unregistering content lead to in a run of the connection. */
module ConnectionStops {
  import opened Wire
  import opened Chunking
  import H = Handler
  import R = HandlerRuns
  import T = HandlerTheorems
  import P = HandlerProgress
  import HandlerStops
  import C = Client
  import ClientHandlers
  import ClientInvariant
  import ClientRuns
  import opened Connection
  import opened ConnectionTheorems
  import opened Completion
  import opened Unanswered

  // ---- the run of one handler within a run of the connection ----

  /** The run of a reachable handler. */
  function RunFrom(h: H.Handler, inputs: seq<H.Input>): H.Handler {
    if R.Inv(h) then R.Run(h, inputs) else h
  }

  predicate RunsTo(h: H.Handler, inputs: seq<H.Input>, t: H.Handler) {
    RunFrom(h, inputs) == t
  }

  lemma RunsNowhere(h: H.Handler)
    requires R.Inv(h)
    ensures RunsTo(h, [], h) && P.Serves([]) == 0
  {}

  lemma RunsOnce(h: H.Handler, x: H.Input)
    requires R.Inv(h) && H.Enabled(h, x) && H.Ready(h)
    ensures RunsTo(h, [x], H.Step(h, x)) && P.Serves([x]) == if x.Serve? then 1 else 0
  {
    RunsNowhere(h);
    P.RunIs(h, [x]);
    assert [x][..0] == [];
  }

  lemma {:induction false} RunThen(h: H.Handler, a: seq<H.Input>, b: seq<H.Input>)
    requires R.Inv(h)
    ensures R.Run(h, a + b) == R.Run(R.Run(h, a), b) && P.Serves(a + b) == P.Serves(a) + P.Serves(b)
  {
    if b == [] {
      assert a + b == a;
    } else {
      var init, last := b[..|b| - 1], b[|b| - 1];
      assert (a + b)[..|a + b| - 1] == a + init && (a + b)[|a + b| - 1] == last;
      RunThen(h, a, init);
    }
  }

  lemma RunsThen(h: H.Handler, a: seq<H.Input>, t: H.Handler, b: seq<H.Input>, u: H.Handler)
    requires R.Inv(h) && RunsTo(h, a, t) && RunsTo(t, b, u)
    ensures RunsTo(h, a + b, u) && P.Serves(a + b) == P.Serves(a) + P.Serves(b)
  {
    RunThen(h, a, b);
  }

  /** The send of handler i in this action, if any, succeeds. */
  predicate Succeeds(input: C.Input, i: nat) {
    (input.ServeThread? && input.i == i ==> input.ok) && (input.Take? ==> input.ok)
  }

  lemma AtMostOnce(h: H.Handler, step: Option<H.Input>, t: H.Handler) returns (inputs: seq<H.Input>)
    requires R.Inv(h) && H.Ready(h)
    requires match step case None => t == h case Some(x) => H.Enabled(h, x) && t == H.Step(h, x)
    ensures RunsTo(h, inputs, t) && P.Serves(inputs) == if step.Some? && step.value.Serve? then 1 else 0
    ensures (step.Some? ==> T.GoesOut(step.value)) ==> T.AllGoOut(inputs)
  {
    inputs := [];
    RunsNowhere(h);
    if step.Some? {
      inputs := [step.value];
      RunsOnce(h, step.value);
    }
  }

  lemma StepOf(cfg: Config, c: C.Client, input: C.Input, i: nat) returns (inputs: seq<H.Input>)
    requires cfg.Valid() && ClientInvariant.Inv(cfg, c) && C.Linked(c) && C.AllReady(c) && C.Possible(c, input) && i < |c.handlers|
    ensures var t := C.Step(cfg, c, input); i < |t.handlers| && RunsTo(c.handlers[i], inputs, t.handlers[i])
    ensures P.Serves(inputs) == if input.ServeThread? && input.i == i then 1 else 0
    ensures Succeeds(input, i) ==> T.AllGoOut(inputs)
  {
    HandlerIsOk(cfg, c, i);
    var step := StepProjects(cfg, c, input, i);
    inputs := AtMostOnce(c.handlers[i], step, C.Step(cfg, c, input).handlers[i]);
  }

  lemma MoveOf(cfg: Config, j: Connection, move: Move, i: nat) returns (inputs: seq<H.Input>)
    requires cfg.Valid() && Inv(cfg, j) && Able(j, move) && i < |j.client.handlers|
    ensures var t := Effect(cfg, j, move).client; i < |t.handlers| && RunsTo(j.client.handlers[i], inputs, t.handlers[i])
    ensures P.Serves(inputs) == if IsServeMove(j, move, i) then 1 else 0
    ensures Delivered(move, i) ==> T.AllGoOut(inputs)
  {
    HandlerIsOk(cfg, j.client, i);
    RunsNowhere(j.client.handlers[i]);
    inputs := [];
    match move {
      case ClientSide(action) => inputs := StepOf(cfg, j.client, action, i);
      case ClientTakes(limited, ok) => inputs := StepOf(cfg, j.client, C.Take(j.toClient[0], limited, ok), i);
      case _ =>
    }
  }

  lemma OneMoveOf(cfg: Config, moves: seq<Move>, move: Move, i: nat) returns (inputs: seq<H.Input>)
    requires cfg.Valid() && i < |Run(cfg, moves).client.handlers|
    ensures var c := Run(cfg, moves + [move]).client;
            i < |c.handlers| && RunsTo(Run(cfg, moves).client.handlers[i], inputs, c.handlers[i])
    ensures P.Serves(inputs) == if IsServeMove(Run(cfg, moves), move, i) then 1 else 0
    ensures Delivered(move, i) ==> T.AllGoOut(inputs)
  {
    RunKeeps(cfg, moves);
    assert (moves + [move])[..|moves|] == moves;
    if Able(Run(cfg, moves), move) {
      inputs := MoveOf(cfg, Run(cfg, moves), move, i);
    } else {
      inputs := [];
      HandlerIsOk(cfg, Run(cfg, moves).client, i);
      RunsNowhere(Run(cfg, moves).client.handlers[i]);
      NotAbleIsNoServe(cfg, Run(cfg, moves), move, i);
    }
  }

  lemma NotAbleIsNoServe(cfg: Config, j: Connection, move: Move, i: nat)
    requires cfg.Valid() && Inv(cfg, j) && !Able(j, move)
    ensures !IsServeMove(j, move, i)
  {
    ClientInvariant.InvLinked(cfg, j.client);
  }

  lemma GoOutJoined(more: seq<Move>, i: nat, a: seq<H.Input>, b: seq<H.Input>)
    requires more != []
    requires (AllDelivered(more[..|more| - 1], i) ==> T.AllGoOut(a)) && (Delivered(more[|more| - 1], i) ==> T.AllGoOut(b))
    ensures AllDelivered(more, i) ==> T.AllGoOut(a + b)
  {
    if AllDelivered(more, i) {
      assert Delivered(more[|more| - 1], i);
      assert forall k :: 0 <= k < |more| - 1 ==> more[..|more| - 1][k] == more[k];
    }
  }

  /** A continuation of a run is for each handler a run of its own. */
  lemma {:induction false} RunOf(cfg: Config, before: seq<Move>, more: seq<Move>, i: nat) returns (inputs: seq<H.Input>)
    requires cfg.Valid() && i < |Run(cfg, before).client.handlers|
    ensures var c := Run(cfg, before + more).client;
            i < |c.handlers| && RunsTo(Run(cfg, before).client.handlers[i], inputs, c.handlers[i])
    ensures P.Serves(inputs) == ServeMoves(cfg, before, more, i)
    ensures AllDelivered(more, i) ==> T.AllGoOut(inputs)
  {
    if more == [] {
      inputs := NoMoves(cfg, before, i);
    } else {
      var init, move := more[..|more| - 1], more[|more| - 1];
      var first := RunOf(cfg, before, init, i);
      assert before + more == before + init + [move];
      var last := OneMoveOf(cfg, before + init, move, i);
      ReachedHandler(cfg, before, i);
      RunsThen(Run(cfg, before).client.handlers[i], first, Run(cfg, before + init).client.handlers[i], last,
               Run(cfg, before + more).client.handlers[i]);
      GoOutJoined(more, i, first, last);
      inputs := first + last;
    }
  }

  lemma ReachedHandler(cfg: Config, moves: seq<Move>, i: nat)
    requires cfg.Valid() && i < |Run(cfg, moves).client.handlers|
    ensures R.Inv(Run(cfg, moves).client.handlers[i])
  {
    RunKeeps(cfg, moves);
    HandlerIsOk(cfg, Run(cfg, moves).client, i);
  }

  lemma NoMoves(cfg: Config, before: seq<Move>, i: nat) returns (inputs: seq<H.Input>)
    requires cfg.Valid() && i < |Run(cfg, before).client.handlers|
    ensures before + [] == before && RunsTo(Run(cfg, before).client.handlers[i], inputs, Run(cfg, before).client.handlers[i])
    ensures P.Serves(inputs) == 0 && T.AllGoOut(inputs)
  {
    RunKeeps(cfg, before);
    HandlerIsOk(cfg, Run(cfg, before).client, i);
    inputs := [];
    RunsNowhere(Run(cfg, before).client.handlers[i]);
  }

  // ---- the server closes a request ----

  /** The next message for the client closes a request that handler i was given. */
  predicate NextCloses(j: Connection, i: nat, id: nat) {
    && j.toClient != [] && j.toClient[0].RequestClosed? && j.toClient[0].id == id
    && id in j.client.owner && j.client.owner[id] == i < |j.client.handlers|
  }

  lemma TakenCancels(cfg: Config, c: C.Client, m: ServerMessage, limited: bool, ok: bool, i: nat)
    requires ClientInvariant.Inv(cfg, c) && C.Linked(c) && ClientRuns.Arrived(c, m) && m.RequestClosed?
    requires m.id in c.owner && c.owner[m.id] == i < |c.handlers|
    ensures var t := C.Receive(c, m, limited, ok);
            |t.handlers| == |c.handlers| && t.handlers[i] == H.CancelRequest(c.handlers[i], m.id, ok)
  {
    var ms := C.About(c.received, m.id);
    assert (ms + [m])[|ms|] == m;
    assert ClientInvariant.EntryOk(c, m.id);
    TakenHandler(c, m, limited, ok, i);
  }

  lemma EffectCancels(cfg: Config, moves: seq<Move>, limited: bool, ok: bool, i: nat, id: nat)
    requires cfg.Valid()
    requires Possible(Run(cfg, moves), ClientTakes(limited, ok)) && NextCloses(Run(cfg, moves), i, id)
    ensures var j, t := Run(cfg, moves), Run(cfg, moves + [ClientTakes(limited, ok)]);
            && |t.client.handlers| == |j.client.handlers|
            && t.client.handlers[i] == H.CancelRequest(j.client.handlers[i], id, ok)
  {
    RunKeeps(cfg, moves);
    OneMore(cfg, moves, ClientTakes(limited, ok));
    TakenCancels(cfg, Run(cfg, moves).client, Run(cfg, moves).toClient[0], limited, ok, i);
  }

  lemma SentBy(cfg: Config, c: C.Client, i: nat, id: nat)
    requires ClientInvariant.Inv(cfg, c) && i < |c.handlers| && id in c.handlers[i].enqueued
    ensures T.Of(c.sent, id) == T.Of(T.Messages(c.handlers[i].log), id)
  {
    assert id in c.owner && c.owner[id] == i;
    assert ClientInvariant.AnswerOk(c, id);
  }

  lemma SentByHandler(cfg: Config, moves: seq<Move>, i: nat, id: nat)
    requires cfg.Valid() && i < |Run(cfg, moves).client.handlers| && id in Run(cfg, moves).client.handlers[i].enqueued
    ensures var c := Run(cfg, moves).client; T.Of(c.sent, id) == T.Of(T.Messages(c.handlers[i].log), id)
  {
    RunKeeps(cfg, moves);
    SentBy(cfg, Run(cfg, moves).client, i, id);
  }

  lemma {:induction false} RunEnqueued(h: H.Handler, inputs: seq<H.Input>, id: nat)
    requires R.Inv(h) && id in h.enqueued
    ensures id in R.Run(h, inputs).enqueued
  {
    if inputs != [] {
      var init, input := inputs[..|inputs| - 1], inputs[|inputs| - 1];
      RunEnqueued(h, init, id);
      P.RunIs(h, inputs);
      if H.Enabled(R.Run(h, init), input) { EnqueuedStays(R.Run(h, init), input, id); }
    }
  }

  lemma CancelKeepsEnqueued(h: H.Handler, id: nat, ok: bool)
    ensures H.CancelRequest(h, id, ok).enqueued == h.enqueued
  {}

  lemma ServedIsEnqueued(h: H.Handler, id: nat)
    requires R.Inv(h) && h.handling == Some(id)
    ensures h.current.Some? && h.current.value.id == id && id in h.enqueued
  {
    T.Bookkeeping(h);
    assert h.current.value in R.Blocks(h);
  }

  /** The server closes a request that is being served: from the moment the client hears of it, what goes
      out about the request is the beginning of the header, the chunks that were sent or prepared by then,
      and a CloseResponse if and only if chunks are missing; after at most StepsToExit turns of the serve
      thread it is exactly that. */
  lemma ClosedIsPrompt(cfg: Config, before: seq<Move>, limited: bool, ok: bool, more: seq<Move>, i: nat, id: nat)
    requires cfg.Valid()
    requires var j := Run(cfg, before);
             && Possible(j, ClientTakes(limited, ok)) && NextCloses(j, i, id)
             && HandlerStops.InService(j.client.handlers[i], id)
    requires AllDelivered(more, i)
    ensures var h := Run(cfg, before).client.handlers[i];
            h.current.Some? && |h.content.data| < U64 && 0 < h.chunkSize
    ensures var h, after := Run(cfg, before).client.handlers[i], before + [ClientTakes(limited, ok)];
            var p := HandlerStops.Committed(h);
            var ms := R.BlockMessages(h.content, h.chunkSize, H.Block(id, true, p, p < R.Count(h)));
            && T.Of(Run(cfg, after + more).client.sent, id) <= ms
            && (ServeMoves(cfg, after, more, i) >= T.StepsToExit(h) ==> T.Of(Run(cfg, after + more).client.sent, id) == ms)
  {
    var h, after := Run(cfg, before).client.handlers[i], before + [ClientTakes(limited, ok)];
    RunKeeps(cfg, before);
    HandlerIsOk(cfg, Run(cfg, before).client, i);
    EffectCancels(cfg, before, limited, ok, i, id);
    var inputs := RunOf(cfg, after, more, i);
    HandlerStops.CancelIsPrompt(h, inputs, id, ok);
    ServedIsEnqueued(h, id);
    CancelKeepsEnqueued(h, id, ok);
    RunEnqueued(H.CancelRequest(h, id, ok), inputs, id);
    SentByHandler(cfg, after + more, i, id);
  }

  /** The server closes a request that is still queued: a single CloseResponse goes out, and nothing else
      ever does. */
  lemma ClosedInQueue(cfg: Config, before: seq<Move>, limited: bool, more: seq<Move>, i: nat, id: nat)
    requires cfg.Valid()
    requires var j := Run(cfg, before);
             && Possible(j, ClientTakes(limited, true)) && NextCloses(j, i, id)
             && !j.client.handlers[i].done && id in j.client.handlers[i].pending
    ensures T.Of(Run(cfg, before + [ClientTakes(limited, true)] + more).client.sent, id) == [CloseResponse(id)]
  {
    var h, after := Run(cfg, before).client.handlers[i], before + [ClientTakes(limited, true)];
    RunKeeps(cfg, before);
    assert ClientHandlers.HandlerOk(cfg, h);
    assert T.DroppedOnce(h, id);
    EffectCancels(cfg, before, limited, true, i, id);
    var inputs := RunOf(cfg, after, more, i);
    HandlerStops.QueuedCancelCloses(h, inputs, id);
    ClientHandlers.PendingIsEnqueued(h, id);
    CancelKeepsEnqueued(h, id, true);
    RunEnqueued(H.CancelRequest(h, id, true), inputs, id);
    SentByHandler(cfg, after + more, i, id);
  }

  // ---- content is unregistered ----

  lemma EffectStops(cfg: Config, moves: seq<Move>, path: string, i: nat)
    requires cfg.Valid()
    requires var c := Run(cfg, moves).client;
             Possible(Run(cfg, moves), ClientSide(C.UnregisterContent(path))) && path in c.content && c.content[path] == i < |c.handlers|
    ensures var j, t := Run(cfg, moves), Run(cfg, moves + [ClientSide(C.UnregisterContent(path))]);
            && |t.client.handlers| == |j.client.handlers| && t.client.handlers[i] == H.RequestExit(j.client.handlers[i])
            && t.client.unregistering == Some(path) && t.client.content == j.client.content
  {
    RunKeeps(cfg, moves);
    OneMore(cfg, moves, ClientSide(C.UnregisterContent(path)));
  }

  /** Unregistering content ends: its handler is done after at most StepsToExit turns of its serve thread,
      however its sends go and whatever else happens. */
  lemma UnregistersInTime(cfg: Config, before: seq<Move>, path: string, more: seq<Move>, i: nat)
    requires cfg.Valid()
    requires var c := Run(cfg, before).client;
             Possible(Run(cfg, before), ClientSide(C.UnregisterContent(path))) && path in c.content && c.content[path] == i < |c.handlers|
    requires var after := before + [ClientSide(C.UnregisterContent(path))];
             ServeMoves(cfg, after, more, i) >= T.StepsToExit(Run(cfg, before).client.handlers[i])
    ensures var after := before + [ClientSide(C.UnregisterContent(path))];
            i < |Run(cfg, after + more).client.handlers| && Run(cfg, after + more).client.handlers[i].done
  {
    var h, after := Run(cfg, before).client.handlers[i], before + [ClientSide(C.UnregisterContent(path))];
    RunKeeps(cfg, before);
    HandlerIsOk(cfg, Run(cfg, before).client, i);
    EffectStops(cfg, before, path, i);
    var inputs := RunOf(cfg, after, more, i);
    HandlerStops.ExitsInTime(h, inputs);
  }
}
