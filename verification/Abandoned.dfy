/** Requests that are still queued when their handler exits: the client never answers them, so they
    cost the connection. */
module Abandoned {
  import opened Wire
  import opened History
  import S = Server
  import ServerInvariant
  import ServerTiming
  import H = Handler
  import HandlerRuns
  import HandlerTheorems
  import C = Client
  import ClientHandlers
  import ClientInvariant
  import opened Connection
  import opened ConnectionTheorems
  import Completion

  /** Handler i has exited with this request in its queue. */
  predicate LeftBehind(c: C.Client, i: nat, id: nat) {
    i < |c.handlers| && c.handlers[i].done && id in c.handlers[i].pending
  }

  lemma DoneStays(h: H.Handler, x: H.Input)
    requires h.done && h.pc.Exited? && H.Enabled(h, x) && H.Ready(h)
    ensures H.Step(h, x) == h
  {}

  lemma ClientLeaves(cfg: Config, c: C.Client, input: C.Input, i: nat, id: nat)
    requires cfg.Valid() && ClientInvariant.Inv(cfg, c) && C.Linked(c) && C.AllReady(c) && C.Possible(c, input)
    requires LeftBehind(c, i, id)
    ensures LeftBehind(C.Step(cfg, c, input), i, id)
  {
    var step := Completion.StepProjects(cfg, c, input, i);
    assert ClientHandlers.HandlerOk(cfg, c.handlers[i]);
    if step.Some? { DoneStays(c.handlers[i], step.value); }
  }

  lemma MoveLeaves(cfg: Config, j: Connection, move: Move, i: nat, id: nat)
    requires cfg.Valid() && Inv(cfg, j) && Able(j, move) && LeftBehind(j.client, i, id)
    ensures LeftBehind(Effect(cfg, j, move).client, i, id)
  {
    match move {
      case ClientSide(action) => ClientLeaves(cfg, j.client, action, i, id);
      case ClientTakes(limited, ok) => ClientLeaves(cfg, j.client, C.Take(j.toClient[0], limited, ok), i, id);
      case _ =>
    }
  }

  lemma {:induction false} RunLeaves(cfg: Config, before: seq<Move>, more: seq<Move>, i: nat, id: nat)
    requires cfg.Valid() && LeftBehind(Run(cfg, before).client, i, id)
    ensures LeftBehind(Run(cfg, before + more).client, i, id)
  {
    if more == [] {
      assert before + more == before;
    } else {
      var init, move := more[..|more| - 1], more[|more| - 1];
      RunLeaves(cfg, before, init, i, id);
      OneMoreLeaves(cfg, before + init, move, i, id);
      assert before + more == before + init + [move];
    }
  }

  lemma OneMoreLeaves(cfg: Config, moves: seq<Move>, move: Move, i: nat, id: nat)
    requires cfg.Valid() && LeftBehind(Run(cfg, moves).client, i, id)
    ensures LeftBehind(Run(cfg, moves + [move]).client, i, id)
  {
    assert (moves + [move])[..|moves|] == moves;
    RunKeeps(cfg, moves);
    if Able(Run(cfg, moves), move) { MoveLeaves(cfg, Run(cfg, moves), move, i, id); }
  }

  lemma QueuedSilently(h: H.Handler, id: nat)
    requires HandlerRuns.Inv(h) && h.done && id in h.pending
    ensures HandlerTheorems.Of(HandlerTheorems.Messages(h.log), id) == [] && id in h.enqueued
  {
    HandlerTheorems.LeftInQueue(h, [], id);
    HandlerTheorems.Bookkeeping(h);
  }

  lemma NothingSent(cfg: Config, c: C.Client, i: nat, id: nat)
    requires cfg.Valid() && ClientInvariant.Inv(cfg, c) && LeftBehind(c, i, id)
    ensures HandlerTheorems.Of(c.sent, id) == [] && C.About(c.received, id) != []
  {
    assert ClientHandlers.HandlerOk(cfg, c.handlers[i]);
    QueuedSilently(c.handlers[i], id);
    assert ClientInvariant.AnswerOk(c, id);
  }

  lemma StaysInMap(cfg: Config, s: S.Server, id: nat)
    requires cfg.Valid() && ServerInvariant.CoreInv(cfg, s) && OutOf(s.hist, id) != [] && InOf(s.hist, id) == []
    ensures id in s.requests && s.requests[id].response.None? && !s.requests[id].completed
  {
    assert !ServerInvariant.Fresh(s, id);
    assert id in s.gone ==> ServerInvariant.Dead(cfg, id, s.gone[id], InOf(s.hist, id), OutOf(s.hist, id), true);
    assert id in s.requests ==> ServerInvariant.Live(cfg, id, s.requests[id], InOf(s.hist, id), OutOf(s.hist, id));
  }

  /** In every run: once a handler has exited with a request in its queue, then for ever after nothing
      is sent about the request, and while the server is open the request stays in its map without a
      response. */
  lemma NeverAnswered(cfg: Config, before: seq<Move>, more: seq<Move>, i: nat, id: nat)
    requires cfg.Valid() && LeftBehind(Run(cfg, before).client, i, id)
    ensures var j := Run(cfg, before + more);
            && HandlerTheorems.Of(j.client.sent, id) == [] && InOf(j.server.hist, id) == []
            && (j.server.status.Open? ==> id in j.server.requests && j.server.requests[id].response.None?)
  {
    RunLeaves(cfg, before, more, i, id);
    RunKeeps(cfg, before + more);
    var j := Run(cfg, before + more);
    NothingSent(cfg, j.client, i, id);
    AcceptedIsPrefix(cfg, j, id);
    Completion.SeenFirst(cfg, j, id);
    if j.server.status.Open? { StaysInMap(cfg, j.server, id); }
  }

  // ---- the server's own run ----

  /** The inputs that the server handled in a run of the connection. */
  function ServerInputs(cfg: Config, moves: seq<Move>): seq<S.Timed> {
    if moves == [] then []
    else
      var init, move := moves[..|moves| - 1], moves[|moves| - 1];
      var before := ServerInputs(cfg, init);
      if !Able(Run(cfg, init), move) then before
      else if move.ServerSide? then before + [S.Timed(move.now, move.turn)]
      else if move.ServerTakes? then before + [S.Timed(move.now, S.Receive(Run(cfg, init).toServer[0]))]
      else before
  }

  /** In a run of the connection the server goes through a run of its own. */
  lemma {:induction false} ServerRuns(cfg: Config, moves: seq<Move>)
    ensures Run(cfg, moves).server == S.Run(cfg, ServerInputs(cfg, moves))
  {
    if moves != [] {
      var init, move := moves[..|moves| - 1], moves[|moves| - 1];
      ServerRuns(cfg, init);
      var before := ServerInputs(cfg, init);
      if Able(Run(cfg, init), move) && (move.ServerSide? || move.ServerTakes?) {
        assert ServerInputs(cfg, moves)[..|before|] == before;
      }
    }
  }

  /** So a connection on which a request was left in the queue comes to its end: as long as the server
      ticks at least every interval, it can only be open while the request is younger than
      (n + 2) * (T + I). */
  lemma ConnectionIsLost(cfg: Config, before: seq<Move>, more: seq<Move>, i: nat, id: nat, interval: nat, now: int)
    requires cfg.Valid() && LeftBehind(Run(cfg, before).client, i, id)
    requires var inputs := ServerInputs(cfg, before + more);
             && S.ValidRun(cfg, inputs) && ServerTiming.Ticking(inputs, interval)
             && ServerTiming.LastTime(inputs) <= now <= ServerTiming.LastTick(inputs) + interval
    ensures var s := Run(cfg, before + more).server;
            s.status.Open? ==>
              id in s.requests && now - s.requests[id].created < (ServerTiming.MaxChunks(cfg) + 2) * (cfg.clientTimeout + interval)
  {
    NeverAnswered(cfg, before, more, i, id);
    ServerRuns(cfg, before + more);
    if Run(cfg, before + more).server.status.Open? {
      ServerTiming.RequestLifetime(cfg, ServerInputs(cfg, before + more), interval, id, now);
    }
  }

  // ---- it happens ----

  const STOPPED := H0.(stop := true)
  const UNREGISTERING := GIVEN.(handlers := [STOPPED], unregistering := Some("note"))
  const ABANDONED := UNREGISTERING.(handlers := [H.Exit(STOPPED)])

  lemma AfterUnregistering(moves: seq<Move>)
    requires TINY.Valid() && Run(TINY, moves) == Connection(ASKED, GIVEN, [], [])
    ensures Run(TINY, moves + [ClientSide(C.UnregisterContent("note"))]) == Connection(ASKED, UNREGISTERING, [], [])
  {
    OneMore(TINY, moves, ClientSide(C.UnregisterContent("note")));
    assert H.RequestExit(H0) == STOPPED;
    assert C.Unregister(GIVEN, "note") == UNREGISTERING;
  }

  lemma AfterExiting(moves: seq<Move>)
    requires TINY.Valid() && Run(TINY, moves) == Connection(ASKED, UNREGISTERING, [], [])
    ensures Run(TINY, moves + [ClientSide(C.ServeThread(0, true))]) == Connection(ASKED, ABANDONED, [], [])
  {
    OneMore(TINY, moves, ClientSide(C.ServeThread(0, true)));
    assert H.ServeStep(STOPPED, true) == H.Exit(STOPPED);
    assert C.ServeTurn(UNREGISTERING, 0, true) == ABANDONED;
  }

  const EXPIRED := S.Server(
    S.Open, map[1 := S.CloseChannel(S.ResetTimeout(S.NewRequest(1, "note", 0), 1))], map[], 1,
    [Out(RequestMsg(1, "note")), Out(RequestClosed(1, S.TIMEOUT_MESSAGE))])

  lemma FirstTick()
    ensures S.Step(TINY, ASKED, 1, S.Tick([1], {})) == EXPIRED
  {
    assert S.Sweep(TINY, EXPIRED, 1, [1][1..], {}) == EXPIRED;
    assert ASKED.requests[1 := EXPIRED.requests[1]] == EXPIRED.requests;
  }

  lemma SecondTick()
    ensures S.Step(TINY, EXPIRED, 2, S.Tick([1], {})).hist == EXPIRED.hist + [Out(Close(TimedOut))]
  {}

  /** A request whose content is unregistered before its handler gets to it is never answered; the server
      closes it after its timeout, and after another one the connection. */
  lemma LeftInQueueHappens() returns (moves: seq<Move>)
    ensures LeftBehind(Run(TINY, moves).client, 0, 1)
    ensures Out(Close(TimedOut)) in Run(TINY, moves).server.hist
  {
    moves := Prologue();
    AfterUnregistering(moves);
    moves := moves + [ClientSide(C.UnregisterContent("note"))];
    AfterExiting(moves);
    moves := moves + [ClientSide(C.ServeThread(0, true))];
    AfterTicks(moves);
    moves := moves + [ServerSide(1, S.Tick([1], {}))] + [ServerSide(2, S.Tick([1], {}))];
  }

  lemma AfterTicks(moves: seq<Move>)
    requires TINY.Valid() && Run(TINY, moves) == Connection(ASKED, ABANDONED, [], [])
    ensures var j := Run(TINY, moves + [ServerSide(1, S.Tick([1], {}))] + [ServerSide(2, S.Tick([1], {}))]);
            j.client == ABANDONED && Out(Close(TimedOut)) in j.server.hist
  {
    var first, second := ServerSide(1, S.Tick([1], {})), ServerSide(2, S.Tick([1], {}));
    OneMore(TINY, moves, first);
    FirstTick();
    OneMore(TINY, moves + [first], second);
    SecondTick();
  }
}
