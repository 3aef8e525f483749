/** Server and client joined by a first-in first-out channel in each direction. The two machines, and
    all the threads of the client, take their steps in any order. */
module Connection {
  import opened Wire
  import opened History
  import S = Server
  import ServerInvariant
  import ServerRuns
  import C = Client
  import H = Handler
  import ClientInvariant
  import ClientHandlers
  import ClientRuns
  import opened Responses
  import ServerTheorems
  import opened HandlerTheorems

  /** The server's messages without the final Close: that one may overtake queued messages and only
      tells the client that the connection is over. */
  datatype Connection = Connection(
    server: S.Server,
    client: C.Client,
    toServer: seq<ClientMessage>,
    toClient: seq<ServerMessage>)

  const Start := Connection(S.Initial, C.Connected, [], [])

  datatype Move =
    | ServerSide(now: int, turn: S.Input)
    | ServerTakes(now: int)
    | ClientSide(action: C.Input)
    | ClientTakes(limited: bool, ok: bool)

  predicate Possible(j: Connection, move: Move) {
    match move
    case ServerSide(_, i) => !i.Receive?
    case ServerTakes(_) => j.toServer != [] && j.server.status.Open?
    case ClientSide(i) => !i.Take? && C.Possible(j.client, i)
    case ClientTakes(_, _) => j.toClient != [] && j.client.ws.Idle? && j.client.unregistering.None?
  }

  /** What was sent from one state of a machine to the next. */
  function Since<T>(before: seq<T>, after: seq<T>): seq<T> {
    if |before| <= |after| then after[|before|..] else []
  }

  function ServerStep(cfg: Config, j: Connection, now: int, input: S.Input): Connection {
    var t := S.Step(cfg, j.server, now, input);
    j.(server := t, toClient := j.toClient + Since(Queued(j.server.hist), Queued(t.hist)))
  }

  function ClientStep(cfg: Config, j: Connection, input: C.Input): Connection
    requires C.Possible(j.client, input) && C.Linked(j.client) && C.AllReady(j.client)
  {
    var t := C.Step(cfg, j.client, input);
    j.(client := t, toServer := j.toServer + Since(j.client.sent, t.sent))
  }

  // ---- the records of the server ----

  lemma {:induction false} AcceptedAbout(hist: seq<Event>, id: nat)
    ensures InOf(hist, id) == Of(Accepted(hist), id)
  {
    if hist != [] {
      var init, e := hist[..|hist| - 1], hist[|hist| - 1];
      AcceptedAbout(init, id);
      if e.In? { assert (Accepted(init) + [e.m])[..|Accepted(init)|] == Accepted(init); }
    }
  }

  lemma {:induction false} QueuedAbout(hist: seq<Event>, id: nat)
    ensures OutOf(hist, id) == C.About(Queued(hist), id)
  {
    if hist != [] {
      var init, e := hist[..|hist| - 1], hist[|hist| - 1];
      QueuedAbout(init, id);
      if e.Out? && !e.s.Close? { assert (Queued(init) + [e.s])[..|Queued(init)|] == Queued(init); }
    }
  }

  lemma {:induction false} AboutConcat(a: seq<ServerMessage>, b: seq<ServerMessage>, id: nat)
    ensures C.About(a + b, id) == C.About(a, id) + C.About(b, id)
  {
    if b == [] {
      assert a + b == a;
    } else {
      assert (a + b)[..|a + b| - 1] == a + b[..|b| - 1];
      AboutConcat(a, b[..|b| - 1], id);
    }
  }

  /** From a to b the server only sent messages, and ended the connection for no reason but a timeout. */
  predicate OwnWords(a: seq<Event>, b: seq<Event>) {
    && a <= b
    && forall i :: |a| <= i < |b| ==> b[i].Out? && (b[i].s.Close? ==> b[i].s.reason.TimedOut?)
  }

  lemma {:induction false} OwnWordsRecord(a: seq<Event>, b: seq<Event>)
    requires OwnWords(a, b)
    ensures Accepted(b) == Accepted(a) && Queued(a) <= Queued(b)
    ensures forall id :: InOf(b, id) == InOf(a, id)
    ensures forall m :: Refused(m) in b <==> Refused(m) in a
    decreases |b|
  {
    if a != b {
      var init := b[..|b| - 1];
      assert b[|b| - 1].Out?;
      OwnWordsRecord(a, init);
      assert b == init + [b[|b| - 1]];
    }
  }

  lemma CloseSpeaks(s: S.Server, id: nat, message: string, now: int, ok: bool)
    ensures OwnWords(s.hist, S.CloseRequest(s, id, message, now, ok).0.hist)
  {}

  lemma {:induction false} SweepSpeaks(cfg: Config, s: S.Server, now: int, order: seq<nat>, lost: set<nat>)
    ensures OwnWords(s.hist, S.Sweep(cfg, s, now, order, lost).hist)
    decreases |order|
  {
    if order != [] {
      var id, rest := order[0], order[1..];
      if id !in s.requests || !S.Expired(cfg, s.requests[id], now) {
        SweepSpeaks(cfg, s, now, rest, lost);
      } else if !s.requests[id].closed {
        if s.requests[id].completed {
          SweepSpeaks(cfg, S.Delete(s, id), now, rest, lost);
        } else {
          CloseSpeaks(s, id, S.TIMEOUT_MESSAGE, now, id !in lost);
          SweepSpeaks(cfg, S.CloseRequest(s, id, S.TIMEOUT_MESSAGE, now, id !in lost).0, now, rest, lost);
        }
      }
    }
  }

  lemma StepSpeaks(cfg: Config, s: S.Server, now: int, input: S.Input)
    requires !input.Receive?
    ensures OwnWords(s.hist, S.Step(cfg, s, now, input).hist)
  {
    if s.status.Open? {
      match input {
        case Forward(path, ok) =>
        case TriggerSuccess(id, ok) =>
        case TriggerClose(id, message, ok) => CloseSpeaks(s, id, message, now, ok);
        case Tick(order, lost) => SweepSpeaks(cfg, s, now, order, lost);
        case Done =>
      }
    }
  }

  // ---- the invariant ----

  /** The message is a CloseResponse for a request that the server has accepted nothing about. */
  predicate Bare(hist: seq<Event>, m: ClientMessage) {
    m.CloseResponse? && InOf(hist, m.requestId) == []
  }

  ghost predicate Refusals(hist: seq<Event>) {
    forall m :: Refused(m) in hist ==> Bare(hist, m)
  }

  ghost predicate Closings(hist: seq<Event>) {
    forall r :: Out(Close(r)) in hist ==> r == TimedOut || (r == InvalidClientMessage && exists m :: Refused(m) in hist)
  }

  /** The invariant of a connection. While the server is open, what it has accepted and what is on
      the way to it is exactly what the client sent, in order. */
  ghost predicate Inv(cfg: Config, j: Connection)
    requires cfg.Valid()
  {
    && ServerInvariant.Inv(cfg, j.server)
    && ClientInvariant.Inv(cfg, j.client)
    && j.client.received + j.toClient == Queued(j.server.hist)
    && Accepted(j.server.hist) <= j.client.sent
    && (j.server.status.Open? ==> Accepted(j.server.hist) + j.toServer == j.client.sent)
    && Refusals(j.server.hist) && Closings(j.server.hist)
  }

  lemma StartInv(cfg: Config)
    requires cfg.Valid()
    ensures Inv(cfg, Start)
  {}

  lemma GoodRecord(cfg: Config, s: S.Server)
    requires cfg.Valid() && ServerInvariant.Inv(cfg, s)
    ensures GoodHistory(cfg, s.hist)
  {}

  // ---- steps of the server on its own ----

  lemma OwnWordsKeep(a: seq<Event>, b: seq<Event>)
    requires OwnWords(a, b) && Refusals(a) && Closings(a)
    ensures Refusals(b) && Closings(b)
  {
    OwnWordsRecord(a, b);
    forall m | Refused(m) in b ensures Bare(b, m) { assert Bare(a, m); }
    forall r | Out(Close(r)) in b ensures r == TimedOut || (r == InvalidClientMessage && exists m :: Refused(m) in b) {
      var i :| 0 <= i < |b| && b[i] == Out(Close(r));
      if i < |a| {
        assert a[i] == b[i];
        if r != TimedOut {
          var m :| Refused(m) in a;
          assert Refused(m) in b;
        }
      }
    }
  }

  lemma ServerSideKeeps(cfg: Config, j: Connection, now: int, turn: S.Input)
    requires cfg.Valid() && Inv(cfg, j) && !turn.Receive?
    ensures Inv(cfg, ServerStep(cfg, j, now, turn))
  {
    ServerRuns.StepKeeps(cfg, j.server, now, turn);
    StepSpeaks(cfg, j.server, now, turn);
    SpokenKeeps(cfg, j, S.Step(cfg, j.server, now, turn));
  }

  lemma SpokenKeeps(cfg: Config, j: Connection, t: S.Server)
    requires cfg.Valid() && Inv(cfg, j) && ServerInvariant.Inv(cfg, t) && OwnWords(j.server.hist, t.hist)
    requires t.status.Open? ==> j.server.status.Open?
    ensures Inv(cfg, j.(server := t, toClient := j.toClient + Since(Queued(j.server.hist), Queued(t.hist))))
  {
    var a := j.server.hist;
    OwnWordsRecord(a, t.hist);
    OwnWordsKeep(a, t.hist);
    assert Queued(a) + Since(Queued(a), Queued(t.hist)) == Queued(t.hist);
  }

  // ---- the server takes a message ----

  /** A message at the head of the queue is either accepted, or is a CloseResponse for a request that
      was still queued in its handler when it was cancelled. */
  lemma HeadAllowed(cfg: Config, j: Connection)
    requires cfg.Valid() && Inv(cfg, j) && j.server.status.Open? && j.toServer != []
    ensures var m, hist := j.toServer[0], j.server.hist;
            && OutOf(hist, m.Id()) != []
            && (MayFollow(cfg, InOf(hist, m.Id()), m) <==> !Bare(hist, m))
  {
    var m, hist, c := j.toServer[0], j.server.hist, j.client;
    var id := m.Id();
    var ins, rest := InOf(hist, id), j.toServer[1..];
    AcceptedAbout(hist, id);
    QueuedAbout(hist, id);
    AboutConcat(c.received, j.toClient, id);
    SplitSent(Accepted(hist), j.toServer, c.sent, id);
    HeadAnswer(cfg, c, id, ins, m, Of(rest, id));
  }

  /** Where the next message of a request stands among all that was sent about it. */
  lemma SplitSent(a: seq<ClientMessage>, b: seq<ClientMessage>, sent: seq<ClientMessage>, id: nat)
    requires sent == a + b && b != [] && b[0].Id() == id
    ensures Of(sent, id) == Of(a, id) + [b[0]] + Of(b[1..], id)
  {
    assert sent == (a + [b[0]]) + b[1..];
    assert (a + [b[0]])[..|a|] == a;
    OfConcat(a + [b[0]], b[1..], id);
  }

  lemma HeadAnswer(cfg: Config, c: C.Client, id: nat, ins: seq<ClientMessage>, m: ClientMessage, rest: seq<ClientMessage>)
    requires cfg.Valid() && ClientInvariant.Inv(cfg, c) && m.Id() == id && Of(c.sent, id) == ins + [m] + rest
    ensures MayFollow(cfg, ins, m) <==> !(m.CloseResponse? && ins == [])
    ensures C.About(c.received, id) != []
  {
    var ms := Of(c.sent, id);
    assert ClientInvariant.AnswerOk(c, id);
    assert ms[..|ins|] == ins && ms[|ins|] == m;
    if id in c.owner {
      var h := c.handlers[c.owner[id]];
      assert ClientHandlers.HandlerOk(cfg, h);
      assert DroppedOnce(h, id);
      var form := FormOf(h, id);
      FormAllows(cfg, h.content, id, ms, form, |ins|);
    }
  }


  lemma BareOutcome(cfg: Config, s: S.Server, now: int, m: ClientMessage)
    requires cfg.Valid() && ServerInvariant.Inv(cfg, s) && s.status.Open?
    requires OutOf(s.hist, m.Id()) != [] && Bare(s.hist, m)
    ensures var t := S.Step(cfg, s, now, S.Receive(m));
            t.status.Ended? && t.hist == s.hist + [Refused(m), Out(Close(InvalidClientMessage))]
  {
    var id := m.requestId;
    assert id in s.gone ==> ServerInvariant.Dead(cfg, id, s.gone[id], InOf(s.hist, id), OutOf(s.hist, id), true);
    assert !ServerInvariant.Fresh(s, id);
    assert ServerInvariant.Live(cfg, id, s.requests[id], InOf(s.hist, id), OutOf(s.hist, id));
  }

  /** While the server is open it accepts every message of the client, except a bare CloseResponse,
      which it answers with Close(InvalidClientMessage). */
  lemma TakesAllButBare(cfg: Config, j: Connection, now: int)
    requires cfg.Valid() && Inv(cfg, j) && j.server.status.Open? && j.toServer != []
    ensures var m, s := j.toServer[0], j.server;
            var t := S.Step(cfg, s, now, S.Receive(m));
            && (t.status.Open? <==> !Bare(s.hist, m))
            && (!Bare(s.hist, m) ==> t.hist == s.hist + [In(m)])
            && (Bare(s.hist, m) ==> t.hist == s.hist + [Refused(m), Out(Close(InvalidClientMessage))])
  {
    var m, s := j.toServer[0], j.server;
    HeadAllowed(cfg, j);
    ServerTheorems.AcceptedWhenAllowed(cfg, s, now, m);
    if Bare(s.hist, m) { BareOutcome(cfg, s, now, m); }
  }


  lemma AcceptedRecord(hist: seq<Event>, m: ClientMessage)
    requires Refusals(hist) && Closings(hist)
    requires forall k :: Refused(k) !in hist
    ensures var t := hist + [In(m)];
            Accepted(t) == Accepted(hist) + [m] && Queued(t) == Queued(hist) && Refusals(t) && Closings(t)
  {}

  lemma RefusedRecord(hist: seq<Event>, m: ClientMessage)
    requires Closings(hist) && Bare(hist, m)
    requires forall k :: Refused(k) !in hist
    ensures var t := hist + [Refused(m), Out(Close(InvalidClientMessage))];
            Accepted(t) == Accepted(hist) && Queued(t) == Queued(hist) && Refusals(t) && Closings(t)
  {
    var u, t := hist + [Refused(m)], hist + [Refused(m), Out(Close(InvalidClientMessage))];
    assert u[..|hist|] == hist && t[..|u|] == u;
    forall k | Refused(k) in t ensures Bare(t, k) { assert Refused(k) !in hist; }
    assert Refused(m) in t;
    forall r | Out(Close(r)) in t ensures r == TimedOut || (r == InvalidClientMessage && exists k :: Refused(k) in t) {
      assert Out(Close(r)) in hist || r == InvalidClientMessage;
    }
  }

  /** An open server has refused nothing. */
  lemma {:induction false} NothingRefused(cfg: Config, hist: seq<Event>)
    requires cfg.Valid() && GoodHistory(cfg, hist) && ServerInvariant.NoClose(hist)
    ensures forall k :: Refused(k) !in hist
  {
    if hist != [] {
      var init, e := hist[..|hist| - 1], hist[|hist| - 1];
      NothingRefused(cfg, init);
      assert hist == init + [e];
    }
  }

  lemma ServerTakesKeeps(cfg: Config, j: Connection, now: int)
    requires cfg.Valid() && Inv(cfg, j) && j.server.status.Open? && j.toServer != []
    ensures Inv(cfg, ServerStep(cfg, j, now, S.Receive(j.toServer[0])).(toServer := j.toServer[1..]))
  {
    var m, s := j.toServer[0], j.server;
    var t := S.Step(cfg, s, now, S.Receive(m));
    ServerRuns.StepKeeps(cfg, s, now, S.Receive(m));
    NothingRefused(cfg, s.hist);
    TakesAllButBare(cfg, j, now);
    if Bare(s.hist, m) { RefusedRecord(s.hist, m); } else { AcceptedRecord(s.hist, m); }
    TakenKeeps(cfg, j, t);
  }

  lemma TakenKeeps(cfg: Config, j: Connection, t: S.Server)
    requires cfg.Valid() && Inv(cfg, j) && j.server.status.Open? && j.toServer != []
    requires ServerInvariant.Inv(cfg, t) && Queued(t.hist) == Queued(j.server.hist) && Refusals(t.hist) && Closings(t.hist)
    requires if t.status.Open? then Accepted(t.hist) == Accepted(j.server.hist) + [j.toServer[0]]
             else Accepted(t.hist) in {Accepted(j.server.hist), Accepted(j.server.hist) + [j.toServer[0]]}
    ensures Inv(cfg, j.(server := t, toServer := j.toServer[1..]))
    ensures j.toClient + Since(Queued(j.server.hist), Queued(t.hist)) == j.toClient
  {}

  // ---- steps of the client ----

  lemma SentGrows(cfg: Config, c: C.Client, input: C.Input)
    requires C.Possible(c, input) && C.Linked(c) && C.AllReady(c)
    ensures c.sent <= C.Step(cfg, c, input).sent
    ensures C.Step(cfg, c, input).received == if input.Take? then c.received + [input.m] else c.received
  {
    match input {
      case Take(m, limited, ok) => TakeSends(c, m, limited, ok);
      case ServeThread(i, ok) => ServeSends(c, i, ok);
      case _ =>
    }
  }

  lemma TakeSends(c: C.Client, m: ServerMessage, limited: bool, ok: bool)
    requires C.Linked(c) && !m.Close?
    ensures var t := C.Receive(c, m, limited, ok); c.sent <= t.sent && t.received == c.received + [m]
  {}

  lemma ServeSends(c: C.Client, i: nat, ok: bool)
    requires i < |c.handlers| && H.CanServe(c.handlers[i]) && H.Ready(c.handlers[i])
    ensures var t := C.ServeTurn(c, i, ok); c.sent <= t.sent && t.received == c.received
  {}

  lemma ClientMovedKeeps(cfg: Config, j: Connection, c: C.Client, taken: bool)
    requires cfg.Valid() && Inv(cfg, j) && ClientInvariant.Inv(cfg, c) && j.client.sent <= c.sent
    requires taken ==> j.toClient != []
    requires c.received == if taken then j.client.received + [j.toClient[0]] else j.client.received
    ensures Inv(cfg, j.(client := c, toServer := j.toServer + Since(j.client.sent, c.sent),
                        toClient := if taken then j.toClient[1..] else j.toClient))
  {}

  lemma ClientStepKeeps(cfg: Config, j: Connection, action: C.Input)
    requires cfg.Valid() && Inv(cfg, j) && C.Possible(j.client, action)
    requires action.Take? ==> j.toClient != [] && action.m == j.toClient[0]
    ensures C.Linked(j.client) && C.AllReady(j.client)
    ensures Inv(cfg, ClientStep(cfg, j, action).(toClient := if action.Take? then j.toClient[1..] else j.toClient))
  {
    ClientRuns.StepKeeps(cfg, j.client, action);
    SentGrows(cfg, j.client, action);
    ClientMovedKeeps(cfg, j, C.Step(cfg, j.client, action), action.Take?);
  }

  /** The server's next message is one that the client can expect. */
  lemma HeadLegal(cfg: Config, j: Connection)
    requires cfg.Valid() && Inv(cfg, j) && j.toClient != []
    ensures !j.toClient[0].Close? && C.Legal(C.About(j.client.received, j.toClient[0].id) + [j.toClient[0]])
  {
    var hist, c, m := j.server.hist, j.client, j.toClient[0];
    NoCloseQueued(hist);
    assert Queued(hist)[|c.received|] == m;
    GoodRecord(cfg, j.server);
    HeadAbout(hist, c.received, j.toClient, m.id);
    ServerTheorems.RecordForms(cfg, hist, m.id);
    LegalPrefix(OutOf(hist, m.id), C.About(c.received, m.id) + [m]);
  }

  lemma HeadAbout(hist: seq<Event>, received: seq<ServerMessage>, toClient: seq<ServerMessage>, id: nat)
    requires Queued(hist) == received + toClient && toClient != [] && !toClient[0].Close? && toClient[0].id == id
    ensures C.About(received, id) + [toClient[0]] <= OutOf(hist, id)
  {
    var m, rest := toClient[0], toClient[1..];
    QueuedAbout(hist, id);
    AboutHead(received, m, rest, id);
    assert received + toClient == received + [m] + rest;
  }

  lemma AboutHead(a: seq<ServerMessage>, m: ServerMessage, b: seq<ServerMessage>, id: nat)
    requires !m.Close? && m.id == id
    ensures C.About(a + [m] + b, id) == C.About(a, id) + [m] + C.About(b, id)
  {
    assert (a + [m])[..|a|] == a;
    AboutConcat(a + [m], b, id);
  }

  lemma LegalPrefix(whole: seq<ServerMessage>, part: seq<ServerMessage>)
    requires part <= whole && part != [] && exists id :: ServerTheorems.OutboundForm(id, whole)
    ensures C.Legal(part)
  {}

  lemma {:induction false} NoCloseQueued(hist: seq<Event>)
    ensures forall m :: m in Queued(hist) ==> !m.Close?
  {
    if hist != [] { NoCloseQueued(hist[..|hist| - 1]); }
  }

  // ---- runs ----

  /** The move is possible, and the client's machine is in order: in a run the first implies the second. */
  predicate Able(j: Connection, move: Move) {
    && Possible(j, move) && C.Linked(j.client) && C.AllReady(j.client)
    && (move.ClientTakes? ==> C.Possible(j.client, C.Take(j.toClient[0], move.limited, move.ok)))
  }

  function Effect(cfg: Config, j: Connection, move: Move): Connection
    requires Able(j, move)
  {
    match move
    case ServerSide(now, turn) => ServerStep(cfg, j, now, turn)
    case ServerTakes(now) => ServerStep(cfg, j, now, S.Receive(j.toServer[0])).(toServer := j.toServer[1..])
    case ClientSide(action) => ClientStep(cfg, j, action)
    case ClientTakes(limited, ok) => ClientStep(cfg, j, C.Take(j.toClient[0], limited, ok)).(toClient := j.toClient[1..])
  }

  lemma EffectKeeps(cfg: Config, j: Connection, move: Move)
    requires cfg.Valid() && Inv(cfg, j) && Possible(j, move)
    ensures Able(j, move) && Inv(cfg, Effect(cfg, j, move))
  {
    ClientInvariant.InvLinked(cfg, j.client);
    match move {
      case ServerSide(now, turn) => ServerSideKeeps(cfg, j, now, turn);
      case ServerTakes(now) => ServerTakesKeeps(cfg, j, now);
      case ClientSide(action) => ClientStepKeeps(cfg, j, action);
      case ClientTakes(limited, ok) =>
        HeadLegal(cfg, j);
        ClientStepKeeps(cfg, j, C.Take(j.toClient[0], limited, ok));
    }
  }

  /** The state after any sequence of moves; one that is not possible when its turn comes is skipped. */
  function Run(cfg: Config, moves: seq<Move>): Connection {
    if moves == [] then Start
    else
      var before, move := Run(cfg, moves[..|moves| - 1]), moves[|moves| - 1];
      if Able(before, move) then Effect(cfg, before, move) else before
  }

  /** Every run keeps the invariant, and no possible move finds a machine out of order. */
  lemma {:induction false} RunKeeps(cfg: Config, moves: seq<Move>)
    requires cfg.Valid()
    ensures Inv(cfg, Run(cfg, moves))
    ensures forall move :: Possible(Run(cfg, moves), move) ==> Able(Run(cfg, moves), move)
  {
    if moves == [] {
      StartInv(cfg);
    } else {
      var before, move := Run(cfg, moves[..|moves| - 1]), moves[|moves| - 1];
      RunKeeps(cfg, moves[..|moves| - 1]);
      if Able(before, move) { EffectKeeps(cfg, before, move); }
    }
    var j := Run(cfg, moves);
    forall move | Possible(j, move) ensures Able(j, move) { EffectKeeps(cfg, j, move); }
  }
}
