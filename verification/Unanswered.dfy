/** Exactly which requests the client leaves unanswered, as long as its sends succeed: those that are
    still queued when their handler exits. */
module Unanswered {
  import opened Wire
  import opened History
  import S = Server
  import ServerInvariant
  import H = Handler
  import HandlerTheorems
  import C = Client
  import ClientHandlers
  import ClientInvariant
  import opened Connection
  import opened ConnectionTheorems
  import Completion
  import opened Abandoned

  // ---- while sends succeed ----

  /** A send of handler i in this move succeeds. */
  predicate Delivered(move: Move, i: nat) {
    match move
    case ClientSide(ServeThread(k, ok)) => k == i ==> ok
    case ClientTakes(_, ok) => ok
    case _ => true
  }

  predicate AllDelivered(moves: seq<Move>, i: nat) {
    forall k :: 0 <= k < |moves| ==> Delivered(moves[k], i)
  }

  /** A handler is asked to exit by unregistering its content, and nothing else arrives meanwhile. */
  predicate StopsRegistered(c: C.Client) {
    forall p :: p in c.content ==> c.content[p] < |c.handlers| && (c.handlers[c.content[p]].stop ==> c.unregistering == Some(p))
  }

  /** How handler i stands while its sends succeed: every request that it was given was enqueued. */
  predicate WellServed(c: C.Client, i: nat, id: nat) {
    && (i < |c.handlers| ==> HandlerTheorems.Smooth(c.handlers[i]) && HandlerTheorems.DropIsClosed(c.handlers[i], id))
    && (id in c.owner && c.owner[id] == i ==> i < |c.handlers| && id in c.handlers[i].enqueued)
  }

  lemma EnqueuedStays(h: H.Handler, x: H.Input, id: nat)
    requires H.Enabled(h, x) && H.Ready(h) && id in h.enqueued
    ensures id in H.Step(h, x).enqueued
  {}

  lemma SameStop(h: H.Handler, x: H.Input)
    requires H.Enabled(h, x) && H.Ready(h) && !x.GracefulExit?
    ensures H.Step(h, x).stop == h.stop
  {}

  lemma ServeFrame(c: C.Client, i: nat, ok: bool)
    requires i < |c.handlers| && H.CanServe(c.handlers[i]) && H.Ready(c.handlers[i])
    ensures var t := C.ServeTurn(c, i, ok);
            t.content == c.content && t.unregistering == c.unregistering && |t.handlers| == |c.handlers| && t.owner == c.owner
  {}

  lemma TakeFrame(c: C.Client, m: ServerMessage, limited: bool, ok: bool)
    requires C.Linked(c) && !m.Close?
    ensures var t := C.Receive(c, m, limited, ok);
            t.content == c.content && t.unregistering == c.unregistering && |t.handlers| == |c.handlers|
  {}

  lemma PlainFrame(cfg: Config, c: C.Client, input: C.Input)
    requires C.Linked(c) && C.AllReady(c) && C.Possible(c, input) && (input.ServeThread? || input.SendEmpty? || input.Take?)
    ensures var t := C.Step(cfg, c, input);
            t.content == c.content && t.unregistering == c.unregistering && |t.handlers| == |c.handlers|
  {
    match input {
      case ServeThread(i, ok) => ServeFrame(c, i, ok);
      case Take(m, limited, ok) => TakeFrame(c, m, limited, ok);
      case _ =>
    }
  }

  lemma SameStops(c: C.Client, t: C.Client)
    requires StopsRegistered(c) && t.content == c.content && t.unregistering == c.unregistering && |t.handlers| == |c.handlers|
    requires forall k :: 0 <= k < |c.handlers| ==> t.handlers[k].stop == c.handlers[k].stop
    ensures StopsRegistered(t)
  {}

  lemma PlainStops(cfg: Config, c: C.Client, input: C.Input)
    requires cfg.Valid() && ClientInvariant.Inv(cfg, c) && C.Linked(c) && C.AllReady(c) && C.Possible(c, input) && StopsRegistered(c)
    requires input.ServeThread? || input.SendEmpty? || input.Take?
    ensures StopsRegistered(C.Step(cfg, c, input))
  {
    var t := C.Step(cfg, c, input);
    PlainFrame(cfg, c, input);
    forall k | 0 <= k < |c.handlers| ensures t.handlers[k].stop == c.handlers[k].stop {
      var step := Completion.StepProjects(cfg, c, input, k);
      if step.Some? { SameStop(c.handlers[k], step.value); }
    }
    SameStops(c, t);
  }

  lemma UnregisterStops(c: C.Client, path: string)
    requires C.Linked(c) && ClientInvariant.ContentOk(c) && StopsRegistered(c) && c.unregistering.None?
    ensures StopsRegistered(C.Unregister(c, path))
  {}

  lemma RegisterStops(cfg: Config, c: C.Client, path: string, content: H.Content)
    requires C.Linked(c) && StopsRegistered(c)
    ensures StopsRegistered(C.Register(cfg, c, path, content))
  {}

  lemma StopsStay(cfg: Config, c: C.Client, input: C.Input)
    requires cfg.Valid() && ClientInvariant.Inv(cfg, c) && C.Linked(c) && C.AllReady(c) && C.Possible(c, input) && StopsRegistered(c)
    ensures StopsRegistered(C.Step(cfg, c, input))
  {
    match input {
      case RegisterContent(path, content) => RegisterStops(cfg, c, path, content);
      case UnregisterContent(path) => UnregisterStops(c, path);
      case FinishUnregister =>
      case _ => PlainStops(cfg, c, input);
    }
  }

  /** Who is given a request in a step: the handler that enqueues it. */
  predicate GivenTo(c: C.Client, input: C.Input, t: C.Client, id: nat)
    requires C.Linked(c)
  {
    || ((id in t.owner <==> id in c.owner) && (id in c.owner ==> t.owner[id] == c.owner[id]))
    || (input.Take? && input.m.RequestMsg? && input.m.id == id && input.m.path in c.content
        && id in t.owner && t.owner[id] == c.content[input.m.path]
        && t.handlers == c.handlers[t.owner[id] := H.Enqueue(c.handlers[t.owner[id]], id)])
  }

  lemma TakeGives(c: C.Client, m: ServerMessage, limited: bool, ok: bool, id: nat)
    requires C.Linked(c) && !m.Close?
    ensures GivenTo(c, C.Take(m, limited, ok), C.Receive(c, m, limited, ok), id)
  {}

  lemma OwnersGrow(cfg: Config, c: C.Client, input: C.Input, id: nat)
    requires C.Linked(c) && C.AllReady(c) && C.Possible(c, input)
    ensures GivenTo(c, input, C.Step(cfg, c, input), id)
  {
    match input {
      case ServeThread(i, ok) => ServeFrame(c, i, ok);
      case Take(m, limited, ok) => TakeGives(c, m, limited, ok, id);
      case _ =>
    }
  }

  /** The handler itself. */
  lemma HandlerServes(cfg: Config, c: C.Client, input: C.Input, i: nat, id: nat)
    requires cfg.Valid() && ClientInvariant.Inv(cfg, c) && C.Linked(c) && C.AllReady(c) && C.Possible(c, input)
    requires i < |c.handlers| && HandlerTheorems.Smooth(c.handlers[i]) && HandlerTheorems.DropIsClosed(c.handlers[i], id)
    requires (input.ServeThread? && input.i == i ==> input.ok) && (input.Take? ==> input.ok)
    ensures var t := C.Step(cfg, c, input);
            && i < |t.handlers| && HandlerTheorems.Smooth(t.handlers[i]) && HandlerTheorems.DropIsClosed(t.handlers[i], id)
            && (id in c.handlers[i].enqueued ==> id in t.handlers[i].enqueued)
  {
    var step := Completion.StepProjects(cfg, c, input, i);
    if step.Some? {
      Completion.HandlerIsOk(cfg, c, i);
      HandlerTheorems.StepSmooth(c.handlers[i], step.value);
      HandlerTheorems.StepDropIsClosed(c.handlers[i], step.value, id);
      if id in c.handlers[i].enqueued { EnqueuedStays(c.handlers[i], step.value, id); }
    }
  }

  lemma OwnerServes(cfg: Config, c: C.Client, input: C.Input, i: nat, id: nat)
    requires cfg.Valid() && ClientInvariant.Inv(cfg, c) && C.Linked(c) && C.AllReady(c) && C.Possible(c, input)
    requires StopsRegistered(c) && WellServed(c, i, id)
    requires (input.ServeThread? && input.i == i ==> input.ok) && (input.Take? ==> input.ok)
    ensures var t := C.Step(cfg, c, input); id in t.owner && t.owner[id] == i ==> i < |t.handlers| && id in t.handlers[i].enqueued
  {
    var t := C.Step(cfg, c, input);
    if id in t.owner && t.owner[id] == i {
      OwnersGrow(cfg, c, input, id);
      if id in c.owner && c.owner[id] == i {
        HandlerServes(cfg, c, input, i, id);
      } else {
        Completion.HandlerIsOk(cfg, c, i);
        assert !c.handlers[i].done;
      }
    }
  }

  lemma StaysWellServed(cfg: Config, c: C.Client, input: C.Input, i: nat, id: nat)
    requires cfg.Valid() && ClientInvariant.Inv(cfg, c) && C.Linked(c) && C.AllReady(c) && C.Possible(c, input)
    requires StopsRegistered(c) && WellServed(c, i, id)
    requires (input.ServeThread? && input.i == i ==> input.ok) && (input.Take? ==> input.ok)
    ensures WellServed(C.Step(cfg, c, input), i, id)
  {
    OwnerServes(cfg, c, input, i, id);
    if i < |c.handlers| {
      HandlerServes(cfg, c, input, i, id);
    } else {
      NewIsSmooth(cfg, c, input, i, id);
    }
  }

  lemma NewIsSmooth(cfg: Config, c: C.Client, input: C.Input, i: nat, id: nat)
    requires C.Linked(c) && C.AllReady(c) && C.Possible(c, input) && i >= |c.handlers|
    ensures var t := C.Step(cfg, c, input);
            i < |t.handlers| ==> HandlerTheorems.Smooth(t.handlers[i]) && HandlerTheorems.DropIsClosed(t.handlers[i], id)
  {
    if !input.RegisterContent? && !input.UnregisterContent? && !input.FinishUnregister? { PlainFrame(cfg, c, input); }
  }

  // ---- runs ----

  ghost predicate Well(j: Connection, i: nat, id: nat) {
    StopsRegistered(j.client) && WellServed(j.client, i, id)
  }

  lemma ClientStaysWell(cfg: Config, c: C.Client, input: C.Input, i: nat, id: nat)
    requires cfg.Valid() && ClientInvariant.Inv(cfg, c) && C.Linked(c) && C.AllReady(c) && C.Possible(c, input)
    requires StopsRegistered(c) && WellServed(c, i, id)
    requires (input.ServeThread? && input.i == i ==> input.ok) && (input.Take? ==> input.ok)
    ensures StopsRegistered(C.Step(cfg, c, input)) && WellServed(C.Step(cfg, c, input), i, id)
  {
    StopsStay(cfg, c, input);
    StaysWellServed(cfg, c, input, i, id);
  }

  lemma MoveStaysWell(cfg: Config, j: Connection, move: Move, i: nat, id: nat)
    requires cfg.Valid() && Inv(cfg, j) && Able(j, move) && Well(j, i, id) && Delivered(move, i)
    ensures Well(Effect(cfg, j, move), i, id)
  {
    match move {
      case ClientSide(action) => ClientStaysWell(cfg, j.client, action, i, id);
      case ClientTakes(limited, ok) => ClientStaysWell(cfg, j.client, C.Take(j.toClient[0], limited, ok), i, id);
      case _ =>
    }
  }

  lemma {:induction false} RunIsWell(cfg: Config, moves: seq<Move>, i: nat, id: nat)
    requires cfg.Valid() && AllDelivered(moves, i)
    ensures Well(Run(cfg, moves), i, id)
  {
    if moves != [] {
      var init, move := moves[..|moves| - 1], moves[|moves| - 1];
      RunIsWell(cfg, init, i, id);
      RunKeeps(cfg, init);
      if Able(Run(cfg, init), move) { MoveStaysWell(cfg, Run(cfg, init), move, i, id); }
    }
  }

  /** What was sent about a request whose handler is done. */
  lemma AnsweredUnlessLeft(cfg: Config, j: Connection, i: nat, id: nat) returns (form: HandlerTheorems.Form)
    requires cfg.Valid() && Inv(cfg, j) && Well(j, i, id)
    requires i < |j.client.handlers| && j.client.handlers[i].done && id in j.client.owner && j.client.owner[id] == i
    ensures HandlerTheorems.Of(j.client.sent, id) == [] <==> LeftBehind(j.client, i, id)
    ensures |j.client.handlers[i].content.data| < U64
    ensures !LeftBehind(j.client, i, id) ==>
              HandlerTheorems.Concluded(j.client.handlers[i].content, cfg.chunkSize, id, HandlerTheorems.Of(j.client.sent, id), form)
  {
    var h := j.client.handlers[i];
    assert ClientHandlers.HandlerOk(cfg, h);
    assert HandlerTheorems.DroppedOnce(h, id);
    form := HandlerTheorems.WhenDone(h, id);
    assert ClientInvariant.AnswerOk(j.client, id);
  }

  /** In every run in which the sends of handler i succeed: when the handler is done, a request that was
      given to it is never answered if and only if it is left in the queue. Every other one was answered
      to its end. */
  lemma NeverAnsweredExactlyWhenLeft(cfg: Config, moves: seq<Move>, i: nat, id: nat) returns (form: HandlerTheorems.Form)
    requires cfg.Valid() && AllDelivered(moves, i)
    requires var c := Run(cfg, moves).client; i < |c.handlers| && c.handlers[i].done && id in c.owner && c.owner[id] == i
    ensures (forall more :: HandlerTheorems.Of(Run(cfg, moves + more).client.sent, id) == []) <==> LeftBehind(Run(cfg, moves).client, i, id)
    ensures var c := Run(cfg, moves).client;
            && |c.handlers[i].content.data| < U64
            && (!LeftBehind(c, i, id) ==>
                  HandlerTheorems.Concluded(c.handlers[i].content, cfg.chunkSize, id, HandlerTheorems.Of(c.sent, id), form))
  {
    RunKeeps(cfg, moves);
    RunIsWell(cfg, moves, i, id);
    form := AnsweredUnlessLeft(cfg, Run(cfg, moves), i, id);
    if LeftBehind(Run(cfg, moves).client, i, id) {
      forall more ensures HandlerTheorems.Of(Run(cfg, moves + more).client.sent, id) == [] {
        NeverAnswered(cfg, moves, more, i, id);
      }
    } else {
      assert moves + [] == moves;
      assert HandlerTheorems.Of(Run(cfg, moves + []).client.sent, id) != [];
    }
  }

  lemma WaitingInMap(cfg: Config, s: S.Server, id: nat)
    requires cfg.Valid() && ServerInvariant.CoreInv(cfg, s) && OutOf(s.hist, id) != []
    ensures (id in s.requests && s.requests[id].response.None?) <==> InOf(s.hist, id) == []
  {
    if InOf(s.hist, id) == [] {
      StaysInMap(cfg, s, id);
    } else {
      assert id in s.requests ==> ServerInvariant.Live(cfg, id, s.requests[id], InOf(s.hist, id), OutOf(s.hist, id));
    }
  }

  /** And for the server, once it has taken everything: it still waits for a response to the request if
      and only if the request was left in the queue. */
  lemma ServerWaitsExactlyWhenLeft(cfg: Config, moves: seq<Move>, i: nat, id: nat)
    requires cfg.Valid() && AllDelivered(moves, i)
    requires var c := Run(cfg, moves).client; i < |c.handlers| && c.handlers[i].done && id in c.owner && c.owner[id] == i
    requires var j := Run(cfg, moves); j.server.status.Open? && HandlerTheorems.Of(j.toServer, id) == []
    ensures var j := Run(cfg, moves);
            (id in j.server.requests && j.server.requests[id].response.None?) <==> LeftBehind(j.client, i, id)
  {
    var j := Run(cfg, moves);
    RunKeeps(cfg, moves);
    RunIsWell(cfg, moves, i, id);
    var form := AnsweredUnlessLeft(cfg, j, i, id);
    AcceptedIsPrefix(cfg, j, id);
    Completion.SeenFirst(cfg, j, id);
    assert C.About(j.client.received, id) != [];
    WaitingInMap(cfg, j.server, id);
  }
}
