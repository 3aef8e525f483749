/** Why a response is cut short: the server closed the request, or the content was unregistered. */
module ClientClosing {
  import opened Wire
  import opened Handler
  import HandlerRuns
  import opened HandlerSteps
  import opened Client
  import C = Client
  import opened ClientHandlers
  import opened ClientInvariant
  import ClientRuns

  // ---- one handler ----

  /** The requests whose responses were closed before their end. */
  function ClosedIn(blocks: seq<Block>): set<nat> {
    set b | b in blocks && b.closed :: b.id
  }

  /** The response was cut short, or is going to be. */
  predicate Cancelled(h: Handler, id: nat) {
    (h.cancel && h.handling == Some(id)) || id in ClosedIn(h.past)
  }

  predicate NoMoreCancelled(h: Handler, t: Handler) {
    && (t.cancel && t.handling.Some? ==> h.cancel && t.handling == h.handling)
    && (forall id :: id in ClosedIn(t.past) ==> Cancelled(h, id))
  }

  lemma ClosedOneMore(past: seq<Block>, b: Block)
    ensures ClosedIn(past + [b]) == ClosedIn(past) + if b.closed then {b.id} else {}
  {
    assert forall x :: x in past + [b] <==> x in past || x == b;
  }

  /** The serve loop closes no response that was not cancelled, and cancels none. */
  lemma ServeCloses(h: Handler, ok: bool)
    requires CanServe(h) && HandlerRuns.Inv(h) && Ready(h)
    ensures NoMoreCancelled(h, ServeStep(h, ok))
  {
    if h.pc.Waiting? {
      WaitingOutcome(h, ok);
    } else {
      ServeOutcome(h, ok);
      OutcomeCloses(h, ServeStep(h, ok));
    }
  }

  lemma OutcomeCloses(h: Handler, t: Handler)
    requires Serving(h) && Outcome(h, t) && !h.current.value.closed
    ensures NoMoreCancelled(h, t)
  {
    ClosedOneMore(h.past, h.current.value);
    ClosedOneMore(h.past, h.current.value.(closed := true));
  }

  // ---- the client ----

  /** A response that is cut short belongs to a request that the server closed, or to a handler that
      was asked to stop. */
  predicate Explained(c: Client, i: nat, id: nat)
    requires i < |c.handlers|
  {
    Cancelled(c.handlers[i], id) ==> GotClosed(c, id) || c.handlers[i].stop
  }

  ghost predicate ClosingOk(c: Client) {
    forall i, id :: 0 <= i < |c.handlers| ==> Explained(c, i, id)
  }

  /** A request that was closed stays so: nothing legal can follow. */
  lemma ClosedStays(c: Client, m: ServerMessage, id: nat)
    requires !m.Close? && Legal(About(c.received, m.id) + [m]) && GotClosed(c, id)
    ensures GotClosed(c.(received := c.received + [m]), id)
  {
    ClientRuns.OneMoreReceived(c, m);
  }

  /** One handler moves on, and cancels nothing new. */
  lemma MovedExplained(c: Client, t: Client, i: nat, h: Handler)
    requires ClosingOk(c) && i < |c.handlers| && t.handlers == c.handlers[i := h] && t.received == c.received
    requires h.stop || (NoMoreCancelled(c.handlers[i], h) && !c.handlers[i].stop)
    ensures ClosingOk(t)
  {
    forall k, id | 0 <= k < |t.handlers| ensures Explained(t, k, id) {
      assert Explained(c, k, id);
    }
  }

  lemma SameExplained(c: Client, t: Client)
    requires ClosingOk(c) && t.handlers == c.handlers && t.received == c.received
    ensures ClosingOk(t)
  {
    forall k, id | 0 <= k < |t.handlers| ensures Explained(t, k, id) { assert Explained(c, k, id); }
  }

  lemma ServeExplained(cfg: Config, c: Client, i: nat, ok: bool)
    requires Inv(cfg, c) && ClosingOk(c) && i < |c.handlers| && CanServe(c.handlers[i]) && Ready(c.handlers[i])
    ensures ClosingOk(ServeTurn(c, i, ok))
  {
    var h := c.handlers[i];
    assert HandlerOk(cfg, h);
    ServeCloses(h, ok);
    MovedExplained(c, ServeTurn(c, i, ok), i, ServeStep(h, ok));
  }

  lemma UnregisterExplained(c: Client, path: string)
    requires ClosingOk(c) && Linked(c)
    ensures ClosingOk(Unregister(c, path))
  {
    var t := Unregister(c, path);
    if t.handlers != c.handlers {
      var i := c.content[path];
      MovedExplained(c, t, i, RequestExit(c.handlers[i]));
    } else {
      SameExplained(c, t);
    }
  }

  lemma ReceivedExplained(c: Client, m: ServerMessage)
    requires ClosingOk(c) && !m.Close? && Legal(About(c.received, m.id) + [m])
    ensures ClosingOk(c.(received := c.received + [m]))
  {
    var t := c.(received := c.received + [m]);
    forall i, id | 0 <= i < |t.handlers| ensures Explained(t, i, id) {
      assert Explained(c, i, id);
      if GotClosed(c, id) { ClosedStays(c, m, id); }
    }
  }

  lemma RequestExplained(c: Client, id: nat, path: string, limited: bool)
    requires ClosingOk(c) && Linked(c)
    ensures ClosingOk(OnRequest(c, id, path, limited))
  {
    var t := OnRequest(c, id, path, limited);
    if t.handlers != c.handlers {
      var i := c.content[path];
      MovedExplained(c, t, i, Enqueue(c.handlers[i], id));
    } else {
      SameExplained(c, t);
    }
  }

  lemma ClosedExplained(c: Client, id: nat, ok: bool)
    requires ClosingOk(c) && Linked(c) && GotClosed(c, id)
    ensures ClosingOk(OnRequestClosed(c, id, ok))
  {
    var t := OnRequestClosed(c, id, ok);
    if id in c.requests {
      var i := c.requests[id].handler;
      CancelShape(c.handlers[i], id, ok);
      forall k, x | 0 <= k < |t.handlers| ensures Explained(t, k, x) {
        assert Explained(c, k, x);
      }
    }
  }

  lemma TakeExplained(cfg: Config, c: Client, m: ServerMessage, limited: bool, ok: bool)
    requires Linked(c) && ClosingOk(c) && !m.Close? && Legal(About(c.received, m.id) + [m])
    ensures ClosingOk(Receive(c, m, limited, ok))
  {
    var c1 := c.(received := c.received + [m]);
    ReceivedExplained(c, m);
    match m {
      case RequestMsg(id, path) => RequestExplained(c1, id, path, limited);
      case Success(id) => SameExplained(c1, OnSuccess(c1, id));
      case RequestClosed(id, _) =>
        NowClosed(c, m);
        ClosedExplained(c1, id, ok);
    }
  }

  lemma NowClosed(c: Client, m: ServerMessage)
    requires m.RequestClosed? && Legal(About(c.received, m.id) + [m])
    ensures GotClosed(c.(received := c.received + [m]), m.id)
  {
    ClientRuns.OneMoreReceived(c, m);
    var ms := About(c.received, m.id);
    assert (ms + [m])[|ms|] == m;
  }

  /** Every step of a client connection keeps this. */
  lemma StepExplained(cfg: Config, c: Client, input: C.Input)
    requires cfg.Valid() && Inv(cfg, c) && ClosingOk(c) && Possible(c, input) && Linked(c) && AllReady(c)
    ensures ClosingOk(C.Step(cfg, c, input))
  {
    match input {
      case RegisterContent(path, content) =>
        var t := Register(cfg, c, path, content);
        forall k, x | 0 <= k < |t.handlers| ensures Explained(t, k, x) {
          if k < |c.handlers| { assert Explained(c, k, x); }
        }
      case UnregisterContent(path) => UnregisterExplained(c, path);
      case ServeThread(i, ok) => ServeExplained(cfg, c, i, ok);
      case Take(m, limited, ok) => TakeExplained(cfg, c, m, limited, ok);
      case FinishUnregister => SameExplained(c, Unregistered(c));
      case SendEmpty(ok) => SameExplained(c, Reply(c, ok));
    }
  }
}
