/** The client of client/src/client.cpp with its tables updated in place. Each method is one critical
    section; what it does to the handlers is done by their own methods. */
module ClientObject {
  import opened Wire
  import H = Handler
  import C = Client
  import O = HandlerObject
  import L = RequestLimit

  /** What the client knows about its connection. */
  datatype Link = Link(started: bool, connecting: bool, connected: bool, hello: bool) {
    predicate Ready() { started && connected && hello }

    predicate Pending() { connecting && !connected }
  }

  /** How waiting for the connection ends. */
  datatype Wait = Ready | NotStarted | NotConnected | NoHello

  /** How registering content ends: with a handle or with one of the exceptions. */
  datatype Registration = Registered | MalformedContent | PathAlreadyRegistered | NoConnection(wait: Wait) | UnacceptableContent

  class ClientImpl {
    const cfg: Config
    const limiter: L.Limiter
    var handlers: seq<O.RequestHandler>
    var content: map<string, nat>
    var requests: map<nat, C.Entry>
    var ws: C.Websocket
    var unregistering: Option<string>
    const automaticIdling: bool
    var trackIdling: Option<bool>
    ghost var received: seq<ServerMessage>
    ghost var sent: seq<ClientMessage>
    ghost var owner: map<nat, nat>
    ghost var absent: set<nat>
    ghost var called: set<nat>
    ghost var served: seq<nat>
    ghost var faults: set<C.Fault>

    predicate Valid()
      reads this, handlers
    {
      && (forall i :: 0 <= i < |handlers| ==> handlers[i].running)
      && (forall i, j :: 0 <= i < j < |handlers| ==> handlers[i] != handlers[j])
      && (forall p :: p in content ==> content[p] < |handlers|)
      && (forall id :: id in requests ==> requests[id].handler < |handlers|)
    }

    ghost function HandlerValues(): (hs: seq<H.Handler>)
      reads this, handlers
      ensures |hs| == |handlers| && forall i :: 0 <= i < |hs| ==> hs[i] == handlers[i].Value()
    {
      seq(|handlers|, i requires 0 <= i < |handlers| reads this, handlers => handlers[i].Value())
    }

    ghost function Value(): C.Client
      reads this, handlers
    {
      C.Client(HandlerValues(), content, requests, ws, unregistering, received, sent, owner, absent, called, served, faults)
    }

    constructor (cfg: Config, limits: L.Options, automaticIdling: bool)
      ensures Valid() && Value() == C.Connected && this.cfg == cfg
      ensures this.automaticIdling == automaticIdling && trackIdling == None
      ensures fresh(limiter) && limiter.Valid() && limiter.opts == limits && limiter.reqs == []
    {
      this.cfg, this.automaticIdling, trackIdling := cfg, automaticIdling, None;
      limiter := new L.Limiter(limits);
      handlers, content, requests, ws, unregistering := [], map[], map[], C.Idle, None;
      received, sent, owner, absent, called, served, faults := [], [], map[], {}, {}, [], {};
    }

    /** wait_until_ready. The two waits end with the connection as it is then: the first one waits for
        the connection to be opened or given up, the second one for the Hello. */
    method WaitUntilReady(link: Link, first: Link, second: Link) returns (w: Wait)
      ensures w.NotStarted? <==> !link.started
      ensures link.started ==> (w.Ready? <==> link.Ready() || (!first.Pending() && second.connected && second.hello))
      ensures link.started ==> (w.NoHello? <==> !link.Ready() && !first.Pending() && second.connected && !second.hello)
    {
      if link.Ready() { return Ready; }
      if !link.started { return NotStarted; }
      if first.Pending() { return NotConnected; }
      if !second.connected { return NotConnected; }
      if !second.hello { return NoHello; }
      return Ready;
    }

    method SetIdle(state: bool)
      requires Valid()
      modifies this`trackIdling
      ensures Valid() && Value() == old(Value()) && trackIdling == Some(state)
    {
      trackIdling := Some(state);
      assert HandlerValues() == old(HandlerValues());
    }

    /** `wait` tells how the wait for the connection ended, while nobody else registered content. */
    method RegisterContent(path: string, source: H.Content, wait: Wait) returns (r: Registration)
      requires Valid() && cfg.Valid()
      modifies this
      ensures Valid()
      ensures Value() == if wait.Ready? then C.Register(cfg, old(Value()), path, source) else old(Value())
      ensures r.Registered? <==> wait.Ready? && path !in old(content) && C.Acceptable(cfg, source)
      ensures r.MalformedContent? <==> source.data == []
      ensures r.PathAlreadyRegistered? <==> source.data != [] && path in old(content)
      ensures r.NoConnection? <==> source.data != [] && path !in old(content) && !wait.Ready?
      ensures r.NoConnection? ==> r.wait == wait
      ensures trackIdling == if source.data == [] then old(trackIdling) else Some(content == map[])
    {
      if |source.data| == 0 {
        return MalformedContent;
      }
      SetIdle(false);
      r := Place(path, source, wait);
      SetIdle(content == map[]);
    }

    /** Registering content that is not empty, apart from idling. */
    method Place(path: string, source: H.Content, wait: Wait) returns (r: Registration)
      requires Valid() && cfg.Valid() && source.data != []
      modifies this`handlers, this`content
      ensures Valid()
      ensures Value() == if wait.Ready? then C.Register(cfg, old(Value()), path, source) else old(Value())
      ensures r == if path in old(content) then PathAlreadyRegistered else if !wait.Ready? then NoConnection(wait)
                   else if C.Acceptable(cfg, source) then Registered else UnacceptableContent
    {
      if path in content {
        return PathAlreadyRegistered;
      }
      if !wait.Ready? {
        return NoConnection(wait);
      }
      var ok := CheckContentConstraints(source);
      if !ok {
        return UnacceptableContent;
      }
      Spawn(path, source);
      return Registered;
    }

    /** A new handler, with its serve thread, under a free path. */
    method Spawn(path: string, source: H.Content)
      requires Valid() && path !in content && C.Acceptable(cfg, source)
      modifies this`handlers, this`content
      ensures Valid() && path in content && Value() == C.Register(cfg, old(Value()), path, source)
    {
      ghost var before := HandlerValues();
      var h := new O.RequestHandler(source, cfg.chunkSize);
      var thrown := h.SpawnServeThread();
      assert !thrown;
      content := content[path := |handlers|];
      handlers := handlers + [h];
      assert HandlerValues() == before + [h.Value()];
    }

    method CheckContentConstraints(source: H.Content) returns (ok: bool)
      ensures source.data != [] ==> (ok <==> C.Acceptable(cfg, source))
    {
      if |source.data| > cfg.maxContentSize { return false; }
      if MediaType(source.contentType) !in cfg.contentTypes { return false; }
      if source.filename.Some? && |source.filename.value| == 0 { return false; }
      return true;
    }

    /** Only handler i has changed. */
    twostate lemma OnlyOne(i: nat)
      requires old(Valid()) && handlers == old(handlers) && i < |handlers|
      requires forall k :: 0 <= k < |handlers| && k != i ==> handlers[k].Value() == old(handlers[k].Value())
      ensures HandlerValues() == old(HandlerValues())[i := handlers[i].Value()]
    {}

    /** The end of a call that unregisters content. */
    method IdleIfEmpty()
      requires Valid()
      modifies this`trackIdling
      ensures Valid() && Value() == old(Value())
      ensures trackIdling == if content == map[] && automaticIdling then Some(true) else old(trackIdling)
    {
      if content == map[] && automaticIdling {
        SetIdle(true);
      }
    }

    /** The caller then waits, with the mutex held, until the handler is done. */
    method UnregisterContent(path: string)
      requires Valid() && C.Linked(Value()) && unregistering.None?
      modifies this`unregistering, this`sent, this`faults, this`trackIdling, handlers
      ensures Valid() && Value() == C.Unregister(old(Value()), path)
      ensures trackIdling == if unregistering.None? && content == map[] && automaticIdling then Some(true) else old(trackIdling)
    {
      if path !in content {
        IdleIfEmpty();
        return;
      }
      AskToExit(path, content[path]);
      if unregistering.None? {
        IdleIfEmpty();
      }
    }

    method AskToExit(path: string, i: nat)
      requires Valid() && C.Linked(Value()) && unregistering.None? && path in content && content[path] == i
      modifies this`unregistering, this`sent, this`faults, handlers
      ensures Valid() && Value() == C.Unregister(old(Value()), path)
    {
      var h := handlers[i];
      var thrown := h.RequestExit();
      OnlyOne(i);
      if thrown {
        faults := faults + {C.ExitedTwice(i)};
        return;
      }
      unregistering := Some(path);
      assert sent == old(sent) + C.News(old(h.Value()), h.Value());
    }

    method FinishUnregister()
      requires Valid() && unregistering.Some?
      modifies this`content, this`unregistering, this`trackIdling
      ensures Valid() && Value() == C.Unregistered(old(Value()))
      ensures trackIdling == if content == map[] && automaticIdling then Some(true) else old(trackIdling)
    {
      content := content - {unregistering.value};
      unregistering := None;
      IdleIfEmpty();
    }

    /** The two reports that a response was sent and that the server confirmed it: the second of them
        runs the served callback. */
    method CallServedCallback(id: nat)
      requires Valid() && id in requests
      modifies this`requests, this`served
      ensures Valid() && Value() == C.CallServed(old(Value()), id)
    {
      if !requests[id].once {
        requests := requests[id := requests[id].(once := true)];
        return;
      }
      served := served + [id];
      requests := requests - {id};
    }

    method ResponseSent(id: nat)
      requires Valid()
      modifies this`requests, this`served, this`called, this`faults
      ensures Valid() && Value() == C.ResponseSent(old(Value()), id)
    {
      called := called + {id};
      if id !in requests {
        faults := faults + {C.UnknownCallback(id)};
        return;
      }
      CallServedCallback(id);
    }

    method OnSuccess(id: nat)
      requires Valid()
      modifies this`requests, this`served, this`faults
      ensures Valid() && Value() == C.OnSuccess(old(Value()), id)
    {
      if id !in requests {
        faults := faults + {C.UnknownSuccess(id)};
        return;
      }
      CallServedCallback(id);
    }

    /** What the limiter has to say about a request for this path: the same content is asked for too
        soon, or there were too many requests for nothing. */
    ghost predicate TooMany(path: string, now: int)
      reads this, limiter
    {
      L.Limited(limiter.opts, limiter.reqs, Asked(path, now))
    }

    function Asked(path: string, now: int): L.Request
      reads this
    {
      L.Request(now, if path in content then Some(content[path]) else None)
    }

    ghost predicate ClockGoesOn(now: int)
      reads limiter
    {
      limiter.reqs != [] ==> limiter.reqs[|limiter.reqs| - 1].at <= now
    }

    method OnRequest(id: nat, path: string, now: int) returns (restart: bool)
      requires Valid() && C.Linked(Value()) && limiter.Valid() && ClockGoesOn(now)
      modifies this`requests, this`ws, this`owner, this`absent, this`faults, this`sent, handlers, limiter
      ensures Valid() && Value() == C.OnRequest(old(Value()), id, path, old(TooMany(path, now)))
      ensures restart <==> id in old(requests) || old(TooMany(path, now))
      ensures limiter.Valid() && limiter.reqs == old(limiter.reqs) + if id in old(requests) then [] else [old(Asked(path, now))]
    {
      if id in requests {
        faults := faults + {C.IdInUse(id)};
        return true;
      }
      restart := limiter.Check(Asked(path, now));
      assert HandlerValues() == old(HandlerValues());
      if restart {
        return;
      }
      if path !in content {
        ws, absent := C.Replying(id), absent + {id};
        return;
      }
      HandOver(id, content[path]);
    }

    method HandOver(id: nat, i: nat)
      requires Valid() && i < |handlers|
      modifies this`requests, this`owner, handlers
      ensures Valid() && handlers == old(handlers)
      ensures Value() == C.Replace(old(Value()), i, H.Enqueue(old(handlers[i].Value()), id)).(
                           requests := old(requests)[id := C.Entry(i, false)], owner := old(owner)[id := i])
    {
      requests := requests[id := C.Entry(i, false)];
      owner := owner[id := i];
      var h := handlers[i];
      h.ServeRequest(id);
      OnlyOne(i);
      assert sent == old(sent) + C.News(old(h.Value()), h.Value());
    }

    method OnRequestClosed(id: nat, ok: bool)
      requires Valid() && C.Linked(Value())
      modifies this`requests, this`sent, handlers
      ensures Valid() && Value() == C.OnRequestClosed(old(Value()), id, ok)
    {
      if id !in requests {
        return;
      }
      var i := requests[id].handler;
      var h := handlers[i];
      h.CancelRequest(id, ok);
      OnlyOne(i);
      sent := sent + C.News(old(h.Value()), h.Value());
      requests := requests - {id};
    }

    ghost method Record(m: ServerMessage)
      requires Valid()
      modifies this`received
      ensures Valid() && Value() == old(Value()).(received := old(received) + [m])
    {
      received := received + [m];
      assert HandlerValues() == old(HandlerValues());
    }

    /** handle_message, for everything but Hello and Close. */
    method Receive(m: ServerMessage, now: int, ok: bool) returns (restart: bool)
      requires Valid() && C.Linked(Value()) && !m.Close? && limiter.Valid() && ClockGoesOn(now)
      modifies this, handlers, limiter
      ensures Valid() && limiter.Valid()
      ensures Value() == C.Receive(old(Value()), m, m.RequestMsg? && old(TooMany(m.path, now)), ok)
      ensures restart <==> m.RequestMsg? && (m.id in old(requests) || old(TooMany(m.path, now)))
    {
      Record(m);
      restart := false;
      match m
      case RequestMsg(id, path) => restart := OnRequest(id, path, now);
      case Success(id) => OnSuccess(id);
      case RequestClosed(id, _) => OnRequestClosed(id, ok);
    }

    /** The send of an empty response, with the client mutex released. */
    method SendEmpty(ok: bool)
      requires Valid() && ws.Replying?
      modifies this`ws, this`sent
      ensures Valid() && Value() == C.Reply(old(Value()), ok)
    {
      if ok { sent := sent + [EmptyResponse(ws.id)]; }
      ws := C.Idle;
    }

    method Advance(i: nat, ok: bool)
      requires Valid() && i < |handlers| && H.CanServe(handlers[i].Value()) && H.Ready(handlers[i].Value())
      modifies this`sent, handlers
      ensures Valid() && handlers == old(handlers)
      ensures Value() == C.Replace(old(Value()), i, H.ServeStep(old(handlers[i].Value()), ok))
    {
      var h := handlers[i];
      h.ServeStep(ok);
      OnlyOne(i);
      sent := sent + C.News(old(h.Value()), h.Value());
      assert HandlerValues() == old(HandlerValues())[i := H.ServeStep(old(h.Value()), ok)];
    }

    /** One step of a serve thread, which calls back when a response was sent. */
    method ServeTurn(i: nat, ok: bool)
      requires Valid() && i < |handlers| && H.CanServe(handlers[i].Value()) && H.Ready(handlers[i].Value())
      modifies this`requests, this`served, this`called, this`faults, this`sent, handlers
      ensures Valid() && Value() == C.ServeTurn(old(Value()), i, ok)
    {
      var reports := handlers[i].pc.Callback?;
      var id := if reports then handlers[i].handling.value else 0;
      Advance(i, ok);
      if reports {
        ResponseSent(id);
      }
    }
  }
}
