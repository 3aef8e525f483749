/** One connection of the C++ client (client/src/client.cpp), on values: the registered content with
    its request handlers, the table of requests being served, the websocket thread that takes server
    messages, and threads that register and unregister content. */
module Client {
  import opened Wire
  import opened Handler

  /** The websocket thread. It sends an empty response with the client mutex released, but keeps the
      request mutex. */
  datatype Websocket = Idle | Replying(id: nat)

  /** The table entry of a request: its handler, and whether one of "response sent" and "success"
      has been reported. */
  datatype Entry = Entry(handler: nat, once: bool)

  /** Places that the source marks with an assertion, an exception or a protocol error. */
  datatype Fault =
    | IdInUse(id: nat)
    | UnknownCallback(id: nat)
    | UnknownSuccess(id: nat)
    | ExitedTwice(handler: nat)

  /** `handlers` lists all handlers ever spawned; `content` maps a path to the one registered for it.
      From `received` on, the fields record the history: what came in and went out, which handler a
      request was given to, which requests were answered as absent, for which of them the response
      was reported as sent, and for which the served callback ran. */
  datatype Client = Client(
    handlers: seq<Handler>,
    content: map<string, nat>,
    requests: map<nat, Entry>,
    ws: Websocket,
    unregistering: Option<string>,
    received: seq<ServerMessage>,
    sent: seq<ClientMessage>,
    owner: map<nat, nat>,
    absent: set<nat>,
    called: set<nat>,
    served: seq<nat>,
    faults: set<Fault>)

  const Connected := Client([], map[], map[], Idle, None, [], [], map[], {}, {}, [], {})

  /** check_content_constraints, and the rejection of empty content before it. */
  predicate Acceptable(cfg: Config, content: Content) {
    && 0 < |content.data| <= cfg.maxContentSize
    && MediaType(content.contentType) in cfg.contentTypes
    && (content.filename.Some? ==> content.filename.value != [])
  }

  /** Every handler used by this client refers to an existing one. */
  predicate Linked(c: Client) {
    && (forall p :: p in c.content ==> c.content[p] < |c.handlers|)
    && (forall id :: id in c.requests ==> c.requests[id].handler < |c.handlers|)
  }

  /** What a handler sent in its latest step. */
  function News(h: Handler, t: Handler): seq<ClientMessage> {
    if |t.log| > |h.log| then [t.log[|t.log| - 1].m] else []
  }

  function Replace(c: Client, i: nat, t: Handler): Client
    requires i < |c.handlers|
  {
    c.(handlers := c.handlers[i := t], sent := c.sent + News(c.handlers[i], t))
  }

  // ---- registering content ----

  function Register(cfg: Config, c: Client, path: string, content: Content): Client {
    if path in c.content || !Acceptable(cfg, content) then c
    else c.(handlers := c.handlers + [NewHandler(content, cfg.chunkSize)], content := c.content[path := |c.handlers|])
  }

  /** Up to the point where the caller waits, holding the client mutex, for the handler to be done. */
  function Unregister(c: Client, path: string): Client
    requires Linked(c)
  {
    if path !in c.content then c
    else
      var i := c.content[path];
      var h := c.handlers[i];
      if h.stop && !h.done then c.(faults := c.faults + {ExitedTwice(i)})
      else Replace(c, i, RequestExit(h)).(unregistering := Some(path))
  }

  function Unregistered(c: Client): Client
    requires c.unregistering.Some?
  {
    c.(content := c.content - {c.unregistering.value}, unregistering := None)
  }

  // ---- requests ----

  /** call_served_callback: the second of the two reports runs the callback. */
  function CallServed(c: Client, id: nat): Client
    requires id in c.requests
  {
    if c.requests[id].once then c.(requests := c.requests - {id}, served := c.served + [id])
    else c.(requests := c.requests[id := c.requests[id].(once := true)])
  }

  function ResponseSent(c: Client, id: nat): Client {
    var c1 := c.(called := c.called + {id});
    if id !in c.requests then c1.(faults := c.faults + {UnknownCallback(id)}) else CallServed(c1, id)
  }

  /** `limited` is the verdict of the request limiter. */
  function OnRequest(c: Client, id: nat, path: string, limited: bool): Client
    requires Linked(c)
  {
    if id in c.requests then c.(faults := c.faults + {IdInUse(id)})
    else if limited then c
    else if path !in c.content then c.(ws := Replying(id), absent := c.absent + {id})
    else
      var i := c.content[path];
      Replace(c, i, Enqueue(c.handlers[i], id)).(requests := c.requests[id := Entry(i, false)], owner := c.owner[id := i])
  }

  function OnSuccess(c: Client, id: nat): Client {
    if id !in c.requests then c.(faults := c.faults + {UnknownSuccess(id)}) else CallServed(c, id)
  }

  function OnRequestClosed(c: Client, id: nat, ok: bool): Client
    requires Linked(c)
  {
    if id !in c.requests then c
    else
      var i := c.requests[id].handler;
      Replace(c, i, CancelRequest(c.handlers[i], id, ok)).(requests := c.requests - {id})
  }

  function Receive(c: Client, m: ServerMessage, limited: bool, ok: bool): Client
    requires Linked(c) && !m.Close?
  {
    var c1 := c.(received := c.received + [m]);
    match m
    case RequestMsg(id, path) => OnRequest(c1, id, path, limited)
    case Success(id) => OnSuccess(c1, id)
    case RequestClosed(id, _) => OnRequestClosed(c1, id, ok)
  }

  // ---- threads ----

  function ServeTurn(c: Client, i: nat, ok: bool): Client
    requires i < |c.handlers| && CanServe(c.handlers[i]) && Ready(c.handlers[i])
  {
    var h := c.handlers[i];
    var c1 := Replace(c, i, ServeStep(h, ok));
    if h.pc.Callback? then ResponseSent(c1, h.handling.value) else c1
  }

  function Reply(c: Client, ok: bool): Client
    requires c.ws.Replying?
  {
    c.(ws := Idle, sent := if ok then c.sent + [EmptyResponse(c.ws.id)] else c.sent)
  }

  datatype Input =
    | RegisterContent(path: string, content: Content)
    | UnregisterContent(path: string)
    | FinishUnregister
    | ServeThread(i: nat, ok: bool)
    | SendEmpty(ok: bool)
    | Take(m: ServerMessage, limited: bool, ok: bool)

  /** The messages about one request. */
  function About(ms: seq<ServerMessage>, id: nat): seq<ServerMessage> {
    if ms == [] then []
    else
      var m, before := ms[|ms| - 1], About(ms[..|ms| - 1], id);
      if !m.Close? && m.id == id then before + [m] else before
  }

  /** What a server sends about one request: the request, then one of Success and RequestClosed. */
  predicate Legal(ms: seq<ServerMessage>) {
    || ms == []
    || (|ms| <= 2 && ms[0].RequestMsg? && (|ms| == 2 ==> ms[1].Success? || ms[1].RequestClosed?))
  }

  /** Public methods and incoming messages need the client mutex, which is held while a handler
      exits; a callback and an incoming message need the request mutex, which is held while an empty
      response is sent. */
  predicate Possible(c: Client, input: Input) {
    match input
    case RegisterContent(_, content) => c.unregistering.None?
    case UnregisterContent(_) => c.unregistering.None?
    case FinishUnregister =>
      && c.unregistering.Some? && c.unregistering.value in c.content
      && c.content[c.unregistering.value] < |c.handlers| && c.handlers[c.content[c.unregistering.value]].done
    case ServeThread(i, _) =>
      i < |c.handlers| && CanServe(c.handlers[i]) && (c.handlers[i].pc.Callback? ==> c.ws.Idle?)
    case SendEmpty(_) => c.ws.Replying?
    case Take(m, _, _) =>
      c.ws.Idle? && c.unregistering.None? && !m.Close? && Legal(About(c.received, m.id) + [m])
  }

  predicate AllReady(c: Client) {
    forall i :: 0 <= i < |c.handlers| ==> Ready(c.handlers[i])
  }

  function Step(cfg: Config, c: Client, input: Input): Client
    requires Possible(c, input) && Linked(c) && AllReady(c)
  {
    match input
    case RegisterContent(path, content) => Register(cfg, c, path, content)
    case UnregisterContent(path) => Unregister(c, path)
    case FinishUnregister => Unregistered(c)
    case ServeThread(i, ok) => ServeTurn(c, i, ok)
    case SendEmpty(ok) => Reply(c, ok)
    case Take(m, limited, ok) => Receive(c, m, limited, ok)
  }
}
