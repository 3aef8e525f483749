/** Shared clients (client/src/shared_client.cpp): any number of instances multiplex one wrapped
    client by reference counts and path prefixes. Each public call is one step. */
module SharedClient {
  import opened Wire

  // ---- reference counts ----

  datatype Counter = Counter(references: nat, nextIndex: nat)

  /** The entry of one wrapped client in a counter's map; it is erased when the count drops to zero. */
  type Row = Option<Counter>

  function Add(row: Row): (Row, nat) {
    var c := if row.Some? then row.value else Counter(0, 0);
    (Some(Counter(c.references + 1, c.nextIndex + 1)), c.nextIndex)
  }

  /** The old count. Without an entry, the removal fails its assertion. */
  function Remove(row: Row): (Row, nat) {
    if row.None? then (None, 0)
    else if row.value.references <= 1 then (None, row.value.references)
    else (Some(row.value.(references := row.value.references - 1)), row.value.references)
  }

  function Count(row: Row): nat {
    if row.None? then 0 else row.value.references
  }

  /** Entries never hold a zero count. */
  predicate Proper(row: Row) {
    row.Some? ==> row.value.references > 0
  }

  // ---- the wrapped client ----

  datatype Handle = Handle(id: nat, path: string)

  datatype Command = StartIt | StopIt | IdleIt(state: bool)

  /** Abstracted to its started flag, the handle registered for each path, and the commands it was given. */
  datatype Wrapped = Wrapped(started: bool, content: map<string, nat>, nextHandle: nat, commands: seq<Command>)

  function StartWrapped(c: Wrapped): Wrapped {
    c.(started := true, commands := c.commands + [StartIt])
  }

  function StopWrapped(c: Wrapped): Wrapped {
    c.(started := false, content := if c.started then map[] else c.content, commands := c.commands + [StopIt])
  }

  function IdleWrapped(c: Wrapped, state: bool): Wrapped {
    c.(commands := c.commands + [IdleIt(state)])
  }

  function Unregister(c: Wrapped, h: Handle): Wrapped {
    c.(content := c.content - {h.path})
  }

  // ---- one call of one instance ----

  datatype Instance = Instance(index: nat, started: bool, idling: bool, registered: set<Handle>)

  /** The global counters for the wrapped client. */
  datatype Rows = Rows(refs: Row, started: Row, idling: Row)

  /** What a call can reach. `sound` tells that no assertion has failed so far. */
  datatype Scope = Scope(me: Instance, rows: Rows, client: Wrapped, sound: bool)

  function Paths(handles: set<Handle>): set<string> {
    set h | h in handles :: h.path
  }

  function ResetIdling(s: Scope): Scope {
    if !s.me.idling then s
    else
      var (row, was) := Remove(s.rows.idling);
      s.(rows := s.rows.(idling := row), me := s.me.(idling := false), sound := s.sound && s.rows.idling.Some? && was > 0)
  }

  function UnregisterContent(s: Scope): Scope {
    s.(client := s.client.(content := s.client.content - Paths(s.me.registered)), me := s.me.(registered := {}))
  }

  function Start(s: Scope): Scope {
    var s1 := ResetIdling(s);
    if s1.me.started then s1.(client := StartWrapped(s1.client))
    else
      s1.(rows := s1.rows.(started := Add(s1.rows.started).0),
          client := StartWrapped(s1.client),
          me := s1.me.(started := true))
  }

  function Stop(s: Scope): Scope {
    var s1 := UnregisterContent(ResetIdling(s));
    if !s1.me.started then s1
    else
      var (row, was) := Remove(s1.rows.started);
      s1.(rows := s1.rows.(started := row),
          sound := s1.sound && s1.rows.started.Some?,
          client := if was == 1 then StopWrapped(s1.client) else s1.client,
          me := s1.me.(started := false))
  }

  function Idle(s: Scope, state: bool): Scope {
    if !(s.me.started && s.client.started) then s
    else if s.me.idling == state then s
    else if state then
      var row := Add(s.rows.idling).0;
      s.(rows := s.rows.(idling := row),
         sound := s.sound && s.rows.started.Some? && Count(row) <= Count(s.rows.started),
         client := if Count(s.rows.started) == Count(row) then IdleWrapped(s.client, true) else s.client,
         me := s.me.(idling := true))
    else
      var (row, was) := Remove(s.rows.idling);
      s.(rows := s.rows.(idling := row),
         sound := s.sound && s.rows.idling.Some? && s.rows.started.Some? && 0 < was <= Count(s.rows.started)
                  && Count(row) < Count(s.rows.started),
         client := if Count(s.rows.started) == was then IdleWrapped(s.client, false) else s.client,
         me := s.me.(idling := false))
  }

  // ---- paths ----

  function Digits(n: nat): string {
    if n < 10 then [Digit(n)] else Digits(n / 10) + [Digit(n % 10)]
  }

  function Digit(d: nat): char
    requires d < 10
  {
    '0' + d as char
  }

  function Prefix(index: nat): string {
    Digits(index) + "/"
  }

  /** `ok` tells whether the wrapped client accepts the content otherwise. */
  function Register(s: Scope, path: string, ok: bool): Scope {
    var full := Prefix(s.me.index) + path;
    if !ok || full in s.client.content then s
    else
      var h := Handle(s.client.nextHandle, full);
      s.(client := s.client.(content := s.client.content[full := h.id], nextHandle := s.client.nextHandle + 1),
         me := s.me.(registered := s.me.registered + {h}))
  }

  function UnregisterOne(s: Scope, h: Handle): Scope {
    if h !in s.me.registered then s
    else s.(client := Unregister(s.client, h), me := s.me.(registered := s.me.registered - {h}))
  }

  predicate StillRegistered(c: Wrapped, h: Handle) {
    h.path in c.content
  }

  /** The handles of this instance that the wrapped client still lists. */
  function Listed(s: Scope): set<Handle> {
    set h | h in s.me.registered && h.path in s.client.content && s.client.content[h.path] == h.id
  }

  function Content(s: Scope): Scope {
    if |Listed(s)| < |s.me.registered| then
      s.(me := s.me.(registered := set h | h in s.me.registered && StillRegistered(s.client, h)))
    else s
  }

  function IsRegistered(s: Scope, h: Handle): (Scope, bool) {
    if StillRegistered(s.client, h) then (s, h in s.me.registered)
    else (s.(me := s.me.(registered := s.me.registered - {h})), false)
  }

  // ---- all instances ----

  datatype World = World(instances: map<nat, Instance>, rows: Rows, client: Wrapped, sound: bool)

  const Empty := World(map[], Rows(None, None, None), Wrapped(false, map[], 0, []), true)

  function Reach(w: World, k: nat): Scope
    requires k in w.instances
  {
    Scope(w.instances[k], w.rows, w.client, w.sound)
  }

  function Store(w: World, k: nat, s: Scope): World {
    World(w.instances[k := s.me], s.rows, s.client, s.sound)
  }

  function Create(w: World, k: nat): World {
    var (row, index) := Add(w.rows.refs);
    w.(instances := w.instances[k := Instance(index, false, false, {})], rows := w.rows.(refs := row))
  }

  /** The destructor: stop, then give up the reference; the last one finds no count left. */
  function Destroy(w: World, k: nat): World
    requires k in w.instances
  {
    var s := Stop(Reach(w, k));
    var row := Remove(s.rows.refs).0;
    var left := Count(row);
    World(
      w.instances - {k}, s.rows.(refs := row), s.client,
      && s.sound && s.rows.refs.Some?
      && Count(s.rows.started) <= left && Count(s.rows.idling) <= left
      && (left == 0 ==> s.rows.started.None? && s.rows.idling.None? && row.None?))
  }

  datatype Input =
    | New(k: nat)
    | CallStart(k: nat)
    | CallStop(k: nat)
    | CallIdle(k: nat, state: bool)
    | CallRegister(k: nat, path: string, ok: bool)
    | CallUnregister(k: nat, h: Handle)
    | CallContent(k: nat)
    | CallIsRegistered(k: nat, h: Handle)
    | Delete(k: nat)
    | LoseContent            // the wrapped client lost its connection
    | Fail                   // the wrapped client gave up and is not started any more

  predicate Possible(w: World, input: Input) {
    match input
    case New(k) => k !in w.instances
    case LoseContent => true
    case Fail => true
    case _ => input.k in w.instances
  }

  function Step(w: World, input: Input): World
    requires Possible(w, input)
  {
    match input
    case New(k) => Create(w, k)
    case CallStart(k) => Store(w, k, Start(Reach(w, k)))
    case CallStop(k) => Store(w, k, Stop(Reach(w, k)))
    case CallIdle(k, state) => Store(w, k, Idle(Reach(w, k), state))
    case CallRegister(k, path, ok) => Store(w, k, Register(Reach(w, k), path, ok))
    case CallUnregister(k, h) => Store(w, k, UnregisterOne(Reach(w, k), h))
    case CallContent(k) => Store(w, k, Content(Reach(w, k)))
    case CallIsRegistered(k, h) => Store(w, k, IsRegistered(Reach(w, k), h).0)
    case Delete(k) => Destroy(w, k)
    case LoseContent => w.(client := w.client.(content := map[]))
    case Fail => w.(client := w.client.(content := map[], started := false))
  }

  /** The state after any sequence of steps; one that is not possible when its turn comes is skipped. */
  function Run(inputs: seq<Input>): World {
    if inputs == [] then Empty
    else
      var before, input := Run(inputs[..|inputs| - 1]), inputs[|inputs| - 1];
      if Possible(before, input) then Step(before, input) else before
  }
}
