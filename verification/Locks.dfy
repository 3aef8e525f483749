/** The mutexes of the C++ client: which thread takes which, in what order, for any number of handlers
    and threads (client/src/client.cpp, client/src/request_handler.cpp). */
module Locks {
  /** The client's two mutexes, the three of each handler, and the write mutex. Done stands for the end
      of a serve loop, for which a caller of exit_gracefully waits: the serve thread holds it until it
      exits. */
  datatype Lock = Main | Done(h: nat) | Requests | Low(h: nat) | Next(h: nat) | Data(h: nat) | Write

  function Rank(l: Lock): nat {
    match l
    case Main => 0
    case Done(_) => 1
    case Requests => 2
    case Low(_) => 3
    case Next(_) => 4
    case Data(_) => 5
    case Write => 6
  }

  /** What the mutexes are for: the registered content, the table of requests, the fields of a handler,
      and the socket. */
  datatype Datum = Content | Table | Handler(h: nat) | Socket

  function Guard(d: Datum): Lock {
    match d
    case Content => Main
    case Table => Requests
    case Handler(h) => Data(h)
    case Socket => Write
  }

  /** Stop sets the stop flag of a handler; Touch reads or writes shared data. */
  datatype Op = Acquire(l: Lock) | Release(l: Lock) | Stop(h: nat) | Touch(d: Datum)

  // ---- what the threads do ----

  function Around(l: Lock, ops: seq<Op>): seq<Op> {
    [Acquire(l)] + ops + [Release(l)]
  }

  /** mutex_lock_high_priority, up to the end of the scope. */
  function HighPriority(h: nat, ops: seq<Op>): seq<Op> {
    [Acquire(Next(h)), Acquire(Data(h)), Release(Next(h))] + ops + [Release(Data(h))]
  }

  /** send_message_low_priority. */
  function SendLowPriority(h: nat): seq<Op> {
    Around(Low(h), HighPriority(h, Send()))
  }

  function Send(): seq<Op> {
    Around(Write, [Touch(Socket)])
  }

  /** One visit of a handler's fields. */
  function Visit(h: nat): seq<Op> {
    Around(Data(h), [Touch(Handler(h))])
  }

  /** exit_gracefully: set the flag, then wait on the condition variable, which gives up the data lock. */
  function ExitGracefully(h: nat): seq<Op> {
    HighPriority(h, [Touch(Handler(h)), Stop(h)])
    + Visit(h)
    + [Acquire(Done(h)), Release(Done(h))]
    + Visit(h)
  }

  function ExitAll(hs: seq<nat>): seq<Op> {
    if hs == [] then [] else ExitGracefully(hs[0]) + ExitAll(hs[1..])
  }

  /** What the websocket thread, the manager thread and the users of the client do in one go. */
  datatype Call =
    | PublicMethod                       // anything that only needs the main mutex
    | SpawnHandler(h: nat)               // register_content
    | AnswerAbsent                       // on_request without content: the main mutex is released for the send
    | HandOver(h: nat)                   // on_request with content
    | Confirm                            // on_success
    | CloseHandled(h: nat)               // on_request_closed
    | CloseQueued(h: nat)                // on_request_closed, which sends a CloseResponse
    | UnregisterContent(h: nat)
    | ResetConnection(hs: seq<nat>)

  function CallOps(c: Call): seq<Op> {
    match c
    case PublicMethod => Around(Main, [Touch(Content)])
    case SpawnHandler(h) => Around(Main, [Touch(Content)] + Visit(h))
    case AnswerAbsent =>
      [Acquire(Main), Acquire(Requests), Touch(Table), Touch(Content), Release(Main)] + Send() + [Release(Requests)]
    case HandOver(h) => Around(Main, Around(Requests, [Touch(Table), Touch(Content)] + Visit(h)))
    case Confirm => Around(Main, Around(Requests, [Touch(Table)]))
    case CloseHandled(h) => Around(Main, Around(Requests, [Touch(Table)] + HighPriority(h, [Touch(Handler(h))])))
    case CloseQueued(h) => Around(Main, Around(Requests, [Touch(Table)] + HighPriority(h, [Touch(Handler(h))] + Send())))
    case UnregisterContent(h) => Around(Main, [Touch(Content)] + ExitGracefully(h))
    case ResetConnection(hs) => Around(Main, [Touch(Content)] + (ExitAll(hs) + Around(Requests, [Touch(Table)])))
  }

  /** What the serve loop does between waking up and waiting again; it begins and ends with the data
      lock held. */
  datatype Piece = SendLow | Report | CloseNow

  function PieceOps(h: nat, p: Piece): seq<Op> {
    match p
    case SendLow => [Release(Data(h))] + SendLowPriority(h) + [Acquire(Data(h))]
    case Report => [Release(Data(h))] + Around(Requests, [Touch(Table)]) + [Acquire(Data(h))]
    case CloseNow => Send()
  }

  function PiecesOps(h: nat, ps: seq<Piece>): seq<Op> {
    if ps == [] then [] else PieceOps(h, ps[0]) + PiecesOps(h, ps[1..])
  }

  /** `exit` tells whether the loop is left: then the end is announced under the data lock. */
  function ServeOps(h: nat, ps: seq<Piece>, exit: bool): seq<Op> {
    [Acquire(Data(h)), Touch(Handler(h))] + PiecesOps(h, ps) + (if exit then [Release(Done(h)), Release(Data(h))] else [Release(Data(h))])
  }

  // ---- threads ----

  /** A serve thread with nothing to do waits on a condition variable, holding no mutex. */
  datatype Role = Caller | Server(h: nat)

  datatype Thread = Thread(role: Role, rest: seq<Op>, held: set<Lock>)

  datatype State = State(threads: map<nat, Thread>, stopped: set<nat>)

  predicate Free(s: State, l: Lock) {
    forall t :: t in s.threads ==> l !in s.threads[t].held
  }

  datatype Input =
    | NewCaller(t: nat)
    | NewServer(t: nat, h: nat)
    | Begin(t: nat, call: Call)
    | Wake(t: nat, ps: seq<Piece>, exit: bool)
    | Go(t: nat)

  /** A serve loop that finds the stop flag set when it wakes up leaves at once. */
  predicate Possible(s: State, input: Input) {
    match input
    case NewCaller(t) => t !in s.threads
    case NewServer(t, h) => t !in s.threads && Free(s, Done(h)) && forall u :: u in s.threads ==> s.threads[u].role != Server(h)
    case Begin(t, _) => t in s.threads && s.threads[t].role.Caller? && s.threads[t].rest == []
    case Wake(t, ps, exit) =>
      && t in s.threads && s.threads[t].role.Server? && s.threads[t].rest == []
      && Done(s.threads[t].role.h) in s.threads[t].held
      && (s.threads[t].role.h in s.stopped ==> ps == [] && exit)
    case Go(t) =>
      && t in s.threads && s.threads[t].rest != []
      && (s.threads[t].rest[0].Acquire? ==> Free(s, s.threads[t].rest[0].l))
  }

  function Do(held: set<Lock>, op: Op): set<Lock> {
    match op
    case Acquire(l) => held + {l}
    case Release(l) => held - {l}
    case _ => held
  }

  function Step(s: State, input: Input): State
    requires Possible(s, input)
  {
    match input
    case NewCaller(t) => s.(threads := s.threads[t := Thread(Caller, [], {})])
    case NewServer(t, h) => s.(threads := s.threads[t := Thread(Server(h), [], {Done(h)})])
    case Begin(t, call) => s.(threads := s.threads[t := s.threads[t].(rest := CallOps(call))])
    case Wake(t, ps, exit) => s.(threads := s.threads[t := s.threads[t].(rest := ServeOps(s.threads[t].role.h, ps, exit))])
    case Go(t) =>
      var u, op := s.threads[t], s.threads[t].rest[0];
      State(s.threads[t := u.(rest := u.rest[1..], held := Do(u.held, op))],
            if op.Stop? then s.stopped + {op.h} else s.stopped)
  }

  /** The state after any sequence of steps; one that is not possible when its turn comes is skipped. */
  function Run(inputs: seq<Input>): State {
    if inputs == [] then State(map[], {})
    else
      var before, input := Run(inputs[..|inputs| - 1]), inputs[|inputs| - 1];
      if Possible(before, input) then Step(before, input) else before
  }

  // ---- the order ----

  /** A lock is taken with only lower ones held; only a lock that is held is released; and shared data,
      the stop flag included, is touched only with its guard held. */
  predicate InOrder(held: set<Lock>, op: Op) {
    match op
    case Acquire(l) => forall k :: k in held ==> Rank(k) < Rank(l)
    case Release(l) => l in held
    case Stop(h) => Data(h) in held
    case Touch(d) => Guard(d) in held
  }

  predicate Ordered(held: set<Lock>, ops: seq<Op>)
    decreases |ops|
  {
    ops == [] || (InOrder(held, ops[0]) && Ordered(Do(held, ops[0]), ops[1..]))
  }

  function After(held: set<Lock>, ops: seq<Op>): set<Lock>
    decreases |ops|
  {
    if ops == [] then held else After(Do(held, ops[0]), ops[1..])
  }

  function Flag(stopped: set<nat>, op: Op): set<nat> {
    if op.Stop? then stopped + {op.h} else stopped
  }

  function Flags(stopped: set<nat>, ops: seq<Op>): set<nat>
    decreases |ops|
  {
    if ops == [] then stopped else Flags(Flag(stopped, ops[0]), ops[1..])
  }

  predicate WaitsForStopped(stopped: set<nat>, op: Op) {
    op.Acquire? && op.l.Done? ==> op.l.h in stopped
  }

  /** Nobody waits for the end of a serve loop without its stop flag being set. */
  predicate Announced(stopped: set<nat>, ops: seq<Op>)
    decreases |ops|
  {
    ops == [] || (WaitsForStopped(stopped, ops[0]) && Announced(Flag(stopped, ops[0]), ops[1..]))
  }

  predicate Fine(held: set<Lock>, stopped: set<nat>, ops: seq<Op>) {
    Ordered(held, ops) && Announced(stopped, ops)
  }

  lemma {:induction false} Joined(held: set<Lock>, stopped: set<nat>, a: seq<Op>, b: seq<Op>)
    requires Fine(held, stopped, a) && Fine(After(held, a), Flags(stopped, a), b)
    ensures Fine(held, stopped, a + b)
    ensures After(held, a + b) == After(After(held, a), b) && Flags(stopped, a + b) == Flags(Flags(stopped, a), b)
    decreases |a|
  {
    if a == [] {
      assert a + b == b;
    } else {
      assert (a + b)[1..] == a[1..] + b;
      Joined(Do(held, a[0]), Flag(stopped, a[0]), a[1..], b);
    }
  }

  lemma One(held: set<Lock>, stopped: set<nat>, a: Op)
    ensures Fine(held, stopped, [a]) <==> InOrder(held, a) && WaitsForStopped(stopped, a)
    ensures After(held, [a]) == Do(held, a) && Flags(stopped, [a]) == Flag(stopped, a)
  {
    var none := [a][1..];
    assert none == [];
    assert Ordered(held, [a]) <==> InOrder(held, a) && Ordered(Do(held, a), none);
    assert Announced(stopped, [a]) <==> WaitsForStopped(stopped, a) && Announced(Flag(stopped, a), none);
  }

  lemma Two(held: set<Lock>, stopped: set<nat>, a: Op, b: Op)
    requires InOrder(held, a) && WaitsForStopped(stopped, a)
    requires InOrder(Do(held, a), b) && WaitsForStopped(Flag(stopped, a), b)
    ensures Fine(held, stopped, [a, b])
    ensures After(held, [a, b]) == Do(Do(held, a), b) && Flags(stopped, [a, b]) == Flag(Flag(stopped, a), b)
  {
    One(held, stopped, a);
    One(Do(held, a), Flag(stopped, a), b);
    assert [a, b][1..] == [b];
  }

  lemma Three(held: set<Lock>, stopped: set<nat>, a: Op, b: Op, c: Op)
    requires InOrder(held, a) && WaitsForStopped(stopped, a)
    requires InOrder(Do(held, a), b) && WaitsForStopped(Flag(stopped, a), b)
    requires InOrder(Do(Do(held, a), b), c) && WaitsForStopped(Flag(Flag(stopped, a), b), c)
    ensures Fine(held, stopped, [a, b, c])
    ensures After(held, [a, b, c]) == Do(Do(Do(held, a), b), c)
    ensures Flags(stopped, [a, b, c]) == Flag(Flag(Flag(stopped, a), b), c)
  {
    One(held, stopped, a);
    Two(Do(held, a), Flag(stopped, a), b, c);
    assert [a, b, c][1..] == [b, c];
  }

  /** In order, and with the same locks held before and after. */
  predicate Neat(held: set<Lock>, stopped: set<nat>, ops: seq<Op>) {
    Fine(held, stopped, ops) && After(held, ops) == held
  }

  lemma AroundNeat(held: set<Lock>, stopped: set<nat>, l: Lock, ops: seq<Op>)
    requires !l.Done? && InOrder(held, Acquire(l)) && Neat(held + {l}, stopped, ops)
    ensures Neat(held, stopped, Around(l, ops)) && Flags(stopped, Around(l, ops)) == Flags(stopped, ops)
  {
    One(held, stopped, Acquire(l));
    Joined(held, stopped, [Acquire(l)], ops);
    One(held + {l}, Flags(stopped, ops), Release(l));
    Joined(held, stopped, [Acquire(l)] + ops, [Release(l)]);
    assert l !in held;
  }

  predicate Lower(held: set<Lock>, rank: nat) {
    forall k :: k in held ==> Rank(k) < rank
  }

  lemma HighPriorityNeat(held: set<Lock>, stopped: set<nat>, h: nat, ops: seq<Op>)
    requires Lower(held, 4) && Neat(held + {Data(h)}, stopped, ops)
    ensures Neat(held, stopped, HighPriority(h, ops)) && Flags(stopped, HighPriority(h, ops)) == Flags(stopped, ops)
  {
    var head := [Acquire(Next(h)), Acquire(Data(h)), Release(Next(h))];
    Three(held, stopped, Acquire(Next(h)), Acquire(Data(h)), Release(Next(h)));
    assert After(held, head) == held + {Data(h)};
    Joined(held, stopped, head, ops);
    One(held + {Data(h)}, Flags(stopped, ops), Release(Data(h)));
    Joined(held, stopped, head + ops, [Release(Data(h))]);
    assert held + {Data(h)} - {Data(h)} == held;
  }

  lemma NothingNeat(held: set<Lock>, stopped: set<nat>)
    ensures Neat(held, stopped, []) && Flags(stopped, []) == stopped
  {}

  lemma NeatJoined(held: set<Lock>, stopped: set<nat>, a: seq<Op>, b: seq<Op>)
    requires Neat(held, stopped, a) && Neat(held, Flags(stopped, a), b)
    ensures Neat(held, stopped, a + b) && Flags(stopped, a + b) == Flags(Flags(stopped, a), b)
  {
    Joined(held, stopped, a, b);
  }

  lemma TouchNeat(held: set<Lock>, stopped: set<nat>, d: Datum)
    requires Guard(d) in held
    ensures Neat(held, stopped, [Touch(d)]) && Flags(stopped, [Touch(d)]) == stopped
  {
    One(held, stopped, Touch(d));
  }

  lemma VisitNeat(held: set<Lock>, stopped: set<nat>, h: nat)
    requires Lower(held, 5)
    ensures Neat(held, stopped, Visit(h)) && Flags(stopped, Visit(h)) == stopped
  {
    TouchNeat(held + {Data(h)}, stopped, Handler(h));
    AroundNeat(held, stopped, Data(h), [Touch(Handler(h))]);
  }

  lemma ExitNeat(held: set<Lock>, stopped: set<nat>, h: nat)
    requires Lower(held, 1)
    ensures Neat(held, stopped, ExitGracefully(h)) && Flags(stopped, ExitGracefully(h)) == stopped + {h}
  {
    var flagged := stopped + {h};
    var a, d, w := HighPriority(h, [Touch(Handler(h)), Stop(h)]), Visit(h), [Acquire(Done(h)), Release(Done(h))];
    Two(held + {Data(h)}, stopped, Touch(Handler(h)), Stop(h));
    HighPriorityNeat(held, stopped, h, [Touch(Handler(h)), Stop(h)]);
    VisitNeat(held, flagged, h);
    NeatJoined(held, stopped, a, d);
    Two(held, flagged, Acquire(Done(h)), Release(Done(h)));
    assert held + {Done(h)} - {Done(h)} == held;
    NeatJoined(held, stopped, a + d, w);
    NeatJoined(held, stopped, a + d + w, d);
  }

  lemma {:induction false} ExitAllNeat(held: set<Lock>, stopped: set<nat>, hs: seq<nat>)
    requires Lower(held, 1)
    ensures Neat(held, stopped, ExitAll(hs))
    decreases |hs|
  {
    if hs != [] {
      ExitNeat(held, stopped, hs[0]);
      ExitAllNeat(held, stopped + {hs[0]}, hs[1..]);
      NeatJoined(held, stopped, ExitGracefully(hs[0]), ExitAll(hs[1..]));
    }
  }

  lemma SendNeat(held: set<Lock>, stopped: set<nat>)
    requires Lower(held, 6)
    ensures Neat(held, stopped, Send()) && Flags(stopped, Send()) == stopped
  {
    TouchNeat(held + {Write}, stopped, Socket);
    AroundNeat(held, stopped, Write, [Touch(Socket)]);
  }

  lemma AbsentNeat(stopped: set<nat>)
    ensures Neat({}, stopped, CallOps(AnswerAbsent))
  {
    var m, mr, r := {} + {Main}, {} + {Main} + {Requests}, {Requests};
    var head := [Acquire(Main), Acquire(Requests), Touch(Table)];
    var next := [Touch(Content), Release(Main)];
    Three({}, stopped, Acquire(Main), Acquire(Requests), Touch(Table));
    Two(mr, stopped, Touch(Content), Release(Main));
    assert mr - {Main} == r;
    Joined({}, stopped, head, next);
    SendNeat(r, stopped);
    Joined({}, stopped, head + next, Send());
    One(r, stopped, Release(Requests));
    assert r - {Requests} == {};
    Joined({}, stopped, head + next + Send(), [Release(Requests)]);
    assert head + next == [Acquire(Main), Acquire(Requests), Touch(Table), Touch(Content), Release(Main)];
  }

  lemma TouchThen(held: set<Lock>, stopped: set<nat>, d: Datum, ops: seq<Op>)
    requires Guard(d) in held && Neat(held, stopped, ops)
    ensures Neat(held, stopped, [Touch(d)] + ops) && Flags(stopped, [Touch(d)] + ops) == Flags(stopped, ops)
  {
    TouchNeat(held, stopped, d);
    NeatJoined(held, stopped, [Touch(d)], ops);
  }

  lemma InMain(stopped: set<nat>, ops: seq<Op>)
    requires Neat({} + {Main}, stopped, ops)
    ensures Neat({}, stopped, Around(Main, ops))
  {
    AroundNeat({}, stopped, Main, ops);
  }

  lemma InTable(stopped: set<nat>, ops: seq<Op>)
    requires Neat({} + {Main} + {Requests}, stopped, ops)
    ensures Neat({}, stopped, Around(Main, Around(Requests, ops)))
  {
    AroundNeat({} + {Main}, stopped, Requests, ops);
    InMain(stopped, Around(Requests, ops));
  }

  lemma HandOverNeat(stopped: set<nat>, h: nat)
    ensures Neat({}, stopped, CallOps(HandOver(h)))
  {
    var mr := {} + {Main} + {Requests};
    VisitNeat(mr, stopped, h);
    TouchThen(mr, stopped, Content, Visit(h));
    TouchThen(mr, stopped, Table, [Touch(Content)] + Visit(h));
    assert [Touch(Table)] + ([Touch(Content)] + Visit(h)) == [Touch(Table), Touch(Content)] + Visit(h);
    InTable(stopped, [Touch(Table), Touch(Content)] + Visit(h));
  }

  lemma CloseNeat(stopped: set<nat>, h: nat, ops: seq<Op>)
    requires Neat({} + {Main} + {Requests} + {Data(h)}, stopped, ops)
    ensures Neat({}, stopped, Around(Main, Around(Requests, [Touch(Table)] + HighPriority(h, [Touch(Handler(h))] + ops))))
  {
    var mr := {} + {Main} + {Requests};
    TouchThen(mr + {Data(h)}, stopped, Handler(h), ops);
    HighPriorityNeat(mr, stopped, h, [Touch(Handler(h))] + ops);
    TouchThen(mr, stopped, Table, HighPriority(h, [Touch(Handler(h))] + ops));
    InTable(stopped, [Touch(Table)] + HighPriority(h, [Touch(Handler(h))] + ops));
  }

  lemma ResetNeat(stopped: set<nat>, hs: seq<nat>)
    ensures Neat({}, stopped, CallOps(ResetConnection(hs)))
  {
    var m := {} + {Main};
    var flagged := Flags(stopped, ExitAll(hs));
    ExitAllNeat(m, stopped, hs);
    TouchNeat(m + {Requests}, flagged, Table);
    AroundNeat(m, flagged, Requests, [Touch(Table)]);
    NeatJoined(m, stopped, ExitAll(hs), Around(Requests, [Touch(Table)]));
    TouchThen(m, stopped, Content, ExitAll(hs) + Around(Requests, [Touch(Table)]));
    InMain(stopped, [Touch(Content)] + (ExitAll(hs) + Around(Requests, [Touch(Table)])));
  }

  /** Every call takes the locks in order, touches data only under its guard, and gives all locks back. */
  lemma CallsAreOrdered(stopped: set<nat>, c: Call)
    ensures Neat({}, stopped, CallOps(c))
  {
    var m, mr := {} + {Main}, {} + {Main} + {Requests};
    match c {
      case PublicMethod =>
        TouchNeat(m, stopped, Content);
        InMain(stopped, [Touch(Content)]);
      case SpawnHandler(h) =>
        VisitNeat(m, stopped, h);
        TouchThen(m, stopped, Content, Visit(h));
        InMain(stopped, [Touch(Content)] + Visit(h));
      case AnswerAbsent => AbsentNeat(stopped);
      case HandOver(h) => HandOverNeat(stopped, h);
      case Confirm =>
        TouchNeat(mr, stopped, Table);
        InTable(stopped, [Touch(Table)]);
      case CloseHandled(h) =>
        NothingNeat(mr + {Data(h)}, stopped);
        CloseNeat(stopped, h, []);
        assert [Touch(Handler(h))] + [] == [Touch(Handler(h))];
      case CloseQueued(h) =>
        SendNeat(mr + {Data(h)}, stopped);
        CloseNeat(stopped, h, Send());
      case UnregisterContent(h) =>
        ExitNeat(m, stopped, h);
        TouchThen(m, stopped, Content, ExitGracefully(h));
        InMain(stopped, [Touch(Content)] + ExitGracefully(h));
      case ResetConnection(hs) => ResetNeat(stopped, hs);
    }
  }

  lemma PieceNeat(stopped: set<nat>, h: nat, p: Piece)
    ensures Neat({Done(h)} + {Data(h)}, stopped, PieceOps(h, p)) && Flags(stopped, PieceOps(h, p)) == stopped
  {
    var d := {Done(h)} + {Data(h)};
    match p {
      case CloseNow => SendNeat(d, stopped);
      case Report =>
        TouchNeat({Done(h)} + {Requests}, stopped, Table);
        AroundNeat({Done(h)}, stopped, Requests, [Touch(Table)]);
        WithoutData(stopped, h, Around(Requests, [Touch(Table)]));
      case SendLow =>
        var held := {Done(h)} + {Low(h)};
        SendNeat(held + {Data(h)}, stopped);
        HighPriorityNeat(held, stopped, h, Send());
        AroundNeat({Done(h)}, stopped, Low(h), HighPriority(h, Send()));
        WithoutData(stopped, h, SendLowPriority(h));
    }
  }

  lemma WithoutData(stopped: set<nat>, h: nat, middle: seq<Op>)
    requires Neat({Done(h)}, stopped, middle) && Flags(stopped, middle) == stopped
    ensures var ops := [Release(Data(h))] + middle + [Acquire(Data(h))];
            Neat({Done(h)} + {Data(h)}, stopped, ops) && Flags(stopped, ops) == stopped
  {
    var d := {Done(h)} + {Data(h)};
    One(d, stopped, Release(Data(h)));
    assert d - {Data(h)} == {Done(h)};
    Joined(d, stopped, [Release(Data(h))], middle);
    One({Done(h)}, stopped, Acquire(Data(h)));
    Joined(d, stopped, [Release(Data(h))] + middle, [Acquire(Data(h))]);
  }

  lemma {:induction false} PiecesNeat(stopped: set<nat>, h: nat, ps: seq<Piece>)
    ensures Neat({Done(h)} + {Data(h)}, stopped, PiecesOps(h, ps)) && Flags(stopped, PiecesOps(h, ps)) == stopped
    decreases |ps|
  {
    if ps != [] {
      PieceNeat(stopped, h, ps[0]);
      PiecesNeat(stopped, h, ps[1..]);
      NeatJoined({Done(h)} + {Data(h)}, stopped, PieceOps(h, ps[0]), PiecesOps(h, ps[1..]));
    }
  }

  /** A serve thread takes the locks in order; in the end it holds its Done, or nothing if it has exited. */
  lemma ServeIsOrdered(stopped: set<nat>, h: nat, ps: seq<Piece>, exit: bool)
    ensures Fine({Done(h)}, stopped, ServeOps(h, ps, exit))
    ensures After({Done(h)}, ServeOps(h, ps, exit)) == if exit then {} else {Done(h)}
  {
    var d := {Done(h)} + {Data(h)};
    var head := [Acquire(Data(h)), Touch(Handler(h))];
    Two({Done(h)}, stopped, Acquire(Data(h)), Touch(Handler(h)));
    PiecesNeat(stopped, h, ps);
    Joined({Done(h)}, stopped, head, PiecesOps(h, ps));
    var body := head + PiecesOps(h, ps);
    if exit {
      Two(d, stopped, Release(Done(h)), Release(Data(h)));
      Joined({Done(h)}, stopped, body, [Release(Done(h)), Release(Data(h))]);
      assert d - {Done(h)} - {Data(h)} == {};
    } else {
      One(d, stopped, Release(Data(h)));
      Joined({Done(h)}, stopped, body, [Release(Data(h))]);
      assert d - {Data(h)} == {Done(h)};
    }
  }

  // ---- no deadlock ----

  predicate ThreadOk(s: State, t: Thread) {
    && Fine(t.held, s.stopped, t.rest)
    && match t.role
       case Caller => After(t.held, t.rest) == {}
       case Server(h) => After(t.held, t.rest) in {{}, {Done(h)}}
  }

  ghost predicate Inv(s: State) {
    && (forall t :: t in s.threads ==> ThreadOk(s, s.threads[t]))
    && (forall t, u, l :: t in s.threads && u in s.threads && l in s.threads[t].held && l in s.threads[u].held ==> t == u)
  }

  lemma {:induction false} AnnouncedMore(stopped: set<nat>, more: set<nat>, ops: seq<Op>)
    requires Announced(stopped, ops) && stopped <= more
    ensures Announced(more, ops)
    decreases |ops|
  {
    if ops != [] { AnnouncedMore(Flag(stopped, ops[0]), Flag(more, ops[0]), ops[1..]); }
  }

  lemma StartKeeps(s: State, t: nat, thread: Thread)
    requires Inv(s) && ThreadOk(s, thread)
    requires if t in s.threads then thread.held == s.threads[t].held else forall l :: l in thread.held ==> Free(s, l)
    ensures Inv(s.(threads := s.threads[t := thread]))
  {}

  lemma GoKeeps(s: State, t: nat)
    requires Inv(s) && Possible(s, Go(t))
    ensures Inv(Step(s, Go(t)))
  {
    var s', u := Step(s, Go(t)), s.threads[t];
    assert ThreadOk(s, u);
    forall v | v in s'.threads ensures ThreadOk(s', s'.threads[v]) {
      if v != t {
        assert ThreadOk(s, s.threads[v]);
        AnnouncedMore(s.stopped, s'.stopped, s.threads[v].rest);
      }
    }
  }

  lemma StepKeeps(s: State, input: Input)
    requires Inv(s) && Possible(s, input)
    ensures Inv(Step(s, input))
  {
    match input {
      case NewCaller(t) => StartKeeps(s, t, Thread(Caller, [], {}));
      case NewServer(t, h) => StartKeeps(s, t, Thread(Server(h), [], {Done(h)}));
      case Begin(t, call) =>
        assert ThreadOk(s, s.threads[t]);
        CallsAreOrdered(s.stopped, call);
        StartKeeps(s, t, s.threads[t].(rest := CallOps(call)));
      case Wake(t, ps, exit) =>
        var u := s.threads[t];
        assert ThreadOk(s, u);
        ServeIsOrdered(s.stopped, u.role.h, ps, exit);
        StartKeeps(s, t, u.(rest := ServeOps(u.role.h, ps, exit)));
      case Go(t) => GoKeeps(s, t);
    }
  }

  lemma {:induction false} RunKeeps(inputs: seq<Input>)
    ensures Inv(Run(inputs))
  {
    if inputs != [] {
      var before, input := Run(inputs[..|inputs| - 1]), inputs[|inputs| - 1];
      RunKeeps(inputs[..|inputs| - 1]);
      if Possible(before, input) { StepKeeps(before, input); }
    }
  }

  /** A thread in the middle of something can go on, or a serve thread that was told to stop can wake up. */
  predicate CanMove(s: State, t: nat) {
    Possible(s, Go(t)) || (Possible(s, Wake(t, [], true)) && s.threads[t].role.h in s.stopped)
  }

  /** Follow the owners of the locks that are waited for: their ranks increase. */
  lemma {:induction false} SomebodyMoves(s: State, t: nat) returns (u: nat)
    requires Inv(s) && t in s.threads && s.threads[t].rest != []
    ensures CanMove(s, u)
    decreases if s.threads[t].rest[0].Acquire? then 7 - Rank(s.threads[t].rest[0].l) else 0
  {
    var th := s.threads[t];
    if Possible(s, Go(t)) {
      return t;
    }
    var l := th.rest[0].l;
    var o :| o in s.threads && l in s.threads[o].held;
    var owner := s.threads[o];
    assert ThreadOk(s, th) && ThreadOk(s, owner);
    if owner.rest == [] {
      return o;
    }
    if Possible(s, Go(o)) {
      return o;
    }
    u := SomebodyMoves(s, o);
  }

  /** In every reachable state, whatever the threads and handlers: if any thread is in the middle of
      something, some thread can move. */
  lemma NoDeadlock(inputs: seq<Input>, t: nat) returns (u: nat)
    requires t in Run(inputs).threads && Run(inputs).threads[t].rest != []
    ensures CanMove(Run(inputs), u)
  {
    RunKeeps(inputs);
    u := SomebodyMoves(Run(inputs), t);
  }

  /** Thread t is about to touch this data. */
  predicate AboutToTouch(s: State, t: nat, d: Datum) {
    t in s.threads && s.threads[t].rest != [] && s.threads[t].rest[0] == Touch(d)
  }

  /** In every reachable state: no two threads are about to touch the same data, and whoever is holds its
      guard. */
  lemma NoRace(inputs: seq<Input>, t: nat, u: nat, d: Datum)
    requires AboutToTouch(Run(inputs), t, d) && AboutToTouch(Run(inputs), u, d)
    ensures t == u && Guard(d) in Run(inputs).threads[t].held
  {
    RunKeeps(inputs);
    var s := Run(inputs);
    assert ThreadOk(s, s.threads[t]) && ThreadOk(s, s.threads[u]);
  }

  // ---- what the calls are for ----

  datatype Use = Touches(d: Datum) | Stops(h: nat) | Awaits(h: nat)

  /** The data that a thread touches, the serve loops it stops, and those whose end it waits for. */
  function Uses(ops: seq<Op>): set<Use>
    decreases |ops|
  {
    if ops == [] then {}
    else
      Uses(ops[1..]) +
      match ops[0]
      case Touch(d) => {Touches(d)}
      case Stop(h) => {Stops(h)}
      case Acquire(l) => if l.Done? then {Awaits(l.h)} else {}
      case Release(_) => {}
  }

  lemma {:induction false} UsesJoined(a: seq<Op>, b: seq<Op>)
    ensures Uses(a + b) == Uses(a) + Uses(b)
    decreases |a|
  {
    if a == [] {
      assert a + b == b;
    } else {
      assert (a + b)[1..] == a[1..] + b;
      UsesJoined(a[1..], b);
    }
  }

  lemma UsesOne(op: Op)
    ensures Uses([op]) == match op
                          case Touch(d) => {Touches(d)}
                          case Stop(h) => {Stops(h)}
                          case Acquire(l) => if l.Done? then {Awaits(l.h)} else {}
                          case Release(_) => {}
  {
    assert [op][1..] == [] && Uses([]) == {};
  }

  lemma UsesAround(l: Lock, ops: seq<Op>)
    requires !l.Done?
    ensures Uses(Around(l, ops)) == Uses(ops)
  {
    UsesOne(Acquire(l));
    UsesOne(Release(l));
    UsesJoined([Acquire(l)], ops);
    UsesJoined([Acquire(l)] + ops, [Release(l)]);
  }

  lemma UsesHighPriority(h: nat, ops: seq<Op>)
    ensures Uses(HighPriority(h, ops)) == Uses(ops)
  {
    var head := [Acquire(Next(h))] + [Acquire(Data(h))] + [Release(Next(h))];
    UsesOne(Acquire(Next(h)));
    UsesOne(Acquire(Data(h)));
    UsesOne(Release(Next(h)));
    UsesOne(Release(Data(h)));
    UsesJoined([Acquire(Next(h))], [Acquire(Data(h))]);
    UsesJoined([Acquire(Next(h))] + [Acquire(Data(h))], [Release(Next(h))]);
    UsesJoined(head, ops);
    UsesJoined(head + ops, [Release(Data(h))]);
    assert head == [Acquire(Next(h)), Acquire(Data(h)), Release(Next(h))];
  }

  lemma UsesTouch(d: Datum, ops: seq<Op>)
    ensures Uses([Touch(d)] + ops) == Uses(ops) + {Touches(d)}
  {
    UsesOne(Touch(d));
    UsesJoined([Touch(d)], ops);
  }

  lemma UsesParts(h: nat)
    ensures Uses(Send()) == {Touches(Socket)} && Uses(Visit(h)) == {Touches(Handler(h))}
    ensures Uses(ExitGracefully(h)) == {Touches(Handler(h)), Stops(h), Awaits(h)}
  {
    UsesOne(Touch(Socket));
    UsesAround(Write, [Touch(Socket)]);
    UsesOne(Touch(Handler(h)));
    UsesAround(Data(h), [Touch(Handler(h))]);
    UsesOne(Stop(h));
    UsesTouch(Handler(h), [Stop(h)]);
    assert [Touch(Handler(h))] + [Stop(h)] == [Touch(Handler(h)), Stop(h)];
    UsesHighPriority(h, [Touch(Handler(h)), Stop(h)]);
    UsesOne(Acquire(Done(h)));
    UsesOne(Release(Done(h)));
    UsesJoined([Acquire(Done(h))], [Release(Done(h))]);
    assert [Acquire(Done(h))] + [Release(Done(h))] == [Acquire(Done(h)), Release(Done(h))];
    var a, v, w := HighPriority(h, [Touch(Handler(h)), Stop(h)]), Visit(h), [Acquire(Done(h)), Release(Done(h))];
    UsesJoined(a, v);
    UsesJoined(a + v, w);
    UsesJoined(a + v + w, v);
  }

  function StopsAll(hs: seq<nat>): set<Use> {
    (set h | h in hs :: Touches(Handler(h))) + (set h | h in hs :: Stops(h)) + (set h | h in hs :: Awaits(h))
  }

  lemma {:induction false} UsesExitAll(hs: seq<nat>)
    ensures Uses(ExitAll(hs)) == StopsAll(hs)
    decreases |hs|
  {
    if hs != [] {
      UsesParts(hs[0]);
      UsesExitAll(hs[1..]);
      UsesJoined(ExitGracefully(hs[0]), ExitAll(hs[1..]));
    }
  }

  /** What each call is for: the data it works on, and the serve loops it stops and waits for. */
  function Purpose(c: Call): set<Use> {
    match c
    case PublicMethod => {Touches(Content)}
    case SpawnHandler(h) => {Touches(Content), Touches(Handler(h))}
    case AnswerAbsent => {Touches(Content), Touches(Table), Touches(Socket)}
    case HandOver(h) => {Touches(Content), Touches(Table), Touches(Handler(h))}
    case Confirm => {Touches(Table)}
    case CloseHandled(h) => {Touches(Table), Touches(Handler(h))}
    case CloseQueued(h) => {Touches(Table), Touches(Handler(h)), Touches(Socket)}
    case UnregisterContent(h) => {Touches(Content), Touches(Handler(h)), Stops(h), Awaits(h)}
    case ResetConnection(hs) => {Touches(Content), Touches(Table)} + StopsAll(hs)
  }

  lemma CallsServeTheirPurpose(c: Call)
    ensures Uses(CallOps(c)) == Purpose(c)
  {
    match c {
      case PublicMethod =>
        UsesOne(Touch(Content));
        UsesAround(Main, [Touch(Content)]);
      case SpawnHandler(h) =>
        UsesParts(h);
        UsesTouch(Content, Visit(h));
        UsesAround(Main, [Touch(Content)] + Visit(h));
      case AnswerAbsent => UsesAbsent();
      case HandOver(h) =>
        UsesParts(h);
        UsesTouch(Content, Visit(h));
        UsesTouch(Table, [Touch(Content)] + Visit(h));
        assert [Touch(Table)] + ([Touch(Content)] + Visit(h)) == [Touch(Table), Touch(Content)] + Visit(h);
        UsesAround(Requests, [Touch(Table), Touch(Content)] + Visit(h));
        UsesAround(Main, Around(Requests, [Touch(Table), Touch(Content)] + Visit(h)));
      case Confirm =>
        UsesOne(Touch(Table));
        UsesAround(Requests, [Touch(Table)]);
        UsesAround(Main, Around(Requests, [Touch(Table)]));
      case CloseHandled(h) =>
        UsesOne(Touch(Handler(h)));
        UsesClose(h, [Touch(Handler(h))]);
      case CloseQueued(h) =>
        UsesParts(h);
        UsesTouch(Handler(h), Send());
        UsesClose(h, [Touch(Handler(h))] + Send());
      case UnregisterContent(h) =>
        UsesParts(h);
        UsesTouch(Content, ExitGracefully(h));
        UsesAround(Main, [Touch(Content)] + ExitGracefully(h));
      case ResetConnection(hs) =>
        UsesExitAll(hs);
        UsesOne(Touch(Table));
        UsesAround(Requests, [Touch(Table)]);
        UsesJoined(ExitAll(hs), Around(Requests, [Touch(Table)]));
        UsesTouch(Content, ExitAll(hs) + Around(Requests, [Touch(Table)]));
        UsesAround(Main, [Touch(Content)] + (ExitAll(hs) + Around(Requests, [Touch(Table)])));
    }
  }

  /** And each piece of the serve loop: it sends, or reports to the table of requests. */
  lemma PiecesServeTheirPurpose(h: nat, p: Piece)
    ensures Uses(PieceOps(h, p)) == if p.Report? then {Touches(Table)} else {Touches(Socket)}
  {
    UsesParts(h);
    UsesOne(Release(Data(h)));
    UsesOne(Acquire(Data(h)));
    var middle := if p.Report? then Around(Requests, [Touch(Table)]) else SendLowPriority(h);
    UsesOne(Touch(Table));
    UsesAround(Requests, [Touch(Table)]);
    UsesHighPriority(h, Send());
    UsesAround(Low(h), HighPriority(h, Send()));
    UsesJoined([Release(Data(h))], middle);
    UsesJoined([Release(Data(h))] + middle, [Acquire(Data(h))]);
  }

  lemma UsesClose(h: nat, ops: seq<Op>)
    ensures Uses(Around(Main, Around(Requests, [Touch(Table)] + HighPriority(h, ops)))) == Uses(ops) + {Touches(Table)}
  {
    UsesHighPriority(h, ops);
    UsesTouch(Table, HighPriority(h, ops));
    UsesAround(Requests, [Touch(Table)] + HighPriority(h, ops));
    UsesAround(Main, Around(Requests, [Touch(Table)] + HighPriority(h, ops)));
  }

  lemma UsesAbsent()
    ensures Uses(CallOps(AnswerAbsent)) == {Touches(Content), Touches(Table), Touches(Socket)}
  {
    UsesParts(0);
    UsesOne(Release(Main));
    UsesTouch(Content, [Release(Main)]);
    UsesTouch(Table, [Touch(Content)] + [Release(Main)]);
    UsesOne(Acquire(Requests));
    UsesOne(Acquire(Main));
    UsesOne(Release(Requests));
    var tail := [Touch(Table)] + ([Touch(Content)] + [Release(Main)]);
    UsesJoined([Acquire(Requests)], tail);
    UsesJoined([Acquire(Main)], [Acquire(Requests)] + tail);
    var head := [Acquire(Main)] + ([Acquire(Requests)] + tail);
    UsesJoined(head, Send());
    UsesJoined(head + Send(), [Release(Requests)]);
    assert head == [Acquire(Main), Acquire(Requests), Touch(Table), Touch(Content), Release(Main)];
  }
}
