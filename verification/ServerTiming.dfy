/** The timeout check of the protocol loop, and how long it lets a request live. */
module ServerTiming {
  import opened Wire
  import opened Chunking
  import opened History
  import opened Server
  import opened ServerInvariant
  import opened ServerRuns
  import opened ServerDelivery

  // ---- one timeout check ----

  predicate ExpiredIn(cfg: Config, s: Server, now: int, id: nat) {
    id in s.requests && Expired(cfg, s.requests[id], now)
  }

  /** The messages a check sends: one RequestClosed for each expired open request, as visited. */
  function Closings(cfg: Config, s: Server, now: int, order: seq<nat>): seq<Event> {
    if order == [] then []
    else
      var id, rest := order[0], Closings(cfg, s, now, order[1..]);
      if ExpiredIn(cfg, s, now, id) && !s.requests[id].completed
      then [Out(RequestClosed(id, TIMEOUT_MESSAGE))] + rest
      else rest
  }

  /** What a check makes of a request that it leaves in the map. */
  function AfterCheck(cfg: Config, r: RequestState, now: int): RequestState {
    if Expired(cfg, r, now) then CloseChannel(ResetTimeout(r, now)) else r
  }

  /** The map after a check that visited the given ids: expired completed requests are gone, expired
      open ones are closed, all others are untouched. */
  function Swept(cfg: Config, s: Server, now: int, order: seq<nat>): map<nat, RequestState> {
    map id | id in s.requests && !(id in order && Expired(cfg, s.requests[id], now) && s.requests[id].completed) ::
      if id in order then AfterCheck(cfg, s.requests[id], now) else s.requests[id]
  }

  lemma ClosingsElsewhere(cfg: Config, s: Server, s': Server, now: int, order: seq<nat>)
    requires forall id :: id in order ==> (id in s.requests <==> id in s'.requests) && (id in s.requests ==> s'.requests[id] == s.requests[id])
    ensures Closings(cfg, s, now, order) == Closings(cfg, s', now, order)
  {}

  lemma ClosingsCons(cfg: Config, s: Server, now: int, order: seq<nat>)
    requires order != []
    ensures Closings(cfg, s, now, order) == Closings(cfg, s, now, [order[0]]) + Closings(cfg, s, now, order[1..])
  {
    assert Closings(cfg, s, now, []) == [];
  }

  /** One visit of a check that does not end the connection. */
  function Visit(cfg: Config, s: Server, now: int, id: nat): Server {
    if !ExpiredIn(cfg, s, now, id) then s
    else if s.requests[id].completed then Delete(s, id)
    else CloseRequest(s, id, TIMEOUT_MESSAGE, now, true).0
  }

  lemma VisitIsExact(cfg: Config, s: Server, now: int, id: nat)
    requires Tidy(s) && s.status.Open?
    requires ExpiredIn(cfg, s, now, id) ==> !s.requests[id].closed
    ensures var t := Visit(cfg, s, now, id);
            && Tidy(t) && t.status.Open?
            && (forall k :: k != id ==> (k in t.requests <==> k in s.requests) && (k in s.requests ==> t.requests[k] == s.requests[k]))
            && (id in t.requests <==> id in s.requests && !(Expired(cfg, s.requests[id], now) && s.requests[id].completed))
            && (id in t.requests ==> t.requests[id] == AfterCheck(cfg, s.requests[id], now))
            && t.hist == s.hist + Closings(cfg, s, now, [id])
  {}

  lemma SweptAfterVisit(cfg: Config, s: Server, s1: Server, now: int, order: seq<nat>)
    requires order != [] && NoRepeats(order)
    requires forall k :: k != order[0] ==> (k in s1.requests <==> k in s.requests) && (k in s.requests ==> s1.requests[k] == s.requests[k])
    requires var id := order[0];
             && (id in s1.requests <==> id in s.requests && !(Expired(cfg, s.requests[id], now) && s.requests[id].completed))
             && (id in s1.requests ==> s1.requests[id] == AfterCheck(cfg, s.requests[id], now))
    ensures Swept(cfg, s1, now, order[1..]) == Swept(cfg, s, now, order)
  {}

  /** A check that meets no expired closed request, and whose sends all go through. */
  lemma {:induction false} LosslessSweep(cfg: Config, s: Server, now: int, order: seq<nat>)
    requires NoRepeats(order) && Tidy(s) && s.status.Open?
    requires forall id :: id in order && ExpiredIn(cfg, s, now, id) ==> !s.requests[id].closed
    ensures var t := Sweep(cfg, s, now, order, {});
            && t.status.Open?
            && t.requests == Swept(cfg, s, now, order)
            && t.hist == s.hist + Closings(cfg, s, now, order)
    decreases |order|
  {
    if order == [] {
      assert Swept(cfg, s, now, order) == s.requests;
    } else {
      var id, rest := order[0], order[1..];
      assert id in order && id !in rest && forall k :: k in rest ==> k in order;
      var s1 := Visit(cfg, s, now, id);
      VisitIsExact(cfg, s, now, id);
      SweptAfterVisit(cfg, s, s1, now, order);
      LosslessSweep(cfg, s1, now, rest);
      ClosingsElsewhere(cfg, s, s1, now, rest);
      ClosingsCons(cfg, s, now, order);
      assert Sweep(cfg, s, now, order, {}) == Sweep(cfg, s1, now, rest, {});
    }
  }

  /** A check that meets an expired closed request ends the connection. */
  lemma {:induction false} SweepTimesOut(cfg: Config, s: Server, now: int, order: seq<nat>, id: nat)
    requires NoRepeats(order) && Tidy(s) && s.status.Open?
    requires id in order && ExpiredIn(cfg, s, now, id) && s.requests[id].closed
    ensures var t := Sweep(cfg, s, now, order, {});
            t.status.Stopping? && t.hist != [] && t.hist[|t.hist| - 1] == Out(Close(TimedOut))
    decreases |order|
  {
    var k, rest := order[0], order[1..];
    if ExpiredIn(cfg, s, now, k) && s.requests[k].closed {
    } else {
      var s1 := if !ExpiredIn(cfg, s, now, k) then s
                else if s.requests[k].completed then Delete(s, k)
                else CloseRequest(s, k, TIMEOUT_MESSAGE, now, true).0;
      if ExpiredIn(cfg, s, now, k) && !s.requests[k].completed { CloseRequestGrown(s, k, TIMEOUT_MESSAGE, now, true); }
      assert id in rest;
      SweepTimesOut(cfg, s1, now, rest, id);
    }
  }

  /** The check tries to close this request, but finds the connection done. */
  predicate FailsToClose(cfg: Config, s: Server, now: int, lost: set<nat>, id: nat) {
    ExpiredIn(cfg, s, now, id) && !s.requests[id].closed && !s.requests[id].completed && id in lost
  }

  /** Sends that are not tried cannot be lost. */
  lemma {:induction false} NothingIsLost(cfg: Config, s: Server, now: int, order: seq<nat>, lost: set<nat>)
    requires NoRepeats(order) && Tidy(s)
    requires forall id :: id in order ==> !FailsToClose(cfg, s, now, lost, id)
    ensures Sweep(cfg, s, now, order, lost) == Sweep(cfg, s, now, order, {})
    decreases |order|
  {
    if order != [] {
      var k, rest := order[0], order[1..];
      assert k in order && k !in rest && forall j :: j in rest ==> j in order;
      if !ExpiredIn(cfg, s, now, k) {
        NothingIsLost(cfg, s, now, rest, lost);
      } else if s.requests[k].closed {
      } else if s.requests[k].completed {
        NothingIsLost(cfg, Delete(s, k), now, rest, lost);
      } else {
        CloseRequestGrown(s, k, TIMEOUT_MESSAGE, now, true);
        NothingIsLost(cfg, CloseRequest(s, k, TIMEOUT_MESSAGE, now, true).0, now, rest, lost);
      }
    }
  }

  /** A check that meets no expired closed request, and loses no message it needs to send, does exactly
      what Swept and Closings say. */
  lemma SweepIsExact(cfg: Config, s: Server, now: int, order: seq<nat>, lost: set<nat>)
    requires NoRepeats(order) && Tidy(s) && s.status.Open?
    requires forall id :: id in order && ExpiredIn(cfg, s, now, id) ==> !s.requests[id].closed
    requires forall id :: id in order ==> !FailsToClose(cfg, s, now, lost, id)
    ensures var t := Sweep(cfg, s, now, order, lost);
            && t.status.Open?
            && t.requests == Swept(cfg, s, now, order)
            && t.hist == s.hist + Closings(cfg, s, now, order)
  {
    NothingIsLost(cfg, s, now, order, lost);
    LosslessSweep(cfg, s, now, order);
  }

  lemma {:induction false} SweepStatus(cfg: Config, s: Server, now: int, order: seq<nat>, lost: set<nat>)
    requires s.status.Open? || s.status.Stopping?
    ensures Sweep(cfg, s, now, order, lost).status.Open? || Sweep(cfg, s, now, order, lost).status.Stopping?
    decreases |order|
  {
    if order != [] {
      var id, rest := order[0], order[1..];
      if !ExpiredIn(cfg, s, now, id) {
        SweepStatus(cfg, s, now, rest, lost);
      } else if s.requests[id].closed {
      } else if s.requests[id].completed {
        SweepStatus(cfg, Delete(s, id), now, rest, lost);
      } else {
        SweepStatus(cfg, CloseRequest(s, id, TIMEOUT_MESSAGE, now, id !in lost).0, now, rest, lost);
      }
    }
  }

  /** A check that cannot send, or meets an expired closed request, does not leave the connection open. */
  lemma {:induction false} SweepEnds(cfg: Config, s: Server, now: int, order: seq<nat>, lost: set<nat>, id: nat)
    requires NoRepeats(order) && Tidy(s) && id in order
    requires ExpiredIn(cfg, s, now, id) && (s.requests[id].closed || FailsToClose(cfg, s, now, lost, id))
    ensures !Sweep(cfg, s, now, order, lost).status.Open?
    decreases |order|
  {
    var k, rest := order[0], order[1..];
    if !ExpiredIn(cfg, s, now, k) {
      SweepEnds(cfg, s, now, rest, lost, id);
    } else if s.requests[k].closed {
    } else if s.requests[k].completed {
      SweepEnds(cfg, Delete(s, k), now, rest, lost, id);
    } else {
      var s1 := CloseRequest(s, k, TIMEOUT_MESSAGE, now, k !in lost).0;
      if k in lost {
        if Sweep(cfg, s1, now, rest, lost).status.Open? { StoppingStays(cfg, s1, now, rest, lost); }
      } else {
        CloseRequestGrown(s, k, TIMEOUT_MESSAGE, now, true);
        SweepEnds(cfg, s1, now, rest, lost, id);
      }
    }
  }

  /** What a timeout check does, whatever order the map is visited in and whichever sends find the
      connection done. */
  predicate CheckOutcome(cfg: Config, s: Server, t: Server, now: int, order: seq<nat>) {
    && t.requests == Swept(cfg, s, now, order)
    && t.hist == s.hist + Closings(cfg, s, now, order)
    && forall id :: id in t.requests ==> !Expired(cfg, t.requests[id], now)
  }

  /** The timeout check ends the connection exactly when some closed request has expired, or the closing
      of an expired open one finds the connection done. Otherwise it removes exactly the expired
      completed requests, closes exactly the expired open ones, and leaves only requests younger than
      the timeout. */
  lemma TimeoutCheck(cfg: Config, inputs: seq<Timed>, now: int, order: seq<nat>, lost: set<nat>)
    requires cfg.Valid() && Run(cfg, inputs).status.Open?
    requires Visits(order, Run(cfg, inputs).requests.Keys)
    ensures var s := Run(cfg, inputs);
            var t := Step(cfg, s, now, Tick(order, lost));
            && (t.status.Ended? <==>
                  exists id :: ExpiredIn(cfg, s, now, id) && (s.requests[id].closed || FailsToClose(cfg, s, now, lost, id)))
            && (t.status.Ended? && (forall id :: !FailsToClose(cfg, s, now, lost, id)) ==>
                  t.hist != [] && t.hist[|t.hist| - 1] == Out(Close(TimedOut)))
            && (t.status.Open? ==> CheckOutcome(cfg, s, t, now, order))
            && (t.status.Open? || t.status.Ended?)
  {
    var s := Run(cfg, inputs);
    RunKeeps(cfg, inputs);
    TidyFromInv(cfg, s);
    CheckIsExact(cfg, s, now, order, lost);
  }

  lemma CheckIsExact(cfg: Config, s: Server, now: int, order: seq<nat>, lost: set<nat>)
    requires cfg.Valid() && s.status.Open? && Tidy(s) && Visits(order, s.requests.Keys)
    ensures var t := Step(cfg, s, now, Tick(order, lost));
            && (t.status.Ended? <==>
                  exists id :: ExpiredIn(cfg, s, now, id) && (s.requests[id].closed || FailsToClose(cfg, s, now, lost, id)))
            && (t.status.Ended? && (forall id :: !FailsToClose(cfg, s, now, lost, id)) ==>
                  t.hist != [] && t.hist[|t.hist| - 1] == Out(Close(TimedOut)))
            && (t.status.Open? ==> CheckOutcome(cfg, s, t, now, order))
            && (t.status.Open? || t.status.Ended?)
  {
    SweepStatus(cfg, s, now, order, lost);
    if id :| ExpiredIn(cfg, s, now, id) && (s.requests[id].closed || FailsToClose(cfg, s, now, lost, id)) {
      SweepEnds(cfg, s, now, order, lost, id);
      if forall k :: !FailsToClose(cfg, s, now, lost, k) {
        NothingIsLost(cfg, s, now, order, lost);
        SweepTimesOut(cfg, s, now, order, id);
      }
    } else {
      SweepIsExact(cfg, s, now, order, lost);
    }
  }

  /** Also when sends are lost on the way: what a check leaves in an open connection is young. */
  lemma {:induction false} SweepLeavesYoung(cfg: Config, s: Server, now: int, order: seq<nat>, lost: set<nat>, id: nat)
    requires cfg.Valid() && NoRepeats(order) && Tidy(s)
    requires Sweep(cfg, s, now, order, lost).status.Open?
    requires id in Sweep(cfg, s, now, order, lost).requests
    ensures id in s.requests
    ensures var r, r' := s.requests[id], Sweep(cfg, s, now, order, lost).requests[id];
            && (id in order && Expired(cfg, r, now) ==> !r.closed && !r.completed)
            && r' == if id in order then AfterCheck(cfg, r, now) else r
    decreases |order|
  {
    if order != [] {
      var k, rest := order[0], order[1..];
      assert k !in rest && forall j :: j in order <==> j == k || j in rest;
      if !ExpiredIn(cfg, s, now, k) {
        SweepLeavesYoung(cfg, s, now, rest, lost, id);
      } else if s.requests[k].closed {
      } else if s.requests[k].completed {
        SweepLeavesYoung(cfg, Delete(s, k), now, rest, lost, id);
      } else {
        var s1 := CloseRequest(s, k, TIMEOUT_MESSAGE, now, k !in lost).0;
        CloseRequestGrown(s, k, TIMEOUT_MESSAGE, now, k !in lost);
        SweepLeavesYoung(cfg, s1, now, rest, lost, id);
        StoppingStays(cfg, s1, now, rest, lost);
      }
    }
  }

  lemma {:induction false} StoppingStays(cfg: Config, s: Server, now: int, order: seq<nat>, lost: set<nat>)
    requires Sweep(cfg, s, now, order, lost).status.Open?
    ensures s.status.Open?
    decreases |order|
  {
    if order != [] {
      var id, rest := order[0], order[1..];
      if id !in s.requests || !Expired(cfg, s.requests[id], now) {
        StoppingStays(cfg, s, now, rest, lost);
      } else if s.requests[id].closed {
      } else if s.requests[id].completed {
        StoppingStays(cfg, Delete(s, id), now, rest, lost);
      } else {
        StoppingStays(cfg, CloseRequest(s, id, TIMEOUT_MESSAGE, now, id !in lost).0, now, rest, lost);
      }
    }
  }

  // ---- how long a request can stay in the map ----

  /** The time of the last tick of a run that started at time 0. */
  function LastTick(inputs: seq<Timed>): int {
    if inputs == [] then 0
    else
      var t := inputs[|inputs| - 1];
      if t.input.Tick? then t.now else LastTick(inputs[..|inputs| - 1])
  }

  function LastTime(inputs: seq<Timed>): int {
    if inputs == [] then 0 else inputs[|inputs| - 1].now
  }

  /** Time does not run backwards, and no input is handled more than `interval` after the last tick. */
  predicate Ticking(inputs: seq<Timed>, interval: nat) {
    inputs == [] ||
    var prefix, t := inputs[..|inputs| - 1], inputs[|inputs| - 1];
    && Ticking(prefix, interval)
    && LastTime(prefix) <= t.now <= LastTick(prefix) + interval
  }

  /** How often the timeout of an open request was reset: once by its header, once by each chunk. */
  function Resets(r: RequestState): nat {
    if r.response.None? then 0 else 1 + r.response.value.chunkSequence
  }

  /** The largest number of chunks of any allowed content. */
  function MaxChunks(cfg: Config): nat
    requires cfg.Valid()
  {
    NumChunks(cfg.maxContentSize, cfg.chunkSize)
  }

  /** With w the longest time between two resets: when the last reset was, at the latest. */
  predicate OnTime(cfg: Config, r: RequestState, lastTick: int, now: int, w: nat)
    requires cfg.Valid()
  {
    && r.created <= r.lastUpdated <= now
    && lastTick < r.lastUpdated + cfg.clientTimeout
    && r.lastUpdated <= r.created + (if r.closed then MaxChunks(cfg) + 1 else Resets(r)) * w
  }

  ghost predicate AllOnTime(cfg: Config, s: Server, lastTick: int, now: int, w: nat)
    requires cfg.Valid()
  {
    forall id :: id in s.requests ==> OnTime(cfg, s.requests[id], lastTick, now, w)
  }

  lemma MoreTime(k: nat, n: nat, w: nat)
    ensures (k + 1) * w == k * w + w
    ensures k <= n ==> k * w <= n * w
  {}

  lemma {:induction false} ResetsBounded(cfg: Config, id: nat, r: RequestState, ins: seq<ClientMessage>, outs: seq<ServerMessage>)
    requires cfg.Valid() && Live(cfg, id, r, ins, outs)
    ensures !r.closed ==> Resets(r) <= MaxChunks(cfg) + (if r.completed then 1 else 0)
  {
    if r.response.Some? {
      NumChunksMonotone(r.response.value.header.contentSize, cfg.maxContentSize, cfg.chunkSize);
    }
  }

  /** A reset in time, with the count of resets going up by one, or the request being closed. */
  lemma ResetOnTime(cfg: Config, r: RequestState, r': RequestState, lastTick: int, last: int, now: int, w: nat)
    requires cfg.Valid() && OnTime(cfg, r, lastTick, last, w)
    requires last <= now && now - r.lastUpdated <= w && lastTick <= now
    requires !r.closed && r'.created == r.created && r'.lastUpdated == now
    requires Resets(r) <= MaxChunks(cfg)
    requires r'.closed || Resets(r') == Resets(r) + 1
    ensures OnTime(cfg, r', lastTick, now, w)
  {
    MoreTime(Resets(r), MaxChunks(cfg), w);
    MoreTime(Resets(r) + 1, MaxChunks(cfg) + 1, w);
  }

  /** What one input does to the clock of a request that is still in the map: nothing, or a reset
      that is either counted or the last one. */
  predicate ClockStep(r: RequestState, r': RequestState, now: int) {
    && r'.created == r.created
    && (|| (r'.lastUpdated == r.lastUpdated && r'.closed == r.closed && (r.closed || Resets(r') == Resets(r)))
        || (!r.closed && !r.completed && r'.lastUpdated == now && (r'.closed || Resets(r') == Resets(r) + 1)))
  }

  ghost predicate ClocksStep(s: Server, t: Server, now: int) {
    forall id :: id in t.requests ==>
      if id in s.requests then ClockStep(s.requests[id], t.requests[id], now)
      else t.requests[id].created == t.requests[id].lastUpdated == now
  }

  lemma ChunkClock(cfg: Config, s: Server, now: int, m: ClientMessage)
    requires cfg.Valid() && s.status.Open? && CoreInv(cfg, s) && m.ContentChunk?
    ensures OnContentChunk(cfg, s, m, now).status.Open? ==> ClocksStep(s, OnContentChunk(cfg, s, m, now), now)
  {
    var id, t := m.requestId, OnContentChunk(cfg, s, m, now);
    if id in s.requests && t.status.Open? {
      var r := s.requests[id];
      LivePosition(cfg, id, r, InOf(s.hist, id), OutOf(s.hist, id));
      NextChunkInfoMeaning(cfg, r.response.value);
      ChunkExists(r.response.value.header.contentSize, cfg.chunkSize, m.sequence);
      ExpectedClock(cfg, s, now, m);
    }
  }

  lemma ExpectedClock(cfg: Config, s: Server, now: int, m: ClientMessage)
    requires cfg.Valid() && m.ContentChunk? && m.requestId in s.requests
    requires var r := s.requests[m.requestId];
             r.id == m.requestId && Expected(cfg, r, m) && !r.response.value.chunksClosed
    ensures ClocksStep(s, OnContentChunk(cfg, s, m, now), now)
  {
    ExpectedChunk(cfg, s, m, now);
  }

  lemma SweepClock(cfg: Config, s: Server, now: int, order: seq<nat>, lost: set<nat>)
    requires cfg.Valid() && Tidy(s) && Visits(order, s.requests.Keys)
    requires Sweep(cfg, s, now, order, lost).status.Open?
    ensures var t := Sweep(cfg, s, now, order, lost);
            ClocksStep(s, t, now) && forall id :: id in t.requests ==> !Expired(cfg, t.requests[id], now)
  {
    var t := Sweep(cfg, s, now, order, lost);
    forall id | id in t.requests
      ensures id in s.requests && ClockStep(s.requests[id], t.requests[id], now) && !Expired(cfg, t.requests[id], now)
    {
      SweepLeavesYoung(cfg, s, now, order, lost, id);
    }
  }

  lemma EmptyIsIncomplete(cfg: Config, s: Server)
    requires cfg.Valid() && CoreInv(cfg, s)
    ensures forall id :: id in s.requests && s.requests[id].response.None? ==> !s.requests[id].completed
  {}

  lemma HandleClock(cfg: Config, s: Server, now: int, input: Input)
    requires cfg.Valid() && s.status.Open? && CoreInv(cfg, s) && Enabled(s, input)
    requires Handle(cfg, s, now, input).0.status.Open?
    ensures ClocksStep(s, Handle(cfg, s, now, input).0, now)
    ensures input.Tick? ==> forall id :: id in Handle(cfg, s, now, input).0.requests ==>
              !Expired(cfg, Handle(cfg, s, now, input).0.requests[id], now)
  {
    TidyFromInv(cfg, s);
    EmptyIsIncomplete(cfg, s);
    if input.Receive? && input.m.ContentChunk? {
      ChunkClock(cfg, s, now, input.m);
    } else if input.Receive? {
      MessageClock(cfg, s, now, input.m);
    } else if input.Tick? {
      SweepClock(cfg, s, now, input.order, input.lost);
    } else {
      CallClock(cfg, s, now, input);
    }
  }

  lemma CallClock(cfg: Config, s: Server, now: int, input: Input)
    requires Tidy(s) && s.status.Open? && !input.Receive? && !input.Tick?
    requires Handle(cfg, s, now, input).0.status.Open?
    ensures ClocksStep(s, Handle(cfg, s, now, input).0, now)
  {}

  lemma MessageClock(cfg: Config, s: Server, now: int, m: ClientMessage)
    requires Tidy(s) && s.status.Open? && !m.ContentChunk? && OnMessage(cfg, s, m, now).status.Open?
    requires forall id :: id in s.requests && s.requests[id].response.None? ==> !s.requests[id].completed
    ensures ClocksStep(s, OnMessage(cfg, s, m, now), now)
  {}

  lemma OnTimeStep(cfg: Config, s: Server, t: Server, lastTick: int, last: int, now: int, w: nat, i: nat)
    requires cfg.Valid() && CoreInv(cfg, s) && AllOnTime(cfg, s, lastTick, last, w)
    requires ClocksStep(s, t, now) && w == cfg.clientTimeout + i
    requires lastTick <= last <= now <= lastTick + i
    ensures AllOnTime(cfg, t, lastTick, now, w)
  {
    forall id | id in t.requests ensures OnTime(cfg, t.requests[id], lastTick, now, w) {
      if id in s.requests {
        var r, r' := s.requests[id], t.requests[id];
        ResetsBounded(cfg, id, r, InOf(s.hist, id), OutOf(s.hist, id));
        if !(r'.lastUpdated == r.lastUpdated && r'.closed == r.closed && (r.closed || Resets(r') == Resets(r))) {
          ResetOnTime(cfg, r, r', lastTick, last, now, w);
        }
      } else {
        MoreTime(0, Resets(t.requests[id]), w);
      }
    }
  }

  /** In a run with regular ticks every request is on time. */
  lemma {:induction false} RunOnTime(cfg: Config, inputs: seq<Timed>, interval: nat)
    requires cfg.Valid() && ValidRun(cfg, inputs) && Ticking(inputs, interval)
    ensures LastTick(inputs) <= LastTime(inputs)
    ensures Run(cfg, inputs).status.Open? ==>
              AllOnTime(cfg, Run(cfg, inputs), LastTick(inputs), LastTime(inputs), cfg.clientTimeout + interval)
  {
    if inputs != [] {
      var prefix, t := inputs[..|inputs| - 1], inputs[|inputs| - 1];
      var s, w := Run(cfg, prefix), cfg.clientTimeout + interval;
      RunOnTime(cfg, prefix, interval);
      RunKeeps(cfg, prefix);
      if s.status.Open? && Handle(cfg, s, t.now, t.input).0.status.Open? {
        HandleClock(cfg, s, t.now, t.input);
        OnTimeStep(cfg, s, Run(cfg, inputs), LastTick(prefix), LastTime(prefix), t.now, w, interval);
      }
    }
  }

  /** While the connection lives, no request stays in the map longer than (n + 2) * (T + I): T is the
      client timeout, I the longest time between two ticks, n the chunk count of the largest content. */
  lemma RequestLifetime(cfg: Config, inputs: seq<Timed>, interval: nat, id: nat, now: int)
    requires cfg.Valid() && ValidRun(cfg, inputs) && Ticking(inputs, interval)
    requires Run(cfg, inputs).status.Open? && id in Run(cfg, inputs).requests
    requires LastTime(inputs) <= now <= LastTick(inputs) + interval
    ensures now - Run(cfg, inputs).requests[id].created < (MaxChunks(cfg) + 2) * (cfg.clientTimeout + interval)
  {
    var s := Run(cfg, inputs);
    RunOnTime(cfg, inputs, interval);
    RunKeeps(cfg, inputs);
    OnTimeIsShort(cfg, id, s.requests[id], InOf(s.hist, id), OutOf(s.hist, id), LastTick(inputs), LastTime(inputs), now, interval);
  }

  lemma OnTimeIsShort(cfg: Config, id: nat, r: RequestState, ins: seq<ClientMessage>, outs: seq<ServerMessage>,
                      lastTick: int, last: int, now: int, interval: nat)
    requires cfg.Valid() && Live(cfg, id, r, ins, outs)
    requires OnTime(cfg, r, lastTick, last, cfg.clientTimeout + interval) && now <= lastTick + interval
    ensures now - r.created < (MaxChunks(cfg) + 2) * (cfg.clientTimeout + interval)
  {
    var w := cfg.clientTimeout + interval;
    ResetsBounded(cfg, id, r, ins, outs);
    MoreTime(MaxChunks(cfg) + 1, MaxChunks(cfg) + 1, w);
    if !r.closed { MoreTime(Resets(r), MaxChunks(cfg) + 1, w); }
  }
}
