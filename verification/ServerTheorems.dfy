/** The guarantees of the protocol loop, for every run. */
module ServerTheorems {
  import opened Wire
  import opened Chunking
  import opened History
  import opened Server
  import opened ServerInvariant
  import opened ServerRuns

  // ---- the record of a run obeys the protocol ----

  lemma RunRecord(cfg: Config, inputs: seq<Timed>)
    requires cfg.Valid()
    ensures GoodHistory(cfg, Run(cfg, inputs).hist)
  {
    RunKeeps(cfg, inputs);
  }

  /** How a client message is recorded: as accepted, or as refused and answered with a Close. */
  predicate Records(s: Server, m: ClientMessage, t: Server) {
    || (t.status.Open? && t.hist == s.hist + [In(m)])
    || (t.status.Stopping? && |t.hist| == |s.hist| + 2 && IsClose(t.hist[|s.hist| + 1])
        && t.hist[..|s.hist| + 1] == s.hist + [Refused(m)])
  }

  lemma RefuseRecords(s: Server, s': Server, m: ClientMessage, reason: Reason)
    requires s'.hist == s.hist
    ensures Records(s, m, Refuse(s', m, reason))
  {}

  lemma MessageRecords(cfg: Config, s: Server, now: int, m: ClientMessage)
    requires s.status.Open? && !OnMessage(cfg, s, m, now).status.Panicked?
    ensures Records(s, m, OnMessage(cfg, s, m, now))
  {
    forall s': Server, reason | s'.hist == s.hist ensures Records(s, m, Refuse(s', m, reason)) {
      RefuseRecords(s, s', m, reason);
    }
  }

  /** In every run, a client message is accepted exactly when the protocol allows it at this point. */
  lemma AcceptedExactlyWhenAllowed(cfg: Config, inputs: seq<Timed>, now: int, m: ClientMessage)
    requires cfg.Valid() && Run(cfg, inputs).status.Open?
    ensures var s := Run(cfg, inputs);
            var t := Step(cfg, s, now, Receive(m));
            var allowed := OutOf(s.hist, m.Id()) != [] && MayFollow(cfg, InOf(s.hist, m.Id()), m);
            && (allowed <==> t.status.Open?)
            && (allowed <==> t.hist == s.hist + [In(m)])
  {
    RunKeeps(cfg, inputs);
    AcceptedWhenAllowed(cfg, Run(cfg, inputs), now, m);
  }

  lemma AcceptedWhenAllowed(cfg: Config, s: Server, now: int, m: ClientMessage)
    requires cfg.Valid() && s.status.Open? && CoreInv(cfg, s)
    ensures var t := Step(cfg, s, now, Receive(m));
            var allowed := OutOf(s.hist, m.Id()) != [] && MayFollow(cfg, InOf(s.hist, m.Id()), m);
            && (allowed <==> t.status.Open?)
            && (allowed <==> t.hist == s.hist + [In(m)])
  {
    var t := Step(cfg, s, now, Receive(m));
    StepKeeps(cfg, s, now, Receive(m));
    MessageRecords(cfg, s, now, m);
    RecordSaysAllowed(cfg, s.hist, t.hist, m);
  }

  lemma RecordSaysAllowed(cfg: Config, hist: seq<Event>, hist': seq<Event>, m: ClientMessage)
    requires cfg.Valid() && GoodHistory(cfg, hist')
    requires hist' == hist + [In(m)] ||
             (|hist'| == |hist| + 2 && hist'[..|hist| + 1] == hist + [Refused(m)])
    ensures (OutOf(hist, m.Id()) != [] && MayFollow(cfg, InOf(hist, m.Id()), m)) <==> hist' == hist + [In(m)]
  {}

  /** In every run: nobody who holds a request object that has left the map waits for ever: it is
      completed or closed, and when the connection is over every one has left the map. */
  lemma EndClosesAll(cfg: Config, inputs: seq<Timed>, id: nat)
    requires cfg.Valid()
    ensures var s := Run(cfg, inputs);
            && (id in s.gone ==> (s.gone[id].closed <==> !s.gone[id].completed))
            && (!s.status.Open? ==> s.status.Ended? && id !in s.requests && (OutOf(s.hist, id) != [] ==> id in s.gone))
  {
    RunKeeps(cfg, inputs);
    var s := Run(cfg, inputs);
    assert id in s.gone ==> Dead(cfg, id, s.gone[id], InOf(s.hist, id), OutOf(s.hist, id), s.status.Open?);
    assert Fresh(s, id) ==> OutOf(s.hist, id) == [];
  }

  // ---- what a good record says about one request ----

  /** The server's messages for an id: a request, then at most one of Success and RequestClosed. */
  predicate OutboundForm(id: nat, outs: seq<ServerMessage>) {
    || outs == []
    || (0 < id && |outs| == 1 && outs[0].RequestMsg?)
    || (0 < id && |outs| == 2 && outs[0].RequestMsg? && (outs[1].Success? || outs[1].RequestClosed?))
  }

  /** The client's messages for an id: nothing, an empty response, or a header with its first k
      chunks in order, possibly closed before the last. */
  ghost predicate InboundForm(cfg: Config, ins: seq<ClientMessage>)
    requires cfg.Valid()
  {
    || ins == []
    || (|ins| == 1 && ins[0].EmptyResponse?)
    || (exists header :: HeaderAndChunks(cfg, header, Body(ins)) &&
          (Body(ins) == ins || (ins[|ins| - 1].CloseResponse? && !Full(cfg, Body(ins)))))
  }

  predicate HeaderAndChunks(cfg: Config, header: Header, body: seq<ClientMessage>)
    requires cfg.Valid()
  {
    && body != [] && body[0] == ContentHeader(header) && HeaderAllowed(cfg, header)
    && |body| - 1 <= NumChunks(header.contentSize, cfg.chunkSize)
    && (forall i: nat :: i < |body| - 1 ==> ChunkAt(cfg, ResponseState(header, 0, [], false), body, i))
  }

  /** Success and RequestClosed exclude each other, and the first only follows a full response. */
  lemma {:induction false} RecordForms(cfg: Config, hist: seq<Event>, id: nat)
    requires cfg.Valid() && GoodHistory(cfg, hist)
    ensures OutboundForm(id, OutOf(hist, id))
    ensures InboundForm(cfg, InOf(hist, id))
    ensures forall s :: s in OutOf(hist, id) && s.Success? ==> Full(cfg, InOf(hist, id))
  {
    if hist != [] {
      var prefix, e := hist[..|hist| - 1], hist[|hist| - 1];
      assert hist == prefix + [e];
      RecordForms(cfg, prefix, id);
      if e.In? && e.m.Id() == id {
        InboundStep(cfg, InOf(prefix, id), e.m);
      }
    }
  }

  lemma InboundStep(cfg: Config, ins: seq<ClientMessage>, m: ClientMessage)
    requires cfg.Valid() && InboundForm(cfg, ins) && MayFollow(cfg, ins, m)
    ensures InboundForm(cfg, ins + [m])
    ensures !Full(cfg, ins)
  {
    var ins' := ins + [m];
    if ins == [] {
      if m.ContentHeader? {
        ChunkExists(m.header.contentSize, cfg.chunkSize, 0);
        assert HeaderAndChunks(cfg, m.header, Body(ins'));
      }
    } else {
      var header :| HeaderAndChunks(cfg, header, Body(ins));
      assert Body(ins) == ins;
      if |ins| > 1 { assert ChunkAt(cfg, ResponseState(header, 0, [], false), ins, |ins| - 2); }
      if m.CloseResponse? {
        assert Body(ins') == ins;
      } else {
        ChunkExists(header.contentSize, cfg.chunkSize, |ins| - 1);
        assert Body(ins') == ins';
        forall i: nat | i < |ins'| - 1 ensures ChunkAt(cfg, ResponseState(header, 0, [], false), ins', i) {
          if i < |ins| - 1 { assert ChunkAt(cfg, ResponseState(header, 0, [], false), ins, i); }
        }
        assert HeaderAndChunks(cfg, header, ins');
      }
    }
  }

  /** The ids of the requests sent, in order. */
  function RequestIds(hist: seq<Event>): seq<nat> {
    if hist == [] then []
    else
      var e, before := hist[|hist| - 1], RequestIds(hist[..|hist| - 1]);
      if e.Out? && e.s.RequestMsg? then before + [e.s.id] else before
  }

  /** Request ids are positive and never reused. */
  lemma {:induction false} IdsIncrease(cfg: Config, hist: seq<Event>)
    requires cfg.Valid() && GoodHistory(cfg, hist)
    ensures forall i :: 0 <= i < |RequestIds(hist)| ==> 0 < RequestIds(hist)[i] <= LastRequest(hist)
    ensures forall i, j :: 0 <= i < j < |RequestIds(hist)| ==> RequestIds(hist)[i] < RequestIds(hist)[j]
  {
    if hist != [] { IdsIncrease(cfg, hist[..|hist| - 1]); }
  }

  /** At the moment a RequestClosed goes out the response is incomplete, and at the moment a Success
      goes out it is complete. */
  lemma {:induction false} AnswersAreTimely(cfg: Config, hist: seq<Event>, i: nat)
    requires cfg.Valid() && GoodHistory(cfg, hist) && i < |hist|
    ensures hist[i].Out? && hist[i].s.RequestClosed? ==> !Final(cfg, InOf(hist[..i], hist[i].s.id))
    ensures hist[i].Out? && hist[i].s.Success? ==> Full(cfg, InOf(hist[..i], hist[i].s.id))
    decreases |hist|
  {
    if i < |hist| - 1 {
      AnswersAreTimely(cfg, hist[..|hist| - 1], i);
      assert hist[..|hist| - 1][..i] == hist[..i];
    }
  }
}
