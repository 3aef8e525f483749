/** What cancelling a request and asking a handler to exit lead to, whatever the threads do in between. */
module HandlerStops {
  import opened Wire
  import opened Chunking
  import opened Handler
  import opened HandlerRuns
  import opened HandlerTheorems
  import opened HandlerProgress

  // ---- cancelling the request being served ----

  /** The chunks that are sent or about to be sent. */
  function Committed(h: Handler): nat
    requires h.current.Some?
  {
    h.current.value.chunks + if h.pc.ChunkReady? then 1 else 0
  }

  /** The response as it is going to be when it is cancelled with p chunks committed. */
  function CutAt(h: Handler, id: nat, p: nat): Block {
    Block(id, true, p, 0 < h.chunkSize && p < Count(h))
  }

  /** The serve loop is busy with a cancelled request, of which p chunks were sent or prepared. */
  predicate Doomed(t: Handler, id: nat, p: nat) {
    && t.handling == Some(id) && t.cancel && t.current.Some? && t.current.value.id == id
    && !t.pc.Exited? && (t.pc.HeaderSent? ==> t.pc.ok) && (t.pc.ChunkSent? ==> t.pc.ok)
    && Committed(t) == p
  }

  /** The response was cut, or is going to be after at most that many steps of the serve loop. */
  predicate CutSoon(t: Handler, id: nat, p: nat, steps: nat) {
    CutAt(t, id, p) in t.past || (Doomed(t, id, p) && StepsToExit(t) <= steps)
  }

  /** The head of the loop files a cancelled response as closed. */
  lemma HeadCuts(h: Handler, id: nat)
    requires h.current.Some? && h.handling == Some(id) && h.cancel
    ensures LoopHead(h, true).past == h.past + [h.current.value.(closed := true)]
    ensures h.total == |h.content.data| ==> IterationEnd(h, true).past == h.past + [h.current.value]
    ensures h.total != |h.content.data| ==> IterationEnd(h, true).past == h.past + [h.current.value.(closed := true)]
  {}

  lemma CutsHeader(h: Handler, id: nat, p: nat)
    requires Inv(h) && Ready(h) && Doomed(h, id, p) && h.pc.HeaderSent?
    ensures CanServe(h) && CutAt(h, id, p) in ServeStep(h, true).past
  {
    HeadCuts(h, id);
    CountReached(h, 0);
    assert h.current.value.(closed := true) == CutAt(h, id, p);
  }

  lemma CutsChunk(h: Handler, id: nat, p: nat)
    requires Inv(h) && Ready(h) && Doomed(h, id, p) && h.pc.ChunkSent?
    ensures CanServe(h) && CutAt(h, id, p) in ServeStep(h, true).past
  {
    var h1 := h.(total := h.total + h.pc.n);
    SentCounts(h);
    SentStepIs(h, true);
    HeadCuts(h1, id);
  }

  lemma CutsEnd(h: Handler, id: nat, p: nat)
    requires Inv(h) && Ready(h) && Doomed(h, id, p) && h.pc.CallbackDone?
    ensures CanServe(h) && CutAt(h, id, p) in ServeStep(h, true).past
  {
    HeadCuts(h, id);
  }

  lemma PlainCuts(h: Handler, id: nat, p: nat)
    requires Inv(h) && Ready(h) && Doomed(h, id, p) && (h.pc.HeaderReady? || h.pc.ChunkReady? || h.pc.Callback?)
    ensures CanServe(h) && Doomed(ServeStep(h, true), id, p) && StepsToExit(ServeStep(h, true)) < StepsToExit(h)
  {}

  lemma ServeCuts(h: Handler, id: nat, p: nat, steps: nat)
    requires Inv(h) && Doomed(h, id, p) && StepsToExit(h) <= steps
    ensures CanServe(h) && Ready(h) && 0 < steps && CutSoon(ServeStep(h, true), id, p, steps - 1)
  {
    InvReady(h);
    ServeStepFrame(h);
    match h.pc {
      case HeaderSent(_) => CutsHeader(h, id, p);
      case ChunkSent(_, _) => CutsChunk(h, id, p);
      case CallbackDone => CutsEnd(h, id, p);
      case _ => PlainCuts(h, id, p);
    }
  }

  lemma ServeStepFrame(h: Handler)
    requires Ready(h)
    ensures CanServe(h) ==> ServeStep(h, true).content == h.content && ServeStep(h, true).chunkSize == h.chunkSize
  {}

  lemma OthersCut(h: Handler, input: Input, id: nat, p: nat, steps: nat)
    requires Ready(h) && Enabled(h, input) && !input.Serve? && CutSoon(h, id, p, steps)
    ensures CutSoon(Step(h, input), id, p, steps)
  {
    StepGrows(h, input);
  }

  lemma CutStays(h: Handler, input: Input, id: nat, p: nat)
    requires Ready(h) && Enabled(h, input) && CutAt(h, id, p) in h.past
    ensures CutAt(Step(h, input), id, p) in Step(h, input).past
  {
    StepGrows(h, input);
    StepFrame(h, input);
  }

  /** Where the cancelled response stands when `served` of the steps in the budget are used up. */
  predicate OnSchedule(t: Handler, id: nat, p: nat, budget: nat, served: nat) {
    CutAt(t, id, p) in t.past || (served <= budget && CutSoon(t, id, p, budget - served))
  }

  lemma StepCuts(t: Handler, input: Input, u: Handler, id: nat, p: nat, budget: nat, served: nat)
    requires Inv(t) && Ready(t) && GoesOut(input) && u == if Enabled(t, input) then Step(t, input) else t
    requires OnSchedule(t, id, p, budget, served)
    ensures OnSchedule(u, id, p, budget, if input.Serve? then served + 1 else served)
  {
    if CutAt(t, id, p) in t.past {
      if Enabled(t, input) { CutStays(t, input, id, p); }
    } else if input.Serve? {
      ServeCuts(t, id, p, budget - served);
    } else if Enabled(t, input) {
      OthersCut(t, input, id, p, budget - served);
    }
  }

  lemma {:induction false} RunCuts(h: Handler, inputs: seq<Input>, id: nat, p: nat, budget: nat)
    requires Inv(h) && OnSchedule(h, id, p, budget, 0) && AllGoOut(inputs)
    ensures OnSchedule(Run(h, inputs), id, p, budget, Serves(inputs))
  {
    if inputs != [] {
      var init, input := inputs[..|inputs| - 1], inputs[|inputs| - 1];
      assert GoesOut(input);
      assert AllGoOut(init) by { assert forall i :: 0 <= i < |init| ==> init[i] == inputs[i]; }
      RunCuts(h, init, id, p, budget);
      RunIs(h, inputs);
      StepCuts(Run(h, init), input, Run(h, inputs), id, p, budget, Serves(init));
    }
  }

  lemma OnScheduleEnds(t: Handler, id: nat, p: nat, budget: nat, served: nat)
    requires Inv(t) && OnSchedule(t, id, p, budget, served)
    ensures served >= budget ==> CutAt(t, id, p) in t.past
  {
    if CutAt(t, id, p) !in t.past { assert StepsToExit(t) > 0; }
  }

  // ---- what goes out ----

  /** What was sent so far about a cancelled response is the beginning of what will have been sent. */
  lemma SentSoFar(t: Handler, id: nat, p: nat, steps: nat)
    requires Inv(t) && CutSoon(t, id, p, steps)
    ensures |t.content.data| < U64 && Of(Messages(t.log), id) <= BlockMessages(t.content, t.chunkSize, CutAt(t, id, p))
    ensures CutAt(t, id, p) in t.past ==> Of(Messages(t.log), id) == BlockMessages(t.content, t.chunkSize, CutAt(t, id, p))
  {
    if CutAt(t, id, p) in t.past {
      assert CutAt(t, id, p) in Blocks(t);
      BlockForm(t, CutAt(t, id, p));
    } else {
      SentBefore(t, id, p);
    }
  }

  lemma SentBefore(t: Handler, id: nat, p: nat)
    requires Inv(t) && Doomed(t, id, p)
    ensures |t.content.data| < U64 && Of(Messages(t.log), id) <= BlockMessages(t.content, t.chunkSize, CutAt(t, id, p))
    ensures CutAt(t, id, p) !in t.past
  {
    var b := t.current.value;
    assert b in Blocks(t);
    BlockForm(t, b);
    if t.pc.ChunkReady? { ChunkReadyFits(t); }
    BlockGrows(t.content, t.chunkSize, b, p, CutAt(t, id, p).closed);
    OnlyOnce(t, CutAt(t, id, p));
  }

  lemma OnlyOnce(t: Handler, b: Block)
    requires Inv(t) && t.current.Some? && t.current.value.id == b.id
    ensures b !in t.past
  {
    Bookkeeping(t);
    Snoc(Blocks(t));
    IdsOf(t.past);
    assert Blocks(t)[..|Blocks(t)| - 1] == t.past;
  }

  lemma BlockGrows(c: Content, chunkSize: nat, b: Block, p: nat, closed: bool)
    requires |c.data| < U64 && !b.closed && b.chunks <= p <= b.chunks + 1 && (b.chunks > 0 ==> b.header)
    requires p == b.chunks || (b.header && b.chunks < U64 && b.chunks * chunkSize < |c.data|)
    ensures BlockMessages(c, chunkSize, b) <= BlockMessages(c, chunkSize, Block(b.id, true, p, closed))
  {
    if p > b.chunks { OneMoreChunk(c, chunkSize, b); }
  }

  /** The request is being served, and its sends went well. */
  predicate InService(h: Handler, id: nat) {
    h.handling == Some(id) && (h.pc.HeaderSent? ==> h.pc.ok) && (h.pc.ChunkSent? ==> h.pc.ok)
  }

  lemma CancelDooms(h: Handler, id: nat, ok: bool)
    requires Inv(h) && InService(h, id)
    ensures h.current.Some? && Doomed(CancelRequest(h, id, ok), id, Committed(h))
    ensures StepsToExit(CancelRequest(h, id, ok)) == StepsToExit(h)
  {}

  /** A request that is cancelled while it is served, in any run from then on whose sends succeed: what
      goes out about it is the beginning of the header, the chunks that were sent or prepared, and a
      CloseResponse if and only if chunks are missing then; after at most StepsToExit serve steps it is
      exactly that. */
  lemma CancelIsPrompt(h: Handler, inputs: seq<Input>, id: nat, ok: bool)
    requires Inv(h) && InService(h, id) && AllGoOut(inputs)
    ensures h.current.Some? && Inv(CancelRequest(h, id, ok)) && 0 < |h.content.data| < U64 && 0 < h.chunkSize
    ensures var t, b := Run(CancelRequest(h, id, ok), inputs), Block(id, true, Committed(h), Committed(h) < Count(h));
            && Of(Messages(t.log), id) <= BlockMessages(h.content, h.chunkSize, b)
            && (Serves(inputs) >= StepsToExit(h) ==> b in t.past && Of(Messages(t.log), id) == BlockMessages(h.content, h.chunkSize, b))
  {
    CancelKeeps(h, id, ok);
    CancelDooms(h, id, ok);
    CancelFrame(h, id, ok);
    var p := Committed(h);
    RunCuts(CancelRequest(h, id, ok), inputs, id, p, StepsToExit(h));
    CutOutcome(h, Run(CancelRequest(h, id, ok), inputs), id, p, StepsToExit(h), Serves(inputs));
  }

  lemma CancelFrame(h: Handler, id: nat, ok: bool)
    ensures CancelRequest(h, id, ok).content == h.content && CancelRequest(h, id, ok).chunkSize == h.chunkSize
  {}

  lemma CutOutcome(h: Handler, t: Handler, id: nat, p: nat, budget: nat, served: nat)
    requires Inv(t) && t.content == h.content && t.chunkSize == h.chunkSize && OnSchedule(t, id, p, budget, served)
    ensures |h.content.data| < U64 && 0 < h.chunkSize
    ensures var b := Block(id, true, p, p < Count(h));
            && Of(Messages(t.log), id) <= BlockMessages(h.content, h.chunkSize, b)
            && (served >= budget ==> b in t.past && Of(Messages(t.log), id) == BlockMessages(h.content, h.chunkSize, b))
  {
    assert CutAt(t, id, p) == Block(id, true, p, p < Count(h));
    OnScheduleEnds(t, id, p, budget, served);
    SentSoFar(t, id, p, if served <= budget then budget - served else 0);
  }

  // ---- cancelling a request in the queue, and any other ----

  predicate IsDropped(t: Handler, id: nat) {
    id in t.dropped && CloseResponse(id) in CancelledLog(t.log)
  }

  lemma StaysDropped(t: Handler, input: Input, id: nat)
    requires Ready(t) && Enabled(t, input) && IsDropped(t, id)
    ensures IsDropped(Step(t, input), id)
  {
    if input.Serve? {
      FramedCancels(t, Step(t, input));
    } else if input.Cancel? {
      Logged(t.log, ByCancel(CloseResponse(input.id)));
    }
  }

  lemma {:induction false} RunStaysDropped(h: Handler, inputs: seq<Input>, id: nat)
    requires Inv(h) && IsDropped(h, id)
    ensures IsDropped(Run(h, inputs), id)
  {
    if inputs != [] {
      var init, input := inputs[..|inputs| - 1], inputs[|inputs| - 1];
      RunStaysDropped(h, init, id);
      RunIs(h, inputs);
      if Enabled(Run(h, init), input) { StaysDropped(Run(h, init), input, id); }
    }
  }

  lemma DropsNow(h: Handler, id: nat)
    requires Inv(h) && !h.done && id in h.pending
    ensures IsDropped(CancelRequest(h, id, true), id) && id !in CancelRequest(h, id, true).pending
  {
    DropKeeps(h, id);
    Bookkeeping(h);
    var t := h.(pending := Without(h.pending, id), dropped := h.dropped + {id});
    Bookkeeping(t);
    Logged(h.log, ByCancel(CloseResponse(id)));
    if h.current.Some? { assert h.current.value in Blocks(h); }
  }

  /** A request that is cancelled in the queue is never served: a single CloseResponse goes out about it,
      and nothing else ever does. */
  lemma QueuedCancelCloses(h: Handler, inputs: seq<Input>, id: nat)
    requires Inv(h) && DroppedOnce(h, id) && !h.done && id in h.pending
    ensures Inv(CancelRequest(h, id, true))
    ensures Of(Messages(Run(CancelRequest(h, id, true), inputs).log), id) == [CloseResponse(id)]
  {
    CancelKeeps(h, id, true);
    DropsNow(h, id);
    InvReady(h);
    DroppedOnceStep(h, Input.Cancel(id, true), id);
    RunDroppedOnce(CancelRequest(h, id, true), inputs, id);
    RunStaysDropped(CancelRequest(h, id, true), inputs, id);
    DroppedMessages(Run(CancelRequest(h, id, true), inputs), id);
  }

  lemma DroppedMessages(t: Handler, id: nat)
    requires Inv(t) && DroppedOnce(t, id) && IsDropped(t, id)
    ensures Of(Messages(t.log), id) == [CloseResponse(id)]
  {
    Bookkeeping(t);
    IdsOf(Blocks(t));
    OtherForm(t, id);
    OfMember(CancelledLog(t.log), CloseResponse(id));
  }

  /** Cancelling anything else changes nothing: a request that is done with, or was never enqueued. */
  lemma OtherCancelsNothing(h: Handler, id: nat, ok: bool)
    requires h.done || (h.handling != Some(id) && id !in h.pending)
    ensures CancelRequest(h, id, ok) == h
  {}

  // ---- graceful exit ----

  lemma ServeStops(t: Handler, ok: bool)
    requires Inv(t) && t.stop && !t.done
    ensures CanServe(t) && Ready(t) && ServeStep(t, ok).stop && StepsToExit(ServeStep(t, ok)) < StepsToExit(t)
  {
    StoppingStep(t, ok);
  }

  predicate Leaving(t: Handler, budget: nat, served: nat) {
    t.stop && (t.done || StepsToExit(t) + served <= budget)
  }

  lemma StepLeaves(t: Handler, input: Input, u: Handler, budget: nat, served: nat)
    requires Inv(t) && Ready(t) && u == (if Enabled(t, input) then Step(t, input) else t) && Leaving(t, budget, served)
    ensures Leaving(u, budget, if input.Serve? then served + 1 else served)
  {
    if !t.done {
      if input.Serve? { ServeStops(t, input.ok); }
      else if Enabled(t, input) { StoppingOthers(t, input); }
    }
  }

  lemma {:induction false} RunLeaves(h: Handler, inputs: seq<Input>, budget: nat)
    requires Inv(h) && Leaving(h, budget, 0)
    ensures Leaving(Run(h, inputs), budget, Serves(inputs))
  {
    if inputs != [] {
      var init, input := inputs[..|inputs| - 1], inputs[|inputs| - 1];
      RunLeaves(h, init, budget);
      RunIs(h, inputs);
      StepLeaves(Run(h, init), input, Run(h, inputs), budget, Serves(init));
    }
  }

  /** A handler that is asked to exit is done after at most StepsToExit serve steps, however its sends go
      and whatever else happens. */
  lemma ExitsInTime(h: Handler, inputs: seq<Input>)
    requires Inv(h)
    ensures Inv(RequestExit(h))
    ensures Serves(inputs) >= StepsToExit(h) ==> Run(RequestExit(h), inputs).done
  {
    ExitKeeps(h);
    var t := RequestExit(h);
    if h.done {
      DoneForGood(t, inputs);
    } else {
      RunLeaves(t, inputs, StepsToExit(h));
      if !Run(t, inputs).done { assert StepsToExit(Run(t, inputs)) > 0; }
    }
  }

  lemma {:induction false} DoneForGood(h: Handler, inputs: seq<Input>)
    requires Inv(h) && h.done
    ensures Run(h, inputs).done
  {
    if inputs != [] { DoneForGood(h, inputs[..|inputs| - 1]); }
  }
}
