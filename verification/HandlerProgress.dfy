/** How long a request handler takes: a request that nobody interrupts is answered in full after a
    number of serve steps that only depends on the content and on the place in the queue. */
module HandlerProgress {
  import opened Wire
  import opened Chunking
  import opened Handler
  import opened HandlerRuns
  import opened HandlerSteps
  import HandlerTheorems

  /** The serve loop is busy with this request, nobody wants it to stop, and its sends went well. */
  predicate Healthy(h: Handler, id: nat) {
    && h.handling == Some(id) && !h.cancel && !h.stop
    && (h.pc.HeaderSent? ==> h.pc.ok) && (h.pc.ChunkSent? ==> h.pc.ok)
  }

  /** The serve loop goes on: nobody wants it to stop, and its sends went well. The response that it is
      busy with may be cancelled. */
  predicate Sound(h: Handler) {
    !h.stop && !h.pc.Exited? && (h.pc.HeaderSent? ==> h.pc.ok) && (h.pc.ChunkSent? ==> h.pc.ok)
  }

  predicate Awaits(h: Handler, id: nat) {
    Sound(h) && id in h.pending
  }

  /** The request is being served, or is going to be. */
  predicate OnTheWay(h: Handler, id: nat) {
    Healthy(h, id) || Awaits(h, id)
  }

  /** An upper bound for the serve steps before the loop is through with the current response, or takes
      a request after waiting. */
  function StepsLeft(h: Handler): nat {
    if h.pc.Waiting? then 1
    else if h.current.None? || h.chunkSize == 0 || h.current.value.chunks > Count(h) then 0
    else
      var missing := Count(h) - h.current.value.chunks;
      match h.pc
      case HeaderReady => 2 * missing + 4
      case HeaderSent(_) => 2 * missing + 3
      case ChunkReady(_) => 2 * missing + 2
      case ChunkSent(_, _) => 2 * missing + 3
      case Callback => 2
      case _ => 1
  }

  /** The serve steps for one response from its beginning. */
  function Each(h: Handler): nat {
    if h.chunkSize == 0 then 0 else 2 * Count(h) + 4
  }

  /** The serve steps for the requests of a queue up to and including this one. */
  function QueueSteps(ids: seq<nat>, id: nat, each: nat): nat {
    if ids == [] then 0 else if ids[0] == id then each else each + QueueSteps(ids[1..], id, each)
  }

  /** An upper bound for the serve steps before this request is answered. */
  function TurnsLeft(h: Handler, id: nat): nat {
    StepsLeft(h) + if id in h.pending then QueueSteps(h.pending, id, Each(h)) else 0
  }

  lemma {:induction false} QueueStepsAt(ids: seq<nat>, id: nat, each: nat, p: nat)
    requires NoRepeats(ids) && p < |ids| && ids[p] == id
    ensures QueueSteps(ids, id, each) == (p + 1) * each
  {
    if p > 0 {
      assert ids[0] != ids[p];
      assert NoRepeats(ids[1..]) by {
        forall i, j | 0 <= i < j < |ids[1..]| ensures ids[1..][i] != ids[1..][j] { assert ids[i + 1] != ids[j + 1]; }
      }
      QueueStepsAt(ids[1..], id, each, p - 1);
    }
  }

  /** At place p of the queue: the rest of the current response, and p + 1 whole ones. */
  lemma TurnsAtPlace(h: Handler, id: nat, p: nat)
    requires Inv(h) && p < |h.pending| && h.pending[p] == id
    ensures TurnsLeft(h, id) == StepsLeft(h) + (p + 1) * (2 * NumChunks(|h.content.data|, h.chunkSize) + 4)
  {
    QueueOnce(h);
    QueueStepsAt(h.pending, id, Each(h), p);
  }

  lemma QueueOnce(h: Handler)
    requires Inv(h)
    ensures NoRepeats(h.pending)
  {
    KeptElements(h.enqueued, h.dropped);
    LaterOnce(Ids(Blocks(h)), h.pending);
  }

  lemma LaterOnce(a: seq<nat>, b: seq<nat>)
    requires NoRepeats(a + b)
    ensures NoRepeats(b)
  {
    forall i, j | 0 <= i < j < |b| ensures b[i] != b[j] {
      assert (a + b)[|a| + i] == b[i] && (a + b)[|a| + j] == b[j];
    }
  }

  lemma {:induction false} QueueStepsMore(ids: seq<nat>, k: nat, id: nat, each: nat)
    requires id in ids
    ensures QueueSteps(ids + [k], id, each) == QueueSteps(ids, id, each)
  {
    assert (ids + [k])[0] == ids[0] && (ids + [k])[1..] == ids[1..] + [k];
    if ids[0] != id { QueueStepsMore(ids[1..], k, id, each); }
  }

  lemma {:induction false} QueueStepsLess(ids: seq<nat>, k: nat, id: nat, each: nat)
    requires id in ids && k != id
    ensures id in Without(ids, k) && QueueSteps(Without(ids, k), id, each) <= QueueSteps(ids, id, each)
  {
    if ids[0] == k {
      assert id in ids[1..];
    } else if ids[0] != id {
      assert id in ids[1..];
      QueueStepsLess(ids[1..], k, id, each);
      assert ([ids[0]] + Without(ids[1..], k))[1..] == Without(ids[1..], k);
    }
  }

  lemma {:induction false} QueueStepsEach(ids: seq<nat>, id: nat, each: nat)
    requires id in ids
    ensures QueueSteps(ids, id, each) >= each
  {}

  /** The response to this request was sent in full. */
  predicate Filed(h: Handler, id: nat) {
    0 < h.chunkSize && Block(id, true, Count(h), false) in h.past
  }

  /** One serve step in a healthy state brings the response closer to its end, or ends it. */
  predicate Advances(h: Handler, t: Handler, id: nat) {
    Filed(t, id) || (Healthy(t, id) && StepsLeft(t) < StepsLeft(h))
  }

  lemma ReadingAdvances(h: Handler)
    requires Reading(h) && !h.cancel
    ensures var t := ReadChunk(h, true);
            && t.handling == h.handling && !t.cancel && t.stop == h.stop && t.current == h.current && t.pending == h.pending
            && (if h.current.value.chunks < Count(h) then t.pc.ChunkReady? else t.pc.Callback?)
  {
    CountReached(h, h.current.value.chunks);
  }

  lemma SentAdvances(h: Handler, id: nat)
    requires Inv(h) && Healthy(h, id) && CanServe(h) && h.pc.ChunkSent?
    ensures Ready(h) && Inv(ServeStep(h, true)) && Advances(h, ServeStep(h, true), id)
  {
    ServeStepKeeps(h, true);
    SentCounts(h);
    SentStepIs(h, true);
    ReadingAdvances(h.(total := h.total + h.pc.n));
  }

  lemma HeaderSentAdvances(h: Handler, id: nat)
    requires Inv(h) && Healthy(h, id) && CanServe(h) && h.pc.HeaderSent?
    ensures Ready(h) && Inv(ServeStep(h, true)) && Advances(h, ServeStep(h, true), id)
  {
    ServeStepKeeps(h, true);
    CountReached(h, 0);
    ReadingAdvances(h);
  }

  /** A message that is sent as prepared, and the two steps around the report. */
  lemma PlainAdvances(h: Handler, id: nat)
    requires Inv(h) && Ready(h) && Healthy(h, id) && CanServe(h)
    requires h.pc.HeaderReady? || h.pc.ChunkReady? || h.pc.Callback?
    ensures Advances(h, ServeStep(h, true), id)
  {
    if h.pc.ChunkReady? { ChunkReadyFits(h); }
  }

  lemma EndAdvances(h: Handler, id: nat)
    requires Inv(h) && Ready(h) && Healthy(h, id) && CanServe(h) && h.pc.CallbackDone?
    ensures Advances(h, ServeStep(h, true), id)
  {
    var t := ServeStep(h, true);
    assert t.past == h.past + [h.current.value];
    assert h.current.value == Block(id, true, Count(h), false);
  }

  lemma ServeAdvances(h: Handler, id: nat)
    requires Inv(h) && Healthy(h, id)
    ensures CanServe(h) && Ready(h) && Inv(ServeStep(h, true)) && Advances(h, ServeStep(h, true), id)
  {
    ServeStepKeeps(h, true);
    match h.pc {
      case HeaderSent(_) => HeaderSentAdvances(h, id);
      case ChunkSent(_, _) => SentAdvances(h, id);
      case CallbackDone => EndAdvances(h, id);
      case _ => PlainAdvances(h, id);
    }
  }

  // ---- while the request waits ----

  /** The serve loop has taken the next request of the queue. */
  predicate Took(h: Handler, t: Handler) {
    && h.pending != [] && t.pending == h.pending[1..] && t.pc.HeaderReady? && !t.stop && !t.cancel
    && t.handling == Some(h.pending[0]) && t.current == Some(Block(h.pending[0], false, 0, false))
    && t.content == h.content && t.chunkSize == h.chunkSize
  }

  /** One serve step of a sound loop with requests in its queue: the current response comes closer to
      its end, or the next request is taken. */
  predicate Proceeds(h: Handler, t: Handler) {
    || Took(h, t)
    || (Sound(t) && t.pending == h.pending && StepsLeft(t) < StepsLeft(h) && t.content == h.content && t.chunkSize == h.chunkSize)
  }

  lemma HeadTakes(h: Handler)
    requires h.current.Some? && h.pending != [] && !h.stop
    ensures Took(h, LoopHead(h, true)) && Took(h, IterationEnd(h, true))
  {}

  lemma SentProceeds(h: Handler)
    requires Inv(h) && Ready(h) && Sound(h) && CanServe(h) && h.pc.ChunkSent? && h.pending != []
    ensures Proceeds(h, ServeStep(h, true))
  {
    var h1 := h.(total := h.total + h.pc.n);
    SentCounts(h);
    SentStepIs(h, true);
    if h.cancel {
      HeadTakes(h1);
    } else {
      ReadingAdvances(h1);
    }
  }

  lemma HeaderSentProceeds(h: Handler)
    requires Inv(h) && Ready(h) && Sound(h) && CanServe(h) && h.pc.HeaderSent? && h.pending != []
    ensures Proceeds(h, ServeStep(h, true))
  {
    CountReached(h, 0);
    if h.cancel {
      HeadTakes(h);
    } else {
      ReadingAdvances(h);
    }
  }

  lemma ServeProceeds(h: Handler)
    requires Inv(h) && Sound(h) && h.pending != []
    ensures CanServe(h) && Ready(h) && Proceeds(h, ServeStep(h, true))
  {
    InvReady(h);
    match h.pc {
      case HeaderSent(_) => HeaderSentProceeds(h);
      case ChunkSent(_, _) => SentProceeds(h);
      case CallbackDone => HeadTakes(h);
      case ChunkReady(_) => ChunkReadyFits(h);
      case _ =>
    }
  }

  /** Closer than this many steps to the answer. */
  predicate Closer(t: Handler, id: nat, steps: nat) {
    || (Healthy(t, id) && StepsLeft(t) < steps)
    || (Awaits(t, id) && StepsLeft(t) + QueueSteps(t.pending, id, Each(t)) < steps)
  }

  /** What a serve step means for a request in the queue. */
  lemma ServeOnTheWay(h: Handler, id: nat)
    requires Inv(h) && Awaits(h, id)
    ensures CanServe(h) && Ready(h)
    ensures Closer(ServeStep(h, true), id, StepsLeft(h) + QueueSteps(h.pending, id, Each(h)))
  {
    ServeProceeds(h);
    BusyForLong(h);
    var t := ServeStep(h, true);
    if Took(h, t) { TookOnTheWay(h, t, id); } else { SameEach(h, t); }
  }

  lemma BusyForLong(h: Handler)
    requires Inv(h) && Sound(h)
    ensures StepsLeft(h) > 0
  {}

  lemma SameEach(h: Handler, t: Handler)
    requires t.content == h.content && t.chunkSize == h.chunkSize
    ensures Each(t) == Each(h)
  {}

  lemma TookOnTheWay(h: Handler, t: Handler, id: nat)
    requires 0 < h.chunkSize && Took(h, t) && id in h.pending && StepsLeft(h) > 0
    ensures Closer(t, id, StepsLeft(h) + QueueSteps(h.pending, id, Each(h)))
  {
    assert StepsLeft(t) == Each(h);
  }

  // ---- runs ----

  /** An input that neither cancels this request nor stops the handler; a serve step's send succeeds. */
  predicate Harmless(input: Input, id: nat) {
    (input.Serve? && input.ok) || input.Add? || (input.Cancel? && input.id != id)
  }

  predicate Undisturbed(inputs: seq<Input>, id: nat) {
    forall i :: 0 <= i < |inputs| ==> Harmless(inputs[i], id)
  }

  function Serves(inputs: seq<Input>): nat {
    if inputs == [] then 0
    else Serves(inputs[..|inputs| - 1]) + if inputs[|inputs| - 1].Serve? then 1 else 0
  }

  /** Enqueueing and cancelling leave the response being served alone, and what is ahead in the queue. */
  lemma EnqueueWaits(h: Handler, k: nat, id: nat, steps: nat)
    requires Closer(h, id, steps)
    ensures Closer(Enqueue(h, k), id, steps)
  {
    var t := Enqueue(h, k);
    if Awaits(h, id) {
      SameEach(h, t);
      QueueStepsMore(h.pending, k, id, Each(h));
    }
  }

  lemma CancelWaits(h: Handler, k: nat, ok: bool, id: nat, steps: nat)
    requires Closer(h, id, steps) && k != id
    ensures Closer(CancelRequest(h, k, ok), id, steps)
  {
    var t := CancelRequest(h, k, ok);
    if Awaits(h, id) {
      SameEach(h, t);
      QueueStepsLess(h.pending, k, id, Each(h));
    }
  }

  /** What was filed stays filed. */
  lemma ServeGrows(h: Handler, ok: bool)
    requires CanServe(h) && Ready(h)
    ensures h.past <= ServeStep(h, ok).past
  {
    if h.pc.Waiting? { WaitingOutcome(h, ok); } else { ServeOutcome(h, ok); }
  }

  lemma StepGrows(h: Handler, input: Input)
    requires Enabled(h, input) && Ready(h)
    ensures h.past <= Step(h, input).past
  {
    if input.Serve? { ServeGrows(h, input.ok); }
  }

  lemma StillFiled(h: Handler, t: Handler, id: nat)
    requires Filed(h, id) && t.content == h.content && t.chunkSize == h.chunkSize && h.past <= t.past
    ensures Filed(t, id)
  {}

  /** Where the response stands when `served` of the steps in the budget are used up. */
  predicate OnTime(t: Handler, id: nat, budget: nat, served: nat) {
    Filed(t, id) || (served <= budget && Closer(t, id, budget - served + 1))
  }

  lemma CloserToServe(t: Handler, id: nat, steps: nat)
    requires Inv(t) && Closer(t, id, steps + 1)
    ensures CanServe(t) && Ready(t) && (Filed(ServeStep(t, true), id) || Closer(ServeStep(t, true), id, steps))
  {
    if Healthy(t, id) && StepsLeft(t) < steps + 1 {
      ServeAdvances(t, id);
    } else {
      ServeOnTheWay(t, id);
      StillCloser(ServeStep(t, true), id, StepsLeft(t) + QueueSteps(t.pending, id, Each(t)), steps);
    }
  }

  lemma StillCloser(t: Handler, id: nat, steps: nat, more: nat)
    requires Closer(t, id, steps) && steps <= more
    ensures Closer(t, id, more)
  {}

  lemma CloserIsMore(t: Handler, id: nat, steps: nat)
    requires Inv(t) && Closer(t, id, steps)
    ensures steps >= 2
  {
    Unfinished(t, id);
  }

  lemma OnTimeStep(t: Handler, input: Input, id: nat, budget: nat, served: nat)
    requires Inv(t) && OnTime(t, id, budget, served) && Enabled(t, input)
    requires Harmless(input, id)
    ensures Ready(t) && OnTime(Step(t, input), id, budget, if input.Serve? then served + 1 else served)
  {
    StepKeeps(t, input);
    if Filed(t, id) {
      StepGrows(t, input);
      StillFiled(t, Step(t, input), id);
    } else {
      var steps := budget - served + 1;
      match input {
        case Serve(_) =>
          CloserIsMore(t, id, steps);
          CloserToServe(t, id, steps - 1);
        case Add(k) => EnqueueWaits(t, k, id, steps);
        case Cancel(k, ok) => CancelWaits(t, k, ok, id, steps);
        case GracefulExit =>
      }
    }
  }

  /** The same for an input that may be skipped. */
  lemma OnTimeNext(t: Handler, input: Input, u: Handler, id: nat, budget: nat, served: nat)
    requires Inv(t) && OnTime(t, id, budget, served) && Harmless(input, id)
    requires Ready(t) && u == if Enabled(t, input) then Step(t, input) else t
    ensures OnTime(u, id, budget, if input.Serve? then served + 1 else served)
  {
    if Enabled(t, input) {
      OnTimeStep(t, input, id, budget, served);
    } else if input.Serve? && !Filed(t, id) {
      CloserToServe(t, id, budget - served);
    }
  }

  lemma StartsOnTime(h: Handler, id: nat)
    requires OnTheWay(h, id)
    ensures OnTime(h, id, TurnsLeft(h, id), 0)
  {}

  lemma RunIs(h: Handler, inputs: seq<Input>)
    requires Inv(h) && inputs != []
    ensures var t, input := Run(h, inputs[..|inputs| - 1]), inputs[|inputs| - 1];
            Ready(t) && Run(h, inputs) == if Enabled(t, input) then Step(t, input) else t
  {
    InvReady(Run(h, inputs[..|inputs| - 1]));
  }

  lemma {:induction false} RunOnTime(h: Handler, inputs: seq<Input>, id: nat, budget: nat)
    requires Inv(h) && OnTime(h, id, budget, 0) && Undisturbed(inputs, id)
    ensures OnTime(Run(h, inputs), id, budget, Serves(inputs))
  {
    if inputs != [] {
      var init, input := inputs[..|inputs| - 1], inputs[|inputs| - 1];
      assert Harmless(input, id);
      assert Undisturbed(init, id) by { assert forall i :: 0 <= i < |init| ==> init[i] == inputs[i]; }
      RunOnTime(h, init, id, budget);
      RunIs(h, inputs);
      OnTimeNext(Run(h, init), input, Run(h, inputs), id, budget, Serves(init));
    }
  }

  /** A request that is served, or waits in the queue of a sound handler, needs at most TurnsLeft serve
      steps for the whole response, whatever else is enqueued or cancelled in between. */
  lemma ServedInTime(h: Handler, inputs: seq<Input>, id: nat)
    requires Inv(h) && OnTheWay(h, id) && Undisturbed(inputs, id)
    ensures Serves(inputs) >= TurnsLeft(h, id) ==> Filed(Run(h, inputs), id)
  {
    StartsOnTime(h, id);
    RunOnTime(h, inputs, id, TurnsLeft(h, id));
    OutOfTime(Run(h, inputs), id, TurnsLeft(h, id), Serves(inputs));
  }

  lemma OutOfTime(t: Handler, id: nat, budget: nat, served: nat)
    requires Inv(t) && OnTime(t, id, budget, served)
    ensures served >= budget ==> Filed(t, id)
  {
    if !Filed(t, id) { CloserIsMore(t, id, budget - served + 1); }
  }

  lemma Unfinished(t: Handler, id: nat)
    requires Inv(t)
    ensures OnTheWay(t, id) ==> StepsLeft(t) > 0
  {}

  /** The bound for a response that is just beginning. */
  lemma TurnsAtStart(h: Handler, id: nat)
    requires Inv(h) && h.pc.HeaderReady? && h.handling == Some(id)
    ensures TurnsLeft(h, id) == 2 * NumChunks(|h.content.data|, h.chunkSize) + 4
  {
    HandlerTheorems.Bookkeeping(h);
    assert h.current.value in Blocks(h);
  }
}
