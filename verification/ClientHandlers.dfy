/** The steps of a request handler, as far as they concern the client it belongs to. */
module ClientHandlers {
  import opened Wire
  import opened Handler
  import H = Handler
  import HandlerRuns
  import opened HandlerSteps
  import opened HandlerTheorems
  import opened Client

  // ---- one handler ----

  ghost predicate HandlerOk(cfg: Config, h: Handler) {
    && HandlerRuns.Inv(h)
    && h.chunkSize == cfg.chunkSize && Acceptable(cfg, h.content)
    && forall id :: DroppedOnce(h, id)
  }

  /** The serve loop is past the point where it reports the response of this request as sent. */
  predicate Reported(h: Handler, id: nat) {
    || id in HandlerRuns.Ids(h.past)
    || (h.current.Some? && h.current.value.id == id && (h.pc.CallbackDone? || h.pc.Exited?))
  }

  /** What a step of a handler may change, as far as its client is concerned. */
  ghost predicate Moved(h: Handler, t: Handler) {
    && (t.log == h.log || (|t.log| == |h.log| + 1 && t.log[..|h.log|] == h.log && t.log[|h.log|].m.Id() in h.enqueued))
    && (forall id :: Reported(h, id) ==> Reported(t, id))
  }

  lemma IdsGrow(past: seq<Block>, b: Block)
    ensures HandlerRuns.Ids(past + [b]) == HandlerRuns.Ids(past) + [b.id]
  {}

  /** Nothing that was reported is forgotten. */
  lemma ServeReported(h: Handler, ok: bool)
    requires CanServe(h) && Ready(h) && (h.pc.Waiting? ==> h.current.None?)
    ensures forall id :: Reported(h, id) ==> Reported(ServeStep(h, ok), id)
  {
    if h.pc.Waiting? {
      WaitingOutcome(h, ok);
    } else {
      ServeOutcome(h, ok);
      OutcomeReported(h, ServeStep(h, ok));
    }
  }

  lemma OutcomeReported(h: Handler, t: Handler)
    requires h.current.Some? && FilesOne(h, t) && !h.pc.Exited?
    requires h.pc.CallbackDone? && t.past == h.past ==> t.pc.Exited?
    ensures forall id :: Reported(h, id) ==> Reported(t, id)
  {
    IdsGrow(h.past, h.current.value);
    IdsGrow(h.past, h.current.value.(closed := true));
  }

  lemma ServeSends(h: Handler, ok: bool)
    requires CanServe(h) && HandlerRuns.Inv(h) && Ready(h)
    ensures var t := ServeStep(h, ok);
            t.log == h.log || (|t.log| == |h.log| + 1 && t.log[..|h.log|] == h.log && t.log[|h.log|].m.Id() in h.enqueued)
  {
    if h.pc.Waiting? {
      WaitingOutcome(h, ok);
    } else {
      ServeOutcome(h, ok);
      CurrentIsEnqueued(h);
    }
  }

  lemma CurrentIsEnqueued(h: Handler)
    requires HandlerRuns.Inv(h) && h.current.Some?
    ensures h.current.value.id in h.enqueued
  {
    Bookkeeping(h);
    assert h.current.value in HandlerRuns.Blocks(h);
  }

  lemma ServeMoves(cfg: Config, h: Handler, ok: bool)
    requires HandlerOk(cfg, h) && CanServe(h)
    ensures Ready(h)
    ensures HandlerOk(cfg, ServeStep(h, ok)) && Moved(h, ServeStep(h, ok)) && ServeStep(h, ok).enqueued == h.enqueued
  {
    HandlerRuns.StepKeeps(h, H.Input.Serve(ok));
    ServeReported(h, ok);
    ServeSends(h, ok);
    forall id ensures DroppedOnce(ServeStep(h, ok), id) { DroppedOnceStep(h, H.Input.Serve(ok), id); }
  }

  lemma CancelShape(h: Handler, id: nat, ok: bool)
    ensures var t := CancelRequest(h, id, ok);
            && t.enqueued == h.enqueued && t.past == h.past && t.current == h.current && t.pc == h.pc
            && (t.log == h.log || (id in h.pending && t.log == h.log + [ByCancel(CloseResponse(id))]))
  {}

  lemma CancelOk(cfg: Config, h: Handler, id: nat, ok: bool)
    requires HandlerOk(cfg, h)
    ensures HandlerOk(cfg, CancelRequest(h, id, ok))
  {
    HandlerRuns.StepKeeps(h, H.Input.Cancel(id, ok));
    forall k ensures DroppedOnce(CancelRequest(h, id, ok), k) { DroppedOnceStep(h, H.Input.Cancel(id, ok), k); }
  }

  lemma CancelMoves(cfg: Config, h: Handler, id: nat, ok: bool)
    requires HandlerOk(cfg, h)
    ensures var t := CancelRequest(h, id, ok); HandlerOk(cfg, t) && Moved(h, t) && t.enqueued == h.enqueued
  {
    CancelOk(cfg, h, id, ok);
    CancelSends(h, id, ok);
  }

  lemma CancelSends(h: Handler, id: nat, ok: bool)
    requires HandlerRuns.Inv(h)
    ensures Moved(h, CancelRequest(h, id, ok)) && CancelRequest(h, id, ok).enqueued == h.enqueued
  {
    CancelShape(h, id, ok);
    PendingIsEnqueued(h, id);
    SameReports(h, CancelRequest(h, id, ok));
  }

  lemma PendingIsEnqueued(h: Handler, id: nat)
    requires HandlerRuns.Inv(h)
    ensures id in h.pending ==> id in h.enqueued
  {
    Bookkeeping(h);
  }

  lemma SameReports(h: Handler, t: Handler)
    requires t.past == h.past && t.current == h.current && t.pc == h.pc
    ensures forall id :: Reported(h, id) ==> Reported(t, id)
  {}

  lemma ExitMoves(cfg: Config, h: Handler)
    requires HandlerOk(cfg, h) && (h.stop ==> h.done)
    ensures var t := RequestExit(h); HandlerOk(cfg, t) && Moved(h, t) && t.enqueued == h.enqueued
  {
    HandlerRuns.StepKeeps(h, H.Input.GracefulExit);
    forall k ensures DroppedOnce(RequestExit(h), k) { DroppedOnceStep(h, H.Input.GracefulExit, k); }
  }

  lemma EnqueueMoves(cfg: Config, h: Handler, id: nat)
    requires HandlerOk(cfg, h) && id !in h.enqueued
    ensures var t := Enqueue(h, id); HandlerOk(cfg, t) && Moved(h, t) && t.log == h.log && t.enqueued in {h.enqueued, h.enqueued + [id]}
  {
    HandlerRuns.StepKeeps(h, H.Input.Add(id));
    forall k ensures DroppedOnce(Enqueue(h, id), k) { DroppedOnceStep(h, H.Input.Add(id), k); }
  }

  lemma NewHandlerOk(cfg: Config, content: Content)
    requires cfg.Valid() && Acceptable(cfg, content)
    ensures HandlerOk(cfg, NewHandler(content, cfg.chunkSize))
  {}

  /** Nothing is sent about a request that was never enqueued. */
  lemma SilentAbout(cfg: Config, h: Handler, id: nat)
    requires HandlerOk(cfg, h) && id !in h.enqueued
    ensures Of(Messages(h.log), id) == []
  {
    Bookkeeping(h);
    IdsOf(HandlerRuns.Blocks(h));
    OtherForm(h, id);
    assert id !in (set k | k in h.enqueued);
  }

  lemma OneMoreSent(sent: seq<ClientMessage>, m: ClientMessage, id: nat)
    ensures Of(sent + [m], id) == if m.Id() == id then Of(sent, id) + [m] else Of(sent, id)
  {}

  lemma NewsOf(h: Handler, t: Handler, id: nat)
    requires Moved(h, t)
    ensures Of(Messages(t.log), id) == Of(Messages(h.log), id) + Of(News(h, t), id)
    ensures |News(h, t)| <= 1
    ensures News(h, t) != [] ==> News(h, t)[0].Id() in h.enqueued
  {}
}
