/** What one step of the serve loop can do to the response it is working on. */
module HandlerSteps {
  import opened Wire
  import opened Handler

  /** At most one message, about the current request. */
  predicate SendsOne(h: Handler, t: Handler, id: nat) {
    || t.log == h.log
    || (|t.log| == |h.log| + 1 && t.log[..|h.log|] == h.log && t.log[|h.log|].m.Id() == id)
  }

  /** The current response goes on, or is filed: as it is, or as closed if it was cancelled. */
  predicate FilesOne(h: Handler, t: Handler)
    requires h.current.Some?
  {
    var b := h.current.value;
    || (t.past == h.past && t.current.Some? && t.current.value.id == b.id)
    || t.past == h.past + [b]
    || (h.cancel && t.past == h.past + [b.(closed := true)])
  }

  predicate Outcome(h: Handler, t: Handler)
    requires h.current.Some?
  {
    && SendsOne(h, t, h.current.value.id) && FilesOne(h, t)
    && (t.cancel && t.handling.Some? ==> h.cancel && t.handling == h.handling)
  }

  predicate Serving(h: Handler) {
    h.current.Some? && h.handling == Some(h.current.value.id)
  }

  lemma NextFilesNothing(h: Handler)
    requires !h.cancel
    ensures Next(h).past == h.past && Next(h).log == h.log && (Next(h).current == h.current || h.pending != [])
    ensures !Next(h).cancel
  {}

  /** At the head of the loop the response is filed, or the loop is left because a send failed. */
  lemma HeadOutcome(h: Handler, ok: bool)
    requires Serving(h)
    ensures Outcome(h, LoopHead(h, ok))
    ensures LoopHead(h, ok).past != h.past || LoopHead(h, ok).pc.Exited?
  {
    var b := h.current.value;
    NextFilesNothing(h.(handling := None, cancel := false, past := h.past + [b], current := None));
    NextFilesNothing(Served(h, CloseResponse(b.id)).(
      handling := None, cancel := false, past := h.past + [b.(closed := true)], current := None));
  }

  lemma EndOutcome(h: Handler, ok: bool)
    requires Serving(h)
    ensures Outcome(h, IterationEnd(h, ok))
    ensures IterationEnd(h, ok).past != h.past || IterationEnd(h, ok).pc.Exited?
  {
    var h1 := if h.total == |h.content.data| then h.(cancel := false) else h;
    HeadOutcome(h1, ok);
    assert IterationEnd(h, ok) == LoopHead(h1, ok);
  }

  lemma AfterOutcome(h: Handler, ok: bool)
    requires Serving(h)
    ensures Outcome(h, AfterChunks(h, ok))
  {
    EndOutcome(h, ok);
  }

  lemma ReadOutcome(h: Handler, ok: bool)
    requires Serving(h) && h.total <= |h.content.data|
    ensures Outcome(h, ReadChunk(h, ok))
  {
    var h1 := h.(good := false);
    AfterOutcome(h, ok);
    AfterOutcome(h1, ok);
    assert Outcome(h1, AfterChunks(h1, ok)) ==> Outcome(h, AfterChunks(h1, ok));
  }

  lemma SentOutcome(h: Handler, ok: bool)
    requires CanServe(h) && Ready(h) && h.pc.ChunkSent?
    ensures Outcome(h, ServeStep(h, ok))
  {
    var h1 := h.(total := h.total + h.pc.n);
    AfterOutcome(h1, ok);
    ReadOutcome(h1, ok);
    var t := ServeStep(h, ok);
    assert t == if !h.pc.ok then Exit(h) else if h.cancel then AfterChunks(h1, ok) else if h.stop then Exit(h1) else ReadChunk(h1, ok);
    assert Outcome(h1, t) ==> Outcome(h, t);
  }

  lemma HeaderOutcome(h: Handler, ok: bool)
    requires CanServe(h) && Ready(h) && h.pc.HeaderSent?
    ensures Outcome(h, ServeStep(h, ok))
  {
    HeadOutcome(h, ok);
    ReadOutcome(h, ok);
  }

  /** One serve step on a response. */
  lemma ServeOutcome(h: Handler, ok: bool)
    requires CanServe(h) && Ready(h) && !h.pc.Waiting?
    ensures Serving(h) && Outcome(h, ServeStep(h, ok))
    ensures h.pc.CallbackDone? && ServeStep(h, ok).past == h.past ==> ServeStep(h, ok).pc.Exited?
    ensures h.pc.Callback? ==> ServeStep(h, ok) == h.(pc := CallbackDone)
  {
    match h.pc {
      case HeaderSent(_) => HeaderOutcome(h, ok);
      case ChunkSent(_, _) => SentOutcome(h, ok);
      case CallbackDone => EndOutcome(h, ok);
      case _ =>
    }
  }

  /** One serve step while waiting: the next request is taken, or the loop is left. */
  lemma WaitingOutcome(h: Handler, ok: bool)
    requires CanServe(h) && Ready(h) && h.pc.Waiting?
    ensures var t := ServeStep(h, ok);
            && t.past == h.past && t.log == h.log && !t.cancel
            && (t.current == h.current || h.pending != [])
  {
    NextFilesNothing(h);
  }
}
