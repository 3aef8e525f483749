/** A response that was sent and confirmed is reported to the user: no report is forgotten on the way. */
module Confirmed {
  import opened Wire
  import H = Handler
  import R = HandlerRuns
  import HandlerSteps
  import C = Client
  import ClientHandlers
  import ClientInvariant
  import ClientClosing
  import opened Connection
  import opened Completion

  // ---- one handler ----

  /** The serve loop is past its report of this response. */
  predicate Passed(h: H.Handler, id: nat) {
    id in R.Ids(h.past) || (h.current.Some? && h.current.value.id == id && h.pc.CallbackDone?)
  }

  /** A response that was not cancelled is filed only after its report. */
  lemma FilesReported(h: H.Handler, ok: bool)
    requires H.CanServe(h) && R.Inv(h) && H.Ready(h) && !h.cancel && !h.pc.CallbackDone?
    ensures H.ServeStep(h, ok).past == h.past
    ensures H.ServeStep(h, ok).pc.CallbackDone? ==> h.pc.Callback?
  {
    if h.pc.ChunkSent? && h.pc.ok { ReadsOn(h.(total := h.total + h.pc.n), ok); }
    if h.pc.HeaderSent? { ReadsOn(h, ok); }
  }

  lemma ReadsOn(h: H.Handler, ok: bool)
    requires h.current.Some? && h.total <= |h.content.data| && !h.cancel
    ensures H.ReadChunk(h, ok).past == h.past && !H.ReadChunk(h, ok).pc.CallbackDone?
  {}

  lemma HeadIsElsewhere(h: H.Handler, ok: bool)
    requires h.current.Some?
    ensures !H.LoopHead(h, ok).pc.CallbackDone? && !H.IterationEnd(h, ok).pc.CallbackDone? && !H.AfterChunks(h, ok).pc.CallbackDone?
  {}

  lemma ReadIsElsewhere(h: H.Handler, ok: bool)
    requires h.current.Some? && h.total <= |h.content.data|
    ensures !H.ReadChunk(h, ok).pc.CallbackDone?
  {
    HeadIsElsewhere(h, ok);
    HeadIsElsewhere(h.(good := false), ok);
  }

  lemma ChunkIsElsewhere(h: H.Handler, n: nat, sent: bool, ok: bool)
    requires h.current.Some? && h.total + n <= |h.content.data|
    ensures !H.ChunkWasSent(h, n, sent, ok).pc.CallbackDone?
  {
    HeadIsElsewhere(h.(total := h.total + n), ok);
    ReadIsElsewhere(h.(total := h.total + n), ok);
  }

  lemma HeaderIsElsewhere(h: H.Handler, sent: bool, ok: bool)
    requires h.current.Some? && h.total <= |h.content.data|
    ensures !H.HeaderWasSent(h, sent, ok).pc.CallbackDone?
  {
    HeadIsElsewhere(h, ok);
    ReadIsElsewhere(h, ok);
  }

  lemma NeverBack(h: H.Handler, ok: bool)
    requires H.CanServe(h) && R.Inv(h) && H.Ready(h)
    ensures H.ServeStep(h, ok).pc.CallbackDone? ==> h.pc.Callback?
  {
    match h.pc {
      case HeaderSent(sent) => HeaderIsElsewhere(h, sent, ok);
      case ChunkSent(n, sent) => ChunkIsElsewhere(h, n, sent, ok);
      case CallbackDone => HeadIsElsewhere(h, ok);
      case _ =>
    }
  }

  /** Whose report is passed in a serve step: of a response that was cancelled, or whose report is due. */
  lemma ServePasses(h: H.Handler, ok: bool, id: nat)
    requires H.CanServe(h) && R.Inv(h) && H.Ready(h)
    ensures Passed(H.ServeStep(h, ok), id) ==>
              Passed(h, id) || (h.handling == Some(id) && (h.cancel || h.pc.Callback?))
  {
    var t := H.ServeStep(h, ok);
    NeverBack(h, ok);
    if h.pc.Waiting? {
      HandlerSteps.WaitingOutcome(h, ok);
    } else {
      HandlerSteps.ServeOutcome(h, ok);
      if !h.cancel && !h.pc.CallbackDone? { FilesReported(h, ok); }
      ClientHandlers.IdsGrow(h.past, h.current.value);
      ClientHandlers.IdsGrow(h.past, h.current.value.(closed := true));
    }
  }

  lemma OthersPass(h: H.Handler, x: H.Input, id: nat)
    requires H.Enabled(h, x) && H.Ready(h) && !x.Serve?
    ensures Passed(H.Step(h, x), id) == Passed(h, id) && (h.stop ==> H.Step(h, x).stop)
  {}

  // ---- the client ----

  /** A response whose report was passed was reported, unless the server closed the request or the handler
      was asked to stop. */
  predicate ReportedOrClosed(c: C.Client, i: nat, id: nat) {
    i < |c.handlers| && Passed(c.handlers[i], id) ==> id in c.called || ClientInvariant.GotClosed(c, id) || c.handlers[i].stop
  }

  lemma ServeThreadReports(cfg: Config, c: C.Client, k: nat, ok: bool, i: nat, id: nat)
    requires ClientInvariant.Inv(cfg, c) && ClientClosing.ClosingOk(c) && ReportedOrClosed(c, i, id) && i < |c.handlers|
    requires k < |c.handlers| && H.CanServe(c.handlers[k]) && H.Ready(c.handlers[k])
    ensures ReportedOrClosed(C.ServeTurn(c, k, ok), i, id)
  {
    var h, t := c.handlers[k], C.ServeTurn(c, k, ok);
    HandlerIsOk(cfg, c, k);
    ServeKeepsRest(c, k, ok);
    if i == k {
      ServePasses(h, ok, id);
      assert ClientClosing.Explained(c, i, id);
    }
  }

  lemma ServeKeepsRest(c: C.Client, k: nat, ok: bool)
    requires k < |c.handlers| && H.CanServe(c.handlers[k]) && H.Ready(c.handlers[k])
    ensures var h, t := c.handlers[k], C.ServeTurn(c, k, ok);
            && t.handlers == c.handlers[k := H.ServeStep(h, ok)] && t.received == c.received
            && H.ServeStep(h, ok).stop == h.stop
            && t.called == (if h.pc.Callback? then c.called + {h.handling.value} else c.called)
  {}

  lemma TakeReports(cfg: Config, c: C.Client, m: ServerMessage, limited: bool, ok: bool, i: nat, id: nat)
    requires ClientInvariant.Inv(cfg, c) && C.Linked(c) && C.AllReady(c) && ReportedOrClosed(c, i, id) && i < |c.handlers|
    requires C.Possible(c, C.Take(m, limited, ok))
    ensures ReportedOrClosed(C.Receive(c, m, limited, ok), i, id)
  {
    var t := C.Receive(c, m, limited, ok);
    var step := TakeProjects(cfg, c, m, limited, ok, i);
    if step.Some? { OthersPass(c.handlers[i], step.value, id); }
    TakeKeepsRest(c, m, limited, ok);
    if ClientInvariant.GotClosed(c, id) { ClientClosing.ClosedStays(c, m, id); }
  }

  lemma TakeKeepsRest(c: C.Client, m: ServerMessage, limited: bool, ok: bool)
    requires C.Linked(c) && !m.Close?
    ensures var t := C.Receive(c, m, limited, ok);
            t.called == c.called && t.received == c.received + [m] && |t.handlers| == |c.handlers|
  {}

  lemma OtherReports(cfg: Config, c: C.Client, input: C.Input, i: nat, id: nat)
    requires cfg.Valid() && ClientInvariant.Inv(cfg, c) && C.Linked(c) && C.AllReady(c) && C.Possible(c, input)
    requires ReportedOrClosed(c, i, id) && !input.ServeThread? && !input.Take? && i < |c.handlers|
    ensures ReportedOrClosed(C.Step(cfg, c, input), i, id)
  {
    var step := StepProjects(cfg, c, input, i);
    if step.Some? { OthersPass(c.handlers[i], step.value, id); }
  }

  lemma StepReports(cfg: Config, c: C.Client, input: C.Input, i: nat, id: nat)
    requires cfg.Valid() && ClientInvariant.Inv(cfg, c) && C.Linked(c) && C.AllReady(c) && C.Possible(c, input)
    requires ClientClosing.ClosingOk(c) && ReportedOrClosed(c, i, id)
    ensures ReportedOrClosed(C.Step(cfg, c, input), i, id)
  {
    if i < |c.handlers| {
      match input {
        case ServeThread(k, ok) => ServeThreadReports(cfg, c, k, ok, i, id);
        case Take(m, limited, ok) => TakeReports(cfg, c, m, limited, ok, i, id);
        case _ => OtherReports(cfg, c, input, i, id);
      }
    } else {
      NewPassedNothing(cfg, c, input, i, id);
    }
  }

  lemma NewPassedNothing(cfg: Config, c: C.Client, input: C.Input, i: nat, id: nat)
    requires C.Linked(c) && C.AllReady(c) && C.Possible(c, input) && i >= |c.handlers|
    ensures var t := C.Step(cfg, c, input); i < |t.handlers| ==> !Passed(t.handlers[i], id)
  {
    match input {
      case ServeThread(k, ok) => ServeKeepsRest(c, k, ok);
      case Take(m, limited, ok) => TakeKeepsRest(c, m, limited, ok);
      case _ =>
    }
  }

  // ---- runs ----

  lemma {:induction false} RunReports(cfg: Config, moves: seq<Move>, i: nat, id: nat)
    requires cfg.Valid()
    ensures ReportedOrClosed(Run(cfg, moves).client, i, id)
  {
    if moves != [] {
      var before, move := Run(cfg, moves[..|moves| - 1]), moves[|moves| - 1];
      RunReports(cfg, moves[..|moves| - 1], i, id);
      RunKeeps(cfg, moves[..|moves| - 1]);
      RunExplained(cfg, moves[..|moves| - 1]);
      if Able(before, move) { MoveReports(cfg, before, move, i, id); }
    }
  }

  lemma MoveReports(cfg: Config, j: Connection, move: Move, i: nat, id: nat)
    requires cfg.Valid() && Inv(cfg, j) && Able(j, move) && ClientClosing.ClosingOk(j.client) && ReportedOrClosed(j.client, i, id)
    ensures ReportedOrClosed(Effect(cfg, j, move).client, i, id)
  {
    match move {
      case ClientSide(action) => StepReports(cfg, j.client, action, i, id);
      case ClientTakes(limited, ok) => StepReports(cfg, j.client, C.Take(j.toClient[0], limited, ok), i, id);
      case _ =>
    }
  }

  /** In every run: a response that the serve loop is through with was reported, unless the server closed
      the request or its handler was asked to stop; and once the client has the server's Success for it,
      the served callback has run. */
  lemma ConfirmedIsServed(cfg: Config, moves: seq<Move>, i: nat, id: nat)
    requires cfg.Valid()
    requires var c := Run(cfg, moves).client; i < |c.handlers| && id in R.Ids(c.handlers[i].past) && !c.handlers[i].stop
    ensures var c := Run(cfg, moves).client;
            && (!ClientInvariant.GotClosed(c, id) ==> id in c.called)
            && (ClientInvariant.GotSuccess(c, id) ==> id in c.served)
  {
    RunKeeps(cfg, moves);
    RunReports(cfg, moves, i, id);
    var c := Run(cfg, moves).client;
    var b := PastBlock(cfg, c, i, id);
    assert ClientInvariant.EntryOk(c, id);
  }
}
