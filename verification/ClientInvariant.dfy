/** The invariant of a client connection: who serves which request, and what was sent about it. */
module ClientInvariant {
  import opened Wire
  import opened Handler
  import HandlerRuns
  import HandlerSteps
  import opened HandlerTheorems
  import opened Client
  import opened ClientHandlers

  predicate GotSuccess(c: Client, id: nat) {
    var ms := About(c.received, id);
    |ms| == 2 && ms[1].Success?
  }

  predicate GotClosed(c: Client, id: nat) {
    var ms := About(c.received, id);
    |ms| == 2 && ms[1].RequestClosed?
  }

  ghost predicate HandlersOk(cfg: Config, c: Client) {
    forall i :: 0 <= i < |c.handlers| ==> HandlerOk(cfg, c.handlers[i])
  }

  /** Registered paths have handlers of their own, which were not asked to exit, except for the one
      that is being unregistered. */
  predicate ContentOk(c: Client) {
    && (forall p :: p in c.content ==> c.content[p] < |c.handlers|)
    && (forall p, q :: p in c.content && q in c.content && p != q ==> c.content[p] != c.content[q])
    && (forall p :: p in c.content && c.handlers[c.content[p]].stop && !c.handlers[c.content[p]].done ==> c.unregistering == Some(p))
    && (c.unregistering.Some? ==> c.unregistering.value in c.content)
  }

  /** A request was given to one handler, or answered as absent, or neither, after it arrived. */
  ghost predicate OwnersOk(c: Client) {
    && (forall id :: id in c.owner ==> c.owner[id] < |c.handlers| && id !in c.absent && About(c.received, id) != [])
    && (forall id :: id in c.absent ==> About(c.received, id) != [])
    && (forall i, id :: 0 <= i < |c.handlers| && id in c.handlers[i].enqueued ==> id in c.owner && c.owner[id] == i)
    && (c.ws.Replying? ==> c.ws.id in c.absent)
  }

  /** What was sent about a request comes from the handler it was given to, or is an empty response. */
  predicate AnswerOk(c: Client, id: nat)
    requires id in c.owner ==> c.owner[id] < |c.handlers|
  {
    var ms := Of(c.sent, id);
    if id in c.owner then ms == Of(Messages(c.handlers[c.owner[id]].log), id)
    else if id in c.absent then ms == [] || (ms == [EmptyResponse(id)] && c.ws != Replying(id))
    else ms == []
  }

  ghost predicate AnswersOk(c: Client)
    requires OwnersOk(c)
  {
    forall id :: AnswerOk(c, id)
  }

  /** The table entry of a request: present until it is closed, or reported and confirmed. */
  predicate EntryOk(c: Client, id: nat) {
    && (id in c.requests <==> id in c.owner && !GotClosed(c, id) && !(id in c.called && GotSuccess(c, id)))
    && (id in c.requests && id in c.owner ==> c.requests[id] == Entry(c.owner[id], id in c.called || GotSuccess(c, id)))
    && (id in c.served <==> id in c.owner && id in c.called && GotSuccess(c, id))
    && Legal(About(c.received, id))
  }

  ghost predicate EntriesOk(c: Client) {
    (forall id :: EntryOk(c, id)) && NoRepeats(c.served)
  }

  ghost predicate CallsOk(c: Client)
    requires OwnersOk(c)
  {
    forall id :: id in c.called ==> id in c.owner && Reported(c.handlers[c.owner[id]], id)
  }

  /** The only faults: a response reported as sent after the request was closed, and a success for a
      request that no handler has. */
  predicate FaultOk(c: Client, f: Fault) {
    match f
    case UnknownCallback(id) => id in c.called && GotClosed(c, id)
    case UnknownSuccess(id) => id !in c.owner && GotSuccess(c, id)
    case _ => false
  }

  ghost predicate Inv(cfg: Config, c: Client) {
    && HandlersOk(cfg, c) && ContentOk(c) && OwnersOk(c) && AnswersOk(c) && EntriesOk(c) && CallsOk(c)
    && forall f :: f in c.faults ==> FaultOk(c, f)
  }

  lemma InvLinked(cfg: Config, c: Client)
    requires Inv(cfg, c)
    ensures Linked(c) && AllReady(c)
  {
    forall i | 0 <= i < |c.handlers| ensures Ready(c.handlers[i]) {
      assert HandlerOk(cfg, c.handlers[i]);
      HandlerRuns.InvReady(c.handlers[i]);
    }
    forall id | id in c.requests ensures c.requests[id].handler < |c.handlers| {
      assert EntryOk(c, id);
    }
  }

  // ---- changing one handler ----

  /** Everything but one handler and what it sends stays as it was. */
  predicate SameRequests(c: Client, t: Client) {
    && t.requests == c.requests && t.received == c.received && t.owner == c.owner && t.absent == c.absent
    && t.called == c.called && t.served == c.served && t.ws == c.ws && t.faults == c.faults
  }

  lemma HandlersReplaced(cfg: Config, c: Client, t: Client, i: nat, h: Handler)
    requires HandlersOk(cfg, c) && i < |c.handlers| && HandlerOk(cfg, h) && t.handlers == c.handlers[i := h]
    ensures HandlersOk(cfg, t)
  {}

  lemma OwnersReplaced(c: Client, t: Client, i: nat, h: Handler)
    requires OwnersOk(c) && i < |c.handlers| && h.enqueued == c.handlers[i].enqueued
    requires SameRequests(c, t) && t.handlers == c.handlers[i := h]
    ensures OwnersOk(t)
  {}

  lemma AnswersReplaced(c: Client, t: Client, i: nat, h: Handler)
    requires OwnersOk(c) && AnswersOk(c) && OwnersOk(t)
    requires i < |c.handlers| && Moved(c.handlers[i], h) && h.enqueued == c.handlers[i].enqueued
    requires SameRequests(c, t) && t.handlers == c.handlers[i := h] && t.sent == c.sent + News(c.handlers[i], h)
    ensures AnswersOk(t)
  {
    forall id ensures AnswerOk(t, id) {
      assert AnswerOk(c, id);
      AnswerReplaced(c, t, i, h, id);
    }
  }

  lemma AnswerReplaced(c: Client, t: Client, i: nat, h: Handler, id: nat)
    requires OwnersOk(c) && AnswerOk(c, id) && OwnersOk(t)
    requires i < |c.handlers| && Moved(c.handlers[i], h) && h.enqueued == c.handlers[i].enqueued
    requires SameRequests(c, t) && t.handlers == c.handlers[i := h] && t.sent == c.sent + News(c.handlers[i], h)
    ensures AnswerOk(t, id)
  {
    OfConcat(c.sent, News(c.handlers[i], h), id);
    NewsOf(c.handlers[i], h, id);
    if !(id in c.owner && c.owner[id] == i) {
      NewsElsewhere(c.handlers[i], h, id);
      if id in c.owner { assert t.handlers[c.owner[id]] == c.handlers[c.owner[id]]; }
    }
  }

  lemma NewsElsewhere(h: Handler, t: Handler, id: nat)
    requires Moved(h, t) && id !in h.enqueued
    ensures Of(News(h, t), id) == []
  {}

  lemma CallsReplaced(c: Client, t: Client, i: nat, h: Handler)
    requires OwnersOk(c) && CallsOk(c) && OwnersOk(t)
    requires i < |c.handlers| && Moved(c.handlers[i], h)
    requires SameRequests(c, t) && t.handlers == c.handlers[i := h]
    ensures CallsOk(t)
  {}

  lemma MoveKeepsEntries(c: Client, t: Client)
    requires EntriesOk(c) && SameRequests(c, t)
    requires forall f :: f in c.faults ==> FaultOk(c, f)
    ensures EntriesOk(t)
    ensures forall f :: f in t.faults ==> FaultOk(t, f)
  {
    forall id ensures EntryOk(t, id) { assert EntryOk(c, id); }
    forall f | f in t.faults ensures FaultOk(t, f) { assert FaultOk(c, f); }
  }

  lemma MoveKeeps(cfg: Config, c: Client, t: Client, i: nat, h: Handler)
    requires Inv(cfg, c)
    requires i < |c.handlers| && HandlerOk(cfg, h) && Moved(c.handlers[i], h) && h.enqueued == c.handlers[i].enqueued
    requires SameRequests(c, t) && t.handlers == c.handlers[i := h] && t.sent == c.sent + News(c.handlers[i], h)
    requires ContentOk(t)
    ensures Inv(cfg, t)
  {
    HandlersReplaced(cfg, c, t, i, h);
    OwnersReplaced(c, t, i, h);
    AnswersReplaced(c, t, i, h);
    CallsReplaced(c, t, i, h);
    MoveKeepsEntries(c, t);
  }

  // ---- content ----

  lemma RegisterKeeps(cfg: Config, c: Client, path: string, content: Content)
    requires cfg.Valid() && Inv(cfg, c)
    ensures Inv(cfg, Register(cfg, c, path, content))
  {
    if path !in c.content && Acceptable(cfg, content) {
      var t := Register(cfg, c, path, content);
      var h := NewHandler(content, cfg.chunkSize);
      NewHandlerOk(cfg, content);
      RegisterServing(cfg, c, t, h, path);
      MoveKeepsEntries(c, t);
    }
  }

  lemma RegisterServing(cfg: Config, c: Client, t: Client, h: Handler, path: string)
    requires HandlersOk(cfg, c) && ContentOk(c) && OwnersOk(c) && AnswersOk(c) && CallsOk(c)
    requires HandlerOk(cfg, h) && h.enqueued == [] && !h.stop && path !in c.content
    requires t == c.(handlers := c.handlers + [h], content := c.content[path := |c.handlers|])
    ensures HandlersOk(cfg, t) && ContentOk(t) && OwnersOk(t) && AnswersOk(t) && CallsOk(t)
  {
    HandlersAdded(cfg, c, t, h);
    OwnersAdded(c, t, h);
    SameAnswers(c, t);
    RegisterContentOk(c, t, h, path);
  }

  lemma RegisterContentOk(c: Client, t: Client, h: Handler, path: string)
    requires ContentOk(c) && !h.stop && path !in c.content
    requires t == c.(handlers := c.handlers + [h], content := c.content[path := |c.handlers|])
    ensures ContentOk(t)
  {}

  lemma HandlersAdded(cfg: Config, c: Client, t: Client, h: Handler)
    requires HandlersOk(cfg, c) && HandlerOk(cfg, h) && t.handlers == c.handlers + [h]
    ensures HandlersOk(cfg, t)
  {}

  lemma OwnersAdded(c: Client, t: Client, h: Handler)
    requires OwnersOk(c) && h.enqueued == [] && SameRequests(c, t) && t.handlers == c.handlers + [h]
    ensures OwnersOk(t)
  {}

  lemma SameOwners(c: Client, t: Client)
    requires OwnersOk(c) && t.handlers == c.handlers && t.received == c.received && t.owner == c.owner
    requires t.absent == c.absent && t.ws == c.ws
    ensures OwnersOk(t)
  {}

  lemma SameAnswers(c: Client, t: Client)
    requires OwnersOk(c) && AnswersOk(c) && CallsOk(c) && OwnersOk(t)
    requires t.owner == c.owner && t.absent == c.absent && t.sent == c.sent && t.ws == c.ws && t.called == c.called
    requires c.handlers <= t.handlers
    ensures AnswersOk(t) && CallsOk(t)
  {
    forall id ensures AnswerOk(t, id) {
      assert AnswerOk(c, id);
      if id in c.owner { assert t.handlers[c.owner[id]] == c.handlers[c.owner[id]]; }
    }
    forall id | id in t.called ensures id in t.owner && Reported(t.handlers[t.owner[id]], id) {
      assert t.handlers[c.owner[id]] == c.handlers[c.owner[id]];
    }
  }

  /** The exception in exit_gracefully is never thrown. */
  lemma UnregisterKeeps(cfg: Config, c: Client, path: string)
    requires Inv(cfg, c) && Linked(c) && c.unregistering.None?
    ensures Inv(cfg, Unregister(c, path))
    ensures Unregister(c, path).faults == c.faults
  {
    if path in c.content {
      var i := c.content[path];
      assert HandlerOk(cfg, c.handlers[i]);
      ExitMoves(cfg, c.handlers[i]);
      MoveKeeps(cfg, c, Unregister(c, path), i, RequestExit(c.handlers[i]));
    }
  }

  lemma UnregisteredKeeps(cfg: Config, c: Client)
    requires Inv(cfg, c) && Possible(c, FinishUnregister)
    ensures Inv(cfg, Unregistered(c))
  {
    var t := Unregistered(c);
    SameHandlers(cfg, c, t);
    SameOwners(c, t);
    SameAnswers(c, t);
    MoveKeepsEntries(c, t);
  }

  lemma ReplyKeeps(cfg: Config, c: Client, ok: bool)
    requires Inv(cfg, c) && c.ws.Replying?
    ensures Inv(cfg, Reply(c, ok))
  {
    var t := Reply(c, ok);
    SameHandlers(cfg, c, t);
    ReplyAnswers(c, ok);
    ReplyEntries(c, t);
  }

  lemma ReplyAnswers(c: Client, ok: bool)
    requires OwnersOk(c) && AnswersOk(c) && CallsOk(c) && c.ws.Replying?
    ensures OwnersOk(Reply(c, ok)) && AnswersOk(Reply(c, ok)) && CallsOk(Reply(c, ok))
  {
    var t := Reply(c, ok);
    forall id ensures AnswerOk(t, id) {
      assert AnswerOk(c, id);
      OneMoreSent(c.sent, EmptyResponse(c.ws.id), id);
    }
  }

  lemma ReplyEntries(c: Client, t: Client)
    requires EntriesOk(c) && (forall f :: f in c.faults ==> FaultOk(c, f))
    requires t.requests == c.requests && t.received == c.received && t.owner == c.owner && t.called == c.called
    requires t.served == c.served && t.faults == c.faults
    ensures EntriesOk(t) && forall f :: f in t.faults ==> FaultOk(t, f)
  {
    forall id ensures EntryOk(t, id) { assert EntryOk(c, id); }
    forall f | f in t.faults ensures FaultOk(t, f) { assert FaultOk(c, f); }
  }

  // ---- the serve threads ----

  lemma PlainServeKeeps(cfg: Config, c: Client, i: nat, ok: bool)
    requires Inv(cfg, c) && i < |c.handlers| && CanServe(c.handlers[i])
    ensures Ready(c.handlers[i])
    ensures Inv(cfg, Replace(c, i, ServeStep(c.handlers[i], ok)))
  {
    assert HandlerOk(cfg, c.handlers[i]);
    ServeMoves(cfg, c.handlers[i], ok);
    RunsUntilDone(c.handlers[i]);
    ReplaceKeeps(cfg, c, i, ServeStep(c.handlers[i], ok));
  }

  lemma ReplaceKeeps(cfg: Config, c: Client, i: nat, h: Handler)
    requires Inv(cfg, c) && i < |c.handlers|
    requires HandlerOk(cfg, h) && Moved(c.handlers[i], h) && h.enqueued == c.handlers[i].enqueued
    requires h.stop == c.handlers[i].stop && (c.handlers[i].done ==> h.done)
    ensures Inv(cfg, Replace(c, i, h))
  {
    var t := Replace(c, i, h);
    ContentReplaced(c, t, i, h);
    MoveKeeps(cfg, c, t, i, h);
  }

  lemma ContentReplaced(c: Client, t: Client, i: nat, h: Handler)
    requires ContentOk(c) && i < |c.handlers| && h.stop == c.handlers[i].stop && (c.handlers[i].done ==> h.done)
    requires t.handlers == c.handlers[i := h] && t.content == c.content && t.unregistering == c.unregistering
    ensures ContentOk(t)
  {}

  lemma RunsUntilDone(h: Handler)
    requires HandlerRuns.Inv(h) && CanServe(h)
    ensures !h.done
  {}

  /** The handler of a response that is about to be reported was given the request, and has not
      reported it before. */
  lemma AtCallback(cfg: Config, c: Client, i: nat)
    requires Inv(cfg, c) && i < |c.handlers| && c.handlers[i].pc.Callback?
    ensures c.handlers[i].handling.Some?
    ensures var id := c.handlers[i].handling.value;
            id in c.owner && c.owner[id] == i && id !in c.called
  {
    var h := c.handlers[i];
    assert HandlerOk(cfg, h);
    var id := h.handling.value;
    Bookkeeping(h);
    assert h.current.value in HandlerRuns.Blocks(h);
    if id in HandlerRuns.Ids(h.past) {
      var blocks := HandlerRuns.Blocks(h);
      assert blocks[..|blocks| - 1] == h.past;
      Snoc(blocks);
    }
  }

  lemma CallbackKeeps(cfg: Config, c: Client, i: nat, id: nat)
    requires Inv(cfg, c) && i < |c.handlers|
    requires id in c.owner && c.owner[id] == i && id !in c.called && Reported(c.handlers[i], id)
    ensures Inv(cfg, ResponseSent(c, id))
    ensures UnknownCallback(id) in ResponseSent(c, id).faults <==> GotClosed(c, id)
  {
    var t := ResponseSent(c, id);
    CallbackFrame(c, id);
    CallKeeps(cfg, c, t, id);
    CallbackEntries(c, id);
  }

  lemma CallbackFrame(c: Client, id: nat)
    ensures var t := ResponseSent(c, id);
            && t.handlers == c.handlers && t.content == c.content && t.unregistering == c.unregistering
            && t.owner == c.owner && t.absent == c.absent && t.sent == c.sent && t.ws == c.ws && t.received == c.received
            && t.called == c.called + {id}
  {}

  lemma CallKeeps(cfg: Config, c: Client, t: Client, id: nat)
    requires HandlersOk(cfg, c) && ContentOk(c) && OwnersOk(c) && AnswersOk(c) && CallsOk(c)
    requires id in c.owner && Reported(c.handlers[c.owner[id]], id)
    requires t.handlers == c.handlers && t.content == c.content && t.unregistering == c.unregistering
    requires t.owner == c.owner && t.absent == c.absent && t.sent == c.sent && t.ws == c.ws && t.received == c.received
    requires t.called == c.called + {id}
    ensures HandlersOk(cfg, t) && ContentOk(t) && OwnersOk(t) && AnswersOk(t) && CallsOk(t)
  {
    SameHandlers(cfg, c, t);
    SameOwners(c, t);
    MoreCalls(c, t, id);
  }

  lemma SameHandlers(cfg: Config, c: Client, t: Client)
    requires HandlersOk(cfg, c) && t.handlers == c.handlers
    ensures HandlersOk(cfg, t)
  {}

  lemma MoreCalls(c: Client, t: Client, id: nat)
    requires OwnersOk(c) && AnswersOk(c) && CallsOk(c) && OwnersOk(t)
    requires t.owner == c.owner && t.absent == c.absent && t.sent == c.sent && t.ws == c.ws && t.called == c.called + {id}
    requires t.handlers == c.handlers && id in c.owner && Reported(c.handlers[c.owner[id]], id)
    ensures AnswersOk(t) && CallsOk(t)
  {
    forall k ensures AnswerOk(t, k) { assert AnswerOk(c, k); }
  }

  lemma CallbackEntries(c: Client, id: nat)
    requires EntriesOk(c) && id in c.owner && id !in c.called
    requires forall f :: f in c.faults ==> FaultOk(c, f)
    ensures var t := ResponseSent(c, id);
            && EntriesOk(t) && (forall f :: f in t.faults ==> FaultOk(t, f))
            && (UnknownCallback(id) in t.faults <==> GotClosed(c, id))
  {
    var t := ResponseSent(c, id);
    assert EntryOk(c, id);
    forall k ensures EntryOk(t, k) { assert EntryOk(c, k); }
    forall f | f in t.faults ensures FaultOk(t, f) { if f in c.faults { assert FaultOk(c, f); } }
  }

  lemma ServeKeeps(cfg: Config, c: Client, i: nat, ok: bool)
    requires Inv(cfg, c) && i < |c.handlers| && CanServe(c.handlers[i])
    ensures Ready(c.handlers[i])
    ensures Inv(cfg, ServeTurn(c, i, ok))
  {
    PlainServeKeeps(cfg, c, i, ok);
    if c.handlers[i].pc.Callback? { ReportFaults(cfg, c, i, ok); }
  }

  lemma ReportFaults(cfg: Config, c: Client, i: nat, ok: bool)
    requires Inv(cfg, c) && i < |c.handlers| && c.handlers[i].pc.Callback?
    ensures Ready(c.handlers[i]) && c.handlers[i].handling.Some?
    ensures Inv(cfg, ServeTurn(c, i, ok))
    ensures UnknownCallback(c.handlers[i].handling.value) in ServeTurn(c, i, ok).faults <==> GotClosed(c, c.handlers[i].handling.value)
  {
    var h := c.handlers[i];
    PlainServeKeeps(cfg, c, i, ok);
    AtCallback(cfg, c, i);
    assert HandlerOk(cfg, h);
    HandlerSteps.ServeOutcome(h, ok);
    CallbackKeeps(cfg, Replace(c, i, ServeStep(h, ok)), i, h.handling.value);
  }
}
