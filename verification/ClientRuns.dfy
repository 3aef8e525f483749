/** Every step of a client connection keeps the invariant; what that means for runs. */
module ClientRuns {
  import opened Wire
  import opened Handler
  import opened HandlerTheorems
  import opened Client
  import C = Client
  import opened ClientHandlers
  import opened ClientInvariant

  lemma OneMoreReceived(c: Client, m: ServerMessage)
    requires !m.Close?
    ensures forall id :: About(c.received + [m], id) == if m.id == id then About(c.received, id) + [m] else About(c.received, id)
  {}

  /** The table, the callbacks and the faults after a message arrived, before anything is done about it. */
  predicate Arrived(c: Client, m: ServerMessage) {
    && !m.Close? && c.ws.Idle? && c.unregistering.None? && Legal(About(c.received, m.id) + [m])
  }

  /** The serving side, unchanged but for the record of what arrived. */
  lemma ArrivalKeeps(cfg: Config, c: Client, t: Client, m: ServerMessage)
    requires HandlersOk(cfg, c) && ContentOk(c) && OwnersOk(c) && AnswersOk(c) && CallsOk(c) && !m.Close?
    requires t.handlers == c.handlers && t.content == c.content && t.unregistering == c.unregistering
    requires t.owner == c.owner && t.absent == c.absent && t.sent == c.sent && t.ws == c.ws && t.called == c.called
    requires t.received == c.received + [m]
    ensures HandlersOk(cfg, t) && ContentOk(t) && OwnersOk(t) && AnswersOk(t) && CallsOk(t)
  {
    SameHandlers(cfg, c, t);
    ArrivalOwners(c, t, m);
    SameAnswers(c, t);
  }

  lemma ArrivalOwners(c: Client, t: Client, m: ServerMessage)
    requires OwnersOk(c) && !m.Close? && t.received == c.received + [m]
    requires t.handlers == c.handlers && t.owner == c.owner && t.absent == c.absent && t.ws == c.ws
    ensures OwnersOk(t)
  {}

  /** Nothing is known yet about a request that arrives. */
  lemma FreshRequest(cfg: Config, c: Client, m: ServerMessage)
    requires Inv(cfg, c) && Arrived(c, m) && m.RequestMsg?
    ensures About(c.received, m.id) == []
    ensures m.id !in c.requests && m.id !in c.owner && m.id !in c.absent && m.id !in c.called && m.id !in c.served
    ensures Of(c.sent, m.id) == []
  {
    var ms := About(c.received, m.id);
    assert (ms + [m])[|ms|] == m;
    assert EntryOk(c, m.id) && AnswerOk(c, m.id);
  }

  lemma PlainArrival(cfg: Config, c: Client, t: Client, m: ServerMessage)
    requires EntriesOk(c) && (forall f :: f in c.faults ==> FaultOk(c, f))
    requires Arrived(c, m) && m.id !in c.requests && (m.RequestMsg? ==> m.id !in c.owner)
    requires t.requests == c.requests && t.owner == c.owner && t.called == c.called && t.served == c.served
    requires t.received == c.received + [m]
    requires t.faults == c.faults || (m.Success? && t.faults == c.faults + {UnknownSuccess(m.id)})
    ensures EntriesOk(t) && forall f :: f in t.faults ==> FaultOk(t, f)
  {
    OneMoreReceived(c, m);
    forall k ensures EntryOk(t, k) { ArrivedEntry(c, t, m, k); }
    forall f | f in t.faults ensures FaultOk(t, f) {
      if f in c.faults { assert FaultOk(c, f) && EntryOk(c, f.id); }
      else { assert EntryOk(c, m.id); }
    }
  }

  lemma ArrivedEntry(c: Client, t: Client, m: ServerMessage, k: nat)
    requires EntriesOk(c) && Arrived(c, m) && m.id !in c.requests && (m.RequestMsg? ==> m.id !in c.owner)
    requires t.requests == c.requests && t.owner == c.owner && t.called == c.called && t.served == c.served
    requires t.received == c.received + [m]
    ensures EntryOk(t, k)
  {
    OneMoreReceived(c, m);
    assert EntryOk(c, k) && EntryOk(c, m.id);
  }

  // ---- requests ----

  lemma AbsentKeeps(cfg: Config, c: Client, m: ServerMessage)
    requires Inv(cfg, c) && Arrived(c, m) && m.RequestMsg?
    ensures Inv(cfg, c.(received := c.received + [m], ws := Replying(m.id), absent := c.absent + {m.id}))
  {
    var t1 := c.(received := c.received + [m]);
    var t := t1.(ws := Replying(m.id), absent := c.absent + {m.id});
    FreshRequest(cfg, c, m);
    ArrivalKeeps(cfg, c, t1, m);
    PlainArrival(cfg, c, t, m);
    AbsentServing(cfg, t1, t, m.id);
  }

  lemma AbsentServing(cfg: Config, c: Client, t: Client, id: nat)
    requires HandlersOk(cfg, c) && ContentOk(c) && OwnersOk(c) && AnswersOk(c) && CallsOk(c)
    requires id !in c.owner && id !in c.absent && About(c.received, id) != []
    requires c.ws.Idle? && t == c.(ws := Replying(id), absent := c.absent + {id}) && Of(c.sent, id) == []
    ensures HandlersOk(cfg, t) && ContentOk(t) && OwnersOk(t) && AnswersOk(t) && CallsOk(t)
  {
    SameHandlers(cfg, c, t);
    AbsentOwners(c, t, id);
    forall k ensures AnswerOk(t, k) { assert AnswerOk(c, k); }
  }

  lemma AbsentOwners(c: Client, t: Client, id: nat)
    requires OwnersOk(c) && id !in c.owner && About(c.received, id) != []
    requires t == c.(ws := Replying(id), absent := c.absent + {id})
    ensures OwnersOk(t)
  {}

  /** Handing a new request to a handler. */
  lemma GivenServing(cfg: Config, c: Client, t: Client, i: nat, id: nat)
    requires HandlersOk(cfg, c) && OwnersOk(c) && AnswersOk(c) && CallsOk(c)
    requires i < |c.handlers| && id !in c.owner && id !in c.absent && id !in c.called
    requires About(c.received, id) != [] && Of(c.sent, id) == []
    requires t.handlers == c.handlers[i := Enqueue(c.handlers[i], id)] && t.owner == c.owner[id := i]
    requires t.received == c.received && t.sent == c.sent && t.absent == c.absent && t.called == c.called && t.ws == c.ws
    ensures HandlersOk(cfg, t) && OwnersOk(t) && AnswersOk(t) && CallsOk(t)
  {
    var h := c.handlers[i];
    assert HandlerOk(cfg, h);
    EnqueueMoves(cfg, h, id);
    HandlersReplaced(cfg, c, t, i, Enqueue(h, id));
    GivenOwners(c, t, i, id);
    SilentAbout(cfg, h, id);
    forall k ensures AnswerOk(t, k) { assert AnswerOk(c, k); GivenAnswer(c, t, i, id, k); }
  }

  lemma GivenOwners(c: Client, t: Client, i: nat, id: nat)
    requires OwnersOk(c) && i < |c.handlers| && id !in c.owner && id !in c.absent && About(c.received, id) != []
    requires t.handlers == c.handlers[i := Enqueue(c.handlers[i], id)] && t.owner == c.owner[id := i]
    requires t.received == c.received && t.absent == c.absent && t.ws == c.ws
    ensures OwnersOk(t)
  {}

  lemma GivenAnswer(c: Client, t: Client, i: nat, id: nat, k: nat)
    requires OwnersOk(c) && AnswerOk(c, k) && i < |c.handlers| && id !in c.owner && id !in c.absent
    requires Of(c.sent, id) == [] && Of(Messages(c.handlers[i].log), id) == []
    requires t.handlers == c.handlers[i := Enqueue(c.handlers[i], id)] && t.owner == c.owner[id := i]
    requires t.sent == c.sent && t.absent == c.absent && t.ws == c.ws && OwnersOk(t)
    ensures AnswerOk(t, k)
  {}

  lemma GivenEntries(c: Client, t: Client, m: ServerMessage, i: nat)
    requires EntriesOk(c) && (forall f :: f in c.faults ==> FaultOk(c, f))
    requires Arrived(c, m) && m.RequestMsg? && About(c.received, m.id) == []
    requires m.id !in c.owner && m.id !in c.called && m.id !in c.served
    requires t.requests == c.requests[m.id := Entry(i, false)] && t.owner == c.owner[m.id := i]
    requires t.called == c.called && t.served == c.served && t.faults == c.faults && t.received == c.received + [m]
    ensures EntriesOk(t) && forall f :: f in t.faults ==> FaultOk(t, f)
  {
    OneMoreReceived(c, m);
    forall k ensures EntryOk(t, k) { assert EntryOk(c, k); }
    forall f | f in t.faults ensures FaultOk(t, f) { assert FaultOk(c, f); }
  }

  lemma OnRequestKeeps(cfg: Config, c: Client, m: ServerMessage, limited: bool)
    requires Inv(cfg, c) && Linked(c) && Arrived(c, m) && m.RequestMsg?
    ensures Inv(cfg, OnRequest(c.(received := c.received + [m]), m.id, m.path, limited))
  {
    var t1 := c.(received := c.received + [m]);
    FreshRequest(cfg, c, m);
    ArrivalKeeps(cfg, c, t1, m);
    if limited {
      PlainArrival(cfg, c, t1, m);
    } else if m.path !in c.content {
      AbsentKeeps(cfg, c, m);
    } else {
      GivenKeeps(cfg, c, m);
    }
  }

  lemma GivenKeeps(cfg: Config, c: Client, m: ServerMessage)
    requires Inv(cfg, c) && Linked(c) && Arrived(c, m) && m.RequestMsg? && m.path in c.content && m.id !in c.requests
    ensures Inv(cfg, OnRequest(c.(received := c.received + [m]), m.id, m.path, false))
  {
    var t1 := c.(received := c.received + [m]);
    FreshRequest(cfg, c, m);
    ArrivalKeeps(cfg, c, t1, m);
    var i := c.content[m.path];
    var t := OnRequest(t1, m.id, m.path, false);
    OneMoreReceived(c, m);
    assert About(t1.received, m.id) != [];
    EnqueueIsSilent(c.handlers[i], m.id);
    GivenServing(cfg, t1, t, i, m.id);
    GivenEntries(c, t, m, i);
    GivenContent(t1, t, i, m.id);
  }

  lemma EnqueueIsSilent(h: Handler, id: nat)
    ensures News(h, Enqueue(h, id)) == []
  {}

  lemma GivenContent(c: Client, t: Client, i: nat, id: nat)
    requires ContentOk(c) && i < |c.handlers|
    requires t.handlers == c.handlers[i := Enqueue(c.handlers[i], id)] && t.content == c.content && t.unregistering == c.unregistering
    ensures ContentOk(t)
  {}

  // ---- success and closing ----

  lemma CallServedEntries(c: Client, t: Client, m: ServerMessage)
    requires EntriesOk(c) && (forall f :: f in c.faults ==> FaultOk(c, f))
    requires Arrived(c, m) && m.Success? && m.id in c.requests
    requires t == CallServed(c.(received := c.received + [m]), m.id)
    ensures EntriesOk(t) && forall f :: f in t.faults ==> FaultOk(t, f)
  {
    OneMoreReceived(c, m);
    assert EntryOk(c, m.id);
    forall k ensures EntryOk(t, k) { assert EntryOk(c, k); }
    forall f | f in t.faults ensures FaultOk(t, f) { assert FaultOk(c, f); }
  }

  lemma OnSuccessKeeps(cfg: Config, c: Client, m: ServerMessage)
    requires Inv(cfg, c) && Arrived(c, m) && m.Success?
    ensures Inv(cfg, OnSuccess(c.(received := c.received + [m]), m.id))
  {
    var t := OnSuccess(c.(received := c.received + [m]), m.id);
    ArrivalKeeps(cfg, c, t, m);
    if m.id in c.requests {
      CallServedEntries(c, t, m);
    } else {
      PlainArrival(cfg, c, t, m);
    }
  }

  lemma ClosedEntries(c: Client, t: Client, m: ServerMessage)
    requires EntriesOk(c) && (forall f :: f in c.faults ==> FaultOk(c, f))
    requires Arrived(c, m) && m.RequestClosed? && m.id in c.requests
    requires t.requests == c.requests - {m.id} && t.owner == c.owner && t.called == c.called
    requires t.served == c.served && t.faults == c.faults && t.received == c.received + [m]
    ensures EntriesOk(t) && forall f :: f in t.faults ==> FaultOk(t, f)
  {
    OneMoreReceived(c, m);
    assert EntryOk(c, m.id);
    forall k ensures EntryOk(t, k) { assert EntryOk(c, k); }
    forall f | f in t.faults ensures FaultOk(t, f) { assert FaultOk(c, f); }
  }

  lemma OnRequestClosedKeeps(cfg: Config, c: Client, m: ServerMessage, ok: bool)
    requires Inv(cfg, c) && Linked(c) && Arrived(c, m) && m.RequestClosed?
    ensures Inv(cfg, OnRequestClosed(c.(received := c.received + [m]), m.id, ok))
  {
    var t1 := c.(received := c.received + [m]);
    ArrivalKeeps(cfg, c, t1, m);
    if m.id in c.requests {
      var i := c.requests[m.id].handler;
      var t := OnRequestClosed(t1, m.id, ok);
      ClosedEntries(c, t, m);
      CancelServing(cfg, t1, t, i, m.id, ok);
    } else {
      PlainArrival(cfg, c, t1, m);
    }
  }

  lemma CancelServing(cfg: Config, c: Client, t: Client, i: nat, id: nat, ok: bool)
    requires HandlersOk(cfg, c) && ContentOk(c) && OwnersOk(c) && AnswersOk(c) && CallsOk(c) && i < |c.handlers|
    requires t == Replace(c, i, CancelRequest(c.handlers[i], id, ok)).(requests := c.requests - {id})
    ensures HandlersOk(cfg, t) && ContentOk(t) && OwnersOk(t) && AnswersOk(t) && CallsOk(t)
  {
    var h := c.handlers[i];
    assert HandlerOk(cfg, h);
    CancelMoves(cfg, h, id, ok);
    CancelStops(h, id, ok);
    var u := Replace(c, i, CancelRequest(h, id, ok));
    HandlersReplaced(cfg, c, u, i, CancelRequest(h, id, ok));
    OwnersReplaced(c, u, i, CancelRequest(h, id, ok));
    AnswersReplaced(c, u, i, CancelRequest(h, id, ok));
    CallsReplaced(c, u, i, CancelRequest(h, id, ok));
    SameOwners(u, t);
    SameHandlers(cfg, u, t);
    SameAnswers(u, t);
  }

  lemma CancelStops(h: Handler, id: nat, ok: bool)
    ensures CancelRequest(h, id, ok).stop == h.stop && CancelRequest(h, id, ok).done == h.done
  {}

  // ---- runs ----

  lemma StepKeeps(cfg: Config, c: Client, input: C.Input)
    requires cfg.Valid() && Inv(cfg, c) && Possible(c, input)
    ensures Linked(c) && AllReady(c)
    ensures Inv(cfg, C.Step(cfg, c, input))
  {
    InvLinked(cfg, c);
    match input {
      case RegisterContent(path, content) => RegisterKeeps(cfg, c, path, content);
      case UnregisterContent(path) => UnregisterKeeps(cfg, c, path);
      case FinishUnregister => UnregisteredKeeps(cfg, c);
      case ServeThread(i, ok) => ServeKeeps(cfg, c, i, ok);
      case SendEmpty(ok) => ReplyKeeps(cfg, c, ok);
      case Take(m, limited, ok) => TakeKeeps(cfg, c, m, limited, ok);
    }
  }

  lemma TakeKeeps(cfg: Config, c: Client, m: ServerMessage, limited: bool, ok: bool)
    requires Inv(cfg, c) && Linked(c) && Arrived(c, m)
    ensures Inv(cfg, Receive(c, m, limited, ok))
  {
    match m {
      case RequestMsg(_, _) => OnRequestKeeps(cfg, c, m, limited);
      case Success(_) => OnSuccessKeeps(cfg, c, m);
      case RequestClosed(_, _) => OnRequestClosedKeeps(cfg, c, m, ok);
    }
  }
}
