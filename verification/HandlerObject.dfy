/** The request handler of client/src/request_handler.cpp with its fields updated in place. Each
    method is one section executed under the data lock, or one send; the serve loop is cut where it
    releases the lock. */
module HandlerObject {
  import opened Wire
  import H = Handler
  import R = HandlerRuns

  class RequestHandler {
    const content: H.Content
    const chunkSize: nat
    var pending: seq<nat>
    var handling: Option<nat>
    var cancel: bool
    var stop: bool
    var done: bool
    var running: bool
    // the serve loop's place and locals
    var pc: H.Pc
    var sequence: nat
    var total: nat
    var good: bool
    // history
    ghost var log: seq<H.Emission>
    ghost var enqueued: seq<nat>
    ghost var dropped: set<nat>
    ghost var past: seq<H.Block>
    ghost var current: Option<H.Block>

    ghost function Value(): H.Handler
      reads this
    {
      H.Handler(content, chunkSize, pending, handling, cancel, stop, done, pc, sequence, total, good,
                log, enqueued, dropped, past, current)
    }

    constructor (content: H.Content, chunkSize: nat)
      ensures Value() == H.NewHandler(content, chunkSize) && !running
    {
      this.content, this.chunkSize := content, chunkSize;
      pending, handling, cancel, stop, done, running := [], None, false, false, false, false;
      pc, sequence, total, good := H.Waiting, 0, 0, true;
      log, enqueued, dropped, past, current := [], [], {}, [], None;
    }

    /** Throws if the thread was spawned before, or the handler was asked to exit. */
    method SpawnServeThread() returns (thrown: bool)
      modifies this`running
      ensures thrown <==> old(running) || stop
      ensures running == (old(running) || !thrown)
    {
      if running || stop {
        return true;
      }
      running := true;
      return false;
    }

    // ---- called by other threads ----

    method ServeRequest(id: nat)
      modifies this
      ensures running == old(running)
      ensures Value() == H.Enqueue(old(Value()), id)
    {
      if done {
        return;
      }
      pending := pending + [id];
      enqueued := enqueued + [id];
    }

    /** Searches the queue from the front and erases the request, if it is found. */
    method ErasePending(id: nat) returns (found: bool)
      modifies this`pending
      ensures found <==> id in old(pending)
      ensures pending == if found then H.Without(old(pending), id) else old(pending)
    {
      var i := 0;
      while i < |pending|
        invariant 0 <= i <= |pending| && pending == old(pending)
        invariant id !in pending[..i]
      {
        if pending[i] == id {
          R.WithoutAt(pending, i, id);
          pending := pending[..i] + pending[i + 1..];
          return true;
        }
        assert pending[..i + 1] == pending[..i] + [pending[i]];
        i := i + 1;
      }
      assert pending[..i] == pending;
      return false;
    }

    method CancelRequest(id: nat, ok: bool)
      modifies this
      ensures running == old(running)
      ensures Value() == H.CancelRequest(old(Value()), id, ok)
    {
      if done {
        return;
      }
      if handling == Some(id) {
        cancel := true;
        return;
      }
      var found := ErasePending(id);
      if found {
        dropped := dropped + {id};
        if ok {
          log := log + [H.ByCancel(CloseResponse(id))];
        }
      }
    }

    /** The part of exit_gracefully before the wait for the serve loop. There is nothing to do if the
        thread was never spawned or its loop is done; it throws if the handler was asked before. */
    method RequestExit() returns (thrown: bool)
      modifies this
      ensures running == old(running)
      ensures thrown <==> old(running && stop && !done)
      ensures Value() == if thrown || !running then old(Value()) else H.RequestExit(old(Value()))
    {
      if done || !running {
        return false;
      }
      if stop {
        return true;
      }
      if handling.Some? {
        cancel := true;
      }
      stop := true;
      return false;
    }

    // ---- the serve thread ----

    method Exit()
      modifies this
      ensures running == old(running)
      ensures Value() == H.Exit(old(Value()))
    {
      handling, done, pc := None, true, H.Exited;
    }

    method TakeFirst()
      requires !cancel && !stop && pending != []
      modifies this`pending, this`handling, this`sequence, this`total, this`good, this`current, this`pc
      ensures Value() == H.Next(old(Value()))
    {
      ghost var taken := H.Next(Value());
      var id := pending[0];
      pending := pending[1..];
      handling := Some(id);
      sequence, total, good := 0, 0, true;
      current := Some(H.Block(id, false, 0, false));
      pc := H.HeaderReady;
      assert Value() == taken;
    }

    method Next()
      requires !cancel
      modifies this
      ensures running == old(running)
      ensures Value() == H.Next(old(Value()))
    {
      if stop {
        Exit();
        return;
      }
      if pending == [] {
        pc := H.Waiting;
        return;
      }
      TakeFirst();
    }

    /** Resets the request handling state and goes on. */
    method Forget(ghost block: H.Block)
      modifies this
      ensures running == old(running)
      ensures Value() == H.Next(old(Value()).(handling := None, cancel := false, past := old(past) + [block], current := None))
    {
      handling := None;
      cancel := false;
      past, current := past + [block], None;
      Next();
    }

    method LoopHead(ok: bool)
      requires current.Some?
      modifies this
      ensures running == old(running)
      ensures Value() == H.LoopHead(old(Value()), ok)
    {
      if cancel && handling.Some? {
        if !ok {
          Exit();
          return;
        }
        log := log + [H.ByServe(CloseResponse(handling.value))];
        Forget(current.value.(closed := true));
        return;
      }
      Forget(current.value);
    }

    method IterationEnd(ok: bool)
      requires current.Some?
      modifies this
      ensures running == old(running)
      ensures Value() == H.IterationEnd(old(Value()), ok)
    {
      if total == |content.data| {
        cancel := false;
      }
      LoopHead(ok);
    }

    method AfterChunks(ok: bool)
      requires current.Some?
      modifies this
      ensures running == old(running)
      ensures Value() == H.AfterChunks(old(Value()), ok)
    {
      if !cancel {
        pc := H.Callback;
      } else {
        IterationEnd(ok);
      }
    }

    method ReadChunk(ok: bool)
      requires current.Some? && total <= |content.data|
      modifies this
      ensures running == old(running)
      ensures Value() == H.ReadChunk(old(Value()), ok)
    {
      if !good {
        AfterChunks(ok);
        return;
      }
      var left := |content.data| - total;
      var n := if left < chunkSize then left else chunkSize;
      good := n == chunkSize;
      if n == 0 {
        AfterChunks(ok);
        return;
      }
      sequence := sequence + 1;
      pc := H.ChunkReady(content.data[total..total + n]);
    }

    /** After a chunk was sent and counted. */
    method GoOn(ok: bool, ghost h: H.Handler)
      requires current.Some? && total <= |content.data| && h == Value()
      modifies this
      ensures running == old(running)
      ensures Value() == if h.cancel then H.AfterChunks(h, ok) else if h.stop then H.Exit(h) else H.ReadChunk(h, ok)
    {
      if cancel { AfterChunks(ok); }
      else if stop { Exit(); }
      else { ReadChunk(ok); }
    }

    method ChunkWasSent(n: nat, ok: bool)
      requires current.Some? && total + n <= |content.data|
      modifies this
      ensures running == old(running)
      ensures Value() == H.ChunkWasSent(old(Value()), n, true, ok)
    {
      ghost var h := Value().(total := total + n);
      total := total + n;
      GoOn(ok, h);
    }

    /** The serve thread runs until it releases the lock the next time. */
    method ServeStep(ok: bool)
      requires H.CanServe(Value()) && H.Ready(Value())
      modifies this
      ensures running == old(running)
      ensures Value() == H.ServeStep(old(Value()), ok)
    {
      match pc
      case Waiting => Next();
      case HeaderReady =>
        if ok {
          log := log + [H.ByServe(H.HeaderMessage(content, handling.value))];
          current := Some(current.value.(header := true));
        }
        pc := H.HeaderSent(ok);
      case HeaderSent(sent) =>
        if !sent { Exit(); }
        else if cancel { LoopHead(ok); }
        else if stop { Exit(); }
        else { ReadChunk(ok); }
      case ChunkReady(data) =>
        if ok {
          log := log + [H.ByServe(ContentChunk(handling.value, sequence - 1, data))];
          current := Some(current.value.(chunks := current.value.chunks + 1));
        }
        pc := H.ChunkSent(|data|, ok);
      case ChunkSent(n, sent) =>
        if sent { ChunkWasSent(n, ok); } else { Exit(); }
      case Callback => pc := H.CallbackDone;
      case CallbackDone => IterationEnd(ok);
    }
  }
}
