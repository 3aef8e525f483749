/** The objects of client/src/shared_client.cpp, updated in place. The assertions of the source are
    proved here from what the invariant over all instances says about a caller. */
module SharedClientObject {
  import opened Wire
  import opened SharedClient
  import R = SharedClientRuns

  /** The wrapped client, as far as shared clients can see. */
  class WrappedClient {
    var started: bool
    var content: map<string, nat>
    var nextHandle: nat
    ghost var commands: seq<Command>

    ghost function Value(): Wrapped
      reads this
    {
      Wrapped(started, content, nextHandle, commands)
    }

    constructor ()
      ensures Value() == Wrapped(false, map[], 0, [])
    {
      started, content, nextHandle, commands := false, map[], 0, [];
    }

    method Start()
      modifies this
      ensures Value() == StartWrapped(old(Value()))
    {
      started, commands := true, commands + [StartIt];
    }

    method Stop()
      modifies this
      ensures Value() == StopWrapped(old(Value()))
    {
      if started { content := map[]; }
      started, commands := false, commands + [StopIt];
    }

    method Idle(state: bool)
      modifies this
      ensures Value() == IdleWrapped(old(Value()), state)
    {
      commands := commands + [IdleIt(state)];
    }

    /** None stands for the exceptions of register_content. */
    method RegisterContent(path: string, ok: bool) returns (h: Option<Handle>)
      modifies this
      ensures h == if ok && path !in old(content) then Some(Handle(old(nextHandle), path)) else None
      ensures Value() == if h.None? then old(Value())
                         else old(Value()).(content := old(content)[path := h.value.id], nextHandle := old(nextHandle) + 1)
    {
      if !ok || path in content {
        return None;
      }
      h := Some(Handle(nextHandle, path));
      content, nextHandle := content[path := nextHandle], nextHandle + 1;
    }

    method UnregisterContent(h: Handle)
      modifies this
      ensures Value() == Unregister(old(Value()), h)
    {
      content := content - {h.path};
    }
  }

  /** Reference counts per wrapped client. */
  class SharedReferenceCounter {
    var refs: map<WrappedClient, Counter>

    function RowOf(c: WrappedClient): Row
      reads this
    {
      if c in refs then Some(refs[c]) else None
    }

    constructor ()
      ensures refs == map[]
    {
      refs := map[];
    }

    method Add(c: WrappedClient) returns (index: nat)
      modifies this
      ensures (RowOf(c), index) == SharedClient.Add(old(RowOf(c)))
      ensures refs - {c} == old(refs) - {c}
    {
      if c !in refs {
        refs := refs[c := Counter(0, 0)];
      }
      var counter := refs[c];
      index := counter.nextIndex;
      refs := refs[c := Counter(counter.references + 1, counter.nextIndex + 1)];
    }

    method Remove(c: WrappedClient) returns (was: nat)
      requires c in refs && refs[c].references > 0
      modifies this
      ensures (RowOf(c), was) == SharedClient.Remove(old(RowOf(c)))
      ensures refs - {c} == old(refs) - {c}
    {
      var counter := refs[c];
      was := counter.references;
      if counter.references - 1 == 0 {
        assert was == 1;
        refs := refs - {c};
      } else {
        assert was > 1;
        refs := refs[c := counter.(references := counter.references - 1)];
      }
    }

    method Count(c: WrappedClient) returns (n: nat)
      requires Proper(RowOf(c))
      ensures n == SharedClient.Count(RowOf(c))
    {
      if c !in refs {
        return 0;
      }
      assert refs[c].references != 0;
      return refs[c].references;
    }
  }

  /** The global state that all instances share. */
  class SharedClientState {
    const refs: SharedReferenceCounter
    const started: SharedReferenceCounter
    const idling: SharedReferenceCounter

    constructor ()
      ensures fresh(refs) && fresh(started) && fresh(idling) && Apart()
      ensures refs.refs == map[] && started.refs == map[] && idling.refs == map[]
    {
      refs := new SharedReferenceCounter();
      started := new SharedReferenceCounter();
      idling := new SharedReferenceCounter();
    }

    predicate Apart() {
      refs != started && started != idling && idling != refs
    }

    ghost function RowsOf(c: WrappedClient): Rows
      reads refs, started, idling
    {
      Rows(refs.RowOf(c), started.RowOf(c), idling.RowOf(c))
    }

    /** The counts of every other wrapped client. */
    ghost function RestOf(c: WrappedClient): (map<WrappedClient, Counter>, map<WrappedClient, Counter>, map<WrappedClient, Counter>)
      reads refs, started, idling
    {
      (refs.refs - {c}, started.refs - {c}, idling.refs - {c})
    }
  }

  class SharedClientImpl {
    const client: WrappedClient
    const state: SharedClientState
    const index: nat
    var started: bool
    var idling: bool
    var registered: set<Handle>

    ghost function Here(): Scope
      reads this, client, state.refs, state.started, state.idling
    {
      Scope(Instance(index, started, idling, registered), state.RowsOf(client), client.Value(), true)
    }

    constructor (wrapped: WrappedClient, global: SharedClientState)
      requires global.Apart()
      modifies global.refs
      ensures client == wrapped && state == global
      ensures (state.RowsOf(client).refs, index) == Add(old(global.RowsOf(wrapped).refs))
      ensures state.RestOf(client) == old(global.RestOf(wrapped))
      ensures !started && !idling && registered == {}
    {
      var i := global.refs.Add(wrapped);
      client, state, index := wrapped, global, i;
      started, idling, registered := false, false, {};
    }

    method ResetIdling()
      requires state.Apart() && R.ScopeOk(Here())
      modifies this`idling, state.idling
      ensures Here() == SharedClient.ResetIdling(old(Here()))
      ensures state.RestOf(client) == old(state.RestOf(client))
    {
      if idling {
        var was := state.idling.Remove(client);
        assert was > 0;
        idling := false;
      }
    }

    /** The loop takes the handles in any order. */
    method UnregisterAll()
      requires state.Apart()
      modifies this`registered, client
      ensures Here() == SharedClient.UnregisterContent(old(Here()))
    {
      ghost var gone: set<Handle> := {};
      while registered != {}
        invariant gone + registered == old(registered) && gone !! registered
        invariant client.Value() == old(client.Value()).(content := old(client.content) - Paths(gone))
        decreases registered
      {
        var h :| h in registered;
        client.UnregisterContent(h);
        registered := registered - {h};
        gone := gone + {h};
        assert Paths(gone) == Paths(gone - {h}) + {h.path};
      }
      assert gone == old(registered);
    }

    /** Whether the wrapped client is ready once it was started is an input. The result tells whether
        the ready callback of this instance is called right away: nobody else is going to, if the
        wrapped client was ready before. */
    method Start(ready: bool) returns (callReady: bool)
      requires state.Apart() && R.ScopeOk(Here())
      modifies this`started, this`idling, client, state.started, state.idling
      ensures Here() == SharedClient.Start(old(Here()))
      ensures callReady <==> !old(started) && old(client.started) && ready
      ensures state.RestOf(client) == old(state.RestOf(client))
    {
      ResetIdling();
      if started {
        client.Start();
        return false;
      }
      var wasStarted := client.started;
      var _ := state.started.Add(client);
      client.Start();
      started := true;
      callReady := false;
      if wasStarted {
        assert client.started;
        callReady := ready;
      }
    }

    /** The result tells whether the disconnect callback of this instance is called, because the wrapped
        client goes on for others. */
    method Stop() returns (callDisconnect: bool)
      requires state.Apart() && R.ScopeOk(Here())
      modifies this`started, this`idling, this`registered, client, state.started, state.idling
      ensures Here() == SharedClient.Stop(old(Here()))
      ensures callDisconnect <==> old(started) && Count(old(Here()).rows.started) > 1
      ensures state.RestOf(client) == old(state.RestOf(client))
    {
      ResetIdling();
      UnregisterAll();
      callDisconnect := false;
      if !started {
        return;
      }
      var was := state.started.Remove(client);
      if was == 1 {
        client.Stop();
      } else {
        callDisconnect := true;
      }
      started := false;
    }

    method Idle(on: bool)
      requires state.Apart() && R.ScopeOk(Here())
      modifies this`idling, client, state.idling
      ensures Here() == SharedClient.Idle(old(Here()), on)
      ensures state.RestOf(client) == old(state.RestOf(client))
    {
      if !(started && client.started) || idling == on {
        return;
      }
      if on {
        var _ := state.idling.Add(client);
        var starts := state.started.Count(client);
        var idles := state.idling.Count(client);
        assert idles <= starts;
        if starts == idles {
          client.Idle(true);
        }
        idling := true;
      } else {
        var was := state.idling.Remove(client);
        var starts := state.started.Count(client);
        assert 0 < was <= starts;
        var idles := state.idling.Count(client);
        assert idles < starts;
        if starts == was {
          client.Idle(false);
        }
        idling := false;
      }
    }

    method Register(path: string, ok: bool) returns (h: Option<Handle>)
      modifies this`registered, client
      ensures Here() == SharedClient.Register(old(Here()), path, ok)
    {
      h := client.RegisterContent(Prefix(index) + path, ok);
      if h.Some? {
        registered := registered + {h.value};
      }
    }

    /** False stands for the exception for a handle of somebody else. */
    method UnregisterContent(h: Handle) returns (known: bool)
      modifies this`registered, client
      ensures known <==> h in old(registered)
      ensures Here() == SharedClient.UnregisterOne(old(Here()), h)
    {
      if h !in registered {
        return false;
      }
      client.UnregisterContent(h);
      registered := registered - {h};
      return true;
    }

    /** Lists the content of this instance; handles that turn out to be stray are forgotten. */
    method Content() returns (result: set<Handle>)
      modifies this`registered
      ensures result == Listed(old(Here()))
      ensures Here() == SharedClient.Content(old(Here()))
    {
      result := {};
      var todo := client.content.Keys;
      while todo != {}
        invariant todo <= client.content.Keys
        invariant result == set h | h in registered && h.path in client.content.Keys - todo && client.content[h.path] == h.id
        decreases todo
      {
        var p :| p in todo;
        var h := Handle(client.content[p], p);
        if h in registered {
          result := result + {h};
        }
        todo := todo - {p};
      }
      if |result| < |registered| {
        var left := registered;
        while left != {}
          invariant left <= old(registered)
          invariant registered == set h | h in old(registered) && (h in left || StillRegistered(client.Value(), h))
          decreases left
        {
          var h :| h in left;
          if h.path !in client.content {
            registered := registered - {h};
          }
          left := left - {h};
        }
      }
    }

    method IsRegistered(h: Handle) returns (answer: bool)
      modifies this`registered
      ensures (Here(), answer) == SharedClient.IsRegistered(old(Here()), h)
    {
      var known := h.path in client.content;
      var owned := h in registered;
      if !known {
        registered := registered - {h};
      }
      return known && owned;
    }

    /** The destructor. It relies on the counts of all instances, which its assertions compare. */
    method Destroy()
      requires state.Apart() && R.ScopeOk(Here()) && Count(Here().rows.refs) > 0
      requires Count(Here().rows.started) - R.One(started) < Count(Here().rows.refs)
      requires Count(Here().rows.idling) - R.One(idling) < Count(Here().rows.refs)
      modifies this`started, this`idling, this`registered, client, state.refs, state.started, state.idling
      ensures Here().client == SharedClient.Stop(old(Here())).client
      ensures Here().rows == SharedClient.Stop(old(Here())).rows.(refs := Remove(old(Here()).rows.refs).0)
      ensures state.RestOf(client) == old(state.RestOf(client))
    {
      var _ := Stop();
      var _ := state.refs.Remove(client);
      var left := state.refs.Count(client);
      var starts := state.started.Count(client);
      var idles := state.idling.Count(client);
      assert starts <= left && idles <= left;
      if left == 0 {
        assert client !in state.refs.refs && client !in state.started.refs && client !in state.idling.refs;
      }
    }
  }
}
