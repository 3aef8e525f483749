/** What every call of a shared client changes: which flags, and which content, under which handle. */
module SharedClientEffects {
  import opened Wire
  import opened SharedClient
  import opened SharedClientRuns

  // ---- handles ----

  predicate ContentIds(c: Wrapped) {
    && (forall p :: p in c.content ==> c.content[p] < c.nextHandle)
    && (forall p, q :: p in c.content && q in c.content && p != q ==> c.content[p] != c.content[q])
  }

  ghost predicate KnownIds(instances: map<nat, Instance>, next: nat) {
    forall k, h :: k in instances && h in instances[k].registered ==> h.id < next
  }

  /** Instance k has this handle. */
  predicate Has(instances: map<nat, Instance>, k: nat, h: Handle) {
    k in instances && h in instances[k].registered
  }

  ghost predicate OwnIds(instances: map<nat, Instance>) {
    forall k, l, h, g :: Has(instances, k, h) && Has(instances, l, g) && h.id == g.id ==> k == l && h == g
  }

  /** Handles are given out once: each stands for one path, and belongs to at most one instance. */
  ghost predicate HandlesOk(w: World) {
    ContentIds(w.client) && KnownIds(w.instances, w.client.nextHandle) && OwnIds(w.instances)
  }

  /** A step that registers nothing. */
  ghost predicate Shrinks(w: World, t: World) {
    && t.client.nextHandle == w.client.nextHandle
    && (forall p :: p in t.client.content ==> p in w.client.content && t.client.content[p] == w.client.content[p])
    && (forall k, h :: k in t.instances && h in t.instances[k].registered ==> k in w.instances && h in w.instances[k].registered)
  }

  lemma ShrinksKeeps(w: World, t: World)
    requires HandlesOk(w) && Shrinks(w, t)
    ensures HandlesOk(t)
  {
    assert forall k, h :: Has(t.instances, k, h) ==> Has(w.instances, k, h);
  }

  predicate ScopeShrinks(s: Scope, t: Scope) {
    && t.client.nextHandle == s.client.nextHandle && t.me.registered <= s.me.registered
    && forall p :: p in t.client.content ==> p in s.client.content && t.client.content[p] == s.client.content[p]
  }

  lemma CallShrinks(s: Scope, input: Input)
    requires !input.New? && !input.Delete? && !input.LoseContent? && !input.Fail? && !input.CallRegister?
    ensures ScopeShrinks(s, Called(s, input))
  {
    match input {
      case CallStop(_) => StopShrinks(s);
      case _ =>
    }
  }

  lemma StopShrinks(s: Scope)
    ensures ScopeShrinks(s, Stop(s))
  {}

  lemma StoreShrinks(w: World, k: nat, t: Scope)
    requires k in w.instances && ScopeShrinks(Reach(w, k), t)
    ensures Shrinks(w, Store(w, k, t))
  {}

  lemma OtherShrinks(w: World, input: Input)
    requires Possible(w, input) && !input.CallRegister?
    ensures Shrinks(w, Step(w, input))
  {
    if input.Delete? {
      StopShrinks(Reach(w, input.k));
    } else if !input.New? && !input.LoseContent? && !input.Fail? {
      CallShrinks(Reach(w, input.k), input);
      StoreShrinks(w, input.k, Called(Reach(w, input.k), input));
    }
  }

  /** What a registration does to what the caller reaches. */
  predicate Adds(s: Scope, t: Scope, h: Handle) {
    && h.id == s.client.nextHandle && h.path !in s.client.content
    && t.client == s.client.(content := s.client.content[h.path := h.id], nextHandle := s.client.nextHandle + 1)
    && t == s.(client := t.client, me := s.me.(registered := s.me.registered + {h}))
  }

  lemma RegisterAdds(s: Scope, path: string, ok: bool)
    ensures var full := Digits(s.me.index) + "/" + path;
            if ok && full !in s.client.content then Adds(s, Register(s, path, ok), Handle(s.client.nextHandle, full))
            else Register(s, path, ok) == s
  {
    assert Prefix(s.me.index) + path == Digits(s.me.index) + "/" + path;
  }

  lemma AddKeepsOwn(instances: map<nat, Instance>, k: nat, me: Instance, h: Handle)
    requires KnownIds(instances, h.id) && OwnIds(instances) && k in instances
    requires me.registered == instances[k].registered + {h}
    ensures OwnIds(instances[k := me]) && KnownIds(instances[k := me], h.id + 1)
  {
    var after := instances[k := me];
    assert forall l, g :: Has(after, l, g) <==> Has(instances, l, g) || (l == k && g == h);
    assert forall l, g :: Has(instances, l, g) ==> g.id < h.id;
  }

  lemma AddKeepsHandles(w: World, k: nat, t: Scope, h: Handle)
    requires HandlesOk(w) && k in w.instances && Adds(Reach(w, k), t, h)
    ensures HandlesOk(Store(w, k, t))
  {
    AddKeepsOwn(w.instances, k, t.me, h);
  }

  lemma SameStore(w: World, k: nat)
    requires k in w.instances
    ensures Store(w, k, Reach(w, k)) == w
  {
    assert w.instances[k := w.instances[k]] == w.instances;
  }

  lemma RegisterKeepsHandles(w: World, k: nat, path: string, ok: bool)
    requires HandlesOk(w) && k in w.instances
    ensures HandlesOk(Step(w, CallRegister(k, path, ok)))
  {
    var s := Reach(w, k);
    var full := Digits(s.me.index) + "/" + path;
    RegisterAdds(s, path, ok);
    SameStore(w, k);
    if ok && full !in s.client.content { AddKeepsHandles(w, k, Register(s, path, ok), Handle(s.client.nextHandle, full)); }
  }

  lemma {:induction false} RunHandles(inputs: seq<Input>)
    ensures HandlesOk(Run(inputs))
  {
    if inputs != [] {
      var before, input := Run(inputs[..|inputs| - 1]), inputs[|inputs| - 1];
      RunHandles(inputs[..|inputs| - 1]);
      if Possible(before, input) {
        if input.CallRegister? {
          RegisterKeepsHandles(before, input.k, input.path, input.ok);
        } else {
          OtherShrinks(before, input);
          ShrinksKeeps(before, Step(before, input));
        }
      }
    }
  }

  // ---- registering and unregistering ----

  /** Everything but the content and the handles of one instance is as before. */
  predicate OnlyContent(w: World, t: World, k: nat)
    requires k in w.instances
  {
    && t.instances.Keys == w.instances.Keys
    && (forall l :: l in w.instances && l != k ==> t.instances[l] == w.instances[l])
    && t.instances[k] == w.instances[k].(registered := t.instances[k].registered)
    && t.rows == w.rows && t.client.started == w.client.started && t.client.commands == w.client.commands && t.sound == w.sound
  }

  /** In every run: registering content adds exactly the path under the instance's own prefix to the
      wrapped client, under an id that no other path has, and gives the instance, and no other, a handle
      that its list then shows, if the path is free and the wrapped client accepts the content; otherwise
      nothing changes. */
  lemma RegistersExactly(inputs: seq<Input>, k: nat, path: string, ok: bool) returns (h: Handle)
    requires k in Run(inputs).instances
    ensures var w, t := Run(inputs), Step(Run(inputs), CallRegister(k, path, ok));
            var full := Digits(w.instances[k].index) + "/" + path;
            if ok && full !in w.client.content then
              && h.path == full && OnlyContent(w, t, k)
              && t.client.content == w.client.content[full := h.id]
              && (forall p :: p in t.client.content && p != full ==> t.client.content[p] != h.id)
              && t.instances[k].registered == w.instances[k].registered + {h}
              && h in Listed(Reach(t, k))
              && (forall l :: l in t.instances && l != k ==> h !in t.instances[l].registered)
              && (forall l :: l in w.instances ==> h !in w.instances[l].registered)
            else t == w
  {
    RunHandles(inputs);
    var w := Run(inputs);
    var full := Digits(w.instances[k].index) + "/" + path;
    h := Handle(w.client.nextHandle, full);
    RegisterAdds(Reach(w, k), path, ok);
    SameStore(w, k);
    if ok && full !in w.client.content { AddsExactly(w, k, Register(Reach(w, k), path, ok), h); }
  }

  lemma AddsExactly(w: World, k: nat, s: Scope, h: Handle)
    requires HandlesOk(w) && k in w.instances && Adds(Reach(w, k), s, h)
    ensures var t := Store(w, k, s);
            && OnlyContent(w, t, k)
            && t.client.content == w.client.content[h.path := h.id]
            && (forall p :: p in t.client.content && p != h.path ==> t.client.content[p] != h.id)
            && t.instances[k].registered == w.instances[k].registered + {h}
            && h in Listed(Reach(t, k))
            && (forall l :: l in t.instances && l != k ==> h !in t.instances[l].registered)
            && (forall l :: l in w.instances ==> h !in w.instances[l].registered)
  {}

  /** In every run: unregistering a handle of the instance's own frees exactly its path and forgets the
      handle; a handle of somebody else changes nothing. */
  lemma UnregistersExactly(inputs: seq<Input>, k: nat, h: Handle)
    requires k in Run(inputs).instances
    ensures var w, t := Run(inputs), Step(Run(inputs), CallUnregister(k, h));
            if h in w.instances[k].registered then
              && OnlyContent(w, t, k) && t.client.content == w.client.content - {h.path}
              && t.instances[k].registered == w.instances[k].registered - {h}
            else t == w
  {
    SameStore(Run(inputs), k);
  }

  /** The handles of an instance whose path is still registered with the wrapped client. */
  function Current(w: World, k: nat): set<Handle>
    requires k in w.instances
  {
    set h | h in w.instances[k].registered && h.path in w.client.content
  }

  lemma AllListed(s: Scope)
    requires |Listed(s)| >= |s.me.registered|
    ensures Listed(s) == s.me.registered
  {
    SubsetCount(Listed(s), s.me.registered);
  }

  /** In every run: listing the content makes the instance forget exactly the handles whose path is not
      registered any more. */
  lemma ContentExactly(inputs: seq<Input>, k: nat)
    requires k in Run(inputs).instances
    ensures var w, t := Run(inputs), Step(Run(inputs), CallContent(k));
            OnlyContent(w, t, k) && t.client == w.client && t.instances[k].registered == Current(w, k)
  {
    var w := Run(inputs);
    if |Listed(Reach(w, k))| >= |w.instances[k].registered| {
      AllListed(Reach(w, k));
      assert Current(w, k) == w.instances[k].registered;
      SameStore(w, k);
    }
  }

  /** In every run: asking for one handle makes the instance forget this one if its path is not registered
      any more; the answer is yes if it is, and the handle belongs to the instance. */
  lemma IsRegisteredExactly(inputs: seq<Input>, k: nat, h: Handle)
    requires k in Run(inputs).instances
    ensures var w, t := Run(inputs), Step(Run(inputs), CallIsRegistered(k, h));
            && OnlyContent(w, t, k) && t.client == w.client
            && t.instances[k].registered == w.instances[k].registered - (if h.path in w.client.content then {} else {h})
            && (IsRegistered(Reach(w, k), h).1 <==> h in Current(w, k))
  {
    SameStore(Run(inputs), k);
  }

  // ---- flags ----

  /** Nobody but instance k has changed. */
  predicate OthersSame(w: World, t: World, k: nat) {
    && t.instances.Keys - {k} == w.instances.Keys - {k}
    && forall l :: l in w.instances && l in t.instances && l != k ==> t.instances[l] == w.instances[l]
  }

  /** In every run: which flags a call leaves behind. */
  lemma FlagsExactly(inputs: seq<Input>, input: Input)
    requires Possible(Run(inputs), input) && !input.LoseContent? && !input.Fail?
    ensures var w, t := Run(inputs), Step(Run(inputs), input);
            && OthersSame(w, t, input.k)
            && (input.Delete? <==> input.k !in t.instances)
            && (input.New? ==> !t.instances[input.k].started && !t.instances[input.k].idling && t.instances[input.k].registered == {})
            && (input.CallStart? ==> t.instances[input.k].started && !t.instances[input.k].idling && t.client.started)
            && (input.CallStop? ==> !t.instances[input.k].started && !t.instances[input.k].idling && t.instances[input.k].registered == {})
            && (input.CallIdle? ==>
                  && t.instances[input.k].started == w.instances[input.k].started
                  && t.instances[input.k].idling ==
                     if w.instances[input.k].started && w.client.started then input.state else w.instances[input.k].idling)
  {}
}
