/** What every call of every instance of a shared client keeps. */
module SharedClientRuns {
  import opened Wire
  import opened SharedClient
  import Separators = Paths

  // ---- paths ----

  lemma {:induction false} DigitsHaveNoSlash(n: nat)
    ensures '/' !in Digits(n)
  {
    if n >= 10 { DigitsHaveNoSlash(n / 10); }
  }

  function Value(digits: string): int {
    if digits == [] then 0
    else 10 * Value(digits[..|digits| - 1]) + (digits[|digits| - 1] as int - '0' as int)
  }

  lemma {:induction false} DigitsValue(n: nat)
    ensures Value(Digits(n)) == n
  {
    if n < 10 {
      assert Digits(n)[..0] == [];
    } else {
      DigitsValue(n / 10);
      var d := Digits(n / 10);
      assert (d + [Digit(n % 10)])[..|d|] == d;
    }
  }

  /** Different indices never produce the same full path, and a full path determines the user's path. */
  lemma PrefixFree(i: nat, j: nat, a: string, b: string)
    requires Prefix(i) + a == Prefix(j) + b
    ensures i == j && a == b
  {
    DigitsHaveNoSlash(i);
    DigitsHaveNoSlash(j);
    Separators.SplitsOnce(Digits(i), a, Digits(j), b);
    DigitsValue(i);
    DigitsValue(j);
  }

  predicate Under(index: nat, path: string) {
    Prefix(index) <= path
  }

  lemma UnderOne(i: nat, j: nat, path: string)
    requires Under(i, path) && Under(j, path)
    ensures i == j
  {
    assert path == Prefix(i) + path[|Prefix(i)|..] && path == Prefix(j) + path[|Prefix(j)|..];
    PrefixFree(i, j, path[|Prefix(i)|..], path[|Prefix(j)|..]);
  }

  // ---- the invariant ----

  function StartedOnes(instances: map<nat, Instance>): set<nat> {
    set k | k in instances && instances[k].started
  }

  function IdlingOnes(instances: map<nat, Instance>): set<nat> {
    set k | k in instances && instances[k].idling
  }

  /** The counters count the flags. */
  predicate Counted(w: World) {
    && Proper(w.rows.refs) && Proper(w.rows.started) && Proper(w.rows.idling)
    && Count(w.rows.refs) == |w.instances.Keys|
    && Count(w.rows.started) == |StartedOnes(w.instances)|
    && Count(w.rows.idling) == |IdlingOnes(w.instances)|
    && (forall k :: k in w.instances && w.instances[k].idling ==> w.instances[k].started)
  }

  /** Live instances have indices of their own. */
  predicate Numbered(w: World) {
    && (forall k :: k in w.instances ==> w.rows.refs.Some? && w.instances[k].index < w.rows.refs.value.nextIndex)
    && (forall k, l :: k in w.instances && l in w.instances && k != l ==> w.instances[k].index != w.instances[l].index)
  }

  /** Everything registered with the wrapped client belongs to a live instance that knows of it. */
  ghost predicate Owned(w: World) {
    && (forall k, h :: k in w.instances && h in w.instances[k].registered ==> Under(w.instances[k].index, h.path))
    && (forall p :: p in w.client.content ==> exists k, h :: k in w.instances && h in w.instances[k].registered && h.path == p)
  }

  function LastCommand(w: World): Option<Command> {
    var cs := w.client.commands;
    if cs == [] then None else Some(cs[|cs| - 1])
  }

  /** If the wrapped client was last told to idle, all started instances are idling. */
  predicate IdleSafe(w: World) {
    LastCommand(w) == Some(IdleIt(true)) ==> StartedOnes(w.instances) == IdlingOnes(w.instances)
  }

  ghost predicate Inv(w: World) {
    Counted(w) && Numbered(w) && Owned(w) && IdleSafe(w) && w.sound
  }

  // ---- one call, seen from the instance ----

  function One(flag: bool): int { if flag then 1 else 0 }

  /** What a caller finds: the counters cover its own flags and those of the others. */
  predicate ScopeOk(s: Scope) {
    && Proper(s.rows.refs) && Proper(s.rows.started) && Proper(s.rows.idling) && s.sound
    && (s.me.idling ==> s.me.started)
    && Count(s.rows.started) >= One(s.me.started)
    && Count(s.rows.idling) >= One(s.me.idling)
    && Count(s.rows.idling) - One(s.me.idling) <= Count(s.rows.started) - One(s.me.started)
  }

  /** The counters move with the caller's flags, and no assertion fails. */
  predicate Tracks(s: Scope, t: Scope) {
    && Proper(t.rows.started) && Proper(t.rows.idling) && t.sound
    && t.rows.refs == s.rows.refs && t.me.index == s.me.index
    && (t.me.idling ==> t.me.started)
    && Count(t.rows.started) - One(t.me.started) == Count(s.rows.started) - One(s.me.started)
    && Count(t.rows.idling) - One(t.me.idling) == Count(s.rows.idling) - One(s.me.idling)
  }

  /** A call gives at most one command. It may leave a pending idle command only if it leaves the
      caller's two flags alike, and gives one only if that makes the two counts equal. */
  predicate Commands(s: Scope, t: Scope) {
    || (t.client.commands == s.client.commands &&
          (s.me.started == s.me.idling && Count(s.rows.started) == Count(s.rows.idling) ==> t.me.started == t.me.idling))
    || (|t.client.commands| == |s.client.commands| + 1 && t.client.commands[..|s.client.commands|] == s.client.commands &&
          (t.client.commands[|s.client.commands|] == IdleIt(true) ==> Count(t.rows.started) == Count(t.rows.idling)))
  }

  /** Content that the call leaves registered is either not the caller's, or known to the caller. */
  predicate Keeps(s: Scope, t: Scope) {
    && (forall h :: h in t.me.registered ==> h in s.me.registered || Under(s.me.index, h.path))
    && (forall p :: p in t.client.content ==> p in Paths(t.me.registered) || (p in s.client.content && p !in Paths(s.me.registered)))
  }

  predicate GoodCall(s: Scope, t: Scope) {
    Tracks(s, t) && Commands(s, t) && Keeps(s, t)
  }

  lemma StartIsGood(s: Scope)
    requires ScopeOk(s)
    ensures GoodCall(s, Start(s))
  {}

  lemma StopIsGood(s: Scope)
    requires ScopeOk(s)
    ensures GoodCall(s, Stop(s))
  {}

  lemma IdleIsGood(s: Scope, state: bool)
    requires ScopeOk(s)
    ensures GoodCall(s, Idle(s, state))
  {}

  lemma RegisterIsGood(s: Scope, path: string, ok: bool)
    requires ScopeOk(s)
    ensures GoodCall(s, Register(s, path, ok))
  {}

  lemma UnregisterIsGood(s: Scope, h: Handle)
    requires ScopeOk(s)
    ensures GoodCall(s, UnregisterOne(s, h))
  {}

  /** Forgetting handles whose path is not registered any more. */
  lemma ForgetIsGood(s: Scope, kept: set<Handle>)
    requires ScopeOk(s)
    requires kept <= s.me.registered && forall h :: h in s.me.registered && StillRegistered(s.client, h) ==> h in kept
    ensures GoodCall(s, s.(me := s.me.(registered := kept)))
  {}

  // ---- all instances ----

  lemma FlagsStored(instances: map<nat, Instance>, k: nat, me: Instance)
    requires k in instances
    ensures var after := instances[k := me];
            && |StartedOnes(after)| - One(me.started) == |StartedOnes(instances)| - One(instances[k].started)
            && |IdlingOnes(after)| - One(me.idling) == |IdlingOnes(instances)| - One(instances[k].idling)
            && after.Keys == instances.Keys
  {
    var after := instances[k := me];
    assert StartedOnes(after) - {k} == StartedOnes(instances) - {k};
    assert IdlingOnes(after) - {k} == IdlingOnes(instances) - {k};
    Without(StartedOnes(after), k);
    Without(StartedOnes(instances), k);
    Without(IdlingOnes(after), k);
    Without(IdlingOnes(instances), k);
  }

  lemma Without(s: set<nat>, k: nat)
    ensures |s - {k}| == |s| - One(k in s)
  {}

  lemma Included(w: World)
    requires Counted(w)
    ensures IdlingOnes(w.instances) <= StartedOnes(w.instances)
  {}

  lemma {:induction false} SubsetCount<T>(a: set<T>, b: set<T>)
    requires a <= b
    ensures |a| <= |b| && (|a| == |b| ==> a == b)
  {
    if a != b {
      var x :| x in b && x !in a;
      SubsetCount(a, b - {x});
    }
  }

  lemma ReachOk(w: World, k: nat)
    requires Inv(w) && k in w.instances
    ensures ScopeOk(Reach(w, k))
  {
    var s, i := StartedOnes(w.instances), IdlingOnes(w.instances);
    Included(w);
    SubsetCount(i - {k}, s - {k});
    Without(s, k);
    Without(i, k);
  }

  /** What the destructor's assertions compare: the others' flags are no more than the others. */
  lemma ReachForDestroy(w: World, k: nat)
    requires Inv(w) && k in w.instances
    ensures var s := Reach(w, k);
            && ScopeOk(s) && 0 < Count(s.rows.refs)
            && Count(s.rows.started) - One(s.me.started) < Count(s.rows.refs)
            && Count(s.rows.idling) - One(s.me.idling) < Count(s.rows.refs)
  {
    ReachOk(w, k);
    var keys, s, i := w.instances.Keys, StartedOnes(w.instances), IdlingOnes(w.instances);
    SubsetCount(s - {k}, keys - {k});
    SubsetCount(i - {k}, keys - {k});
    Without(keys, k);
    Without(s, k);
    Without(i, k);
  }

  lemma StoreCounted(w: World, k: nat, t: Scope)
    requires Counted(w) && k in w.instances && Tracks(Reach(w, k), t)
    ensures Counted(Store(w, k, t))
  {
    FlagsStored(w.instances, k, t.me);
  }

  lemma StoreIdleSafe(w: World, k: nat, t: Scope)
    requires Counted(w) && IdleSafe(w) && k in w.instances && Tracks(Reach(w, k), t) && Commands(Reach(w, k), t)
    ensures IdleSafe(Store(w, k, t))
  {
    var u := Store(w, k, t);
    StoreCounted(w, k, t);
    Included(u);
    SubsetCount(IdlingOnes(u.instances), StartedOnes(u.instances));
    if LastCommand(u) == Some(IdleIt(true)) && t.client.commands == w.client.commands {
      assert StartedOnes(w.instances) == IdlingOnes(w.instances);
      assert k in StartedOnes(w.instances) <==> k in IdlingOnes(w.instances);
      SubsetCount(IdlingOnes(w.instances), StartedOnes(w.instances));
      forall l ensures l in StartedOnes(u.instances) <==> l in IdlingOnes(u.instances) {
        assert l in StartedOnes(w.instances) <==> l in IdlingOnes(w.instances);
      }
    }
  }

  lemma StoreOwned(w: World, k: nat, t: Scope)
    requires Owned(w) && k in w.instances && Keeps(Reach(w, k), t) && t.me.index == w.instances[k].index
    ensures Owned(Store(w, k, t))
  {
    var u := Store(w, k, t);
    forall p | p in u.client.content ensures exists l, h :: l in u.instances && h in u.instances[l].registered && h.path == p {
      if p in Paths(t.me.registered) {
        var h :| h in t.me.registered && h.path == p;
        assert h in u.instances[k].registered;
      } else {
        var l, h :| l in w.instances && h in w.instances[l].registered && h.path == p;
        assert l != k && h in u.instances[l].registered;
      }
    }
  }

  lemma StoreKeeps(w: World, k: nat, t: Scope)
    requires Inv(w) && k in w.instances && GoodCall(Reach(w, k), t)
    ensures Inv(Store(w, k, t))
  {
    StoreCounted(w, k, t);
    StoreIdleSafe(w, k, t);
    StoreOwned(w, k, t);
  }

  lemma CreateCounted(w: World, k: nat)
    requires Counted(w) && k !in w.instances
    ensures Counted(Create(w, k))
    ensures StartedOnes(Create(w, k).instances) == StartedOnes(w.instances)
    ensures IdlingOnes(Create(w, k).instances) == IdlingOnes(w.instances)
  {
    var u := Create(w, k);
    assert u.instances.Keys == w.instances.Keys + {k};
    assert StartedOnes(u.instances) == StartedOnes(w.instances);
    assert IdlingOnes(u.instances) == IdlingOnes(w.instances);
  }

  /** The next index is not in use: either nobody is left, or all live indices are smaller. */
  lemma CreateNumbered(w: World, k: nat)
    requires Counted(w) && Numbered(w) && k !in w.instances
    ensures Numbered(Create(w, k))
  {
    if w.rows.refs.None? { assert w.instances.Keys == {}; }
  }

  lemma CreateOwned(w: World, k: nat)
    requires Owned(w) && k !in w.instances
    ensures Owned(Create(w, k))
  {
    var u := Create(w, k);
    forall p | p in u.client.content ensures exists l, h :: l in u.instances && h in u.instances[l].registered && h.path == p {
      var l, h :| l in w.instances && h in w.instances[l].registered && h.path == p;
      assert h in u.instances[l].registered;
    }
  }

  lemma CreateKeeps(w: World, k: nat)
    requires Inv(w) && k !in w.instances
    ensures Inv(Create(w, k))
  {
    CreateCounted(w, k);
    CreateNumbered(w, k);
    CreateOwned(w, k);
  }

  /** After its destructor has stopped it, an instance holds no flag and no content. */
  lemma StoppedHoldsNothing(s: Scope)
    ensures var t := Stop(s); !t.me.started && !t.me.idling && t.me.registered == {} && t.me.index == s.me.index && t.rows.refs == s.rows.refs
  {}

  /** What the destructor leaves behind is what stopping leaves, without the instance. */
  lemma DestroyIs(w: World, k: nat)
    requires k in w.instances
    ensures var s, u := Stop(Reach(w, k)), Destroy(w, k);
            && u.instances == Store(w, k, s).instances - {k} && u.client == s.client
            && u.rows == s.rows.(refs := Remove(s.rows.refs).0)
            && (u.sound <==> (
                  && s.sound && s.rows.refs.Some?
                  && Count(u.rows.started) <= Count(u.rows.refs) && Count(u.rows.idling) <= Count(u.rows.refs)
                  && (Count(u.rows.refs) == 0 ==> u.rows.started.None? && u.rows.idling.None? && u.rows.refs.None?)))
  {}

  lemma StoppedKeeps(w: World, k: nat)
    requires Inv(w) && k in w.instances
    ensures Inv(Store(w, k, Stop(Reach(w, k))))
  {
    ReachOk(w, k);
    StopIsGood(Reach(w, k));
    StoreKeeps(w, k, Stop(Reach(w, k)));
  }

  lemma DestroyKeeps(w: World, k: nat)
    requires Inv(w) && k in w.instances
    ensures Inv(Destroy(w, k))
  {
    StoppedKeeps(w, k);
    StoppedHoldsNothing(Reach(w, k));
    DestroyIs(w, k);
    RemoveKeeps(Store(w, k, Stop(Reach(w, k))), Destroy(w, k), k);
  }

  lemma RemoveCounted(v: World, u: World, k: nat)
    requires Counted(v) && k in v.instances && !v.instances[k].started && !v.instances[k].idling
    requires u.instances == v.instances - {k} && u.rows == v.rows.(refs := Remove(v.rows.refs).0)
    ensures Counted(u)
    ensures Count(u.rows.started) <= Count(u.rows.refs) && Count(u.rows.idling) <= Count(u.rows.refs)
    ensures StartedOnes(u.instances) == StartedOnes(v.instances) && IdlingOnes(u.instances) == IdlingOnes(v.instances)
  {
    assert u.instances.Keys == v.instances.Keys - {k};
    Without(v.instances.Keys, k);
    assert StartedOnes(u.instances) == StartedOnes(v.instances);
    assert IdlingOnes(u.instances) == IdlingOnes(v.instances);
    SubsetCount(StartedOnes(u.instances), u.instances.Keys);
    SubsetCount(IdlingOnes(u.instances), u.instances.Keys);
  }

  lemma RemoveOwned(v: World, u: World, k: nat)
    requires Owned(v) && k in v.instances && v.instances[k].registered == {}
    requires u.instances == v.instances - {k} && u.client == v.client
    ensures Owned(u)
  {
    forall p | p in u.client.content ensures exists l, h :: l in u.instances && h in u.instances[l].registered && h.path == p {
      var l, h :| l in v.instances && h in v.instances[l].registered && h.path == p;
      assert l != k && h in u.instances[l].registered;
    }
  }

  lemma RemoveKeeps(v: World, u: World, k: nat)
    requires Inv(v) && k in v.instances
    requires !v.instances[k].started && !v.instances[k].idling && v.instances[k].registered == {}
    requires u.instances == v.instances - {k} && u.rows == v.rows.(refs := Remove(v.rows.refs).0) && u.client == v.client
    requires u.sound <==> (
      && v.sound && v.rows.refs.Some?
      && Count(u.rows.started) <= Count(u.rows.refs) && Count(u.rows.idling) <= Count(u.rows.refs)
      && (Count(u.rows.refs) == 0 ==> u.rows.started.None? && u.rows.idling.None? && u.rows.refs.None?))
    ensures Inv(u)
  {
    RemoveCounted(v, u, k);
    RemoveOwned(v, u, k);
    forall l | l in u.instances ensures u.rows.refs.Some? && u.instances[l].index < u.rows.refs.value.nextIndex {
      assert l in v.instances;
      assert l in u.instances.Keys;
      assert |u.instances.Keys| > 0;
    }
  }

  lemma LostContentKeeps(w: World, client: Wrapped)
    requires Inv(w) && client.content == map[] && client.commands == w.client.commands
    ensures Inv(w.(client := client))
  {}

  lemma StepKeeps(w: World, input: Input)
    requires Inv(w) && Possible(w, input)
    ensures Inv(Step(w, input))
  {
    match input {
      case New(k) => CreateKeeps(w, k);
      case Delete(k) => DestroyKeeps(w, k);
      case LoseContent => LostContentKeeps(w, w.client.(content := map[]));
      case Fail => LostContentKeeps(w, w.client.(content := map[], started := false));
      case _ => CallKeeps(w, input);
    }
  }

  /** The scope after a call that neither creates nor deletes. */
  function Called(s: Scope, input: Input): Scope
    requires !input.New? && !input.Delete? && !input.LoseContent? && !input.Fail?
  {
    match input
    case CallStart(_) => Start(s)
    case CallStop(_) => Stop(s)
    case CallIdle(_, state) => Idle(s, state)
    case CallRegister(_, path, ok) => Register(s, path, ok)
    case CallUnregister(_, h) => UnregisterOne(s, h)
    case CallContent(_) => Content(s)
    case CallIsRegistered(_, h) => IsRegistered(s, h).0
  }

  lemma CalledIsGood(s: Scope, input: Input)
    requires ScopeOk(s) && !input.New? && !input.Delete? && !input.LoseContent? && !input.Fail?
    ensures GoodCall(s, Called(s, input))
  {
    match input {
      case CallStart(_) => StartIsGood(s);
      case CallStop(_) => StopIsGood(s);
      case CallIdle(_, state) => IdleIsGood(s, state);
      case CallRegister(_, path, ok) => RegisterIsGood(s, path, ok);
      case CallUnregister(_, h) => UnregisterIsGood(s, h);
      case CallContent(_) =>
        ForgetIsGood(s, s.me.registered);
        ForgetIsGood(s, set h | h in s.me.registered && StillRegistered(s.client, h));
      case CallIsRegistered(_, h) =>
        ForgetIsGood(s, s.me.registered);
        if !StillRegistered(s.client, h) { ForgetIsGood(s, s.me.registered - {h}); }
    }
  }

  lemma CallKeeps(w: World, input: Input)
    requires Inv(w) && Possible(w, input) && !input.New? && !input.Delete? && !input.LoseContent? && !input.Fail?
    ensures Inv(Step(w, input))
  {
    ReachOk(w, input.k);
    CalledIsGood(Reach(w, input.k), input);
    StoreKeeps(w, input.k, Called(Reach(w, input.k), input));
  }

  lemma EmptyInv()
    ensures Inv(Empty)
  {}

  /** The invariant holds after every sequence of calls on any number of instances. */
  lemma {:induction false} RunKeeps(inputs: seq<Input>)
    ensures Inv(Run(inputs))
  {
    if inputs == [] {
      EmptyInv();
    } else {
      var before, input := Run(inputs[..|inputs| - 1]), inputs[|inputs| - 1];
      RunKeeps(inputs[..|inputs| - 1]);
      if Possible(before, input) { StepKeeps(before, input); }
    }
  }
}
