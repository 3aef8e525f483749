/** The guarantees of shared clients, for every sequence of calls on any number of instances. */
module SharedClientTheorems {
  import opened Wire
  import opened SharedClient
  import opened SharedClientRuns

  /** In every run the counters equal the number of instances with that flag, idling implies started,
      and none of the assertions on the counters has failed. */
  lemma CountersAreExact(inputs: seq<Input>)
    ensures var w := Run(inputs);
            && w.sound
            && Count(w.rows.refs) == |w.instances.Keys|
            && Count(w.rows.started) == |StartedOnes(w.instances)|
            && Count(w.rows.idling) == |IdlingOnes(w.instances)|
            && IdlingOnes(w.instances) <= StartedOnes(w.instances)
  {
    RunKeeps(inputs);
    Included(Run(inputs));
  }

  /** The command that a step gave to the wrapped client. */
  function Given(before: seq<Command>, after: seq<Command>): Option<Command> {
    if |before| < |after| then Some(after[|after| - 1]) else None
  }

  // ---- stop ----

  lemma CallStops(s: Scope, input: Input)
    requires ScopeOk(s) && !input.New? && !input.Delete? && !input.LoseContent? && !input.Fail?
    ensures Given(s.client.commands, Called(s, input).client.commands) == Some(StopIt) <==>
            Count(s.rows.started) == 1 && Count(Called(s, input).rows.started) == 0
  {}

  /** The wrapped client is stopped exactly when the number of started instances goes from one to zero. */
  lemma StoppedExactlyWithTheLast(inputs: seq<Input>, input: Input)
    requires Possible(Run(inputs), input)
    ensures var w := Run(inputs);
            var t := Step(w, input);
            Given(w.client.commands, t.client.commands) == Some(StopIt) <==>
            |StartedOnes(w.instances)| == 1 && |StartedOnes(t.instances)| == 0
  {
    var w := Run(inputs);
    RunKeeps(inputs);
    match input {
      case New(k) => CreateKeepsFlags(w, k);
      case LoseContent =>
      case Fail =>
      case Delete(k) => DeletedStops(w, k);
      case _ => CalledStops(w, input);
    }
  }

  lemma CalledStops(w: World, input: Input)
    requires Inv(w) && Possible(w, input) && !input.New? && !input.Delete? && !input.LoseContent? && !input.Fail?
    ensures var t := Store(w, input.k, Called(Reach(w, input.k), input));
            Given(w.client.commands, t.client.commands) == Some(StopIt) <==>
            |StartedOnes(w.instances)| == 1 && |StartedOnes(t.instances)| == 0
  {
    ReachOk(w, input.k);
    CallStops(Reach(w, input.k), input);
    CalledIsGood(Reach(w, input.k), input);
    StoreCounted(w, input.k, Called(Reach(w, input.k), input));
  }

  lemma DeletedStops(w: World, k: nat)
    requires Inv(w) && k in w.instances
    ensures var t := Destroy(w, k);
            Given(w.client.commands, t.client.commands) == Some(StopIt) <==>
            |StartedOnes(w.instances)| == 1 && |StartedOnes(t.instances)| == 0
  {
    CalledStops(w, CallStop(k));
    StoppedHoldsNothing(Reach(w, k));
    var v := Store(w, k, Stop(Reach(w, k)));
    assert StartedOnes(Destroy(w, k).instances) == StartedOnes(v.instances);
  }

  // ---- idle ----

  lemma CallIdles(s: Scope, input: Input)
    requires ScopeOk(s) && !input.New? && !input.Delete? && !input.LoseContent? && !input.Fail?
    ensures var t := Called(s, input);
            Given(s.client.commands, t.client.commands) == Some(IdleIt(true)) <==>
            !s.me.idling && t.me.idling && Count(t.rows.idling) == Count(t.rows.started)
  {}

  /** The wrapped client is told to idle exactly by the call that makes the last started instance idle. */
  lemma IdledExactlyWithTheLast(inputs: seq<Input>, input: Input)
    requires Possible(Run(inputs), input)
    ensures var w := Run(inputs);
            var t := Step(w, input);
            Given(w.client.commands, t.client.commands) == Some(IdleIt(true)) <==>
            IdlingOnes(w.instances) < IdlingOnes(t.instances) && IdlingOnes(t.instances) == StartedOnes(t.instances)
  {
    RunKeeps(inputs);
    var w := Run(inputs);
    match input {
      case New(k) => assert IdlingOnes(Step(w, input).instances) == IdlingOnes(w.instances);
      case LoseContent =>
      case Fail =>
      case Delete(k) => DeletedIdles(w, k);
      case _ => CalledIdles(w, input);
    }
  }

  lemma CalledIdles(w: World, input: Input)
    requires Inv(w) && Possible(w, input) && !input.New? && !input.Delete? && !input.LoseContent? && !input.Fail?
    ensures var t := Store(w, input.k, Called(Reach(w, input.k), input));
            Given(w.client.commands, t.client.commands) == Some(IdleIt(true)) <==>
            IdlingOnes(w.instances) < IdlingOnes(t.instances) && IdlingOnes(t.instances) == StartedOnes(t.instances)
  {
    var s := Called(Reach(w, input.k), input);
    var t := Store(w, input.k, s);
    ReachOk(w, input.k);
    CallIdles(Reach(w, input.k), input);
    CalledIsGood(Reach(w, input.k), input);
    StoreCounted(w, input.k, s);
    Included(t);
    SubsetCount(IdlingOnes(t.instances), StartedOnes(t.instances));
    StoredIdlers(w, input.k, s);
  }

  lemma DeletedIdles(w: World, k: nat)
    requires Inv(w) && k in w.instances
    ensures Given(w.client.commands, Destroy(w, k).client.commands) != Some(IdleIt(true))
    ensures IdlingOnes(Destroy(w, k).instances) <= IdlingOnes(w.instances)
  {}

  lemma StoredIdlers(w: World, k: nat, s: Scope)
    requires k in w.instances
    ensures IdlingOnes(w.instances) < IdlingOnes(Store(w, k, s).instances) <==> !w.instances[k].idling && s.me.idling
  {
    var before, after := IdlingOnes(w.instances), IdlingOnes(Store(w, k, s).instances);
    assert k in after <==> s.me.idling;
    assert forall l :: l != k ==> (l in after <==> l in before);
  }

  /** Whenever the last command given to the wrapped client was to idle, every started instance is idling. */
  lemma IdleMeansAllIdle(inputs: seq<Input>)
    ensures var w := Run(inputs);
            LastCommand(w) == Some(IdleIt(true)) ==> forall k :: k in w.instances && w.instances[k].started ==> w.instances[k].idling
  {
    RunKeeps(inputs);
    var w := Run(inputs);
    if LastCommand(w) == Some(IdleIt(true)) {
      forall k | k in w.instances && w.instances[k].started ensures w.instances[k].idling {
        assert k in StartedOnes(w.instances);
      }
    }
  }

  lemma OneMore(inputs: seq<Input>, input: Input)
    requires Possible(Run(inputs), input)
    ensures Run(inputs + [input]) == Step(Run(inputs), input)
  {}

  /** The converse does not hold: when the only busy instance stops, all started instances are idling,
      but the wrapped client is not told. */
  lemma StoppingTheBusyOneLeavesClientBusy() returns (inputs: seq<Input>)
    ensures var w := Run(inputs);
            && StartedOnes(w.instances) == IdlingOnes(w.instances) == {0}
            && LastCommand(w) == Some(StartIt)
  {
    var moves := [New(0), CallStart(0), New(1), CallStart(1), CallIdle(0, true), CallStop(1)];
    inputs := moves;
    assert moves[..1] == [New(0)] && [New(0)][..0] == [];
    assert moves[..2][..1] == moves[..1] && moves[..3][..2] == moves[..2] && moves[..4][..3] == moves[..3];
    assert moves[..5][..4] == moves[..4] && moves[..6] == moves && moves[..|moves| - 1] == moves[..5];
    var w1, w2, w3, w4, w5 := Run(moves[..1]), Run(moves[..2]), Run(moves[..3]), Run(moves[..4]), Run(moves[..5]);
    assert w1.instances == map[0 := Instance(0, false, false, {})];
    assert w2.instances == map[0 := Instance(0, true, false, {})];
    assert w3.instances == map[0 := Instance(0, true, false, {}), 1 := Instance(1, false, false, {})];
    assert w4.instances == map[0 := Instance(0, true, false, {}), 1 := Instance(1, true, false, {})];
    assert w5.instances == map[0 := Instance(0, true, true, {}), 1 := Instance(1, true, false, {})];
    var w := Run(moves);
    assert w.instances == map[0 := Instance(0, true, true, {}), 1 := Instance(1, false, false, {})];
    assert StartedOnes(w.instances) == {0} && IdlingOnes(w.instances) == {0};
  }

  /** All started instances are idling, and there are some. */
  predicate AllIdle(w: World) {
    StartedOnes(w.instances) != {} && StartedOnes(w.instances) == IdlingOnes(w.instances)
  }

  /** If all started instances are idling, this is what the wrapped client was told last. */
  predicate Told(w: World) {
    AllIdle(w) ==> LastCommand(w) == Some(IdleIt(true))
  }

  /** A busy instance leaves, and all the others that are started are idling. */
  predicate BusyOneLeaves(w: World, input: Input) {
    && (input.CallStop? || input.Delete?) && input.k in w.instances
    && w.instances[input.k].started && !w.instances[input.k].idling
    && StartedOnes(w.instances) != {input.k}
    && StartedOnes(w.instances) - {input.k} == IdlingOnes(w.instances)
  }

  // The same, as the counters tell it to one caller.

  predicate ScopeTold(s: Scope) {
    Count(s.rows.started) > 0 && Count(s.rows.started) == Count(s.rows.idling) ==>
      s.client.commands != [] && s.client.commands[|s.client.commands| - 1] == IdleIt(true)
  }

  predicate BusyScope(s: Scope) {
    && s.me.started && !s.me.idling
    && Count(s.rows.started) > 1 && Count(s.rows.started) - 1 == Count(s.rows.idling)
  }

  predicate ScopeSafe(s: Scope) {
    s.client.commands != [] && s.client.commands[|s.client.commands| - 1] == IdleIt(true) ==>
      Count(s.rows.started) == Count(s.rows.idling)
  }

  lemma StopTold(s: Scope)
    requires ScopeOk(s) && ScopeTold(s) && ScopeSafe(s)
    ensures ScopeTold(Stop(s)) <==> !BusyScope(s)
  {}

  lemma CallTold(s: Scope, input: Input)
    requires ScopeOk(s) && ScopeTold(s) && ScopeSafe(s) && !input.New? && !input.Delete? && !input.LoseContent? && !input.Fail?
    ensures ScopeTold(Called(s, input)) <==> !(input.CallStop? && BusyScope(s))
  {
    if input.CallStop? { StopTold(s); }
  }

  lemma ToldInScope(w: World, k: nat, s: Scope)
    requires Counted(Store(w, k, s))
    ensures Told(Store(w, k, s)) <==> ScopeTold(s)
  {
    var u := Store(w, k, s);
    Included(u);
    SubsetCount(IdlingOnes(u.instances), StartedOnes(u.instances));
  }

  lemma BusyInScope(w: World, k: nat)
    requires Inv(w) && k in w.instances
    ensures BusyOneLeaves(w, CallStop(k)) <==> BusyScope(Reach(w, k))
    ensures BusyOneLeaves(w, Delete(k)) <==> BusyScope(Reach(w, k))
  {
    var s, i := StartedOnes(w.instances), IdlingOnes(w.instances);
    Included(w);
    Without(s, k);
    if w.instances[k].started && !w.instances[k].idling {
      assert k in s && i <= s - {k};
      SubsetCount(i, s - {k});
      SubsetCount({k}, s);
    }
  }

  lemma CallKeepsTold(w: World, input: Input)
    requires Inv(w) && Told(w) && Possible(w, input) && !input.New? && !input.Delete? && !input.LoseContent? && !input.Fail?
    ensures Told(Store(w, input.k, Called(Reach(w, input.k), input))) <==> !BusyOneLeaves(w, input)
  {
    var k, s := input.k, Reach(w, input.k);
    ReachOk(w, k);
    assert Store(w, k, s) == w;
    ToldInScope(w, k, s);
    CallTold(s, input);
    CalledIsGood(s, input);
    StoreCounted(w, k, Called(s, input));
    ToldInScope(w, k, Called(s, input));
    BusyInScope(w, k);
  }

  lemma DeleteKeepsTold(w: World, k: nat)
    requires Inv(w) && Told(w) && k in w.instances
    ensures Told(Destroy(w, k)) <==> !BusyOneLeaves(w, Delete(k))
  {
    CallKeepsTold(w, CallStop(k));
    StoppedHoldsNothing(Reach(w, k));
    Forgotten(Store(w, k, Stop(Reach(w, k))), Destroy(w, k), k);
  }

  /** An instance without flags makes no difference. */
  lemma Forgotten(v: World, u: World, k: nat)
    requires k in v.instances && !v.instances[k].started && !v.instances[k].idling
    requires u.instances == v.instances - {k} && u.client == v.client
    ensures Told(u) <==> Told(v)
  {
    assert StartedOnes(u.instances) == StartedOnes(v.instances) && IdlingOnes(u.instances) == IdlingOnes(v.instances);
  }

  /** Exactly when the wrapped client is left uninformed: in every run, a step after which all started
      instances are idling although the wrapped client was not told to idle is one by which a busy
      instance leaves all the idling others. */
  lemma LeftUninformedExactlyWhenBusyOneLeaves(inputs: seq<Input>, input: Input)
    requires Told(Run(inputs)) && Possible(Run(inputs), input)
    ensures Told(Step(Run(inputs), input)) <==> !BusyOneLeaves(Run(inputs), input)
  {
    var w := Run(inputs);
    RunKeeps(inputs);
    match input {
      case New(k) => CreateKeepsFlags(w, k);
      case LoseContent =>
      case Fail =>
      case Delete(k) => DeleteKeepsTold(w, k);
      case _ => CallKeepsTold(w, input);
    }
  }

  lemma CreateKeepsFlags(w: World, k: nat)
    requires k !in w.instances
    ensures StartedOnes(Create(w, k).instances) == StartedOnes(w.instances)
    ensures IdlingOnes(Create(w, k).instances) == IdlingOnes(w.instances)
  {}

  /** No step of the run was one by which a busy instance leaves all the idling others. */
  predicate NoBusyOneLeft(inputs: seq<Input>) {
    forall i :: 0 <= i < |inputs| ==> !BusyOneLeaves(Run(inputs[..i]), inputs[i])
  }

  /** So over a whole run without such a step, the wrapped client idles as soon as everybody does. */
  lemma {:induction false} AlwaysToldOtherwise(inputs: seq<Input>)
    requires NoBusyOneLeft(inputs)
    ensures Told(Run(inputs))
  {
    if inputs != [] {
      var init, input := inputs[..|inputs| - 1], inputs[|inputs| - 1];
      forall i | 0 <= i < |init| ensures !BusyOneLeaves(Run(init[..i]), init[i]) {
        assert init[..i] == inputs[..i];
      }
      AlwaysToldOtherwise(init);
      assert !BusyOneLeaves(Run(inputs[..|init|]), inputs[|init|]);
      if Possible(Run(init), input) { LeftUninformedExactlyWhenBusyOneLeaves(init, input); }
    }
  }

  // ---- content ----

  /** Two live instances can never register the same full path. */
  lemma PathsAreSeparate(inputs: seq<Input>, k: nat, l: nat, a: string, b: string)
    requires k in Run(inputs).instances && l in Run(inputs).instances && k != l
    ensures Prefix(Run(inputs).instances[k].index) + a != Prefix(Run(inputs).instances[l].index) + b
  {
    RunKeeps(inputs);
    var i, j := Run(inputs).instances[k].index, Run(inputs).instances[l].index;
    if Prefix(i) + a == Prefix(j) + b { PrefixFree(i, j, a, b); }
  }

  /** The registered content that is not under the prefix of this index. */
  function Others(content: map<string, nat>, index: nat): map<string, nat> {
    map p | p in content && !Under(index, p) :: content[p]
  }

  lemma OwnContent(w: World, k: nat)
    requires Inv(w) && k in w.instances
    ensures w.client.content - Paths(w.instances[k].registered) == Others(w.client.content, w.instances[k].index)
  {
    var me := w.instances[k];
    forall p | p in w.client.content ensures p in Paths(me.registered) <==> Under(me.index, p) {
      var l, h :| l in w.instances && h in w.instances[l].registered && h.path == p;
      if Under(me.index, p) { UnderOne(me.index, w.instances[l].index, p); }
    }
  }

  /** Stopping an instance that is not the last started one removes exactly the content under its own
      prefix from the wrapped client. */
  lemma StopRemovesOwnContent(inputs: seq<Input>, k: nat)
    requires var w := Run(inputs); k in w.instances && !(StartedOnes(w.instances) == {k})
    ensures var w := Run(inputs);
            Step(w, CallStop(k)).client.content == Others(w.client.content, w.instances[k].index)
  {
    var w := Run(inputs);
    RunKeeps(inputs);
    OwnContent(w, k);
    if w.instances[k].started && |StartedOnes(w.instances)| == 1 {
      assert k in StartedOnes(w.instances);
      SubsetCount({k}, StartedOnes(w.instances));
    }
  }
}
