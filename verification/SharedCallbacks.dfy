/** The callbacks of shared clients (client/src/shared_client.hpp and .cpp): the keyed table through
    which the wrapped client calls its instances, and when an instance passes a call on to its user. */
module SharedCallbacks {
  import opened Wire

  // ---- the keyed table ----

  predicate Increasing(keys: seq<nat>) {
    forall i, j :: 0 <= i < j < |keys| ==> keys[i] < keys[j]
  }

  function Smallest(keys: set<nat>): (k: nat)
    requires keys != {}
    ensures k in keys && forall l :: l in keys ==> k <= l
  {
    var x :| x in keys;
    HasSmallest(keys, x);
    var k :| k in keys && forall l :: l in keys ==> k <= l;
    k
  }

  lemma {:induction false} HasSmallest(keys: set<nat>, x: nat)
    requires x in keys
    ensures exists k :: k in keys && forall l :: l in keys ==> k <= l
    decreases x
  {
    if y: nat :| y in keys && y < x {
      HasSmallest(keys, y);
    }
  }

  class CallbackMap<F> {
    var callbacks: map<nat, F>

    constructor ()
      ensures callbacks == map[]
    {
      callbacks := map[];
    }

    /** None unsets the callback. */
    method Set(key: nat, callback: Option<F>)
      modifies this
      ensures callbacks == if callback.Some? then old(callbacks)[key := callback.value] else old(callbacks) - {key}
    {
      callbacks := callbacks - {key};
      if callback.Some? {
        callbacks := callbacks[key := callback.value];
      }
    }

    /** Runs every callback once, in the order of the keys. */
    method Execute() returns (ran: seq<nat>)
      ensures Increasing(ran) && (forall k :: k in ran <==> k in callbacks)
    {
      ran := [];
      var todo := callbacks.Keys;
      while todo != {}
        invariant todo <= callbacks.Keys
        invariant Increasing(ran) && (forall k :: k in ran <==> k in callbacks && k !in todo)
        invariant forall k, l :: k in ran && l in todo ==> k < l
        decreases todo
      {
        var k := Smallest(todo);
        assert forall i :: 0 <= i < |ran| ==> ran[i] in ran;
        ran := ran + [k];
        todo := todo - {k};
      }
    }
  }

  // ---- one instance ----

  datatype Call = Ready | Disconnected

  /** `flag` is m_on_ready_called; `onReady` and `onDisconnect` tell whether the user has set a callback,
      and `calls` is what the user has seen. `up` tells whether the wrapped client is connected and
      ready, `others` whether any other instance is started. */
  datatype Instance = Instance(
    started: bool, flag: bool, onReady: bool, onDisconnect: bool, calls: seq<Call>, up: bool, others: bool)

  const Fresh := Instance(false, false, false, false, [], false, false)

  /** The ready callback of the instance: the default one, or the one that wraps the user's. */
  function CallReady(s: Instance): Instance {
    if !s.started then s
    else s.(flag := true, calls := if s.onReady && !s.flag then s.calls + [Ready] else s.calls)
  }

  function CallDisconnect(s: Instance): Instance {
    s.(flag := false, calls := if s.onDisconnect && s.flag then s.calls + [Disconnected] else s.calls)
  }

  /** The wrapped client reports the loss of a connection that was ready. */
  function GoDown(s: Instance): Instance {
    if s.up then CallDisconnect(s).(up := false) else s
  }

  function Start(s: Instance): Instance {
    if s.started then s
    else
      var s1 := s.(started := true, flag := false);
      if s.others && s.up then CallReady(s1) else s1
  }

  /** Stopping the last started instance stops the wrapped client; otherwise only this one is told. */
  function Stop(s: Instance): Instance {
    if !s.started then s
    else (if s.others then CallDisconnect(s) else GoDown(s)).(started := false)
  }

  datatype Input =
    | CallStart
    | CallStop
    | SetReady
    | SetDisconnect
    | WrappedReady
    | WrappedDown
    | OtherStarted(any: bool)

  /** The wrapped client becomes ready only while some instance is started. */
  predicate Possible(s: Instance, input: Input) {
    input.WrappedReady? ==> (s.started || s.others) && !s.up
  }

  function Step(s: Instance, input: Input): Instance
    requires Possible(s, input)
  {
    match input
    case CallStart => Start(s)
    case CallStop => Stop(s)
    case SetReady => s.(onReady := true)
    case SetDisconnect => s.(onDisconnect := true)
    case WrappedReady => CallReady(s.(up := true))
    case WrappedDown => GoDown(s)
    case OtherStarted(any) => if !any && !s.started then GoDown(s).(others := false) else s.(others := any)
  }

  function Run(s: Instance, inputs: seq<Input>): Instance {
    if inputs == [] then s
    else
      var before, input := Run(s, inputs[..|inputs| - 1]), inputs[|inputs| - 1];
      if Possible(before, input) then Step(before, input) else before
  }

  /** Ready and Disconnected take turns, and a Ready comes first. */
  predicate Alternating(calls: seq<Call>) {
    forall i :: 0 <= i < |calls| ==> calls[i] == if i % 2 == 0 then Ready else Disconnected
  }

  /** The flag is set exactly while the instance is started and the wrapped client is ready. */
  predicate FlagOk(s: Instance) {
    && (s.flag <==> s.started && s.up)
    && (s.up ==> s.started || s.others)
  }

  predicate CallsOk(s: Instance) {
    && s.onReady && s.onDisconnect && Alternating(s.calls)
    && (s.flag <==> |s.calls| % 2 == 1)
  }

  lemma {:induction false} FlagIsExact(inputs: seq<Input>)
    ensures FlagOk(Run(Fresh, inputs))
  {
    if inputs != [] { FlagIsExact(inputs[..|inputs| - 1]); }
  }

  /** Over every sequence of calls and events: a user who has set both callbacks before starting sees
      them take turns, and the last one seen tells whether the instance is started and ready. */
  lemma {:induction false} CallbacksTakeTurns(inputs: seq<Input>)
    ensures var s := Run(Fresh.(onReady := true, onDisconnect := true), inputs);
            && FlagOk(s) && CallsOk(s)
            && (s.started && s.up <==> s.calls != [] && s.calls[|s.calls| - 1] == Ready)
  {
    if inputs != [] {
      CallbacksTakeTurns(inputs[..|inputs| - 1]);
      var before, input := Run(Fresh.(onReady := true, onDisconnect := true), inputs[..|inputs| - 1]), inputs[|inputs| - 1];
      if Possible(before, input) { StepTakesTurns(before, input); }
    }
  }

  lemma StepTakesTurns(s: Instance, input: Input)
    requires FlagOk(s) && CallsOk(s) && Possible(s, input)
    ensures FlagOk(Step(s, input)) && CallsOk(Step(s, input))
  {}
}
