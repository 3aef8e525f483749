/** The delays between reconnection attempts (client/src/client.cpp, next_reconnect_delay). */
module Reconnect {
  import opened Wire

  const I63: int := 0x8000_0000_0000_0000

  /** A number of milliseconds, as a signed 64-bit number that wraps around. */
  function Signed(x: int): int {
    (x + I63) % U64 - I63
  }

  lemma SignedSmall(x: int)
    requires -I63 <= x < I63
    ensures Signed(x) == x
  {}

  datatype Options = Options(delay: int, max: Option<int>) {
    /** What the client's constructor checks. */
    predicate Valid() {
      && 0 < delay < I63
      && (max.Some? ==> delay < max.value < I63)
    }
  }

  datatype State = State(attempt: nat, delay: int)

  const Reset := State(0, 0)

  function Min(a: int, b: int): int { if a < b then a else b }

  function Max(a: int, b: int): int { if a < b then b else a }

  function Next(o: Options, s: State): State {
    var attempt := s.attempt + 1;
    if attempt == 1 then State(1, 0)
    else if attempt == 2 then State(2, o.delay)
    else if o.max.Some? then State(attempt, Max(o.delay, Min(o.max.value, Signed(2 * s.delay))))
    else State(attempt, s.delay)
  }

  /** The state after k attempts since the last successful connection. */
  function After(o: Options, k: nat): State {
    if k == 0 then Reset else Next(o, After(o, k - 1))
  }

  function Power(k: nat): nat {
    if k == 0 then 1 else 2 * Power(k - 1)
  }

  lemma {:induction false} Attempts(o: Options, k: nat)
    ensures After(o, k).attempt == k
  {
    if k > 0 { Attempts(o, k - 1); }
  }

  /** From the second attempt on, whatever doubling does to the number, the delay is at least the
      configured one and at most the maximum. */
  lemma {:induction false} Bounds(o: Options, k: nat)
    requires o.Valid() && 2 <= k
    ensures o.delay <= After(o, k).delay
    ensures After(o, k).delay <= if o.max.Some? then o.max.value else o.delay
    decreases k
  {
    Attempts(o, k - 1);
    if k > 2 { Bounds(o, k - 1); }
  }

  /** If twice the maximum can be represented, nothing wraps around. */
  predicate Fits(o: Options) {
    o.max.Some? ==> 2 * o.max.value < I63
  }

  /** The first attempt is immediate, the later ones wait twice as long each time up to the maximum,
      or equally long when there is none. */
  lemma {:induction false} Exponential(o: Options, k: nat)
    requires o.Valid() && Fits(o) && 1 <= k
    ensures k == 1 ==> After(o, k).delay == 0
    ensures 2 <= k && o.max.None? ==> After(o, k).delay == o.delay
    ensures 2 <= k && o.max.Some? ==> After(o, k).delay == Min(o.max.value, o.delay * Power(k - 2))
    decreases k
  {
    Attempts(o, k - 1);
    if k > 2 {
      Exponential(o, k - 1);
      Bounds(o, k - 1);
      Doubled(o, k);
    }
  }

  lemma Doubled(o: Options, k: nat)
    requires o.Valid() && Fits(o) && k > 2 && After(o, k - 1).attempt == k - 1
    requires o.max.None? ==> After(o, k - 1).delay == o.delay
    requires o.max.Some? ==> After(o, k - 1).delay == Min(o.max.value, o.delay * Power(k - 3)) && o.delay <= After(o, k - 1).delay
    ensures o.max.None? ==> After(o, k).delay == o.delay
    ensures o.max.Some? ==> After(o, k).delay == Min(o.max.value, o.delay * Power(k - 2))
  {
    if o.max.Some? {
      var d := After(o, k - 1).delay;
      SignedSmall(2 * d);
      Twice(o.delay, k - 3);
    }
  }

  lemma Twice(d: int, k: nat)
    ensures d * Power(k + 1) == 2 * (d * Power(k))
  {}

  /** The delays never get shorter. */
  lemma {:induction false} NeverShorter(o: Options, k: nat, l: nat)
    requires o.Valid() && Fits(o) && 1 <= k <= l
    ensures After(o, k).delay <= After(o, l).delay
    decreases l - k
  {
    if k < l {
      NeverShorter(o, k + 1, l);
      Exponential(o, k);
      Exponential(o, k + 1);
      if k >= 2 {
        Twice(o.delay, k - 2);
        Bounds(o, k);
      }
    }
  }

  // ---- when doubling wraps around ----

  /** The delay of attempt k, from the second on, as doubling without limits would have it. */
  function Ideal(o: Options, k: nat): int
    requires 2 <= k
  {
    if o.max.Some? then Min(o.max.value, o.delay * Power(k - 2)) else o.delay
  }

  ghost predicate AlwaysIdeal(o: Options) {
    forall k :: 2 <= k ==> After(o, k).delay == Ideal(o, k)
  }

  lemma {:induction false} PowerGrows(k: nat)
    ensures Power(k) > k
  {
    if k > 0 { PowerGrows(k - 1); }
  }

  /** Twice a number that does not fit is negative, so the next delay is the configured one. */
  lemma WrapsDown(o: Options, s: State)
    requires o.Valid() && o.max.Some? && s.attempt >= 2 && I63 <= 2 * s.delay < U64
    ensures Next(o, s).delay == o.delay
  {
    assert Signed(2 * s.delay) == 2 * s.delay - U64;
  }

  /** With a maximum of which the double does not fit, the maximum is not kept once it is reached. */
  lemma MaximumIsLost(o: Options)
    requires o.Valid() && !Fits(o)
    ensures !AlwaysIdeal(o)
  {
    var m := o.max.value;
    PowerGrows(m);
    PowerGrows(m + 1);
    AtLeast(o.delay, Power(m));
    AtLeast(o.delay, Power(m + 1));
    if After(o, m + 2).delay == Ideal(o, m + 2) {
      Attempts(o, m + 2);
      WrapsDown(o, After(o, m + 2));
      assert After(o, m + 3).delay != Ideal(o, m + 3);
    }
  }

  lemma AtLeast(d: int, p: nat)
    requires d > 0
    ensures d * p >= p
  {
    assert d * p == (d - 1) * p + p;
    assert (d - 1) * p >= 0;
  }

  /** The delays double up to the maximum in all attempts if and only if twice the maximum fits. */
  lemma ExponentialExactly(o: Options)
    requires o.Valid()
    ensures After(o, 1).delay == 0
    ensures AlwaysIdeal(o) <==> Fits(o)
  {
    assert After(o, 1) == Next(o, Reset);
    if Fits(o) {
      forall k | 2 <= k ensures After(o, k).delay == Ideal(o, k) { Exponential(o, k); }
    } else {
      MaximumIsLost(o);
    }
  }

  ghost predicate Monotone(o: Options) {
    forall k, l :: 1 <= k <= l ==> After(o, k).delay <= After(o, l).delay
  }

  /** While twice the delay fits, the delay gets longer with every attempt; so it comes to a point
      where it does not fit. */
  lemma {:induction false} ClimbsUntilWrap(o: Options, n: nat) returns (k: nat)
    requires o.Valid() && !Fits(o)
    ensures 2 <= k <= n + 2
    ensures 2 * After(o, k).delay >= I63 || (k == n + 2 && After(o, k).delay >= o.delay + n)
  {
    if n == 0 {
      k := 2;
      Attempts(o, 1);
    } else {
      k := ClimbsUntilWrap(o, n - 1);
      if 2 * After(o, k).delay < I63 {
        Attempts(o, k);
        Bounds(o, k);
        SignedSmall(2 * After(o, k).delay);
        k := k + 1;
      }
    }
  }

  /** Then the next delay is the configured one again, which is shorter if its own double fits. */
  lemma WrapShortens(o: Options) returns (k: nat)
    requires o.Valid() && !Fits(o) && 2 * o.delay < I63
    ensures 2 <= k && After(o, k + 1).delay < After(o, k).delay
  {
    k := ClimbsUntilWrap(o, I63);
    Attempts(o, k);
    Bounds(o, k);
    WrapsDown(o, After(o, k));
  }

  /** If not even twice the configured delay fits, every attempt but the first waits that long. */
  lemma {:induction false} WrapsAtOnce(o: Options, k: nat)
    requires o.Valid() && o.max.Some? && 2 * o.delay >= I63 && 2 <= k
    ensures After(o, k).delay == o.delay
    decreases k
  {
    Attempts(o, k - 1);
    if k > 2 {
      WrapsAtOnce(o, k - 1);
      WrapsDown(o, After(o, k - 1));
    }
  }

  lemma SteadyIsMonotone(o: Options)
    requires o.Valid() && o.max.Some? && 2 * o.delay >= I63
    ensures Monotone(o)
  {
    assert After(o, 1) == Next(o, Reset);
    forall k, l | 1 <= k <= l ensures After(o, k).delay <= After(o, l).delay {
      if k >= 2 { WrapsAtOnce(o, k); }
      if l >= 2 { WrapsAtOnce(o, l); }
    }
  }

  /** The delays never get shorter if and only if twice the maximum fits, or not even twice the
      configured delay does. */
  lemma NeverShorterExactly(o: Options)
    requires o.Valid()
    ensures Monotone(o) <==> Fits(o) || 2 * o.delay >= I63
  {
    if Fits(o) {
      forall k, l | 1 <= k <= l ensures After(o, k).delay <= After(o, l).delay { NeverShorter(o, k, l); }
    } else if 2 * o.delay >= I63 {
      SteadyIsMonotone(o);
    } else {
      var k := WrapShortens(o);
      assert !(After(o, k).delay <= After(o, k + 1).delay);
    }
  }

  /** An example: the third delay is twice the second, the fourth is the second again. */
  lemma WrapExample()
    ensures var o := Options(I63 / 4, Some(I63 - 1));
            && o.Valid() && !Fits(o)
            && After(o, 2).delay == I63 / 4 && After(o, 3).delay == I63 / 2 && After(o, 4).delay == I63 / 4
  {
    var o := Options(I63 / 4, Some(I63 - 1));
    assert After(o, 1) == State(1, 0) && After(o, 2) == State(2, I63 / 4);
    SignedSmall(2 * (I63 / 4));
    assert After(o, 3) == State(3, I63 / 2);
    WrapsDown(o, After(o, 3));
  }

  class ReconnectDelay {
    const options: Options
    var attempt: nat
    var delay: int

    function Value(): State
      reads this
    {
      State(attempt, delay)
    }

    constructor (o: Options)
      requires o.Valid()
      ensures options == o && Value() == Reset
    {
      options, attempt, delay := o, 0, 0;
    }

    method NextDelay() returns (result: int)
      requires exists k: nat :: Value() == After(options, k)
      requires options.Valid()
      modifies this
      ensures Value() == Next(options, old(Value())) && result == delay
      ensures result >= 0
    {
      ghost var k: nat :| Value() == After(options, k);
      assert After(options, k + 1) == Next(options, Value());
      if k >= 1 { Bounds(options, k + 1); }
      Attempts(options, k);
      attempt := attempt + 1;
      if attempt == 1 {
        delay := 0;
        return delay;
      }
      if attempt == 2 {
        delay := options.delay;
      }
      if attempt > 2 && options.max.Some? {
        var next := Min(options.max.value, Signed(2 * delay));
        next := Max(options.delay, next);
        delay := next;
      }
      assert delay >= 0;
      return delay;
    }

    method ResetDelay()
      modifies this
      ensures Value() == Reset
    {
      attempt, delay := 0, 0;
    }
  }
}
