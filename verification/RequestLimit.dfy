/** The request limiter of the client (client/src/client.cpp, check_request_limit): the pruned history
    it keeps, compared with the full history of the connection. */
module RequestLimit {
  import opened Wire

  /** The limit for requests without content: at most `count` in a window of the given duration.
      Durations are not negative. */
  datatype Limit = Limit(count: nat, window: nat)

  /** The requests without content at times ts that the pruned history still holds at time now. */
  function Prune(history: seq<int>, now: int, window: int): seq<int> {
    if history == [] || now - history[0] <= window then history else Prune(history[1..], now, window)
  }

  /** The times within the window that ends now. */
  function Recent(ts: seq<int>, now: int, window: int): seq<int> {
    if ts == [] then []
    else
      var rest := Recent(ts[1..], now, window);
      if now - ts[0] <= window then [ts[0]] + rest else rest
  }

  predicate Ordered(ts: seq<int>) {
    forall i, j :: 0 <= i < j < |ts| ==> ts[i] <= ts[j]
  }

  lemma {:induction false} RecentAll(ts: seq<int>, now: int, window: int)
    requires Ordered(ts) && (ts != [] ==> now - ts[0] <= window)
    ensures Recent(ts, now, window) == ts
  {
    if ts != [] {
      assert Ordered(ts[1..]);
      if |ts| > 1 { assert ts[0] <= ts[1]; }
      RecentAll(ts[1..], now, window);
    }
  }

  /** On a list in order of time, pruning keeps exactly the recent times. */
  lemma {:induction false} PruneIsRecent(ts: seq<int>, now: int, window: int)
    requires Ordered(ts)
    ensures Prune(ts, now, window) == Recent(ts, now, window)
  {
    if ts == [] || now - ts[0] <= window {
      RecentAll(ts, now, window);
    } else {
      assert Ordered(ts[1..]);
      PruneIsRecent(ts[1..], now, window);
    }
  }

  lemma {:induction false} RecentConcat(a: seq<int>, b: seq<int>, now: int, window: int)
    ensures Recent(a + b, now, window) == Recent(a, now, window) + Recent(b, now, window)
  {
    if a == [] {
      assert a + b == b;
    } else {
      assert (a + b)[1..] == a[1..] + b;
      RecentConcat(a[1..], b, now, window);
    }
  }

  /** A time that has left the window does not come back. */
  lemma {:induction false} RecentAgain(ts: seq<int>, before: int, now: int, window: int)
    requires before <= now
    ensures Recent(Recent(ts, before, window), now, window) == Recent(ts, now, window)
  {
    if ts != [] {
      RecentAgain(ts[1..], before, now, window);
      var rest := Recent(ts[1..], before, window);
      if before - ts[0] <= window { assert ([ts[0]] + rest)[1..] == rest; }
    }
  }

  lemma OrderedCons(t: int, rest: seq<int>)
    requires Ordered(rest) && forall x :: x in rest ==> t <= x
    ensures Ordered([t] + rest)
  {
    var ts := [t] + rest;
    forall i, j | 0 <= i < j < |ts| ensures ts[i] <= ts[j] {
      assert ts[j] == rest[j - 1] && ts[j] in rest;
      if i > 0 { assert ts[i] == rest[i - 1]; }
    }
  }

  lemma {:induction false} RecentOrdered(ts: seq<int>, now: int, window: int)
    requires Ordered(ts)
    ensures Ordered(Recent(ts, now, window))
    ensures forall t :: t in Recent(ts, now, window) ==> t in ts
  {
    if ts != [] {
      assert Ordered(ts[1..]);
      RecentOrdered(ts[1..], now, window);
      var rest := Recent(ts[1..], now, window);
      forall t | t in ts[1..] ensures ts[0] <= t {
        var i :| 0 <= i < |ts[1..]| && ts[1..][i] == t;
        assert ts[0] <= ts[i + 1];
      }
      OrderedCons(ts[0], rest);
    }
  }

  // ---- the limits, stated on the full history ----

  /** A request for registered content, or for a path under which nothing is registered. */
  datatype Request = Request(at: int, content: Option<nat>)

  datatype Options = Options(limit: Option<Limit>, minCacheDuration: Option<nat>)

  /** The times of all requests without content. */
  function Misses(reqs: seq<Request>): seq<int> {
    if reqs == [] then []
    else
      var r, before := reqs[|reqs| - 1], Misses(reqs[..|reqs| - 1]);
      if r.content.None? then before + [r.at] else before
  }

  /** Whether a request is one too many, given all requests since the last reset. */
  predicate Limited(opts: Options, reqs: seq<Request>, r: Request)
    decreases |reqs|, 1
  {
    match r.content
    case Some(c) => TooSoon(opts, LastPassed(opts, reqs), r.at, c)
    case None =>
      opts.limit.Some? && |Recent(Misses(reqs), r.at, opts.limit.value.window)| + 1 > opts.limit.value.count
  }

  /** For each content the time of the last request for it that was let through. */
  function LastPassed(opts: Options, reqs: seq<Request>): map<nat, int>
    decreases |reqs|, 0
  {
    if reqs == [] then map[]
    else
      var init, r := reqs[..|reqs| - 1], reqs[|reqs| - 1];
      if r.content.Some? && !Limited(opts, init, r) then LastPassed(opts, init)[r.content.value := r.at]
      else LastPassed(opts, init)
  }

  /** The last request for this content was let through too short a time ago. */
  predicate TooSoon(opts: Options, last: map<nat, int>, now: int, c: nat) {
    opts.minCacheDuration.Some? && c in last && now - last[c] <= opts.minCacheDuration.value
  }

  predicate Monotone(reqs: seq<Request>) {
    forall i, j :: 0 <= i < j < |reqs| ==> reqs[i].at <= reqs[j].at
  }

  lemma OrderedSnoc(ts: seq<int>, t: int)
    requires Ordered(ts) && forall x :: x in ts ==> x <= t
    ensures Ordered(ts + [t])
  {
    forall i, j | 0 <= i < j < |ts + [t]| ensures (ts + [t])[i] <= (ts + [t])[j] {
      assert (ts + [t])[i] == ts[i] && ts[i] in ts;
    }
  }

  lemma {:induction false} MissesOrdered(reqs: seq<Request>)
    requires Monotone(reqs)
    ensures Ordered(Misses(reqs))
    ensures forall t :: t in Misses(reqs) ==> reqs != [] && t <= reqs[|reqs| - 1].at
  {
    if reqs != [] {
      var init := reqs[..|reqs| - 1];
      MissesOrdered(init);
      assert init != [] ==> init[|init| - 1].at <= reqs[|reqs| - 1].at;
      OrderedSnoc(Misses(init), reqs[|reqs| - 1].at);
    }
  }

  // ---- what the limits mean ----

  /** The times of the requests without content that were let through. */
  function Passed(opts: Options, reqs: seq<Request>): seq<int> {
    if reqs == [] then []
    else
      var init, r := reqs[..|reqs| - 1], reqs[|reqs| - 1];
      if r.content.None? && !Limited(opts, init, r) then Passed(opts, init) + [r.at] else Passed(opts, init)
  }

  /** How many times lie in the window of the given length that ends at `end`. */
  function Within(ts: seq<int>, end: int, window: int): nat {
    if ts == [] then 0
    else
      var t, n := ts[|ts| - 1], Within(ts[..|ts| - 1], end, window);
      if end - window <= t <= end then n + 1 else n
  }

  lemma {:induction false} RecentSnoc(ts: seq<int>, t: int, now: int, window: int)
    ensures Recent(ts + [t], now, window) == Recent(ts, now, window) + if now - t <= window then [t] else []
  {
    RecentConcat(ts, [t], now, window);
    assert Recent([t], now, window) == if now - t <= window then [t] else [] by { assert [t][1..] == []; }
  }

  lemma WithinSnoc(ts: seq<int>, t: int, end: int, window: int)
    ensures Within(ts + [t], end, window) == Within(ts, end, window) + if end - window <= t <= end then 1 else 0
  {}

  /** What was let through in a window is no more than what arrived in it. */
  lemma {:induction false} PassedAreMisses(opts: Options, reqs: seq<Request>, end: int, now: int, window: int)
    requires now <= end
    ensures Within(Passed(opts, reqs), end, window) <= |Recent(Misses(reqs), now, window)|
  {
    if reqs != [] {
      var init, r := reqs[..|reqs| - 1], reqs[|reqs| - 1];
      PassedAreMisses(opts, init, end, now, window);
      RecentSnoc(Misses(init), r.at, now, window);
      WithinSnoc(Passed(opts, init), r.at, end, window);
    }
  }

  /** In any window of the configured length, at most `count` requests without content are let through. */
  lemma {:induction false} WindowBound(opts: Options, reqs: seq<Request>, end: int)
    requires opts.limit.Some? && Monotone(reqs)
    ensures Within(Passed(opts, reqs), end, opts.limit.value.window) <= opts.limit.value.count
  {
    if reqs != [] {
      var init, r := reqs[..|reqs| - 1], reqs[|reqs| - 1];
      assert Monotone(init);
      WindowBound(opts, init, end);
      if r.content.None? && !Limited(opts, init, r) {
        WithinSnoc(Passed(opts, init), r.at, end, opts.limit.value.window);
        if r.at <= end { PassedAreMisses(opts, init, end, r.at, opts.limit.value.window); }
      }
    }
  }

  /** Request i was let through. */
  predicate LetThrough(opts: Options, reqs: seq<Request>, i: nat)
    requires i < |reqs|
  {
    !Limited(opts, reqs[..i], reqs[i])
  }

  lemma {:induction false} LastPassedIsLast(opts: Options, reqs: seq<Request>, c: nat, i: nat)
    requires i < |reqs| && reqs[i].content == Some(c) && LetThrough(opts, reqs, i) && Monotone(reqs)
    ensures c in LastPassed(opts, reqs) && reqs[i].at <= LastPassed(opts, reqs)[c]
    decreases |reqs|
  {
    var init, r := reqs[..|reqs| - 1], reqs[|reqs| - 1];
    if i < |init| {
      assert init[..i] == reqs[..i];
      LastPassedIsLast(opts, init, c, i);
    }
  }

  /** Two requests for the same content that are both let through are more than the minimum cache
      duration apart. */
  lemma Spacing(opts: Options, reqs: seq<Request>, c: nat, i: nat, j: nat)
    requires opts.minCacheDuration.Some? && Monotone(reqs) && i < j < |reqs|
    requires reqs[i].content == reqs[j].content == Some(c) && LetThrough(opts, reqs, i) && LetThrough(opts, reqs, j)
    ensures reqs[j].at - reqs[i].at > opts.minCacheDuration.value
  {
    var before := reqs[..j];
    assert before[..i] == reqs[..i];
    LastPassedIsLast(opts, before, c, i);
  }

  /** What the entry for some content stands for: a request for it that was let through. */
  lemma {:induction false} LastPassedIsSome(opts: Options, reqs: seq<Request>, c: nat) returns (i: nat)
    requires c in LastPassed(opts, reqs)
    ensures i < |reqs| && reqs[i].content == Some(c) && LetThrough(opts, reqs, i) && reqs[i].at == LastPassed(opts, reqs)[c]
  {
    var init, r := reqs[..|reqs| - 1], reqs[|reqs| - 1];
    if r.content == Some(c) && !Limited(opts, init, r) {
      i := |init|;
    } else {
      i := LastPassedIsSome(opts, init, c);
      assert init[..i] == reqs[..i];
    }
  }

  /** A request for registered content is turned away if and only if one for the same content was let
      through within the minimum cache duration before it. */
  lemma ContentLimitedExactly(opts: Options, reqs: seq<Request>, r: Request, c: nat)
    requires Monotone(reqs + [r]) && r.content == Some(c)
    ensures Limited(opts, reqs, r) <==>
            && opts.minCacheDuration.Some?
            && exists i: nat :: i < |reqs| && reqs[i].content == Some(c) && LetThrough(opts, reqs, i)
                                && r.at - reqs[i].at <= opts.minCacheDuration.value
  {
    assert forall i :: 0 <= i < |reqs| ==> (reqs + [r])[i] == reqs[i];
    assert Monotone(reqs);
    if Limited(opts, reqs, r) {
      var i := LastPassedIsSome(opts, reqs, c);
    }
    if opts.minCacheDuration.Some? {
      if i: nat :| i < |reqs| && reqs[i].content == Some(c) && LetThrough(opts, reqs, i) && r.at - reqs[i].at <= opts.minCacheDuration.value {
        LastPassedIsLast(opts, reqs, c, i);
      }
    }
  }

  lemma {:induction false} RecentCounts(ts: seq<int>, now: int, window: int)
    requires forall t :: t in ts ==> t <= now
    ensures |Recent(ts, now, window)| == Within(ts, now, window)
  {
    if ts != [] {
      var init, t := ts[..|ts| - 1], ts[|ts| - 1];
      assert ts == init + [t] && t in ts && forall x :: x in init ==> x in ts;
      RecentCounts(init, now, window);
      RecentSnoc(init, t, now, window);
    }
  }

  /** A request for nothing is turned away if and only if as many as are allowed arrived in the window
      that ends with it. */
  lemma MissLimitedExactly(opts: Options, reqs: seq<Request>, r: Request)
    requires Monotone(reqs + [r]) && r.content == None
    ensures Limited(opts, reqs, r) <==>
            opts.limit.Some? && Within(Misses(reqs), r.at, opts.limit.value.window) >= opts.limit.value.count
  {
    if opts.limit.Some? {
      assert forall i :: 0 <= i < |reqs| ==> (reqs + [r])[i] == reqs[i];
      assert Monotone(reqs) && (reqs != [] ==> reqs[|reqs| - 1].at <= (reqs + [r])[|reqs|].at);
      MissesOrdered(reqs);
      RecentCounts(Misses(reqs), r.at, opts.limit.value.window);
    }
  }

  lemma OneMoreMiss(opts: Options, reqs: seq<Request>, r: Request)
    requires Monotone(reqs) && r.content.None? && (reqs != [] ==> reqs[|reqs| - 1].at <= r.at)
    ensures Monotone(reqs + [r]) && Misses(reqs + [r]) == Misses(reqs) + [r.at]
    ensures LastPassed(opts, reqs + [r]) == LastPassed(opts, reqs)
  {}

  // ---- the limiter ----

  /** The limiter's state for a list of requests: the history pruned at some time, and for each content
      the time of the last request that was let through. */
  predicate Tracks(opts: Options, reqs: seq<Request>, pruned: int, history: seq<int>, last: map<nat, int>) {
    && Monotone(reqs)
    && (reqs != [] ==> pruned <= reqs[|reqs| - 1].at)
    && (opts.limit.Some? ==> history == if reqs == [] then [] else Recent(Misses(reqs), pruned, opts.limit.value.window))
    && (opts.minCacheDuration.Some? ==> last == LastPassed(opts, reqs))
  }

  /** Pruning the pruned history gives what pruning the full one would. */
  lemma PrunedAgain(opts: Options, reqs: seq<Request>, pruned: int, history: seq<int>, last: map<nat, int>, now: int)
    requires Tracks(opts, reqs, pruned, history, last) && opts.limit.Some? && (reqs != [] ==> reqs[|reqs| - 1].at <= now)
    ensures Prune(history, now, opts.limit.value.window) == Recent(Misses(reqs), now, opts.limit.value.window)
    ensures forall i :: 0 <= i < |history| ==> history[i] <= now
  {
    if reqs != [] {
      var window := opts.limit.value.window;
      MissesOrdered(reqs);
      RecentOrdered(Misses(reqs), pruned, window);
      PruneIsRecent(history, now, window);
      RecentAgain(Misses(reqs), pruned, now, window);
      forall i | 0 <= i < |history| ensures history[i] <= now { assert history[i] in Misses(reqs); }
    }
  }

  lemma MissTracks(opts: Options, reqs: seq<Request>, pruned: int, history: seq<int>, last: map<nat, int>, r: Request)
    requires Tracks(opts, reqs, pruned, history, last) && r.content.None? && (reqs != [] ==> reqs[|reqs| - 1].at <= r.at)
    ensures opts.limit.None? ==> Tracks(opts, reqs + [r], r.at, history, last) && !Limited(opts, reqs, r)
    ensures opts.limit.Some? ==>
              var kept := Prune(history, r.at, opts.limit.value.window);
              && (forall i :: 0 <= i < |history| ==> history[i] <= r.at)
              && Tracks(opts, reqs + [r], r.at, kept + [r.at], last)
              && (Limited(opts, reqs, r) <==> |kept| + 1 > opts.limit.value.count)
  {
    OneMoreMiss(opts, reqs, r);
    if opts.limit.Some? {
      PrunedAgain(opts, reqs, pruned, history, last, r.at);
      RecentSnoc(Misses(reqs), r.at, r.at, opts.limit.value.window);
    }
  }

  lemma ContentTracks(opts: Options, reqs: seq<Request>, pruned: int, history: seq<int>, last: map<nat, int>, r: Request, c: nat)
    requires Tracks(opts, reqs, pruned, history, last) && r.content == Some(c) && (reqs != [] ==> reqs[|reqs| - 1].at <= r.at)
    ensures Tracks(opts, reqs + [r], if reqs == [] then r.at else pruned, history,
                   if opts.minCacheDuration.None? || Limited(opts, reqs, r) then last else last[c := r.at])
    ensures Limited(opts, reqs, r) <==> TooSoon(opts, last, r.at, c)
  {}

  /** The client's side. The ghost fields hold all requests since the last reset, and the time of the
      last pruning. */
  class Limiter {
    const opts: Options
    var history: seq<int>
    var lastRequest: map<nat, int>
    ghost var reqs: seq<Request>
    ghost var pruned: int

    ghost predicate Valid()
      reads this
    {
      Tracks(opts, reqs, pruned, history, lastRequest)
    }

    constructor (opts: Options)
      ensures Valid() && this.opts == opts && reqs == []
    {
      this.opts := opts;
      history, lastRequest, reqs, pruned := [], map[], [], 0;
    }

    /** The loop that erases old times from the front. */
    method PruneHistory(now: int, window: nat)
      requires forall i :: 0 <= i < |history| ==> history[i] <= now
      modifies this`history
      ensures history == Prune(old(history), now, window)
    {
      while history != [] && now - history[0] > window
        invariant Prune(history, now, window) == Prune(old(history), now, window)
        invariant forall i :: 0 <= i < |history| ==> history[i] <= now
        decreases |history|
      {
        assert history[0] <= now;
        history := history[1..];
      }
    }

    /** The part of the check for registered content. */
    method CheckContent(now: int, c: nat) returns (limited: bool)
      modifies this`lastRequest
      ensures limited <==> TooSoon(opts, old(lastRequest), now, c)
      ensures lastRequest == if opts.minCacheDuration.None? || limited then old(lastRequest) else old(lastRequest)[c := now]
    {
      if opts.minCacheDuration.Some? {
        if c in lastRequest && now - lastRequest[c] <= opts.minCacheDuration.value {
          return true;
        }
        lastRequest := lastRequest[c := now];
      }
      return false;
    }

    /** The part of the check for paths under which nothing is registered. */
    method CheckMiss(now: int) returns (limited: bool)
      requires opts.limit.Some? ==> forall i :: 0 <= i < |history| ==> history[i] <= now
      modifies this`history
      ensures opts.limit.None? ==> !limited && history == old(history)
      ensures opts.limit.Some? ==> history == Prune(old(history), now, opts.limit.value.window) + [now]
      ensures opts.limit.Some? ==> (limited <==> |history| > opts.limit.value.count)
    {
      limited := false;
      if opts.limit.Some? {
        PruneHistory(now, opts.limit.value.window);
        history := history + [now];
        limited := |history| > opts.limit.value.count;
      }
    }

    method OnContent(r: Request, c: nat) returns (limited: bool)
      requires Valid() && (reqs != [] ==> reqs[|reqs| - 1].at <= r.at) && r.content == Some(c)
      modifies this
      ensures Valid() && reqs == old(reqs) + [r]
      ensures limited == Limited(opts, old(reqs), r)
    {
      ghost var more, verdict := reqs + [r], Limited(opts, reqs, r);
      ContentTracks(opts, reqs, pruned, history, lastRequest, r, c);
      pruned := if reqs == [] then r.at else pruned;
      limited := CheckContent(r.at, c);
      assert limited == verdict;
      reqs := more;
    }

    method OnMiss(r: Request) returns (limited: bool)
      requires Valid() && (reqs != [] ==> reqs[|reqs| - 1].at <= r.at) && r.content == None
      modifies this
      ensures Valid() && reqs == old(reqs) + [r]
      ensures limited == Limited(opts, old(reqs), r)
    {
      ghost var more, verdict := reqs + [r], Limited(opts, reqs, r);
      MissTracks(opts, reqs, pruned, history, lastRequest, r);
      limited := CheckMiss(r.at);
      assert limited == verdict;
      pruned := r.at;
      reqs := more;
    }

    /** With a clock that does not run backwards, the verdict is the one that the full history gives. */
    method Check(r: Request) returns (limited: bool)
      requires Valid() && (reqs != [] ==> reqs[|reqs| - 1].at <= r.at)
      modifies this
      ensures Valid() && reqs == old(reqs) + [r]
      ensures limited == Limited(opts, old(reqs), r)
    {
      match r.content
      case Some(c) => limited := OnContent(r, c);
      case None => limited := OnMiss(r);
    }

    /** reset_connection_state: the history and all content go. */
    method Reset()
      modifies this
      ensures Valid() && reqs == []
    {
      history, lastRequest, reqs := [], map[], [];
    }
  }
}
