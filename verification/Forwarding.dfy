/** The forwarding loop of pkg/server/server.go: chunks from the response's channel to the HTTP client. */
module Forwarding {
  import opened Wire
  import opened Chunking
  import opened History
  import opened Server
  import opened ServerDelivery

  class ResponseWriter {
    var body: seq<Byte>

    constructor ()
      ensures body == []
    {
      body := [];
    }

    /** Writes all of the data, or part of it together with an error. */
    method Write(data: seq<Byte>, w: WriteResult) returns (n: nat)
      modifies this
      ensures n <= |data| && body == old(body) + data[..n]
      ensures w.Done? ==> n == |data|
    {
      n := if w.Failed? && w.n < |data| then w.n else |data|;
      body := body + data[..n];
    }
  }

  datatype WriteResult = Done | Failed(n: nat)

  /** What one round of the loop meets: the response and the closed signal as they are by then, which
      of the two select takes when it has a choice, and how a write goes. */
  datatype Round = Round(response: ResponseState, requestClosed: bool, preferClosed: bool, write: WriteResult)

  datatype Outcome = Forwarded | RequestWasClosed | WriteFailed | LengthMismatch | StillWaiting

  lemma FlattenOneMore(chunks: seq<seq<Byte>>, i: nat)
    requires i < |chunks|
    ensures Flatten(chunks[..i + 1]) == Flatten(chunks[..i]) + chunks[i]
  {
    assert chunks[..i + 1][..i] == chunks[..i];
  }

  /** A channel that was closed holds everything that the client sent, ContentSize bytes in total. */
  lemma ClosedIsComplete(cfg: Config, inputs: seq<Timed>, id: nat)
    requires cfg.Valid() && Has(Run(cfg, inputs), id) && Object(Run(cfg, inputs), id).response.Some?
    requires Object(Run(cfg, inputs), id).response.value.chunksClosed
    ensures var r := Object(Run(cfg, inputs), id);
            && !r.closed && r.completed
            && Flatten(r.response.value.chunks) == Flatten(ChunkData(InOf(Run(cfg, inputs).hist, id)))
            && |Flatten(r.response.value.chunks)| == r.response.value.header.contentSize
  {
    Delivery(cfg, inputs, id);
  }

  /** A round meets the request as it is after the first k inputs of the run. */
  predicate Meets(cfg: Config, inputs: seq<Timed>, id: nat, k: nat, round: Round) {
    && k <= |inputs| && Has(Run(cfg, inputs[..k]), id)
    && Object(Run(cfg, inputs[..k]), id).response == Some(round.response)
    && Object(Run(cfg, inputs[..k]), id).closed == round.requestClosed
  }

  /** What a round meets is an early state of what the run ends with; a closed channel is the final one,
      and complete. */
  lemma MeetsEarlier(cfg: Config, inputs: seq<Timed>, id: nat, k: nat, round: Round)
    requires cfg.Valid() && Meets(cfg, inputs, id, k, round)
    ensures var s := Run(cfg, inputs);
            && Has(s, id) && Object(s, id).response.Some?
            && var final := Object(s, id).response.value;
            && round.response.chunks <= final.chunks
            && (round.requestClosed ==> Object(s, id).closed)
            && (round.response.chunksClosed ==> final.chunksClosed && final.chunks == round.response.chunks)
            && final.header == round.response.header
  {
    ChannelsOnlyGrow(cfg, inputs, k);
  }

  // ---- what the rounds lead to ----

  /** How many chunks the first k rounds find, when each takes at most the next one. */
  function Found(rounds: seq<Round>, k: nat): nat
    requires k <= |rounds|
  {
    if k == 0 then 0
    else
      var n := Found(rounds, k - 1);
      if n < |rounds[k - 1].response.chunks| then n + 1 else n
  }

  /** The select takes the closed signal: it has no choice, or makes this one. */
  predicate SeesClosed(round: Round, next: nat) {
    round.requestClosed && (round.preferClosed || (next >= |round.response.chunks| && !round.response.chunksClosed))
  }

  /** The select finds the channel closed and drained. */
  predicate SeesEnd(round: Round, next: nat) {
    !SeesClosed(round, next) && next >= |round.response.chunks| && round.response.chunksClosed
  }

  /** The select takes a chunk, but writing it fails. */
  predicate SeesFailure(round: Round, next: nat) {
    !SeesClosed(round, next) && next < |round.response.chunks| && round.write.Failed?
  }

  predicate Passes(round: Round, next: nat) {
    !SeesClosed(round, next) && !SeesEnd(round, next) && !SeesFailure(round, next)
  }

  /** The rounds in which the channel is closed. */
  function ClosedRounds(rounds: seq<Round>, k: nat): nat
    requires k <= |rounds|
  {
    if k == 0 then 0 else ClosedRounds(rounds, k - 1) + if rounds[k - 1].response.chunksClosed then 1 else 0
  }

  /** The first k rounds all pass. */
  predicate AllPass(rounds: seq<Round>, k: nat)
    requires k <= |rounds|
  {
    k == 0 || (AllPass(rounds, k - 1) && Passes(rounds[k - 1], Found(rounds, k - 1)))
  }

  /** A round that passes with the channel closed takes a chunk. */
  lemma {:induction false} ClosedRoundsTake(rounds: seq<Round>, k: nat)
    requires k <= |rounds| && AllPass(rounds, k)
    ensures ClosedRounds(rounds, k) <= Found(rounds, k)
  {
    if k > 0 { ClosedRoundsTake(rounds, k - 1); }
  }

  /** Nothing is in the way of the rounds. */
  predicate Undisturbed(rounds: seq<Round>) {
    forall i :: 0 <= i < |rounds| ==> !rounds[i].requestClosed && rounds[i].write.Done?
  }

  /** What the rounds meet of a channel that ends up with these chunks: more and more of them, and all of
      them, with the given number of bytes, once it is closed. */
  predicate Filling(rounds: seq<Round>, final: seq<seq<Byte>>) {
    && (forall i :: 0 <= i < |rounds| ==>
          && rounds[i].response.chunks <= final
          && (rounds[i].response.chunksClosed ==>
                rounds[i].response.chunks == final && |Flatten(final)| == rounds[i].response.header.contentSize))
    && (forall i, j :: 0 <= i < j < |rounds| ==> |rounds[i].response.chunks| <= |rounds[j].response.chunks|)
  }

  /** How the loop ends: in the first round that sees the request closed, the end of the channel, or a
      failing write, and with which outcome. */
  predicate EndsAt(rounds: seq<Round>, used: nat, outcome: Outcome) {
    && used <= |rounds| && AllPass(rounds, used)
    && (outcome.StillWaiting? <==> used == |rounds|)
    && (outcome.RequestWasClosed? <==> used < |rounds| && SeesClosed(rounds[used], Found(rounds, used)))
    && (outcome.Forwarded? <==> used < |rounds| && SeesEnd(rounds[used], Found(rounds, used)))
    && (outcome.WriteFailed? <==> used < |rounds| && SeesFailure(rounds[used], Found(rounds, used)))
  }

  method WriteChunk(ghost final: seq<seq<Byte>>, ghost next: nat, data: seq<Byte>, write: WriteResult, w: ResponseWriter)
      returns (n: nat)
    requires next < |final| && data == final[next] && w.body == Flatten(final[..next])
    modifies w
    ensures Flatten(final[..next]) <= w.body <= Flatten(final) && |w.body| == |old(w.body)| + n
    ensures write.Done? ==> w.body == Flatten(final[..next + 1])
  {
    FlattenOneMore(final, next);
    FlattenPrefix(final, next + 1);
    n := w.Write(data, write);
  }

  /** The loop. A round that finds nothing waits. */
  method Forward(rounds: seq<Round>, ghost final: seq<seq<Byte>>, w: ResponseWriter) returns (outcome: Outcome, ghost used: nat)
    requires Filling(rounds, final) && w.body == []
    modifies w
    ensures EndsAt(rounds, used, outcome) && outcome != LengthMismatch
    ensures Found(rounds, used) <= |final| && Flatten(final[..Found(rounds, used)]) <= w.body <= Flatten(final)
    ensures !outcome.WriteFailed? ==> w.body == Flatten(final[..Found(rounds, used)])
    ensures outcome.Forwarded? ==> Found(rounds, used) == |final|
  {
    var written, next, i := 0, 0, 0;
    FlattenPrefix(final, 0);
    assert final[..0] == [];
    while i < |rounds|
      invariant 0 <= i <= |rounds| && next <= |final| && next == Found(rounds, i) && AllPass(rounds, i)
      invariant i < |rounds| ==> next <= |rounds[i].response.chunks|
      invariant w.body == Flatten(final[..next]) && written == |w.body|
      invariant w.body <= Flatten(final)
      decreases |rounds| - i
    {
      var round := rounds[i];
      var empty := next == |round.response.chunks|;
      if round.requestClosed && (round.preferClosed || (empty && !round.response.chunksClosed)) {
        return RequestWasClosed, i;
      }
      if empty && round.response.chunksClosed {
        assert final[..next] == final;
        if written != round.response.header.contentSize {
          return LengthMismatch, i;
        }
        return Forwarded, i;
      }
      if !empty {
        assert round.response.chunks[next] == final[next];
        var n := WriteChunk(final, next, round.response.chunks[next], round.write, w);
        if round.write.Failed? {
          return WriteFailed, i;
        }
        written := written + n;
        next := next + 1;
      }
      i := i + 1;
    }
    return StillWaiting, |rounds|;
  }

  /** The rounds of a run meet a filling channel. */
  lemma MeetsFilling(cfg: Config, inputs: seq<Timed>, id: nat, times: seq<nat>, rounds: seq<Round>)
    requires cfg.Valid() && Has(Run(cfg, inputs), id) && Object(Run(cfg, inputs), id).response.Some?
    requires |times| == |rounds|
    requires forall i :: 0 <= i < |rounds| ==> Meets(cfg, inputs, id, times[i], rounds[i])
    requires forall i, j :: 0 <= i < j < |times| ==> times[i] <= times[j]
    ensures Filling(rounds, Object(Run(cfg, inputs), id).response.value.chunks)
  {
    forall i | 0 <= i < |rounds|
      ensures var final := Object(Run(cfg, inputs), id).response.value.chunks;
              && rounds[i].response.chunks <= final
              && (rounds[i].response.chunksClosed ==>
                    rounds[i].response.chunks == final && |Flatten(final)| == rounds[i].response.header.contentSize) {
      MeetsEarlier(cfg, inputs, id, times[i], rounds[i]);
      if rounds[i].response.chunksClosed { ClosedIsComplete(cfg, inputs, id); }
    }
    forall i, j | 0 <= i < j < |rounds| ensures |rounds[i].response.chunks| <= |rounds[j].response.chunks| {
      LaterChunks(cfg, inputs, id, times, rounds, i, j);
    }
  }

  lemma UndisturbedEnds(rounds: seq<Round>, used: nat, outcome: Outcome, chunks: nat)
    requires EndsAt(rounds, used, outcome) && outcome != LengthMismatch && Found(rounds, used) <= chunks
    requires Undisturbed(rounds) && ClosedRounds(rounds, |rounds|) > chunks
    ensures outcome.Forwarded?
  {
    if used == |rounds| { ClosedRoundsTake(rounds, used); }
  }

  /** Forwards a response while the run goes on. `used` is the round in which the loop ends; the body is
      what the client sent, as far as forwarding got; and if nothing is in the way and the channel is
      closed for more rounds than it has chunks, everything is forwarded. */
  method Serve(cfg: Config, ghost inputs: seq<Timed>, ghost id: nat, ghost times: seq<nat>, rounds: seq<Round>, w: ResponseWriter)
      returns (outcome: Outcome, ghost used: nat)
    requires cfg.Valid() && Has(Run(cfg, inputs), id) && Object(Run(cfg, inputs), id).response.Some?
    requires |times| == |rounds|
    requires forall i :: 0 <= i < |rounds| ==> Meets(cfg, inputs, id, times[i], rounds[i])
    requires forall i, j :: 0 <= i < j < |times| ==> times[i] <= times[j]
    requires w.body == []
    modifies w
    ensures EndsAt(rounds, used, outcome) && outcome != LengthMismatch
    ensures var chunks := Object(Run(cfg, inputs), id).response.value.chunks;
            && Found(rounds, used) <= |chunks| && Flatten(chunks[..Found(rounds, used)]) <= w.body <= Flatten(chunks)
            && (!outcome.WriteFailed? ==> w.body == Flatten(chunks[..Found(rounds, used)]))
            && (Undisturbed(rounds) && ClosedRounds(rounds, |rounds|) > |chunks| ==> outcome.Forwarded?)
    ensures outcome.Forwarded? ==>
              var r := Object(Run(cfg, inputs), id);
              && !r.closed && r.completed
              && w.body == Flatten(ChunkData(InOf(Run(cfg, inputs).hist, id)))
              && |w.body| == r.response.value.header.contentSize
    ensures outcome.RequestWasClosed? ==> Object(Run(cfg, inputs), id).closed
  {
    ghost var chunks := Object(Run(cfg, inputs), id).response.value.chunks;
    MeetsFilling(cfg, inputs, id, times, rounds);
    outcome, used := Forward(rounds, chunks, w);
    if outcome.Forwarded? || outcome.RequestWasClosed? { MeetsEarlier(cfg, inputs, id, times[used], rounds[used]); }
    if outcome.Forwarded? {
      ClosedIsComplete(cfg, inputs, id);
      assert chunks[..|chunks|] == chunks;
    }
    if Undisturbed(rounds) && ClosedRounds(rounds, |rounds|) > |chunks| { UndisturbedEnds(rounds, used, outcome, |chunks|); }
  }

  /** What one round finds is still there in the later ones. */
  lemma LaterChunks(cfg: Config, inputs: seq<Timed>, id: nat, times: seq<nat>, rounds: seq<Round>, i: nat, j: nat)
    requires cfg.Valid() && |times| == |rounds| && i < j < |rounds| && times[i] <= times[j]
    requires Meets(cfg, inputs, id, times[i], rounds[i]) && Meets(cfg, inputs, id, times[j], rounds[j])
    ensures |rounds[i].response.chunks| <= |rounds[j].response.chunks|
  {
    var later := inputs[..times[j]];
    assert later[..times[i]] == inputs[..times[i]];
    MeetsEarlier(cfg, later, id, times[i], rounds[i]);
  }

  lemma {:induction false} FlattenPrefix(chunks: seq<seq<Byte>>, k: nat)
    requires k <= |chunks|
    ensures Flatten(chunks[..k]) <= Flatten(chunks)
    decreases |chunks|
  {
    if k < |chunks| {
      FlattenPrefix(chunks[..|chunks| - 1], k);
      assert chunks[..|chunks| - 1][..k] == chunks[..k];
    } else {
      assert chunks[..k] == chunks;
    }
  }
}
