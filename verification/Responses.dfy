/** What a handler sends for one request, compared with what the protocol allows next. */
module Responses {
  import opened Wire
  import opened Chunking
  import opened History
  import opened Handler
  import opened HandlerRuns
  import opened HandlerTheorems
  import Client

  lemma {:induction false} ChunkListAt(c: Content, chunkSize: nat, id: nat, k: nat, i: nat)
    requires 0 < chunkSize && |c.data| < U64 && k <= NumChunks(|c.data|, chunkSize)
    ensures |ChunkList(c, chunkSize, id, k)| == k
    ensures i < k ==> i < U64 && i * chunkSize < |c.data| &&
                      ChunkList(c, chunkSize, id, k)[i] == ContentChunk(id, i, Slice(c.data, chunkSize, i))
  {
    if k > 0 {
      ChunkExists(|c.data|, chunkSize, k - 1);
      Positions(k - 1, chunkSize);
      ChunkListAt(c, chunkSize, id, k - 1, i);
    }
  }

  /** The messages of a response, one by one. */
  lemma BlockAt(c: Content, chunkSize: nat, b: Block, i: nat)
    requires 0 < chunkSize && |c.data| < U64 && b.header && b.chunks <= NumChunks(|c.data|, chunkSize)
    ensures var ms := BlockMessages(c, chunkSize, b);
            && |ms| == 1 + b.chunks + (if b.closed then 1 else 0)
            && ms[0] == HeaderMessage(c, b.id)
            && (i < b.chunks ==> i < U64 && i * chunkSize < |c.data| && ms[i + 1] == ContentChunk(b.id, i, Slice(c.data, chunkSize, i)))
            && (b.closed ==> ms[|ms| - 1] == CloseResponse(b.id))
  {
    ChunkListAt(c, chunkSize, b.id, b.chunks, i);
  }

  /** Each message of a response to acceptable content may follow the ones before it. */
  lemma BlockAllowed(cfg: Config, c: Content, b: Block, k: nat)
    requires cfg.Valid() && Client.Acceptable(cfg, c) && b.header
    requires if b.closed then b.chunks < NumChunks(|c.data|, cfg.chunkSize) else b.chunks <= NumChunks(|c.data|, cfg.chunkSize)
    requires k < |BlockMessages(c, cfg.chunkSize, b)|
    ensures MayFollow(cfg, BlockMessages(c, cfg.chunkSize, b)[..k], BlockMessages(c, cfg.chunkSize, b)[k])
  {
    var ms := BlockMessages(c, cfg.chunkSize, b);
    BlockAt(c, cfg.chunkSize, b, 0);
    if k > 0 {
      BlockAt(c, cfg.chunkSize, b, k - 1);
      if k > 1 { BlockAt(c, cfg.chunkSize, b, k - 2); }
      assert ms[..k][0] == ms[0] && ms[..k][k - 1] == ms[k - 1];
    }
  }

  /** So the only message of a handler that the protocol does not allow is a bare CloseResponse. */
  lemma FormAllows(cfg: Config, c: Content, id: nat, ms: seq<ClientMessage>, form: Form, k: nat)
    requires cfg.Valid() && Client.Acceptable(cfg, c) && HasForm(c, cfg.chunkSize, id, ms, form) && k < |ms|
    ensures MayFollow(cfg, ms[..k], ms[k]) <==> !form.Dropped?
    ensures form.Dropped? <==> k == 0 && ms[k].CloseResponse?
  {
    match form {
      case Partial(n) => BlockAllowed(cfg, c, Block(id, true, n, false), k); BlockAt(c, cfg.chunkSize, Block(id, true, n, false), 0);
      case ClosedEarly(n) => BlockAllowed(cfg, c, Block(id, true, n, true), k); BlockAt(c, cfg.chunkSize, Block(id, true, n, true), 0);
      case Dropped =>
    }
  }
}
