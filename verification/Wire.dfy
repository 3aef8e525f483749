/** The messages of api/messages.proto that the two protocol machines exchange,
    and the limits a server announces in its Hello message. */
module Wire {
  type Byte = bv8

  const U64: nat := 0x1_0000_0000_0000_0000

  type u64 = x: nat | x < U64

  /** No id occurs twice. */
  predicate NoRepeats(ids: seq<nat>) {
    forall i, j :: 0 <= i < j < |ids| ==> ids[i] != ids[j]
  }

  datatype Option<+T> = None | Some(value: T)

  datatype Header = Header(
    requestId: nat,
    contentType: string,
    contentSize: u64,
    maxCacheDuration: Option<nat>,
    filename: Option<string>)

  datatype ClientMessage =
    | EmptyResponse(requestId: nat)
    | ContentHeader(header: Header)
    | ContentChunk(requestId: nat, sequence: u64, data: seq<Byte>)
    | CloseResponse(requestId: nat)
  {
    function Id(): nat {
      if ContentHeader? then header.requestId else requestId
    }
  }

  datatype Reason =
    | Closed
    | InvalidClientMessage
    | InvalidRequestId
    | ForbiddenContentType
    | InvalidContentSize
    | ChunkOutOfSequence
    | InvalidChunkSize
    | InvalidFilename
    | TimedOut

  datatype ServerMessage =
    | RequestMsg(id: nat, path: string)
    | Success(id: nat)
    | RequestClosed(id: nat, message: string)
    | Close(reason: Reason)

  /** The protocol options of a server (pkg/server/config.go). */
  datatype Config = Config(
    chunkSize: u64,
    maxContentSize: u64,
    contentTypes: set<string>,
    clientTimeout: nat)
  {
    /** What the options' own validation establishes before a client is created. */
    predicate Valid() {
      0 < chunkSize <= maxContentSize && 0 < clientTimeout
    }
  }

  /** The type and subtype of a Content-Type value: everything before the first ';'. */
  function MediaType(contentType: string): string {
    if contentType == [] || contentType[0] == ';' then []
    else [contentType[0]] + MediaType(contentType[1..])
  }

  /** The conditions a content header has to meet, regardless of the request it answers. */
  predicate HeaderAllowed(cfg: Config, header: Header) {
    && 0 < header.contentSize <= cfg.maxContentSize
    && (header.filename.Some? ==> header.filename.value != [])
    && MediaType(header.contentType) in cfg.contentTypes
  }
}
