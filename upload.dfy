/** The resumable upload of a file in chunks: every chunk but the last is
    8 MiB, the last carries the finalize command, and the server's
    `X-Goog-Upload-Status` header decides whether to go on. */
module Upload {
  import opened Wrappers
  import opened Seqs
  import opened Common
  import ApiClient

  // Error texts
  const EndOfFile := "EOF"
  const ConnectionRefused := "connection refused"
  const FileNotObject := "interface conversion: interface {} is not map[string]interface {}"
  const SendFailed := "doRequest: error sending request"

  const MaxChunkSize: nat := 8 * 1024 * 1024
  const UploadStatusKey := "X-Goog-Upload-Status"
  const ActiveStatus := "active"
  const FinalStatus := "final"
  const UploadCommand := "upload"
  const FinalizeCommand := "upload, finalize"
  const NotFinalizedAfterAll := "All content has been uploaded, but the upload status is not finalized"
  const NotFinalized := "Failed to upload file: Upload status is not finalized"

  /** What one `Read` into the chunk buffer returned. */
  datatype ReadResult = ReadResult(bytesRead: nat, err: Option<Error>)

  /** What the server answered to one chunk request: a response, or the
      error the HTTP client returned. */
  datatype Reply = Reply(response: Response) | RequestFailed(cause: Error)

  /** The headers that distinguish one chunk request from another. */
  datatype ChunkRequest = ChunkRequest(command: string, offset: nat, contentLength: nat)

  /** `min(8 MiB, uploadSize - offset)`. */
  function ChunkSize(uploadSize: nat, offset: nat): (n: nat)
    requires offset <= uploadSize
    ensures n <= MaxChunkSize && offset + n <= uploadSize
    ensures n == MaxChunkSize || offset + n == uploadSize
  {
    if uploadSize - offset < MaxChunkSize then uploadSize - offset else MaxChunkSize
  }

  /** The request for the chunk at `offset`; the command finalizes exactly
      when the chunk reaches the end of the file. */
  function ChunkAt(uploadSize: nat, offset: nat): (c: ChunkRequest)
    requires offset <= uploadSize
    ensures c.offset == offset && c.contentLength == ChunkSize(uploadSize, offset)
    ensures c.command == FinalizeCommand <==> offset + c.contentLength == uploadSize
    ensures c.command == UploadCommand <==> offset + c.contentLength < uploadSize
  {
    var n := ChunkSize(uploadSize, offset);
    ChunkRequest(if offset + n >= uploadSize then FinalizeCommand else UploadCommand, offset, n)
  }

  /** The chunk requests of a complete upload from `offset` on. */
  function Plan(uploadSize: nat, offset: nat): (p: seq<ChunkRequest>)
    requires offset <= uploadSize
    ensures |p| > 0 && p[0] == ChunkAt(uploadSize, offset)
    decreases uploadSize - offset
  {
    var c := ChunkAt(uploadSize, offset);
    if c.command == FinalizeCommand then [c]
    else [c] + Plan(uploadSize, offset + c.contentLength)
  }

  /** The total number of bytes a plan sends. */
  function Sent(p: seq<ChunkRequest>): nat {
    if p == [] then 0 else p[0].contentLength + Sent(p[1..])
  }

  /** A complete plan covers the file exactly once: consecutive offsets, only
      the last chunk finalizes, every other chunk is a full 8 MiB one. */
  lemma PlanCovers(uploadSize: nat, offset: nat)
    requires offset <= uploadSize
    ensures var p := Plan(uploadSize, offset);
            offset + Sent(p) == uploadSize
            && p[|p| - 1].command == FinalizeCommand
            && (forall k :: 0 <= k < |p| - 1 ==> p[k].command == UploadCommand && p[k].contentLength == MaxChunkSize)
            && (forall k :: 0 <= k < |p| - 1 ==> p[k + 1].offset == p[k].offset + p[k].contentLength)
  {
    PlanReachesEnd(uploadSize, offset);
    PlanChunksFollow(uploadSize, offset);
    ChunksFollowEach(Plan(uploadSize, offset));
  }

  /** A plan sends the bytes from `offset` to the end and finalizes last. */
  lemma {:induction false} PlanReachesEnd(uploadSize: nat, offset: nat)
    requires offset <= uploadSize
    ensures var p := Plan(uploadSize, offset);
            offset + Sent(p) == uploadSize && p[|p| - 1].command == FinalizeCommand
    decreases uploadSize - offset
  {
    PlanUnfolds(uploadSize, offset);
    if offset + ChunkSize(uploadSize, offset) < uploadSize {
      PlanReachesEnd(uploadSize, offset + ChunkSize(uploadSize, offset));
    }
  }

  /** Every chunk but the last is a full "upload" one, and each starts
      where the one before it ends. */
  predicate ChunksFollow(p: seq<ChunkRequest>) {
    |p| <= 1
    || (p[0].command == UploadCommand && p[0].contentLength == MaxChunkSize
        && p[1].offset == p[0].offset + p[0].contentLength
        && ChunksFollow(p[1..]))
  }

  /** The same, chunk by chunk. */
  lemma {:induction false} ChunksFollowEach(p: seq<ChunkRequest>)
    requires ChunksFollow(p)
    ensures forall k :: 0 <= k < |p| - 1 ==>
              p[k].command == UploadCommand && p[k].contentLength == MaxChunkSize
              && p[k + 1].offset == p[k].offset + p[k].contentLength
  {
    if |p| > 1 {
      var q := p[1..];
      ChunksFollowEach(q);
      forall k | 1 <= k < |p| - 1
        ensures p[k].command == UploadCommand && p[k].contentLength == MaxChunkSize
        ensures p[k + 1].offset == p[k].offset + p[k].contentLength
      {
        assert p[k] == q[k - 1] && p[k + 1] == q[k];
      }
    }
  }

  lemma {:induction false} PlanChunksFollow(uploadSize: nat, offset: nat)
    requires offset <= uploadSize
    ensures ChunksFollow(Plan(uploadSize, offset))
    decreases uploadSize - offset
  {
    PlanUnfolds(uploadSize, offset);
    if offset + ChunkSize(uploadSize, offset) < uploadSize {
      PlanChunksFollow(uploadSize, offset + ChunkSize(uploadSize, offset));
    }
  }

  /** A file of at most 8 MiB, even an empty one, goes up in a single
      finalizing request; one of 8 MiB plus one byte needs two. */
  lemma PlanSizes(uploadSize: nat)
    ensures uploadSize <= MaxChunkSize ==> Plan(uploadSize, 0) == [ChunkRequest(FinalizeCommand, 0, uploadSize)]
    ensures uploadSize == MaxChunkSize + 1 ==>
              Plan(uploadSize, 0) == [ChunkRequest(UploadCommand, 0, MaxChunkSize),
                                      ChunkRequest(FinalizeCommand, MaxChunkSize, 1)]
  {
    if uploadSize == MaxChunkSize + 1 {
      assert Plan(uploadSize, MaxChunkSize) == [ChunkRequest(FinalizeCommand, MaxChunkSize, 1)];
    }
  }

  /** The k-th read, or end of file once the reader has nothing more. */
  function ReadAt(reader: seq<ReadResult>, k: nat): ReadResult {
    if k < |reader| then reader[k] else ReadResult(0, Some(External(EndOfFile)))
  }

  /** The k-th reply, or a transport error once the server is gone. */
  function ReplyAt(replies: seq<Reply>, k: nat): Reply {
    if k < |replies| then replies[k] else RequestFailed(External(ConnectionRefused))
  }


  /** The `file` member of a final response body; the type assertion on it
      panics when it is missing or not an object. */
  function FileOf(body: map<string, Json>): (r: Result<Json, Error>)
    ensures r.Ok? <==> "file" in body && body["file"].JObject?
    ensures r.Ok? ==> r.value == body["file"]
  {
    if "file" in body && body["file"].JObject? then Ok(body["file"])
    else Err(Panicked(FileNotObject))
  }

  /** The collaborators of one upload: `reader[k]` and `replies[k]` are the
      reader's and the server's answers for the k-th chunk, `codec` decodes
      response bodies, and `requestError` is the error that building a request
      for the upload URL gives, if any. */
  datatype Upstream = Upstream(reader: seq<ReadResult>, replies: seq<Reply>, codec: Codec, requestError: Option<Error>)

  /** The checks between reading a chunk and sending it, in the source's
      order: the read error, a short read, then request construction. */
  function ChunkReadError(read: ReadResult, chunkSize: nat, offset: nat, requestError: Option<Error>)
    : (e: Option<Error>)
    ensures e.None? <==> read.err.None? && read.bytesRead == chunkSize && requestError.None?
    ensures read.err.Some? ==> e == Some(ReadFailed(chunkSize, offset, read.err.value))
    ensures read.err.None? && read.bytesRead != chunkSize ==> e == Some(ShortRead(chunkSize, offset, read.bytesRead))
    ensures read.err.None? && read.bytesRead == chunkSize && requestError.Some? ==>
              e == Some(RequestCreationFailed(offset, requestError.value))
  {
    if read.err.Some? then Some(ReadFailed(chunkSize, offset, read.err.value))
    else if read.bytesRead != chunkSize then Some(ShortRead(chunkSize, offset, read.bytesRead))
    else if requestError.Some? then Some(RequestCreationFailed(offset, requestError.value))
    else None
  }

  /** How one chunk request ended: the client failed, the response was
      rejected, or a response arrived with its decoded body. */
  datatype Answer =
    | Unsent(cause: Error)
    | Rejected(cause: Error)
    | Answered(response: Response, body: map<string, Json>)

  function AnswerOf(reply: Reply, codec: Codec): (a: Answer)
    ensures a.Unsent? <==> reply.RequestFailed?
    ensures a.Answered? <==> reply.Reply? && ApiClient.DeserializeUnaryResponse(reply.response, codec).Ok?
    ensures a.Answered? ==> a.response == reply.response
                            && a.body == ApiClient.DeserializeUnaryResponse(reply.response, codec).value
  {
    match reply
    case RequestFailed(cause) => Unsent(Wrapped(SendFailed, cause))
    case Reply(response) =>
      match ApiClient.DeserializeUnaryResponse(response, codec)
      case Ok(body) => Answered(response, body)
      case Err(e) => Rejected(e)
  }

  /** How the k-th chunk request ended. */
  function AnswerAt(up: Upstream, k: nat): Answer {
    AnswerOf(ReplyAt(up.replies, k), up.codec)
  }
  /** What the `X-Goog-Upload-Status` header of a response says to the loop. */
  datatype UploadStatus = Active | Final | Other

  function StatusOf(response: Response): (st: UploadStatus)
    ensures st == Active <==> HeaderGet(response.header, UploadStatusKey) == ActiveStatus
    ensures st == Final <==> HeaderGet(response.header, UploadStatusKey) == FinalStatus
  {
    var status := HeaderGet(response.header, UploadStatusKey);
    if status == ActiveStatus then Active else if status == FinalStatus then Final else Other
  }

  /** The k-th reply is a response with a 2xx status and a readable body
      whose upload status is `status`. */
  predicate Reports(up: Upstream, k: nat, status: UploadStatus) {
    AnswerAt(up, k).Answered? && StatusOf(AnswerAt(up, k).response) == status
  }

  /** What an upload ends with: its result and the chunk requests it sent. */
  datatype Outcome = Outcome(result: Result<Json, Error>, sent: seq<ChunkRequest>)

  /** An offset the loop can reach: inside the file, or 0 for an empty one. */
  predicate Reachable(uploadSize: nat, offset: nat) {
    offset < uploadSize || offset == 0
  }

  /** What one turn of the upload loop decides: stop with an outcome, or send
      `request` and go on with the next chunk. */
  datatype Step = Stop(outcome: Outcome) | Next(request: ChunkRequest)

  /** One turn of the loop for the k-th chunk, at `offset`: read and check
      the chunk, send it, decode the answer, and go on only while the server
      reports "active" and bytes remain. */
  function StepAt(uploadSize: nat, up: Upstream, k: nat, offset: nat): (s: Step)
    requires Reachable(uploadSize, offset)
    ensures s.Next? ==> 0 < s.request.contentLength && offset + s.request.contentLength < uploadSize
  {
    var chunkSize := ChunkSize(uploadSize, offset);
    var failure := ChunkReadError(ReadAt(up.reader, k), chunkSize, offset, up.requestError);
    if failure.Some? then Stop(Outcome(Err(failure.value), []))
    else
      var request := ChunkAt(uploadSize, offset);
      match AnswerAt(up, k)
      case Unsent(cause) => Stop(Outcome(Err(ChunkRequestFailed(offset, cause)), [request]))
      case Rejected(cause) => Stop(Outcome(Err(ChunkResponseInvalid(offset, cause)), [request]))
      case Answered(response, body) =>
        match StatusOf(response)
        case Final => Stop(Outcome(FileOf(body), [request]))
        case Other => Stop(Outcome(Err(Failure(NotFinalized)), [request]))
        case Active =>
          if uploadSize <= offset + chunkSize then Stop(Outcome(Err(Failure(NotFinalizedAfterAll)), [request]))
          else Next(request)
  }

  /** The upload from the k-th chunk, at `offset`, on: the loop's turns until
      one stops. */
  function UploadFrom(uploadSize: nat, up: Upstream, k: nat, offset: nat): Outcome
    requires Reachable(uploadSize, offset)
    decreases uploadSize - offset
  {
    match StepAt(uploadSize, up, k, offset)
    case Stop(outcome) => outcome
    case Next(request) =>
      var rest := UploadFrom(uploadSize, up, k + 1, offset + request.contentLength);
      Outcome(rest.result, [request] + rest.sent)
  }

  /** Go's `uploadFile`: the loop that sends the chunks, proved to do what
      `UploadFrom` says from the first chunk on. */
  method UploadFile(uploadSize: nat, up: Upstream) returns (result: Result<Json, Error>, sent: seq<ChunkRequest>)
    ensures Outcome(result, sent) == UploadFrom(uploadSize, up, 0, 0)
  {
    var offset: nat := 0;
    var command := UploadCommand;
    var resp: Option<Response> := None;
    var respBody: map<string, Json> := map[];
    sent := [];
    UploadLoopAgrees(uploadSize, up, [], 0);
    while true
      invariant Reachable(uploadSize, offset)
      invariant command == UploadCommand
      invariant UploadLoop(uploadSize, up, sent, offset) == UploadFrom(uploadSize, up, 0, 0)
      decreases uploadSize - offset
    {
      var k := |sent|;
      ghost var here := StepAt(uploadSize, up, k, offset);
      var chunkSize := ChunkSize(uploadSize, offset);
      if offset + chunkSize >= uploadSize {
        command := command + ", finalize";
        FinalizeExtendsUpload();
      }
      var failure := ChunkReadError(ReadAt(up.reader, k), chunkSize, offset, up.requestError);
      if failure.Some? {
        assert here == Stop(Outcome(Err(failure.value), []));
        return Err(failure.value), sent;
      }
      var request := ChunkRequest(command, offset, chunkSize);
      assert request == ChunkAt(uploadSize, offset);
      sent := sent + [request];
      var reply := ReplyAt(up.replies, k);
      var answer := AnswerOf(reply, up.codec);
      if answer.Unsent? {
        assert here == Stop(Outcome(Err(ChunkRequestFailed(offset, answer.cause)), [request]));
        return Err(ChunkRequestFailed(offset, answer.cause)), sent;
      }
      resp := Some(reply.response);
      if answer.Rejected? {
        assert here == Stop(Outcome(Err(ChunkResponseInvalid(offset, answer.cause)), [request]));
        return Err(ChunkResponseInvalid(offset, answer.cause)), sent;
      }
      respBody := answer.body;
      offset := offset + chunkSize;
      var uploadStatus := HeaderGet(resp.value.header, UploadStatusKey);
      assert uploadStatus == "active" <==> StatusOf(reply.response) == Active;
      if uploadStatus != "active" {
        assert here == Stop(Outcome(if uploadStatus == "final" then FileOf(respBody) else Err(Failure(NotFinalized)), [request]));
        break;
      }
      if uploadSize <= offset {
        assert here == Stop(Outcome(Err(Failure(NotFinalizedAfterAll)), [request]));
        return Err(Failure(NotFinalizedAfterAll)), sent;
      }
      assert here == Next(request);
    }
    // The loop leaves only after a chunk was answered, so `resp` is set here.
    assert resp.Some?;
    var finalStatus := HeaderGet(resp.value.header, UploadStatusKey);
    if finalStatus != "final" {
      return Err(Failure(NotFinalized)), sent;
    }
    result := FileOf(respBody);
  }

  lemma FinalizeExtendsUpload()
    ensures UploadCommand + ", finalize" == FinalizeCommand
  {
  }

  /** The loop as the method runs it: the requests sent so far, then the
      turns from the next chunk on. */
  function UploadLoop(uploadSize: nat, up: Upstream, sent: seq<ChunkRequest>, offset: nat): Outcome
    requires Reachable(uploadSize, offset)
    decreases uploadSize - offset
  {
    match StepAt(uploadSize, up, |sent|, offset)
    case Stop(o) => Outcome(o.result, sent + o.sent)
    case Next(request) => UploadLoop(uploadSize, up, sent + [request], offset + request.contentLength)
  }

  /** One turn of the method's loop: a turn that stops adds its requests to
      those sent, one that goes on carries its request into the next turn. */
  lemma UploadLoopUnfolds(uploadSize: nat, up: Upstream, sent: seq<ChunkRequest>, offset: nat)
    requires Reachable(uploadSize, offset)
    ensures var s := StepAt(uploadSize, up, |sent|, offset);
            (s.Stop? ==> UploadLoop(uploadSize, up, sent, offset) == Outcome(s.outcome.result, sent + s.outcome.sent))
            && (s.Next? ==> UploadLoop(uploadSize, up, sent, offset)
                            == UploadLoop(uploadSize, up, sent + [s.request], offset + s.request.contentLength))
  {
  }

  lemma PrependJoins(sent: seq<ChunkRequest>, request: ChunkRequest, rest: Outcome, o: Outcome, u: Outcome)
    requires o == Outcome(rest.result, sent + [request] + rest.sent)
    requires u == Outcome(rest.result, [request] + rest.sent)
    ensures o == Outcome(u.result, sent + u.sent)
  {
    assert sent + [request] + rest.sent == sent + ([request] + rest.sent);
  }

  /** The method's loop computes the upload: what it has sent, followed by
      the upload from the next chunk on. */
  lemma {:induction false} UploadLoopAgrees(uploadSize: nat, up: Upstream, sent: seq<ChunkRequest>, offset: nat)
    requires Reachable(uploadSize, offset)
    ensures var rest := UploadFrom(uploadSize, up, |sent|, offset);
            UploadLoop(uploadSize, up, sent, offset) == Outcome(rest.result, sent + rest.sent)
    decreases uploadSize - offset
  {
    var s := StepAt(uploadSize, up, |sent|, offset);
    UploadUnfolds(uploadSize, up, |sent|, offset);
    UploadLoopUnfolds(uploadSize, up, sent, offset);
    if s.Next? {
      var next := offset + s.request.contentLength;
      UploadLoopAgrees(uploadSize, up, sent + [s.request], next);
      PrependJoins(sent, s.request, UploadFrom(uploadSize, up, |sent| + 1, next),
                   UploadLoop(uploadSize, up, sent, offset), UploadFrom(uploadSize, up, |sent|, offset));
    }
  }

  /** One turn of the loop in terms of the rest of the upload: a turn that
      stops gives the outcome, one that goes on prepends its request. */
  lemma UploadUnfolds(uploadSize: nat, up: Upstream, k: nat, offset: nat)
    requires Reachable(uploadSize, offset)
    ensures var s := StepAt(uploadSize, up, k, offset);
            (s.Stop? ==> UploadFrom(uploadSize, up, k, offset) == s.outcome)
            && (s.Next? ==>
                  var rest := UploadFrom(uploadSize, up, k + 1, offset + s.request.contentLength);
                  UploadFrom(uploadSize, up, k, offset) == Outcome(rest.result, [s.request] + rest.sent))
  {
  }

  /** A turn that goes on sent the planned request, an "upload" one, after
      reading its chunk whole, and the server answered "active"; the upload
      is that request followed by the upload from the next chunk. */
  lemma UploadGoesOn(uploadSize: nat, up: Upstream, k: nat, offset: nat)
    requires Reachable(uploadSize, offset) && StepAt(uploadSize, up, k, offset).Next?
    ensures var c := ChunkAt(uploadSize, offset);
            var next := offset + ChunkSize(uploadSize, offset);
            c.command == UploadCommand && Reachable(uploadSize, next)
            && Reports(up, k, Active) && ReadAt(up.reader, k) == ReadResult(c.contentLength, None)
            && up.requestError.None?
            && UploadFrom(uploadSize, up, k, offset)
               == Outcome(UploadFrom(uploadSize, up, k + 1, next).result, [c] + UploadFrom(uploadSize, up, k + 1, next).sent)
  {
    UploadUnfolds(uploadSize, up, k, offset);
  }

  /** The outcome `o` of a turn that stops at the k-th chunk, at `offset`,
      case by case: before sending when the read or the request fails,
      otherwise after sending the chunk, with the error or the result its
      answer calls for. */
  predicate StoppedAt(uploadSize: nat, up: Upstream, k: nat, offset: nat, o: Outcome)
    requires Reachable(uploadSize, offset)
  {
    var failure := ChunkReadError(ReadAt(up.reader, k), ChunkSize(uploadSize, offset), offset, up.requestError);
    var a := AnswerAt(up, k);
    (o.sent == [] <==> failure.Some?)
    && (o.sent == [] ==> o.result == Err(failure.value))
    && (o.sent != [] ==> o.sent == [ChunkAt(uploadSize, offset)])
    && (o.sent != [] && a.Unsent? ==> o.result == Err(ChunkRequestFailed(offset, a.cause)))
    && (o.sent != [] && a.Rejected? ==> o.result == Err(ChunkResponseInvalid(offset, a.cause)))
    && (o.sent != [] && Reports(up, k, Final) ==> o.result == FileOf(a.body))
    && (o.sent != [] && Reports(up, k, Other) ==> o.result == Err(Failure(NotFinalized)))
    && (o.sent != [] && Reports(up, k, Active) ==>
          o.result == Err(Failure(NotFinalizedAfterAll)) && o.sent[0].command == FinalizeCommand)
    && (o.result.Ok? ==> o.sent != [] && Reports(up, k, Final))
    && (o.result == Err(Failure(NotFinalizedAfterAll)) ==> o.sent != [] && Reports(up, k, Active))
  }

  lemma UploadStops(uploadSize: nat, up: Upstream, k: nat, offset: nat)
    requires Reachable(uploadSize, offset) && StepAt(uploadSize, up, k, offset).Stop?
    ensures StoppedAt(uploadSize, up, k, offset, UploadFrom(uploadSize, up, k, offset))
  {
    UploadUnfolds(uploadSize, up, k, offset);
  }

  /** A chunk read whole, whose request can be built and whose answer says
      "active", lets the loop go on when bytes remain after it. */
  lemma StepProceeds(uploadSize: nat, up: Upstream, k: nat, offset: nat)
    requires Reachable(uploadSize, offset) && up.requestError.None?
    requires ReadAt(up.reader, k) == ReadResult(ChunkSize(uploadSize, offset), None)
    requires Reports(up, k, Active) && offset + ChunkSize(uploadSize, offset) < uploadSize
    ensures Reachable(uploadSize, offset + ChunkSize(uploadSize, offset))
    ensures var rest := UploadFrom(uploadSize, up, k + 1, offset + ChunkSize(uploadSize, offset));
            UploadFrom(uploadSize, up, k, offset) == Outcome(rest.result, [ChunkAt(uploadSize, offset)] + rest.sent)
  {
    assert StepAt(uploadSize, up, k, offset) == Next(ChunkAt(uploadSize, offset));
    UploadUnfolds(uploadSize, up, k, offset);
  }

  /** A chunk read whole, whose request can be built and whose answer says
      "final", ends the upload with the `file` member of that answer. */
  lemma StepFinishes(uploadSize: nat, up: Upstream, k: nat, offset: nat)
    requires Reachable(uploadSize, offset) && up.requestError.None?
    requires ReadAt(up.reader, k) == ReadResult(ChunkSize(uploadSize, offset), None)
    requires Reports(up, k, Final)
    ensures UploadFrom(uploadSize, up, k, offset)
            == Outcome(FileOf(AnswerAt(up, k).body), [ChunkAt(uploadSize, offset)])
  {
    assert StepAt(uploadSize, up, k, offset) == Stop(Outcome(FileOf(AnswerAt(up, k).body), [ChunkAt(uploadSize, offset)]));
    UploadUnfolds(uploadSize, up, k, offset);
  }

  // What every outcome of the loop satisfies, stated of the outcome `o` of
  // the loop started at the k-th chunk, at `offset`; for each, a lemma that
  // a turn which goes on keeps it, and one that every upload has it.

  /** The requests sent are a prefix of the complete plan, and all of it
      once the last one sent finalizes. */
  predicate SentFollowsPlan(uploadSize: nat, offset: nat, o: Outcome)
    requires Reachable(uploadSize, offset)
  {
    o.sent <= Plan(uploadSize, offset)
    && (o.sent != [] && o.sent[|o.sent| - 1].command == FinalizeCommand ==> o.sent == Plan(uploadSize, offset))
  }

  lemma PrependFollowsPlan(uploadSize: nat, offset: nat, o: Outcome, rest: Outcome)
    requires Reachable(uploadSize, offset) && ChunkAt(uploadSize, offset).command == UploadCommand
    requires o == Outcome(rest.result, [ChunkAt(uploadSize, offset)] + rest.sent)
    requires SentFollowsPlan(uploadSize, offset + ChunkSize(uploadSize, offset), rest)
    ensures SentFollowsPlan(uploadSize, offset, o)
  {
    PlanUnfolds(uploadSize, offset);
    if rest.sent != [] {
      assert o.sent[|o.sent| - 1] == rest.sent[|rest.sent| - 1];
    }
  }


  lemma StopFollowsPlan(uploadSize: nat, up: Upstream, k: nat, offset: nat, o: Outcome)
    requires Reachable(uploadSize, offset) && StoppedAt(uploadSize, up, k, offset, o)
    ensures SentFollowsPlan(uploadSize, offset, o)
  {
    PlanUnfolds(uploadSize, offset);
  }

  lemma {:induction false} UploadFollowsPlan(uploadSize: nat, up: Upstream, k: nat, offset: nat)
    requires Reachable(uploadSize, offset)
    ensures SentFollowsPlan(uploadSize, offset, UploadFrom(uploadSize, up, k, offset))
    decreases uploadSize - offset
  {
    if StepAt(uploadSize, up, k, offset).Next? {
      UploadGoesOn(uploadSize, up, k, offset);
      var next := offset + ChunkSize(uploadSize, offset);
      UploadFollowsPlan(uploadSize, up, k + 1, next);
      PrependFollowsPlan(uploadSize, offset, UploadFrom(uploadSize, up, k, offset), UploadFrom(uploadSize, up, k + 1, next));
    } else {
      UploadStops(uploadSize, up, k, offset);
      StopFollowsPlan(uploadSize, up, k, offset, UploadFrom(uploadSize, up, k, offset));
    }
  }

  /** Every chunk sent was read whole and without error, and the request for
      it could be built. */
  predicate ChunksReadWhole(up: Upstream, k: nat, o: Outcome) {
    (o.sent != [] ==> up.requestError.None?)
    && forall i :: k <= i < k + |o.sent| ==> ReadAt(up.reader, i) == ReadResult(o.sent[i - k].contentLength, None)
  }

  lemma PrependReadsWhole(up: Upstream, k: nat, o: Outcome, rest: Outcome, request: ChunkRequest)
    requires up.requestError.None? && ReadAt(up.reader, k) == ReadResult(request.contentLength, None)
    requires o == Outcome(rest.result, [request] + rest.sent)
    requires ChunksReadWhole(up, k + 1, rest)
    ensures ChunksReadWhole(up, k, o)
  {
    forall i | k < i < k + |o.sent|
      ensures ReadAt(up.reader, i) == ReadResult(o.sent[i - k].contentLength, None)
    {
      assert o.sent[i - k] == rest.sent[i - (k + 1)];
    }
  }

  lemma StopReadsWhole(uploadSize: nat, up: Upstream, k: nat, offset: nat, o: Outcome)
    requires Reachable(uploadSize, offset) && StoppedAt(uploadSize, up, k, offset, o)
    ensures ChunksReadWhole(up, k, o)
  {
  }

  lemma {:induction false} UploadReadsWholeChunks(uploadSize: nat, up: Upstream, k: nat, offset: nat)
    requires Reachable(uploadSize, offset)
    ensures ChunksReadWhole(up, k, UploadFrom(uploadSize, up, k, offset))
    decreases uploadSize - offset
  {
    if StepAt(uploadSize, up, k, offset).Next? {
      UploadGoesOn(uploadSize, up, k, offset);
      var next := offset + ChunkSize(uploadSize, offset);
      UploadReadsWholeChunks(uploadSize, up, k + 1, next);
      PrependReadsWhole(up, k, UploadFrom(uploadSize, up, k, offset), UploadFrom(uploadSize, up, k + 1, next), ChunkAt(uploadSize, offset));
    } else {
      UploadStops(uploadSize, up, k, offset);
      StopReadsWhole(uploadSize, up, k, offset, UploadFrom(uploadSize, up, k, offset));
    }
  }

  /** The server answered "active" to every chunk before the last one sent. */
  predicate EarlierChunksActive(up: Upstream, k: nat, o: Outcome) {
    forall i :: k <= i < k + |o.sent| - 1 ==> Reports(up, i, Active)
  }

  lemma PrependKeepsActive(up: Upstream, k: nat, o: Outcome, rest: Outcome, request: ChunkRequest)
    requires Reports(up, k, Active)
    requires o == Outcome(rest.result, [request] + rest.sent)
    requires EarlierChunksActive(up, k + 1, rest)
    ensures EarlierChunksActive(up, k, o)
  {
  }

  lemma StopKeepsActive(uploadSize: nat, up: Upstream, k: nat, offset: nat, o: Outcome)
    requires Reachable(uploadSize, offset) && StoppedAt(uploadSize, up, k, offset, o)
    ensures EarlierChunksActive(up, k, o)
  {
  }

  lemma {:induction false} UploadEarlierChunksActive(uploadSize: nat, up: Upstream, k: nat, offset: nat)
    requires Reachable(uploadSize, offset)
    ensures EarlierChunksActive(up, k, UploadFrom(uploadSize, up, k, offset))
    decreases uploadSize - offset
  {
    if StepAt(uploadSize, up, k, offset).Next? {
      UploadGoesOn(uploadSize, up, k, offset);
      var next := offset + ChunkSize(uploadSize, offset);
      UploadEarlierChunksActive(uploadSize, up, k + 1, next);
      PrependKeepsActive(up, k, UploadFrom(uploadSize, up, k, offset), UploadFrom(uploadSize, up, k + 1, next), ChunkAt(uploadSize, offset));
    } else {
      UploadStops(uploadSize, up, k, offset);
      StopKeepsActive(uploadSize, up, k, offset, UploadFrom(uploadSize, up, k, offset));
    }
  }

  /** The upload succeeds only when the last chunk sent is answered "final",
      and then its result is the `file` member of that answer. */
  predicate SucceedsOnFinal(up: Upstream, k: nat, o: Outcome) {
    var last := k + |o.sent| - 1;
    (o.result.Ok? ==> o.sent != [] && Reports(up, last, Final))
    && (o.sent != [] && Reports(up, last, Final) ==> o.result == FileOf(AnswerAt(up, last).body))
  }

  lemma PrependKeepsSuccess(up: Upstream, k: nat, o: Outcome, rest: Outcome, request: ChunkRequest)
    requires Reports(up, k, Active)
    requires o == Outcome(rest.result, [request] + rest.sent)
    requires SucceedsOnFinal(up, k + 1, rest)
    ensures SucceedsOnFinal(up, k, o)
  {
    assert k + |o.sent| - 1 == (k + 1) + |rest.sent| - 1;
  }

  lemma StopKeepsSuccess(uploadSize: nat, up: Upstream, k: nat, offset: nat, o: Outcome)
    requires Reachable(uploadSize, offset) && StoppedAt(uploadSize, up, k, offset, o)
    ensures SucceedsOnFinal(up, k, o)
  {
  }

  lemma {:induction false} UploadSucceedsOnFinal(uploadSize: nat, up: Upstream, k: nat, offset: nat)
    requires Reachable(uploadSize, offset)
    ensures SucceedsOnFinal(up, k, UploadFrom(uploadSize, up, k, offset))
    decreases uploadSize - offset
  {
    if StepAt(uploadSize, up, k, offset).Next? {
      UploadGoesOn(uploadSize, up, k, offset);
      var next := offset + ChunkSize(uploadSize, offset);
      UploadSucceedsOnFinal(uploadSize, up, k + 1, next);
      PrependKeepsSuccess(up, k, UploadFrom(uploadSize, up, k, offset), UploadFrom(uploadSize, up, k + 1, next), ChunkAt(uploadSize, offset));
    } else {
      UploadStops(uploadSize, up, k, offset);
      StopKeepsSuccess(uploadSize, up, k, offset, UploadFrom(uploadSize, up, k, offset));
    }
  }

  /** The two "not finalized" errors: the server still says "active" after
      the finalizing chunk, or it answers the last chunk sent with a status
      other than "active" and "final". */
  predicate NotFinalizedCases(up: Upstream, k: nat, o: Outcome) {
    var last := k + |o.sent| - 1;
    (o.result == Err(Failure(NotFinalizedAfterAll)) <==>
       o.sent != [] && Reports(up, last, Active) && o.sent[|o.sent| - 1].command == FinalizeCommand)
    && (o.sent != [] && Reports(up, last, Other) ==> o.result == Err(Failure(NotFinalized)))
  }

  lemma PrependKeepsNotFinalized(up: Upstream, k: nat, o: Outcome, rest: Outcome, request: ChunkRequest)
    requires Reports(up, k, Active) && request.command == UploadCommand
    requires o == Outcome(rest.result, [request] + rest.sent)
    requires NotFinalizedCases(up, k + 1, rest)
    ensures NotFinalizedCases(up, k, o)
  {
    assert k + |o.sent| - 1 == (k + 1) + |rest.sent| - 1;
    if rest.sent != [] {
      assert o.sent[|o.sent| - 1] == rest.sent[|rest.sent| - 1];
    }
  }

  lemma StopKeepsNotFinalized(uploadSize: nat, up: Upstream, k: nat, offset: nat, o: Outcome)
    requires Reachable(uploadSize, offset) && StoppedAt(uploadSize, up, k, offset, o)
    ensures NotFinalizedCases(up, k, o)
  {
  }

  lemma {:induction false} UploadNotFinalized(uploadSize: nat, up: Upstream, k: nat, offset: nat)
    requires Reachable(uploadSize, offset)
    ensures NotFinalizedCases(up, k, UploadFrom(uploadSize, up, k, offset))
    decreases uploadSize - offset
  {
    if StepAt(uploadSize, up, k, offset).Next? {
      UploadGoesOn(uploadSize, up, k, offset);
      var next := offset + ChunkSize(uploadSize, offset);
      UploadNotFinalized(uploadSize, up, k + 1, next);
      PrependKeepsNotFinalized(up, k, UploadFrom(uploadSize, up, k, offset), UploadFrom(uploadSize, up, k + 1, next), ChunkAt(uploadSize, offset));
    } else {
      UploadStops(uploadSize, up, k, offset);
      StopKeepsNotFinalized(uploadSize, up, k, offset, UploadFrom(uploadSize, up, k, offset));
    }
  }

  /** A last chunk whose request failed or whose answer was rejected ends
      the upload with an error that names that chunk's offset. */
  predicate FailedChunkNamed(up: Upstream, k: nat, o: Outcome) {
    var last := k + |o.sent| - 1;
    (o.sent != [] && AnswerAt(up, last).Unsent? ==>
       o.result == Err(ChunkRequestFailed(o.sent[|o.sent| - 1].offset, AnswerAt(up, last).cause)))
    && (o.sent != [] && AnswerAt(up, last).Rejected? ==>
       o.result == Err(ChunkResponseInvalid(o.sent[|o.sent| - 1].offset, AnswerAt(up, last).cause)))
  }

  lemma PrependKeepsFailedChunk(up: Upstream, k: nat, o: Outcome, rest: Outcome, request: ChunkRequest)
    requires Reports(up, k, Active)
    requires o == Outcome(rest.result, [request] + rest.sent)
    requires FailedChunkNamed(up, k + 1, rest)
    ensures FailedChunkNamed(up, k, o)
  {
    assert k + |o.sent| - 1 == (k + 1) + |rest.sent| - 1;
    if rest.sent != [] {
      assert o.sent[|o.sent| - 1] == rest.sent[|rest.sent| - 1];
    }
  }

  lemma StopKeepsFailedChunk(uploadSize: nat, up: Upstream, k: nat, offset: nat, o: Outcome)
    requires Reachable(uploadSize, offset) && StoppedAt(uploadSize, up, k, offset, o)
    ensures FailedChunkNamed(up, k, o)
  {
  }

  lemma {:induction false} UploadChunkFails(uploadSize: nat, up: Upstream, k: nat, offset: nat)
    requires Reachable(uploadSize, offset)
    ensures FailedChunkNamed(up, k, UploadFrom(uploadSize, up, k, offset))
    decreases uploadSize - offset
  {
    if StepAt(uploadSize, up, k, offset).Next? {
      UploadGoesOn(uploadSize, up, k, offset);
      var next := offset + ChunkSize(uploadSize, offset);
      UploadChunkFails(uploadSize, up, k + 1, next);
      PrependKeepsFailedChunk(up, k, UploadFrom(uploadSize, up, k, offset), UploadFrom(uploadSize, up, k + 1, next), ChunkAt(uploadSize, offset));
    } else {
      UploadStops(uploadSize, up, k, offset);
      StopKeepsFailedChunk(uploadSize, up, k, offset, UploadFrom(uploadSize, up, k, offset));
    }
  }

  /** When the upload stops without sending the chunk after the last one it
      sent (or without sending any), the reason is that chunk's read or its
      request construction, reported at that chunk's offset. */
  predicate StopsBeforeChunk(uploadSize: nat, up: Upstream, k: nat, offset: nat, o: Outcome)
    requires Reachable(uploadSize, offset)
  {
    var n := k + |o.sent|;
    var next := if o.sent == [] then offset else o.sent[|o.sent| - 1].offset + o.sent[|o.sent| - 1].contentLength;
    (o.sent == [] || (Reports(up, n - 1, Active) && o.sent[|o.sent| - 1].command == UploadCommand)) ==>
      (Reachable(uploadSize, next)
       && var e := ChunkReadError(ReadAt(up.reader, n), ChunkSize(uploadSize, next), next, up.requestError);
          e.Some? && o.result == Err(e.value))
  }

  lemma PrependKeepsStop(uploadSize: nat, up: Upstream, k: nat, offset: nat, o: Outcome, rest: Outcome)
    requires Reachable(uploadSize, offset) && Reachable(uploadSize, offset + ChunkSize(uploadSize, offset))
    requires o == Outcome(rest.result, [ChunkAt(uploadSize, offset)] + rest.sent)
    requires StopsBeforeChunk(uploadSize, up, k + 1, offset + ChunkSize(uploadSize, offset), rest)
    ensures StopsBeforeChunk(uploadSize, up, k, offset, o)
  {
    assert k + |o.sent| == (k + 1) + |rest.sent|;
    if rest.sent != [] {
      assert o.sent[|o.sent| - 1] == rest.sent[|rest.sent| - 1];
    }
  }


  lemma StopKeepsStop(uploadSize: nat, up: Upstream, k: nat, offset: nat, o: Outcome)
    requires Reachable(uploadSize, offset) && StoppedAt(uploadSize, up, k, offset, o)
    ensures StopsBeforeChunk(uploadSize, up, k, offset, o)
  {
    if o.sent != [] {
      assert o.sent[|o.sent| - 1].command == FinalizeCommand || !Reports(up, k, Active);
    }
  }

  lemma {:induction false} UploadStopsBeforeChunk(uploadSize: nat, up: Upstream, k: nat, offset: nat)
    requires Reachable(uploadSize, offset)
    ensures StopsBeforeChunk(uploadSize, up, k, offset, UploadFrom(uploadSize, up, k, offset))
    decreases uploadSize - offset
  {
    if StepAt(uploadSize, up, k, offset).Next? {
      UploadGoesOn(uploadSize, up, k, offset);
      var next := offset + ChunkSize(uploadSize, offset);
      UploadStopsBeforeChunk(uploadSize, up, k + 1, next);
      PrependKeepsStop(uploadSize, up, k, offset, UploadFrom(uploadSize, up, k, offset), UploadFrom(uploadSize, up, k + 1, next));
    } else {
      UploadStops(uploadSize, up, k, offset);
      StopKeepsStop(uploadSize, up, k, offset, UploadFrom(uploadSize, up, k, offset));
    }
  }

  /** The reader and the server cooperate from the k-th chunk, at `offset`,
      on: every chunk reads whole, and the server answers "active" to every
      chunk but the last and "final" to the last. */
  predicate ServedFrom(uploadSize: nat, up: Upstream, k: nat, offset: nat)
    requires offset <= uploadSize
    decreases uploadSize - offset
  {
    ReadAt(up.reader, k) == ReadResult(ChunkSize(uploadSize, offset), None)
    && if offset + ChunkSize(uploadSize, offset) < uploadSize
       then Reports(up, k, Active) && ServedFrom(uploadSize, up, k + 1, offset + ChunkSize(uploadSize, offset))
       else Reports(up, k, Final)
  }

  /** A plan is its first request followed by the plan after it. */
  lemma PlanUnfolds(uploadSize: nat, offset: nat)
    requires offset <= uploadSize
    ensures offset + ChunkSize(uploadSize, offset) == uploadSize ==>
              Plan(uploadSize, offset) == [ChunkAt(uploadSize, offset)]
    ensures offset + ChunkSize(uploadSize, offset) < uploadSize ==>
              var next := offset + ChunkSize(uploadSize, offset);
              Plan(uploadSize, offset) == [ChunkAt(uploadSize, offset)] + Plan(uploadSize, next)
              && Plan(uploadSize, offset)[1..] == Plan(uploadSize, next)
  {
    var c := ChunkAt(uploadSize, offset);
    if c.command == UploadCommand {
      var q := Plan(uploadSize, offset + c.contentLength);
      assert ([c] + q)[1..] == q;
    }
  }

  /** The upload from the k-th chunk on sent exactly `p`, the last chunk was
      answered, and the result is the `file` member of that answer. */
  predicate SentPlanAndFile(up: Upstream, k: nat, p: seq<ChunkRequest>, o: Outcome) {
    o.sent == p && p != []
    && AnswerAt(up, k + |p| - 1).Answered? && o.result == FileOf(AnswerAt(up, k + |p| - 1).body)
  }

  lemma PrependKeepsPlanAndFile(up: Upstream, k: nat, c: ChunkRequest, q: seq<ChunkRequest>, o: Outcome, rest: Outcome)
    requires o == Outcome(rest.result, [c] + rest.sent)
    requires SentPlanAndFile(up, k + 1, q, rest)
    ensures SentPlanAndFile(up, k, [c] + q, o)
  {
    assert k + |[c] + q| - 1 == (k + 1) + |q| - 1;
  }

  lemma LastKeepsPlanAndFile(up: Upstream, k: nat, c: ChunkRequest, o: Outcome)
    requires AnswerAt(up, k).Answered? && o == Outcome(FileOf(AnswerAt(up, k).body), [c])
    ensures SentPlanAndFile(up, k, [c], o)
  {
  }

  /** When every chunk of the plan reads whole, requests can be built, and
      the server answers "active" to every chunk but the last and "final" to
      the last, the upload sends exactly the plan and returns the `file`
      member of the final answer. */
  lemma {:induction false} UploadCompletes(uploadSize: nat, up: Upstream, k: nat, offset: nat)
    requires Reachable(uploadSize, offset)
    requires up.requestError.None? && ServedFrom(uploadSize, up, k, offset)
    ensures SentPlanAndFile(up, k, Plan(uploadSize, offset), UploadFrom(uploadSize, up, k, offset))
    decreases uploadSize - offset
  {
    PlanUnfolds(uploadSize, offset);
    if offset + ChunkSize(uploadSize, offset) < uploadSize {
      var next := offset + ChunkSize(uploadSize, offset);
      StepProceeds(uploadSize, up, k, offset);
      UploadCompletes(uploadSize, up, k + 1, next);
      PrependKeepsPlanAndFile(up, k, ChunkAt(uploadSize, offset), Plan(uploadSize, next),
                              UploadFrom(uploadSize, up, k, offset), UploadFrom(uploadSize, up, k + 1, next));
    } else {
      StepFinishes(uploadSize, up, k, offset);
      LastKeepsPlanAndFile(up, k, ChunkAt(uploadSize, offset), UploadFrom(uploadSize, up, k, offset));
    }
  }
}
