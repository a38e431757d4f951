/**
 * CommandManagement.ListCommands (commands/api_op_list_commands.go). As written, the step
 * meant to decode the response decodes the encoded request instead, so the success flag
 * it tests is always false. Both that behaviour and the evidently intended one are modelled.
 */
module ListCommands {
  import opened Wrappers
  import opened Errors
  import opened Exchange

  /** Filter and command entries are passed through without being interpreted. */
  datatype ListCommandsRequest = ListCommandsRequest(filter: Option<Json>, limit: int, offset: int)

  datatype ListCommandsReply = ListCommandsReply(count: int, totalCount: int, data: seq<Json>, next: string)

  datatype ListCommandsResult = ListCommandsResult(count: int, totalCount: int, commands: seq<Json>, next: string)

  const MaxLimit: int := 100

  predicate Acceptable(r: ListCommandsRequest) {
    0 <= r.limit <= MaxLimit && r.offset >= 0
  }

  /** Nil, the limit range [0, 100], then a negative offset; Filter is not checked. */
  function Validate(input: Option<ListCommandsRequest>): (r: Option<Error>)
    ensures r.None? <==> input.Some? && Acceptable(input.value)
    ensures input.None? ==> r == Some(Anedya("list commands request cannot be nil", Bare(ErrRequestNil)))
    ensures input.Some? && !(0 <= input.value.limit <= MaxLimit) ==>
              r == Some(Anedya("limit must be between 0 and 100", Bare(ErrInvalidLimit)))
    ensures input.Some? && 0 <= input.value.limit <= MaxLimit && input.value.offset < 0 ==>
              r == Some(Anedya("offset must be >= 0", Bare(ErrInvalidOffset)))
  {
    if input.None? then Some(Anedya("list commands request cannot be nil", Bare(ErrRequestNil)))
    else
      var req := input.value;
      if req.limit < 0 || req.limit > MaxLimit then Some(Anedya("limit must be between 0 and 100", Bare(ErrInvalidLimit)))
      else if req.offset < 0 then Some(Anedya("offset must be >= 0", Bare(ErrInvalidOffset)))
      else None
  }

  /**
   * What decoding the request's own bytes into the response type yields: the request's keys
   * (filter, limit, offset) name no field of the response, even under the case-insensitive
   * matching encoding/json uses, so every field keeps its zero value.
   */
  function DecodeOwnRequest(req: ListCommandsRequest): (env: Envelope<ListCommandsReply>)
    ensures !env.success && env.error == "" && env.reasonCode == ""
  {
    Envelope(false, "", "", ListCommandsReply(0, 0, [], ""))
  }

  function Result(reply: ListCommandsReply): (r: ListCommandsResult)
    ensures r.count == reply.count && r.totalCount == reply.totalCount && r.commands == reply.data && r.next == reply.next
  {
    ListCommandsResult(reply.count, reply.totalCount, reply.data, reply.next)
  }

  /**
   * ListCommands as written: after the request is sent, the response is never read; the
   * envelope comes from the request bytes, whose success flag is false.
   */
  function ListCommandsAsWritten(input: Option<ListCommandsRequest>, ex: Exchange<ListCommandsReply>): (o: Outcome<ListCommandsResult>)
    ensures Validate(input).Some? ==> o == Fail(Validate(input).value)
    ensures ex.EncodeFail? && Validate(input).None? ==> o == Fail(EncodeFailure("list commands"))
    ensures !o.Ok? && !o.FailWith?
  {
    match Validate(input)
    case Some(e) => Fail(e)
    case None =>
      match ex
      case EncodeFail(_) => Fail(EncodeFailure("list commands"))
      case BuildFail(_) => Fail(BuildFailure("list commands"))
      case TransportFail(_) => Fail(SendFailure("list commands"))
      case _ =>
        var env := DecodeOwnRequest(input.value);
        if !env.success then Fail(GetError(env.reasonCode, env.error)) else Ok(Result(env.payload))
  }

  /** As written, every valid request that gets a reply ends in AnedyaError{"", ErrUnknown}, even a successful 200 reply. */
  lemma AsWrittenRejectsEveryReply(req: ListCommandsRequest, reply: ListCommandsReply)
    requires Acceptable(req)
    ensures ListCommandsAsWritten(Some(req), Reply(200, "", Decoded(Envelope(true, "", "", reply))))
         == Fail(Anedya("", Bare(ErrUnknown)))
  {
    EmptyCodeIsUnknown("");
  }

  /** ListCommands as intended: the response is decoded from the stream, then the success flag decides. */
  function ListCommands(input: Option<ListCommandsRequest>, ex: Exchange<ListCommandsReply>): (o: Outcome<ListCommandsResult>)
    ensures Validate(input).Some? ==> o == Fail(Validate(input).value)
    ensures o.Ok? <==> input.Some? && Acceptable(input.value) && ex.Reply? && ex.body.Decoded? && ex.body.env.success
    ensures o.Ok? ==> o.value == Result(ex.body.env.payload)
    ensures !o.FailWith?
  {
    match Validate(input)
    case Some(e) => Fail(e)
    case None => Managed("list commands", Streamed, SuccessOnly, ex, Result)
  }

  /** The two agree on every outcome that is decided before a reply arrives. */
  lemma VersionsAgreeBeforeReply(input: Option<ListCommandsRequest>, ex: Exchange<ListCommandsReply>)
    requires Validate(input).Some? || ex.EncodeFail? || ex.BuildFail? || ex.TransportFail?
    ensures ListCommandsAsWritten(input, ex) == ListCommands(input, ex)
  {
  }
}
