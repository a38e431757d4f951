/** NodeManagement.GetConnectionKey (nodes/connection_key.go): an empty key is an error even on success. */
module LegacyConnectionKey {
  import opened Wrappers
  import opened Errors
  import opened Exchange
  import opened NodesPackage

  datatype GetConnectionKeyRequest = GetConnectionKeyRequest(nodeId: string)

  datatype GetConnectionKeyReply = GetConnectionKeyReply(connectionKey: string)

  function Validate(input: Option<GetConnectionKeyRequest>): (r: Option<Error>)
    ensures r.None? <==> input.Some? && input.value.nodeId != ""
    ensures input.None? ==> r == Some(Adhoc("request cannot be nil"))
    ensures input.Some? && input.value.nodeId == "" ==> r == Some(Adhoc("nodeid is required and cannot be empty"))
  {
    if input.None? then Some(Adhoc("request cannot be nil"))
    else if input.value.nodeId == "" then Some(Adhoc("nodeid is required and cannot be empty"))
    else None
  }

  /** GetConnectionKey: validation, the pipeline, then a non-empty key. */
  function GetConnectionKey(input: Option<GetConnectionKeyRequest>, ex: Exchange<GetConnectionKeyReply>): (o: Outcome<string>)
    ensures Validate(input).Some? ==> o == Fail(Validate(input).value)
    ensures o.Ok? <==> Validate(input).None? && Delivered(StatusThenSuccess(ExactlyOk), ex)
                       && ex.body.env.payload.connectionKey != ""
    ensures o.Ok? ==> o.value == ex.body.env.payload.connectionKey && o.value != ""
    ensures Validate(input).None? && Delivered(StatusThenSuccess(ExactlyOk), ex) && ex.body.env.payload.connectionKey == "" ==>
              o == Fail(Adhoc("connection key is empty in successful response"))
    ensures !o.FailWith?
    ensures o.Fail? ==> NoSentinel(o.err)
  {
    match Validate(input)
    case Some(e) => Fail(e)
    case None =>
      match Pipeline("failed to get connection key", ex)
      case Fail(e) => Fail(e)
      case FailWith(_, e) => Fail(e)
      case Ok(env) =>
        if env.payload.connectionKey == "" then Fail(Adhoc("connection key is empty in successful response"))
        else Ok(env.payload.connectionKey)
  }
}
