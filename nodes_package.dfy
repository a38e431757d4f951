/**
 * The pipeline the older files of the nodes package share (nodes/add_child_node.go,
 * nodes/list_nodes.go, nodes/get_node_details.go, nodes/connection_key.go): foreign errors
 * wrapped with %w, the body decoded from the stream, then exactly 200, then the success flag.
 */
module NodesPackage {
  import opened Wrappers
  import opened Errors
  import opened Exchange
  import opened Text

  function StatusError<P>(status: int, env: Envelope<P>): Error {
    Adhoc("API error " + Decimal(status) + ": " + env.error + " (reason: " + env.reasonCode + ")")
  }

  /** The error for a cleared flag, headed by the operation's own `failText`. */
  function FlagError<P>(failText: string, env: Envelope<P>): Error {
    Adhoc(failText + ": " + env.error + " (reason: " + env.reasonCode + ")")
  }

  function DecodeError(cause: string): Error {
    WrapForeign("failed to decode API response: ", cause)
  }

  /** The response handed on when the reply passes both checks. */
  function Pipeline<P>(failText: string, ex: Exchange<P>): (o: Outcome<Envelope<P>>)
    ensures !o.FailWith?
    ensures o.Ok? <==> Delivered(StatusThenSuccess(ExactlyOk), ex)
    ensures o.Ok? ==> o.value == ex.body.env
    ensures ex.EncodeFail? ==> o == Fail(WrapForeign("failed to marshal request: ", ex.cause))
    ensures ex.BuildFail? ==> o == Fail(WrapForeign("failed to create HTTP request: ", ex.cause))
    ensures ex.TransportFail? ==> o == Fail(WrapForeign("request failed: ", ex.cause))
    ensures ex.ReadFail? ==> o == Fail(DecodeError(ex.cause))
    ensures ex.Reply? && ex.body.Undecodable? ==> o == Fail(DecodeError(ex.body.cause))
    ensures ex.Reply? && ex.body.Decoded? && ex.status != 200 ==> o == Fail(StatusError(ex.status, ex.body.env))
    ensures ex.Reply? && ex.body.Decoded? && ex.status == 200 && !ex.body.env.success ==>
              o == Fail(FlagError(failText, ex.body.env))
    ensures o.Fail? ==> NoSentinel(o.err)
  {
    match ex
    case EncodeFail(cause) => Fail(WrapForeign("failed to marshal request: ", cause))
    case BuildFail(cause) => Fail(WrapForeign("failed to create HTTP request: ", cause))
    case TransportFail(cause) => Fail(WrapForeign("request failed: ", cause))
    case ReadFail(cause) => Fail(DecodeError(cause))
    case Reply(_, _, Undecodable(cause)) => Fail(DecodeError(cause))
    case Reply(status, _, Decoded(env)) =>
      if status != 200 then Fail(StatusError(status, env))
      else if !env.success then Fail(FlagError(failText, env))
      else Ok(env)
  }

  /** The older pipeline accepts exactly the replies the newer exact-200 pipeline accepts. */
  lemma AcceptsLikeManagedExactlyOk<P>(failText: string, endpoint: string, ex: Exchange<P>)
    ensures Pipeline(failText, ex).Ok? <==> Managed(endpoint, Streamed, StatusThenSuccess(ExactlyOk), ex, (p: P) => p).Ok?
  {
  }
}
