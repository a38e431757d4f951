/**
 * What the three files of the older data package share (data/get_data.go,
 * data/get_snapshot.go, data/get_latest_data.go): the authorization-token guard and a
 * pipeline that tests the success flag before the status and hands back the decoded
 * response together with the error.
 */
module DataPackage {
  import opened Wrappers
  import opened Errors
  import opened Exchange
  import opened Text

  function MissingToken(): Error {
    Adhoc("authorization token is missing")
  }

  function NotSuccessfulError<P>(env: Envelope<P>): Error {
    Adhoc("API error: " + env.error + " (reasonCode: " + env.reasonCode + ")")
  }

  function StatusError(status: int): Error {
    Adhoc("unexpected HTTP status: " + Decimal(status))
  }

  function DecodeError(cause: string): Error {
    WrapForeign("failed to decode response JSON: ", cause)
  }

  /**
   * The pipeline after validation and the token guard. Encoding and building errors carry
   * the file's own prefixes `encodeText` and `buildText`; the body is decoded from the stream.
   */
  function Pipeline<P>(encodeText: string, buildText: string, ex: Exchange<P>): (o: Outcome<Envelope<P>>)
    ensures o.Ok? <==> Delivered(SuccessThenStatus(ExactlyOk), ex)
    ensures o.Ok? || o.FailWith? ==> ex.Reply? && ex.body.Decoded? && o.value == ex.body.env
    ensures o.FailWith? <==> ex.Reply? && ex.body.Decoded? && !Delivered(SuccessThenStatus(ExactlyOk), ex)
    ensures o.FailWith? && !ex.body.env.success ==> o.err == NotSuccessfulError(ex.body.env)
    ensures o.FailWith? && ex.body.env.success ==> o.err == StatusError(ex.status)
    ensures ex.EncodeFail? ==> o == Fail(WrapForeign(encodeText, ex.cause))
    ensures ex.BuildFail? ==> o == Fail(WrapForeign(buildText, ex.cause))
    ensures ex.TransportFail? ==> o == Fail(WrapForeign("HTTP request failed: ", ex.cause))
    ensures ex.ReadFail? ==> o == Fail(DecodeError(ex.cause))
    ensures ex.Reply? && ex.body.Undecodable? ==> o == Fail(DecodeError(ex.body.cause))
    ensures !o.Ok? ==> NoSentinel(o.err)
  {
    match ex
    case EncodeFail(cause) => Fail(WrapForeign(encodeText, cause))
    case BuildFail(cause) => Fail(WrapForeign(buildText, cause))
    case TransportFail(cause) => Fail(WrapForeign("HTTP request failed: ", cause))
    case ReadFail(cause) => Fail(DecodeError(cause))
    case Reply(_, _, Undecodable(cause)) => Fail(DecodeError(cause))
    case Reply(status, _, Decoded(env)) =>
      if !env.success then FailWith(env, NotSuccessfulError(env))
      else if status != 200 then FailWith(env, StatusError(status))
      else Ok(env)
  }

  /**
   * The call after validation: a missing token stops it before anything is encoded,
   * otherwise the pipeline decides.
   */
  function Authorised<P>(authToken: string, encodeText: string, buildText: string, ex: Exchange<P>): (o: Outcome<Envelope<P>>)
    ensures authToken == "" ==> o == Fail(MissingToken())
    ensures authToken != "" ==> o == Pipeline(encodeText, buildText, ex)
  {
    if authToken == "" then Fail(MissingToken()) else Pipeline(encodeText, buildText, ex)
  }

  /** A failed flag is reported even under a bad status, and the body still comes back. */
  lemma SuccessFlagReportedFirst<P>(encodeText: string, buildText: string, status: int, raw: string, env: Envelope<P>)
    requires !env.success && status != 200
    ensures Pipeline(encodeText, buildText, Reply(status, raw, Decoded(env))) == FailWith(env, NotSuccessfulError(env))
  {
  }

  /** A 201 reply with the success flag set still fails, carrying the body. */
  lemma CreatedStillFails<P>(encodeText: string, buildText: string, raw: string, env: Envelope<P>)
    requires env.success
    ensures Pipeline(encodeText, buildText, Reply(201, raw, Decoded(env))) == FailWith(env, StatusError(201))
  {
  }
}
