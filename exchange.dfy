/**
 * The HTTP round trip of an endpoint, taken as an input rather than performed, and the
 * classification every endpoint applies to the decoded reply.
 */
module Exchange {
  import opened Wrappers
  import opened Errors
  import opened Text

  /**
   * A decoded response: the fields every response shares (common.BaseResponse) and the
   * endpoint-specific rest as `payload`.
   */
  datatype Envelope<P> = Envelope(success: bool, error: string, reasonCode: string, payload: P)

  /** A JSON value (raw message, float or other payload) the SDK passes through without interpreting it. */
  datatype Json = Json(raw: string)

  /** What JSON decoding made of the response body. */
  datatype Body<P> = Decoded(env: Envelope<P>) | Undecodable(cause: string)

  /**
   * How far a request got: encoding, building or sending failed (each with the foreign
   * error's text), the body could not be read, or a reply arrived with a status and a body.
   */
  datatype Exchange<P> =
    | EncodeFail(cause: string)
    | BuildFail(cause: string)
    | TransportFail(cause: string)
    | ReadFail(cause: string)
    | Reply(status: int, raw: string, body: Body<P>)

  /** A Go `(result, error)` pair: a result, an error, or both (the legacy data package). */
  datatype Outcome<R> = Ok(value: R) | Fail(err: Error) | FailWith(value: R, err: Error)

  /** Which status codes count as success. */
  datatype StatusRule = AnyTwoHundred | ExactlyOk

  predicate StatusPasses(rule: StatusRule, status: int) {
    match rule
    case AnyTwoHundred => 200 <= status < 300
    case ExactlyOk => status == 200
  }

  /**
   * The order in which an endpoint consults the status and the success flag:
   * the flag alone; status then flag; both in one condition; flag then status.
   */
  datatype Policy =
    | SuccessOnly
    | StatusThenSuccess(rule: StatusRule)
    | Combined
    | SuccessThenStatus(rule: StatusRule)

  /** Which check rejected a reply; `Rejected` is the single branch of the combined condition. */
  datatype Verdict = Accepted | BadStatus | NotSuccessful | Rejected

  function RuleOf(p: Policy): StatusRule {
    match p
    case StatusThenSuccess(rule) => rule
    case SuccessThenStatus(rule) => rule
    case _ => AnyTwoHundred
  }

  function Classify(p: Policy, status: int, success: bool): (v: Verdict)
    ensures v == Accepted <==> success && (p.SuccessOnly? || StatusPasses(RuleOf(p), status))
    ensures p.StatusThenSuccess? && !StatusPasses(p.rule, status) ==> v == BadStatus
    ensures p.SuccessThenStatus? && !success ==> v == NotSuccessful
    ensures v == Rejected <==> p.Combined? && v != Accepted
  {
    match p
    case SuccessOnly => if success then Accepted else NotSuccessful
    case StatusThenSuccess(rule) =>
      if !StatusPasses(rule, status) then BadStatus
      else if !success then NotSuccessful
      else Accepted
    case Combined => if status < 200 || status >= 300 || !success then Rejected else Accepted
    case SuccessThenStatus(rule) =>
      if !success then NotSuccessful
      else if !StatusPasses(rule, status) then BadStatus
      else Accepted
  }

  /** The combined condition accepts exactly the replies that status-then-success accepts. */
  lemma CombinedAcceptsLikeStatusThenSuccess(status: int, success: bool)
    ensures (Classify(Combined, status, success) == Accepted)
        <==> (Classify(StatusThenSuccess(AnyTwoHundred), status, success) == Accepted)
  {
  }

  /** Requiring exactly 200 accepts fewer replies than requiring any 2xx status. */
  lemma ExactlyOkIsStricter(status: int, success: bool)
    ensures Classify(StatusThenSuccess(ExactlyOk), status, success) == Accepted
        ==> Classify(StatusThenSuccess(AnyTwoHundred), status, success) == Accepted
    ensures Classify(StatusThenSuccess(ExactlyOk), 201, true) == BadStatus
    ensures Classify(StatusThenSuccess(AnyTwoHundred), 201, true) == Accepted
  {
  }

  /** With only the success flag consulted, the status never matters. */
  lemma SuccessOnlyIgnoresStatus(s1: int, s2: int, success: bool)
    ensures Classify(SuccessOnly, s1, success) == Classify(SuccessOnly, s2, success)
  {
  }

  /** The two orders differ only in which check is reported when both fail. */
  lemma OrderDecidesReportedCheck(rule: StatusRule, status: int, success: bool)
    ensures (Classify(StatusThenSuccess(rule), status, success) == Accepted)
        <==> (Classify(SuccessThenStatus(rule), status, success) == Accepted)
    ensures !StatusPasses(rule, status) && !success ==>
              Classify(StatusThenSuccess(rule), status, success) == BadStatus
              && Classify(SuccessThenStatus(rule), status, success) == NotSuccessful
  {
  }

  /** Whether the endpoint reads the whole body first (io.ReadAll) or decodes from the stream. */
  datatype Reading = Buffered | Streamed

  function EncodeFailure(endpoint: string): Error {
    Anedya("failed to encode " + endpoint + " request", Bare(ErrRequestEncodeFailed))
  }

  function BuildFailure(endpoint: string): Error {
    Anedya("failed to build " + endpoint + " request", Bare(ErrRequestBuildFailed))
  }

  function SendFailure(endpoint: string): Error {
    Anedya("failed to execute " + endpoint + " request", Bare(ErrRequestFailed))
  }

  function ReadFailure(endpoint: string): Error {
    Anedya("failed to read " + endpoint + " response", Bare(ErrResponseReadFailed))
  }

  function DecodeFailure(endpoint: string): Error {
    Anedya("failed to decode " + endpoint + " response", Bare(ErrResponseDecodeFailed))
  }

  /** A reply that decoded and that the policy accepts. */
  predicate Delivered<P>(policy: Policy, ex: Exchange<P>) {
    ex.Reply? && ex.body.Decoded? && Classify(policy, ex.status, ex.body.env.success) == Accepted
  }

  /**
   * The pipeline shared by the api_op endpoints after validation: transport failures
   * map to fixed AnedyaErrors named after the endpoint name `endpoint`, a rejected reply to
   * GetError(reasonCode, error), and an accepted one to the result `build` makes of it.
   */
  function Managed<P, R>(endpoint: string, reading: Reading, policy: Policy, ex: Exchange<P>, build: P -> R): (o: Outcome<R>)
    ensures !o.FailWith?
    ensures o.Ok? <==> Delivered(policy, ex)
    ensures o.Ok? ==> o.value == build(ex.body.env.payload)
    ensures ex.EncodeFail? ==> o == Fail(EncodeFailure(endpoint))
    ensures ex.BuildFail? ==> o == Fail(BuildFailure(endpoint))
    ensures ex.TransportFail? ==> o == Fail(SendFailure(endpoint))
    ensures ex.ReadFail? && reading.Buffered? ==> o == Fail(ReadFailure(endpoint))
    ensures ex.ReadFail? && reading.Streamed? ==> o == Fail(DecodeFailure(endpoint))
    ensures ex.Reply? && ex.body.Undecodable? ==> o == Fail(DecodeFailure(endpoint))
    ensures ex.Reply? && ex.body.Decoded? && !Delivered(policy, ex) ==>
              o == Fail(GetError(ex.body.env.reasonCode, ex.body.env.error))
  {
    match ex
    case EncodeFail(_) => Fail(EncodeFailure(endpoint))
    case BuildFail(_) => Fail(BuildFailure(endpoint))
    case TransportFail(_) => Fail(SendFailure(endpoint))
    case ReadFail(_) => if reading.Buffered? then Fail(ReadFailure(endpoint)) else Fail(DecodeFailure(endpoint))
    case Reply(status, _, Undecodable(_)) => Fail(DecodeFailure(endpoint))
    case Reply(status, _, Decoded(env)) =>
      if Classify(policy, status, env.success) == Accepted then Ok(build(env.payload))
      else Fail(GetError(env.reasonCode, env.error))
  }

  /** Endpoints written with the combined condition behave exactly like status-then-success ones. */
  lemma CombinedPipelineIsStatusThenSuccess<P, R>(endpoint: string, reading: Reading, ex: Exchange<P>, build: P -> R)
    ensures Managed(endpoint, reading, Combined, ex, build)
         == Managed(endpoint, reading, StatusThenSuccess(AnyTwoHundred), ex, build)
  {
  }

  /** Every failure of the pipeline is an AnedyaError, so callers can always unwrap a sentinel. */
  lemma ManagedFailuresCarrySentinel<P, R>(endpoint: string, reading: Reading, policy: Policy, ex: Exchange<P>, build: P -> R)
    ensures Managed(endpoint, reading, policy, ex, build).Fail? ==>
              Managed(endpoint, reading, policy, ex, build).err.Anedya?
              && Managed(endpoint, reading, policy, ex, build).err.err.Bare?
  {
  }

  /**
   * The pipeline of the older variable and token files: foreign errors are returned as
   * they are (a read failure wrapped in `readPrefix` where one is given), the status is
   * checked against `rule` before the body is decoded, then the success flag.
   */
  function StatusFirst<P, R>(rule: StatusRule, statusText: string, readPrefix: Option<string>, ex: Exchange<P>, build: P -> R): (o: Outcome<R>)
    ensures !o.FailWith?
    ensures o.Ok? <==> ex.Reply? && StatusPasses(rule, ex.status) && ex.body.Decoded? && ex.body.env.success
    ensures o.Ok? ==> o.value == build(ex.body.env.payload)
    ensures o.Fail? ==> NoSentinel(o.err)
    ensures ex.Reply? && !StatusPasses(rule, ex.status) ==>
              o == Fail(Adhoc(statusText + Decimal(ex.status) + ": " + ex.raw))
    ensures ex.Reply? && StatusPasses(rule, ex.status) && ex.body.Undecodable? ==>
              o == Fail(WrapForeign("failed to parse response: ", ex.body.cause))
    ensures ex.Reply? && StatusPasses(rule, ex.status) && ex.body.Decoded? && !ex.body.env.success ==>
              o == Fail(Adhoc("API error: " + ex.body.env.error))
    ensures ex.ReadFail? ==>
              o == Fail(if readPrefix.Some? then WrapForeign(readPrefix.value, ex.cause) else Adhoc(ex.cause))
    ensures ex.EncodeFail? || ex.BuildFail? || ex.TransportFail? ==> o == Fail(Adhoc(ex.cause))
  {
    match ex
    case EncodeFail(cause) => Fail(Adhoc(cause))
    case BuildFail(cause) => Fail(Adhoc(cause))
    case TransportFail(cause) => Fail(Adhoc(cause))
    case ReadFail(cause) =>
      if readPrefix.Some? then Fail(WrapForeign(readPrefix.value, cause)) else Fail(Adhoc(cause))
    case Reply(status, raw, body) =>
      if !StatusPasses(rule, status) then Fail(Adhoc(statusText + Decimal(status) + ": " + raw))
      else match body
        case Undecodable(cause) => Fail(WrapForeign("failed to parse response: ", cause))
        case Decoded(env) =>
          if !env.success then Fail(Adhoc("API error: " + env.error))
          else Ok(build(env.payload))
  }

  /** The status-first pipeline accepts exactly what the managed status-then-success pipeline accepts. */
  lemma StatusFirstAcceptsLikeManaged<P, R>(rule: StatusRule, statusText: string, readPrefix: Option<string>,
                                             endpoint: string, reading: Reading, ex: Exchange<P>, build: P -> R)
    ensures StatusFirst(rule, statusText, readPrefix, ex, build).Ok?
        <==> Managed(endpoint, reading, StatusThenSuccess(rule), ex, build).Ok?
    ensures StatusFirst(rule, statusText, readPrefix, ex, build).Ok? ==>
              StatusFirst(rule, statusText, readPrefix, ex, build) == Managed(endpoint, reading, StatusThenSuccess(rule), ex, build)
  {
  }
}
