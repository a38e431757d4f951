/** HealthManagement.GetHealthStatus (health/api_op_health_status.go). */
module HealthStatus {
  import opened Wrappers
  import opened Errors
  import opened Exchange

  /** The longest accepted last-contact window: seven days, in seconds. */
  const MaxHealthThresholdSec: int := 7 * 24 * 60 * 60

  datatype HealthStatusRequest = HealthStatusRequest(nodes: seq<string>, lastContactThreshold: int)

  datatype HealthStatusDetails = HealthStatusDetails(online: bool, lastHeartbeat: int)

  datatype HealthStatusReply = HealthStatusReply(data: map<string, HealthStatusDetails>)

  datatype HealthStatusResult = HealthStatusResult(data: map<string, HealthStatusDetails>)

  predicate Acceptable(r: HealthStatusRequest) {
    |r.nodes| > 0 && 0 < r.lastContactThreshold <= MaxHealthThresholdSec
  }

  /** Nil, an empty node list, a non-positive threshold, then one above seven days. */
  function Validate(input: Option<HealthStatusRequest>): (r: Option<Error>)
    ensures r.None? <==> input.Some? && Acceptable(input.value)
    ensures input.None? ==> r == Some(Anedya("health status request cannot be nil", Bare(ErrRequestNil)))
    ensures input.Some? && |input.value.nodes| == 0 ==>
              r == Some(Anedya("at least one node must be provided", Bare(ErrNodesEmpty)))
    ensures input.Some? && |input.value.nodes| > 0 && input.value.lastContactThreshold <= 0 ==>
              r == Some(Anedya("lastContactThreshold must be greater than zero", Bare(ErrInvalidTimeRange)))
    ensures input.Some? && |input.value.nodes| > 0 && input.value.lastContactThreshold > MaxHealthThresholdSec ==>
              r == Some(Anedya("lastContactThreshold cannot exceed 7 days", Bare(ErrHealthLimitExceeded)))
  {
    if input.None? then Some(Anedya("health status request cannot be nil", Bare(ErrRequestNil)))
    else
      var req := input.value;
      if |req.nodes| == 0 then Some(Anedya("at least one node must be provided", Bare(ErrNodesEmpty)))
      else if req.lastContactThreshold <= 0 then
        Some(Anedya("lastContactThreshold must be greater than zero", Bare(ErrInvalidTimeRange)))
      else if req.lastContactThreshold > MaxHealthThresholdSec then
        Some(Anedya("lastContactThreshold cannot exceed 7 days", Bare(ErrHealthLimitExceeded)))
      else None
  }

  function Result(reply: HealthStatusReply): (r: HealthStatusResult)
    ensures r.data == reply.data
  {
    HealthStatusResult(reply.data)
  }

  /** GetHealthStatus: validation, then the success flag; the body is decoded from the stream. */
  function GetHealthStatus(input: Option<HealthStatusRequest>, ex: Exchange<HealthStatusReply>): (o: Outcome<HealthStatusResult>)
    ensures Validate(input).Some? ==> o == Fail(Validate(input).value)
    ensures o.Ok? <==> input.Some? && Acceptable(input.value) && ex.Reply? && ex.body.Decoded? && ex.body.env.success
    ensures o.Ok? ==> o.value == Result(ex.body.env.payload)
    ensures !o.FailWith?
  {
    match Validate(input)
    case Some(e) => Fail(e)
    case None => Managed("health status", Streamed, SuccessOnly, ex, Result)
  }

  /** The bound is 604800 seconds and is inclusive. */
  lemma ThresholdBoundInclusive(nodes: seq<string>)
    requires |nodes| > 0
    ensures MaxHealthThresholdSec == 604800
    ensures Validate(Some(HealthStatusRequest(nodes, 604800))) == None
    ensures Validate(Some(HealthStatusRequest(nodes, 604801)))
         == Some(Anedya("lastContactThreshold cannot exceed 7 days", Bare(ErrHealthLimitExceeded)))
    ensures Validate(Some(HealthStatusRequest(nodes, 0)))
         == Some(Anedya("lastContactThreshold must be greater than zero", Bare(ErrInvalidTimeRange)))
  {
  }
}
