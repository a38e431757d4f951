/**
 * AggregationsClient.GetAggregationByTime (aggregations/api_op_time_aggregation.go): the same
 * request shape as the management variant, with generic sentinels and one combined reply check.
 */
module AggregationsClient {
  import opened Wrappers
  import opened Errors
  import opened Exchange
  import opened AggregationsManagement

  /** The guard ladder of this variant: compute, interval and filter failures all carry ErrInvalidInput. */
  function Validate(input: Option<AggregationRequest>): (r: Option<Error>)
    ensures r.None? <==> input.Some? && Acceptable(input.value)
    ensures input.None? ==> r == Some(Anedya("aggregation request cannot be nil", Bare(ErrRequestNil)))
    ensures input.Some? && input.value.variable == "" ==> r == Some(Anedya("variable is required", Bare(ErrVariableRequired)))
    ensures input.Some? && input.value.variable != "" && !ValidTimeRange(input.value.from, input.value.to) ==>
              r == Some(Anedya("invalid from/to timestamp range", Bare(ErrInvalidTimeRange)))
    ensures input.Some? && input.value.variable != "" && ValidTimeRange(input.value.from, input.value.to)
            && input.value.config.aggregation.compute == "" ==>
              r == Some(Anedya("aggregation compute type is required", Bare(ErrInvalidInput)))
    ensures input.Some? && input.value.variable != "" && ValidTimeRange(input.value.from, input.value.to)
            && input.value.config.aggregation.compute != "" && !ValidInterval(input.value.config.interval) ==>
              r == Some(Anedya("valid interval measure and interval value are required", Bare(ErrInvalidInput)))
    ensures input.Some? && input.value.variable != "" && ValidTimeRange(input.value.from, input.value.to)
            && input.value.config.aggregation.compute != "" && ValidInterval(input.value.config.interval)
            && input.value.config.filter.Some? && |input.value.config.filter.value.nodes| == 0 ==>
              r == Some(Anedya("filter nodes cannot be empty when filter is provided", Bare(ErrInvalidInput)))
    ensures input.Some? && input.value.variable != "" && ValidTimeRange(input.value.from, input.value.to)
            && input.value.config.aggregation.compute != "" && ValidInterval(input.value.config.interval)
            && input.value.config.filter.Some? && |input.value.config.filter.value.nodes| > 0
            && input.value.config.filter.value.filterType != FilterInclude
            && input.value.config.filter.value.filterType != FilterExclude ==>
              r == Some(Anedya("filter type must be 'include' or 'exclude'", Bare(ErrInvalidInput)))
    ensures r.Some? && input.Some? && input.value.variable != "" && ValidTimeRange(input.value.from, input.value.to) ==>
              r.value.Anedya? && r.value.err == Bare(ErrInvalidInput)
  {
    if input.None? then Some(Anedya("aggregation request cannot be nil", Bare(ErrRequestNil)))
    else
      var req := input.value;
      if req.variable == "" then Some(Anedya("variable is required", Bare(ErrVariableRequired)))
      else if req.from <= 0 || req.to <= 0 || req.from > req.to then
        Some(Anedya("invalid from/to timestamp range", Bare(ErrInvalidTimeRange)))
      else if req.config.aggregation.compute == "" then
        Some(Anedya("aggregation compute type is required", Bare(ErrInvalidInput)))
      else if req.config.interval.measure == "" || req.config.interval.interval <= 0 then
        Some(Anedya("valid interval measure and interval value are required", Bare(ErrInvalidInput)))
      else if req.config.filter.Some? && |req.config.filter.value.nodes| == 0 then
        Some(Anedya("filter nodes cannot be empty when filter is provided", Bare(ErrInvalidInput)))
      else if req.config.filter.Some? && req.config.filter.value.filterType != FilterInclude
              && req.config.filter.value.filterType != FilterExclude then
        Some(Anedya("filter type must be 'include' or 'exclude'", Bare(ErrInvalidInput)))
      else None
  }

  /** GetAggregationByTime: validation, then status and success flag in one condition. */
  function GetAggregationByTime(input: Option<AggregationRequest>, ex: Exchange<AggregationReply>): (o: Outcome<AggregationResult>)
    ensures Validate(input).Some? ==> o == Fail(Validate(input).value)
    ensures o.Ok? <==> input.Some? && Acceptable(input.value) && ex.Reply? && 200 <= ex.status < 300
                       && ex.body.Decoded? && ex.body.env.success
    ensures o.Ok? ==> o.value == Result(ex.body.env.payload)
    ensures !o.FailWith?
  {
    match Validate(input)
    case Some(e) => Fail(e)
    case None => Managed("aggregation", Streamed, Combined, ex, Result)
  }

  /**
   * Both variants accept the same requests and agree on the first three checks; past those
   * the client reports ErrInvalidInput where the management variant names the check.
   */
  lemma VariantsAgreeOnAcceptance(input: Option<AggregationRequest>)
    ensures Validate(input).None? <==> AggregationsManagement.Validate(input).None?
    ensures input.None? || input.value.variable == "" || !ValidTimeRange(input.value.from, input.value.to) ==>
              Validate(input) == AggregationsManagement.Validate(input)
  {
  }

  /** The variants part on the reply: a successful envelope under a non-2xx status. */
  lemma VariantsDisagreeOnStatus(req: AggregationRequest, reply: AggregationReply)
    requires Acceptable(req)
    ensures GetAggregationByTime(Some(req), Reply(500, "", Decoded(Envelope(true, "", "", reply)))).Fail?
    ensures AggregationsManagement.GetAggregationByTime(Some(req), Reply(500, "", Decoded(Envelope(true, "", "", reply)))).Ok?
  {
  }
}
