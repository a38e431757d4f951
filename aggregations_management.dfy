/** AggregationsManagement.GetAggregationByTime (aggregations/api_op_time_aggregations.go). */
module AggregationsManagement {
  import opened Wrappers
  import opened Errors
  import opened Exchange

  /** The eight declared compute types; validation only checks that one is given. */
  const ComputeTypes: set<string> := {"sum", "avg", "median", "min", "max", "diff", "deltasum", "stddev"}
  const FilterInclude: string := "include"
  const FilterExclude: string := "exclude"

  datatype AggregationObject = AggregationObject(compute: string, forEachNode: bool)
  datatype IntervalObject = IntervalObject(measure: string, interval: int)
  datatype ResponseOptions = ResponseOptions(timezone: string)
  datatype FilterObject = FilterObject(nodes: seq<string>, filterType: string)
  datatype AggregationConfig = AggregationConfig(aggregation: AggregationObject, interval: IntervalObject,
                                                 responseOptions: ResponseOptions, filter: Option<FilterObject>)

  datatype AggregationRequest = AggregationRequest(variable: string, from: int, to: int, config: AggregationConfig)

  /** One aggregated point; the float aggregate is opaque. */
  datatype AggregateDataPoint = AggregateDataPoint(timestamp: int, aggregate: Json)

  datatype AggregationReply = AggregationReply(variable: string, config: AggregationConfig, data: map<string, seq<AggregateDataPoint>>)

  datatype AggregationResult = AggregationResult(variable: string, config: AggregationConfig, data: map<string, seq<AggregateDataPoint>>)

  /** Positive timestamps with from no later than to; an empty range (from == to) is allowed. */
  predicate ValidTimeRange(from: int, to: int) {
    from > 0 && to > 0 && from <= to
  }

  predicate ValidInterval(i: IntervalObject) {
    i.measure != "" && i.interval > 0
  }

  /** When present, a filter names at least one node and is an include or exclude filter. */
  predicate ValidFilter(f: Option<FilterObject>) {
    f.Some? ==> |f.value.nodes| > 0 && (f.value.filterType == FilterInclude || f.value.filterType == FilterExclude)
  }

  predicate Acceptable(r: AggregationRequest) {
    r.variable != "" && ValidTimeRange(r.from, r.to) && r.config.aggregation.compute != ""
    && ValidInterval(r.config.interval) && ValidFilter(r.config.filter)
  }

  /** The guard ladder of the management client, each check with its own sentinel. */
  function Validate(input: Option<AggregationRequest>): (r: Option<Error>)
    ensures r.None? <==> input.Some? && Acceptable(input.value)
    ensures input.None? ==> r == Some(Anedya("aggregation request cannot be nil", Bare(ErrRequestNil)))
    ensures input.Some? && input.value.variable == "" ==> r == Some(Anedya("variable is required", Bare(ErrVariableRequired)))
    ensures input.Some? && input.value.variable != "" && !ValidTimeRange(input.value.from, input.value.to) ==>
              r == Some(Anedya("invalid from/to timestamp range", Bare(ErrInvalidTimeRange)))
    ensures input.Some? && input.value.variable != "" && ValidTimeRange(input.value.from, input.value.to)
            && input.value.config.aggregation.compute == "" ==>
              r == Some(Anedya("aggregation compute type is required", Bare(ErrAggregationComputeRequired)))
    ensures input.Some? && input.value.variable != "" && ValidTimeRange(input.value.from, input.value.to)
            && input.value.config.aggregation.compute != "" && !ValidInterval(input.value.config.interval) ==>
              r == Some(Anedya("invalid aggregation interval configuration", Bare(ErrInvalidInterval)))
    ensures input.Some? && input.value.variable != "" && ValidTimeRange(input.value.from, input.value.to)
            && input.value.config.aggregation.compute != "" && ValidInterval(input.value.config.interval)
            && input.value.config.filter.Some? && |input.value.config.filter.value.nodes| == 0 ==>
              r == Some(Anedya("filter nodes cannot be empty", Bare(ErrFilterNodesRequired)))
    ensures input.Some? && input.value.variable != "" && ValidTimeRange(input.value.from, input.value.to)
            && input.value.config.aggregation.compute != "" && ValidInterval(input.value.config.interval)
            && input.value.config.filter.Some? && |input.value.config.filter.value.nodes| > 0
            && input.value.config.filter.value.filterType != FilterInclude
            && input.value.config.filter.value.filterType != FilterExclude ==>
              r == Some(Anedya("filter type must be include or exclude", Bare(ErrInvalidFilterType)))
    ensures r.Some? && (Is(r.value, ErrFilterNodesRequired) || Is(r.value, ErrInvalidFilterType)) ==>
              input.Some? && input.value.config.filter.Some?
    ensures r.Some? ==> r.value.Anedya? && r.value.err.Bare?
  {
    if input.None? then Some(Anedya("aggregation request cannot be nil", Bare(ErrRequestNil)))
    else
      var req := input.value;
      if req.variable == "" then Some(Anedya("variable is required", Bare(ErrVariableRequired)))
      else if req.from <= 0 || req.to <= 0 || req.from > req.to then
        Some(Anedya("invalid from/to timestamp range", Bare(ErrInvalidTimeRange)))
      else if req.config.aggregation.compute == "" then
        Some(Anedya("aggregation compute type is required", Bare(ErrAggregationComputeRequired)))
      else if req.config.interval.measure == "" || req.config.interval.interval <= 0 then
        Some(Anedya("invalid aggregation interval configuration", Bare(ErrInvalidInterval)))
      else if req.config.filter.Some? && |req.config.filter.value.nodes| == 0 then
        Some(Anedya("filter nodes cannot be empty", Bare(ErrFilterNodesRequired)))
      else if req.config.filter.Some? && req.config.filter.value.filterType != FilterInclude
              && req.config.filter.value.filterType != FilterExclude then
        Some(Anedya("filter type must be include or exclude", Bare(ErrInvalidFilterType)))
      else None
  }

  function Result(reply: AggregationReply): (r: AggregationResult)
    ensures r.variable == reply.variable && r.config == reply.config && r.data == reply.data
  {
    AggregationResult(reply.variable, reply.config, reply.data)
  }

  /** GetAggregationByTime: validation, then the success flag only; the status is ignored. */
  function GetAggregationByTime(input: Option<AggregationRequest>, ex: Exchange<AggregationReply>): (o: Outcome<AggregationResult>)
    ensures Validate(input).Some? ==> o == Fail(Validate(input).value)
    ensures o.Ok? <==> input.Some? && Acceptable(input.value) && ex.Reply? && ex.body.Decoded? && ex.body.env.success
    ensures o.Ok? ==> o.value == Result(ex.body.env.payload)
    ensures !o.FailWith?
  {
    match Validate(input)
    case Some(e) => Fail(e)
    case None => Managed("aggregation", Buffered, SuccessOnly, ex, Result)
  }

  /** Any non-empty compute name passes, including ones outside the declared constants. */
  lemma ComputeOnlyCheckedForEmptiness(r: AggregationRequest, compute: string)
    requires Acceptable(r) && compute != "" && compute !in ComputeTypes
    ensures Validate(Some(r.(config := r.config.(aggregation := r.config.aggregation.(compute := compute))))) == None
  {
  }

  /** Without a filter, neither filter check runs. */
  lemma NoFilterNoFilterChecks(r: AggregationRequest)
    requires r.variable != "" && ValidTimeRange(r.from, r.to) && r.config.aggregation.compute != ""
    requires ValidInterval(r.config.interval) && r.config.filter.None?
    ensures Validate(Some(r)) == None
  {
  }
}
