/** DataManagement.GetData (dataAccess/api_op_get_for_variable.go): historical data of one variable. */
module GetData {
  import opened Wrappers
  import opened Errors
  import opened Exchange

  datatype GetDataRequest = GetDataRequest(variable: string, nodes: seq<string>, from: int, to: int, limit: int, order: string)

  /** The endpoint-specific fields of the response; data points stay opaque. */
  datatype GetDataReply = GetDataReply(variable: string, count: int, data: map<string, seq<Json>>)

  datatype GetDataResult = GetDataResult(variable: string, count: int, data: map<string, seq<Json>>)

  predicate ValidTimeRange(from: int, to: int) {
    from > 0 && to > 0 && from <= to
  }

  predicate ValidOrder(order: string) {
    order == "" || order == "asc" || order == "desc"
  }

  /** Individual node ids and the limit are not inspected. */
  predicate Acceptable(r: GetDataRequest) {
    r.variable != "" && |r.nodes| > 0 && ValidTimeRange(r.from, r.to) && ValidOrder(r.order)
  }

  /** Nil, Variable, an empty node list, the time range, then the order. */
  function Validate(input: Option<GetDataRequest>): (r: Option<Error>)
    ensures r.None? <==> input.Some? && Acceptable(input.value)
    ensures input.None? ==> r == Some(Anedya("get data request cannot be nil", Bare(ErrRequestNil)))
    ensures input.Some? && input.value.variable == "" ==> r == Some(Anedya("variable is required", Bare(ErrVariableRequired)))
    ensures input.Some? && input.value.variable != "" && |input.value.nodes| == 0 ==>
              r == Some(Anedya("at least one node must be provided", Bare(ErrNodesEmpty)))
    ensures input.Some? && input.value.variable != "" && |input.value.nodes| > 0
            && !ValidTimeRange(input.value.from, input.value.to) ==>
              r == Some(Anedya("invalid from/to timestamp range", Bare(ErrInvalidTimeRange)))
    ensures input.Some? && input.value.variable != "" && |input.value.nodes| > 0
            && ValidTimeRange(input.value.from, input.value.to) && !ValidOrder(input.value.order) ==>
              r == Some(Anedya("order must be asc or desc", Bare(ErrInvalidOrder)))
  {
    if input.None? then Some(Anedya("get data request cannot be nil", Bare(ErrRequestNil)))
    else
      var req := input.value;
      if req.variable == "" then Some(Anedya("variable is required", Bare(ErrVariableRequired)))
      else if |req.nodes| == 0 then Some(Anedya("at least one node must be provided", Bare(ErrNodesEmpty)))
      else if req.from <= 0 || req.to <= 0 || req.from > req.to then
        Some(Anedya("invalid from/to timestamp range", Bare(ErrInvalidTimeRange)))
      else if req.order != "" && req.order != "asc" && req.order != "desc" then
        Some(Anedya("order must be asc or desc", Bare(ErrInvalidOrder)))
      else None
  }

  function Result(reply: GetDataReply): (r: GetDataResult)
    ensures r.variable == reply.variable && r.count == reply.count && r.data == reply.data
  {
    GetDataResult(reply.variable, reply.count, reply.data)
  }

  /** GetData: validation, then the success flag only. */
  function GetData(input: Option<GetDataRequest>, ex: Exchange<GetDataReply>): (o: Outcome<GetDataResult>)
    ensures Validate(input).Some? ==> o == Fail(Validate(input).value)
    ensures o.Ok? <==> input.Some? && Acceptable(input.value) && ex.Reply? && ex.body.Decoded? && ex.body.env.success
    ensures o.Ok? ==> o.value == Result(ex.body.env.payload)
    ensures !o.FailWith?
  {
    match Validate(input)
    case Some(e) => Fail(e)
    case None => Managed("GetData", Buffered, SuccessOnly, ex, Result)
  }

  /** Empty node ids and any limit, even a negative one, get past validation. */
  lemma NodeIdsAndLimitUnchecked(variable: string, from: int, to: int, limit: int)
    requires variable != "" && ValidTimeRange(from, to)
    ensures Validate(Some(GetDataRequest(variable, ["", ""], from, to, limit, ""))) == None
  {
  }

  /** A single instant (From == To) is a valid range. */
  lemma SingleInstantRange(t: int)
    requires t > 0
    ensures ValidTimeRange(t, t)
    ensures !ValidTimeRange(t, t - 1)
  {
  }
}
