/** The older DataManagement.GetData (data/get_data.go): historical data, reported with plain errors. */
module LegacyGetData {
  import opened Wrappers
  import opened Errors
  import opened Exchange
  import opened Text
  import opened Seqs
  import opened DataPackage

  datatype GetDataRequest = GetDataRequest(variable: string, nodes: seq<string>, from: int, to: int, limit: int, order: string)

  /** The fields after the common three: the response itself is what the caller receives. */
  datatype GetDataPayload = GetDataPayload(variable: string, count: int, data: map<string, Json>)

  predicate Empty(node: string) {
    node == ""
  }

  function NodeError(i: nat): Error {
    Adhoc("node ID at index " + Decimal(i) + " is empty")
  }

  predicate ValidOrder(order: string) {
    order == "" || order == "asc" || order == "desc"
  }

  predicate Acceptable(r: GetDataRequest) {
    r.variable != "" && |r.nodes| > 0 && (forall i :: 0 <= i < |r.nodes| ==> r.nodes[i] != "")
    && r.from > 0 && r.to > 0 && r.from <= r.to && r.limit >= 0 && ValidOrder(r.order)
  }

  /** NodesValid: the checks up to and including the per-node loop pass. */
  predicate NodesValid(r: GetDataRequest) {
    r.variable != "" && |r.nodes| > 0 && forall i :: 0 <= i < |r.nodes| ==> r.nodes[i] != ""
  }

  /**
   * ValidateGetDataRequest: nil, Variable, an empty node list, the first empty node id,
   * From, To, their order, a negative Limit, then Order; nil means valid.
   */
  function ValidateGetDataRequest(input: Option<GetDataRequest>): (r: Option<Error>)
    ensures r.None? <==> input.Some? && Acceptable(input.value)
    ensures r.Some? ==> NoSentinel(r.value)
    ensures input.None? ==> r == Some(Adhoc("request cannot be nil"))
    ensures input.Some? && input.value.variable == "" ==> r == Some(Adhoc("variable is required"))
    ensures input.Some? && input.value.variable != "" && |input.value.nodes| == 0 ==>
              r == Some(Adhoc("at least one node ID is required"))
    ensures input.Some? && input.value.variable != "" && |input.value.nodes| > 0 && !NodesValid(input.value) ==>
              exists i :: 0 <= i < |input.value.nodes| && input.value.nodes[i] == ""
                && (forall j :: 0 <= j < i ==> input.value.nodes[j] != "")
                && r == Some(NodeError(i))
    ensures input.Some? && NodesValid(input.value) && input.value.from <= 0 ==>
              r == Some(Adhoc("from timestamp must be greater than 0"))
    ensures input.Some? && NodesValid(input.value) && input.value.from > 0 && input.value.to <= 0 ==>
              r == Some(Adhoc("to timestamp must be greater than 0"))
    ensures input.Some? && NodesValid(input.value) && input.value.from > 0 && input.value.to > 0
            && input.value.from > input.value.to ==>
              r == Some(Adhoc("from cannot be greater than to"))
    ensures input.Some? && NodesValid(input.value) && 0 < input.value.from <= input.value.to && input.value.limit < 0 ==>
              r == Some(Adhoc("limit cannot be negative"))
    ensures input.Some? && NodesValid(input.value) && 0 < input.value.from <= input.value.to && input.value.limit >= 0
            && !ValidOrder(input.value.order) ==>
              r == Some(Adhoc("order must be 'asc' or 'desc' if provided"))
  {
    if input.None? then Some(Adhoc("request cannot be nil"))
    else
      var req := input.value;
      if req.variable == "" then Some(Adhoc("variable is required"))
      else if |req.nodes| == 0 then Some(Adhoc("at least one node ID is required"))
      else match FirstWhere(req.nodes, Empty)
        case Some(i) => Some(NodeError(i))
        case None =>
          if req.from <= 0 then Some(Adhoc("from timestamp must be greater than 0"))
          else if req.to <= 0 then Some(Adhoc("to timestamp must be greater than 0"))
          else if req.from > req.to then Some(Adhoc("from cannot be greater than to"))
          else if req.limit < 0 then Some(Adhoc("limit cannot be negative"))
          else if req.order != "" && req.order != "asc" && req.order != "desc" then
            Some(Adhoc("order must be 'asc' or 'desc' if provided"))
          else None
  }

  /** GetData: validation, the token guard, then the data-package pipeline. */
  function GetData(input: Option<GetDataRequest>, authToken: string, ex: Exchange<GetDataPayload>): (o: Outcome<Envelope<GetDataPayload>>)
    ensures ValidateGetDataRequest(input).Some? ==> o == Fail(ValidateGetDataRequest(input).value)
    ensures ValidateGetDataRequest(input).None? && authToken == "" ==> o == Fail(MissingToken())
    ensures o.Ok? <==> input.Some? && Acceptable(input.value) && authToken != "" && Delivered(SuccessThenStatus(ExactlyOk), ex)
    ensures o.Ok? || o.FailWith? ==> ex.Reply? && ex.body.Decoded? && o.value == ex.body.env
    ensures !o.Ok? ==> NoSentinel(o.err)
  {
    match ValidateGetDataRequest(input)
    case Some(e) => Fail(e)
    case None => Authorised(authToken, "failed to create HTTP request: ", "failed to create HTTP request: ", ex)
  }
}
