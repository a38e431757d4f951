/** The older DataManagement.GetLatestData (data/get_latest_data.go). */
module LegacyGetLatestData {
  import opened Wrappers
  import opened Errors
  import opened Exchange
  import opened Text
  import opened Seqs
  import opened DataPackage

  datatype GetLatestDataRequest = GetLatestDataRequest(nodes: seq<string>, variable: string)

  datatype GetLatestDataPayload = GetLatestDataPayload(data: map<string, Json>, count: int)

  predicate Empty(node: string) {
    node == ""
  }

  function NodeError(i: nat): Error {
    Adhoc("node ID at " + Decimal(i) + " index is empty")
  }

  predicate Acceptable(r: GetLatestDataRequest) {
    r.variable != "" && |r.nodes| > 0 && forall i :: 0 <= i < |r.nodes| ==> r.nodes[i] != ""
  }

  /** ValidateGetLatestDataRequest: nil, Variable, an empty node list, then the first empty node id. */
  function ValidateGetLatestDataRequest(input: Option<GetLatestDataRequest>): (r: Option<Error>)
    ensures r.None? <==> input.Some? && Acceptable(input.value)
    ensures r.Some? ==> NoSentinel(r.value)
    ensures input.None? ==> r == Some(Adhoc("request cannot be nil"))
    ensures input.Some? && input.value.variable == "" ==> r == Some(Adhoc("variable is required"))
    ensures input.Some? && input.value.variable != "" && |input.value.nodes| == 0 ==>
              r == Some(Adhoc("at least one node ID is required"))
    ensures input.Some? && input.value.variable != ""
            && (exists i :: 0 <= i < |input.value.nodes| && input.value.nodes[i] == "") ==>
              exists i :: 0 <= i < |input.value.nodes| && input.value.nodes[i] == ""
                && (forall j :: 0 <= j < i ==> input.value.nodes[j] != "")
                && r == Some(NodeError(i))
  {
    if input.None? then Some(Adhoc("request cannot be nil"))
    else
      var req := input.value;
      if req.variable == "" then Some(Adhoc("variable is required"))
      else if |req.nodes| == 0 then Some(Adhoc("at least one node ID is required"))
      else match FirstWhere(req.nodes, Empty)
        case Some(i) => Some(NodeError(i))
        case None => None
  }

  /** GetLatestData: validation, the token guard, then the data-package pipeline. */
  function GetLatestData(input: Option<GetLatestDataRequest>, authToken: string, ex: Exchange<GetLatestDataPayload>): (o: Outcome<Envelope<GetLatestDataPayload>>)
    ensures ValidateGetLatestDataRequest(input).Some? ==> o == Fail(ValidateGetLatestDataRequest(input).value)
    ensures ValidateGetLatestDataRequest(input).None? && authToken == "" ==> o == Fail(MissingToken())
    ensures o.Ok? <==> input.Some? && Acceptable(input.value) && authToken != "" && Delivered(SuccessThenStatus(ExactlyOk), ex)
    ensures o.Ok? || o.FailWith? ==> ex.Reply? && ex.body.Decoded? && o.value == ex.body.env
    ensures !o.Ok? ==> NoSentinel(o.err)
  {
    match ValidateGetLatestDataRequest(input)
    case Some(e) => Fail(e)
    case None => Authorised(authToken, "failed to marshal request: ", "failed to create HTTP request: ", ex)
  }
}
