/** DataManagement.GetLatestData (dataAccess/api_op_get_latest_data_variable.go): each node's newest value. */
module GetLatestData {
  import opened Wrappers
  import opened Errors
  import opened Exchange
  import opened Text
  import opened Seqs
  import GetSnapshot

  datatype GetLatestDataRequest = GetLatestDataRequest(nodes: seq<string>, variable: string)

  datatype GetLatestDataReply = GetLatestDataReply(data: map<string, Json>, count: int)

  datatype GetLatestDataResult = GetLatestDataResult(data: map<string, Json>, count: int)

  predicate Acceptable(r: GetLatestDataRequest) {
    r.variable != "" && |r.nodes| > 0 && forall i :: 0 <= i < |r.nodes| ==> r.nodes[i] != ""
  }

  /** Nil, Variable, an empty node list, then the first empty node id. */
  function Validate(input: Option<GetLatestDataRequest>): (r: Option<Error>)
    ensures r.None? <==> input.Some? && Acceptable(input.value)
    ensures input.None? ==> r == Some(Anedya("get latest data request cannot be nil", Bare(ErrRequestNil)))
    ensures input.Some? && input.value.variable == "" ==> r == Some(Anedya("variable is required", Bare(ErrVariableRequired)))
    ensures input.Some? && input.value.variable != "" && |input.value.nodes| == 0 ==>
              r == Some(Anedya("at least one node must be provided", Bare(ErrNodesEmpty)))
    ensures r.Some? && Is(r.value, ErrInvalidNode) <==>
              input.Some? && input.value.variable != "" && |input.value.nodes| > 0
              && exists i :: 0 <= i < |input.value.nodes| && input.value.nodes[i] == ""
    ensures r.Some? && Is(r.value, ErrInvalidNode) ==>
              input.Some? &&
              (exists i :: 0 <= i < |input.value.nodes| && input.value.nodes[i] == ""
                 && (forall j :: 0 <= j < i ==> input.value.nodes[j] != "")
                 && r.value == GetSnapshot.NodeError(i))
  {
    if input.None? then Some(Anedya("get latest data request cannot be nil", Bare(ErrRequestNil)))
    else
      var req := input.value;
      if req.variable == "" then Some(Anedya("variable is required", Bare(ErrVariableRequired)))
      else if |req.nodes| == 0 then Some(Anedya("at least one node must be provided", Bare(ErrNodesEmpty)))
      else match FirstWhere(req.nodes, GetSnapshot.Empty)
        case Some(i) => Some(GetSnapshot.NodeError(i))
        case None => None
  }

  function Result(reply: GetLatestDataReply): (r: GetLatestDataResult)
    ensures r.data == reply.data && r.count == reply.count
  {
    GetLatestDataResult(reply.data, reply.count)
  }

  /** GetLatestData: validation, then the success flag only. */
  function GetLatestData(input: Option<GetLatestDataRequest>, ex: Exchange<GetLatestDataReply>): (o: Outcome<GetLatestDataResult>)
    ensures Validate(input).Some? ==> o == Fail(Validate(input).value)
    ensures o.Ok? <==> input.Some? && Acceptable(input.value) && ex.Reply? && ex.body.Decoded? && ex.body.env.success
    ensures o.Ok? ==> o.value == Result(ex.body.env.payload)
    ensures !o.FailWith?
  {
    match Validate(input)
    case Some(e) => Fail(e)
    case None => Managed("GetLatestData", Buffered, SuccessOnly, ex, Result)
  }

  /** The reply's status plays no part: a success flag under status 500 is still a result. */
  lemma StatusIgnored(req: GetLatestDataRequest, reply: GetLatestDataReply, error: string, code: string)
    requires Acceptable(req)
    ensures GetLatestData(Some(req), Reply(500, "", Decoded(Envelope(true, error, code, reply)))) == Ok(Result(reply))
  {
  }
}
