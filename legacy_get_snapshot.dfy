/** The older DataManagement.GetSnapshot (data/get_snapshot.go). */
module LegacyGetSnapshot {
  import opened Wrappers
  import opened Errors
  import opened Exchange
  import opened Text
  import opened Seqs
  import opened DataPackage

  datatype GetSnapshotRequest = GetSnapshotRequest(timestamp: int, variable: string, nodes: seq<string>)

  datatype GetSnapshotPayload = GetSnapshotPayload(data: map<string, Json>, count: int)

  predicate Empty(node: string) {
    node == ""
  }

  function NodeError(i: nat): Error {
    Adhoc("node ID at index " + Decimal(i) + " is empty")
  }

  predicate Acceptable(r: GetSnapshotRequest) {
    r.variable != "" && r.timestamp > 0 && |r.nodes| > 0 && forall i :: 0 <= i < |r.nodes| ==> r.nodes[i] != ""
  }

  /** validateGetSnapshotRequest: nil, Variable, Timestamp, an empty node list, then the first empty node id. */
  function ValidateGetSnapshotRequest(input: Option<GetSnapshotRequest>): (r: Option<Error>)
    ensures r.None? <==> input.Some? && Acceptable(input.value)
    ensures r.Some? ==> NoSentinel(r.value)
    ensures input.None? ==> r == Some(Adhoc("request cannot be nil"))
    ensures input.Some? && input.value.variable == "" ==> r == Some(Adhoc("variable is required"))
    ensures input.Some? && input.value.variable != "" && input.value.timestamp <= 0 ==>
              r == Some(Adhoc("timestamp must be greater than 0 (Unix milliseconds)"))
    ensures input.Some? && input.value.variable != "" && input.value.timestamp > 0 && |input.value.nodes| == 0 ==>
              r == Some(Adhoc("at least one node ID is required"))
    ensures input.Some? && input.value.variable != "" && input.value.timestamp > 0
            && (exists i :: 0 <= i < |input.value.nodes| && input.value.nodes[i] == "") ==>
              exists i :: 0 <= i < |input.value.nodes| && input.value.nodes[i] == ""
                && (forall j :: 0 <= j < i ==> input.value.nodes[j] != "")
                && r == Some(NodeError(i))
  {
    if input.None? then Some(Adhoc("request cannot be nil"))
    else
      var req := input.value;
      if req.variable == "" then Some(Adhoc("variable is required"))
      else if req.timestamp <= 0 then Some(Adhoc("timestamp must be greater than 0 (Unix milliseconds)"))
      else if |req.nodes| == 0 then Some(Adhoc("at least one node ID is required"))
      else match FirstWhere(req.nodes, Empty)
        case Some(i) => Some(NodeError(i))
        case None => None
  }

  /** GetSnapshot: validation, the token guard, then the data-package pipeline. */
  function GetSnapshot(input: Option<GetSnapshotRequest>, authToken: string, ex: Exchange<GetSnapshotPayload>): (o: Outcome<Envelope<GetSnapshotPayload>>)
    ensures ValidateGetSnapshotRequest(input).Some? ==> o == Fail(ValidateGetSnapshotRequest(input).value)
    ensures ValidateGetSnapshotRequest(input).None? && authToken == "" ==> o == Fail(MissingToken())
    ensures o.Ok? <==> input.Some? && Acceptable(input.value) && authToken != "" && Delivered(SuccessThenStatus(ExactlyOk), ex)
    ensures o.Ok? || o.FailWith? ==> ex.Reply? && ex.body.Decoded? && o.value == ex.body.env
    ensures !o.Ok? ==> NoSentinel(o.err)
  {
    match ValidateGetSnapshotRequest(input)
    case Some(e) => Fail(e)
    case None => Authorised(authToken, "failed to marshal request: ", "failed to crreate HTTP request: ", ex)
  }
}
