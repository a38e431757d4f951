/** DataManagement.GetSnapshot (dataAccess/api_op_get_snapshot.go): every node's value at one instant. */
module GetSnapshot {
  import opened Wrappers
  import opened Errors
  import opened Exchange
  import opened Text
  import opened Seqs

  datatype GetSnapshotRequest = GetSnapshotRequest(timestamp: int, variable: string, nodes: seq<string>)

  datatype GetSnapshotReply = GetSnapshotReply(data: map<string, Json>, count: int)

  datatype GetSnapshotResult = GetSnapshotResult(data: map<string, Json>, count: int)

  predicate Empty(node: string) {
    node == ""
  }

  /** The error for the empty node id at index `i`; GetLatestData reports the same one. */
  function NodeError(i: nat): (e: Error)
    ensures Is(e, ErrInvalidNode)
  {
    Anedya("node id at index " + Decimal(i) + " is empty", Bare(ErrInvalidNode))
  }

  predicate Acceptable(r: GetSnapshotRequest) {
    r.variable != "" && r.timestamp > 0 && |r.nodes| > 0 && forall i :: 0 <= i < |r.nodes| ==> r.nodes[i] != ""
  }

  /** Nil, Variable, the timestamp, an empty node list, then the first empty node id. */
  function Validate(input: Option<GetSnapshotRequest>): (r: Option<Error>)
    ensures r.None? <==> input.Some? && Acceptable(input.value)
    ensures input.None? ==> r == Some(Anedya("get snapshot request cannot be nil", Bare(ErrRequestNil)))
    ensures input.Some? && input.value.variable == "" ==> r == Some(Anedya("variable is required", Bare(ErrVariableRequired)))
    ensures input.Some? && input.value.variable != "" && input.value.timestamp <= 0 ==>
              r == Some(Anedya("timestamp must be greater than 0", Bare(ErrInvalidTimestamp)))
    ensures input.Some? && input.value.variable != "" && input.value.timestamp > 0 && |input.value.nodes| == 0 ==>
              r == Some(Anedya("at least one node must be provided", Bare(ErrNodesEmpty)))
    ensures r.Some? && Is(r.value, ErrInvalidNode) ==>
              input.Some? &&
              (exists i :: 0 <= i < |input.value.nodes| && input.value.nodes[i] == ""
                 && (forall j :: 0 <= j < i ==> input.value.nodes[j] != "")
                 && r.value == NodeError(i))
  {
    if input.None? then Some(Anedya("get snapshot request cannot be nil", Bare(ErrRequestNil)))
    else
      var req := input.value;
      if req.variable == "" then Some(Anedya("variable is required", Bare(ErrVariableRequired)))
      else if req.timestamp <= 0 then Some(Anedya("timestamp must be greater than 0", Bare(ErrInvalidTimestamp)))
      else if |req.nodes| == 0 then Some(Anedya("at least one node must be provided", Bare(ErrNodesEmpty)))
      else match FirstWhere(req.nodes, Empty)
        case Some(i) => Some(NodeError(i))
        case None => None
  }

  function Result(reply: GetSnapshotReply): (r: GetSnapshotResult)
    ensures r.data == reply.data && r.count == reply.count
  {
    GetSnapshotResult(reply.data, reply.count)
  }

  /** GetSnapshot: validation, then the success flag only. */
  function GetSnapshot(input: Option<GetSnapshotRequest>, ex: Exchange<GetSnapshotReply>): (o: Outcome<GetSnapshotResult>)
    ensures Validate(input).Some? ==> o == Fail(Validate(input).value)
    ensures o.Ok? <==> input.Some? && Acceptable(input.value) && ex.Reply? && ex.body.Decoded? && ex.body.env.success
    ensures o.Ok? ==> o.value == Result(ex.body.env.payload)
    ensures !o.FailWith?
  {
    match Validate(input)
    case Some(e) => Fail(e)
    case None => Managed("GetSnapshot", Buffered, SuccessOnly, ex, Result)
  }

  /** The timestamp is checked before the nodes: a bad timestamp hides an empty node list. */
  lemma TimestampBeforeNodes(variable: string, timestamp: int)
    requires variable != "" && timestamp <= 0
    ensures Validate(Some(GetSnapshotRequest(timestamp, variable, [])))
         == Some(Anedya("timestamp must be greater than 0", Bare(ErrInvalidTimestamp)))
  {
  }

  /** With valid leading ids, an empty id is reported by its own index. */
  lemma FirstEmptyNodeReported(timestamp: int, variable: string, good: seq<string>, rest: seq<string>)
    requires variable != "" && timestamp > 0
    requires forall j :: 0 <= j < |good| ==> good[j] != ""
    ensures Validate(Some(GetSnapshotRequest(timestamp, variable, good + [""] + rest))) == Some(NodeError(|good|))
  {
    var ns := good + [""] + rest;
    assert ns[|good|] == "";
    assert forall j :: 0 <= j < |good| ==> ns[j] == good[j];
  }
}
