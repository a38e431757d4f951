/** NodeManagement.GetNodeDetails (nodes/get_node_details.go): one node id, looked up in the reply. */
module LegacyGetNodeDetails {
  import opened Wrappers
  import opened Errors
  import opened Exchange
  import opened NodeTags
  import opened NodesPackage
  import opened Nodes

  datatype NodeDetailsRequest = NodeDetailsRequest(nodes: seq<string>)

  datatype NodeDetailsDto = NodeDetailsDto(nodeId: string, nodeName: string, nodeDescription: string,
                                           tags: seq<Tag>, preauthId: string)

  datatype NodeDetailsReply = NodeDetailsReply(data: map<string, NodeDetailsDto>)

  /** The request body: a list holding exactly the one id. */
  function RequestFor(nodeId: string): (q: NodeDetailsRequest)
    ensures q.nodes == [nodeId]
  {
    NodeDetailsRequest([nodeId])
  }

  /** The Node's exported fields: the five DTO fields, the rest at their zero values. */
  function FromDto(d: NodeDetailsDto): (n: NodeDetails)
    ensures n.nodeId == d.nodeId && n.nodeName == d.nodeName && n.nodeDescription == d.nodeDescription
    ensures n.tags == d.tags && n.preauthId == d.preauthId
    ensures n.nodeIdentifier == "" && !n.bindingStatus && n.nodeBindingKey == "" && n.connectionKey == ""
    ensures n.createdAt == "" && !n.suspended && n.modified == ""
  {
    NodeDetails(d.nodeId, d.nodeName, d.nodeDescription, "", false, "", "", "", false, "", d.tags, d.preauthId)
  }

  /** The decision part: an empty id, the pipeline, then the lookup of the id in Data. */
  function Lookup(nodeId: string, ex: Exchange<NodeDetailsReply>): (o: Outcome<NodeDetailsDto>)
    ensures !o.FailWith?
    ensures nodeId == "" ==> o == Fail(Adhoc("nodeID cannot be empty"))
    ensures o.Ok? <==> nodeId != "" && Delivered(StatusThenSuccess(ExactlyOk), ex) && nodeId in ex.body.env.payload.data
    ensures o.Ok? ==> o.value == ex.body.env.payload.data[nodeId]
    ensures nodeId != "" && Delivered(StatusThenSuccess(ExactlyOk), ex) && nodeId !in ex.body.env.payload.data ==>
              o == Fail(Adhoc("node " + nodeId + " not found in response"))
    ensures o.Fail? ==> NoSentinel(o.err)
  {
    if nodeId == "" then Fail(Adhoc("nodeID cannot be empty"))
    else
      match Pipeline("failed to get node details", ex)
      case Fail(e) => Fail(e)
      case FailWith(_, e) => Fail(e)
      case Ok(env) =>
        if nodeId !in env.payload.data then Fail(Adhoc("node " + nodeId + " not found in response"))
        else Ok(env.payload.data[nodeId])
  }

  /** GetNodeDetails: a new Node built from the looked-up DTO, holding the receiving client. */
  method GetNodeDetails(nm: NodeManagement, nodeId: string, ex: Exchange<NodeDetailsReply>)
    returns (node: Node?, err: Option<Error>, sent: Option<NodeDetailsRequest>)
    ensures nodeId == "" ==> sent.None?
    ensures nodeId != "" ==> sent == Some(RequestFor(nodeId))
    ensures Lookup(nodeId, ex).Ok? ==>
              err.None? && node != null && fresh(node)
              && node.Details() == FromDto(Lookup(nodeId, ex).value) && node.manager == nm
    ensures !Lookup(nodeId, ex).Ok? ==> node == null && err == Some(Lookup(nodeId, ex).err)
  {
    sent := if nodeId == "" then None else Some(RequestFor(nodeId));
    var found := Lookup(nodeId, ex);
    match found
    case Ok(dto) =>
      var n := new Node(dto.nodeId, nm);
      n.Assign(FromDto(dto));
      return n, None, sent;
    case Fail(e) =>
      return null, Some(e), sent;
    case FailWith(_, e) =>
      assert false;
  }

  /** The id looked up is the id asked for, not the DTO's own NodeId. */
  lemma LookupByRequestedId(nodeId: string, raw: string, dto: NodeDetailsDto)
    requires nodeId != ""
    ensures Lookup(nodeId, Reply(200, raw, Decoded(Envelope(true, "", "", NodeDetailsReply(map[nodeId := dto]))))) == Ok(dto)
  {
  }
}
