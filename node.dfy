/**
 * The Node record and its wrapper methods (nodes/node.go). A Node holds a reference to the
 * NodeManagement client; each wrapper refuses to run without one and otherwise forwards a
 * request built from the node's own id.
 */
module Nodes {
  import opened Wrappers
  import opened Errors
  import opened Exchange
  import opened Text
  import opened NodeTags
  import opened UpdateNode
  import opened AddChildNode
  import opened ListChildNodes
  import ChildListing = ListChildNodes

  /** The client a node forwards to; only its identity matters here. */
  class NodeManagement {
    const baseURL: string

    constructor (baseURL: string)
      ensures this.baseURL == baseURL
    {
      this.baseURL := baseURL;
    }
  }

  /** The exported fields of a Node, as the node-details endpoint returns them per node id. */
  datatype NodeDetails = NodeDetails(
    nodeId: string, nodeName: string, nodeDescription: string, nodeIdentifier: string,
    bindingStatus: bool, nodeBindingKey: string, connectionKey: string, createdAt: string,
    suspended: bool, modified: string, tags: seq<Tag>, preauthId: string)

  datatype GetNodeDetailsRequest = GetNodeDetailsRequest(nodes: seq<string>)
  datatype AuthorizeDeviceRequest = AuthorizeDeviceRequest(nodeId: string, deviceId: string)
  datatype ClearChildNodesRequest = ClearChildNodesRequest(parentId: string)
  datatype GetConnectionKeyRequest = GetConnectionKeyRequest(nodeId: string)
  datatype RemoveChildNodeRequest = RemoveChildNodeRequest(parentId: string, childNode: string)

  /** The error every wrapper returns without a client: an errors.New value, not the sentinel of the same text. */
  function NotInitialised(): Error {
    Adhoc("node management client is not initialized")
  }

  lemma NotInitialisedIsNotTheSentinel()
    ensures !Is(NotInitialised(), ErrNodeManagementNotInitialized)
  {
  }

  /** GetDetails' update: ten fields from the fetched details; NodeId and PreauthId are kept. */
  function Refresh(before: NodeDetails, d: NodeDetails): (after: NodeDetails)
    ensures after.nodeId == before.nodeId && after.preauthId == before.preauthId
    ensures after.nodeName == d.nodeName && after.nodeDescription == d.nodeDescription
    ensures after.nodeIdentifier == d.nodeIdentifier && after.bindingStatus == d.bindingStatus
    ensures after.nodeBindingKey == d.nodeBindingKey && after.connectionKey == d.connectionKey
    ensures after.createdAt == d.createdAt && after.suspended == d.suspended
    ensures after.modified == d.modified && after.tags == d.tags
  {
    before.(nodeName := d.nodeName, nodeDescription := d.nodeDescription, nodeIdentifier := d.nodeIdentifier,
            bindingStatus := d.bindingStatus, nodeBindingKey := d.nodeBindingKey, connectionKey := d.connectionKey,
            createdAt := d.createdAt, suspended := d.suspended, modified := d.modified, tags := d.tags)
  }

  /** Refreshing from the same details twice is the same as once. */
  lemma RefreshIdempotent(before: NodeDetails, d: NodeDetails)
    ensures Refresh(Refresh(before, d), d) == Refresh(before, d)
  {
  }

  /** Refreshing a node from its own details changes nothing. */
  lemma RefreshFromOwnDetails(n: NodeDetails)
    ensures Refresh(n, n) == n
  {
  }

  /** The request GetDetails sends: exactly one node id. */
  function DetailsQuery(nodeId: string): (q: GetNodeDetailsRequest)
    ensures q.nodes == [nodeId]
  {
    GetNodeDetailsRequest([nodeId])
  }

  /**
   * How GetDetails ends, given the node before, what the endpoint returned, whether the
   * receiver itself was returned, the error, and the node after.
   */
  predicate DetailsOutcome(before: NodeDetails, fetched: Outcome<map<string, NodeDetails>>,
                           returnedSelf: bool, err: Option<Error>, after: NodeDetails)
  {
    match fetched
    case Fail(e) => !returnedSelf && err == Some(e) && after == before
    case FailWith(_, e) => !returnedSelf && err == Some(e) && after == before
    case Ok(data) =>
      if before.nodeId in data then returnedSelf && err.None? && after == Refresh(before, data[before.nodeId])
      else !returnedSelf && err == Some(Adhoc("node details not found")) && after == before
  }

  class Node {
    var nodeId: string
    var nodeName: string
    var nodeDescription: string
    var nodeIdentifier: string
    var bindingStatus: bool
    var nodeBindingKey: string
    var connectionKey: string
    var createdAt: string
    var suspended: bool
    var modified: string
    var tags: seq<Tag>
    var preauthId: string
    var manager: NodeManagement?

    /** A node with the given id and client and every other field at its zero value. */
    constructor (nodeId: string, manager: NodeManagement?)
      ensures Details() == NodeDetails(nodeId, "", "", "", false, "", "", "", false, "", [], "")
      ensures this.manager == manager
    {
      this.nodeId := nodeId;
      nodeName := "";
      nodeDescription := "";
      nodeIdentifier := "";
      bindingStatus := false;
      nodeBindingKey := "";
      connectionKey := "";
      createdAt := "";
      suspended := false;
      modified := "";
      tags := [];
      preauthId := "";
      this.manager := manager;
    }

    function Details(): NodeDetails
      reads this
    {
      NodeDetails(nodeId, nodeName, nodeDescription, nodeIdentifier, bindingStatus, nodeBindingKey,
                  connectionKey, createdAt, suspended, modified, tags, preauthId)
    }

    /** Overwrites every exported field; the client reference is kept. */
    method Assign(d: NodeDetails)
      modifies this
      ensures Details() == d && manager == old(manager)
    {
      nodeId, nodeName, nodeDescription, nodeIdentifier := d.nodeId, d.nodeName, d.nodeDescription, d.nodeIdentifier;
      bindingStatus, nodeBindingKey, connectionKey, createdAt := d.bindingStatus, d.nodeBindingKey, d.connectionKey, d.createdAt;
      suspended, modified, tags, preauthId := d.suspended, d.modified, d.tags, d.preauthId;
    }

    /**
     * GetDetails: asks the node-details endpoint (`fetch`) for [NodeId] and copies the ten
     * fields of its entry; on any failure the node is left as it was.
     */
    method GetDetails(fetch: GetNodeDetailsRequest -> Outcome<map<string, NodeDetails>>) returns (r: Node?, err: Option<Error>)
      modifies this
      ensures manager == old(manager)
      ensures old(manager) == null ==> r == null && err == Some(NotInitialised()) && unchanged(this)
      ensures old(manager) != null ==> DetailsOutcome(old(Details()), fetch(DetailsQuery(old(nodeId))), r == this, err, Details())
    {
      if manager == null {
        return null, Some(NotInitialised());
      }
      var fetched := fetch(DetailsQuery(nodeId));
      match fetched
      case Fail(e) => return null, Some(e);
      case FailWith(_, e) => return null, Some(e);
      case Ok(data) =>
        if nodeId !in data {
          return null, Some(Adhoc("node details not found"));
        }
        Assign(Refresh(Details(), data[nodeId]));
        return this, None;
    }

    /** A node made for a listed child: id from ChildId, name from Alias, CreatedAt in decimal, the parent's client. */
    constructor FromChild(child: ChildNode, manager: NodeManagement?)
      ensures Details() == NodeDetails(child.childId, child.alias, "", "", false, "", "", Decimal(child.createdAt), false, "", [], "")
      ensures this.manager == manager
    {
      nodeId := child.childId;
      nodeName := child.alias;
      nodeDescription := "";
      nodeIdentifier := "";
      bindingStatus := false;
      nodeBindingKey := "";
      connectionKey := "";
      createdAt := Decimal(child.createdAt);
      suspended := false;
      modified := "";
      tags := [];
      preauthId := "";
      this.manager := manager;
    }

    /**
     * ListChildNodes: sends {ParentId: NodeId, limit, offset} through the list-child-nodes
     * endpoint and returns one new Node per child, in the reply's order.
     */
    method ListChildNodes(limit: int, offset: int, ex: Exchange<ChildListReply>)
      returns (children: seq<Node>, err: Option<Error>, sent: Option<ChildListPayload>)
      ensures manager == null ==> children == [] && err == Some(NotInitialised()) && sent.None?
      ensures manager != null && nodeId != "" ==>
                sent == Some(ChildListPayload(nodeId, NormalLimit(limit), NormalOffset(offset)))
      ensures manager != null && nodeId == "" ==>
                children == [] && sent.None?
                && err == Some(Anedya("parent id is required to list child nodes", Bare(ErrListChildNodesParentIDRequired)))
      ensures manager != null && nodeId != "" && !Classified(ex).Ok? ==> children == [] && err == Some(Classified(ex).err)
      ensures manager != null && nodeId != "" && Classified(ex).Ok? ==>
                err.None? && |children| == |Classified(ex).value.nodes|
                && forall k :: 0 <= k < |children| ==>
                     fresh(children[k]) && IsChildNode(children[k], Classified(ex).value.nodes[k], manager)
    {
      if manager == null {
        return [], Some(NotInitialised()), None;
      }
      var req := new ListChildNodesRequest(nodeId, limit, offset);
      var resp;
      resp, sent := ChildListing.ListChildNodes(req, ex);
      if !resp.Ok? {
        return [], Some(resp.err), sent;
      }
      var data := resp.value.nodes;
      children := [];
      var i := 0;
      while i < |data|
        invariant 0 <= i <= |data| && |children| == i
        invariant forall k :: 0 <= k < i ==> fresh(children[k]) && IsChildNode(children[k], data[k], manager)
      {
        var node := new Node.FromChild(data[i], manager);
        children := children + [node];
        i := i + 1;
      }
      err := None;
    }

    /** UpdateNode: the update endpoint on {NodeID: NodeId, updates}. */
    function UpdateNodeCall(updates: seq<NodeUpdate>, ex: Exchange<UpdateReply>): (o: Outcome<()>)
      reads this
      ensures manager == null ==> o == Fail(NotInitialised())
      ensures manager != null ==> o == UpdateNode.UpdateNode(Some(UpdateNodeRequest(nodeId, updates)), ex)
    {
      if manager == null then Fail(NotInitialised())
      else UpdateNode.UpdateNode(Some(UpdateNodeRequest(nodeId, updates)), ex)
    }

    /** AuthorizeDevice: an empty device id is refused before anything is forwarded. */
    function AuthorizeDevice(deviceId: string, call: AuthorizeDeviceRequest -> Outcome<()>): (o: Outcome<()>)
      reads this
      ensures manager == null ==> o == Fail(NotInitialised())
      ensures manager != null && deviceId == "" ==> o == Fail(Adhoc("deviceID is required"))
      ensures manager != null && deviceId != "" ==> o == call(AuthorizeDeviceRequest(nodeId, deviceId))
    {
      if manager == null then Fail(NotInitialised())
      else if deviceId == "" then Fail(Adhoc("deviceID is required"))
      else call(AuthorizeDeviceRequest(nodeId, deviceId))
    }

    /** AddChildNode: the add-child endpoint on {ParentId: NodeId, childNodes}. */
    function AddChildNodeCall(childNodes: seq<ChildNodeRequest>, ex: Exchange<AddChildReply>): (o: Outcome<()>)
      reads this
      ensures manager == null ==> o == Fail(NotInitialised())
      ensures manager != null ==> o == AddChildNode.AddChildNode(Some(AddChildNodeRequest(nodeId, childNodes)), ex)
    {
      if manager == null then Fail(NotInitialised())
      else AddChildNode.AddChildNode(Some(AddChildNodeRequest(nodeId, childNodes)), ex)
    }

    /** ClearChildNodes: forwards {ParentId: NodeId}. */
    function ClearChildNodes(call: ClearChildNodesRequest -> Outcome<()>): (o: Outcome<()>)
      reads this
      ensures manager == null ==> o == Fail(NotInitialised())
      ensures manager != null ==> o == call(ClearChildNodesRequest(nodeId))
    {
      if manager == null then Fail(NotInitialised()) else call(ClearChildNodesRequest(nodeId))
    }

    /** GetConnectionKey: forwards {NodeID: NodeId}. */
    function GetConnectionKey(call: GetConnectionKeyRequest -> Outcome<string>): (o: Outcome<string>)
      reads this
      ensures manager == null ==> o == Fail(NotInitialised())
      ensures manager != null ==> o == call(GetConnectionKeyRequest(nodeId))
    {
      if manager == null then Fail(NotInitialised()) else call(GetConnectionKeyRequest(nodeId))
    }

    /** RemoveChildNode: forwards {ParentId: NodeId, ChildNode: childNodeId}. */
    function RemoveChildNode(childNodeId: string, call: RemoveChildNodeRequest -> Outcome<()>): (o: Outcome<()>)
      reads this
      ensures manager == null ==> o == Fail(NotInitialised())
      ensures manager != null ==> o == call(RemoveChildNodeRequest(nodeId, childNodeId))
    {
      if manager == null then Fail(NotInitialised()) else call(RemoveChildNodeRequest(nodeId, childNodeId))
    }
  }

  /** What a listed child becomes: ChildId, Alias, decimal CreatedAt, the shared client, nothing else. */
  predicate IsChildNode(node: Node, child: ChildNode, manager: NodeManagement?)
    reads node
  {
    node.Details() == NodeDetails(child.childId, child.alias, "", "", false, "", "", Decimal(child.createdAt), false, "", [], "")
    && node.manager == manager
  }

  /** Children with different creation times get different CreatedAt strings. */
  lemma ChildCreatedAtDistinguishes(a: Node, b: Node, ca: ChildNode, cb: ChildNode, m: NodeManagement?)
    requires IsChildNode(a, ca, m) && IsChildNode(b, cb, m) && ca.createdAt != cb.createdAt
    ensures a.createdAt != b.createdAt
  {
    DecimalInjective(ca.createdAt, cb.createdAt);
  }
}
