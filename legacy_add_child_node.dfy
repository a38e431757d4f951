/** The older NodeManagement.AddChildNode (nodes/add_child_node.go): the alias is optional here. */
module LegacyAddChildNode {
  import opened Wrappers
  import opened Errors
  import opened Exchange
  import opened Text
  import opened Seqs
  import opened NodesPackage

  datatype ChildNode = ChildNode(nodeId: string, alias: string)

  datatype AddChildNodeRequest = AddChildNodeRequest(parentId: string, childNodes: seq<ChildNode>)

  datatype AddChildNodeReply = AddChildNodeReply

  predicate MissingId(c: ChildNode) {
    c.nodeId == ""
  }

  function ChildError(i: nat): Error {
    Adhoc("childNodes[" + Decimal(i) + "]: nodeId is required and cannot be empty")
  }

  predicate Acceptable(r: AddChildNodeRequest) {
    r.parentId != "" && |r.childNodes| > 0 && forall i :: 0 <= i < |r.childNodes| ==> r.childNodes[i].nodeId != ""
  }

  /** Nil, ParentId, an empty child list, then the first child without a NodeId. */
  function Validate(input: Option<AddChildNodeRequest>): (r: Option<Error>)
    ensures r.None? <==> input.Some? && Acceptable(input.value)
    ensures r.Some? ==> NoSentinel(r.value)
    ensures input.None? ==> r == Some(Adhoc("request cannot be nil"))
    ensures input.Some? && input.value.parentId == "" ==> r == Some(Adhoc("parentId is required and cannot be empty"))
    ensures input.Some? && input.value.parentId != "" && |input.value.childNodes| == 0 ==>
              r == Some(Adhoc("childNodes array is required and must contain at least one child"))
    ensures input.Some? && input.value.parentId != ""
            && (exists i :: 0 <= i < |input.value.childNodes| && MissingId(input.value.childNodes[i])) ==>
              exists i :: 0 <= i < |input.value.childNodes| && MissingId(input.value.childNodes[i])
                && (forall j :: 0 <= j < i ==> !MissingId(input.value.childNodes[j]))
                && r == Some(ChildError(i))
  {
    if input.None? then Some(Adhoc("request cannot be nil"))
    else
      var req := input.value;
      if req.parentId == "" then Some(Adhoc("parentId is required and cannot be empty"))
      else if |req.childNodes| == 0 then Some(Adhoc("childNodes array is required and must contain at least one child"))
      else match FirstWhere(req.childNodes, MissingId)
        case Some(i) => Some(ChildError(i))
        case None => None
  }

  /** AddChildNode: validation, then exactly 200, then the success flag; success returns nil. */
  function AddChildNode(input: Option<AddChildNodeRequest>, ex: Exchange<AddChildNodeReply>): (o: Outcome<()>)
    ensures Validate(input).Some? ==> o == Fail(Validate(input).value)
    ensures o.Ok? <==> input.Some? && Acceptable(input.value) && Delivered(StatusThenSuccess(ExactlyOk), ex)
    ensures !o.FailWith?
    ensures o.Fail? ==> NoSentinel(o.err)
  {
    match Validate(input)
    case Some(e) => Fail(e)
    case None =>
      match Pipeline("failed to add child nodes", ex)
      case Ok(_) => Ok(())
      case Fail(e) => Fail(e)
      case FailWith(_, e) => Fail(e)
  }

  /** Children without an alias are accepted, unlike in the newer version. */
  lemma AliasOptional(parentId: string, ids: seq<string>)
    requires parentId != "" && |ids| > 0 && forall i :: 0 <= i < |ids| ==> ids[i] != ""
    ensures Validate(Some(AddChildNodeRequest(parentId, seq(|ids|, i requires 0 <= i < |ids| => ChildNode(ids[i], ""))))) == None
  {
  }
}
