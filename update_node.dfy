/** NodeManagement.UpdateNode (nodes/api_op_update_node_details.go). */
module UpdateNode {
  import opened Wrappers
  import opened Errors
  import opened Exchange
  import opened Text
  import opened Seqs
  import opened NodeTags

  /** The declared update types; validation singles out only "tag". */
  const UpdateNodeName: string := "node_name"
  const UpdateNodeDesc: string := "node_desc"
  const UpdateTag: string := "tag"

  datatype NodeUpdate = NodeUpdate(updateType: string, value: string, tag: Option<Tag>)

  datatype UpdateNodeRequest = UpdateNodeRequest(nodeId: string, updates: seq<NodeUpdate>)

  datatype UpdateReply = UpdateReply

  /** An update the loop stops at: no type, a tag update without a tag, or another update without a value. */
  predicate Offending(u: NodeUpdate) {
    u.updateType == "" || (u.updateType == UpdateTag && u.tag.None?) || (u.updateType != UpdateTag && u.value == "")
  }

  /** The error for the offending update at index `i`, naming the rule it breaks. */
  function ItemError(i: nat, u: NodeUpdate): (e: Error)
    requires Offending(u)
    ensures e.Anedya? && e.err.Adhoc?
  {
    if u.updateType == "" then
      Anedya("update[" + Decimal(i) + "].type is required", Adhoc("update type missing"))
    else if u.updateType == UpdateTag && u.tag.None? then
      Anedya("update[" + Decimal(i) + "].tag is required for tag update", Adhoc("tag object missing"))
    else
      Anedya("update[" + Decimal(i) + "].value is required", Adhoc("value missing"))
  }

  predicate Acceptable(r: UpdateNodeRequest) {
    r.nodeId != "" && |r.updates| > 0 && forall i :: 0 <= i < |r.updates| ==> !Offending(r.updates[i])
  }

  /** Nil, the node id and an empty update list, then the first offending update. */
  function Validate(input: Option<UpdateNodeRequest>): (r: Option<Error>)
    ensures r.None? <==> input.Some? && Acceptable(input.value)
    ensures input.None? ==> r == Some(Anedya("update node request cannot be nil", Bare(ErrUpdateNodeRequestNil)))
    ensures input.Some? && input.value.nodeId == "" ==>
              r == Some(Anedya("nodeID is required for update", Bare(ErrUpdateNodeIDRequired)))
    ensures input.Some? && input.value.nodeId != "" && |input.value.updates| == 0 ==>
              r == Some(Anedya("at least one update operation must be provided", Bare(ErrUpdateNodeEmptyUpdates)))
    ensures r.Some? && r.value.Anedya? && r.value.err.Adhoc? ==>
              input.Some? &&
              (exists i :: 0 <= i < |input.value.updates| && Offending(input.value.updates[i])
                 && (forall j :: 0 <= j < i ==> !Offending(input.value.updates[j]))
                 && r.value == ItemError(i, input.value.updates[i]))
  {
    if input.None? then Some(Anedya("update node request cannot be nil", Bare(ErrUpdateNodeRequestNil)))
    else
      var req := input.value;
      if req.nodeId == "" then Some(Anedya("nodeID is required for update", Bare(ErrUpdateNodeIDRequired)))
      else if |req.updates| == 0 then Some(Anedya("at least one update operation must be provided", Bare(ErrUpdateNodeEmptyUpdates)))
      else match FirstWhere(req.updates, Offending)
        case Some(i) => Some(ItemError(i, req.updates[i]))
        case None => None
  }

  /** UpdateNode: validation, then the success flag only; success returns nil. */
  function UpdateNode(input: Option<UpdateNodeRequest>, ex: Exchange<UpdateReply>): (o: Outcome<()>)
    ensures Validate(input).Some? ==> o == Fail(Validate(input).value)
    ensures o.Ok? <==> input.Some? && Acceptable(input.value) && ex.Reply? && ex.body.Decoded? && ex.body.env.success
    ensures !o.FailWith?
  {
    match Validate(input)
    case Some(e) => Fail(e)
    case None => Managed("update node", Buffered, SuccessOnly, ex, (_: UpdateReply) => ())
  }

  /** A tag update needs a tag but not a value. */
  lemma TagUpdateWithoutValue(tag: Tag)
    ensures !Offending(NodeUpdate(UpdateTag, "", Some(tag)))
  {
  }

  /** The type set is not enforced: any other non-empty type passes when it has a value. */
  lemma UnknownTypePasses(t: string, value: string)
    requires t != "" && t != UpdateTag && value != ""
    ensures !Offending(NodeUpdate(t, value, None))
  {
  }

  /** The reported index is the first offending update, even when later ones also offend. */
  lemma FirstOffenderReported(nodeId: string, good: seq<NodeUpdate>, bad: NodeUpdate, rest: seq<NodeUpdate>)
    requires nodeId != "" && Offending(bad)
    requires forall j :: 0 <= j < |good| ==> !Offending(good[j])
    ensures Validate(Some(UpdateNodeRequest(nodeId, good + [bad] + rest))) == Some(ItemError(|good|, bad))
  {
    var us := good + [bad] + rest;
    assert us[|good|] == bad;
    assert forall j :: 0 <= j < |good| ==> us[j] == good[j];
  }
}
