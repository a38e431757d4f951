/**
 * NodeManagement.UpdateNodeDetails (nodes/update_node_details.go): a switch over the update
 * types, then a reply that may have an empty body.
 */
module LegacyUpdateNodeDetails {
  import opened Wrappers
  import opened Errors
  import opened Exchange
  import opened Text
  import opened Seqs
  import opened NodeTags
  import UpdateNode

  const UpdateNodeName: string := "node_name"
  const UpdateNodeDesc: string := "node_desc"
  const RegenerateKey: string := "key"
  const DeleteTag: string := "deletetag"

  datatype UpdateItem = UpdateItem(updateType: string, value: string, tag: Option<Tag>)

  datatype UpdateNodeRequest = UpdateNodeRequest(nodeId: string, updates: seq<UpdateItem>)

  datatype UpdateNodeReply = UpdateNodeReply

  /** The switch: names and descriptions need a value, deletetag a tag with a key, key nothing; anything else is invalid. */
  predicate Offending(u: UpdateItem) {
    if u.updateType == UpdateNodeName || u.updateType == UpdateNodeDesc then u.value == ""
    else if u.updateType == DeleteTag then u.tag.None? || u.tag.value.key == ""
    else u.updateType != RegenerateKey
  }

  /** The error for the offending item at index `i`, by the case of the switch it fell into. */
  function ItemError(i: nat, u: UpdateItem): (e: Error)
    ensures NoSentinel(e)
  {
    if u.updateType == UpdateNodeName || u.updateType == UpdateNodeDesc then
      Adhoc("update item " + Decimal(i) + ": 'value' is required for type '" + u.updateType + "'")
    else if u.updateType == DeleteTag then
      Adhoc("update item " + Decimal(i) + ": 'tag.key' is required for type 'deletetag'")
    else
      Adhoc("update item " + Decimal(i) + ": invalid type '" + u.updateType + "'")
  }

  predicate Acceptable(r: UpdateNodeRequest) {
    r.nodeId != "" && |r.updates| > 0 && forall i :: 0 <= i < |r.updates| ==> !Offending(r.updates[i])
  }

  /** Nil, NodeID, an empty update list, then the first offending item. */
  function Validate(input: Option<UpdateNodeRequest>): (r: Option<Error>)
    ensures r.None? <==> input.Some? && Acceptable(input.value)
    ensures r.Some? ==> NoSentinel(r.value)
    ensures input.None? ==> r == Some(Adhoc("request cannot be nil"))
    ensures input.Some? && input.value.nodeId == "" ==> r == Some(Adhoc("nodeid is required and cannot be empty"))
    ensures input.Some? && input.value.nodeId != "" && |input.value.updates| == 0 ==>
              r == Some(Adhoc("at least one update must be provided in 'updates' array"))
    ensures input.Some? && input.value.nodeId != ""
            && (exists i :: 0 <= i < |input.value.updates| && Offending(input.value.updates[i])) ==>
              exists i :: 0 <= i < |input.value.updates| && Offending(input.value.updates[i])
                && (forall j :: 0 <= j < i ==> !Offending(input.value.updates[j]))
                && r == Some(ItemError(i, input.value.updates[i]))
  {
    if input.None? then Some(Adhoc("request cannot be nil"))
    else
      var req := input.value;
      if req.nodeId == "" then Some(Adhoc("nodeid is required and cannot be empty"))
      else if |req.updates| == 0 then Some(Adhoc("at least one update must be provided in 'updates' array"))
      else match FirstWhere(req.updates, Offending)
        case Some(i) => Some(ItemError(i, req.updates[i]))
        case None => None
  }

  /**
   * The reply handling: the body is read whole; an empty body succeeds iff the status is 200;
   * otherwise it is decoded, then the status must be 200, then the flag set.
   */
  function Classified(ex: Exchange<UpdateNodeReply>): (o: Outcome<()>)
    ensures !o.FailWith?
    ensures o.Ok? <==> ex.Reply? && ex.status == 200 && (ex.raw == "" || (ex.body.Decoded? && ex.body.env.success))
    ensures ex.Reply? && ex.raw == "" && ex.status != 200 ==>
              o == Fail(Adhoc("empty response body with non-200 status: " + Decimal(ex.status)))
    ensures ex.EncodeFail? ==> o == Fail(WrapForeign("failed to marshal request: ", ex.cause))
    ensures ex.BuildFail? ==> o == Fail(WrapForeign("failed to create HTTP request: ", ex.cause))
    ensures ex.TransportFail? ==> o == Fail(WrapForeign("request failed: ", ex.cause))
    ensures ex.ReadFail? ==> o == Fail(WrapForeign("failed to read response body: ", ex.cause))
    ensures ex.Reply? && ex.raw != "" && ex.body.Undecodable? ==>
              o == Fail(Chained("failed to decode API response: " + ex.body.cause + " (raw body: " + ex.raw + ")",
                                Adhoc(ex.body.cause)))
    ensures ex.Reply? && ex.raw != "" && ex.body.Decoded? && ex.status != 200 ==>
              o == Fail(Adhoc("API error " + Decimal(ex.status) + ": " + ex.body.env.error
                              + " (reason: " + ex.body.env.reasonCode + ")"))
    ensures ex.Reply? && ex.raw != "" && ex.body.Decoded? && ex.status == 200 && !ex.body.env.success ==>
              o == Fail(Adhoc("node update failed: " + ex.body.env.error + " (reason: " + ex.body.env.reasonCode + ")"))
    ensures o.Fail? ==> NoSentinel(o.err)
  {
    match ex
    case EncodeFail(cause) => Fail(WrapForeign("failed to marshal request: ", cause))
    case BuildFail(cause) => Fail(WrapForeign("failed to create HTTP request: ", cause))
    case TransportFail(cause) => Fail(WrapForeign("request failed: ", cause))
    case ReadFail(cause) => Fail(WrapForeign("failed to read response body: ", cause))
    case Reply(status, raw, body) =>
      if raw == "" then
        if status == 200 then Ok(()) else Fail(Adhoc("empty response body with non-200 status: " + Decimal(status)))
      else match body
        case Undecodable(cause) =>
          Fail(Chained("failed to decode API response: " + cause + " (raw body: " + raw + ")", Adhoc(cause)))
        case Decoded(env) =>
          if status != 200 then
            Fail(Adhoc("API error " + Decimal(status) + ": " + env.error + " (reason: " + env.reasonCode + ")"))
          else if !env.success then
            Fail(Adhoc("node update failed: " + env.error + " (reason: " + env.reasonCode + ")"))
          else Ok(())
  }

  /** UpdateNodeDetails: validation, then the reply handling. */
  function UpdateNodeDetails(input: Option<UpdateNodeRequest>, ex: Exchange<UpdateNodeReply>): (o: Outcome<()>)
    ensures Validate(input).Some? ==> o == Fail(Validate(input).value)
    ensures Validate(input).None? ==> o == Classified(ex)
    ensures o.Ok? ==> input.Some? && Acceptable(input.value) && ex.Reply? && ex.status == 200
  {
    match Validate(input)
    case Some(e) => Fail(e)
    case None => Classified(ex)
  }

  /** With an empty body the decoded content is never looked at. */
  lemma EmptyBodyDecidedByStatus(body1: Body<UpdateNodeReply>, body2: Body<UpdateNodeReply>, status: int)
    ensures Classified(Reply(status, "", body1)) == Classified(Reply(status, "", body2))
  {
  }

  /** "key" needs nothing; "tag" and the empty type are invalid here. */
  lemma TypeRules(value: string, tag: Option<Tag>)
    ensures !Offending(UpdateItem(RegenerateKey, "", None))
    ensures Offending(UpdateItem("tag", value, tag))
    ensures Offending(UpdateItem("", value, tag))
  {
  }

  /** The two versions disagree: a tag update with a tag and no value passes the newer check only. */
  lemma VersionsDisagreeOnTag(tag: Tag)
    ensures !UpdateNode.Offending(UpdateNode.NodeUpdate("tag", "", Some(tag)))
    ensures Offending(UpdateItem("tag", "", Some(tag)))
  {
  }
}
