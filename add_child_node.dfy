/** NodeManagement.AddChildNode (nodes/api_op_add_child_node.go). */
module AddChildNode {
  import opened Wrappers
  import opened Errors
  import opened Exchange
  import opened Text
  import opened Seqs

  datatype ChildNodeRequest = ChildNodeRequest(nodeId: string, alias: string)

  datatype AddChildNodeRequest = AddChildNodeRequest(parentId: string, childNodes: seq<ChildNodeRequest>)

  datatype AddChildReply = AddChildReply

  /** A child entry is incomplete unless it has both a node id and an alias. */
  predicate Incomplete(c: ChildNodeRequest) {
    c.nodeId == "" || c.alias == ""
  }

  function ChildError(i: nat): Error {
    Anedya("childNodes[" + Decimal(i) + "] requires both nodeId and alias", Adhoc("invalid child node entry"))
  }

  predicate Acceptable(r: AddChildNodeRequest) {
    r.parentId != "" && |r.childNodes| > 0 && forall i :: 0 <= i < |r.childNodes| ==> !Incomplete(r.childNodes[i])
  }

  /**
   * The first three checks return bare sentinels, not AnedyaErrors; the parent-id one is
   * ErrAddChildNodeParentIdRequired, a name no errors file declares.
   */
  function Validate(input: Option<AddChildNodeRequest>): (r: Option<Error>)
    ensures r.None? <==> input.Some? && Acceptable(input.value)
    ensures input.None? ==> r == Some(Bare(ErrAddChildNodeRequestNil))
    ensures input.Some? && input.value.parentId == "" ==> r == Some(Bare(ErrAddChildNodeParentIdRequired))
    ensures input.Some? && input.value.parentId != "" && |input.value.childNodes| == 0 ==> r == Some(Bare(ErrAddChildNodeEmptyChildren))
    ensures input.Some? && input.value.parentId != "" && |input.value.childNodes| > 0
            && (exists i :: 0 <= i < |input.value.childNodes| && Incomplete(input.value.childNodes[i])) ==>
              exists i :: 0 <= i < |input.value.childNodes| && Incomplete(input.value.childNodes[i])
                && (forall j :: 0 <= j < i ==> !Incomplete(input.value.childNodes[j]))
                && r == Some(ChildError(i))
    ensures r.Some? && r.value.Anedya? ==>
              input.Some? &&
              (exists i :: 0 <= i < |input.value.childNodes| && Incomplete(input.value.childNodes[i])
                 && (forall j :: 0 <= j < i ==> !Incomplete(input.value.childNodes[j]))
                 && r.value == ChildError(i))
  {
    if input.None? then Some(Bare(ErrAddChildNodeRequestNil))
    else
      var req := input.value;
      if req.parentId == "" then Some(Bare(ErrAddChildNodeParentIdRequired))
      else if |req.childNodes| == 0 then Some(Bare(ErrAddChildNodeEmptyChildren))
      else match FirstWhere(req.childNodes, Incomplete)
        case Some(i) => Some(ChildError(i))
        case None => None
  }

  /** AddChildNode: validation, then a status of exactly 200, then the success flag. */
  function AddChildNode(input: Option<AddChildNodeRequest>, ex: Exchange<AddChildReply>): (o: Outcome<()>)
    ensures Validate(input).Some? ==> o == Fail(Validate(input).value)
    ensures o.Ok? <==> input.Some? && Acceptable(input.value) && ex.Reply? && ex.status == 200
                       && ex.body.Decoded? && ex.body.env.success
    ensures !o.FailWith?
  {
    match Validate(input)
    case Some(e) => Fail(e)
    case None => Managed("AddChildNode", Streamed, StatusThenSuccess(ExactlyOk), ex, (_: AddChildReply) => ())
  }

  /** 201 Created is a failure here. */
  lemma CreatedIsFailure(req: AddChildNodeRequest, code: string, error: string)
    requires Acceptable(req)
    ensures AddChildNode(Some(req), Reply(201, "", Decoded(Envelope(true, error, code, AddChildReply)))) == Fail(GetError(code, error))
  {
  }

  /** With complete children before it, the first incomplete child's index is the one reported. */
  lemma FirstIncompleteReported(parentId: string, good: seq<ChildNodeRequest>, bad: ChildNodeRequest, rest: seq<ChildNodeRequest>)
    requires parentId != "" && Incomplete(bad)
    requires forall j :: 0 <= j < |good| ==> !Incomplete(good[j])
    ensures Validate(Some(AddChildNodeRequest(parentId, good + [bad] + rest))) == Some(ChildError(|good|))
  {
    var cs := good + [bad] + rest;
    assert cs[|good|] == bad;
    assert forall j :: 0 <= j < |good| ==> cs[j] == good[j];
  }

  /** The rejections before the per-child loop carry no message: errors.Is sees the sentinel itself. */
  lemma EarlyRejectionsAreBare(input: Option<AddChildNodeRequest>)
    requires input.None? || input.value.parentId == "" || |input.value.childNodes| == 0
    ensures Validate(input).Some? && Validate(input).value.Bare?
  {
  }
}
