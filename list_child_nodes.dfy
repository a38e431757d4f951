/**
 * NodeManagement.ListChildNodes (nodes/api_op_list_all_child_nodes.go). The request is an
 * object because the call writes the normalised limit and offset back into it.
 */
module ListChildNodes {
  import opened Wrappers
  import opened Errors
  import opened Exchange

  datatype ChildNode = ChildNode(childId: string, alias: string, createdAt: int)

  datatype ChildListReply = ChildListReply(totalCount: int, count: int, next: int, data: seq<ChildNode>)

  datatype ChildListResult = ChildListResult(totalCount: int, count: int, next: int, nodes: seq<ChildNode>)

  const DefaultLimit: int := 100
  const MaxLimit: int := 1000

  /** The limit sent: one outside [1, 1000] is replaced by 100. */
  function NormalLimit(limit: int): (l: int)
    ensures 1 <= l <= MaxLimit
    ensures 1 <= limit <= MaxLimit ==> l == limit
    ensures !(1 <= limit <= MaxLimit) ==> l == DefaultLimit
  {
    if limit <= 0 || limit > MaxLimit then DefaultLimit else limit
  }

  /** The offset sent: a negative one is replaced by 0. */
  function NormalOffset(offset: int): (o: int)
    ensures o >= 0
    ensures offset >= 0 ==> o == offset
    ensures offset < 0 ==> o == 0
  {
    if offset < 0 then 0 else offset
  }

  /** Normalising twice changes nothing more. */
  lemma NormalisationIdempotent(limit: int, offset: int)
    ensures NormalLimit(NormalLimit(limit)) == NormalLimit(limit)
    ensures NormalOffset(NormalOffset(offset)) == NormalOffset(offset)
  {
  }

  /** The wire form of the request. */
  datatype ChildListPayload = ChildListPayload(parentId: string, limit: int, offset: int)

  class ListChildNodesRequest {
    var parentId: string
    var limit: int
    var offset: int

    constructor (parentId: string, limit: int, offset: int)
      ensures this.parentId == parentId && this.limit == limit && this.offset == offset
    {
      this.parentId := parentId;
      this.limit := limit;
      this.offset := offset;
    }

    function Payload(): (p: ChildListPayload)
      reads this
      ensures p.parentId == parentId && p.limit == limit && p.offset == offset
    {
      ChildListPayload(parentId, limit, offset)
    }

    /** Writes the normalised limit and offset into the request (lines 138-143). */
    method Normalise()
      modifies this
      ensures parentId == old(parentId)
      ensures limit == NormalLimit(old(limit)) && offset == NormalOffset(old(offset))
    {
      if limit <= 0 || limit > MaxLimit {
        limit := DefaultLimit;
      }
      if offset < 0 {
        offset := 0;
      }
    }
  }

  function Result(reply: ChildListReply): (r: ChildListResult)
    ensures r.totalCount == reply.totalCount && r.count == reply.count && r.next == reply.next
    ensures r.nodes == reply.data
  {
    ChildListResult(reply.totalCount, reply.count, reply.next, reply.data)
  }

  /** The outcome once the request has passed validation; only the success flag is consulted. */
  function Classified(ex: Exchange<ChildListReply>): (o: Outcome<ChildListResult>)
    ensures o.Ok? <==> ex.Reply? && ex.body.Decoded? && ex.body.env.success
    ensures o.Ok? ==> o.value == Result(ex.body.env.payload)
  {
    Managed("list child nodes", Buffered, SuccessOnly, ex, Result)
  }

  /**
   * ListChildNodes: nil and an empty ParentId are rejected with the request untouched;
   * otherwise the request is normalised in place, and stays so whatever the exchange brings.
   */
  method ListChildNodes(req: ListChildNodesRequest?, ex: Exchange<ChildListReply>) returns (o: Outcome<ChildListResult>, sent: Option<ChildListPayload>)
    modifies req
    ensures req == null ==>
              o == Fail(Anedya("list child nodes request cannot be nil", Bare(ErrListChildNodesRequestNil))) && sent.None?
    ensures req != null && old(req.parentId) == "" ==>
              o == Fail(Anedya("parent id is required to list child nodes", Bare(ErrListChildNodesParentIDRequired)))
              && sent.None? && unchanged(req)
    ensures req != null && old(req.parentId) != "" ==>
              req.parentId == old(req.parentId)
              && req.limit == NormalLimit(old(req.limit)) && req.offset == NormalOffset(old(req.offset))
              && sent == Some(req.Payload()) && o == Classified(ex)
  {
    if req == null {
      return Fail(Anedya("list child nodes request cannot be nil", Bare(ErrListChildNodesRequestNil))), None;
    }
    if req.parentId == "" {
      return Fail(Anedya("parent id is required to list child nodes", Bare(ErrListChildNodesParentIDRequired))), None;
    }
    req.Normalise();
    sent := Some(req.Payload());
    o := Classified(ex);
  }
}
