/**
 * NodeManagement.ListNodes (nodes/list_nodes.go). The request is an object: a zero limit is
 * replaced by 1000 in the caller's struct before it is encoded.
 */
module LegacyListNodes {
  import opened Wrappers
  import opened Errors
  import opened Exchange
  import opened NodesPackage

  const DefaultLimit: int := 1000

  datatype ListNodePayload = ListNodePayload(limit: int, offset: int, order: string)

  datatype ListNodesReply = ListNodesReply(currentCount: int, totalCount: int, nodes: seq<string>, offset: int)

  /** The limit sent: only exactly 0 is defaulted. */
  function DefaultedLimit(limit: int): (l: int)
    ensures limit == 0 ==> l == DefaultLimit
    ensures limit != 0 ==> l == limit
  {
    if limit == 0 then DefaultLimit else limit
  }

  class ListNodeRequest {
    var limit: int
    var offset: int
    var order: string

    constructor (limit: int, offset: int, order: string)
      ensures this.limit == limit && this.offset == offset && this.order == order
    {
      this.limit := limit;
      this.offset := offset;
      this.order := order;
    }

    function Payload(): (p: ListNodePayload)
      reads this
      ensures p.limit == limit && p.offset == offset && p.order == order
    {
      ListNodePayload(limit, offset, order)
    }
  }

  /** What ListNodes returns: exactly 200, then the success flag, then the whole decoded response. */
  function Spec(ex: Exchange<ListNodesReply>): (o: Outcome<Envelope<ListNodesReply>>)
    ensures o.Ok? <==> ex.Reply? && ex.status == 200 && ex.body.Decoded? && ex.body.env.success
    ensures o.Ok? ==> o.value == ex.body.env
    ensures !o.FailWith?
  {
    Pipeline("failed to fetch node list", ex)
  }

  /**
   * ListNodes: the request is dereferenced without a nil check, so it must be an object;
   * the defaulted limit stays in it whatever the reply.
   */
  method ListNodes(req: ListNodeRequest, ex: Exchange<ListNodesReply>) returns (o: Outcome<Envelope<ListNodesReply>>, sent: ListNodePayload)
    modifies req
    ensures req.limit == DefaultedLimit(old(req.limit))
    ensures req.offset == old(req.offset) && req.order == old(req.order)
    ensures sent == req.Payload()
    ensures o == Spec(ex)
  {
    if req.limit == 0 {
      req.limit := DefaultLimit;
    }
    sent := req.Payload();
    o := Spec(ex);
  }

  /** Negative and oversized limits are sent as given. */
  lemma OnlyZeroDefaulted(limit: int)
    requires limit < 0 || limit > 1000
    ensures DefaultedLimit(limit) == limit
  {
  }
}
