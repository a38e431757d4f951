/** NodeManagement.GetNodeList (nodes/api_op_get_list_nodes.go). */
module GetNodeList {
  import opened Wrappers
  import opened Errors
  import opened Exchange

  datatype GetNodeListRequest = GetNodeListRequest(limit: int, offset: int, order: string)

  datatype NodeListReply = NodeListReply(currentCount: int, totalCount: int, nodes: seq<string>, offset: int)

  datatype NodeListResult = NodeListResult(currentCount: int, totalCount: int, offset: int, nodes: seq<string>)

  const MaxLimit: int := 1000

  predicate ValidOrder(order: string) {
    order == "" || order == "asc" || order == "desc"
  }

  predicate Acceptable(r: GetNodeListRequest) {
    1 <= r.limit <= MaxLimit && ValidOrder(r.order)
  }

  /** Nil, then the limit range, then the order; the offset is not checked. */
  function Validate(input: Option<GetNodeListRequest>): (r: Option<Error>)
    ensures r.None? <==> input.Some? && Acceptable(input.value)
    ensures input.None? ==> r == Some(Anedya("get node list request cannot be nil", Bare(ErrNodeListRequestNil)))
    ensures input.Some? && !(1 <= input.value.limit <= MaxLimit) ==>
              r == Some(Anedya("limit must be between 1 and 1000", Bare(ErrNodeListInvalidLimit)))
    ensures input.Some? && 1 <= input.value.limit <= MaxLimit && !ValidOrder(input.value.order) ==>
              r == Some(Anedya("order must be either 'asc' or 'desc'", Bare(ErrNodeListInvalidOrder)))
  {
    if input.None? then Some(Anedya("get node list request cannot be nil", Bare(ErrNodeListRequestNil)))
    else if input.value.limit <= 0 || input.value.limit > MaxLimit then
      Some(Anedya("limit must be between 1 and 1000", Bare(ErrNodeListInvalidLimit)))
    else if input.value.order != "" && input.value.order != "asc" && input.value.order != "desc" then
      Some(Anedya("order must be either 'asc' or 'desc'", Bare(ErrNodeListInvalidOrder)))
    else None
  }

  function Result(reply: NodeListReply): (r: NodeListResult)
    ensures r.currentCount == reply.currentCount && r.totalCount == reply.totalCount
    ensures r.offset == reply.offset && r.nodes == reply.nodes
  {
    NodeListResult(reply.currentCount, reply.totalCount, reply.offset, reply.nodes)
  }

  /** GetNodeList: validation, then the success flag only. */
  function GetNodeList(input: Option<GetNodeListRequest>, ex: Exchange<NodeListReply>): (o: Outcome<NodeListResult>)
    ensures Validate(input).Some? ==> o == Fail(Validate(input).value)
    ensures o.Ok? <==> input.Some? && Acceptable(input.value) && ex.Reply? && ex.body.Decoded? && ex.body.env.success
    ensures o.Ok? ==> o.value == Result(ex.body.env.payload)
    ensures !o.FailWith?
  {
    match Validate(input)
    case Some(e) => Fail(e)
    case None => Managed("get node list", Buffered, SuccessOnly, ex, Result)
  }

  /** A zero limit is an error here; no default is applied. */
  lemma ZeroLimitRejected(offset: int, order: string)
    ensures Validate(Some(GetNodeListRequest(0, offset, order)))
         == Some(Anedya("limit must be between 1 and 1000", Bare(ErrNodeListInvalidLimit)))
  {
  }

  /** The offset never decides validation. */
  lemma OffsetUnchecked(r: GetNodeListRequest, offset: int)
    ensures Validate(Some(r.(offset := offset))) == Validate(Some(r))
  {
  }
}
