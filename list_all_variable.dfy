/**
 * VariableManagement.ListAllVariable (variable/api_op_list_all_variable.go): pagination
 * defaults, then an indexed loop converting each listed item into a Variable.
 */
module ListAllVariable {
  import opened Wrappers
  import opened Errors
  import opened Exchange
  import opened CreateVariable

  datatype ListAllVariableRequest = ListAllVariableRequest(limit: int, offset: int)

  datatype VariableListItem = VariableListItem(variableId: string, name: string, variable: string, ttl: int,
                                               varType: string, description: string)

  datatype ListAllVariableReply = ListAllVariableReply(currentCount: int, offset: int, totalCount: int,
                                                       nodeParams: seq<VariableListItem>)

  datatype ListVariablesResult = ListVariablesResult(variables: seq<Variable>, currentCount: int, offset: int, totalCount: int)

  const DefaultLimit: int := 100

  /** The limit sent: a non-positive one becomes 100; there is no upper bound. */
  function NormalLimit(limit: int): (l: int)
    ensures l > 0
    ensures limit > 0 ==> l == limit
    ensures limit <= 0 ==> l == DefaultLimit
  {
    if limit <= 0 then DefaultLimit else limit
  }

  /** The offset sent: a negative one becomes 0. */
  function NormalOffset(offset: int): (o: int)
    ensures o >= 0
    ensures offset >= 0 ==> o == offset
    ensures offset < 0 ==> o == 0
  {
    if offset < 0 then 0 else offset
  }

  /** The request payload for the caller's limit and offset. */
  function Payload(limit: int, offset: int): (p: ListAllVariableRequest)
    ensures p.limit > 0 && p.offset >= 0
    ensures limit > 0 && offset >= 0 ==> p == ListAllVariableRequest(limit, offset)
  {
    ListAllVariableRequest(NormalLimit(limit), NormalOffset(offset))
  }

  /** One listed item as an SDK Variable: every field copied. */
  function ToVariable(item: VariableListItem): (v: Variable)
    ensures v.variableId == item.variableId && v.name == item.name && v.varType == item.varType
    ensures v.variable == item.variable && v.description == item.description && v.ttl == item.ttl
  {
    Variable(item.variableId, item.varType, item.name, item.description, item.variable, item.ttl)
  }

  /** The specification of the conversion loop: the items converted one by one, in order. */
  function ConvertAll(items: seq<VariableListItem>): (vs: seq<Variable>)
    ensures |vs| == |items|
    ensures forall i :: 0 <= i < |items| ==> vs[i] == ToVariable(items[i])
  {
    seq(|items|, i requires 0 <= i < |items| => ToVariable(items[i]))
  }

  function Result(reply: ListAllVariableReply): (r: ListVariablesResult)
    ensures r.variables == ConvertAll(reply.nodeParams)
    ensures r.currentCount == reply.currentCount && r.offset == reply.offset && r.totalCount == reply.totalCount
  {
    ListVariablesResult(ConvertAll(reply.nodeParams), reply.currentCount, reply.offset, reply.totalCount)
  }

  /** What ListAllVariable returns: the managed pipeline, a 2xx status then the success flag. */
  function Spec(ex: Exchange<ListAllVariableReply>): (o: Outcome<ListVariablesResult>)
    ensures o.Ok? <==> ex.Reply? && 200 <= ex.status < 300 && ex.body.Decoded? && ex.body.env.success
    ensures o.Ok? ==> o.value == Result(ex.body.env.payload)
    ensures !o.FailWith?
  {
    Managed("ListAllVariable", Buffered, StatusThenSuccess(AnyTwoHundred), ex, Result)
  }

  /** The indexed conversion loop: `variables := make([]Variable, n)` filled position by position. */
  method Convert(items: seq<VariableListItem>) returns (vs: seq<Variable>)
    ensures vs == ConvertAll(items)
  {
    var variables := new Variable[|items|];
    var i := 0;
    while i < |items|
      invariant 0 <= i <= |items|
      invariant forall k :: 0 <= k < i ==> variables[k] == ToVariable(items[k])
    {
      variables[i] := ToVariable(items[i]);
      i := i + 1;
    }
    vs := variables[..];
  }

  /**
   * ListAllVariable: the limit and offset are normalised, the payload is sent, and an
   * accepted reply's items are converted by the loop.
   */
  method ListAllVariable(limit: int, offset: int, ex: Exchange<ListAllVariableReply>) returns (o: Outcome<ListVariablesResult>, sent: ListAllVariableRequest)
    ensures sent == Payload(limit, offset)
    ensures o == Spec(ex)
  {
    var l, off := limit, offset;
    if l <= 0 {
      l := DefaultLimit;
    }
    if off < 0 {
      off := 0;
    }
    sent := ListAllVariableRequest(l, off);
    var classified := Managed("ListAllVariable", Buffered, StatusThenSuccess(AnyTwoHundred), ex, (p: ListAllVariableReply) => p);
    match classified
    case Ok(reply) =>
      var variables := Convert(reply.nodeParams);
      o := Ok(ListVariablesResult(variables, reply.currentCount, reply.offset, reply.totalCount));
    case Fail(e) =>
      o := Fail(e);
    case FailWith(_, e) =>
      assert false;
  }

  /** Pagination defaults are a fixpoint: sending a returned payload again sends the same one. */
  lemma PayloadIdempotent(limit: int, offset: int)
    ensures Payload(Payload(limit, offset).limit, Payload(limit, offset).offset) == Payload(limit, offset)
  {
  }

  /** The conversion preserves the item order: the k-th Variable carries the k-th item's id. */
  lemma ConversionKeepsOrder(items: seq<VariableListItem>, j: int, k: int)
    requires 0 <= j < k < |items| && items[j].variableId != items[k].variableId
    ensures ConvertAll(items)[j] != ConvertAll(items)[k]
  {
  }

  /** Converting a concatenation converts each part. */
  lemma {:induction false} ConvertAllDistributes(a: seq<VariableListItem>, b: seq<VariableListItem>)
    ensures ConvertAll(a + b) == ConvertAll(a) + ConvertAll(b)
  {
    assert forall i :: 0 <= i < |a + b| ==> (a + b)[i] == (if i < |a| then a[i] else b[i - |a|]);
  }
}
