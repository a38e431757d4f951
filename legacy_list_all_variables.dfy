/**
 * The older VariableManagement.ListAllVariable (variable/ListAllVariables.go): only a zero
 * limit is defaulted, the offset is sent as given, and the items are converted by a loop.
 */
module LegacyListAllVariables {
  import opened Wrappers
  import opened Errors
  import opened Exchange
  import Listing = ListAllVariable

  const DefaultLimit: int := 100

  /** The limit sent: exactly 0 becomes 100; negative limits pass through. */
  function DefaultedLimit(limit: int): (l: int)
    ensures limit == 0 ==> l == DefaultLimit
    ensures limit != 0 ==> l == limit
  {
    if limit == 0 then DefaultLimit else limit
  }

  /** What the call returns: status first, then decoding, then the success flag. */
  function Spec(ex: Exchange<Listing.ListAllVariableReply>): (o: Outcome<Listing.ListVariablesResult>)
    ensures o.Ok? <==> ex.Reply? && 200 <= ex.status < 300 && ex.body.Decoded? && ex.body.env.success
    ensures o.Ok? ==> o.value == Listing.Result(ex.body.env.payload)
    ensures ex.ReadFail? ==> o == Fail(WrapForeign("failed to read response: ", ex.cause))
    ensures o.Fail? ==> NoSentinel(o.err)
    ensures !o.FailWith?
  {
    StatusFirst(AnyTwoHundred, "api failed with status ", Some("failed to read response: "), ex, Listing.Result)
  }

  /**
   * ListAllVariable: the limit default, the offset branch that assigns 0 to a zero offset
   * and so changes nothing, then the item conversion loop.
   */
  method ListAllVariable(limit: int, offset: int, ex: Exchange<Listing.ListAllVariableReply>) returns (o: Outcome<Listing.ListVariablesResult>, sent: Listing.ListAllVariableRequest)
    ensures sent == Listing.ListAllVariableRequest(DefaultedLimit(limit), offset)
    ensures o == Spec(ex)
  {
    var l, off := limit, offset;
    if l == 0 {
      l := DefaultLimit;
    }
    if off == 0 {
      off := 0;
    }
    sent := Listing.ListAllVariableRequest(l, off);
    var checked := StatusFirst(AnyTwoHundred, "api failed with status ", Some("failed to read response: "), ex,
                               (p: Listing.ListAllVariableReply) => p);
    match checked
    case Ok(reply) =>
      var variables := Listing.Convert(reply.nodeParams);
      o := Ok(Listing.ListVariablesResult(variables, reply.currentCount, reply.offset, reply.totalCount));
    case Fail(e) =>
      o := Fail(e);
    case FailWith(_, e) =>
      assert false;
  }

  /** A negative limit or offset reaches the server unchanged, where the newer version would correct it. */
  lemma NegativesSentUnchanged(limit: int, offset: int)
    requires limit < 0 && offset < 0
    ensures Listing.ListAllVariableRequest(DefaultedLimit(limit), offset) != Listing.Payload(limit, offset)
    ensures DefaultedLimit(limit) == limit
  {
  }

  /** Both versions produce the same result from an accepted reply. */
  lemma AcceptedRepliesAgree(ex: Exchange<Listing.ListAllVariableReply>)
    ensures Spec(ex).Ok? <==> Listing.Spec(ex).Ok?
    ensures Spec(ex).Ok? ==> Spec(ex) == Listing.Spec(ex)
  {
  }
}
