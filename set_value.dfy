/** ValueStoreManagement.SetValue (valueStore/api_op_set_value.go). */
module SetValue {
  import opened Wrappers
  import opened Errors
  import opened Exchange
  import opened ValueStore

  datatype SetValueRequest = SetValueRequest(namespace: NameSpace, key: string, value: string, valueType: string)

  /** The response carries nothing beyond the shared fields. */
  datatype SetValueReply = SetValueReply

  /** A request the validation ladder lets through. */
  predicate Acceptable(r: SetValueRequest) {
    IsValidScope(r.namespace.scope) && r.namespace.id != "" && r.key != "" && r.value != ""
    && IsValidValueType(r.valueType)
  }

  /** The guard ladder: the first failing check, in source order, or None. */
  function Validate(input: Option<SetValueRequest>): (r: Option<Error>)
    ensures r.None? <==> input.Some? && Acceptable(input.value)
    ensures input.None? ==> r == Some(Anedya("input is required", Bare(ErrInputRequired)))
    ensures input.Some? && input.value.namespace.scope == "" ==>
              r == Some(Anedya("namespace scope is required", Bare(ErrNamespaceScopeRequired)))
    ensures input.Some? && input.value.namespace.scope != "" && !IsValidScope(input.value.namespace.scope) ==>
              r == Some(Anedya("invalid namespace scope", Bare(ErrInvalidNamespaceScope)))
    ensures input.Some? && IsValidScope(input.value.namespace.scope) && input.value.namespace.id == "" ==>
              r == Some(Anedya("namespace id is required", Bare(ErrValueNamespaceIdRequired)))
    ensures input.Some? && IsValidScope(input.value.namespace.scope) && input.value.namespace.id != ""
            && input.value.key == "" ==>
              r == Some(Anedya("key is required", Bare(ErrValueKeyRequired)))
    ensures input.Some? && IsValidScope(input.value.namespace.scope) && input.value.namespace.id != ""
            && input.value.key != "" && input.value.value == "" ==>
              r == Some(Anedya("value is required", Bare(ErrValueRequired)))
    ensures input.Some? && IsValidScope(input.value.namespace.scope) && input.value.namespace.id != ""
            && input.value.key != "" && input.value.value != "" && !IsValidValueType(input.value.valueType) ==>
              r == Some(Anedya("invalid value type", Bare(ErrInvalidValueType)))
    ensures r.Some? && Is(r.value, ErrInvalidValueType) ==>
              input.Some? && IsValidScope(input.value.namespace.scope) && input.value.namespace.id != ""
              && input.value.key != "" && input.value.value != ""
  {
    if input.None? then Some(Anedya("input is required", Bare(ErrInputRequired)))
    else
      var req := input.value;
      if req.namespace.scope == "" then Some(Anedya("namespace scope is required", Bare(ErrNamespaceScopeRequired)))
      else if !IsValidScope(req.namespace.scope) then Some(Anedya("invalid namespace scope", Bare(ErrInvalidNamespaceScope)))
      else if req.namespace.id == "" then Some(Anedya("namespace id is required", Bare(ErrValueNamespaceIdRequired)))
      else if req.key == "" then Some(Anedya("key is required", Bare(ErrValueKeyRequired)))
      else if req.value == "" then Some(Anedya("value is required", Bare(ErrValueRequired)))
      else if !IsValidValueType(req.valueType) then Some(Anedya("invalid value type", Bare(ErrInvalidValueType)))
      else None
  }

  /** SetValue: validation, then the pipeline; only the success flag is consulted and success returns nil. */
  function SetValue(input: Option<SetValueRequest>, ex: Exchange<SetValueReply>): (o: Outcome<()>)
    ensures Validate(input).Some? ==> o == Fail(Validate(input).value)
    ensures o.Ok? <==> input.Some? && Acceptable(input.value) && ex.Reply? && ex.body.Decoded? && ex.body.env.success
    ensures !o.FailWith?
  {
    match Validate(input)
    case Some(e) => Fail(e)
    case None => Managed("set value", Buffered, SuccessOnly, ex, (_: SetValueReply) => ())
  }

  /** The required-field checks run in source order: the namespace id, then the key, then the value. */
  lemma RequiredFieldsInOrder(ns: NameSpace, key: string, value: string, valueType: string)
    requires IsValidScope(ns.scope)
    ensures ns.id == "" ==>
      Validate(Some(SetValueRequest(ns, key, value, valueType))) == Some(Anedya("namespace id is required", Bare(ErrValueNamespaceIdRequired)))
    ensures ns.id != "" && key == "" ==>
      Validate(Some(SetValueRequest(ns, key, value, valueType))) == Some(Anedya("key is required", Bare(ErrValueKeyRequired)))
    ensures ns.id != "" && key != "" && value == "" ==>
      Validate(Some(SetValueRequest(ns, key, value, valueType))) == Some(Anedya("value is required", Bare(ErrValueRequired)))
  {
  }

  /** A successful reply with a failing HTTP status still succeeds: the status is never read. */
  lemma StatusIgnored(req: SetValueRequest, status: int)
    requires Acceptable(req)
    ensures SetValue(Some(req), Reply(status, "", Decoded(Envelope(true, "", "", SetValueReply)))) == Ok(())
  {
  }
}
