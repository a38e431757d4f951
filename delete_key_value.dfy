/** ValueStoreManagement.DeleteKeyValuePair (valueStore/api_op_delete_key_value.go). */
module DeleteKeyValue {
  import opened Wrappers
  import opened Errors
  import opened Exchange
  import opened ValueStore

  datatype DeleteKeyValueRequest = DeleteKeyValueRequest(namespace: NameSpace, key: string)

  datatype DeleteReply = DeleteReply

  predicate Acceptable(r: DeleteKeyValueRequest) {
    IsValidScope(r.namespace.scope) && r.namespace.id != "" && r.key != ""
  }

  /** The guard ladder: scope validity first, then the namespace id, then the key. */
  function Validate(input: Option<DeleteKeyValueRequest>): (r: Option<Error>)
    ensures r.None? <==> input.Some? && Acceptable(input.value)
    ensures input.None? ==> r == Some(Anedya("input is required", Bare(ErrInputRequired)))
    ensures input.Some? && !IsValidScope(input.value.namespace.scope) ==>
              r == Some(Anedya("invalid namespace scope", Bare(ErrInvalidNamespaceScope)))
    ensures input.Some? && IsValidScope(input.value.namespace.scope) && input.value.namespace.id == "" ==>
              r == Some(Anedya("namespace id is required", Bare(ErrValueNamespaceIdRequired)))
    ensures input.Some? && IsValidScope(input.value.namespace.scope) && input.value.namespace.id != "" && input.value.key == "" ==>
              r == Some(Anedya("key is required", Bare(ErrValueKeyRequired)))
  {
    if input.None? then Some(Anedya("input is required", Bare(ErrInputRequired)))
    else
      var req := input.value;
      if !IsValidScope(req.namespace.scope) then Some(Anedya("invalid namespace scope", Bare(ErrInvalidNamespaceScope)))
      else if req.namespace.id == "" then Some(Anedya("namespace id is required", Bare(ErrValueNamespaceIdRequired)))
      else if req.key == "" then Some(Anedya("key is required", Bare(ErrValueKeyRequired)))
      else None
  }

  /** DeleteKeyValuePair: validation, then a 2xx status, then the success flag; success returns nil. */
  function DeleteKeyValuePair(input: Option<DeleteKeyValueRequest>, ex: Exchange<DeleteReply>): (o: Outcome<()>)
    ensures Validate(input).Some? ==> o == Fail(Validate(input).value)
    ensures o.Ok? <==> input.Some? && Acceptable(input.value) && ex.Reply? && 200 <= ex.status < 300
                       && ex.body.Decoded? && ex.body.env.success
    ensures !o.FailWith?
  {
    match Validate(input)
    case Some(e) => Fail(e)
    case None => Managed("delete key value pair", Buffered, StatusThenSuccess(AnyTwoHundred), ex, (_: DeleteReply) => ())
  }

  /** Scope validity is checked first, so an empty scope is reported whatever else is missing. */
  lemma EmptyScopeFirst(id: string, key: string)
    ensures Validate(Some(DeleteKeyValueRequest(NameSpace("", id), key)))
         == Some(Anedya("invalid namespace scope", Bare(ErrInvalidNamespaceScope)))
  {
  }
}
