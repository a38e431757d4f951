/** ValueStoreManagement.GetValue (valueStore/api_op_get_value.go). */
module GetValue {
  import opened Wrappers
  import opened Errors
  import opened Exchange
  import opened ValueStore

  datatype GetValueRequest = GetValueRequest(namespace: NameSpace, key: string)

  /** The endpoint-specific fields of the response. */
  datatype GetValueReply = GetValueReply(namespace: NameSpace, key: string, valueType: string, size: int, value: Json)

  /** The Value handed back to the caller. */
  datatype StoredValue = StoredValue(namespace: NameSpace, key: string, value: Json, valueType: string, size: int)

  predicate Acceptable(r: GetValueRequest) {
    r.namespace.id != "" && IsValidScope(r.namespace.scope) && r.key != ""
  }

  /** The guard ladder: the namespace id is checked before the scope, and no check tells an empty scope apart. */
  function Validate(input: Option<GetValueRequest>): (r: Option<Error>)
    ensures r.None? <==> input.Some? && Acceptable(input.value)
    ensures input.None? ==> r == Some(Anedya("get value request cannot be nil", Bare(ErrInputRequired)))
    ensures input.Some? && input.value.namespace.id == "" ==>
              r == Some(Anedya("namespace id is required", Bare(ErrValueNamespaceIdRequired)))
    ensures input.Some? && input.value.namespace.id != "" && !IsValidScope(input.value.namespace.scope) ==>
              r == Some(Anedya("invalid namespace scope", Bare(ErrInvalidNamespaceScope)))
    ensures input.Some? && input.value.namespace.id != "" && IsValidScope(input.value.namespace.scope) && input.value.key == "" ==>
              r == Some(Anedya("key is required", Bare(ErrValueKeyRequired)))
  {
    if input.None? then Some(Anedya("get value request cannot be nil", Bare(ErrInputRequired)))
    else
      var req := input.value;
      if req.namespace.id == "" then Some(Anedya("namespace id is required", Bare(ErrValueNamespaceIdRequired)))
      else if !IsValidScope(req.namespace.scope) then Some(Anedya("invalid namespace scope", Bare(ErrInvalidNamespaceScope)))
      else if req.key == "" then Some(Anedya("key is required", Bare(ErrValueKeyRequired)))
      else None
  }

  /** The result keeps the caller's namespace and takes everything else from the reply. */
  function Result(req: GetValueRequest, reply: GetValueReply): (v: StoredValue)
    ensures v.namespace == req.namespace
    ensures v.key == reply.key && v.value == reply.value && v.valueType == reply.valueType && v.size == reply.size
  {
    StoredValue(req.namespace, reply.key, reply.value, reply.valueType, reply.size)
  }

  /** GetValue: validation, then a 2xx status, then the success flag. */
  function GetValue(input: Option<GetValueRequest>, ex: Exchange<GetValueReply>): (o: Outcome<StoredValue>)
    ensures Validate(input).Some? ==> o == Fail(Validate(input).value)
    ensures o.Ok? <==> input.Some? && Acceptable(input.value) && ex.Reply? && 200 <= ex.status < 300
                       && ex.body.Decoded? && ex.body.env.success
    ensures o.Ok? ==> o.value == Result(input.value, ex.body.env.payload)
    ensures o.Ok? ==> o.value.namespace == input.value.namespace && o.value.value == ex.body.env.payload.value
    ensures !o.FailWith?
  {
    match Validate(input)
    case Some(e) => Fail(e)
    case None =>
      var req := input.value;
      Managed("get value", Buffered, StatusThenSuccess(AnyTwoHundred), ex, (p: GetValueReply) => Result(req, p))
  }

  /** An empty namespace id is reported even when the scope is invalid too. */
  lemma IdBeforeScope(scope: string, key: string)
    ensures Validate(Some(GetValueRequest(NameSpace(scope, ""), key)))
         == Some(Anedya("namespace id is required", Bare(ErrValueNamespaceIdRequired)))
  {
  }

  /** An empty scope is reported as an invalid scope, not as a missing one. */
  lemma EmptyScopeIsInvalidScope(id: string, key: string)
    requires id != ""
    ensures Validate(Some(GetValueRequest(NameSpace("", id), key)))
         == Some(Anedya("invalid namespace scope", Bare(ErrInvalidNamespaceScope)))
  {
  }

  /** A reply claiming success under a non-2xx status is turned into the server's error. */
  lemma StatusOverridesSuccess(req: GetValueRequest, status: int, error: string, code: string, reply: GetValueReply)
    requires Acceptable(req) && !(200 <= status < 300)
    ensures GetValue(Some(req), Reply(status, "", Decoded(Envelope(true, error, code, reply)))) == Fail(GetError(code, error))
  {
  }
}
