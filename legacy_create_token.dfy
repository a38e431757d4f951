/** The older CreateNewAccessToken (accessTokens/CreateToken.go), reporting plain fmt errors. */
module LegacyCreateToken {
  import opened Wrappers
  import opened Errors
  import opened Exchange
  import opened Text

  datatype Policy = Policy(resources: set<string>, allow: seq<string>)

  datatype CreateTokenRequest = CreateTokenRequest(expiry: int, policy: Policy)

  datatype CreateTokenReply = CreateTokenReply(tokenId: string, token: string)

  /** The Token this version returns; Policy and Expiry are left at their zero values. */
  datatype Token = Token(policy: Policy, expiry: int, tokenId: string, token: string)

  const ExpiryMaxValue: int := 7776000
  const ExpiryMinValue: int := 1

  predicate Acceptable(r: CreateTokenRequest) {
    ExpiryMinValue <= r.expiry <= ExpiryMaxValue && |r.policy.allow| > 0
  }

  function ExpiryError(): Error {
    Adhoc("Expiry value must lie between " + Decimal(ExpiryMinValue) + " and " + Decimal(ExpiryMaxValue))
  }

  /** Nil, then the expiry bounds, then an empty Allow; permission strings are not checked. */
  function Validate(input: Option<CreateTokenRequest>): (r: Option<Error>)
    ensures r.None? <==> input.Some? && Acceptable(input.value)
    ensures r.Some? ==> NoSentinel(r.value)
    ensures input.None? ==> r == Some(Adhoc("request body is empty"))
    ensures input.Some? && !(ExpiryMinValue <= input.value.expiry <= ExpiryMaxValue) ==> r == Some(ExpiryError())
    ensures input.Some? && ExpiryMinValue <= input.value.expiry <= ExpiryMaxValue && |input.value.policy.allow| == 0 ==>
              r == Some(Adhoc("policy.allow must contain at least one permission"))
  {
    if input.None? then Some(Adhoc("request body is empty"))
    else if input.value.expiry < ExpiryMinValue || input.value.expiry > ExpiryMaxValue then Some(ExpiryError())
    else if |input.value.policy.allow| == 0 then Some(Adhoc("policy.allow must contain at least one permission"))
    else None
  }

  function EmptyPolicy(): Policy {
    Policy({}, [])
  }

  /**
   * CreateNewAccessToken: foreign errors are returned as they are; a non-2xx status fails
   * before the body is decoded; then the success flag; the Token carries only the identifiers.
   */
  function CreateNewAccessToken(input: Option<CreateTokenRequest>, ex: Exchange<CreateTokenReply>): (o: Outcome<Token>)
    ensures Validate(input).Some? ==> o == Fail(Validate(input).value)
    ensures o.Ok? <==> input.Some? && Acceptable(input.value) && ex.Reply? && 200 <= ex.status < 300
                       && ex.body.Decoded? && ex.body.env.success
    ensures o.Ok? ==> o.value == Token(EmptyPolicy(), 0, ex.body.env.payload.tokenId, ex.body.env.payload.token)
    ensures Validate(input).None? && ex.Reply? && !(200 <= ex.status < 300) ==>
              o == Fail(Adhoc("api failed with status " + Decimal(ex.status) + ": " + ex.raw))
    ensures o.Fail? ==> NoSentinel(o.err)
    ensures !o.FailWith?
  {
    match Validate(input)
    case Some(e) => Fail(e)
    case None =>
      StatusFirst(AnyTwoHundred, "api failed with status ", None, ex,
                  (p: CreateTokenReply) => Token(EmptyPolicy(), 0, p.tokenId, p.token))
  }

  /** A bad status is reported even when the body could not be decoded: the status is read first. */
  lemma StatusBeforeDecode(req: CreateTokenRequest, status: int, raw: string, cause: string)
    requires Acceptable(req) && !(200 <= status < 300)
    ensures CreateNewAccessToken(Some(req), Reply(status, raw, Undecodable(cause)))
         == Fail(Adhoc("api failed with status " + Decimal(status) + ": " + raw))
  {
  }

  /** Permission strings are never inspected: any non-empty Allow passes validation. */
  lemma PermissionsUnchecked(expiry: int, resources: set<string>, allow: seq<string>)
    requires ExpiryMinValue <= expiry <= ExpiryMaxValue && |allow| > 0
    ensures Validate(Some(CreateTokenRequest(expiry, Policy(resources, allow)))) == None
  {
  }

  /** No failure of this version matches a sentinel with errors.Is. */
  lemma NoSentinelMatches(input: Option<CreateTokenRequest>, ex: Exchange<CreateTokenReply>, target: Sentinel)
    ensures CreateNewAccessToken(input, ex).Fail? ==> !Is(CreateNewAccessToken(input, ex).err, target)
  {
    if CreateNewAccessToken(input, ex).Fail? {
      AdhocChainMatchesNothing(CreateNewAccessToken(input, ex).err, target);
    }
  }
}
