/** AccessTokenManagement.CreateNewAccessToken (accessTokens/api_op_create_token.go). */
module CreateToken {
  import opened Wrappers
  import opened Errors
  import opened Exchange
  import opened Text
  import opened Seqs

  /** A token policy: opaque resource selectors and the allowed permissions. */
  datatype Policy = Policy(resources: map<string, Json>, allow: seq<string>)

  datatype CreateTokenRequest = CreateTokenRequest(ttlSec: int, policy: Policy)

  datatype CreateTokenReply = CreateTokenReply(tokenId: string, token: string)

  datatype Token = Token(policy: Policy, ttlSec: int, tokenId: string, token: string)

  const ExpiryMinValue: int := 1
  const ExpiryMaxValue: int := 7776000

  /** The fourteen declared permission constants. */
  const Permissions: set<string> := {
    "data::getsnapshot", "data::getlatest", "data::gethistorical",
    "cmd::sendcommand", "cmd::listcommands", "cmd::getstatus", "cmd::invalidate",
    "vs::getvalue", "vs::setvalue", "vs::scankeys", "vs::deletekeys",
    "streams::connect", "health::gethbstats", "health::getstatus"
  }

  /** isValidPermission: the switch over the declared constants. */
  predicate IsValidPermission(p: string)
    ensures IsValidPermission(p) <==> p in Permissions
  {
    p == "data::getsnapshot" || p == "data::getlatest" || p == "data::gethistorical"
    || p == "cmd::sendcommand" || p == "cmd::listcommands" || p == "cmd::getstatus" || p == "cmd::invalidate"
    || p == "vs::getvalue" || p == "vs::setvalue" || p == "vs::scankeys" || p == "vs::deletekeys"
    || p == "streams::connect" || p == "health::gethbstats" || p == "health::getstatus"
  }

  lemma PermissionSetSize()
    ensures |Permissions| == 14
  {
  }

  predicate Acceptable(r: CreateTokenRequest) {
    ExpiryMinValue <= r.ttlSec <= ExpiryMaxValue && |r.policy.allow| > 0
    && forall i :: 0 <= i < |r.policy.allow| ==> IsValidPermission(r.policy.allow[i])
  }

  function ExpiryError(): Error {
    Anedya("ttlSec must be between " + Decimal(ExpiryMinValue) + " and " + Decimal(ExpiryMaxValue) + " seconds",
           Bare(ErrExpiryRequried))
  }

  /** The guard ladder: nil, then the TTL bounds, then an empty Allow, then any invalid permission. */
  function Validate(input: Option<CreateTokenRequest>): (r: Option<Error>)
    ensures r.None? <==> input.Some? && Acceptable(input.value)
    ensures input.None? ==> r == Some(Anedya("Input is required", Bare(ErrInputRequired)))
    ensures input.Some? && !(ExpiryMinValue <= input.value.ttlSec <= ExpiryMaxValue) ==> r == Some(ExpiryError())
    ensures input.Some? && ExpiryMinValue <= input.value.ttlSec <= ExpiryMaxValue && |input.value.policy.allow| == 0 ==>
              r == Some(Anedya("must contain at least one permission", Bare(ErrPolicyRequired)))
    ensures r.Some? && Is(r.value, ErrInavalidPermission) <==>
              input.Some? && ExpiryMinValue <= input.value.ttlSec <= ExpiryMaxValue && |input.value.policy.allow| > 0
              && exists i :: 0 <= i < |input.value.policy.allow| && !IsValidPermission(input.value.policy.allow[i])
  {
    if input.None? then Some(Anedya("Input is required", Bare(ErrInputRequired)))
    else
      var req := input.value;
      if req.ttlSec < ExpiryMinValue || req.ttlSec > ExpiryMaxValue then Some(ExpiryError())
      else if |req.policy.allow| == 0 then Some(Anedya("must contain at least one permission", Bare(ErrPolicyRequired)))
      else if FirstWhere(req.policy.allow, (p: string) => !IsValidPermission(p)).Some? then
        Some(Anedya("Invalid permission", Bare(ErrInavalidPermission)))
      else None
  }

  /** The Token takes its identifiers from the reply and its policy and TTL from the request. */
  function MakeToken(req: CreateTokenRequest, reply: CreateTokenReply): (t: Token)
    ensures t.tokenId == reply.tokenId && t.token == reply.token
    ensures t.policy == req.policy && t.ttlSec == req.ttlSec
  {
    Token(req.policy, req.ttlSec, reply.tokenId, reply.token)
  }

  /** CreateNewAccessToken: validation, then a 2xx status, then the success flag. */
  function CreateNewAccessToken(input: Option<CreateTokenRequest>, ex: Exchange<CreateTokenReply>): (o: Outcome<Token>)
    ensures Validate(input).Some? ==> o == Fail(Validate(input).value)
    ensures o.Ok? <==> input.Some? && Acceptable(input.value) && ex.Reply? && 200 <= ex.status < 300
                       && ex.body.Decoded? && ex.body.env.success
    ensures o.Ok? ==> o.value == MakeToken(input.value, ex.body.env.payload)
    ensures !o.FailWith?
  {
    match Validate(input)
    case Some(e) => Fail(e)
    case None =>
      var req := input.value;
      Managed("create token", Buffered, StatusThenSuccess(AnyTwoHundred), ex, (p: CreateTokenReply) => MakeToken(req, p))
  }

  /** The TTL bounds are inclusive at both ends. */
  lemma TtlBoundsInclusive(policy: Policy)
    ensures Validate(Some(CreateTokenRequest(0, policy))) == Some(ExpiryError())
    ensures Validate(Some(CreateTokenRequest(7776001, policy))) == Some(ExpiryError())
    ensures Validate(Some(CreateTokenRequest(1, policy))) != Some(ExpiryError())
    ensures Validate(Some(CreateTokenRequest(7776000, policy))) != Some(ExpiryError())
  {
  }

  /** The TTL is checked before the policy: a bad TTL hides an empty Allow. */
  lemma TtlBeforePolicy(resources: map<string, Json>)
    ensures Validate(Some(CreateTokenRequest(0, Policy(resources, [])))) == Some(ExpiryError())
  {
  }

  /** One invalid permission anywhere in Allow rejects the request. */
  lemma AnyInvalidPermissionRejects(req: CreateTokenRequest, i: nat)
    requires ExpiryMinValue <= req.ttlSec <= ExpiryMaxValue
    requires i < |req.policy.allow| && !IsValidPermission(req.policy.allow[i])
    ensures Validate(Some(req)) == Some(Anedya("Invalid permission", Bare(ErrInavalidPermission)))
  {
  }
}
