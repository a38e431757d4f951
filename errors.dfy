/**
 * The SDK's error vocabulary: the sentinel errors, the structured AnedyaError, and the
 * registry that turns a server reason code into a sentinel (errors/errors.go).
 */
module Errors {
  import opened Wrappers

  /** Every sentinel error variable the core refers to; each one is a distinct value. */
  datatype Sentinel
    // declared in errors/*.go
    = ErrAddChildNodeEmptyChildren
    | ErrAddChildNodeInvalidChild
    | ErrAddChildNodeParentIDRequired
    | ErrAddChildNodeRequestNil
    | ErrAggregationComputeRequired
    | ErrAggregationMethodRequired
    | ErrAuthorizeDeviceDeviceIDRequired
    | ErrAuthorizeDeviceNodeIDRequired
    | ErrAuthorizeDeviceRequestNil
    | ErrClearChildNodesParentIDRequired
    | ErrClearChildNodesRequestNil
    | ErrCommandNotFound
    | ErrCommandRequired
    | ErrDataRequired
    | ErrDeleteNodeIDRequired
    | ErrDeleteNodeRequestNil
    | ErrExpiryRequried
    | ErrFilterNodesRequired
    | ErrGetConnectionKeyNodeIDRequired
    | ErrGetConnectionKeyRequestNil
    | ErrHealthLimitExceeded
    | ErrInavalidPermission
    | ErrInvalidAggregationMethod
    | ErrInvalidCommandID
    | ErrInvalidCommandType
    | ErrInvalidExpiry
    | ErrInvalidFilter
    | ErrInvalidFilterType
    | ErrInvalidInterval
    | ErrInvalidIntervalMeasure
    | ErrInvalidLimit
    | ErrInvalidNamespaceScope
    | ErrInvalidNode
    | ErrInvalidNodeID
    | ErrInvalidOffset
    | ErrInvalidOrder
    | ErrInvalidOrderBy
    | ErrInvalidSortOrder
    | ErrInvalidTimeRange
    | ErrInvalidTimestamp
    | ErrInvalidTimezone
    | ErrInvalidValueType
    | ErrKeyNotFound
    | ErrListChildNodesParentIDRequired
    | ErrListChildNodesRequestNil
    | ErrLogsRetentionLimit
    | ErrNamespaceScopeRequired
    | ErrNodeDetailsRequestNil
    | ErrNodeListInvalidLimit
    | ErrNodeListInvalidOrder
    | ErrNodeListRequestNil
    | ErrNodeNameRequired
    | ErrNodesEmpty
    | ErrOrderByRequired
    | ErrPolicyRequired
    | ErrRemoveChildNodeChildIDRequired
    | ErrRemoveChildNodeParentIDRequired
    | ErrRemoveChildNodeRequestNil
    | ErrRequestBuildFailed
    | ErrRequestEncodeFailed
    | ErrRequestFailed
    | ErrRequestNil
    | ErrResponseDecodeFailed
    | ErrTokenIdRequired
    | ErrTypeMismatch
    | ErrUnauthorized
    | ErrUnknown
    | ErrUnknownDataType
    | ErrUpdateNodeEmptyUpdates
    | ErrUpdateNodeIDRequired
    | ErrUpdateNodeRequestNil
    | ErrValueKeyRequired
    | ErrValueNamespaceIdRequired
    | ErrValueRequired
    | ErrVariableNameRequired
    | ErrVariableNotFound
    | ErrVariableRequired
    | ErrVariableTypeRequired
    | ErrNodeManagementNotInitialized
    | ErrNodeNotFound
    // referenced by the core but declared in no file of the repository
    | ErrInputRequired
    | ErrResponseReadFailed
    | ErrInvalidInput
    | ErrAddChildNodeParentIdRequired
    | ErrNodeDeviceIDExists
    | ErrNodeChildExists
    | ErrNodeUniqueAliasViolation
    | ErrNodeUniqueChildViolation
    | ErrNodeChildNotFound
    | ErrNodeInvalidParentID
    | ErrNodeInvalidChildID
    | ErrNodeDeviceNotFound
    | ErrNodeInvalidUUID
    | ErrInvalidToken

  /** An error value as the SDK produces it. */
  datatype Error =
    /** *AnedyaError{Message, Err}; Err is usually a sentinel. */
    | Anedya(message: string, err: Error)
    /** A sentinel returned as it is. */
    | Bare(sentinel: Sentinel)
    /** errors.New or fmt.Errorf without %w: text only, nothing to unwrap. */
    | Adhoc(text: string)
    /** fmt.Errorf with a %w verb: the formatted text, wrapping `cause`. */
    | Chained(text: string, cause: Error)

  /** The error behind `e` that Go's Unwrap exposes, if any. */
  function Unwrap(e: Error): (r: Option<Error>)
    ensures r.Some? <==> e.Anedya? || e.Chained?
    ensures e.Anedya? ==> r == Some(e.err)
    ensures e.Chained? ==> r == Some(e.cause)
  {
    match e
    case Anedya(_, inner) => Some(inner)
    case Chained(_, cause) => Some(cause)
    case _ => None
  }

  /** errors.Is(e, target) for a sentinel target: `target` occurs along the Unwrap chain of `e`. */
  predicate Is(e: Error, target: Sentinel)
    decreases e
  {
    match e
    case Bare(s) => s == target
    case Anedya(_, inner) => Is(inner, target)
    case Chained(_, cause) => Is(cause, target)
    case Adhoc(_) => false
  }

  /** Is follows Unwrap one step at a time, as errors.Is does. */
  lemma IsFollowsUnwrap(e: Error, target: Sentinel)
    ensures Is(e, target) <==> e == Bare(target) || (Unwrap(e).Some? && Is(Unwrap(e).value, target))
  {
  }

  /** An error whose chain holds no sentinel matches no sentinel target. */
  lemma {:induction false} AdhocChainMatchesNothing(e: Error, target: Sentinel)
    requires NoSentinel(e)
    ensures !Is(e, target)
    decreases e
  {
    match e
    case Anedya(_, inner) => AdhocChainMatchesNothing(inner, target);
    case Chained(_, cause) => AdhocChainMatchesNothing(cause, target);
    case Adhoc(_) =>
  }

  predicate NoSentinel(e: Error)
    decreases e
  {
    match e
    case Bare(_) => false
    case Anedya(_, inner) => NoSentinel(inner)
    case Chained(_, cause) => NoSentinel(cause)
    case Adhoc(_) => true
  }

  /** fmt.Errorf(prefix + "%w", err) around a foreign error whose text is `cause`. */
  function WrapForeign(prefix: string, cause: string): (e: Error)
    ensures NoSentinel(e)
    ensures Unwrap(e) == Some(Adhoc(cause))
  {
    Chained(prefix + cause, Adhoc(cause))
  }

  /** The constant reason-code registry `codeMap`; nothing writes it after initialisation. */
  const CodeMap: map<string, Sentinel> := map[
    "generic::malformedrequest" := ErrInvalidInput,
    "node::devidexists" := ErrNodeDeviceIDExists,
    "node::childexists" := ErrNodeChildExists,
    "node::uniquealiasviolation" := ErrNodeUniqueAliasViolation,
    "node::uniquechildviolation" := ErrNodeUniqueChildViolation,
    "node::childnotfound" := ErrNodeChildNotFound,
    "node::invalidparentid" := ErrNodeInvalidParentID,
    "node::invalidchildid" := ErrNodeInvalidChildID,
    "node::nodenotfound" := ErrNodeNotFound,
    "node::devicenotfound" := ErrNodeDeviceNotFound,
    "node::invaliduuid" := ErrNodeInvalidUUID,
    "data::invalidorder" := ErrInvalidOrder,
    "data::variablenotfound" := ErrVariableNotFound,
    "data::invalidnodeid" := ErrInvalidNodeID,
    "logs::invalidnodeid" := ErrInvalidNodeID,
    "logs::invalidtimerange" := ErrInvalidTimeRange,
    "variable::namerequired" := ErrVariableNameRequired,
    "variable::variablerequired" := ErrVariableRequired,
    "variable::typerequired" := ErrVariableTypeRequired,
    "health::limitexceeded" := ErrHealthLimitExceeded,
    "aggregates::invalidaggregationmethod" := ErrInvalidAggregationMethod,
    "aggregates::missingaggregationmethod" := ErrAggregationMethodRequired,
    "aggregates::invalidintervalmeasure" := ErrInvalidIntervalMeasure,
    "aggregates::invalidinterval" := ErrInvalidInterval,
    "aggregates::invalidtimezone" := ErrInvalidTimezone,
    "aggregates::invalidfiltertype" := ErrInvalidFilterType,
    "aggregates::invalidtimerange" := ErrInvalidTimeRange,
    "fa::invalidexpiry" := ErrExpiryRequried,
    "fa::tokennofound" := ErrInvalidToken,
    "cmd::invalidexpiry" := ErrInvalidExpiry,
    "cmd::unknowntype" := ErrInvalidCommandType,
    "cmd::notfound" := ErrCommandNotFound,
    "cmd::invalidfilter" := ErrInvalidFilter,
    "cmd::cmdidtoolong" := ErrInvalidCommandID,
    "vs::invalidscope" := ErrInvalidNamespaceScope,
    "vs::invalidtype" := ErrInvalidValueType,
    "vs::invalidns" := ErrInvalidNamespaceScope,
    "vs::invalidrequest" := ErrInvalidInput,
    "vs::keynotfound" := ErrKeyNotFound
  ]

  /** The sentinel a reason code stands for; unknown codes fall back to ErrUnknown. */
  function SentinelFor(code: string): (s: Sentinel)
    ensures code in CodeMap ==> s == CodeMap[code]
    ensures code !in CodeMap ==> s == ErrUnknown
  {
    if code in CodeMap then CodeMap[code] else ErrUnknown
  }

  /** GetError: the server's message wrapped around the sentinel of its reason code. */
  function GetError(code: string, message: string): (e: Error)
    ensures e.Anedya? && e.message == message
    ensures Unwrap(e) == Some(Bare(SentinelFor(code)))
    ensures code in CodeMap ==> Is(e, CodeMap[code])
    ensures code !in CodeMap ==> Is(e, ErrUnknown)
  {
    Anedya(message, Bare(SentinelFor(code)))
  }

  /** The error GetError yields matches exactly one sentinel: the one of its reason code. */
  lemma GetErrorMatchesOnlyItsSentinel(code: string, message: string, target: Sentinel)
    ensures Is(GetError(code, message), target) <==> target == SentinelFor(code)
  {
  }

  /** The empty reason code is not registered, so it yields ErrUnknown. */
  lemma EmptyCodeIsUnknown(message: string)
    ensures "" !in CodeMap
    ensures GetError("", message) == Anedya(message, Bare(ErrUnknown))
  {
  }

  /** vs::invalidscope and vs::invalidns share one sentinel. */
  lemma ScopeCodesShareSentinel()
    ensures CodeMap["vs::invalidscope"] == CodeMap["vs::invalidns"] == ErrInvalidNamespaceScope
  {
  }

  /** data::invalidnodeid and logs::invalidnodeid share one sentinel. */
  lemma NodeIdCodesShareSentinel()
    ensures CodeMap["data::invalidnodeid"] == CodeMap["logs::invalidnodeid"] == ErrInvalidNodeID
  {
  }

  /** logs::invalidtimerange and aggregates::invalidtimerange share one sentinel. */
  lemma TimeRangeCodesShareSentinel()
    ensures CodeMap["logs::invalidtimerange"] == CodeMap["aggregates::invalidtimerange"] == ErrInvalidTimeRange
  {
  }

  /** generic::malformedrequest and vs::invalidrequest share one sentinel. */
  lemma InvalidInputCodesShareSentinel()
    ensures CodeMap["generic::malformedrequest"] == CodeMap["vs::invalidrequest"] == ErrInvalidInput
  {
  }


  lemma NodeNotFoundCode(message: string)
    ensures GetError("node::nodenotfound", message) == Anedya(message, Bare(ErrNodeNotFound))
  {
  }
}
