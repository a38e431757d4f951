# Anedya Go SDK: decision logic, modelled in Dafny

The Anedya Go SDK wraps the Anedya IoT platform's HTTP API. Every endpoint method has the same shape:

1. an ordered ladder of request checks, where the first failing check is returned;
2. an HTTP exchange;
3. a classification of the reply by its status and the `success` flag of the decoded envelope;
4. a result built by copying fields.

This project models steps 1, 3 and 4 for every core endpoint, and the reason-code registry in `errors/errors.go` that turns an API reason code into a sentinel error.

The transport is an input. `Exchange.Exchange<P>` lists what can happen when a request is sent:

- encoding the request, building it or sending it fails;
- reading the body fails;
- a reply arrives with a status and a raw body, which either decodes to an envelope or does not.

Each operation is a function `Op(request, exchange)` returning an `Outcome`:

- `Ok(value)`;
- `Fail(err)`;
- `FailWith(value, err)`, for the `data` package, which returns the decoded body alongside the error.

A nil request pointer is `None` of an `Option`.

`Errors.Error` distinguishes the error values the SDK returns:

- `Anedya(message, err)` is an `*AnedyaError`;
- `Bare(sentinel)` is a sentinel returned as is;
- `Adhoc(text)` is a `fmt.Errorf`/`errors.New` without `%w`;
- `Chained(text, cause)` is a `fmt.Errorf` with `%w`.

`Errors.Is` follows Go's `errors.Is` through `Unwrap`.

Classification is one parameterised classifier, `Exchange.Classify`. Its policies are:

- the success flag only;
- the status, then the flag;
- both as one condition;
- the flag, then the status.

The status rule is either any 2xx or exactly 200. The newer pipelines wrap transport failures in sentinel-carrying `AnedyaError`s; that is `Exchange.Managed`. The older files check the status before decoding; that is `Exchange.StatusFirst`. The older data and nodes packages have their own pipelines: `DataPackage.Pipeline` and `NodesPackage.Pipeline`.

The Go files of one package sometimes contain two implementations of the same operation. Each file is its own Dafny module:

- modules named after the file model the newer `api_op_*` files;
- modules named `Legacy…` model the older ones.

Stateful code is modelled imperatively:

- `ListChildNodes.ListChildNodesRequest.Normalise` rewrites the caller's request in place;
- `LegacyListNodes.ListNodes` defaults the limit in the caller's request;
- `Nodes.Node.GetDetails` overwrites the receiver's fields;
- `Nodes.Node.ListChildNodes` builds child nodes in a loop;
- `ListAllVariable.Convert` fills a fresh array position by position.

## Model

| member | source | states |
|---|---|---|
| Errors.Unwrap | errors/errors.go:26-29 | an `AnedyaError` unwraps to exactly its `Err`, a `%w` error to its cause, and nothing else unwraps |
| Errors.IsFollowsUnwrap | errors/errors.go:26-29 | `errors.Is` holds iff the error is the target sentinel or its unwrapped error matches |
| Errors.AdhocChainMatchesNothing | nodes/update_node_details.go:77 | an error built only from ad-hoc messages and `%w` chains of foreign errors matches no sentinel |
| Errors.WrapForeign | nodes/update_node_details.go:77 | `fmt.Errorf("…: %w", err)` of a foreign error carries no sentinel and unwraps to that error |
| Errors.SentinelFor | errors/errors.go:94-98 | a mapped code gives its `codeMap` entry; any absent code gives `ErrUnknown`; the lookup is total |
| Errors.GetError | errors/errors.go:94-103 | the result is an `AnedyaError` with the message unchanged, it unwraps to the looked-up sentinel, and `errors.Is` holds for that sentinel |
| Errors.GetErrorMatchesOnlyItsSentinel | errors/errors.go:94-103 | `errors.Is(GetError(c, m), t)` holds exactly for the sentinel `c` maps to |
| Errors.EmptyCodeIsUnknown | errors/errors.go:32-104 | the empty code is absent from `codeMap`, so it gives `ErrUnknown` with the message unchanged |
| Errors.ScopeCodesShareSentinel | errors/errors.go:86-88 | `vs::invalidscope` and `vs::invalidns` both map to `ErrInvalidNamespaceScope` |
| Errors.NodeIdCodesShareSentinel | errors/errors.go:51-54 | `data::invalidnodeid` and `logs::invalidnodeid` both map to `ErrInvalidNodeID` |
| Errors.TimeRangeCodesShareSentinel | errors/errors.go:55-72 | `logs::invalidtimerange` and `aggregates::invalidtimerange` both map to `ErrInvalidTimeRange` |
| Errors.InvalidInputCodesShareSentinel | errors/errors.go:34-89 | `generic::malformedrequest` and `vs::invalidrequest` both map to `ErrInvalidInput` |
| Errors.NodeNotFoundCode | errors/errors.go:44 | `node::nodenotfound` yields an `AnedyaError` wrapping `ErrNodeNotFound` |
| Exchange.Classify | accessTokens/api_op_create_token.go:266-274 | a reply is accepted iff its flag is set and, unless the policy ignores the status, the status passes; each ordered policy reports the check it makes first |
| Exchange.CombinedAcceptsLikeStatusThenSuccess | aggregations/api_op_time_aggregation.go:216-218 | the combined condition accepts exactly what status-then-success accepts |
| Exchange.ExactlyOkIsStricter | nodes/api_op_add_child_node.go:141-151 | status == 200 accepts only what the 2xx rule accepts, and 201 separates them |
| Exchange.SuccessOnlyIgnoresStatus | nodes/api_op_get_list_nodes.go:180-183 | with the success-only policy, the verdict does not depend on the status |
| Exchange.OrderDecidesReportedCheck | data/get_data.go:132-139 | the two orders accept the same replies but report different failures when both checks fail |
| Exchange.Managed | accessTokens/api_op_create_token.go:215-274 | each transport failure gives its own sentinel-carrying error; an undecodable body gives the decode error; a decoded reply succeeds iff the policy delivers it, with the built result, and otherwise gives `GetError(reasonCode, error)` |
| Exchange.CombinedPipelineIsStatusThenSuccess | aggregations/api_op_time_aggregation.go:177-225 | the whole pipeline with the combined condition equals the one with status then success |
| Exchange.ManagedFailuresCarrySentinel | accessTokens/api_op_create_token.go:215-274 | every failure of the managed pipeline is an `AnedyaError` over a bare sentinel |
| Exchange.StatusFirst | accessTokens/CreateToken.go:106-150 | the status is checked before the body is decoded, so a bad status fails, whatever the body, with an ad-hoc message carrying the status and raw body; then decoding; then the flag; no failure carries a sentinel |
| Exchange.StatusFirstAcceptsLikeManaged | accessTokens/CreateToken.go:136-150 | the status-first pipeline accepts exactly the replies the managed status-then-success pipeline accepts, with the same result |
| Seqs.FirstWhere | dataAccess/api_op_get_snapshot.go:106-113 | the early-exit loop over a slice returns the first offending index, or none iff no element offends |
| Text.Lower | variable/api_op_create_variable.go:140-144 | lower-casing keeps the length and maps each ASCII capital to its small letter (code point + 32), leaving every other character alone |
| Text.LowerEqualsIffEqualFold | variable/api_op_create_variable.go:140-144 | two strings lower-case to the same string iff they are equal under ASCII case folding |
| Text.Decimal | nodes/node.go:150 | `%d` rendering: a leading minus exactly for negatives, then digits |
| Text.DecimalRoundTrip | nodes/node.go:150 | parsing the `%d` rendering of an integer gives it back |
| Text.DecimalInjective | nodes/node.go:150 | distinct integers render as distinct strings |
| ValueStore.IsValidScope | valueStore/valuestore.go:29-36 | holds iff the scope is `global` or `node` |
| ValueStore.IsValidValueType | valueStore/valuestore.go:39-46 | holds iff the type is `string`, `binary`, `float` or `boolean` |
| ValueStore.ScopeRejections | valueStore/valuestore.go:30-35 | the empty scope and other-case spellings are rejected |
| ValueStore.ValueTypeRejections | valueStore/valuestore.go:43-45 | the empty type, other-case spellings and undeclared types are rejected |
| CreateToken.IsValidPermission | accessTokens/api_op_create_token.go:130-151 | holds iff the permission is one of the declared constants |
| CreateToken.PermissionSetSize | accessTokens/api_op_create_token.go:130-151 | there are exactly 14 of them |
| CreateToken.Validate | accessTokens/api_op_create_token.go:176-213 | valid iff the input is present, 1 ≤ TTLSec ≤ 7776000, Allow is non-empty and every permission is valid; nil, TTL, empty policy and invalid permission errors in that order |
| CreateToken.MakeToken | accessTokens/api_op_create_token.go:277-283 | TokenID and Token come from the reply; Policy and TTLSec come from the input |
| CreateToken.CreateNewAccessToken | accessTokens/api_op_create_token.go:174-284 | a failed validation is returned whatever the exchange; success iff the input is valid, the status is 2xx and the flag is set; the token is built from input and reply |
| CreateToken.TtlBoundsInclusive | accessTokens/api_op_create_token.go:184-195 | 0 and 7776001 are refused; 1 and 7776000 pass the TTL check |
| CreateToken.TtlBeforePolicy | accessTokens/api_op_create_token.go:184-203 | a bad TTL is reported even when the policy is empty |
| CreateToken.AnyInvalidPermissionRejects | accessTokens/api_op_create_token.go:206-213 | one invalid permission anywhere in Allow refuses the request |
| LegacyCreateToken.Validate | accessTokens/CreateToken.go:82-99 | valid iff present, 1 ≤ Expiry ≤ 7776000 and Allow non-empty; nil, expiry and policy messages in that order, none carrying a sentinel |
| LegacyCreateToken.CreateNewAccessToken | accessTokens/CreateToken.go:87-156 | success iff valid, 2xx and the flag set; the token carries only TokenID and Token, with a zero policy and expiry; a bad status fails before decoding |
| LegacyCreateToken.StatusBeforeDecode | accessTokens/CreateToken.go:136-140 | a bad status with an undecodable body reports the status, not the decode error |
| LegacyCreateToken.PermissionsUnchecked | accessTokens/CreateToken.go:97-99 | any non-empty Allow passes, whatever its strings |
| LegacyCreateToken.NoSentinelMatches | accessTokens/CreateToken.go:87-156 | no error of this version matches any sentinel |
| AggregationsManagement.Validate | aggregations/api_op_time_aggregations.go:225-274 | valid iff the ladder passes; each of nil, Variable, time range, compute type, interval, empty filter nodes and filter type gives its own message and sentinel once the earlier checks pass; the filter errors arise only when a filter is present |
| AggregationsManagement.Result | aggregations/api_op_time_aggregations.go:336-340 | Variable, Config and Data are copied from the reply |
| AggregationsManagement.GetAggregationByTime | aggregations/api_op_time_aggregations.go:219-341 | validation first; then success iff the flag is set, whatever the status |
| AggregationsManagement.ComputeOnlyCheckedForEmptiness | aggregations/api_op_time_aggregations.go:246-251 | a non-empty Compute outside the eight constants still passes |
| AggregationsManagement.NoFilterNoFilterChecks | aggregations/api_op_time_aggregations.go:260-274 | without a filter, no filter check runs |
| AggregationsClient.Validate | aggregations/api_op_time_aggregation.go:115-168 | the same acceptance; nil, Variable and time range as in the management variant; then compute type, interval, empty filter nodes and filter type, each with its own message once the earlier checks pass, all over `ErrInvalidInput` |
| AggregationsClient.GetAggregationByTime | aggregations/api_op_time_aggregation.go:109-226 | success iff valid, 2xx and the flag set, as one condition; the result copies Variable, Config and Data |
| AggregationsClient.VariantsAgreeOnAcceptance | aggregations/api_op_time_aggregation.go:115-168 | both variants accept the same requests and agree on the first three errors |
| AggregationsClient.VariantsDisagreeOnStatus | aggregations/api_op_time_aggregation.go:216-218 | a 500 reply with the flag set fails here and succeeds in the management variant |
| SetValue.Validate | valueStore/api_op_set_value.go:107-160 | valid iff the ladder passes; each of nil, empty scope, invalid scope, namespace id, key, value and value type gives its own message and sentinel once the earlier checks pass |
| SetValue.SetValue | valueStore/api_op_set_value.go:104-215 | validation first; success iff the flag is set |
| SetValue.RequiredFieldsInOrder | valueStore/api_op_set_value.go:131-152 | the namespace id, key and value are checked in that order |
| SetValue.StatusIgnored | valueStore/api_op_set_value.go:210-214 | a valid request with the flag set succeeds whatever the status |
| GetValue.Validate | valueStore/api_op_get_value.go:102-131 | valid iff the ladder passes; the namespace id is checked before the scope, then the key |
| GetValue.Result | valueStore/api_op_get_value.go:193-199 | NameSpace comes from the input; Key, Value, Type and Size come from the reply |
| GetValue.GetValue | valueStore/api_op_get_value.go:99-200 | success iff valid, 2xx and the flag set; the value then keeps the caller's namespace and takes key, value, type and size from the reply |
| GetValue.IdBeforeScope | valueStore/api_op_get_value.go:110-123 | an empty id with a bad scope reports the id |
| GetValue.EmptyScopeIsInvalidScope | valueStore/api_op_get_value.go:118-123 | an empty scope gives `ErrInvalidNamespaceScope` |
| GetValue.StatusOverridesSuccess | valueStore/api_op_get_value.go:184-191 | a non-2xx status fails even when the flag is set |
| DeleteKeyValue.Validate | valueStore/api_op_delete_key_value.go:63-92 | valid iff the ladder passes; scope validity first, then id, then key |
| DeleteKeyValue.DeleteKeyValuePair | valueStore/api_op_delete_key_value.go:60-155 | success iff valid, 2xx and the flag set |
| DeleteKeyValue.EmptyScopeFirst | valueStore/api_op_delete_key_value.go:71-76 | an empty scope gives `ErrInvalidNamespaceScope` before the id and key are looked at |
| ScanItems.Validate | valueStore/api_op_scan_available_items.go:98-141 | valid iff the ladder passes; an empty scope, an invalid one, an empty OrderBy in order; an invalid sort order is reported iff everything before passes and a non-empty order is invalid |
| ScanItems.ScanAvailableItems | valueStore/api_op_scan_available_items.go:95-199 | validation first; success iff the flag is set; Count, Next and Data are copied |
| ScanItems.UncheckedFields | valueStore/api_op_scan_available_items.go:105-141 | the namespace id, limit and offset never decide validation |
| ScanItems.UndocumentedOrderByRefused | valueStore/api_op_scan_available_items.go:120-133 | with the documented sort fields, any other non-empty OrderBy gives `ErrInvalidOrderBy` |
| GetNodeList.Validate | nodes/api_op_get_list_nodes.go:104-125 | valid iff present, 1 ≤ Limit ≤ 1000 and Order is "", asc or desc; errors in that order |
| GetNodeList.Result | nodes/api_op_get_list_nodes.go:185-190 | CurrentCount, TotalCount, Offset and Nodes are copied |
| GetNodeList.GetNodeList | nodes/api_op_get_list_nodes.go:98-191 | validation first; success iff the flag is set |
| GetNodeList.ZeroLimitRejected | nodes/api_op_get_list_nodes.go:112-117 | a zero limit is refused |
| GetNodeList.OffsetUnchecked | nodes/api_op_get_list_nodes.go:104-125 | the offset never decides validation |
| ListChildNodes.NormalLimit | nodes/api_op_list_all_child_nodes.go:138-140 | a limit in [1,1000] is kept; any other becomes 100 |
| ListChildNodes.NormalOffset | nodes/api_op_list_all_child_nodes.go:141-143 | a negative offset becomes 0; any other is kept |
| ListChildNodes.NormalisationIdempotent | nodes/api_op_list_all_child_nodes.go:138-143 | normalising twice is normalising once |
| ListChildNodes.ListChildNodesRequest.constructor | nodes/api_op_list_all_child_nodes.go:19-34 | a request object holds the given fields |
| ListChildNodes.ListChildNodesRequest.Payload | nodes/api_op_list_all_child_nodes.go:146 | the payload carries the request's current fields |
| ListChildNodes.ListChildNodesRequest.Normalise | nodes/api_op_list_all_child_nodes.go:138-143 | the caller's limit and offset are overwritten by their normal forms; ParentId is unchanged |
| ListChildNodes.Result | nodes/api_op_list_all_child_nodes.go:203-208 | TotalCount, Count and Next are copied and Data becomes Nodes |
| ListChildNodes.Classified | nodes/api_op_list_all_child_nodes.go:198-208 | success iff the flag is set |
| ListChildNodes.ListChildNodes | nodes/api_op_list_all_child_nodes.go:116-209 | nil and empty-ParentId requests fail unchanged and nothing is sent; otherwise the caller's request is normalised in place, stays so whatever the reply, and its normalised fields are sent |
| UpdateNode.ItemError | nodes/api_op_update_node_details.go:110-132 | the per-update error is an `AnedyaError` over an ad-hoc message |
| UpdateNode.Validate | nodes/api_op_update_node_details.go:86-132 | valid iff present, NodeID non-empty, Updates non-empty and no update offends; the first offending index is reported |
| UpdateNode.UpdateNode | nodes/api_op_update_node_details.go:80-192 | validation first; success iff the flag is set |
| UpdateNode.TagUpdateWithoutValue | nodes/api_op_update_node_details.go:126 | a tag update with a tag and no value is accepted |
| UpdateNode.UnknownTypePasses | nodes/api_op_update_node_details.go:112-131 | any non-empty, non-tag type with a value passes |
| UpdateNode.FirstOffenderReported | nodes/api_op_update_node_details.go:110-132 | with valid updates before it, the first offending update's index is reported |
| AddChildNode.Validate | nodes/api_op_add_child_node.go:68-93 | valid iff present, ParentId and ChildNodes non-empty and every child has NodeId and Alias; the first three errors are bare sentinels; otherwise the first incomplete child's index is reported in an AnedyaError over an ad-hoc cause |
| AddChildNode.AddChildNode | nodes/api_op_add_child_node.go:65-152 | success iff valid, status exactly 200 and the flag set |
| AddChildNode.CreatedIsFailure | nodes/api_op_add_child_node.go:141-143 | a 201 reply fails with `GetError(reasonCode, error)` |
| AddChildNode.FirstIncompleteReported | nodes/api_op_add_child_node.go:83-93 | with complete children before it, the first child lacking NodeId or Alias gives `childNodes[i] requires both nodeId and alias` for its index |
| AddChildNode.EarlyRejectionsAreBare | nodes/api_op_add_child_node.go:68-80 | nil, empty ParentId and empty ChildNodes give bare sentinels |
| Nodes.NodeManagement.constructor | nodes/node.go:59-64 | the client keeps its base URL |
| Nodes.NotInitialisedIsNotTheSentinel | nodes/node.go:82-84 | the guard's `errors.New` value does not match the declared not-initialized sentinel |
| Nodes.Refresh | nodes/node.go:100-109 | the ten listed fields come from the fetched details; NodeId and PreauthId are kept |
| Nodes.RefreshIdempotent | nodes/node.go:100-109 | refreshing twice with the same details is refreshing once |
| Nodes.RefreshFromOwnDetails | nodes/node.go:100-109 | refreshing a node with its own details changes nothing |
| Nodes.DetailsQuery | nodes/node.go:86-88 | the request lists exactly the node's own id |
| Nodes.Node.constructor | nodes/get_node_details.go:143-150 | a Node holds the given id and manager, all other fields zero |
| Nodes.Node.Assign | nodes/node.go:100-109 | the fields become the given details; the manager is kept |
| Nodes.Node.GetDetails | nodes/node.go:81-112 | without a manager, fails and changes nothing; a fetch error is returned and nothing changes; an absent id gives "node details not found" and nothing changes; otherwise the receiver is refreshed and returned |
| Nodes.Node.FromChild | nodes/node.go:147-152 | a child Node has ChildId, Alias, the `%d` of CreatedAt and the shared manager |
| Nodes.Node.ListChildNodes | nodes/node.go:129-157 | without a manager, fails and sends nothing; an empty NodeId gives the parent-id-required error and sends nothing; otherwise sends ParentId = NodeId with the normalised limit and offset; other errors of the call are returned; otherwise one Node per child, in order, each built from the same-index child |
| Nodes.Node.UpdateNodeCall | nodes/node.go:171-182 | without a manager, fails; otherwise exactly `UpdateNode` with this node's id and the given updates |
| Nodes.Node.AuthorizeDevice | nodes/node.go:192-207 | without a manager, fails; an empty device id fails before forwarding; otherwise forwards this node's id and the device id |
| Nodes.Node.AddChildNodeCall | nodes/node.go:217-228 | without a manager, fails; otherwise exactly `AddChildNode` with this node as parent |
| Nodes.Node.ClearChildNodes | nodes/node.go:237-247 | without a manager, fails; otherwise forwards this node's id |
| Nodes.Node.GetConnectionKey | nodes/node.go:259-269 | without a manager, fails; otherwise forwards this node's id |
| Nodes.Node.RemoveChildNode | nodes/node.go:279-290 | without a manager, fails; otherwise forwards this node's id and the child id |
| Nodes.ChildCreatedAtDistinguishes | nodes/node.go:150 | children with different creation times get different CreatedAt strings |
| CreateVariable.Validate | variable/api_op_create_variable.go:119-146 | valid iff present, Name and Variable non-empty and the lower-cased Type is geo or float; errors in that order, the type error being the bare sentinel |
| CreateVariable.Echo | variable/api_op_create_variable.go:209-217 | the result echoes Type, Name, Description, Variable and TTL with VariableID from the reply |
| CreateVariable.CreateVariable | variable/api_op_create_variable.go:116-218 | success iff valid, 2xx and the flag set |
| CreateVariable.TypeTestFoldsCase | variable/api_op_create_variable.go:140-144 | the Type test accepts exactly the strings equal to geo or float under ASCII case folding |
| CreateVariable.UpperCaseTypeAccepted | variable/api_op_create_variable.go:140-146 | "FLOAT" passes and is echoed in upper case |
| CreateVariable.EmptyTypeIsBare | variable/api_op_create_variable.go:144-146 | an empty Type gives the bare sentinel |
| ListAllVariable.NormalLimit | variable/api_op_list_all_variable.go:123-125 | a limit ≤ 0 becomes 100; a positive one is kept with no upper bound |
| ListAllVariable.NormalOffset | variable/api_op_list_all_variable.go:126-128 | a negative offset becomes 0; any other is kept |
| ListAllVariable.Payload | variable/api_op_list_all_variable.go:131-134 | the payload carries the normalised limit and offset |
| ListAllVariable.ToVariable | variable/api_op_list_all_variable.go:202-211 | every item field is copied into the Variable |
| ListAllVariable.ConvertAll | variable/api_op_list_all_variable.go:201-212 | same length as the items, and each Variable is the same-index item converted |
| ListAllVariable.Result | variable/api_op_list_all_variable.go:214-219 | the converted list with CurrentCount, OffSet and TotalCount copied |
| ListAllVariable.Spec | variable/api_op_list_all_variable.go:191-219 | success iff 2xx and the flag set, with the converted result |
| ListAllVariable.Convert | variable/api_op_list_all_variable.go:201-212 | the indexed loop fills exactly the conversion of the items |
| ListAllVariable.ListAllVariable | variable/api_op_list_all_variable.go:120-220 | the sent payload is the normalised one and the result is the specified outcome |
| ListAllVariable.PayloadIdempotent | variable/api_op_list_all_variable.go:123-128 | normalising a normalised payload changes nothing |
| ListAllVariable.ConversionKeepsOrder | variable/api_op_list_all_variable.go:201-212 | items with distinct ids give distinct Variables at those positions |
| ListAllVariable.ConvertAllDistributes | variable/api_op_list_all_variable.go:201-212 | converting a concatenation converts each part |
| LegacyCreateVariable.Validate | variable/variable.go:52-60 | valid iff Name and VariableCode non-empty and Type exactly float or geo; errors in that order |
| LegacyCreateVariable.Echo | variable/variable.go:116-124 | the input fields are echoed with VariableID from the reply |
| LegacyCreateVariable.CreateVariable | variable/variable.go:50-125 | success iff valid, status exactly 200 and the flag set; a bad status fails before decoding |
| LegacyCreateVariable.UpperCaseTypeRefused | variable/variable.go:58-60 | "FLOAT" is refused |
| LegacyCreateVariable.CreatedIsFailure | variable/variable.go:93-95 | a 201 reply fails whatever the body |
| LegacyListAllVariables.DefaultedLimit | variable/ListAllVariables.go:54-56 | only 0 becomes 100 |
| LegacyListAllVariables.Spec | variable/ListAllVariables.go:96-131 | success iff 2xx and the flag set, with the converted result; a read failure is wrapped |
| LegacyListAllVariables.ListAllVariable | variable/ListAllVariables.go:52-132 | the sent payload has the defaulted limit and the offset as given; the result is the specified outcome, filled by the conversion loop |
| LegacyListAllVariables.NegativesSentUnchanged | variable/ListAllVariables.go:54-59 | negative limits and offsets are sent as given |
| LegacyListAllVariables.AcceptedRepliesAgree | variable/ListAllVariables.go:96-131 | this version accepts exactly what the newer one accepts, with the same result |
| GetData.Validate | dataAccess/api_op_get_for_variable.go:94-127 | valid iff present, Variable and Nodes non-empty, 0 < From ≤ To and Order "", asc or desc; errors in that order |
| GetData.Result | dataAccess/api_op_get_for_variable.go:187-191 | Variable, Count and Data are copied |
| GetData.GetData | dataAccess/api_op_get_for_variable.go:88-192 | validation first; success iff the flag is set |
| GetData.NodeIdsAndLimitUnchecked | dataAccess/api_op_get_for_variable.go:108-127 | empty node ids and any limit pass |
| GetData.SingleInstantRange | dataAccess/api_op_get_for_variable.go:115-120 | From == To is accepted; From > To is not |
| GetSnapshot.NodeError | dataAccess/api_op_get_snapshot.go:106-113 | the per-node error matches `ErrInvalidNode` |
| GetSnapshot.Validate | dataAccess/api_op_get_snapshot.go:78-113 | valid iff present, Variable non-empty, Timestamp > 0, Nodes non-empty and no node id empty; the first empty id is reported |
| GetSnapshot.Result | dataAccess/api_op_get_snapshot.go:172-176 | Data and Count are copied |
| GetSnapshot.GetSnapshot | dataAccess/api_op_get_snapshot.go:72-177 | validation first; success iff the flag is set |
| GetSnapshot.TimestampBeforeNodes | dataAccess/api_op_get_snapshot.go:92-103 | a bad timestamp is reported before empty nodes |
| GetSnapshot.FirstEmptyNodeReported | dataAccess/api_op_get_snapshot.go:106-113 | with non-empty ids before it, the first empty id's index is reported |
| GetLatestData.Validate | dataAccess/api_op_get_latest_data_variable.go:74-102 | valid iff present, Variable and Nodes non-empty and no node id empty; `ErrInvalidNode` iff the earlier checks pass and some id is empty |
| GetLatestData.Result | dataAccess/api_op_get_latest_data_variable.go:161-165 | Data and Count are copied |
| GetLatestData.GetLatestData | dataAccess/api_op_get_latest_data_variable.go:68-166 | validation first; success iff the flag is set |
| GetLatestData.StatusIgnored | dataAccess/api_op_get_latest_data_variable.go:157-165 | a 500 reply with the flag set succeeds |
| HealthStatus.Validate | health/api_op_health_status.go:90-119 | valid iff present, Nodes non-empty and 0 < threshold ≤ 604800; errors in that order |
| HealthStatus.Result | health/api_op_health_status.go:171-174 | Data is copied |
| HealthStatus.GetHealthStatus | health/api_op_health_status.go:84-175 | validation first; success iff the flag is set |
| HealthStatus.ThresholdBoundInclusive | health/api_op_health_status.go:106-119 | the bound is 7·24·60·60 = 604800; 604800 passes, 604801 and 0 do not |
| SendCommand.Validate | commands/api_op_send_command.go:87-127 | valid iff present, NodeId, Command and Data non-empty, Type exactly string or binary and Expiry ≥ 0; each error with its message and sentinel, in that order |
| SendCommand.SendCommand | commands/api_op_send_command.go:81-192 | validation first; success iff the flag is set; the result carries the reply's CommandId |
| SendCommand.ZeroExpiryAndExactType | commands/api_op_send_command.go:115-127 | expiry 0 is accepted; "STRING" is refused |
| ListCommands.Validate | commands/api_op_list_commands.go:97-118 | valid iff present, 0 ≤ Limit ≤ 100 and Offset ≥ 0; errors in that order |
| ListCommands.DecodeOwnRequest | commands/api_op_list_commands.go:157-163 | decoding the request bytes as a response gives flag false and empty error and reason code |
| ListCommands.Result | commands/api_op_list_commands.go:170-176 | Count, TotalCount, Data and Next are copied |
| ListCommands.ListCommandsAsWritten | commands/api_op_list_commands.go:91-177 | as written: validation and transport failures as usual, and nothing ever succeeds |
| ListCommands.AsWrittenRejectsEveryReply | commands/api_op_list_commands.go:157-168 | even a 200 reply with the flag set gives `GetError("", "")`, i.e. `ErrUnknown` |
| ListCommands.ListCommands | commands/api_op_list_commands.go:91-177 | corrected: success iff valid and the decoded reply's flag is set |
| ListCommands.VersionsAgreeBeforeReply | commands/api_op_list_commands.go:97-150 | the two versions agree whenever no reply is decoded |
| DataPackage.Pipeline | data/get_data.go:98-141 | success iff the flag is set and the status is exactly 200; a decoded but refused reply is returned alongside its error, the flag being reported first; transport failures are wrapped |
| DataPackage.Authorised | data/get_data.go:89-96 | an empty token fails before anything is built |
| DataPackage.SuccessFlagReportedFirst | data/get_data.go:132-135 | when both checks fail, the flag error is returned with the body |
| DataPackage.CreatedStillFails | data/get_data.go:137-139 | a 201 reply with the flag set fails with the status error and the body |
| LegacyGetData.ValidateGetDataRequest | data/get_data.go:53-84 | the nine checks, in order: nil, Variable, Nodes, each node id, From, To, From ≤ To, Limit, Order |
| LegacyGetData.GetData | data/get_data.go:87-142 | validation, then the token, then the pipeline; success iff all pass |
| LegacyGetSnapshot.ValidateGetSnapshotRequest | data/get_snapshot.go:29-48 | nil, Variable, Timestamp > 0, Nodes, each node id, in order |
| LegacyGetSnapshot.GetSnapshot | data/get_snapshot.go:51-106 | validation, then the token, then the pipeline; success iff all pass |
| LegacyGetLatestData.ValidateGetLatestDataRequest | data/get_latest_data.go:28-44 | nil, Variable, Nodes, each node id, in order; nil means valid |
| LegacyGetLatestData.GetLatestData | data/get_latest_data.go:47-101 | validation, then the token, then the pipeline; success iff all pass |
| NodesPackage.Pipeline | nodes/list_nodes.go:77-130 | wrapped transport and decode failures, then status ≠ 200, then the flag; success iff both pass, with the decoded envelope |
| NodesPackage.AcceptsLikeManagedExactlyOk | nodes/list_nodes.go:104-130 | accepts exactly what the managed pipeline accepts under status == 200 then the flag |
| LegacyAddChildNode.Validate | nodes/add_child_node.go:34-49 | valid iff present, ParentId and ChildNodes non-empty and every child has a NodeId; errors in that order, the first empty NodeId reported |
| LegacyAddChildNode.AddChildNode | nodes/add_child_node.go:32-89 | success iff valid, status exactly 200 and the flag set |
| LegacyAddChildNode.AliasOptional | nodes/add_child_node.go:45-49 | children with ids and empty aliases pass |
| LegacyUpdateNodeDetails.ItemError | nodes/update_node_details.go:56-71 | the per-item error carries no sentinel |
| LegacyUpdateNodeDetails.Validate | nodes/update_node_details.go:45-71 | valid iff present, NodeID and Updates non-empty and no item offends the switch; the first offending item is reported with its case's message |
| LegacyUpdateNodeDetails.Classified | nodes/update_node_details.go:74-123 | encode, build, transport and read failures wrap the foreign error under their own prefixes; an empty body succeeds iff the status is 200; otherwise an undecodable body gives the decode message, a non-200 status the status message whatever the flag, and a cleared flag the update-failed message |
| LegacyUpdateNodeDetails.UpdateNodeDetails | nodes/update_node_details.go:43-124 | validation first, then the reply handling |
| LegacyUpdateNodeDetails.EmptyBodyDecidedByStatus | nodes/update_node_details.go:100-105 | with an empty body the decoded content never matters |
| LegacyUpdateNodeDetails.TypeRules | nodes/update_node_details.go:57-70 | "key" needs nothing; "tag" and "" are invalid |
| LegacyUpdateNodeDetails.VersionsDisagreeOnTag | nodes/update_node_details.go:57-70 | a tag update without a value passes the newer check and fails this one |
| LegacyListNodes.DefaultedLimit | nodes/list_nodes.go:69-71 | only 0 becomes 1000 |
| LegacyListNodes.ListNodeRequest.constructor | nodes/list_nodes.go:19-23 | a request object holds the given fields |
| LegacyListNodes.ListNodeRequest.Payload | nodes/list_nodes.go:77 | the payload carries the request's current fields |
| LegacyListNodes.Spec | nodes/list_nodes.go:104-130 | success iff status 200 and the flag set, returning the decoded response |
| LegacyListNodes.ListNodes | nodes/list_nodes.go:62-131 | the caller's zero limit becomes 1000 in place, the other fields are kept, the request's new fields are sent, and the result is the specified outcome |
| LegacyListNodes.OnlyZeroDefaulted | nodes/list_nodes.go:69-71 | negative and oversized limits are sent as given |
| LegacyGetNodeDetails.RequestFor | nodes/get_node_details.go:79-81 | the request body lists exactly `[nodeID]` |
| LegacyGetNodeDetails.FromDto | nodes/get_node_details.go:143-150 | the Node copies the five DTO fields; the rest are zero |
| LegacyGetNodeDetails.Lookup | nodes/get_node_details.go:71-140 | an empty id fails first; success iff the pipeline delivers and the id is present in Data, with its DTO; an absent id gives the not-found message |
| LegacyGetNodeDetails.GetNodeDetails | nodes/get_node_details.go:65-151 | an empty id sends nothing, any other id sends `RequestFor(nodeID)`; on success, a fresh Node built from the DTO holding the manager; otherwise no Node and the lookup error |
| LegacyGetNodeDetails.LookupByRequestedId | nodes/get_node_details.go:137-140 | the lookup uses the requested id |
| LegacyConnectionKey.Validate | nodes/connection_key.go:53-60 | valid iff present with a non-empty NodeID; nil first |
| LegacyConnectionKey.GetConnectionKey | nodes/connection_key.go:47-125 | success iff valid, delivered and the key non-empty, returning the key unchanged; an empty key on success is an error |

## Left out

- HTTP I/O is not modelled: building requests, headers, `httpClient.Do`, body reading, the auth transport and context cancellation. The exchange is an input instead.
- JSON encoding and decoding is not modelled. An encode or decode failure is an `Exchange` case; otherwise the envelope is already decoded. Raw-JSON payloads are the opaque `Json` value.
- Streaming files: in files that decode with `json.NewDecoder` and never call `io.ReadAll`, a body read failure shows up as the decode error.
- Client facades, package constructors and the `*_management.go` wiring are not modelled. The only exception is `Nodes.NodeManagement`, which the Node wrappers need.
- The typed payload accessors and float payloads are not modelled. This covers the geo-value zero test.
- The guard-only endpoints are not part of this model: get connection key, authorize device, remove child, clear children, delete and create node, command status, invalidate command, delete variable and revoke token. Where `nodes/node.go` forwards to them, the forwarded call is a function parameter.
- `utils/errors.go` is not part of this model. No modelled code uses it.
- `ScanItems.Validate`: `isValidOrderBy` and `isValidSortOrder` are defined in no file of the repository. They are predicate parameters here.
- Sentinels that are used but never declared are plain constructors of `Errors.Sentinel`. These include `ErrInputRequired`, `ErrResponseReadFailed`, `ErrInvalidInput`, the `ErrNode*` family and `ErrAddChildNodeParentIdRequired`.
- Integer widths are not modelled. Go's `int` is unbounded here; no modelled check sits near an overflow.
- `Text.Lower` folds ASCII letters only. Go's `strings.ToLower` also folds non-ASCII letters.
- Variables and tokens hand back a pointer to their manager. That reference is not modelled.
- `LegacyCreateVariable.CreateVariable` takes a non-nil variable. The Go dereferences it without a nil check.
- `LegacyListNodes.ListNodes` takes a non-null request object. The Go dereferences it without a nil check.
- `LegacyGetData.GetData`, `LegacyGetSnapshot.GetSnapshot` and `LegacyGetLatestData.GetLatestData` return the decoded envelope. The Go returns the same response struct.
- The Go does not compile as it stands:
  - `accessTokens/CreateToken.go` declares package `accessTokens` while its siblings declare `accesstokens`;
  - `ErrAddChildNodeParentIdRequired` is not declared;
  - both variable files declare a type `Variable`, with different fields;
  - more generally, the older and newer files of `nodes/` and `variable/` declare the same types and methods twice in one package: `ChildNode`, `AddChildNodeRequest`, `UpdateNodeRequest`, `ListChildNodesRequest` and `ListAllVariableRequest` among the types, `AddChildNode`, `AuthorizeDevice`, `CreateVariable` and `ListAllVariable` among the methods;
  - `nodes/node.go:145-146` reads `resp.Data` from the list-child-nodes result, but `ListChildNodesResult` (`nodes/api_op_list_all_child_nodes.go:76-91`) has no such field, only `Nodes`. `Nodes.Node.ListChildNodes` reads `Nodes`;
  - `valueStore/api_op_get_value.go:196` stores the reply's `Value interface{}` into `Value.Value`, a `json.RawMessage` (`valueStore/api_op_set_value.go:43`). The model treats the value as the opaque `Json` and copies it unchanged.

  Each file is therefore modelled as its own module with its own types. The modelled `Variable` of each module follows the fields its own file uses.

## Findings

| source | as written | input that shows it | evidently intended | confidence | as-written member | corrected member |
|---|---|---|---|---|---|---|
| commands/api_op_list_commands.go:157-168 | the response envelope is decoded from the encoded request bytes, not from the response body, so `Success` is always false | any valid request answered by status 200 with `{"success": true, …}` returns `GetError("", "")`, i.e. `ErrUnknown` | decode the response body, then test the flag | medium, not executed | ListCommands.ListCommandsAsWritten (with ListCommands.AsWrittenRejectsEveryReply) | ListCommands.ListCommands |
