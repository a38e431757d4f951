/**
 * ValueStoreManagement.ScanAvailableItems (valueStore/api_op_scan_available_items.go).
 * The order-by and sort-order predicates it calls are defined in no file of the repository,
 * so they are parameters here.
 */
module ScanItems {
  import opened Wrappers
  import opened Errors
  import opened Exchange
  import opened ValueStore

  datatype ListValuesRequest = ListValuesRequest(filterNamespace: NameSpace, orderBy: string, order: string, limit: int, offset: int)

  datatype ValueItem = ValueItem(namespace: NameSpace, key: string, valueType: string, size: int)

  datatype ListValuesReply = ListValuesReply(count: int, next: int, data: seq<ValueItem>)

  /** Sort fields the documentation of OrderBy lists. */
  const DocumentedOrderBy: set<string> := {"namespace", "key", "created"}

  predicate Acceptable(r: ListValuesRequest, validOrderBy: string -> bool, validSortOrder: string -> bool) {
    IsValidScope(r.filterNamespace.scope) && r.orderBy != "" && validOrderBy(r.orderBy)
    && (r.order == "" || validSortOrder(r.order))
  }

  /** The guard ladder; the namespace id, limit and offset are not checked. */
  function Validate(input: Option<ListValuesRequest>, validOrderBy: string -> bool, validSortOrder: string -> bool): (r: Option<Error>)
    ensures r.None? <==> input.Some? && Acceptable(input.value, validOrderBy, validSortOrder)
    ensures input.None? ==> r == Some(Anedya("scan request cannot be nil", Bare(ErrInputRequired)))
    ensures input.Some? && input.value.filterNamespace.scope == "" ==>
              r == Some(Anedya("filter.namespace.scope is required", Bare(ErrNamespaceScopeRequired)))
    ensures input.Some? && input.value.filterNamespace.scope != "" && !IsValidScope(input.value.filterNamespace.scope) ==>
              r == Some(Anedya("invalid namespace scope", Bare(ErrInvalidNamespaceScope)))
    ensures input.Some? && IsValidScope(input.value.filterNamespace.scope) && input.value.orderBy == "" ==>
              r == Some(Anedya("orderby is required (valid values: namespace, key, created)", Bare(ErrOrderByRequired)))
    ensures r.Some? && Is(r.value, ErrInvalidSortOrder) <==>
              input.Some? && IsValidScope(input.value.filterNamespace.scope) && input.value.orderBy != ""
              && validOrderBy(input.value.orderBy) && input.value.order != "" && !validSortOrder(input.value.order)
  {
    if input.None? then Some(Anedya("scan request cannot be nil", Bare(ErrInputRequired)))
    else
      var req := input.value;
      if req.filterNamespace.scope == "" then Some(Anedya("filter.namespace.scope is required", Bare(ErrNamespaceScopeRequired)))
      else if !IsValidScope(req.filterNamespace.scope) then Some(Anedya("invalid namespace scope", Bare(ErrInvalidNamespaceScope)))
      else if req.orderBy == "" then Some(Anedya("orderby is required (valid values: namespace, key, created)", Bare(ErrOrderByRequired)))
      else if !validOrderBy(req.orderBy) then Some(Anedya("Invalid order by", Bare(ErrInvalidOrderBy)))
      else if req.order != "" && !validSortOrder(req.order) then Some(Anedya("Invalid sort order", Bare(ErrInvalidSortOrder)))
      else None
  }

  /** ScanAvailableItems: validation, then the success flag only; the result copies Count, Next and Data. */
  function ScanAvailableItems(input: Option<ListValuesRequest>, validOrderBy: string -> bool, validSortOrder: string -> bool,
                              ex: Exchange<ListValuesReply>): (o: Outcome<ListValuesReply>)
    ensures Validate(input, validOrderBy, validSortOrder).Some? ==> o == Fail(Validate(input, validOrderBy, validSortOrder).value)
    ensures o.Ok? <==> input.Some? && Acceptable(input.value, validOrderBy, validSortOrder)
                       && ex.Reply? && ex.body.Decoded? && ex.body.env.success
    ensures o.Ok? ==> o.value == ex.body.env.payload
    ensures !o.FailWith?
  {
    match Validate(input, validOrderBy, validSortOrder)
    case Some(e) => Fail(e)
    case None => Managed("scan", Buffered, SuccessOnly, ex, (p: ListValuesReply) => ListValuesReply(p.count, p.next, p.data))
  }

  /** The namespace id, limit and offset never decide validation. */
  lemma UncheckedFields(r: ListValuesRequest, id: string, limit: int, offset: int, validOrderBy: string -> bool, validSortOrder: string -> bool)
    ensures Validate(Some(r.(filterNamespace := NameSpace(r.filterNamespace.scope, id), limit := limit, offset := offset)), validOrderBy, validSortOrder)
         == Validate(Some(r), validOrderBy, validSortOrder)
  {
  }

  /** Under the documented sort fields, any other non-empty OrderBy is refused with ErrInvalidOrderBy. */
  lemma UndocumentedOrderByRefused(r: ListValuesRequest, validSortOrder: string -> bool)
    requires IsValidScope(r.filterNamespace.scope) && r.orderBy != "" && r.orderBy !in DocumentedOrderBy
    ensures Validate(Some(r), (s: string) => s in DocumentedOrderBy, validSortOrder)
         == Some(Anedya("Invalid order by", Bare(ErrInvalidOrderBy)))
  {
  }
}
