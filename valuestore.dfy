/** Namespaces and value types of the value store (valueStore/valuestore.go). */
module ValueStore {
  /** Where a value lives: `scope` is "global" or "node"; `id` names the project-wide or node namespace. */
  datatype NameSpace = NameSpace(scope: string, id: string)

  const Scopes: set<string> := {"global", "node"}
  const ValueTypes: set<string> := {"string", "binary", "float", "boolean"}

  /** isValidScope: exactly the two declared scopes, compared case-sensitively. */
  predicate IsValidScope(s: string)
    ensures IsValidScope(s) <==> s in Scopes
  {
    s == "global" || s == "node"
  }

  /** isValidValueType: exactly the four declared value types. */
  predicate IsValidValueType(t: string)
    ensures IsValidValueType(t) <==> t in ValueTypes
  {
    t == "string" || t == "binary" || t == "float" || t == "boolean"
  }

  lemma ScopeRejections()
    ensures !IsValidScope("") && !IsValidScope("Global") && !IsValidScope("NODE")
  {
  }

  lemma ValueTypeRejections()
    ensures !IsValidValueType("") && !IsValidValueType("String") && !IsValidValueType("int")
  {
  }
}
