/** The older VariableManagement.CreateVariable (variable/variable.go), reporting plain fmt errors. */
module LegacyCreateVariable {
  import opened Wrappers
  import opened Errors
  import opened Exchange
  import opened Text

  /** This file's Variable: the request and the result share the type. */
  datatype Variable = Variable(variableId: string, varType: string, name: string, description: string,
                               variableCode: string, ttl: int)

  datatype CreateVariableReply = CreateVariableReply(variableId: string)

  /** The accepted types, matched exactly (no case folding here). */
  predicate Acceptable(v: Variable) {
    v.name != "" && v.variableCode != "" && (v.varType == "float" || v.varType == "geo")
  }

  /**
   * An empty Name, then an empty VariableCode, then the Type. The pointer is dereferenced
   * without a nil check, so the model takes the variable itself.
   */
  function Validate(v: Variable): (r: Option<Error>)
    ensures r.None? <==> Acceptable(v)
    ensures r.Some? ==> NoSentinel(r.value)
    ensures v.name == "" ==> r == Some(Adhoc("name is required"))
    ensures v.name != "" && v.variableCode == "" ==> r == Some(Adhoc("variable is required"))
    ensures v.name != "" && v.variableCode != "" && v.varType != "float" && v.varType != "geo" ==>
              r == Some(Adhoc("type must be float or geo"))
  {
    if v.name == "" then Some(Adhoc("name is required"))
    else if v.variableCode == "" then Some(Adhoc("variable is required"))
    else if v.varType != "float" && v.varType != "geo" then Some(Adhoc("type must be float or geo"))
    else None
  }

  /** The returned variable: the caller's fields with the server's VariableID. */
  function Echo(v: Variable, reply: CreateVariableReply): (r: Variable)
    ensures r.variableId == reply.variableId
    ensures r.varType == v.varType && r.name == v.name && r.description == v.description
    ensures r.variableCode == v.variableCode && r.ttl == v.ttl
  {
    Variable(reply.variableId, v.varType, v.name, v.description, v.variableCode, v.ttl)
  }

  /**
   * CreateVariable: foreign errors as they are, a status other than exactly 200 before the
   * body is decoded (the message reads "statu"), then the success flag.
   */
  function CreateVariable(v: Variable, ex: Exchange<CreateVariableReply>): (o: Outcome<Variable>)
    ensures Validate(v).Some? ==> o == Fail(Validate(v).value)
    ensures o.Ok? <==> Acceptable(v) && ex.Reply? && ex.status == 200 && ex.body.Decoded? && ex.body.env.success
    ensures o.Ok? ==> o.value == Echo(v, ex.body.env.payload)
    ensures Acceptable(v) && ex.Reply? && ex.status != 200 ==>
              o == Fail(Adhoc("api failed with statu " + Decimal(ex.status) + ": " + ex.raw))
    ensures o.Fail? ==> NoSentinel(o.err)
    ensures !o.FailWith?
  {
    match Validate(v)
    case Some(e) => Fail(e)
    case None =>
      StatusFirst(ExactlyOk, "api failed with statu ", None, ex, (p: CreateVariableReply) => Echo(v, p))
  }

  /** Unlike the newer version, the Type test is case-sensitive: "FLOAT" is refused. */
  lemma UpperCaseTypeRefused(name: string, description: string, code: string, ttl: int, id: string)
    requires name != "" && code != ""
    ensures Validate(Variable(id, "FLOAT", name, description, code, ttl)) == Some(Adhoc("type must be float or geo"))
  {
  }

  /** A 201 reply is a failure here, whatever its body says. */
  lemma CreatedIsFailure(v: Variable, raw: string, body: Body<CreateVariableReply>)
    requires Acceptable(v)
    ensures CreateVariable(v, Reply(201, raw, body)).Fail?
  {
  }
}
