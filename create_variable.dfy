/** VariableManagement.CreateVariable (variable/api_op_create_variable.go). */
module CreateVariable {
  import opened Wrappers
  import opened Errors
  import opened Exchange
  import opened Text

  /** A variable as the SDK hands it back (the client reference it also carries is not modelled). */
  datatype Variable = Variable(variableId: string, varType: string, name: string, description: string,
                               variable: string, ttl: int)

  datatype CreateVariableRequest = CreateVariableRequest(varType: string, name: string, description: string,
                                                         variable: string, ttl: int)

  datatype CreateVariableReply = CreateVariableReply(variableId: string)

  /** The keys of `validTypes`, compared against the lower-cased Type. */
  const ValidTypes: set<string> := {"geo", "float"}

  predicate Acceptable(r: CreateVariableRequest) {
    r.name != "" && r.variable != "" && Lower(r.varType) in ValidTypes
  }

  /** Nil, an empty Name, an empty Variable, then the Type, which fails with the bare sentinel. */
  function Validate(input: Option<CreateVariableRequest>): (r: Option<Error>)
    ensures r.None? <==> input.Some? && Acceptable(input.value)
    ensures input.None? ==> r == Some(Anedya("Input is required", Bare(ErrInputRequired)))
    ensures input.Some? && input.value.name == "" ==>
              r == Some(Anedya("Input name is requried", Bare(ErrVariableNameRequired)))
    ensures input.Some? && input.value.name != "" && input.value.variable == "" ==>
              r == Some(Anedya("Input variable is required", Bare(ErrVariableRequired)))
    ensures input.Some? && input.value.name != "" && input.value.variable != "" && Lower(input.value.varType) !in ValidTypes ==>
              r == Some(Bare(ErrVariableTypeRequired))
  {
    if input.None? then Some(Anedya("Input is required", Bare(ErrInputRequired)))
    else
      var req := input.value;
      if req.name == "" then Some(Anedya("Input name is requried", Bare(ErrVariableNameRequired)))
      else if req.variable == "" then Some(Anedya("Input variable is required", Bare(ErrVariableRequired)))
      else if Lower(req.varType) !in ValidTypes then Some(Bare(ErrVariableTypeRequired))
      else None
  }

  /** The created variable echoes the request, Type in its original case, with the server's VariableID. */
  function Echo(req: CreateVariableRequest, reply: CreateVariableReply): (v: Variable)
    ensures v.variableId == reply.variableId
    ensures v.varType == req.varType && v.name == req.name && v.description == req.description
    ensures v.variable == req.variable && v.ttl == req.ttl
  {
    Variable(reply.variableId, req.varType, req.name, req.description, req.variable, req.ttl)
  }

  /** CreateVariable: validation, then a 2xx status, then the success flag. */
  function CreateVariable(input: Option<CreateVariableRequest>, ex: Exchange<CreateVariableReply>): (o: Outcome<Variable>)
    ensures Validate(input).Some? ==> o == Fail(Validate(input).value)
    ensures o.Ok? <==> input.Some? && Acceptable(input.value) && ex.Reply? && 200 <= ex.status < 300
                       && ex.body.Decoded? && ex.body.env.success
    ensures o.Ok? ==> o.value == Echo(input.value, ex.body.env.payload)
    ensures !o.FailWith?
  {
    match Validate(input)
    case Some(e) => Fail(e)
    case None =>
      var req := input.value;
      Managed("CreateVariable", Buffered, StatusThenSuccess(AnyTwoHundred), ex, (p: CreateVariableReply) => Echo(req, p))
  }

  /** The Type test is case-insensitive: it accepts exactly the strings equal to geo or float under ASCII folding. */
  lemma TypeTestFoldsCase(t: string)
    ensures Lower(t) in ValidTypes <==> EqualFold(t, "geo") || EqualFold(t, "float")
  {
    assert Lower("geo") == "geo";
    assert Lower("float") == "float";
    LowerEqualsIffEqualFold(t, "geo");
    LowerEqualsIffEqualFold(t, "float");
  }

  /** "FLOAT" passes, and the echoed Type keeps its upper case. */
  lemma UpperCaseTypeAccepted(name: string, description: string, variable: string, ttl: int, reply: CreateVariableReply)
    requires name != "" && variable != ""
    ensures Validate(Some(CreateVariableRequest("FLOAT", name, description, variable, ttl))) == None
    ensures Echo(CreateVariableRequest("FLOAT", name, description, variable, ttl), reply).varType == "FLOAT"
  {
    assert Lower("FLOAT") == "float";
  }

  /** An empty Type is refused with the bare sentinel, not an AnedyaError. */
  lemma EmptyTypeIsBare(name: string, description: string, variable: string, ttl: int)
    requires name != "" && variable != ""
    ensures Validate(Some(CreateVariableRequest("", name, description, variable, ttl))) == Some(Bare(ErrVariableTypeRequired))
  {
  }
}
