/** CommandManagement.SendCommand (commands/api_op_send_command.go). */
module SendCommand {
  import opened Wrappers
  import opened Errors
  import opened Exchange

  /** The two command data types (commands/models.go). */
  const DataTypeString: string := "string"
  const DataTypeBinary: string := "binary"

  datatype SendCommandRequest = SendCommandRequest(nodeId: string, command: string, data: string, dataType: string, expiry: int)

  datatype SendCommandReply = SendCommandReply(commandId: string)

  datatype SendCommandResult = SendCommandResult(commandId: string)

  predicate Acceptable(r: SendCommandRequest) {
    r.nodeId != "" && r.command != "" && r.data != ""
    && (r.dataType == DataTypeString || r.dataType == DataTypeBinary) && r.expiry >= 0
  }

  /** Nil, NodeId, Command, Data, the Type, then a negative Expiry. */
  function Validate(input: Option<SendCommandRequest>): (r: Option<Error>)
    ensures r.None? <==> input.Some? && Acceptable(input.value)
    ensures input.None? ==> r == Some(Anedya("send command request cannot be nil", Bare(ErrRequestNil)))
    ensures input.Some? && input.value.nodeId == "" ==> r == Some(Anedya("nodeId is required", Bare(ErrInvalidNodeID)))
    ensures input.Some? && input.value.nodeId != "" && input.value.command == "" ==>
              r == Some(Anedya("command is required", Bare(ErrCommandRequired)))
    ensures input.Some? && input.value.nodeId != "" && input.value.command != "" && input.value.data == "" ==>
              r == Some(Anedya("data is required", Bare(ErrDataRequired)))
    ensures input.Some? && input.value.nodeId != "" && input.value.command != "" && input.value.data != ""
            && input.value.dataType != DataTypeString && input.value.dataType != DataTypeBinary ==>
              r == Some(Anedya("type must be either 'string' or 'binary'", Bare(ErrInvalidCommandType)))
    ensures input.Some? && input.value.nodeId != "" && input.value.command != "" && input.value.data != ""
            && (input.value.dataType == DataTypeString || input.value.dataType == DataTypeBinary)
            && input.value.expiry < 0 ==>
              r == Some(Anedya("expiry must be a positive value", Bare(ErrInvalidExpiry)))
    ensures r.Some? && Is(r.value, ErrInvalidExpiry) <==>
              input.Some? && input.value.nodeId != "" && input.value.command != "" && input.value.data != ""
              && (input.value.dataType == DataTypeString || input.value.dataType == DataTypeBinary)
              && input.value.expiry < 0
  {
    if input.None? then Some(Anedya("send command request cannot be nil", Bare(ErrRequestNil)))
    else
      var req := input.value;
      if req.nodeId == "" then Some(Anedya("nodeId is required", Bare(ErrInvalidNodeID)))
      else if req.command == "" then Some(Anedya("command is required", Bare(ErrCommandRequired)))
      else if req.data == "" then Some(Anedya("data is required", Bare(ErrDataRequired)))
      else if req.dataType != DataTypeString && req.dataType != DataTypeBinary then
        Some(Anedya("type must be either 'string' or 'binary'", Bare(ErrInvalidCommandType)))
      else if req.expiry < 0 then Some(Anedya("expiry must be a positive value", Bare(ErrInvalidExpiry)))
      else None
  }

  /** SendCommand: validation, then the success flag; the result is the server's command id. */
  function SendCommand(input: Option<SendCommandRequest>, ex: Exchange<SendCommandReply>): (o: Outcome<SendCommandResult>)
    ensures Validate(input).Some? ==> o == Fail(Validate(input).value)
    ensures o.Ok? <==> input.Some? && Acceptable(input.value) && ex.Reply? && ex.body.Decoded? && ex.body.env.success
    ensures o.Ok? ==> o.value.commandId == ex.body.env.payload.commandId
    ensures !o.FailWith?
  {
    match Validate(input)
    case Some(e) => Fail(e)
    case None => Managed("send command", Buffered, SuccessOnly, ex, (p: SendCommandReply) => SendCommandResult(p.commandId))
  }

  /** An expiry of zero is accepted; the type match is exact. */
  lemma ZeroExpiryAndExactType(nodeId: string, command: string, data: string)
    requires nodeId != "" && command != "" && data != ""
    ensures Validate(Some(SendCommandRequest(nodeId, command, data, DataTypeString, 0))) == None
    ensures Validate(Some(SendCommandRequest(nodeId, command, data, "STRING", 0)))
         == Some(Anedya("type must be either 'string' or 'binary'", Bare(ErrInvalidCommandType)))
  {
  }
}
