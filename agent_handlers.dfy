/**
 * The two tool handlers the MCP agent registers. Each receives the JSON
 * parameters of a tools/call request and either returns one text content
 * item or throws an MCP error carrying an error code and a message.
 *
 * The process runner (popen/fgets) and the floating-point evaluation are
 * collaborators passed in as functions; everything the handlers decide
 * before reaching them is modelled exactly.
 */
module AgentHandlers {
  import opened Text
  import opened ShellSafety
  import opened ResponseCleaning

  datatype ErrorCode = InvalidParams | InternalError

  /** A tool's answer: one text content item, or an MCP error. */
  datatype ToolReply = Content(text: string) | Failure(code: ErrorCode, message: string)

  /** The string-valued members of the request's params object. */
  type Params = map<string, string>

  /** What running a command gives: its collected standard output, or popen failed. */
  datatype ExecOutcome = Output(text: string) | StartFailed

  /** The handler's reply, and the command it handed to the runner, if any. */
  datatype ShellHandling = ShellHandling(reply: ToolReply, ran: Option<string>)

  const MissingCommand := "Missing 'command' parameter"
  const EmptyCommand := "Empty command"
  const NotAllowed := "Command not allowed for security reasons"
  const StartFailure := "Failed to execute command"

  /**
   * ShellCommandHandler::handle. The checks come in order: the parameter
   * must be present, the cleaned command non-empty, and then safe; each
   * failure is invalid_params. Only then is the cleaned command run, and a
   * runner failure becomes internal_error.
   */
  function ShellCommandHandle(params: Params, execute: string -> ExecOutcome): (h: ShellHandling)
    ensures "command" !in params ==> h == ShellHandling(Failure(InvalidParams, MissingCommand), None)
    ensures "command" in params && Clean(params["command"]) == [] ==>
              h == ShellHandling(Failure(InvalidParams, EmptyCommand), None)
    ensures "command" in params && Clean(params["command"]) != [] && !IsCommandSafe(Clean(params["command"])) ==>
              h == ShellHandling(Failure(InvalidParams, NotAllowed), None)
    // The runner is reached only with the cleaned command, and only when it is non-empty and safe.
    ensures h.ran.Some? <==> "command" in params && Clean(params["command"]) != [] && IsCommandSafe(Clean(params["command"]))
    ensures h.ran.Some? ==> h.ran.value == Clean(params["command"])
    // Once run, the reply is the runner's output, or internal_error when it could not start.
    ensures h.ran.Some? ==> h.reply == match execute(h.ran.value) {
                                          case Output(text) => Content(text)
                                          case StartFailed => Failure(InternalError, StartFailure) }
  {
    if "command" !in params then ShellHandling(Failure(InvalidParams, MissingCommand), None)
    else
      var cmd := Clean(params["command"]);
      if cmd == [] then ShellHandling(Failure(InvalidParams, EmptyCommand), None)
      else if !IsCommandSafe(cmd) then ShellHandling(Failure(InvalidParams, NotAllowed), None)
      else match execute(cmd)
        case Output(text) => ShellHandling(Content(text), Some(cmd))
        case StartFailed => ShellHandling(Failure(InternalError, StartFailure), Some(cmd))
  }

  /**
   * What reaches the runner is non-empty, trimmed, free of every blocked
   * substring and begins with an allowed command name.
   */
  lemma RunCommandIsSafe(params: Params, execute: string -> ExecOutcome)
    requires ShellCommandHandle(params, execute).ran.Some?
    ensures var c := ShellCommandHandle(params, execute).ran.value;
            c != [] && !IsTrimSpace(c[0]) && !IsTrimSpace(c[|c| - 1])
            && (forall b :: b in Blocked ==> !Contains(c, b))
            && (exists a :: a in Allowed && a <= c)
  {
  }

  /** A rejected request gives the same answer whatever the runner would do: the runner is never consulted. */
  lemma RejectionIgnoresRunner(params: Params, e1: string -> ExecOutcome, e2: string -> ExecOutcome)
    requires ShellCommandHandle(params, e1).reply.Failure?
    requires ShellCommandHandle(params, e1).reply.code == InvalidParams
    ensures ShellCommandHandle(params, e2) == ShellCommandHandle(params, e1)
  {
  }

  /** A command carrying a blocked substring is refused as invalid_params, even when it begins with an allowed name. */
  lemma ChainedCommandRefused(execute: string -> ExecOutcome)
    ensures ShellCommandHandle(map["command" := "ls; rm -rf /"], execute).reply == Failure(InvalidParams, NotAllowed)
  {
    MarkerFreeByLetters("ls; rm -rf /");
    CleanOfPlain("ls; rm -rf /");
    RefusedChained();
  }

  // ---------------------------------------------------------------------
  // The calculator tool
  // ---------------------------------------------------------------------

  datatype Operation = Add | Subtract | Multiply | Divide

  /** The switch over the operator character. */
  function OperationOf(op: char): (r: Option<Operation>)
    ensures r.Some? <==> op in "+-*/"
  {
    match op
    case '+' => Some(Add)
    case '-' => Some(Subtract)
    case '*' => Some(Multiply)
    case '/' => Some(Divide)
    case _ => None
  }

  /**
   * What `iss >> a >> op >> b` reads from the expression, as far as the
   * handler's decisions go: the operator character and whether the right
   * operand is zero.
   */
  datatype Scanned = Scanned(op: char, rightIsZero: bool)

  const MissingExpression := "Missing 'expression' parameter"
  const EmptyExpression := "Empty expression"
  const DivisionByZero := "Division by zero"
  const InvalidOperator := "Invalid operator"

  /**
   * CalculatorHandler::handle. `scan` stands for the stream extraction and
   * `render` for std::to_string of the double result of applying the
   * operation; both are floating-point work the model does not carry out.
   */
  function CalculatorHandle(params: Params, scan: string -> Scanned, render: (string, Operation) -> string): (r: ToolReply)
    ensures "expression" !in params ==> r == Failure(InvalidParams, MissingExpression)
    ensures "expression" in params && Clean(params["expression"]) == [] ==> r == Failure(InvalidParams, EmptyExpression)
    ensures r.Failure? && r.code == InvalidParams ==> "expression" !in params || Clean(params["expression"]) == []
    ensures r.Failure? && r.code == InternalError ==>
              var s := scan(Clean(params["expression"]));
              (r.message == InvalidOperator && OperationOf(s.op).None?)
              || (r.message == DivisionByZero && s.op == '/' && s.rightIsZero)
    ensures r.Content? ==>
              && "expression" in params && Clean(params["expression"]) != []
              && OperationOf(scan(Clean(params["expression"])).op).Some?
              && !(scan(Clean(params["expression"])).op == '/' && scan(Clean(params["expression"])).rightIsZero)
              && r.text == render(Clean(params["expression"]), OperationOf(scan(Clean(params["expression"])).op).value)
  {
    if "expression" !in params then Failure(InvalidParams, MissingExpression)
    else
      var expr := Clean(params["expression"]);
      if expr == [] then Failure(InvalidParams, EmptyExpression)
      else
        var s := scan(expr);
        match OperationOf(s.op)
        case None => Failure(InternalError, InvalidOperator)
        case Some(operation) =>
          if operation == Divide && s.rightIsZero then Failure(InternalError, DivisionByZero)
          else Content(render(expr, operation))
  }

  /** Parameter validation comes before any evaluation: its errors do not depend on how the expression reads. */
  lemma CalculatorValidatesFirst(params: Params, s1: string -> Scanned, s2: string -> Scanned,
                                 r1: (string, Operation) -> string, r2: (string, Operation) -> string)
    requires "expression" !in params || Clean(params["expression"]) == []
    ensures CalculatorHandle(params, s1, r1) == CalculatorHandle(params, s2, r2)
    ensures CalculatorHandle(params, s1, r1).Failure?
    ensures CalculatorHandle(params, s1, r1).code == InvalidParams
  {
  }
}
