/**
 * The failure side of the interpreter. Every `throw` in the interpreter becomes
 * an `Err`/`Fail` value naming the kind of exception; the message text is not
 * modelled, only the condition that raised it.
 */
module Outcomes {

  datatype Option<+T> = None | Some(value: T)

  /** Why a call threw. One constructor per distinct throw site kind. */
  datatype Error =
    | IndexOutOfRange                 // parts[k] with k past the end of the token array
    | FormatError(token: string)      // float.Parse / int.Parse rejected the token
    | EmptyInput                      // ParseFloat on a blank string
    | Unparsable(input: string)       // ParseFloat / circle: neither literal, variable nor product
    | InvalidOperand(operand: string) // GetOperandValue: neither variable nor literal
    | InvalidCondition(text: string)  // CheckIfCondition: wrong token count or unknown bare name
    | InvalidOperator(op: string)     // comparison operator not one of the six
    | InvalidConditionFormat          // EvaluateCondition: not exactly three tokens
    | UndefinedVariable(name: string) // UseVariable
    | EmptyExpression(name: string)   // SetVariable with a blank expression
    | SetFormat                       // `set` with fewer than two arguments
    | UnknownCommand(keyword: string) // ExecuteCommand / ExecuteProgram default branch
    | OpacityOutOfRange(alpha: int)   // Color.FromArgb with alpha outside 0..255
    | InvalidColorName(name: string)  // ChangeBackgroundColor
    | NestedLoop                      // `loop` while a loop is being captured
    | MismatchedEndloop               // `endloop` with no active loop
    | NestedMethod                    // `method` while the method buffer is non-empty
    | MismatchedEndmethod             // `endmethod` with no active method
    | MethodAlreadyDefined(name: string)
    | UndefinedMethod(name: string)
    | NoMatchingEnd(start: nat)       // FindEndLoopIndex / FindEndIfIndex ran off the end
    | MismatchedIf                    // SkipToEndIf ran out of lines
    | EmptyReplaceKey                 // string.Replace with an empty old value

  /** The value a non-void call returns, or the exception it throws. */
  datatype Result<+T> = Ok(value: T) | Err(error: Error) {
    predicate IsFailure() { Err? }

    function PropagateFailure<U>(): Result<U>
      requires Err?
    {
      Err(error)
    }

    function Extract(): T
      requires Ok?
    {
      value
    }
  }

  /** How a void call ended: normally, or by throwing. */
  datatype Outcome = Done | Fail(error: Error)

  /**
   * The state a sequence of statements leaves behind together with how it
   * ended. A throw does not roll back what earlier statements did, so a
   * failed run still carries the state reached at the throw.
   */
  datatype Effect<+S> = Effect(state: S, outcome: Outcome)
}
