/** Failure outcomes. Every `panic` of the calculator (those raised through
    `Interpreter.Error`, and the index out of range on an empty text)
    becomes an explicit error value here. */
module Results {

  /** One error per panic site of the interpreter. */
  datatype Error =
    | IntegerSyntax   // `integer`: Atoi rejected an empty digit run
    | IntegerRange    // `integer`: Atoi rejected a digit run beyond the int range
    | NoMatch         // `getNextToken`: a character that starts no token
    | EatMismatch     // `Eat`: the current token has another type
    | EmptyText       // `NewInterpreter`: reading the first byte of the empty text

  datatype Option<+T> = None | Some(value: T)

  /** The value an operation returns, or the panic it raises. */
  datatype Result<+T> = Ok(value: T) | Err(error: Error)

  /** A step that returns nothing, or the panic it raises. */
  datatype Outcome = Pass | Fail(error: Error)
}
