/** The errors that end a run. Each stage raises its own kind. */
module Errors {

  datatype Error =
    | LexError(ch: char)       // "Invalid character: c", raised by the lexer
    | SyntaxError              // "Invalid syntax", raised by the parser
    | NameError(name: string)  // "Variable '<name>' is not defined", raised by the interpreter
    | OperandError(op: string) // an operator applied to values the model gives no meaning to
    | OutOfFuel                // the step budget given for while loops ran out
}
