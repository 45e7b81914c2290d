/**
 * The whole pipeline as src/test.js and src/main.js drive it:
 * `new Interpreter().interpret(new Parser(new Lexer(input)).parse())`,
 * starting from an empty scope and an empty output.
 */
module Pipeline {
  import opened Wrappers
  import opened Errors
  import opened Tokens
  import opened Lexing
  import opened Ast
  import opened Parsing
  import opened Values
  import opened Interpreting

  /** The state a fresh interpreter starts from. */
  const Fresh := State(map[], [])

  /**
   * Lex, parse and run `input`: a lexical or syntax error ends the run before
   * anything is executed; otherwise the program runs from a fresh state.
   */
  function Evaluate(input: string, fuel: nat): (c: Completion)
    ensures ParseInput(input).Failure? ==> c.result.Failure? && c.state == Fresh
    ensures ParseInput(input).Success? ==> c == Interpret(ParseInput(input).value, Fresh, fuel)
  {
    match ParseInput(input)
    case Failure(e) => Completion(Failure(e), Fresh)
    case Success(tree) => Interpret(tree, Fresh, fuel)
  }

  /** The objects wired together, as the drivers do: the run's result and what was printed. */
  method Run(input: string, fuel: nat) returns (r: Result<Option<Value>, Error>, output: seq<Value>)
    ensures r == Evaluate(input, fuel).result && output == Evaluate(input, fuel).state.output
  {
    var lexer := new Lexer(input);
    var created := Parser.Create(lexer);
    if created.Failure? {
      return Failure(created.error), [];
    }
    var parser := created.value;
    var tree := parser.Parse();
    if tree.Failure? {
      return Failure(tree.error), [];
    }
    var interpreter := new Interpreter();
    r := interpreter.Run(tree.value, fuel);
    output := interpreter.output;
  }
}
