/** Options, failure-carrying results and the diagnostics of both translators.

    Every fatal condition of the source carries a message and, where the
    source gives one, a 1-based line and column (`KatoSyntaxError`,
    `C2KatoError`, the Kato lexer's built-in `SyntaxError`).  A message is
    kept as the template it was raised with and its arguments (`Message`);
    `Messages.Text` renders the exact wording.  Python runtime errors that the
    source does not catch (an attribute lookup on `None`, an index out of
    range, concatenating `None` to a string) become `Crash`. */
module Base {

  datatype Option<+T> = None | Some(value: T)

  datatype Message =
    // the Kato lexer
    | UnclosedQuote(quote: char, line: nat, column: nat)
    | UnknownCharacter(c: char, line: nat, column: nat)
    // the Kato parser
    | ExpectedAtEnd(expected: string)
    | ExpectedButGot(expected: string, got: string)
    | OutsideFunction(found: string)
    | MissingMain
    | FunctionAlreadyDefined(name: string)
    | MainWithArguments
    | FunctionNotClosed(name: string)
    | UnknownStatement(found: string)
    | MissingSemicolon(after: string)
    | ExpectedVariableType(found: string)
    | VariableAlreadyDefined(name: string)
    | UnknownFunction(name: string)
    | CallWithoutParentheses
    | VariableNotDefined(name: string)
    | ExpectedExpression(found: string)
    | CharComparedWithString(literal: string)
    | StringComparedWithChar(literal: string)
    // the Kato preprocessor
    | ImportNotFound(path: string)
    | InvalidExport(path: string)
    | ExportFileNotFound(path: string)
    | MainExported(file: string)
    | AlreadyImported(name: string)
    | ExportNotFound(name: string, file: string)
    // the C parser
    | UnknownTopLevelIdentifier(found: string, suggestion: string)
    | UnexpectedAtTopLevel(kind: string)
    | EndInDeclaration
    | InvalidType(typeName: string)
    | ExpectedIdentifierAfterType(typeName: string)
    | GlobalVariable
    | FunctionRedefinition(name: string, line: nat, column: nat)
    | EndInParameters
    | ExpectedParameterType(got: string)
    | InvalidParameterType(typeName: string)
    | ExpectedParameterName(typeName: string)
    | DuplicateParameter(name: string)
    | ParameterAfterComma
    | ExpectedCommaOrParen(got: string)
    | ExpectedBodyOrSemicolon
    | SemicolonAfterBody
    | EndInExpression
    | UndeclaredVariable(name: string)
    | UnexpectedInExpression(kind: string)
    | EndInCall(name: string)
    | ExpectedCommaOrParenInCall(got: string)

  datatype Error =
    | SyntaxError(message: Message, line: nat, column: nat)   // raised with a position
    | Unpositioned(message: Message)                          // raised without one
    | Crash(reason: string)                                   // a Python runtime error
  datatype Result<+T> = Ok(value: T) | Err(error: Error) {
    predicate IsFailure() { Err? }

    function PropagateFailure<U>(): Result<U>
      requires Err?
    {
      Err(error)
    }

    function Extract(): T
      requires Ok?
    {
      value
    }
  }

  /** A method's result and final cursor agree with a specification that
      yields the value together with the position after it; on failure only
      the error matters, since every error of the source is fatal. */
  predicate Agrees<T(==)>(r: Result<T>, pos: nat, spec: Result<(T, nat)>) {
    match spec
    case Ok(v) => r == Ok(v.0) && pos == v.1
    case Err(e) => r == Err(e)
  }

  /** A method result that agrees with its specification names the
      specification's outcome: its value and position, or its error. */
  lemma AgreesCases<T>(r: Result<T>, pos: nat, spec: Result<(T, nat)>)
    requires Agrees(r, pos, spec)
    ensures r.Ok? ==> spec == Ok((r.value, pos))
    ensures r.Err? ==> spec == Err(r.error)
  {
  }

  /** Concatenation is associative; stated once, for any element type, so
      that callers need not prove it by comparing elements. */
  lemma Associative<T>(a: seq<T>, b: seq<T>, c: seq<T>)
    ensures (a + b) + c == a + (b + c)
  {
  }
}
