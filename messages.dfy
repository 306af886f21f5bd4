/** The wording the source gives each diagnostic. */
module Messages {
  import opened Base
  import opened Strings

  function Text(m: Message): string {
    match m
    case UnclosedQuote(quote, line, column) =>
      "Unclosed " + (if quote == '\'' then "single quote (')" else "double quote (\")")
      + " at line " + NatToString(line) + ", column " + NatToString(column)
    case UnknownCharacter(c, line, column) =>
      "Dude, what even is '" + [c] + "' at " + NatToString(line) + ":" + NatToString(column)
      + "? I have no idea what you want from me here."
    case ExpectedAtEnd(expected) => "Expected " + expected + ", but reached end of file"
    case ExpectedButGot(expected, got) => "Expected " + expected + ", but got " + got
    case OutsideFunction(found) => "All code must be inside functions. Found '" + found + "' outside any function"
    case MissingMain => "Program must have a 'main' function"
    case FunctionAlreadyDefined(name) => "Function '" + name + "' is already defined"
    case MainWithArguments => "Function 'main' must not have any arguments"
    case FunctionNotClosed(name) =>
      "Function '" + name + "' is not closed. Missing closing brace '}' for function that starts here"
    case UnknownStatement(found) => "Unknown statement type '" + found + "'"
    case MissingSemicolon(after) => "Missing semicolon ';' after " + after
    case ExpectedVariableType(found) => "Expected variable type (int, float, char, string), got '" + found + "'"
    case VariableAlreadyDefined(name) => "Variable '" + name + "' is already defined"
    case UnknownFunction(name) => "Unknown function '" + name + "'"
    case CallWithoutParentheses => "Function call without arguments (missing parentheses)"
    case VariableNotDefined(name) => "Variable '" + name + "' is not defined"
    case ExpectedExpression(found) => "Expected expression (string, number, or identifier), got '" + found + "'"
    case CharComparedWithString(literal) =>
      "Cannot compare char with string. Use single quotes for char: '" + literal + "' instead of \"" + literal + "\""
    case StringComparedWithChar(literal) =>
      "Cannot compare string with char. Use single quotes for char: '" + literal + "' instead of \"" + literal + "\""
    case ImportNotFound(path) => "Cannot find import file: " + path
    case InvalidExport(path) => "Invalid export syntax in " + path + ". Use: $export func_name from file.kato"
    case ExportFileNotFound(path) => "Cannot find export file: " + path
    case MainExported(file) => "Cannot import 'main' function from " + file
    case AlreadyImported(name) => "Function '" + name + "' is already imported"
    case ExportNotFound(name, file) => "Function '" + name + "' not found in " + file
    case UnknownTopLevelIdentifier(found, suggestion) =>
      "Unknown identifier '" + found + "' at top level (did you mean '" + suggestion + "'?)"
    case UnexpectedAtTopLevel(kind) => "Unexpected token at top level: " + kind
    case EndInDeclaration => "Unexpected end of file while parsing declaration"
    case InvalidType(typeName) => "Invalid type '" + typeName + "'"
    case ExpectedIdentifierAfterType(typeName) => "Expected identifier after type '" + typeName + "'"
    case GlobalVariable => "Global variable declarations not supported"
    case FunctionRedefinition(name, line, column) =>
      "Redefinition of function '" + name + "' (previously defined at " + NatToString(line) + ":"
      + NatToString(column) + ")"
    case EndInParameters => "Unexpected end of file in parameter list"
    case ExpectedParameterType(got) => "Expected parameter type, got '" + got + "'"
    case InvalidParameterType(typeName) => "Invalid parameter type '" + typeName + "'"
    case ExpectedParameterName(typeName) => "Expected parameter name after type '" + typeName + "'"
    case DuplicateParameter(name) => "Duplicate parameter name '" + name + "'"
    case ParameterAfterComma => "Expected parameter after ','"
    case ExpectedCommaOrParen(got) => "Expected ',' or ')' in parameter list, got '" + got + "'"
    case ExpectedBodyOrSemicolon => "Expected '{' or ';' after function signature"
    case SemicolonAfterBody => "Unexpected ';' after function body (remove the semicolon)"
    case EndInExpression => "Unexpected end of file in expression"
    case UndeclaredVariable(name) => "Undeclared variable '" + name + "'"
    case UnexpectedInExpression(kind) => "Unexpected token in expression: " + kind
    case EndInCall(name) => "Unexpected end of file in function call " + name
    case ExpectedCommaOrParenInCall(got) => "Expected ',' or ')' in function call, got " + got
  }
}
