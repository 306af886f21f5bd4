/** The value a token of either lexer carries. */
module TokenValues {
  import opened Strings

  /** A token's value: text for literals, identifiers, keywords and operators,
      an integer for NUMBER, the lexeme for FLOAT_NUMBER, and `None` for EOF. */
  datatype Value = Text(text: string) | Integer(n: nat) | Real(lexeme: string) | NoValue

  /** The value as Python's `str` renders it inside an f-string. */
  function ValueText(v: Value): string {
    match v
    case Text(s) => s
    case Integer(n) => NatToString(n)
    case Real(lexeme) => lexeme
    case NoValue => "None"
  }
}
