/**
 * The token values exchanged between the tokenizer and the parser.
 * Tokens are immutable values: every token read is a fresh value.
 */
module Tokens {

  /** The token kinds named by the tokenizer and the parser. */
  datatype Kind =
    | Identifier
    | Keyword
    | IntLit
    | FloatLit
    | ImaginaryLit
    | RuneLit
    | StringLit
    | Period       // the "." token the parser asks for
    | Eof

  /** The `value` slot of a token. */
  datatype Value =
    | NoValue                    // `undefined`, as for the end-of-input token
    | IntValue(n: nat)           // result of `parseInt`
    | FloatValue(lexeme: string) // the literal's text; `parseFloat` is not modelled
    | Text(s: string)            // a word, or the payload of a string or rune literal

  /** A source extent: offsets of the first character and one past the last. */
  datatype Span = Span(start: nat, end: nat)

  datatype Token = Token(kind: Kind, value: Value, loc: Span)
}
