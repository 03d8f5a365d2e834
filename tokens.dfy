/** Token categories and the token value produced by the scanner. */
module Tokens {

  /** The closed set of token categories, in declaration order. */
  datatype TokenType =
    // Keywords
    | IF | THEN | ELSE
    | FOR | WHILE | DO
    | TO | DOWNTO | REPEAT | UNTIL
    | BEGIN | END | VAR | CONST | PROCEDURE | FUNCTION
    // Identifiers and literals
    | ID | NUMBER
    // Operators
    | RELOP | ASSIGN | PLUS | MINUS | MULTIPLY | DIVIDE
    // Punctuation
    | LPAREN | RPAREN | SEMICOLON | COMMA | COLON | DOT
    // Special
    | EOF | UNKNOWN
  {
    /** The sixteen reserved-word categories. */
    predicate IsKeyword() {
      IF? || THEN? || ELSE? || FOR? || WHILE? || DO? || TO? || DOWNTO? ||
      REPEAT? || UNTIL? || BEGIN? || END? || VAR? || CONST? || PROCEDURE? || FUNCTION?
    }
  }

  /** A classified, positioned piece of source text; line and column are 1-based
      and locate the token's first character. */
  datatype Token = Token(kind: TokenType, lexeme: string, line: int, column: int)
}
