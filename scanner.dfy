/** The scanner object: an input text and a cursor (position, line, column)
    that only Advance moves. Each method is proved to do what the matching
    function of module Lexicon describes. */
module SimpleScanner {
  import opened Tokens
  import opened Chars
  import opened Lexicon

  class Scanner {
    const input: string
    var position: nat
    var line: int
    var column: int

    /** The cursor invariant: line and column always agree with the newlines
        consumed so far. */
    ghost predicate Valid()
      reads this
    {
      position <= |input| &&
      line == LineAt(input, position) &&
      column == ColumnAt(input, position)
    }

    constructor (input: string)
      ensures this.input == input
      ensures position == 0 && line == 1 && column == 1
      ensures Valid()
    {
      this.input := input;
      position := 0;
      line := 1;
      column := 1;
    }

    /** The character under the cursor, NUL at end of input. */
    function CurrentChar(): (c: char)
      reads this
      ensures position < |input| ==> c == input[position]
      ensures position >= |input| ==> c == '\0'
    {
      CharAt(input, position)
    }

    /** Consumes one character, if any is left. */
    method Advance()
      requires Valid()
      modifies this
      ensures Valid()
      ensures old(position) < |input| ==> position == old(position) + 1
      ensures old(position) < |input| && input[old(position)] == '\n' ==>
                line == old(line) + 1 && column == 1
      ensures old(position) < |input| && input[old(position)] != '\n' ==>
                line == old(line) && column == old(column) + 1
      ensures old(position) >= |input| ==>
                position == old(position) && line == old(line) && column == old(column)
    {
      if position < |input| {
        CursorStep(input, position);
        if CurrentChar() == '\n' {
          line := line + 1;
          column := 1;
        } else {
          column := column + 1;
        }
        position := position + 1;
      }
    }

    method SkipWhitespace()
      requires Valid()
      modifies this
      ensures Valid()
      ensures position == Lexicon.SkipWhitespace(input, old(position))
    {
      while position < |input| && IsWhiteSpace(CurrentChar())
        invariant Valid()
        invariant RunEnd(input, position, IsWhiteSpace) == RunEnd(input, old(position), IsWhiteSpace)
        decreases |input| - position
      {
        Advance();
      }
    }

    /** Appends characters to `text` while they satisfy `accept`. */
    method ConsumeRun(accept: char -> bool, ghost start: nat, text: string) returns (text': string)
      requires Valid() && start <= position && text == input[start..position]
      modifies this
      ensures Valid()
      ensures position == RunEnd(input, old(position), accept)
      ensures text' == input[start..position]
    {
      text' := text;
      while position < |input| && accept(CurrentChar())
        invariant Valid() && start <= position
        invariant text' == input[start..position]
        invariant RunEnd(input, position, accept) == RunEnd(input, old(position), accept)
        decreases |input| - position
      {
        text' := text' + [CurrentChar()];
        Advance();
      }
    }

    method ScanNumber(tokenLine: int, tokenColumn: int) returns (t: Token)
      requires Valid()
      modifies this
      ensures Valid()
      ensures position == NumberEnd(input, old(position))
      ensures t == Token(NUMBER, input[old(position)..position], tokenLine, tokenColumn)
    {
      var text := ConsumeRun(IsDigit, position, "");
      if position < |input| && CurrentChar() == '.' {
        text := text + [CurrentChar()];
        Advance();
        text := ConsumeRun(IsDigit, old(position), text);
      }
      t := Token(NUMBER, text, tokenLine, tokenColumn);
    }

    method ScanIdentifierOrKeyword(tokenLine: int, tokenColumn: int) returns (t: Token)
      requires Valid()
      modifies this
      ensures Valid()
      ensures position == WordEnd(input, old(position))
      ensures t == Token(KeywordOrId(input[old(position)..position]), input[old(position)..position],
                         tokenLine, tokenColumn)
    {
      var text := "";
      if IsLetter(CurrentChar()) {
        text := text + [CurrentChar()];
        Advance();
      }
      text := ConsumeRun(IsIdentifierPart, old(position), text);
      t := Token(KeywordOrId(text), text, tokenLine, tokenColumn);
    }

    method ScanRelop(tokenLine: int, tokenColumn: int) returns (t: Token)
      requires Valid()
      modifies this
      ensures Valid()
      ensures position == RelopScan(input, old(position)).end
      ensures t == Token(RelopScan(input, old(position)).kind, RelopScan(input, old(position)).text,
                         tokenLine, tokenColumn)
    {
      var first := CurrentChar();
      Advance();
      if position < |input| {
        var second := CurrentChar();
        var combined := [first, second];
        if combined == "<=" || combined == ">=" || combined == "<>" {
          Advance();
          return Token(RELOP, combined, tokenLine, tokenColumn);
        } else if combined == ":=" {
          Advance();
          return Token(ASSIGN, combined, tokenLine, tokenColumn);
        }
      }
      if first == '<' || first == '>' || first == '=' {
        return Token(RELOP, [first], tokenLine, tokenColumn);
      }
      if first == ':' {
        return Token(COLON, ":", tokenLine, tokenColumn);
      }
      return Token(UNKNOWN, [first], tokenLine, tokenColumn);
    }

    method ScanSingleCharacter(current: char, tokenLine: int, tokenColumn: int) returns (t: Token)
      requires Valid()
      modifies this
      ensures Valid()
      ensures position == if old(position) < |input| then old(position) + 1 else old(position)
      ensures t == Token(SingleCharKind(current), [current], tokenLine, tokenColumn)
    {
      var kind := SingleCharKind(current);
      Advance();
      t := Token(kind, [current], tokenLine, tokenColumn);
    }

    /** Skips whitespace, then scans one token, or yields EOF at end of input. */
    method GetNextToken() returns (t: Token)
      requires Valid()
      modifies this
      ensures Valid()
      ensures (t, position) == NextToken(input, old(position))
    {
      SkipWhitespace();
      if position >= |input| {
        return Token(EOF, "", line, column);
      }
      var current := CurrentChar();
      var startLine := line;
      var startColumn := column;
      if IsLetter(current) {
        t := ScanIdentifierOrKeyword(startLine, startColumn);
      } else if IsDigit(current) {
        t := ScanNumber(startLine, startColumn);
      } else if current == ':' {
        t := ScanRelop(startLine, startColumn);
      } else if IsRelopStart(current) {
        t := ScanRelop(startLine, startColumn);
      } else {
        t := ScanSingleCharacter(current, startLine, startColumn);
      }
    }

    /** Drains the input: every token up to and including EOF. */
    method ScanAll() returns (tokens: seq<Token>)
      requires Valid()
      modifies this
      ensures Valid()
      ensures tokens == Tokenize(input, old(position))
      ensures position == |input|
    {
      ghost var start := position;
      TokenizeAccumulate(input, start, start, []);
      var token := GetNextToken();
      tokens := [token];
      while token.kind != EOF
        invariant Valid() && start <= position
        invariant |tokens| > 0 && tokens[|tokens| - 1] == token
        invariant token.kind != EOF ==> tokens + Tokenize(input, position) == Tokenize(input, start)
        invariant token.kind == EOF ==> tokens == Tokenize(input, start) && position == |input|
        decreases |input| - position + (if token.kind == EOF then 0 else 1)
      {
        TokenizeAccumulate(input, start, position, tokens);
        token := GetNextToken();
        tokens := tokens + [token];
      }
    }
  }
}
