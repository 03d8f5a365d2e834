/** Concrete scans of the demonstration driver's sample inputs and of the
    documented corner cases. */
module Samples {
  import opened Tokens
  import opened Chars
  import opened Lexicon

  lemma {:induction false} NoNewlineOccurrences(s: string)
    requires forall k :: 0 <= k < |s| ==> s[k] != '\n'
    ensures Occurrences(s, '\n') == 0
  {
    if s != [] {
      NoNewlineOccurrences(s[1..]);
    }
  }

  /** On the first line, line is 1 and column is one more than the position. */
  lemma FirstLineCursor(s: string, p: nat)
    requires p <= |s|
    requires forall k :: 0 <= k < p ==> s[k] != '\n'
    ensures LineAt(s, p) == 1 && ColumnAt(s, p) == p + 1
  {
    NoNewlineOccurrences(s[..p]);
  }

  lemma SimpleAssignmentTokens(s: string)
    requires s == "x := 5"
    ensures NextToken(s, 0) == (Token(ID, "x", 1, 1), 1)
    ensures NextToken(s, 1) == (Token(ASSIGN, ":=", 1, 3), 4)
    ensures NextToken(s, 4) == (Token(NUMBER, "5", 1, 6), 6)
    ensures NextToken(s, 6) == (Token(EOF, "", 1, 7), 6)
  {
    FirstLineCursor(s, 0);
    FirstLineCursor(s, 2);
    FirstLineCursor(s, 5);
    FirstLineCursor(s, 6);
    assert WordEnd(s, 0) == 1 && s[0..1] == "x" && ToLower("x") == "x";
    assert RunEnd(s, 2, IsWhiteSpace) == 2;
    assert SkipWhitespace(s, 1) == 2;
    assert RelopScan(s, 2) == Scanned(ASSIGN, ":=", 4);
    assert SkipWhitespace(s, 4) == 5 && NumberEnd(s, 5) == 6 && s[5..6] == "5";
  }

  /** The driver's first sample: whitespace yields no token. */
  lemma SimpleAssignment(s: string)
    requires s == "x := 5"
    ensures Tokenize(s, 0) ==
      [Token(ID, "x", 1, 1), Token(ASSIGN, ":=", 1, 3), Token(NUMBER, "5", 1, 6), Token(EOF, "", 1, 7)]
  {
    SimpleAssignmentTokens(s);
    TokenizeUnfold(s, 6, Token(EOF, "", 1, 7), 6);
    TokenizeUnfold(s, 4, Token(NUMBER, "5", 1, 6), 6);
    TokenizeUnfold(s, 1, Token(ASSIGN, ":=", 1, 3), 4);
    TokenizeUnfold(s, 0, Token(ID, "x", 1, 1), 1);
  }

  lemma SecondLineCursor(s: string)
    requires s == "x\ny"
    ensures LineAt(s, 2) == 2 && ColumnAt(s, 2) == 1
    ensures LineAt(s, 3) == 2 && ColumnAt(s, 3) == 2
  {
    assert s[..2] == "x\n";
    assert Occurrences("x\n", '\n') == 1;
    assert LineStart(s, 2) == 2;
    assert s[..3] == s[..2] + "y";
    OccurrencesAppend(s[..2], "y", '\n');
    assert LineStart(s, 3) == 2;
  }

  lemma LinesAndColumnsTokens(s: string)
    requires s == "x\ny"
    ensures NextToken(s, 0) == (Token(ID, "x", 1, 1), 1)
    ensures NextToken(s, 1) == (Token(ID, "y", 2, 1), 3)
    ensures NextToken(s, 3) == (Token(EOF, "", 2, 2), 3)
  {
    FirstLineCursor(s, 0);
    SecondLineCursor(s);
    assert WordEnd(s, 0) == 1 && s[0..1] == "x" && ToLower("x") == "x";
    assert RunEnd(s, 2, IsWhiteSpace) == 2;
    assert SkipWhitespace(s, 1) == 2;
    assert WordEnd(s, 2) == 3 && s[2..3] == "y" && ToLower("y") == "y";
  }

  /** A newline moves the next token to line 2, column 1. */
  lemma LinesAndColumns(s: string)
    requires s == "x\ny"
    ensures Tokenize(s, 0) == [Token(ID, "x", 1, 1), Token(ID, "y", 2, 1), Token(EOF, "", 2, 2)]
  {
    LinesAndColumnsTokens(s);
    TokenizeUnfold(s, 3, Token(EOF, "", 2, 2), 3);
    TokenizeUnfold(s, 1, Token(ID, "y", 2, 1), 3);
    TokenizeUnfold(s, 0, Token(ID, "x", 1, 1), 1);
  }

  lemma TrailingDotTokens(s: string)
    requires s == "5."
    ensures NextToken(s, 0) == (Token(NUMBER, "5.", 1, 1), 2)
    ensures NextToken(s, 2) == (Token(EOF, "", 1, 3), 2)
  {
    FirstLineCursor(s, 0);
    FirstLineCursor(s, 2);
    assert SkipWhitespace(s, 0) == 0;
    assert RunEnd(s, 1, IsDigit) == 1;
    assert RunEnd(s, 0, IsDigit) == 1;
    assert RunEnd(s, 2, IsDigit) == 2;
    assert NumberEnd(s, 0) == 2;
    assert s[0..2] == "5.";
  }

  /** A '.' with no digit after it still belongs to the number. */
  lemma TrailingDot(s: string)
    requires s == "5."
    ensures Tokenize(s, 0) == [Token(NUMBER, "5.", 1, 1), Token(EOF, "", 1, 3)]
  {
    TrailingDotTokens(s);
    TokenizeUnfold(s, 2, Token(EOF, "", 1, 3), 2);
    TokenizeUnfold(s, 0, Token(NUMBER, "5.", 1, 1), 2);
  }

  lemma DoubleEqualsTokens(s: string)
    requires s == "=="
    ensures NextToken(s, 0) == (Token(RELOP, "=", 1, 1), 1)
    ensures NextToken(s, 1) == (Token(RELOP, "=", 1, 2), 2)
    ensures NextToken(s, 2) == (Token(EOF, "", 1, 3), 2)
  {
    FirstLineCursor(s, 0);
    FirstLineCursor(s, 1);
    FirstLineCursor(s, 2);
    assert RelopScan(s, 0) == Scanned(RELOP, "=", 1);
    assert RunEnd(s, 1, IsWhiteSpace) == 1;
    assert RelopScan(s, 1) == Scanned(RELOP, "=", 2);
  }

  /** "==" is not an operator: it yields two one-character RELOP tokens. */
  lemma DoubleEquals(s: string)
    requires s == "=="
    ensures Tokenize(s, 0) == [Token(RELOP, "=", 1, 1), Token(RELOP, "=", 1, 2), Token(EOF, "", 1, 3)]
  {
    DoubleEqualsTokens(s);
    TokenizeUnfold(s, 2, Token(EOF, "", 1, 3), 2);
    TokenizeUnfold(s, 1, Token(RELOP, "=", 1, 2), 2);
    TokenizeUnfold(s, 0, Token(RELOP, "=", 1, 1), 1);
  }

  lemma UnknownThenIdentifierTokens(s: string)
    requires s == "@x"
    ensures NextToken(s, 0) == (Token(UNKNOWN, "@", 1, 1), 1)
    ensures NextToken(s, 1) == (Token(ID, "x", 1, 2), 2)
    ensures NextToken(s, 2) == (Token(EOF, "", 1, 3), 2)
  {
    FirstLineCursor(s, 0);
    FirstLineCursor(s, 1);
    FirstLineCursor(s, 2);
    assert RunEnd(s, 0, IsWhiteSpace) == 0;
    assert ScanFrom(s, 0) == Scanned(UNKNOWN, "@", 1);
    assert RunEnd(s, 1, IsWhiteSpace) == 1;
    assert WordEnd(s, 1) == 2 && s[1..2] == "x" && ToLower("x") == "x";
    assert ScanFrom(s, 1) == Scanned(ID, "x", 2);
  }

  /** An unrecognised character becomes UNKNOWN and scanning carries on. */
  lemma UnknownThenIdentifier(s: string)
    requires s == "@x"
    ensures Tokenize(s, 0) == [Token(UNKNOWN, "@", 1, 1), Token(ID, "x", 1, 2), Token(EOF, "", 1, 3)]
  {
    UnknownThenIdentifierTokens(s);
    TokenizeUnfold(s, 2, Token(EOF, "", 1, 3), 2);
    TokenizeUnfold(s, 1, Token(ID, "x", 1, 2), 2);
    TokenizeUnfold(s, 0, Token(UNKNOWN, "@", 1, 1), 1);
  }

  /** Keyword matching ignores case: "IF", "If" and "if" are all IF. */
  lemma KeywordCasing()
    ensures KeywordOrId("IF") == IF && KeywordOrId("If") == IF && KeywordOrId("if") == IF
  {
    assert ToLower("IF") == "if";
    assert ToLower("If") == "if";
    assert ToLower("if") == "if";
    assert Keywords["if"] == IF;
  }

  /** A word that only starts with a keyword is an identifier. */
  lemma KeywordPrefixIsIdentifier()
    ensures KeywordOrId("iff") == ID
  {
    assert ToLower("iff") == "iff";
    assert "iff" !in Keywords;
  }
}
