/** The scanner's behaviour as pure functions of the input text and a position.
    The class in module SimpleScanner is proved to follow these functions;
    the lemmas in module LexiconProperties state what they guarantee. */
module Lexicon {
  import opened Tokens
  import opened Chars

  // ---------------------------------------------------------------------------
  // Cursor: where line and column stand after consuming s[..p]

  /** Number of occurrences of c in s. */
  function Occurrences(s: string, c: char): nat {
    if s == [] then 0 else (if s[0] == c then 1 else 0) + Occurrences(s[1..], c)
  }

  lemma {:induction false} OccurrencesBounds(s: string, c: char)
    ensures Occurrences(s, c) <= |s|
    ensures Occurrences(s, c) == 0 <==> forall k :: 0 <= k < |s| ==> s[k] != c
  {
    if s != [] {
      OccurrencesBounds(s[1..], c);
      assert forall k :: 1 <= k < |s| ==> s[k] == s[1..][k - 1];
    }
  }

  /** The position where the line holding position p begins: just after the
      last newline of s[..p], or 0 when s[..p] holds no newline. */
  function LineStart(s: string, p: nat): (k: nat)
    requires p <= |s|
    ensures k <= p
    ensures k == 0 || s[k - 1] == '\n'
    ensures forall i :: k <= i < p ==> s[i] != '\n'
  {
    if p == 0 then 0 else if s[p - 1] == '\n' then p else LineStart(s, p - 1)
  }

  /** The 1-based line of position p: one more than the newlines before it. */
  function LineAt(s: string, p: nat): (line: int)
    requires p <= |s|
    ensures 1 <= line <= p + 1
    ensures line == 1 <==> forall k :: 0 <= k < p ==> s[k] != '\n'
  {
    OccurrencesBounds(s[..p], '\n');
    1 + Occurrences(s[..p], '\n')
  }

  /** The 1-based column of position p: one more than the characters between
      the start of its line and p. */
  function ColumnAt(s: string, p: nat): (column: int)
    requires p <= |s|
    ensures 1 <= column <= p + 1
    ensures column == p + 1 <==> forall k :: 0 <= k < p ==> s[k] != '\n'
  {
    1 + p - LineStart(s, p)
  }

  lemma {:induction false} OccurrencesAppend(a: string, b: string, c: char)
    ensures Occurrences(a + b, c) == Occurrences(a, c) + Occurrences(b, c)
  {
    if a == [] {
      assert a + b == b;
    } else {
      assert (a + b)[1..] == a[1..] + b;
      OccurrencesAppend(a[1..], b, c);
    }
  }

  /** Consuming one character moves the cursor as the scanner's Advance does:
      a newline starts the next line at column 1, anything else moves one
      column to the right. */
  lemma CursorStep(s: string, p: nat)
    requires p < |s|
    ensures s[p] == '\n' ==> LineAt(s, p + 1) == LineAt(s, p) + 1 && ColumnAt(s, p + 1) == 1
    ensures s[p] != '\n' ==> LineAt(s, p + 1) == LineAt(s, p) && ColumnAt(s, p + 1) == ColumnAt(s, p) + 1
  {
    assert s[..p + 1] == s[..p] + [s[p]];
    OccurrencesAppend(s[..p], [s[p]], '\n');
  }

  // ---------------------------------------------------------------------------
  // Reading characters

  /** The character under the cursor, or NUL past the end of the input. */
  function CharAt(s: string, p: nat): (c: char)
    ensures p < |s| ==> c == s[p]
    ensures p >= |s| ==> c == '\0'
  {
    if p < |s| then s[p] else '\0'
  }

  /** The end of the longest run of characters satisfying `accept` that starts at i. */
  function RunEnd(s: string, i: nat, accept: char -> bool): (r: nat)
    requires i <= |s|
    ensures i <= r <= |s|
    ensures forall k :: i <= k < r ==> accept(s[k])
    ensures r == |s| || !accept(s[r])
    decreases |s| - i
  {
    if i < |s| && accept(s[i]) then RunEnd(s, i + 1, accept) else i
  }

  /** Where whitespace skipping from p stops. */
  function SkipWhitespace(s: string, p: nat): (r: nat)
    requires p <= |s|
  {
    RunEnd(s, p, IsWhiteSpace)
  }

  // ---------------------------------------------------------------------------
  // Sub-scanners: what each consumes from position i

  /** What a sub-scanner yields: a kind, the text it accumulated and where it stopped. */
  datatype Scanned = Scanned(kind: TokenType, text: string, end: nat)

  /** Integer digits, then optionally a '.' followed by fraction digits. */
  function NumberEnd(s: string, i: nat): (e: nat)
    requires i <= |s|
    ensures i <= e <= |s|
    ensures i < |s| && IsDigit(s[i]) ==> i < e
  {
    var j := RunEnd(s, i, IsDigit);
    if j < |s| && s[j] == '.' then RunEnd(s, j + 1, IsDigit) else j
  }

  /** One leading letter (when present), then letters, digits and underscores. */
  function WordEnd(s: string, i: nat): (e: nat)
    requires i <= |s|
    ensures i <= e <= |s|
    ensures i < |s| && IsLetter(s[i]) ==> i < e
  {
    if i < |s| && IsLetter(s[i]) then RunEnd(s, i + 1, IsIdentifierPart)
    else RunEnd(s, i, IsIdentifierPart)
  }

  /** The reserved words, keyed by their lower-case spelling. */
  const Keywords: map<string, TokenType> := map[
    "if" := IF, "then" := THEN, "else" := ELSE,
    "for" := FOR, "while" := WHILE, "do" := DO,
    "to" := TO, "downto" := DOWNTO, "repeat" := REPEAT, "until" := UNTIL,
    "begin" := BEGIN, "end" := END, "var" := VAR, "const" := CONST,
    "procedure" := PROCEDURE, "function" := FUNCTION
  ]

  /** The kind of a scanned word: its keyword kind when its lower-cased text is
      reserved, ID otherwise. */
  function KeywordOrId(word: string): (k: TokenType)
    ensures k == ID || k.IsKeyword()
  {
    var lower := ToLower(word);
    if lower in Keywords then Keywords[lower] else ID
  }

  /** The two-character relational operators. */
  predicate IsTwoCharRelop(first: char, second: char) {
    (first == '<' && (second == '=' || second == '>')) || (first == '>' && second == '=')
  }

  predicate IsRelopStart(c: char) {
    c == '<' || c == '>' || c == '='
  }

  /** The relational-operator / colon sub-scanner, including its fall-back
      branch for a first character that is none of ':', '<', '>' and '='. */
  function RelopScan(s: string, i: nat): (r: Scanned)
    requires i <= |s|
    ensures i <= r.end <= |s|
    ensures i < |s| ==> i < r.end && r.text == s[i..r.end]
    ensures r.kind in {RELOP, ASSIGN, COLON, UNKNOWN}
  {
    var first := CharAt(s, i);
    var j := if i < |s| then i + 1 else i;
    if j < |s| && IsTwoCharRelop(first, s[j]) then Scanned(RELOP, [first, s[j]], j + 1)
    else if j < |s| && first == ':' && s[j] == '=' then Scanned(ASSIGN, [first, s[j]], j + 1)
    else if IsRelopStart(first) then Scanned(RELOP, [first], j)
    else if first == ':' then Scanned(COLON, ":", j)
    else Scanned(UNKNOWN, [first], j)
  }

  /** The kind of a one-character token. */
  function SingleCharKind(c: char): TokenType {
    match c
    case '+' => PLUS
    case '-' => MINUS
    case '*' => MULTIPLY
    case '/' => DIVIDE
    case '(' => LPAREN
    case ')' => RPAREN
    case ';' => SEMICOLON
    case ',' => COMMA
    case '.' => DOT
    case _ => UNKNOWN
  }

  // ---------------------------------------------------------------------------
  // Whole tokens

  /** The sub-scanner the first character selects, run from i. */
  function ScanFrom(s: string, i: nat): (r: Scanned)
    requires i < |s|
    ensures i < r.end <= |s|
    ensures r.text == s[i..r.end]
    ensures r.kind != EOF
  {
    var c := s[i];
    if IsLetter(c) then
      var e := WordEnd(s, i); Scanned(KeywordOrId(s[i..e]), s[i..e], e)
    else if IsDigit(c) then
      var e := NumberEnd(s, i); Scanned(NUMBER, s[i..e], e)
    else if c == ':' || IsRelopStart(c) then
      RelopScan(s, i)
    else
      Scanned(SingleCharKind(c), [c], i + 1)
  }

  /** The next token from position p and the position after it. */
  function NextToken(s: string, p: nat): (r: (Token, nat))
    requires p <= |s|
    ensures p <= r.1 <= |s|
    ensures r.0.kind == EOF <==> SkipWhitespace(s, p) == |s|
    ensures r.0.kind == EOF ==> r.1 == |s|
    ensures r.0.kind != EOF ==> p < r.1
  {
    var i := SkipWhitespace(s, p);
    if i == |s| then
      (Token(EOF, "", LineAt(s, i), ColumnAt(s, i)), i)
    else
      var sc := ScanFrom(s, i);
      (Token(sc.kind, sc.text, LineAt(s, i), ColumnAt(s, i)), sc.end)
  }

  /** All tokens from position p up to and including the EOF token. */
  function Tokenize(s: string, p: nat): (ts: seq<Token>)
    requires p <= |s|
    ensures |ts| > 0 && ts[|ts| - 1].kind == EOF
    ensures forall k :: 0 <= k < |ts| - 1 ==> ts[k].kind != EOF
    decreases |s| - p
  {
    var (t, q) := NextToken(s, p);
    if t.kind == EOF then [t] else [t] + Tokenize(s, q)
  }

  /** Appending the next token to a prefix of Tokenize(s, start) keeps it a
      prefix, and completes it when that token is EOF. */
  lemma TokenizeAccumulate(s: string, start: nat, p: nat, done: seq<Token>)
    requires start <= p <= |s|
    requires done + Tokenize(s, p) == Tokenize(s, start)
    ensures var (t, q) := NextToken(s, p);
            if t.kind == EOF then done + [t] == Tokenize(s, start)
            else (done + [t]) + Tokenize(s, q) == Tokenize(s, start)
  {
    var (t, q) := NextToken(s, p);
    if t.kind != EOF {
      assert Tokenize(s, p) == [t] + Tokenize(s, q);
      assert done + ([t] + Tokenize(s, q)) == (done + [t]) + Tokenize(s, q);
    }
  }

  /** Tokenize, read off one known step at a time. */
  lemma TokenizeUnfold(s: string, p: nat, t: Token, q: nat)
    requires p <= |s| && NextToken(s, p) == (t, q)
    ensures t.kind == EOF ==> Tokenize(s, p) == [t]
    ensures t.kind != EOF ==> Tokenize(s, p) == [t] + Tokenize(s, q)
  {
  }
}
