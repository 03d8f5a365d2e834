/** What the scanner guarantees, stated about the functions of module Lexicon
    that its methods are proved to follow. */
module LexiconProperties {
  import opened Tokens
  import opened Chars
  import opened Lexicon

  // ---------------------------------------------------------------------------
  // Reference definitions

  predicate AllDigits(x: string) {
    forall k :: 0 <= k < |x| ==> IsDigit(x[k])
  }

  /** The number syntax digit+ ('.' digit*)? */
  predicate IsNumberLexeme(x: string) {
    (|x| > 0 && AllDigits(x)) ||
    (exists d :: 0 < d < |x| && x[d] == '.' && AllDigits(x[..d]) && AllDigits(x[d + 1..]))
  }

  /** The characters of s that are not whitespace, in order. */
  function RemoveWhitespace(s: string): (r: string)
    ensures forall k :: 0 <= k < |r| ==> !IsWhiteSpace(r[k])
  {
    if s == [] then [] else (if IsWhiteSpace(s[0]) then [] else [s[0]]) + RemoveWhitespace(s[1..])
  }

  /** The lexemes of ts, concatenated in order. */
  function Lexemes(ts: seq<Token>): string {
    if ts == [] then [] else ts[0].lexeme + Lexemes(ts[1..])
  }

  // ---------------------------------------------------------------------------
  // End of input

  /** EOF is produced exactly when nothing but whitespace is left; it carries
      an empty lexeme and the cursor at the end of the input. */
  lemma EofExactlyAtEnd(s: string, p: nat)
    requires p <= |s|
    ensures var (t, q) := NextToken(s, p);
            (t.kind == EOF <==> forall k :: p <= k < |s| ==> IsWhiteSpace(s[k])) &&
            (t.kind == EOF ==> t == Token(EOF, "", LineAt(s, |s|), ColumnAt(s, |s|)) && q == |s|)
  {
    var i := SkipWhitespace(s, p);
    if i < |s| {
      assert !IsWhiteSpace(s[i]);
    }
  }

  /** Asking again after EOF changes nothing and yields the same EOF token. */
  lemma EofIdempotent(s: string, p: nat)
    requires p <= |s|
    requires NextToken(s, p).0.kind == EOF
    ensures NextToken(s, NextToken(s, p).1) == NextToken(s, p)
  {
    EofExactlyAtEnd(s, p);
    EofExactlyAtEnd(s, |s|);
  }

  // ---------------------------------------------------------------------------
  // Every other token is the slice of input it consumed

  /** A token other than EOF starts at the first non-whitespace character at or
      after p, carries that position's line and column, and its lexeme is
      exactly the non-empty, whitespace-free text the scanner consumed. */
  lemma TokenIsConsumedSlice(s: string, p: nat)
    requires p <= |s|
    requires NextToken(s, p).0.kind != EOF
    ensures var (t, q) := NextToken(s, p);
            var i := SkipWhitespace(s, p);
            p <= i < q <= |s| &&
            (forall k :: p <= k < i ==> IsWhiteSpace(s[k])) &&
            t.lexeme == s[i..q] && |t.lexeme| > 0 &&
            (forall k :: i <= k < q ==> !IsWhiteSpace(s[k])) &&
            t.line == LineAt(s, i) && t.column == ColumnAt(s, i)
  {
    var i := SkipWhitespace(s, p);
    var c := s[i];
    var e := ScanFrom(s, i).end;
    if IsDigit(c) {
      var j := RunEnd(s, i, IsDigit);
      forall k | i <= k < e ensures !IsWhiteSpace(s[k]) {
        if k < j {
          assert IsDigit(s[k]);
        } else if k > j {
          assert IsDigit(s[k]);
        }
      }
    } else if c == ':' || IsRelopStart(c) {
      forall k | i <= k < e ensures !IsWhiteSpace(s[k]) {
        if k > i {
          assert k == i + 1 && (s[k] == '=' || s[k] == '>');
        }
      }
    }
  }

  // ---------------------------------------------------------------------------
  // The four token classes

  /** A letter starts a maximal run of letters, digits and underscores; the
      run keeps its casing and is classified by the keyword table. */
  lemma IdentifierToken(s: string, p: nat)
    requires p <= |s|
    requires SkipWhitespace(s, p) < |s| && IsLetter(s[SkipWhitespace(s, p)])
    ensures var (t, q) := NextToken(s, p);
            var i := SkipWhitespace(s, p);
            i < q && t.lexeme == s[i..q] &&
            IsLetter(t.lexeme[0]) &&
            (forall k :: 0 <= k < |t.lexeme| ==> IsIdentifierPart(t.lexeme[k])) &&
            (q == |s| || !IsIdentifierPart(s[q])) &&
            (t.kind != ID <==> ToLower(t.lexeme) in Keywords) &&
            (t.kind != ID ==> t.kind == Keywords[ToLower(t.lexeme)])
  {
    var i := SkipWhitespace(s, p);
    var q := NextToken(s, p).1;
    assert forall k :: i < k < q ==> IsIdentifierPart(s[k]);
  }

  /** A digit starts a number: digits, then optionally '.' and more digits,
      each run as long as possible; a '.' with no digit after it still
      belongs to the number. */
  lemma NumberToken(s: string, p: nat)
    requires p <= |s|
    requires SkipWhitespace(s, p) < |s| && IsDigit(s[SkipWhitespace(s, p)])
    ensures var (t, q) := NextToken(s, p);
            var i := SkipWhitespace(s, p);
            t.kind == NUMBER && t.lexeme == s[i..q] &&
            IsNumberLexeme(t.lexeme) &&
            (q < |s| ==> !IsDigit(s[q]) && ('.' !in t.lexeme ==> s[q] != '.'))
  {
    var i := SkipWhitespace(s, p);
    var (t, q) := NextToken(s, p);
    var j := RunEnd(s, i, IsDigit);
    var x := t.lexeme;
    if j < |s| && s[j] == '.' {
      var d := j - i;
      assert x[..d] == s[i..j];
      assert x[d + 1..] == s[j + 1..q];
      assert x[d] == '.';
    } else {
      assert x == s[i..j];
      assert AllDigits(x);
      if q < |s| {
        assert '.' !in x;
      }
    }
  }

  /** '<', '>' and '=' give a relational operator; "<=", ">=" and "<>" are
      taken whole, anything else leaves the first character alone. */
  lemma RelopToken(s: string, p: nat)
    requires p <= |s|
    requires SkipWhitespace(s, p) < |s| && IsRelopStart(s[SkipWhitespace(s, p)])
    ensures var (t, q) := NextToken(s, p);
            var i := SkipWhitespace(s, p);
            var two := i + 1 < |s| && s[i..i + 2] in {"<=", ">=", "<>"};
            t.kind == RELOP &&
            (two ==> q == i + 2 && t.lexeme == s[i..i + 2]) &&
            (!two ==> q == i + 1 && t.lexeme == [s[i]])
  {
    var i := SkipWhitespace(s, p);
    if i + 1 < |s| {
      assert s[i..i + 2] == [s[i], s[i + 1]];
    }
  }

  /** ':' gives ASSIGN ":=" when '=' follows, otherwise COLON ":". */
  lemma ColonToken(s: string, p: nat)
    requires p <= |s|
    requires SkipWhitespace(s, p) < |s| && s[SkipWhitespace(s, p)] == ':'
    ensures var (t, q) := NextToken(s, p);
            var i := SkipWhitespace(s, p);
            if i + 1 < |s| && s[i + 1] == '=' then t.kind == ASSIGN && t.lexeme == ":=" && q == i + 2
            else t.kind == COLON && t.lexeme == ":" && q == i + 1
  {
  }

  /** Any other character is a token of its own: one of the nine punctuation
      and operator symbols, or UNKNOWN. */
  lemma SingleCharacterToken(s: string, p: nat)
    requires p <= |s|
    requires var i := SkipWhitespace(s, p);
             i < |s| && !IsLetter(s[i]) && !IsDigit(s[i]) && s[i] != ':' && !IsRelopStart(s[i])
    ensures var (t, q) := NextToken(s, p);
            var i := SkipWhitespace(s, p);
            q == i + 1 && t.lexeme == [s[i]] &&
            (t.kind == UNKNOWN <==> s[i] !in "+-*/();,.") &&
            (s[i] == '+' ==> t.kind == PLUS) && (s[i] == '-' ==> t.kind == MINUS) &&
            (s[i] == '*' ==> t.kind == MULTIPLY) && (s[i] == '/' ==> t.kind == DIVIDE) &&
            (s[i] == '(' ==> t.kind == LPAREN) && (s[i] == ')' ==> t.kind == RPAREN) &&
            (s[i] == ';' ==> t.kind == SEMICOLON) && (s[i] == ',' ==> t.kind == COMMA) &&
            (s[i] == '.' ==> t.kind == DOT)
  {
  }

  /** UNKNOWN is produced exactly for a character that starts no token class;
      in particular the relational-operator scanner never yields it. */
  lemma UnknownExactly(s: string, p: nat)
    requires p <= |s|
    ensures var (t, q) := NextToken(s, p);
            var i := SkipWhitespace(s, p);
            t.kind == UNKNOWN <==>
              (i < |s| && !IsLetter(s[i]) && !IsDigit(s[i]) && s[i] != ':' &&
               !IsRelopStart(s[i]) && s[i] !in "+-*/();,.")
  {
    var i := SkipWhitespace(s, p);
    if i < |s| {
      var c := s[i];
      if IsLetter(c) {
        assert KeywordOrId(s[i..WordEnd(s, i)]) != UNKNOWN;
      } else if c == ':' || IsRelopStart(c) {
        RelopNeverUnknown(s, i);
      } else if !IsDigit(c) {
        SingleCharacterToken(s, p);
      }
    }
  }

  /** The relational-operator scanner yields UNKNOWN only when started on a
      character other than ':', '<', '>' and '='. */
  lemma RelopNeverUnknown(s: string, i: nat)
    requires i < |s|
    ensures RelopScan(s, i).kind == UNKNOWN <==> s[i] != ':' && !IsRelopStart(s[i])
  {
  }

  // ---------------------------------------------------------------------------
  // Keyword table

  /** Keyword matching ignores case: words that agree after lower-casing get
      the same kind, and a word is a keyword exactly when its lower-cased form
      is in the table. */
  lemma KeywordsIgnoreCase(w: string, u: string)
    requires ToLower(w) == ToLower(u)
    ensures KeywordOrId(w) == KeywordOrId(u)
    ensures KeywordOrId(w).IsKeyword() <==> ToLower(w) in Keywords
  {
  }

  /** Lower-casing leaves a word without upper-case letters unchanged. */
  lemma LowerCaseFixed(w: string)
    requires forall k :: 0 <= k < |w| ==> !('A' <= w[k] <= 'Z')
    ensures ToLower(w) == w
  {
  }

  /** Every key of the table is its own lower-case spelling, so the lower-cased
      form of a word finds it. */
  lemma KeywordTableLowerCase()
    ensures forall w :: w in Keywords ==> ToLower(w) == w
  {
    forall w | w in Keywords
      ensures ToLower(w) == w
    {
      LowerCaseFixed(w);
    }
  }

  /** The table's kinds are exactly the keyword categories of TokenType. */
  lemma KeywordTableCoversKeywordKinds(k: TokenType)
    ensures k.IsKeyword() <==> k in Keywords.Values
  {
    if k.IsKeyword() {
      var w := match k
        case IF => "if" case THEN => "then" case ELSE => "else" case FOR => "for"
        case WHILE => "while" case DO => "do" case TO => "to" case DOWNTO => "downto"
        case REPEAT => "repeat" case UNTIL => "until" case BEGIN => "begin" case END => "end"
        case VAR => "var" case CONST => "const" case PROCEDURE => "procedure" case _ => "function";
      assert w in Keywords && Keywords[w] == k;
    }
  }

  /** The table is one-to-one: each keyword kind has exactly one spelling. */
  lemma KeywordsInjective(a: string, b: string)
    requires a in Keywords && b in Keywords && Keywords[a] == Keywords[b]
    ensures a == b
  {
  }

  // ---------------------------------------------------------------------------
  // Whole-input scan

  lemma {:induction false} RemoveWhitespaceAppend(a: string, b: string)
    ensures RemoveWhitespace(a + b) == RemoveWhitespace(a) + RemoveWhitespace(b)
  {
    if a == [] {
      assert a + b == b;
    } else {
      assert (a + b)[1..] == a[1..] + b;
      RemoveWhitespaceAppend(a[1..], b);
    }
  }

  lemma {:induction false} RemoveWhitespaceOfBlank(a: string)
    requires forall k :: 0 <= k < |a| ==> IsWhiteSpace(a[k])
    ensures RemoveWhitespace(a) == []
  {
    if a != [] {
      RemoveWhitespaceOfBlank(a[1..]);
    }
  }

  lemma {:induction false} RemoveWhitespaceOfSolid(a: string)
    requires forall k :: 0 <= k < |a| ==> !IsWhiteSpace(a[k])
    ensures RemoveWhitespace(a) == a
  {
    if a != [] {
      RemoveWhitespaceOfSolid(a[1..]);
      assert a == [a[0]] + a[1..];
    }
  }

  /** Scanning loses and duplicates nothing: the lexemes of all tokens, in
      order, spell the remaining input with its whitespace removed. */
  lemma {:induction false} TokenizeSpellsInput(s: string, p: nat)
    requires p <= |s|
    ensures Lexemes(Tokenize(s, p)) == RemoveWhitespace(s[p..])
    decreases |s| - p
  {
    var (t, q) := NextToken(s, p);
    var i := SkipWhitespace(s, p);
    RemoveWhitespaceOfBlank(s[p..i]);
    if t.kind == EOF {
      assert s[p..] == s[p..i];
      assert Tokenize(s, p) == [t];
      assert Lexemes([t]) == t.lexeme + Lexemes([]);
    } else {
      TokenIsConsumedSlice(s, p);
      assert s[p..] == s[p..i] + (s[i..q] + s[q..]);
      RemoveWhitespaceAppend(s[p..i], s[i..q] + s[q..]);
      RemoveWhitespaceAppend(s[i..q], s[q..]);
      RemoveWhitespaceOfSolid(s[i..q]);
      TokenizeSpellsInput(s, q);
      var rest := Tokenize(s, q);
      assert Tokenize(s, p) == [t] + rest;
      assert ([t] + rest)[1..] == rest;
    }
  }
}
