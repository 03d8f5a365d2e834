# Simple Pascal-like scanner, modelled and verified in Dafny

This project models the lexical scanner of a small Pascal-like language. The
scanner turns an in-memory source string into tokens. Each token has a kind
(keyword, ID, NUMBER, RELOP, ASSIGN, arithmetic operator, punctuation, EOF or
UNKNOWN), a lexeme, a 1-based line and a 1-based column.

The model has two layers:

- `Lexicon` (lexicon.dfy) describes the scanner as pure functions of the input
  text and a position. `NextToken(s, p)` gives the next token and the position
  after it. `Tokenize(s, p)` gives every token up to and including EOF.
  `LineAt`/`ColumnAt` give the cursor that belongs to a position.
- `SimpleScanner.Scanner` (scanner.dfy) is the scanner object. It has the input
  text and the mutable cursor fields `position`, `line` and `column`, and only
  `Advance` changes them. Its invariant `Valid()` says that `line` and `column`
  always equal `LineAt`/`ColumnAt` of `position`. Each method's `ensures` ties
  its result and new cursor to the matching `Lexicon` function. For example,
  `GetNextToken` ends with `(t, position) == NextToken(input, old(position))`
  and `ScanAll` returns `Tokenize(input, old(position))`.

`LexiconProperties` (lexicon_properties.dfy) proves what the functions
guarantee: maximal munch, two-character operators before one-character ones,
each lexeme being exactly the consumed slice, where EOF appears, and that the
lexemes of a full scan spell the input without its whitespace. `Samples`
(samples.dfy) works through concrete inputs: the driver's `"x := 5"`, a
newline, `"5."`, `"=="`, `"@x"` and keyword casing. `Tokens` (tokens.dfy)
holds the 32 token kinds and the token value. `Chars` (chars.dfy) holds the
character classes.

Assumptions: the platform's `char.IsWhiteSpace`, `char.IsLetter`,
`char.IsDigit`, `char.IsLetterOrDigit` and `string.ToLower` are fixed to their
ASCII meaning. Whitespace is space, tab, line feed, vertical tab, form feed and
carriage return. Letters are `a`-`z` and `A`-`Z`. Digits are `0`-`9`.
Lower-casing maps `A`-`Z` to `a`-`z`.

## Model

| member | source | states |
|---|---|---|
| `Lexicon.LineStart` | SimpleScanner/Scanner.cs:55-70 | The current line begins just after the last newline before the position, or at 0 when there is none. Column is measured from there. |
| `Lexicon.LineAt` | SimpleScanner/Scanner.cs:59-62 | The line of a position is 1 plus the newlines before it. It is at least 1 and at most the position plus 1, and it is 1 exactly when no newline comes before the position. |
| `Lexicon.ColumnAt` | SimpleScanner/Scanner.cs:62-66 | The column of a position is 1 plus the characters since the last newline before it. It lies between 1 and the position plus 1, and equals the position plus 1 exactly when no newline comes before the position. |
| `Lexicon.CursorStep` | SimpleScanner/Scanner.cs:59-68 | Consuming a newline increments the line and resets the column to 1. Consuming any other character keeps the line and increments the column. |
| `Lexicon.CharAt` | SimpleScanner/Scanner.cs:48-53 | The character under the cursor, or NUL at or past the end of input. |
| `Lexicon.RunEnd` | SimpleScanner/Scanner.cs:74-77 | A `while` loop over a character class stops at the end of the longest run of accepted characters: every skipped character is accepted, and the character it stops on is not accepted or is the end of input. |
| `Lexicon.NumberEnd` | SimpleScanner/Scanner.cs:84-103 | The number scanner stays within the input and consumes at least one character when it starts on a digit. |
| `Lexicon.WordEnd` | SimpleScanner/Scanner.cs:112-123 | The identifier scanner stays within the input and consumes at least one character when it starts on a letter. |
| `Lexicon.KeywordOrId` | SimpleScanner/Scanner.cs:125-130 | A scanned word is either ID or one of the sixteen keyword kinds, never another kind. |
| `Lexicon.RelopScan` | SimpleScanner/Scanner.cs:133-163 | The operator scanner yields only RELOP, ASSIGN, COLON or UNKNOWN. Inside the input it consumes at least one character, and its text is exactly the slice consumed. |
| `Lexicon.ScanFrom` | SimpleScanner/Scanner.cs:198-214 | The dispatch on the first character always consumes at least one character, yields a lexeme equal to the consumed slice, and never yields EOF. |
| `Lexicon.NextToken` | SimpleScanner/Scanner.cs:191-215 | The position never goes back. The result is EOF exactly when only whitespace remains, and then the position is the end of input. Any other token strictly advances the position. |
| `Lexicon.Tokenize` | SimpleScanner/Scanner.cs:217-229 | A full scan is non-empty, its last token is EOF, and no earlier token is EOF. |
| `Lexicon.TokenizeAccumulate` | SimpleScanner/Scanner.cs:222-226 | Each round of the do-while loop keeps the list a prefix of the full scan, and the EOF round completes it. |
| `SimpleScanner.Scanner.constructor` | SimpleScanner/Scanner.cs:15-20 | A new scanner holds the input at position 0, line 1, column 1, and satisfies the cursor invariant. |
| `SimpleScanner.Scanner.CurrentChar` | SimpleScanner/Scanner.cs:48-53 | Returns the input character at the cursor, or NUL at end of input. |
| `SimpleScanner.Scanner.Advance` | SimpleScanner/Scanner.cs:55-70 | At end of input nothing changes. Otherwise the position moves by one, and line/column move as for a newline or other character. The cursor invariant is preserved. |
| `SimpleScanner.Scanner.SkipWhitespace` | SimpleScanner/Scanner.cs:72-78 | Stops at the first non-whitespace position at or after the old one, or at end of input, with line/column matching. |
| `SimpleScanner.Scanner.ConsumeRun` | SimpleScanner/Scanner.cs:85-89 | The append-and-advance loops (also lines 98-102 and 118-123) stop at the end of the maximal run. The accumulated text is exactly the input slice consumed. |
| `SimpleScanner.Scanner.ScanNumber` | SimpleScanner/Scanner.cs:80-106 | Consumes up to `NumberEnd` and returns NUMBER with the consumed slice as its lexeme and the given start line/column. |
| `SimpleScanner.Scanner.ScanIdentifierOrKeyword` | SimpleScanner/Scanner.cs:108-131 | Consumes up to `WordEnd` and returns the consumed slice with its keyword-or-ID kind. |
| `SimpleScanner.Scanner.ScanRelop` | SimpleScanner/Scanner.cs:133-163 | Consumes and returns exactly what `RelopScan` describes, including the NUL/UNKNOWN fall-back. |
| `SimpleScanner.Scanner.ScanSingleCharacter` | SimpleScanner/Scanner.cs:170-189 | Consumes one character and returns its punctuation kind (UNKNOWN if it has none) with that character as lexeme. |
| `SimpleScanner.Scanner.GetNextToken` | SimpleScanner/Scanner.cs:191-215 | Returns the token `NextToken` gives for the old position and moves the cursor to the position after it. The cursor invariant is preserved. |
| `SimpleScanner.Scanner.ScanAll` | SimpleScanner/Scanner.cs:217-229 | Terminates and returns the full scan `Tokenize` from the old position, leaving the cursor at end of input. |
| `LexiconProperties.EofExactlyAtEnd` | SimpleScanner/Scanner.cs:193-196 | EOF is returned exactly when nothing but whitespace remains. It then has an empty lexeme and the line/column of the end of input, and the position is the end of input. |
| `LexiconProperties.EofIdempotent` | SimpleScanner/Scanner.cs:193-196 | After EOF, asking again returns the same EOF token and does not move the position. |
| `LexiconProperties.TokenIsConsumedSlice` | SimpleScanner/Scanner.cs:198-214 | A non-EOF token starts at the first non-whitespace character and carries that position's line/column. Only whitespace is skipped before it. Its lexeme is exactly the non-empty, whitespace-free slice consumed. |
| `LexiconProperties.IdentifierToken` | SimpleScanner/Scanner.cs:108-131 | A letter starts a word: one letter, then letters/digits/underscores, maximal. The lexeme keeps its casing. The kind is a keyword exactly when the lower-cased lexeme is in the table (that keyword's kind), otherwise ID. |
| `LexiconProperties.NumberToken` | SimpleScanner/Scanner.cs:80-106 | A digit starts a NUMBER whose lexeme matches `digit+ ('.' digit*)?`. Both digit runs are maximal, and a dot not in the lexeme cannot follow it. |
| `LexiconProperties.RelopToken` | SimpleScanner/Scanner.cs:143-157 | `<`, `>`, `=` give RELOP. The whole two-character lexeme is taken exactly when it is `<=`, `>=` or `<>`; otherwise only the first character. |
| `LexiconProperties.ColonToken` | SimpleScanner/Scanner.cs:150-160 | `:` followed by `=` gives ASSIGN `":="` (two characters consumed); otherwise COLON `":"` (one character). |
| `LexiconProperties.SingleCharacterToken` | SimpleScanner/Scanner.cs:170-189 | Any other character is consumed alone as its own lexeme. `+ - * / ( ) ; , .` get PLUS … DOT; every other character gets UNKNOWN. |
| `LexiconProperties.UnknownExactly` | SimpleScanner/Scanner.cs:202-214 | UNKNOWN is produced exactly for a character that starts no token class (letter, digit, `:`, relational start or listed punctuation). |
| `LexiconProperties.RelopNeverUnknown` | SimpleScanner/Scanner.cs:156-162 | The operator scanner's UNKNOWN branch is reached only from a character other than `:`, `<`, `>`, `=`, so it is unreachable from `GetNextToken`. |
| `LexiconProperties.KeywordsIgnoreCase` | SimpleScanner/Scanner.cs:125-130 | Words equal after lower-casing get the same kind, and a word is a keyword exactly when its lower-cased form is in the table. |
| `LexiconProperties.KeywordTableLowerCase` | SimpleScanner/Scanner.cs:22-45 | Every key of the keyword table is already lower-case, so looking up a lower-cased word can find it. |
| `LexiconProperties.KeywordTableCoversKeywordKinds` | SimpleScanner/TokenType.cs:7-11 | The kinds in the keyword table are exactly the sixteen keyword categories of the token-kind enumeration. |
| `LexiconProperties.KeywordsInjective` | SimpleScanner/Scanner.cs:22-45 | Each keyword kind has exactly one spelling in the table. |
| `LexiconProperties.TokenizeSpellsInput` | SimpleScanner/Scanner.cs:217-229 | Concatenating the lexemes of a full scan, in order, gives the remaining input with its whitespace removed. No character is lost or duplicated. |
| `Samples.SimpleAssignment` | SimpleScanner/Program.cs:13 | `"x := 5"` scans to ID `x`, ASSIGN `:=`, NUMBER `5`, EOF, at columns 1, 3, 6, 7. |
| `Samples.LinesAndColumns` | SimpleScanner/Scanner.cs:59-63 | In `"x\ny"`, `y` is at line 2, column 1. |
| `Samples.TrailingDot` | SimpleScanner/Scanner.cs:92-95 | `"5."` is one NUMBER `"5."`. |
| `Samples.DoubleEquals` | SimpleScanner/Scanner.cs:143-157 | `"=="` is two RELOP `"="` tokens. |
| `Samples.UnknownThenIdentifier` | SimpleScanner/Scanner.cs:170-188 | `"@x"` gives UNKNOWN `"@"`, and scanning continues with ID `"x"`. |
| `Samples.KeywordCasing` | SimpleScanner/Scanner.cs:127-128 | `"IF"`, `"If"` and `"if"` all give IF. |
| `Samples.KeywordPrefixIsIdentifier` | SimpleScanner/Scanner.cs:127-130 | `"iff"` is an ID, not the keyword `if`. |

## Left out

- The demonstration driver (SimpleScanner/Program.cs) only prints. Its first sample input is a lemma in `Samples`.
- Unicode: the platform's character predicates also accept non-ASCII letters, digits and spaces (for example U+00A0 and U+0085 as whitespace). Here they are ASCII only.
- Characters: a character here is a Unicode scalar value, but the platform string holds UTF-16 code units. In the source, a character outside the Basic Multilingual Plane is two code units, so it gives two UNKNOWN tokens over two columns; here it gives one UNKNOWN token in one column. A lone surrogate, which the source accepts, cannot be represented here.
- Culture-sensitive lower-casing (for example, a Turkish culture maps `I` to a dotless `i`, so `IF` would not be a keyword). Lower-casing here is ASCII.
- The keyword table is a read-only dictionary built for each scanner instance. Here it is one constant map with the same sixteen entries.
- The string builder and the token list are modelled as `string` and `seq<Token>` values that grow by appending.
- 32-bit `int` for position, line and column: the model uses unbounded integers. Platform strings are far too short for these counters to overflow.
- Token's text formatting (`Token.ToString`), used only for display. The `Token` class source is not part of this model; the token is a value with the four fields the scanner passes to its constructor.
- `IsRelopStart` and the kind switch of `ScanSingleCharacter` are plain helper functions (`Lexicon.IsRelopStart`, `Lexicon.SingleCharKind`). Their behaviour is stated by `RelopToken`, `SingleCharacterToken` and `UnknownExactly`.
