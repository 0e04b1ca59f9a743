# toy-compiler front end: tokenizer and parser

This project models the front end of the toy-compiler, a compiler for a small
C-like language. It covers:

- the character cursor `FileStream`, which tracks line and column;
- the hand-written `Tokenizer`, whose skip loop filters whitespace, comments
  and invalid tokens;
- the part of the recursive-descent `Parser` that is implemented:
  `match_token`, the translation-unit loop with its skip-one-token recovery,
  statement dispatch, compound statements and expression statements; the
  remaining productions are stubs that return null;
- the `Token` record and the syntax tree those classes produce.

The classes whose fields the C++ updates in place are Dafny classes with the
same fields. Each of their methods is proved against a pure specification:

- `Source.FileStream` works over the file contents and a read index. Its line
  and column are proved equal to `LineColumnAt`.
- `Lexer.Tokenizer` owns one `FileStream` and one `Tokens.Token`. Its
  `next()` is proved to produce what `LexSpec.NextToken` says. The whole
  sequence of tokens that `current()` will show is `LexSpec.TokenStream`.
- `Parsing.Parser` owns one tokenizer and a list of printed diagnostics. Each
  production is proved to do to the upcoming tokens what the function of the
  same name in `ParseSpec` does.

Modules and files:

- `wrappers.dfy`: `Option`, which stands for a nullable `std::unique_ptr`.
- `token.dfy`: module `Tokens`, covering `TokenKind`, `Position` and the
  `Token` class.
- `file_stream.dfy`: module `Source`, covering `FileStream`.
- `ast.dfy`: module `Ast`. Each C++ class family is one datatype, and a
  subclass is a variant of its base.
- `lex_spec.dfy`:
  - module `LexSpec`: the scanner as functions of the text and a cursor
    index;
  - module `LexFacts`: the properties proved about it.
- `tokenizer.dfy`: module `Lexer`, covering `Tokenizer`.
- `parse_spec.dfy`:
  - module `ParseSpec`: the parser as functions of the upcoming tokens and
    the diagnostics printed so far;
  - module `ParseFacts`: the properties proved about it.
- `parser.dfy`: module `Parsing`, covering `Parser`.
- `pipeline.dfy`: module `Pipeline`, which runs a whole file through both
  stages.

Some loops of the source never return on some inputs:

- The skip loop of `scan_next_token` stalls on a character that has no case,
  because the default case yields INVALID without consuming the character.
- The compound-statement loop stalls when the next token starts no statement,
  because a null statement is pushed and nothing is consumed. The vector of
  null statements keeps growing until memory is exhausted.

The specification functions return `None` or `Stalls` for such runs. The
methods that contain those loops require the specification's outcome to be
defined, which is exactly the set of states from which the C++ loop ends.

## Where the code departs from what a reader would expect

In each case below the model follows the code.

- **Token position.** A reader would expect a token's position to be that of
  its first character. The code takes the position at the start of
  `scan_next_token`, before any skipped whitespace or comment
  (`LexFacts.PositionPrecedesSkippedWhitespace`).
- **FLOAT lexeme.** A reader would expect the lexeme of `1.5` to be `1.5`.
  The code leaves the dot out and gives `15` (`LexFacts.NumberScan`).
- **Unknown characters.** A reader would expect an unknown character to be
  skipped as a one-character invalid token, so that lexing always moves on.
  The code consumes nothing for such a character, so the call never returns.
  `,` and `.` are among these characters
  (`LexFacts.UnrecognisedCharacterStalls`, `LexFacts.CommaAndDotStall`).
- **`&` and `|`.** A reader would expect `&&` and `||` to be operators and a
  single `&` or `|` to be invalid. In the code the `&` and `|` cases have no
  `break` and fall into the `;` case. Every token starting with either
  character therefore ends as SEMICOLON
  (`LexFacts.AmpersandAndBarBecomeSemicolon`).
- **End of stream.** A reader would expect every EOS to carry the same final
  position. In the code the first EOS can have a different position from the
  ones that follow: it keeps the position where trailing whitespace began
  (`LexFacts.FirstEndOfStreamCanMove`).
- **Dispatch order.** `parse_statement` tries the expression statement
  second, right after the compound statement and before the declaration,
  if, for, while and return productions. An expression statement is usually
  the last resort.
- **Missing grammar.** The declaration, if, for, while, return and
  expression productions are stubs, so `parse_expression` always returns
  null. The only statements the parser builds are compound statements and
  the empty expression statement `;`.
- **Termination.** A reader would expect `parse()` to end on every input,
  since it has error recovery. It does not end on `{` followed by a token
  that starts no statement: it never returns, and keeps pushing null
  statements until memory is exhausted
  (`ParseFacts.BraceBeforeUnparsableTokenStalls`,
  `ParseFacts.CompoundBodyStep`).
- **Brace token kinds.** `parse_compound_statement` names
  `TokenKind::LEFT_BRACKET` and `RIGHT_BRACKET`, but `TokenKind` has no such
  members. They are modelled as `LEFT_BRACE` and `RIGHT_BRACE`, the only
  brace kinds.

## Model

| member | source | states |
|---|---|---|
| Tokens.Advance | source/Tokenizer.cpp:13-16 | one `next()` drops the current token, except that the final EOS repeats; the stream still ends with EOS and shrinks by one while the current token is not EOS |
| Tokens.Token.constructor | source/Token.cpp:3-4 | sets the kind; the lexeme starts empty and the position at (-1, -1) |
| Tokens.Token.SetType | source/Token.cpp:6-8 | changes the kind only; lexeme and position are as before |
| Tokens.Token.SetLexeme | source/Token.cpp:10-12 | changes the lexeme only |
| Tokens.Token.SetPosition | source/Token.cpp:14-16 | changes the position only |
| Tokens.Token.Kind | source/Token.cpp:18-20 | returns the stored kind and changes nothing |
| Tokens.Token.Pos | source/Token.cpp:22-24 | returns the stored position and changes nothing |
| Tokens.Token.Lexeme | source/Token.cpp:26-32 | returns the stored lexeme and changes nothing |
| Source.At | source/FileStream.cpp:14 | the symbol read at an index is a character exactly inside the text, and EOF past its end |
| Source.Step | source/FileStream.cpp:13-14 | a read moves the cursor one place, except at end of file, where it stays |
| Source.Track | source/FileStream.cpp:16-22 | reading EOF leaves line and column alone; a newline moves to the next line and back to column 1; any other character keeps the line and moves one column right |
| Source.LineColumnAt | source/FileStream.cpp:13-22 | the line and column after reads up to index i never exceed i + 1 |
| Source.LineColumnPositive | source/FileStream.cpp:16-22 | line and column never drop below 1 |
| Source.LineCountsNewlines | source/FileStream.cpp:17-19 | the line of the character at index i is one more than the number of newlines read at indices 1..i |
| Source.FileStream.constructor | source/FileStream.cpp:3-7 | loads the first character as current, at line 1, column 1 |
| Source.FileStream.Next | source/FileStream.cpp:13-25 | reads one character and returns it; a newline moves to column 1 of the next line, another character one column right, and EOF changes neither |
| Source.FileStream.Current | source/FileStream.cpp:9-11 | returns the character at the read index, EOF past the end, without reading |
| Source.FileStream.Line | source/FileStream.cpp:27-29 | returns the line `LineColumnAt` gives for the read index |
| Source.FileStream.Column | source/FileStream.cpp:31-33 | returns the column `LineColumnAt` gives for the read index |
| LexSpec.RunEnd | source/Tokenizer.cpp:65-66 | the end of the maximal run of a character class: every character before it is in the class, and the one at it is not |
| LexSpec.ScanWhiteSpace | source/Tokenizer.cpp:64-69 | WHITE_SPACE with no lexeme, ending at the first character that is not whitespace |
| LexSpec.ScanName | source/Tokenizer.cpp:71-83 | NAME whose lexeme is exactly the maximal run of letters, digits and `_` |
| LexSpec.ScanNumber | source/Tokenizer.cpp:85-112 | INT, FLOAT or INVALID; the lexeme never holds a dot; INVALID has an empty lexeme; an INT lexeme is exactly the characters consumed; a FLOAT lexeme is the characters consumed without the dot that ends the first digit run |
| LexSpec.FallIntoBar | source/Tokenizer.cpp:193-202 | the case for a vertical bar and the `;` case it falls into: always SEMICOLON, consuming at most three characters, and at least one unless the cursor is at the end of the file |
| LexSpec.ScanOperator | source/Tokenizer.cpp:114-216 | consumes something exactly when the character has a case; otherwise INVALID; never a lexeme, whitespace, name or number |
| LexSpec.ScanRaw | source/Tokenizer.cpp:22-31 | one pass of the skip loop's body consumes something exactly when the character starts a token, yields INVALID when it consumes nothing, and never yields EOS, COMA, LOGICAL_AND or LOGICAL_OR |
| LexSpec.Skip | source/Tokenizer.cpp:21-34 | the skip loop, when it ends, yields a kind that is not filtered; EOS only at the end of the text; any other token only after consuming something |
| LexSpec.NextToken | source/Tokenizer.cpp:18-46 | a call that returns leaves a token that is not filtered, positioned at the cursor's line and column on entry; a call that consumes nothing leaves EOS at the end of the text |
| LexSpec.TokenStream | source/Tokenizer.cpp:13-16 | the tokens that successive `next()` calls show start with the current one and end with an EOS, and the first call returns |
| LexSpec.Lex | source/Tokenizer.cpp:3-7 | the tokens of a whole file start with the token the constructor scans, at (1,1), and end with an EOS |
| LexFacts.EndOfFileIsSticky | source/Tokenizer.cpp:22-23 | at end of file a call gives EOS at the cursor's position and keeps the previous lexeme; at rest, it reproduces the same token without moving |
| LexFacts.TokenStreamStep | source/Tokenizer.cpp:13-16 | after one `next()` the upcoming tokens are those before it, advanced by one |
| LexFacts.TokenStreamKinds | source/Tokenizer.cpp:21-34 | no token after the current one is whitespace, a comment, INVALID, COMA, LOGICAL_AND or LOGICAL_OR |
| LexFacts.LexedKinds | source/Tokenizer.cpp:3-7 | the same for every token of a whole file, the one the constructor primes included |
| LexFacts.NameMaximalMunch | source/Tokenizer.cpp:71-83 | a name is a letter followed by the longest run of letters, digits and `_`, and its lexeme is exactly that text |
| LexFacts.NumberScan | source/Tokenizer.cpp:85-112 | digits without a dot give INT with the digits as lexeme; a dot and a digit give FLOAT whose lexeme is both digit runs without the dot; a dot and no digit consume the dot and give INVALID |
| LexFacts.OperatorTable | source/Tokenizer.cpp:117-186 | a two-character operator consumes two characters as one token; otherwise a one-character operator or mark consumes one character |
| LexFacts.CommentThroughNewline | source/Tokenizer.cpp:118-125 | `//` consumes up to and including the next newline, or up to the end of the file, as one COMMENT |
| LexFacts.AmpersandAndBarBecomeSemicolon | source/Tokenizer.cpp:187-202 | any token starting with `&` or `|` ends as SEMICOLON, after at most five or three characters |
| LexFacts.UnrecognisedCharacterStalls | source/Tokenizer.cpp:211-212 | a character without a case, where a token starts, makes the skip loop run forever |
| LexFacts.CommaAndDotStall | source/Tokenizer.cpp:211-212 | a file starting with `,` or `.` cannot be tokenized |
| LexFacts.PositionPrecedesSkippedWhitespace | source/Tokenizer.cpp:19-45 | in " x" the name stands at column 2, but its token says column 1 |
| LexFacts.FirstEndOfStreamCanMove | source/Tokenizer.cpp:22-23 | "a" followed by two blanks lexes to NAME at (1,1), then EOS at (1,2), then EOS at (1,3) |
| Lexer.Tokenizer.constructor | source/Tokenizer.cpp:3-7 | scans the first token at once, so the upcoming tokens are those of the whole file |
| Lexer.Tokenizer.Current | source/Tokenizer.cpp:9-11 | returns the stored token itself and changes nothing |
| Lexer.Tokenizer.Next | source/Tokenizer.cpp:13-16 | scans one token into the stored token and returns that same token; the upcoming tokens advance by one |
| Lexer.Tokenizer.ScanNextToken | source/Tokenizer.cpp:18-46 | the stored token and the cursor become what `NextToken` gives for the text, the cursor and the previous token |
| Lexer.Tokenizer.IsEof | source/Tokenizer.cpp:48-50 | true exactly when the cursor is at the end of the text |
| Lexer.Tokenizer.IsNameStart | source/Tokenizer.cpp:52-54 | true exactly when the current character is a letter |
| Lexer.Tokenizer.IsNumberStart | source/Tokenizer.cpp:56-58 | true exactly when the current character is a digit |
| Lexer.Tokenizer.IsWhiteSpace | source/Tokenizer.cpp:60-62 | true exactly when the current character is whitespace |
| Lexer.Tokenizer.ScanWhiteSpace | source/Tokenizer.cpp:64-69 | consumes the maximal run of whitespace and returns WHITE_SPACE |
| Lexer.Tokenizer.ScanName | source/Tokenizer.cpp:71-83 | consumes the maximal run of name characters and returns NAME with that text |
| Lexer.Tokenizer.ScanNumber | source/Tokenizer.cpp:85-112 | returns the token and leaves the cursor where `ScanNumber` of the specification says |
| Lexer.Tokenizer.ScanFractionPart | source/Tokenizer.cpp:95-111 | after the digit run, gives the token and cursor that `ScanNumber` of the specification gives: INVALID past a dot without a digit, FLOAT after a dot and digits, otherwise the digits read so far |
| Lexer.Tokenizer.AppendDigits | source/Tokenizer.cpp:101-104 | consumes the maximal run of digits and appends exactly those characters to the lexeme |
| Lexer.Tokenizer.SkipComment | source/Tokenizer.cpp:119-125 | entered on the second `/`, leaves the cursor one character past the first newline after it, or at the end of the file |
| Lexer.Tokenizer.ScanOperatorOrPunctuationMark | source/Tokenizer.cpp:114-216 | returns the token and leaves the cursor where the operator switch of the specification says, fall-throughs included |
| ParseSpec.MatchToken | source/Parser.cpp:19-25 | consumes the current token exactly when it has the given kind, and reports whether it did |
| ParseSpec.TranslationUnitLoop | source/Parser.cpp:35-49 | when the loop ends, it stops at an EOS, the diagnostics and statements only grow, and no statement in the unit is null |
| ParseSpec.ParseTranslationUnit | source/Parser.cpp:31-52 | the unit ends at an EOS, holds no null statement, and the diagnostics so far are kept |
| ParseSpec.ParseStatement | source/Parser.cpp:54-79 | a null statement consumes nothing and prints nothing; a statement consumes at least one token |
| ParseSpec.ParseCompoundStatement | source/Parser.cpp:81-100 | yields a compound statement exactly when the current token is `{`, and otherwise consumes nothing; the compound holds no null statement |
| ParseSpec.CompoundBody | source/Parser.cpp:85-94 | when the loop ends, the statements only grow and none is null, the diagnostics only grow, and no token is gained; how each turn ends is stated by `ParseFacts.CompoundBodyStep` |
| ParseSpec.ExpressionStatementAfter | source/Parser.cpp:105-113 | the `;` is consumed if present; with an expression and no `;`, "Expected ';'" is printed at the current token; without an expression, `;` alone makes an empty expression |
| ParseSpec.ParseExpressionStatement | source/Parser.cpp:102-114 | prints nothing; yields an empty expression exactly when the current token is `;`, consuming it, and otherwise consumes nothing |
| ParseFacts.StatementDispatch | source/Parser.cpp:54-79 | `;` gives an empty expression statement, `{` a compound statement, and any other token a null statement with nothing consumed |
| ParseFacts.ExpectedStatements | source/Parser.cpp:38-43 | one "Expected statement" diagnostic per token before the first EOS, each at that token's position |
| ParseFacts.TranslationUnitStep | source/Parser.cpp:35-49 | one turn of the loop: at EOS it ends; `;` appends an empty expression statement; `{` appends the compound statement or stalls with it; any other token is reported as "Expected statement" at its position and skipped |
| ParseFacts.CompoundBodyStep | source/Parser.cpp:85-94 | one turn of the compound loop: `}` ends it and prints nothing; EOS ends it and prints "Unexpected end of file" at the token after it; `;` or a nested compound is appended (or the nested one stalls); any other token makes the loop never return (it keeps pushing null statements until memory is exhausted) |
| ParseFacts.OneDiagnosticPerUnmatchedToken | source/Parser.cpp:38-45 | with no `{` or `;`, the loop reports each token before the first EOS once, skips it, and stops at that EOS with no statement added |
| ParseFacts.UnparsableInputYieldsEmptyUnit | source/Parser.cpp:31-52 | with no `{` or `;`, the unit is empty and the diagnostics are exactly one per token before the first EOS |
| ParseFacts.SemicolonsAreEmptyStatements | source/Parser.cpp:35-49 | a run of `;` gives one empty expression statement each, in order, with no diagnostic |
| ParseFacts.SemicolonsInBraces | source/Parser.cpp:85-94 | inside braces, a run of n `;` closed by `}` gives n empty expression statements in order, consumes the `}` and prints nothing |
| ParseFacts.UnclosedBraceReportsNextPosition | source/Parser.cpp:88-90 | `{` then EOS gives an empty compound and "Unexpected end of file" at the position of the token after the EOS that was matched |
| ParseFacts.BraceBeforeUnparsableTokenStalls | source/Parser.cpp:85-94 | `{` followed by a token that starts no statement makes the compound, the statement and the whole parse stall: none of them returns, and the loop keeps pushing null statements until memory is exhausted |
| Pipeline.LoneOpeningBrace | source/Parser.cpp:81-94 | the file "{" lexes to `{` and EOS both at (1,1), and parses to one empty compound statement with "Unexpected end of file" at (1,1) |
| Pipeline.ParseLoneOpeningBrace | source/Parser.cpp:31-52 | `{` then EOS parses to a unit holding one empty compound statement, with one "Unexpected end of file" diagnostic |
| Parsing.Parser.constructor | source/Parser.cpp:9-10 | opens the tokenizer on the file and prints nothing; when the file can be tokenized to the end, the upcoming tokens are those of the whole file |
| Parsing.Parser.Error | source/Parser.cpp:5-7 | appends one diagnostic with the given position and message |
| Parsing.Parser.MatchToken | source/Parser.cpp:19-25 | the result and the new upcoming tokens are those of `ParseSpec.MatchToken` |
| Parsing.Parser.ReportAndSkip | source/Parser.cpp:41-42 | prints the message at the current token's position and advances by one token |
| Parsing.Parser.Parse | source/Parser.cpp:27-29 | returns the unit, upcoming tokens and diagnostics of `ParseSpec.ParseTranslationUnit` |
| Parsing.Parser.ParseTranslationUnit | source/Parser.cpp:31-52 | the loop ends in the state `ParseSpec.ParseTranslationUnit` gives, with that unit |
| Parsing.Parser.ParseStatement | source/Parser.cpp:54-79 | the statement and new state are those of `ParseSpec.ParseStatement`; the stub productions yield nothing |
| Parsing.Parser.ParseCompoundStatement | source/Parser.cpp:81-100 | the compound and new state are those of `ParseSpec.ParseCompoundStatement` |
| Parsing.Parser.CompoundBody | source/Parser.cpp:85-94 | the loop ends in the state `ParseSpec.CompoundBody` gives, with that compound |
| Parsing.Parser.ParseExpressionStatement | source/Parser.cpp:102-104 | the expression and new state are those of `ParseSpec.ParseExpressionStatement` |
| Parsing.Parser.ExpressionStatementAfter | source/Parser.cpp:105-113 | the expression and new state are those of `ParseSpec.ExpressionStatementAfter` |
| Parsing.Parser.ParseDeclarationStatement | source/Parser.cpp:116-118 | always null |
| Parsing.Parser.ParseFunctionDeclaration | source/Parser.cpp:120-122 | always null |
| Parsing.Parser.ParseVariableDeclaration | source/Parser.cpp:124-126 | always null |
| Parsing.Parser.ParseParameters | source/Parser.cpp:128-130 | always null |
| Parsing.Parser.ParseIfStatement | source/Parser.cpp:132-134 | always null |
| Parsing.Parser.ParseForStatement | source/Parser.cpp:136-138 | always null |
| Parsing.Parser.ParseWhileStatement | source/Parser.cpp:140-142 | always null |
| Parsing.Parser.ParseReturnStatement | source/Parser.cpp:144-146 | always null |
| Parsing.Parser.ParseExpression | source/Parser.cpp:148-150 | always null |
| Parsing.Parser.ParseConditionalExpression | source/Parser.cpp:152-154 | always null |
| Parsing.Parser.ParseLogicalOrExpression | source/Parser.cpp:156-158 | always null |
| Parsing.Parser.ParseLogicalAndExpression | source/Parser.cpp:160-162 | always null |
| Parsing.Parser.ParseEqualityExpression | source/Parser.cpp:164-166 | always null |
| Parsing.Parser.ParseRelationalExpression | source/Parser.cpp:168-170 | always null |
| Parsing.Parser.ParseAdditiveExpression | source/Parser.cpp:172-174 | always null |
| Parsing.Parser.ParseMultiplicativeExpression | source/Parser.cpp:176-178 | always null |
| Parsing.Parser.ParseUnaryExpression | source/Parser.cpp:180-182 | always null |
| Parsing.Parser.ParsePrimaryExpression | source/Parser.cpp:184-186 | always null |
| Parsing.Parser.ParseLiteral | source/Parser.cpp:188-190 | always null |

## Left out

- Reading files (`std::ifstream`, Application.cpp): the file is given as
  its contents, a sequence of characters, and EOF is a separate value.
- The signedness of `char`: a 0xFF byte that compares equal to EOF on some
  platforms is not modelled. EOF is a separate value.
- Locales: `isalpha`, `isdigit`, `isspace` and `isalnum` are the classes of
  the "C" locale, written out as predicates on ASCII.
- Console output: `error` prints a line to standard output. The model
  appends the position and message to `Parser.diagnostics` instead.
- The declaration, if, for, while, return and expression grammars: the
  source has only stubs that return null. No grammar is invented for them.
- Literal payloads: no code converts a lexeme to a number. `IntLiteral`
  holds a 32-bit value and `FloatLiteral` the bits of a float, and nothing
  interprets either.
- AST.cpp constructors: each only stores its arguments, which is what a
  datatype constructor does, so they have no members of their own. The
  `IdAtom` and `FuncCallAtom` constructors are declared but never defined.
- Line and column width: `m_line` and `m_column` are C++ `int`s
  (FileStream.h:18-19), and incrementing one past 2^31-1 is undefined
  behaviour. The model's line and column are unbounded integers, so a file
  with that many lines, or a line that long, is not modelled.
- Termination: the loops that can fail to return are handled by the
  `Option`/`Stalls` results of the specification. The methods containing
  those loops require that the outcome is defined.
- The commented-out reporting of invalid characters (Tokenizer.cpp:36-43)
  does nothing, so it is not modelled. The same goes for the commented-out
  `expect_token`.
- Parser.cpp:96, the return after the compound loop, cannot be reached and
  has no counterpart.
- Lexer.Tokenizer.ScanWhiteSpace, ScanName, ScanNumber and
  ScanOperatorOrPunctuationMark return the token as a value, with position
  (-1, -1), instead of a fresh `Token` object. `scan_next_token` copies its
  fields into the stored token, as the C++ copy assignment does.
- Lexer.Tokenizer.AppendDigits, Lexer.Tokenizer.ScanFractionPart,
  Lexer.Tokenizer.SkipComment, Parsing.Parser.ReportAndSkip and
  Parsing.Parser.CompoundBody: each is a stretch of a C++ function moved into
  its own method, namely the fraction loop of `scan_number`, the part of
  `scan_number` after its first loop, the comment branch of
  `scan_operator_or_punctuation_mark`, the report and
  skip in `parse_translation_unit`, and the loop of
  `parse_compound_statement`.
- Lexer.Tokenizer.Next, Lexer.Tokenizer.constructor and
  Parsing.Parser.constructor: what they state about the upcoming tokens
  holds only when the file can be tokenized to the end (`Lexable`). A file
  that cannot be has no token stream to speak of.
- Parsing.Parser productions other than the stubs require the tokenizer to
  be in a state from which the whole file can be tokenized. A parse that
  ends has read every token up to the final EOS, so a parse of any other
  file never ends.
