/** Tokens as the tokenizer hands them to the parser (Token.h, Token.cpp). */
module Tokens {

  /** The closed set of token kinds, in declaration order; EOS is the first (ordinal 0). */
  datatype TokenKind =
    | EOS
    | INVALID
    | WHITE_SPACE
    | COMMENT
    | NAME
    | INT
    | FLOAT
    | COMA
    | SEMICOLON
    | ARROW
    | EQUAL
    | EQUAL_EQUAL
    | NOT_EQUAL
    | LOGICAL_AND
    | LOGICAL_OR
    | LOGICAL_NOT
    | LESS
    | LESS_EQUAL
    | GREATER
    | GREATER_EQUAL
    | PLUS_PLUS
    | MINUS_MINUS
    | PLUS
    | MINUS
    | STAR
    | SLASH
    | LEFT_PAREN
    | RIGHT_PAREN
    | LEFT_BRACE
    | RIGHT_BRACE

  /** A plain (line, column) pair. */
  datatype Position = Position(line: int, column: int)

  /** The position a Token has until `set_position` is called. */
  const NoPosition := Position(-1, -1)

  /** The value held by a Token object at one moment. */
  datatype TokenValue = TokenValue(kind: TokenKind, lexeme: string, pos: Position)

  /** The value of a default-constructed Token. */
  const DefaultToken := TokenValue(INVALID, "", NoPosition)

  /** Kinds the tokenizer's skip loop filters out. */
  predicate Skipped(k: TokenKind) {
    k == WHITE_SPACE || k == COMMENT || k == INVALID
  }

  /** A finite token stream whose last token is the end of stream. */
  predicate EndsWithEos(toks: seq<TokenValue>) {
    |toks| > 0 && toks[|toks| - 1].kind == EOS
  }

  /**
   * The stream as `current()` shows it after one more `next()`: the last
   * token is the one `next()` reproduces unchanged.
   */
  function Advance(toks: seq<TokenValue>): (r: seq<TokenValue>)
    requires EndsWithEos(toks)
    ensures EndsWithEos(r)
    ensures toks[0].kind != EOS ==> |r| == |toks| - 1
    ensures |r| <= |toks|
  {
    if |toks| == 1 then toks else toks[1..]
  }

  /** A token object; the tokenizer owns one and overwrites its fields. */
  class Token {
    var kind: TokenKind
    var lexeme: string
    var pos: Position

    /** Sets only the kind; the lexeme starts empty and the position at (-1, -1). */
    constructor (kind: TokenKind)
      ensures Value() == TokenValue(kind, "", NoPosition)
    {
      this.kind := kind;
      lexeme := "";
      pos := NoPosition;
    }

    function Value(): TokenValue
      reads this
    {
      TokenValue(kind, lexeme, pos)
    }

    method SetType(kind: TokenKind)
      modifies this
      ensures Value() == old(Value()).(kind := kind)
    {
      this.kind := kind;
    }

    method SetLexeme(lexeme: string)
      modifies this
      ensures Value() == old(Value()).(lexeme := lexeme)
    {
      this.lexeme := lexeme;
    }

    method SetPosition(pos: Position)
      modifies this
      ensures Value() == old(Value()).(pos := pos)
    {
      this.pos := pos;
    }

    /** The getters read one field of the current value and change nothing. */
    function Kind(): (k: TokenKind)
      reads this
      ensures k == Value().kind
    {
      kind
    }

    function Pos(): (p: Position)
      reads this
      ensures p == Value().pos
    {
      pos
    }

    function Lexeme(): (s: string)
      reads this
      ensures s == Value().lexeme
    {
      lexeme
    }
  }
}
