/**
 * The tokenizer object (Tokenizer.h, Tokenizer.cpp): one character cursor and
 * one current token, both owned. Every method is proved against the
 * functions of LexSpec.
 */
module Lexer {
  import opened Wrappers
  import opened Tokens
  import opened Source
  import LexSpec
  import LexFacts

  class Tokenizer {
    const stream: FileStream
    const token: Token

    ghost predicate Valid()
      reads stream, token
    {
      stream.Valid() && !Skipped(token.kind)
    }

    /** The call to `scan_next_token` now due returns. */
    ghost predicate CanScan()
      reads stream, token
      requires stream.Valid()
    {
      LexSpec.NextToken(stream.text, stream.index, token.Value()).Some?
    }

    /** Every later call of `next()` returns. */
    ghost predicate RestLexable()
      reads stream, token
      requires stream.Valid()
    {
      LexSpec.TokenStream(stream.text, stream.index, token.Value()).Some?
    }

    /** The tokens `current()` shows from now on, the current one first. */
    ghost function Upcoming(): (toks: seq<TokenValue>)
      reads stream, token
      requires Valid() && RestLexable()
      ensures EndsWithEos(toks) && toks[0] == token.Value()
    {
      LexSpec.TokenStream(stream.text, stream.index, token.Value()).value
    }

    /** Opens the file and scans the first token, so that `current()` is valid at once. */
    constructor (text: seq<char>)
      requires LexSpec.NextToken(text, 0, DefaultToken).Some?
      ensures Valid() && fresh(stream) && fresh(token) && stream.text == text
      ensures (token.Value(), stream.index) == LexSpec.NextToken(text, 0, DefaultToken).value
      ensures LexSpec.Lexable(text) ==> RestLexable() && Upcoming() == LexSpec.Lex(text).value
    {
      stream := new FileStream(text);
      token := new Token(INVALID);
      new;
      ScanNextToken();
    }

    /** The stored token itself, untouched. */
    method Current() returns (t: Token)
      ensures t == token
    {
      t := token;
    }

    /** Scans one token into the stored token and returns that same token. */
    method Next() returns (t: Token)
      requires Valid() && CanScan()
      modifies stream, token
      ensures Valid() && t == token
      ensures (token.Value(), stream.index) == LexSpec.NextToken(stream.text, old(stream.index), old(token.Value())).value
      ensures old(RestLexable()) ==> RestLexable() && Upcoming() == Advance(old(Upcoming()))
    {
      ghost var text, i, cur := stream.text, stream.index, token.Value();
      if RestLexable() {
        LexFacts.TokenStreamStep(text, i, cur);
      }
      ScanNextToken();
      t := token;
    }

    /**
     * Runs the skip loop until a token that is not whitespace, a comment or
     * INVALID is produced, then stamps it with the position the cursor had
     * on entry.
     */
    method ScanNextToken()
      requires stream.Valid() && CanScan()
      modifies stream, token
      ensures Valid()
      ensures (token.Value(), stream.index) == LexSpec.NextToken(stream.text, old(stream.index), old(token.Value())).value
    {
      var pos := Position(stream.Line(), stream.Column());
      ghost var goal := LexSpec.Skip(stream.text, stream.index, token.lexeme).value;
      while true
        invariant stream.Valid()
        invariant LexSpec.Skip(stream.text, stream.index, token.lexeme) == Some(goal)
        decreases |stream.text| - stream.index
      {
        if IsEof() {
          token.SetType(EOS);
        } else {
          var t;
          if IsWhiteSpace() {
            t := ScanWhiteSpace();
          } else if IsNameStart() {
            t := ScanName();
          } else if IsNumberStart() {
            t := ScanNumber();
          } else {
            t := ScanOperatorOrPunctuationMark();
          }
          token.kind, token.lexeme, token.pos := t.kind, t.lexeme, t.pos;
        }
        if !Skipped(token.kind) {
          break;
        }
      }
      token.SetPosition(pos);
    }

    /** The `is_*` tests only look at the current character. */
    predicate IsEof(): (b: bool)
      reads stream
      ensures stream.Valid() ==> (b <==> stream.index == |stream.text|)
    {
      stream.Current() == EOF
    }

    predicate IsNameStart(): (b: bool)
      reads stream
      ensures stream.Valid() ==> (b <==> stream.index < |stream.text| && LexSpec.IsAlpha(stream.text[stream.index]))
    {
      LexSpec.SymIs(stream.Current(), LexSpec.Letters)
    }

    predicate IsNumberStart(): (b: bool)
      reads stream
      ensures stream.Valid() ==> (b <==> stream.index < |stream.text| && LexSpec.IsDigit(stream.text[stream.index]))
    {
      LexSpec.SymIs(stream.Current(), LexSpec.Digits)
    }

    predicate IsWhiteSpace(): (b: bool)
      reads stream
      ensures stream.Valid() ==> (b <==> stream.index < |stream.text| && LexSpec.IsSpace(stream.text[stream.index]))
    {
      LexSpec.SymIs(stream.Current(), LexSpec.Spaces)
    }

    method ScanWhiteSpace() returns (t: TokenValue)
      requires stream.Valid()
      modifies stream
      ensures stream.Valid()
      ensures var r := LexSpec.ScanWhiteSpace(stream.text, old(stream.index));
        t == LexSpec.Unpositioned(r) && stream.index == r.end
    {
      ghost var start := stream.index;
      while IsWhiteSpace()
        invariant stream.Valid() && start <= stream.index
        invariant forall k :: start <= k < stream.index ==> LexSpec.IsSpace(stream.text[k])
        decreases |stream.text| - stream.index
      {
        var _ := stream.Next();
      }
      LexSpec.RunEndUnique(stream.text, start, stream.index, LexSpec.Spaces);
      t := TokenValue(WHITE_SPACE, "", NoPosition);
    }

    method ScanName() returns (t: TokenValue)
      requires stream.Valid()
      modifies stream
      ensures stream.Valid()
      ensures var r := LexSpec.ScanName(stream.text, old(stream.index));
        t == LexSpec.Unpositioned(r) && stream.index == r.end
    {
      t := TokenValue(NAME, "", NoPosition);
      var name := "";
      ghost var start := stream.index;
      while LexSpec.SymIs(stream.Current(), LexSpec.NameChars)
        invariant stream.Valid() && start <= stream.index
        invariant name == stream.text[start..stream.index]
        invariant forall k :: start <= k < stream.index ==> LexSpec.IsNameChar(stream.text[k])
        decreases |stream.text| - stream.index
      {
        name := name + [stream.Current().c];
        var _ := stream.Next();
      }
      LexSpec.RunEndUnique(stream.text, start, stream.index, LexSpec.NameChars);
      t := t.(lexeme := name);
    }

    method ScanNumber() returns (t: TokenValue)
      requires stream.Valid()
      modifies stream
      ensures stream.Valid()
      ensures var r := LexSpec.ScanNumber(stream.text, old(stream.index));
        t == LexSpec.Unpositioned(r) && stream.index == r.end
    {
      t := DefaultToken;
      var lexeme := "";
      ghost var text, start := stream.text, stream.index;
      while LexSpec.SymIs(stream.Current(), LexSpec.Digits)
        invariant stream.Valid() && start <= stream.index
        invariant lexeme == text[start..stream.index]
        invariant forall k :: start <= k < stream.index ==> LexSpec.IsDigit(text[k])
        invariant t == TokenValue(if stream.index > start then INT else INVALID, "", NoPosition)
        decreases |text| - stream.index
      {
        lexeme := lexeme + [stream.Current().c];
        var _ := stream.Next();
        t := t.(kind := INT);
      }
      LexSpec.RunEndUnique(text, start, stream.index, LexSpec.Digits);
      t := ScanFractionPart(start, t, lexeme);
    }

    /**
     * The rest of `scan_number` once the digits from `start` are read: a dot
     * not followed by a digit gives INVALID, a dot and digits give FLOAT.
     */
    method ScanFractionPart(ghost start: nat, t0: TokenValue, digits: string) returns (t: TokenValue)
      requires stream.Valid() && start <= stream.index
      requires stream.index == LexSpec.RunEnd(stream.text, start, LexSpec.Digits)
      requires digits == stream.text[start..stream.index]
      requires t0 == TokenValue(if stream.index > start then INT else INVALID, "", NoPosition)
      modifies stream
      ensures stream.Valid()
      ensures var r := LexSpec.ScanNumber(stream.text, start);
        t == LexSpec.Unpositioned(r) && stream.index == r.end
    {
      t := t0;
      var lexeme := digits;
      ghost var text, digitsEnd := stream.text, stream.index;
      LexSpec.ScanNumberCases(text, start, digitsEnd);
      if stream.Current() == Ch('.') {
        var c := stream.Next();
        if !LexSpec.SymIs(c, LexSpec.Digits) {
          t := t.(kind := INVALID);
          return;
        }
        lexeme := AppendDigits(lexeme);
        t := t.(kind := FLOAT);
      }
      t := t.(lexeme := lexeme);
    }

    /**
     * The fraction loop of `scan_number`: appends the digits under the cursor
     * to `lexeme`, reading past them.
     */
    method AppendDigits(lexeme: string) returns (r: string)
      requires stream.Valid()
      modifies stream
      ensures stream.Valid()
      ensures stream.index == LexSpec.RunEnd(stream.text, old(stream.index), LexSpec.Digits)
      ensures r == lexeme + stream.text[old(stream.index)..stream.index]
    {
      r := lexeme;
      ghost var text, start := stream.text, stream.index;
      while LexSpec.SymIs(stream.Current(), LexSpec.Digits)
        invariant stream.Valid() && start <= stream.index
        invariant r == lexeme + text[start..stream.index]
        invariant forall k :: start <= k < stream.index ==> LexSpec.IsDigit(text[k])
        decreases |text| - stream.index
      {
        assert text[start..stream.index + 1] == text[start..stream.index] + [text[stream.index]];
        r := r + [stream.Current().c];
        var _ := stream.Next();
      }
      LexSpec.RunEndUnique(text, start, stream.index, LexSpec.Digits);
    }

    /**
     * The comment branch of the `/` case, entered on the second `/`: reads
     * up to the next newline or EOF, then one character more.
     */
    method SkipComment()
      requires stream.Valid()
      modifies stream
      ensures stream.Valid()
      ensures stream.index
        == Step(stream.text, LexSpec.RunEnd(stream.text, Step(stream.text, old(stream.index)), LexSpec.LineChars))
    {
      var d := stream.Next();
      ghost var start := stream.index;
      while d != Ch('\n') && d != EOF
        invariant stream.Valid() && start <= stream.index && d == stream.Current()
        invariant forall k :: start <= k < stream.index ==> LexSpec.NotNewline(stream.text[k])
        decreases |stream.text| - stream.index
      {
        d := stream.Next();
      }
      LexSpec.RunEndUnique(stream.text, start, stream.index, LexSpec.LineChars);
      d := stream.Next();
    }

    method ScanOperatorOrPunctuationMark() returns (t: TokenValue)
      requires stream.Valid() && stream.index < |stream.text|
      modifies stream
      ensures stream.Valid()
      ensures var r := LexSpec.ScanOperator(stream.text, old(stream.index));
        t == LexSpec.Unpositioned(r) && stream.index == r.end
    {
      t := DefaultToken;
      var c := stream.Current();
      match c.c
      case '/' =>
        var d := stream.Next();
        if d == Ch('/') {
          SkipComment();
          t := t.(kind := COMMENT);
        } else {
          t := t.(kind := SLASH);
        }
      case '=' =>
        var d := stream.Next();
        if d == Ch('=') {
          d := stream.Next();
          t := t.(kind := EQUAL_EQUAL);
        } else {
          t := t.(kind := EQUAL);
        }
      case '!' =>
        var d := stream.Next();
        if d == Ch('=') {
          d := stream.Next();
          t := t.(kind := NOT_EQUAL);
        } else {
          t := t.(kind := LOGICAL_NOT);
        }
      case '+' =>
        var d := stream.Next();
        if d == Ch('+') {
          d := stream.Next();
          t := t.(kind := PLUS_PLUS);
        } else {
          t := t.(kind := PLUS);
        }
      case '-' =>
        var d := stream.Next();
        if stream.Current() == Ch('-') {
          d := stream.Next();
          t := t.(kind := MINUS_MINUS);
        } else if stream.Current() == Ch('>') {
          d := stream.Next();
          t := t.(kind := ARROW);
        } else {
          t := t.(kind := MINUS);
        }
      case '*' =>
        t := t.(kind := STAR);
        var d := stream.Next();
      case '<' =>
        var d := stream.Next();
        if d == Ch('=') {
          d := stream.Next();
          t := t.(kind := LESS_EQUAL);
        } else {
          t := t.(kind := LESS);
        }
      case '>' =>
        var d := stream.Next();
        if d == Ch('=') {
          d := stream.Next();
          t := t.(kind := GREATER_EQUAL);
        } else {
          t := t.(kind := GREATER);
        }
      case '(' =>
        var d := stream.Next();
        t := t.(kind := LEFT_PAREN);
      case ')' =>
        var d := stream.Next();
        t := t.(kind := RIGHT_PAREN);
      case '{' =>
        var d := stream.Next();
        t := t.(kind := LEFT_BRACE);
      case '}' =>
        var d := stream.Next();
        t := t.(kind := RIGHT_BRACE);
      case _ =>
        if c == Ch('&') || c == Ch('|') || c == Ch(';') {
          // The `&` and `|` cases end without `break`: each falls into the next case.
          if c == Ch('&') {
            var d := stream.Next();
            if d == Ch('&') {
              d := stream.Next();
              t := t.(kind := LOGICAL_AND);
            } else {
              t := t.(kind := INVALID);
            }
          }
          if c == Ch('&') || c == Ch('|') {
            var d := stream.Next();
            if d == Ch('|') {
              d := stream.Next();
              t := t.(kind := LOGICAL_OR);
            } else {
              t := t.(kind := INVALID);
            }
          }
          var d := stream.Next();
          t := t.(kind := SEMICOLON);
        } else {
          t := t.(kind := INVALID);
        }
    }
  }
}
