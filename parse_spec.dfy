/**
 * What the recursive-descent parser (Parser.cpp) does to the token stream,
 * stated on the sequence of tokens that `current()` will show from now on
 * (see `Lexer.Tokenizer.Upcoming`). Each function takes the diagnostics
 * printed so far and returns them with the ones it prints appended.
 *
 * The parser never returns on some inputs: a compound statement whose next
 * token starts no statement pushes a null statement without consuming
 * anything and tries again, until memory is exhausted. Such a run is the
 * outcome `Stalls`.
 */
module ParseSpec {
  import opened Wrappers
  import opened Tokens
  import opened Ast

  /** One line printed by `error`: `[line,column] Error: message`. */
  datatype Diagnostic = Diagnostic(pos: Position, message: string)

  /** A parsing function either never returns or returns a node (maybe null). */
  datatype Outcome<T> =
    | Stalls
    | Done(node: T, rest: seq<TokenValue>, diags: seq<Diagnostic>)

  /** No element is null. */
  predicate AllPresent(statements: seq<Option<Statement>>) {
    forall k :: 0 <= k < |statements| ==> statements[k].Some?
  }

  /** `match_token`: consumes the current token exactly when it has the given kind. */
  function MatchToken(toks: seq<TokenValue>, kind: TokenKind): (r: (bool, seq<TokenValue>))
    requires EndsWithEos(toks)
    ensures r.0 <==> toks[0].kind == kind
    ensures EndsWithEos(r.1) && |r.1| <= |toks|
    ensures r.1 == if r.0 then Advance(toks) else toks
  {
    if toks[0].kind == kind then (true, Advance(toks)) else (false, toks)
  }

  /**
   * `parse_translation_unit` from the point where `statements` have been
   * collected: each null statement before the end of stream is reported as
   * "Expected statement" at the current token, which is then skipped.
   */
  function TranslationUnitLoop(toks: seq<TokenValue>, diags: seq<Diagnostic>,
                               statements: seq<Option<Statement>>): (r: Outcome<TranslationUnit>)
    requires EndsWithEos(toks)
    ensures r.Done? ==> EndsWithEos(r.rest) && r.rest[0].kind == EOS && |r.rest| <= |toks|
    ensures r.Done? ==> diags <= r.diags && statements <= r.node.statements
    ensures r.Done? && AllPresent(statements) ==> AllPresent(r.node.statements)
    decreases |toks|, 4
  {
    match ParseStatement(toks, diags)
    case Stalls => Stalls
    case Done(stmt, rest, d) =>
      if stmt.None? then
        if toks[0].kind != EOS then
          TranslationUnitLoop(Advance(toks), diags + [Diagnostic(toks[0].pos, "Expected statement")], statements)
        else
          Done(TranslationUnit(statements), toks, diags)
      else
        assert AllPresent(statements) ==> AllPresent(statements + [stmt]);
        TranslationUnitLoop(rest, d, statements + [stmt])
  }

  /** `parse_translation_unit`, which `parse` returns. */
  function ParseTranslationUnit(toks: seq<TokenValue>, diags: seq<Diagnostic>): (r: Outcome<TranslationUnit>)
    requires EndsWithEos(toks)
    ensures r.Done? ==> EndsWithEos(r.rest) && r.rest[0].kind == EOS
    ensures r.Done? ==> diags <= r.diags && AllPresent(r.node.statements)
  {
    TranslationUnitLoop(toks, diags, [])
  }

  /**
   * `parse_statement`: the first non-null result of the compound, expression,
   * declaration, if, for, while and return productions, tried in that order.
   * The last five are stubs returning null, so only the first two matter.
   */
  function ParseStatement(toks: seq<TokenValue>, diags: seq<Diagnostic>): (r: Outcome<Option<Statement>>)
    requires EndsWithEos(toks)
    ensures r.Done? ==> EndsWithEos(r.rest) && |r.rest| <= |toks| && diags <= r.diags
    ensures r.Done? && r.node.None? ==> r.rest == toks && r.diags == diags
    ensures r.Done? && r.node.Some? ==> |r.rest| < |toks|
    decreases |toks|, 2
  {
    match ParseCompoundStatement(toks, diags)
    case Stalls => Stalls
    case Done(compound, rest, d) =>
      if compound.Some? then
        Done(Some(CompoundStmt(compound.value)), rest, d)
      else
        var e := ParseExpressionStatement(toks, diags);
        if e.node.Some? then Done(Some(ExpressionStmt(e.node.value)), e.rest, e.diags)
        else Done(None, toks, diags)
  }

  /**
   * `parse_compound_statement`: null unless the current token opens a brace;
   * otherwise the statements up to the closing brace.
   */
  function ParseCompoundStatement(toks: seq<TokenValue>, diags: seq<Diagnostic>): (r: Outcome<Option<CompoundStatement>>)
    requires EndsWithEos(toks)
    ensures r.Done? ==> EndsWithEos(r.rest) && diags <= r.diags
    ensures r.Done? ==> (r.node.Some? <==> toks[0].kind == LEFT_BRACE)
    ensures r.Done? && r.node.None? ==> r.rest == toks && r.diags == diags
    ensures r.Done? && r.node.Some? ==> |r.rest| < |toks| && AllPresent(r.node.value.statements)
    decreases |toks|, 1
  {
    var (open, rest) := MatchToken(toks, LEFT_BRACE);
    if !open then Done(None, toks, diags)
    else
      match CompoundBody(rest, diags, [])
      case Stalls => Stalls
      case Done(compound, rest', d) => Done(Some(compound), rest', d)
  }

  /**
   * The loop of `parse_compound_statement` after `statements` have been
   * pushed: a closing brace ends it; so does the end of stream, reported as
   * "Unexpected end of file" at the token that follows it; anything else must
   * start a statement, or the loop never ends.
   */
  function CompoundBody(toks: seq<TokenValue>, diags: seq<Diagnostic>,
                        statements: seq<Option<Statement>>): (r: Outcome<CompoundStatement>)
    requires EndsWithEos(toks)
    ensures r.Done? ==> EndsWithEos(r.rest) && |r.rest| <= |toks| && diags <= r.diags
    ensures r.Done? ==> statements <= r.node.statements
    ensures r.Done? && AllPresent(statements) ==> AllPresent(r.node.statements)
    decreases |toks|, 3
  {
    var (close, afterClose) := MatchToken(toks, RIGHT_BRACE);
    if close then Done(CompoundStatement(statements), afterClose, diags)
    else
      var (eos, afterEos) := MatchToken(toks, EOS);
      if eos then
        Done(CompoundStatement(statements), afterEos, diags + [Diagnostic(afterEos[0].pos, "Unexpected end of file")])
      else
        match ParseStatement(toks, diags)
        case Stalls => Stalls
        case Done(stmt, rest, d) =>
          if stmt.None? then Stalls
          else
            assert AllPresent(statements) ==> AllPresent(statements + [stmt]);
            CompoundBody(rest, d, statements + [stmt])
  }

  /**
   * `parse_expression_statement` once `parse_expression` has returned `expr`
   * and left the stream at `toks`.
   */
  function ExpressionStatementAfter(expr: Option<Expression>, toks: seq<TokenValue>,
                                    diags: seq<Diagnostic>): (r: Outcome<Option<Expression>>)
    requires EndsWithEos(toks)
    ensures r.Done? && EndsWithEos(r.rest)
    ensures r.rest == if toks[0].kind == SEMICOLON then Advance(toks) else toks
    ensures expr.Some? ==> r.node == expr
    ensures expr.None? ==> (r.node.Some? <==> toks[0].kind == SEMICOLON) && r.diags == diags
    ensures expr.None? && r.node.Some? ==> r.node.value == PlainExpression
    ensures expr.Some? && toks[0].kind != SEMICOLON ==>
      r.diags == diags + [Diagnostic(toks[0].pos, "Expected ';'")]
    ensures expr.Some? && toks[0].kind == SEMICOLON ==> r.diags == diags
  {
    var (semicolon, rest) := MatchToken(toks, SEMICOLON);
    if expr.Some? then
      Done(expr, rest, if semicolon then diags else diags + [Diagnostic(rest[0].pos, "Expected ';'")])
    else if semicolon then
      Done(Some(PlainExpression), rest, diags)
    else
      Done(expr, rest, diags)
  }

  /** `parse_expression_statement`; `parse_expression` is a stub returning null. */
  function ParseExpressionStatement(toks: seq<TokenValue>, diags: seq<Diagnostic>): (r: Outcome<Option<Expression>>)
    requires EndsWithEos(toks)
    ensures r.Done? && r.diags == diags
    ensures r.node.Some? <==> toks[0].kind == SEMICOLON
    ensures r.node.Some? ==> r.node.value == PlainExpression && r.rest == Advance(toks) && |r.rest| < |toks|
    ensures r.node.None? ==> r.rest == toks
  {
    ExpressionStatementAfter(None, toks, diags)
  }
}

/** Properties of the parser's behaviour that span several calls. */
module ParseFacts {
  import opened Wrappers
  import opened Tokens
  import opened Ast
  import opened ParseSpec

  /**
   * Which production a statement comes from is decided by the current token
   * alone: an opening brace starts a compound statement, a semicolon is an
   * empty expression statement, and anything else yields null and consumes
   * nothing.
   */
  lemma StatementDispatch(toks: seq<TokenValue>, diags: seq<Diagnostic>)
    requires EndsWithEos(toks)
    ensures toks[0].kind == SEMICOLON ==>
      ParseStatement(toks, diags) == Done(Some(ExpressionStmt(PlainExpression)), Advance(toks), diags)
    ensures toks[0].kind != SEMICOLON && toks[0].kind != LEFT_BRACE ==>
      ParseStatement(toks, diags) == Done(None, toks, diags)
    ensures toks[0].kind == LEFT_BRACE ==>
      match CompoundBody(Advance(toks), diags, [])
      case Stalls => ParseStatement(toks, diags).Stalls?
      case Done(c, rest, d) => ParseStatement(toks, diags) == Done(Some(CompoundStmt(c)), rest, d)
  {
  }

  /**
   * The "Expected statement" lines printed for the tokens before the first
   * end of stream, one per token, each at that token's position.
   */
  function ExpectedStatements(toks: seq<TokenValue>): (r: seq<Diagnostic>)
    requires EndsWithEos(toks)
    ensures |r| < |toks| && toks[|r|].kind == EOS
    ensures forall k :: 0 <= k < |r| ==> toks[k].kind != EOS
    ensures forall k :: 0 <= k < |r| ==> r[k] == Diagnostic(toks[k].pos, "Expected statement")
    decreases |toks|
  {
    if toks[0].kind == EOS then []
    else [Diagnostic(toks[0].pos, "Expected statement")] + ExpectedStatements(toks[1..])
  }

  /**
   * One turn of the translation-unit loop: the end of stream ends it, a
   * semicolon or a compound statement is appended, and any other token is
   * reported and skipped.
   */
  lemma TranslationUnitStep(toks: seq<TokenValue>, diags: seq<Diagnostic>, statements: seq<Option<Statement>>)
    requires EndsWithEos(toks)
    ensures toks[0].kind == EOS ==>
      TranslationUnitLoop(toks, diags, statements) == Done(TranslationUnit(statements), toks, diags)
    ensures toks[0].kind == SEMICOLON ==>
      TranslationUnitLoop(toks, diags, statements)
      == TranslationUnitLoop(toks[1..], diags, statements + [Some(ExpressionStmt(PlainExpression))])
    ensures toks[0].kind !in {EOS, SEMICOLON, LEFT_BRACE} ==>
      TranslationUnitLoop(toks, diags, statements)
      == TranslationUnitLoop(toks[1..], diags + [Diagnostic(toks[0].pos, "Expected statement")], statements)
    ensures toks[0].kind == LEFT_BRACE && CompoundBody(Advance(toks), diags, []).Stalls? ==>
      TranslationUnitLoop(toks, diags, statements).Stalls?
    ensures var inner := CompoundBody(Advance(toks), diags, []);
      toks[0].kind == LEFT_BRACE && inner.Done? ==>
      TranslationUnitLoop(toks, diags, statements)
      == TranslationUnitLoop(inner.rest, inner.diags, statements + [Some(CompoundStmt(inner.node))])
  {
    StatementDispatch(toks, diags);
    if toks[0].kind == LEFT_BRACE {
      var inner := CompoundBody(Advance(toks), diags, []);
      if inner.Done? {
        assert ParseStatement(toks, diags) == Done(Some(CompoundStmt(inner.node)), inner.rest, inner.diags);
      }
    }
  }

  /**
   * One turn of the compound-statement loop: a closing brace ends it
   * silently; the end of stream ends it with "Unexpected end of file" at the
   * token after it; a semicolon or a nested compound statement is appended;
   * any other token makes the loop stall: it never returns, pushing null
   * statements until memory is exhausted.
   */
  lemma CompoundBodyStep(toks: seq<TokenValue>, diags: seq<Diagnostic>, statements: seq<Option<Statement>>)
    requires EndsWithEos(toks)
    ensures toks[0].kind == RIGHT_BRACE ==>
      CompoundBody(toks, diags, statements) == Done(CompoundStatement(statements), Advance(toks), diags)
    ensures toks[0].kind == EOS ==>
      CompoundBody(toks, diags, statements)
      == Done(CompoundStatement(statements), Advance(toks),
              diags + [Diagnostic(Advance(toks)[0].pos, "Unexpected end of file")])
    ensures toks[0].kind == SEMICOLON ==>
      CompoundBody(toks, diags, statements)
      == CompoundBody(toks[1..], diags, statements + [Some(ExpressionStmt(PlainExpression))])
    ensures toks[0].kind == LEFT_BRACE && CompoundBody(Advance(toks), diags, []).Stalls? ==>
      CompoundBody(toks, diags, statements).Stalls?
    ensures var inner := CompoundBody(Advance(toks), diags, []);
      toks[0].kind == LEFT_BRACE && inner.Done? ==>
      CompoundBody(toks, diags, statements)
      == CompoundBody(inner.rest, inner.diags, statements + [Some(CompoundStmt(inner.node))])
    ensures toks[0].kind !in {RIGHT_BRACE, EOS, SEMICOLON, LEFT_BRACE} ==>
      CompoundBody(toks, diags, statements).Stalls?
  {
    StatementDispatch(toks, diags);
  }

  /**
   * When no token opens a brace or is a semicolon, no statement is parsed:
   * every token before the first end of stream is reported once and skipped,
   * and parsing stops at that end of stream.
   */
  lemma {:induction false} OneDiagnosticPerUnmatchedToken(toks: seq<TokenValue>, diags: seq<Diagnostic>,
                                                          statements: seq<Option<Statement>>)
    requires EndsWithEos(toks)
    requires forall k :: 0 <= k < |toks| ==> toks[k].kind != LEFT_BRACE && toks[k].kind != SEMICOLON
    ensures var e := ExpectedStatements(toks);
      TranslationUnitLoop(toks, diags, statements) == Done(TranslationUnit(statements), toks[|e|..], diags + e)
    decreases |toks|
  {
    TranslationUnitStep(toks, diags, statements);
    if toks[0].kind == EOS {
      assert toks[0..] == toks && diags + [] == diags;
    } else {
      var d := Diagnostic(toks[0].pos, "Expected statement");
      var tail := toks[1..];
      var e := ExpectedStatements(tail);
      OneDiagnosticPerUnmatchedToken(tail, diags + [d], statements);
      ExpectedStatementsStep(toks);
      calc {
        TranslationUnitLoop(toks, diags, statements);
        TranslationUnitLoop(tail, diags + [d], statements);
        Done(TranslationUnit(statements), tail[|e|..], diags + [d] + e);
        { AppendAssociates(diags, [d], e); }
        Done(TranslationUnit(statements), toks[|ExpectedStatements(toks)|..], diags + ExpectedStatements(toks));
      }
    }
  }

  lemma AppendAssociates<T>(a: seq<T>, b: seq<T>, c: seq<T>)
    ensures a + b + c == a + (b + c)
  {
  }

  /** How `ExpectedStatements` of a stream relates to that of its tail. */
  lemma ExpectedStatementsStep(toks: seq<TokenValue>)
    requires EndsWithEos(toks) && toks[0].kind != EOS
    ensures ExpectedStatements(toks) == [Diagnostic(toks[0].pos, "Expected statement")] + ExpectedStatements(toks[1..])
    ensures toks[1..][|ExpectedStatements(toks[1..])|..] == toks[|ExpectedStatements(toks)|..]
  {
  }

  /** The same, for a whole translation unit: it comes out empty. */
  lemma UnparsableInputYieldsEmptyUnit(toks: seq<TokenValue>, diags: seq<Diagnostic>)
    requires EndsWithEos(toks)
    requires forall k :: 0 <= k < |toks| ==> toks[k].kind != LEFT_BRACE && toks[k].kind != SEMICOLON
    ensures var e := ExpectedStatements(toks);
      ParseTranslationUnit(toks, diags) == Done(TranslationUnit([]), toks[|e|..], diags + e)
  {
    OneDiagnosticPerUnmatchedToken(toks, diags, []);
  }

  /**
   * A run of semicolons is a run of empty expression statements, parsed
   * without a diagnostic, up to the end of stream.
   */
  lemma {:induction false} SemicolonsAreEmptyStatements(toks: seq<TokenValue>, diags: seq<Diagnostic>,
                                                        statements: seq<Option<Statement>>)
    requires EndsWithEos(toks)
    requires forall k :: 0 <= k < |toks| - 1 ==> toks[k].kind == SEMICOLON
    ensures TranslationUnitLoop(toks, diags, statements)
      == Done(TranslationUnit(statements + seq(|toks| - 1, _ => Some(ExpressionStmt(PlainExpression)))),
              [toks[|toks| - 1]], diags)
    decreases |toks|
  {
    var empty := Some(ExpressionStmt(PlainExpression));
    if |toks| == 1 {
      TranslationUnitStep(toks, diags, statements);
      assert statements + seq(0, _ => empty) == statements;
    } else {
      var tail := toks[1..];
      calc {
        TranslationUnitLoop(toks, diags, statements);
        { TranslationUnitStep(toks, diags, statements); }
        TranslationUnitLoop(tail, diags, statements + [empty]);
        { SemicolonsAreEmptyStatements(tail, diags, statements + [empty]); }
        Done(TranslationUnit(statements + [empty] + seq(|tail| - 1, _ => empty)), [tail[|tail| - 1]], diags);
        { AppendRepeated(statements, empty, |tail| - 1); }
        Done(TranslationUnit(statements + seq(|toks| - 1, _ => empty)), [toks[|toks| - 1]], diags);
      }
    }
  }

  /**
   * Inside a compound statement, a run of `n` semicolons closed by a brace
   * gives one empty expression statement each, in order, consumes the brace
   * and prints nothing.
   */
  lemma {:induction false} SemicolonsInBraces(toks: seq<TokenValue>, diags: seq<Diagnostic>,
                                              statements: seq<Option<Statement>>, n: nat)
    requires EndsWithEos(toks) && n < |toks|
    requires forall k :: 0 <= k < n ==> toks[k].kind == SEMICOLON
    requires toks[n].kind == RIGHT_BRACE
    ensures CompoundBody(toks, diags, statements)
      == Done(CompoundStatement(statements + seq(n, _ => Some(ExpressionStmt(PlainExpression)))), toks[n + 1..], diags)
    decreases n
  {
    var empty := Some(ExpressionStmt(PlainExpression));
    CompoundBodyStep(toks, diags, statements);
    if n == 0 {
      assert statements + seq(0, _ => empty) == statements;
    } else {
      var tail := toks[1..];
      assert tail[n - 1] == toks[n] && tail[n..] == toks[n + 1..];
      calc {
        CompoundBody(toks, diags, statements);
        CompoundBody(tail, diags, statements + [empty]);
        { SemicolonsInBraces(tail, diags, statements + [empty], n - 1); }
        Done(CompoundStatement(statements + [empty] + seq(n - 1, _ => empty)), tail[n..], diags);
        { AppendRepeated(statements, empty, n - 1); }
        Done(CompoundStatement(statements + seq(n, _ => empty)), toks[n + 1..], diags);
      }
    }
  }

  lemma AppendRepeated<T>(a: seq<T>, x: T, n: nat)
    ensures a + [x] + seq(n, _ => x) == a + seq(n + 1, _ => x)
  {
    AppendAssociates(a, [x], seq(n, _ => x));
    assert [x] + seq(n, _ => x) == seq(n + 1, _ => x);
  }

  /**
   * An opening brace directly followed by the end of stream yields an empty
   * compound statement, and the error is reported at the position of the
   * token after that end of stream (the same one when it is the last).
   */
  lemma UnclosedBraceReportsNextPosition(toks: seq<TokenValue>, diags: seq<Diagnostic>)
    requires EndsWithEos(toks) && |toks| >= 2
    requires toks[0].kind == LEFT_BRACE && toks[1].kind == EOS
    ensures var next := if |toks| == 2 then toks[1] else toks[2];
      ParseCompoundStatement(toks, diags)
      == Done(Some(CompoundStatement([])), Advance(toks[1..]), diags + [Diagnostic(next.pos, "Unexpected end of file")])
  {
  }

  /**
   * An opening brace followed by a token that is none of an opening brace, a
   * closing brace, a semicolon or the end of stream makes the parser stall:
   * nothing can consume that token, so it never returns and keeps pushing
   * null statements until memory is exhausted.
   */
  lemma {:induction false} BraceBeforeUnparsableTokenStalls(toks: seq<TokenValue>, diags: seq<Diagnostic>)
    requires EndsWithEos(toks) && |toks| >= 2
    requires toks[0].kind == LEFT_BRACE
    requires toks[1].kind !in {LEFT_BRACE, RIGHT_BRACE, SEMICOLON, EOS}
    ensures ParseCompoundStatement(toks, diags).Stalls?
    ensures ParseStatement(toks, diags).Stalls?
    ensures ParseTranslationUnit(toks, diags).Stalls?
  {
    StatementDispatch(toks[1..], diags);
    StatementDispatch(toks, diags);
  }
}
