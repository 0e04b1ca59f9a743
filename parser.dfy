/**
 * The parser object (Parser.h, Parser.cpp). It owns a tokenizer and reads
 * tokens only through `current()` and `next()`. The file-local `error`
 * function prints `[line,column] Error: message`; here each such line is
 * appended to the field `diagnostics` instead. Every production is proved
 * against the function of ParseSpec that has its name, on the tokens still
 * to come and the diagnostics printed so far.
 *
 * A production that may loop forever requires that its ParseSpec function
 * is `Done` on the current state: that is exactly the set of states from
 * which the source's loops end.
 */
module Parsing {
  import opened Wrappers
  import opened Tokens
  import opened Ast
  import LexSpec
  import opened Lexer
  import ParseSpec

  class Parser {
    const tokenizer: Tokenizer
    var diagnostics: seq<ParseSpec.Diagnostic>

    ghost predicate Valid()
      reads tokenizer.stream, tokenizer.token
    {
      tokenizer.Valid() && tokenizer.RestLexable()
    }

    /** The tokens the tokenizer will show from now on, the current one first. */
    ghost function Upcoming(): (toks: seq<TokenValue>)
      reads tokenizer.stream, tokenizer.token
      requires Valid()
      ensures EndsWithEos(toks)
    {
      tokenizer.Upcoming()
    }

    /** Opens the file through the tokenizer, which scans the first token. */
    constructor (text: seq<char>)
      requires LexSpec.NextToken(text, 0, DefaultToken).Some?
      ensures fresh(tokenizer) && fresh(tokenizer.stream) && fresh(tokenizer.token) && diagnostics == []
      ensures tokenizer.Valid() && tokenizer.stream.text == text
      ensures LexSpec.Lexable(text) ==> Valid() && Upcoming() == LexSpec.Lex(text).value
    {
      tokenizer := new Tokenizer(text);
      diagnostics := [];
    }

    /** `error`: the line it prints, recorded. */
    method Error(pos: Position, message: string)
      modifies this
      ensures diagnostics == old(diagnostics) + [ParseSpec.Diagnostic(pos, message)]
    {
      diagnostics := diagnostics + [ParseSpec.Diagnostic(pos, message)];
    }

    method MatchToken(kind: TokenKind) returns (matched: bool)
      requires Valid()
      modifies tokenizer.stream, tokenizer.token
      ensures Valid()
      ensures (matched, Upcoming()) == ParseSpec.MatchToken(old(Upcoming()), kind)
    {
      var current := tokenizer.Current();
      if current.Kind() == kind {
        CanScanAgain();
        var _ := tokenizer.Next();
        return true;
      }
      return false;
    }

    /** The tokenizer can scan again: a lexable stream is never stuck. */
    lemma CanScanAgain()
      requires Valid()
      ensures tokenizer.CanScan()
    {
    }

    /** Prints `message` at the current token, then moves past it. */
    method ReportAndSkip(current: Token, message: string)
      requires Valid() && current == tokenizer.token
      modifies this, tokenizer.stream, tokenizer.token
      ensures Valid()
      ensures Upcoming() == Advance(old(Upcoming()))
      ensures diagnostics == old(diagnostics) + [ParseSpec.Diagnostic(old(Upcoming())[0].pos, message)]
    {
      Error(current.Pos(), message);
      CanScanAgain();
      var _ := tokenizer.Next();
    }

    method Parse() returns (unit: TranslationUnit)
      requires Valid() && ParseSpec.ParseTranslationUnit(Upcoming(), diagnostics).Done?
      modifies this, tokenizer.stream, tokenizer.token
      ensures Valid()
      ensures ParseSpec.ParseTranslationUnit(old(Upcoming()), old(diagnostics))
        == ParseSpec.Done(unit, Upcoming(), diagnostics)
    {
      unit := ParseTranslationUnit();
    }

    method ParseTranslationUnit() returns (unit: TranslationUnit)
      requires Valid() && ParseSpec.ParseTranslationUnit(Upcoming(), diagnostics).Done?
      modifies this, tokenizer.stream, tokenizer.token
      ensures Valid()
      ensures ParseSpec.ParseTranslationUnit(old(Upcoming()), old(diagnostics))
        == ParseSpec.Done(unit, Upcoming(), diagnostics)
    {
      ghost var goal := ParseSpec.ParseTranslationUnit(Upcoming(), diagnostics);
      var statements: seq<Option<Statement>> := [];
      while true
        invariant Valid()
        invariant ParseSpec.TranslationUnitLoop(Upcoming(), diagnostics, statements) == goal
        decreases |Upcoming()|
      {
        var stmt := ParseStatement();
        if stmt.None? {
          var current := tokenizer.Current();
          if current.Kind() != EOS {
            ReportAndSkip(current, "Expected statement");
            continue;
          } else {
            break;
          }
        }
        statements := statements + [stmt];
      }
      unit := TranslationUnit(statements);
    }

    method ParseStatement() returns (stmt: Option<Statement>)
      requires Valid() && ParseSpec.ParseStatement(Upcoming(), diagnostics).Done?
      modifies this, tokenizer.stream, tokenizer.token
      ensures Valid()
      ensures ParseSpec.ParseStatement(old(Upcoming()), old(diagnostics))
        == ParseSpec.Done(stmt, Upcoming(), diagnostics)
      decreases |Upcoming()|, 2
    {
      var compound := ParseCompoundStatement();
      if compound.Some? {
        return Some(CompoundStmt(compound.value));
      }
      var expression := ParseExpressionStatement();
      if expression.Some? {
        return Some(ExpressionStmt(expression.value));
      }
      // The remaining productions are stubs: the `Some` case each `if (stmt)
      // return stmt;` would take is proved impossible.
      var declaration := ParseDeclarationStatement();
      match declaration { case None => }
      var ifStatement := ParseIfStatement();
      match ifStatement { case None => }
      var forStatement := ParseForStatement();
      match forStatement { case None => }
      var whileStatement := ParseWhileStatement();
      match whileStatement { case None => }
      var returnStatement := ParseReturnStatement();
      match returnStatement { case None => }
      return None;
    }

    method ParseCompoundStatement() returns (compound: Option<CompoundStatement>)
      requires Valid() && ParseSpec.ParseCompoundStatement(Upcoming(), diagnostics).Done?
      modifies this, tokenizer.stream, tokenizer.token
      ensures Valid()
      ensures ParseSpec.ParseCompoundStatement(old(Upcoming()), old(diagnostics))
        == ParseSpec.Done(compound, Upcoming(), diagnostics)
      decreases |Upcoming()|, 1
    {
      var open := MatchToken(LEFT_BRACE);
      if open {
        var body := CompoundBody();
        return Some(body);
      }
      return None;
    }

    /** The loop of `parse_compound_statement`, entered after the opening brace. */
    method CompoundBody() returns (compound: CompoundStatement)
      requires Valid() && ParseSpec.CompoundBody(Upcoming(), diagnostics, []).Done?
      modifies this, tokenizer.stream, tokenizer.token
      ensures Valid()
      ensures ParseSpec.CompoundBody(old(Upcoming()), old(diagnostics), [])
        == ParseSpec.Done(compound, Upcoming(), diagnostics)
      decreases |Upcoming()|, 3
    {
      ghost var goal := ParseSpec.CompoundBody(Upcoming(), diagnostics, []);
      var statements: seq<Option<Statement>> := [];
      while true
        invariant Valid() && |Upcoming()| <= |old(Upcoming())|
        invariant ParseSpec.CompoundBody(Upcoming(), diagnostics, statements) == goal
        decreases |Upcoming()|
      {
        var close := MatchToken(RIGHT_BRACE);
        if close {
          return CompoundStatement(statements);
        }
        var eos := MatchToken(EOS);
        if eos {
          var current := tokenizer.Current();
          Error(current.Pos(), "Unexpected end of file");
          return CompoundStatement(statements);
        }
        var stmt := ParseStatement();
        statements := statements + [stmt];
      }
    }

    method ParseExpressionStatement() returns (expression: Option<Expression>)
      requires Valid()
      modifies this, tokenizer.stream, tokenizer.token
      ensures Valid()
      ensures ParseSpec.ParseExpressionStatement(old(Upcoming()), old(diagnostics))
        == ParseSpec.Done(expression, Upcoming(), diagnostics)
    {
      var expr := ParseExpression();
      expression := ExpressionStatementAfter(expr);
    }

    /** The rest of `parse_expression_statement` once `parse_expression` has returned `expr`. */
    method ExpressionStatementAfter(expr: Option<Expression>) returns (expression: Option<Expression>)
      requires Valid()
      modifies this, tokenizer.stream, tokenizer.token
      ensures Valid()
      ensures ParseSpec.ExpressionStatementAfter(expr, old(Upcoming()), old(diagnostics))
        == ParseSpec.Done(expression, Upcoming(), diagnostics)
    {
      var semicolon := MatchToken(SEMICOLON);
      if expr.Some? {
        if !semicolon {
          var current := tokenizer.Current();
          Error(current.Pos(), "Expected ';'");
        }
      } else if semicolon {
        return Some(PlainExpression);
      }
      return expr;
    }

    // The productions below are stubs in the source: each returns null and
    // reads no token.

    method ParseDeclarationStatement() returns (r: Option<DeclarationStatement>)
      ensures r.None?
    {
      return None;
    }

    method ParseFunctionDeclaration() returns (r: Option<FunctionDeclaration>)
      ensures r.None?
    {
      return None;
    }

    method ParseVariableDeclaration() returns (r: Option<VariableDeclaration>)
      ensures r.None?
    {
      return None;
    }

    method ParseParameters() returns (r: Option<Statement>)
      ensures r.None?
    {
      return None;
    }

    method ParseIfStatement() returns (r: Option<IfStatement>)
      ensures r.None?
    {
      return None;
    }

    method ParseForStatement() returns (r: Option<ForStatement>)
      ensures r.None?
    {
      return None;
    }

    method ParseWhileStatement() returns (r: Option<WhileStatement>)
      ensures r.None?
    {
      return None;
    }

    method ParseReturnStatement() returns (r: Option<ReturnStatement>)
      ensures r.None?
    {
      return None;
    }

    method ParseExpression() returns (r: Option<Expression>)
      ensures r.None?
    {
      return None;
    }

    method ParseConditionalExpression() returns (r: Option<Expression>)
      ensures r.None?
    {
      return None;
    }

    method ParseLogicalOrExpression() returns (r: Option<Expression>)
      ensures r.None?
    {
      return None;
    }

    method ParseLogicalAndExpression() returns (r: Option<Expression>)
      ensures r.None?
    {
      return None;
    }

    method ParseEqualityExpression() returns (r: Option<Expression>)
      ensures r.None?
    {
      return None;
    }

    method ParseRelationalExpression() returns (r: Option<Expression>)
      ensures r.None?
    {
      return None;
    }

    method ParseAdditiveExpression() returns (r: Option<Expression>)
      ensures r.None?
    {
      return None;
    }

    method ParseMultiplicativeExpression() returns (r: Option<Expression>)
      ensures r.None?
    {
      return None;
    }

    method ParseUnaryExpression() returns (r: Option<Expression>)
      ensures r.None?
    {
      return None;
    }

    method ParsePrimaryExpression() returns (r: Option<Expression>)
      ensures r.None?
    {
      return None;
    }

    method ParseLiteral() returns (r: Option<Expression>)
      ensures r.None?
    {
      return None;
    }
  }
}
