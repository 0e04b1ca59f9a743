/**
 * Whole files through the tokenizer and the parser, as `Parser::parse` sees
 * them after the constructor has primed the first token.
 */
module Pipeline {
  import opened Wrappers
  import opened Tokens
  import opened Ast
  import LexSpec
  import opened ParseSpec
  import ParseFacts

  /**
   * A file holding only `{`: the compound statement is closed by the end of
   * file, reported at the
   * position of the brace itself, since reading the end of file moves no
   * column, and the translation unit holds it.
   */
  lemma LoneOpeningBrace()
    ensures LexSpec.Lex("{") == Some([TokenValue(LEFT_BRACE, "", Position(1, 1)), TokenValue(EOS, "", Position(1, 1))])
    ensures ParseTranslationUnit(LexSpec.Lex("{").value, [])
      == Done(TranslationUnit([Some(CompoundStmt(CompoundStatement([])))]),
              [TokenValue(EOS, "", Position(1, 1))],
              [Diagnostic(Position(1, 1), "Unexpected end of file")])
  {
    var open := TokenValue(LEFT_BRACE, "", Position(1, 1));
    var end := TokenValue(EOS, "", Position(1, 1));
    assert LexSpec.ScanRaw("{", 0) == LexSpec.Raw(LEFT_BRACE, "", 1);
    assert LexSpec.NextToken("{", 0, DefaultToken) == Some((open, 1));
    assert LexSpec.NextToken("{", 1, open) == Some((end, 1));
    assert LexSpec.TokenStream("{", 1, end) == Some([end]);
    assert LexSpec.TokenStream("{", 1, open) == Some([open] + [end]);
    assert [open] + [end] == [open, end];
    ParseLoneOpeningBrace(open, end);
  }

  lemma ParseLoneOpeningBrace(open: TokenValue, end: TokenValue)
    requires open.kind == LEFT_BRACE && end.kind == EOS
    ensures ParseTranslationUnit([open, end], [])
      == Done(TranslationUnit([Some(CompoundStmt(CompoundStatement([])))]), [end],
              [Diagnostic(end.pos, "Unexpected end of file")])
  {
    var toks := [open, end];
    var d := [Diagnostic(end.pos, "Unexpected end of file")];
    var stmt := Some(CompoundStmt(CompoundStatement([])));
    ParseFacts.UnclosedBraceReportsNextPosition(toks, []);
    assert ParseStatement(toks, []) == Done(stmt, [end], d);
    ParseFacts.TranslationUnitStep([end], d, [stmt]);
    assert [] + [stmt] == [stmt];
    assert TranslationUnitLoop(toks, [], []) == TranslationUnitLoop([end], d, [stmt]);
  }
}
