/**
 * The syntax tree (AST.h, AST.cpp). Each C++ class family becomes a datatype;
 * a subclass becomes a variant of its base's datatype, so an Expression is
 * usable wherever a Statement is (variant ExpressionStmt) and a Literal is an
 * Atom is an Expression. Every `std::unique_ptr` child may be null, hence
 * `Option`. Datatype values are finite trees, which is what exclusive
 * ownership through `unique_ptr` guarantees; the node constructors only store
 * their arguments, which is what a datatype constructor does.
 */
module Ast {
  import opened Wrappers

  /** The declared type tag: VOID = 0, BOOL, INT, FLOAT. */
  datatype Type = VOID | BOOL | INT | FLOAT

  /** Thirteen binary operators, COMA first. */
  datatype BinaryOp =
    | COMA
    | LOGICAL_OR
    | LOGICAL_AND
    | LOGICAL_EQUAL
    | LOGICAL_NOT_EQUAL
    | LESS
    | GREATER
    | LESS_EQUAL
    | GREATER_EQUAL
    | PLUS
    | MINUS
    | MULTIPLY
    | DIVIDE

  datatype UnaryOp = PRE_INCREMENT | PRE_DECREMENT | CAST

  /** C++ `int`. */
  newtype Int32 = x: int | -0x8000_0000 <= x < 0x8000_0000

  /** The bits of a C++ `float`; no code interprets them. */
  type Float32 = bv32

  datatype TypedId = TypedId(typ: Type, id: string)

  // Statement, DeclarationStatement, Atom and Literal can be instantiated
  // themselves in C++, but no code ever creates one, so they have no plain
  // variant; Expression does (`parse_expression_statement` creates one).
  datatype Statement =
    | CompoundStmt(compound: CompoundStatement)
    | DeclarationStmt(declaration: DeclarationStatement)
    | IfStmt(ifStatement: IfStatement)
    | ForStmt(forStatement: ForStatement)
    | WhileStmt(whileStatement: WhileStatement)
    | ReturnStmt(returnStatement: ReturnStatement)
    | ExpressionStmt(expression: Expression)

  /** Holds its statements in order; an element may be null. */
  datatype CompoundStatement = CompoundStatement(statements: seq<Option<Statement>>)

  datatype DeclarationStatement =
    | VariableDecl(variable: VariableDeclaration)
    | FunctionDecl(func: FunctionDeclaration)

  datatype VariableDeclaration =
    VariableDeclaration(typ: Type, id: string, initialValue: Option<Expression>)

  /** The body is specifically a compound statement. */
  datatype FunctionDeclaration =
    FunctionDeclaration(retType: Type, id: string, parameters: seq<TypedId>, body: Option<CompoundStatement>)

  datatype IfStatement = IfStatement(condition: Option<Expression>, body: Option<Statement>)

  /** The init slot is specifically a variable declaration. */
  datatype ForStatement =
    ForStatement(init: Option<VariableDeclaration>, condition: Option<Expression>,
                 step: Option<Expression>, body: Option<Statement>)

  datatype WhileStatement = WhileStatement(condition: Option<Expression>, body: Option<Statement>)

  datatype ReturnStatement = ReturnStatement(value: Option<Expression>)

  datatype Expression =
    | PlainExpression  // an instance of the base class itself
    | BinaryExpr(binary: BinaryExpression)
    | UnaryExpr(unary: UnaryExpression)
    | AtomExpr(atom: Atom)

  datatype BinaryExpression =
    BinaryExpression(op: BinaryOp, left: Option<Expression>, right: Option<Expression>)

  datatype UnaryExpression = UnaryExpression(op: UnaryOp, operand: Option<Expression>)

  datatype Atom =
    | IdAtom(id: string)
    | FuncCallAtom(id: string, arguments: seq<Option<Expression>>)
    | LiteralAtom(literal: Literal)

  datatype Literal =
    | IntLiteral(integer: Int32)
    | FloatLiteral(floating: Float32)
    | BoolLiteral(boolean: bool)

  /** The root; not a Statement. */
  datatype TranslationUnit = TranslationUnit(statements: seq<Option<Statement>>)
}
