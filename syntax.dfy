/** The syntax tree of the revision the parser files are written against:
    expressions, statements, binding patterns, function parts, loop heads
    and module declarations. Only the node shapes the parser files build or
    inspect are spelt out; every other form is `OtherExpr`/`OtherStmt`. */
module Syntax {
  import opened Wrappers
  import Tokens
  import Ast

  type Ident = Ast.Ident

  datatype SourceType = Script | Module | Unknown

  datatype AssignmentOperator =
    | Assign | AddAssign | SubtractAssign | MultiplyAssign | DivideAssign | ModulusAssign
    | PowerAssign | LeftShiftAssign | RightShiftAssign | UnsignedRightShiftAssign
    | BitwiseAndAssign | BitwiseXOrAssign | BitwiseOrAssign

  datatype Number = Integer(value: Tokens.i64, base: Tokens.Base) | Float(bits: bv64)

  datatype Expr =
    | IdentRef(ident: Ident)
    | Member(memberSpan: Tokens.Span, object: Expr, property: Ident)
    | Parenthesized(parenSpan: Tokens.Span, expression: Expr)
    | LiteralExpr(literalSpan: Tokens.Span, literal: Literal)
    | ArrowFunction(arrow: ExprArrowFunction)
    | Function(func: ExprFunction)
    | OtherExpr(otherSpan: Tokens.Span)

  datatype Literal =
    | Null
    | Boolean(boolean: bool)
    | StringLiteral(str: Tokens.LitString)
    | NumberLiteral(number: Tokens.Number)
    | ArrayLiteral(elements: seq<ArrayElement>)
    | ObjectLiteral(props: seq<PropertyDefinition>)

  datatype ArrayElement = Elision | Element(expr: Expr) | Spread(spread: Expr)

  datatype PropertyDefinition =
    | IdentProperty(ident: Ident)
    | SpreadProperty(spreadExpr: Expr)
    | MethodProperty(methodSpan: Tokens.Span)
    | NamedProperty(namedSpan: Tokens.Span, name: PropertyName, value: Expr)

  datatype PropertyName =
    | IdentName(identName: Ident)
    | StringName(stringName: Tokens.LitString)
    | NumberName(numberName: Tokens.Number)
    | Computed(computed: Expr)

  datatype ArrowFunctionBody = BlockBody(block: Body) | ExprBody(bodyExpr: Expr)

  datatype ExprArrowFunction = ExprArrowFunction(
    span: Tokens.Span, asynchronous: bool, bindingParameter: bool,
    parameters: FormalParameters, body: ArrowFunctionBody)

  datatype ExprFunction = ExprFunction(
    span: Tokens.Span, asynchronous: bool, generator: bool,
    identifier: Option<Ident>, parameters: FormalParameters, body: Body)

  /** A function body: its directive strings and, after them, its
      statements. */
  datatype Body = Body(span: Tokens.Span, directives: seq<string>, statements: seq<Stmt>)

  datatype FormalParameters = FormalParameters(
    span: Tokens.Span, bindings: seq<BindingElement>, rest: Option<BindingPattern>)

  datatype BindingElement = BindingElement(
    span: Tokens.Span, pattern: BindingPattern, initializer: Option<Expr>)

  datatype ObjectBindingProp = AssignProp(ident: Ident)

  datatype BindingPattern =
    | IdentPattern(ident: Ident)
    | ObjectPattern(objectSpan: Tokens.Span, props: seq<ObjectBindingProp>, objectRest: Option<Ident>)
    | ArrayPattern(arraySpan: Tokens.Span, elements: seq<Option<BindingElement>>, arrayRest: Option<Ident>)

  datatype VariableKind = Var | Let | Const

  datatype VariableDeclaration = VariableDeclaration(
    span: Tokens.Span, pattern: BindingPattern, initializer: Option<Expr>)

  datatype StmtVariable = StmtVariable(
    span: Tokens.Span, kind: VariableKind, declarations: seq<VariableDeclaration>)

  datatype ForInit = DeclarationInit(declaration: StmtVariable) | ExprInit(expr: Expr)

  datatype ForBinding = ForBinding(span: Tokens.Span, kind: VariableKind, binding: BindingPattern)

  /** An assignment pattern; its inner structure is built by a parser that
      is not part of this model. */
  datatype AssignmentPattern = AssignmentPattern(span: Tokens.Span)

  datatype ForDeclaration =
    | Declaration(forBinding: ForBinding)
    | PatternDeclaration(pattern: AssignmentPattern)
    | ExprDeclaration(expr: Expr)

  datatype NamedImport = NamedImport(span: Tokens.Span, name: Ident, alias: Option<Ident>)

  datatype NamedExport = NamedExport(span: Tokens.Span, name: Ident, aliasOf: Option<Ident>)

  datatype DeclExport =
    | ExportDecl(declSpan: Tokens.Span, decl: Stmt)
    | ExportNamespace(namespaceSpan: Tokens.Span, alias: Option<Ident>, namespaceFrom: string)
    | ExportNamed(namedSpan: Tokens.Span, namedExports: seq<NamedExport>, namedFrom: Option<string>)

  datatype DeclImport = DeclImport(
    span: Tokens.Span, defaultBinding: Option<Ident>, namespaceBinding: Option<Ident>,
    namedImports: Option<seq<NamedImport>>, from: string)

  datatype DeclFunction = DeclFunction(
    span: Tokens.Span, asynchronous: bool, generator: bool,
    identifier: Ident, parameters: FormalParameters, body: Body)

  datatype Stmt =
    | ExprStmt(exprSpan: Tokens.Span, expr: Expr)
    | VariableStmt(variable: StmtVariable)
    | FunctionDecl(functionDecl: DeclFunction)
    | DoWhile(doWhileSpan: Tokens.Span, doWhileBody: Stmt, doWhileTest: Expr)
    | While(whileSpan: Tokens.Span, whileTest: Expr, whileBody: Stmt)
    | For(forSpan: Tokens.Span, init: Option<ForInit>, test: Option<Expr>, update: Option<Expr>, forBody: Stmt)
    | ForIn(forInSpan: Tokens.Span, inLeft: ForDeclaration, inRight: Expr, forInBody: Stmt)
    | ForOf(forOfSpan: Tokens.Span, ofLeft: ForDeclaration, ofRight: Expr, forOfBody: Stmt, asynchronous: bool)
    | Export(exportDecl: DeclExport)
    | Import(importDecl: DeclImport)
    | OtherStmt(otherSpan: Tokens.Span)

  /** The statement list of a program: its directives, then its body. */
  datatype StmtList = StmtList(span: Tokens.Span, directives: seq<Tokens.LitString>, body: seq<Stmt>)

  datatype Program = Program(sourceType: SourceType, stmtList: StmtList)

  /** `Spanned::span` for the expression forms spelt out here. */
  function ExprSpan(e: Expr): Tokens.Span {
    match e
    case IdentRef(ident) => ident.span
    case Member(span, _, _) => span
    case Parenthesized(span, _) => span
    case LiteralExpr(span, _) => span
    case ArrowFunction(f) => f.span
    case Function(f) => f.span
    case OtherExpr(span) => span
  }

  /** `BindingPattern::get_bound_names`, defined outside the files of this
      model: the identifiers the pattern binds, left to right, each rest
      identifier after the elements before it. */
  function BoundNames(p: BindingPattern): seq<string>
    decreases p, 1
  {
    match p
    case IdentPattern(ident) => [ident.name]
    case ObjectPattern(_, props, rest) =>
      PropNames(props) + (if rest.Some? then [rest.value.name] else [])
    case ArrayPattern(_, elements, rest) =>
      ElementNames(p, elements) + (if rest.Some? then [rest.value.name] else [])
  }

  function PropNames(props: seq<ObjectBindingProp>): seq<string> {
    if props == [] then [] else [props[0].ident.name] + PropNames(props[1..])
  }

  function ElementNames(ghost parent: BindingPattern, elements: seq<Option<BindingElement>>): seq<string>
    requires parent.ArrayPattern? && elements <= parent.elements
    decreases parent, 0, |elements|
  {
    if elements == [] then []
    else
      var last := elements[|elements| - 1];
      assert last in parent.elements;
      ElementNames(parent, elements[..|elements| - 1])
      + (if last.Some? then BoundNames(last.value.pattern) else [])
  }
}
