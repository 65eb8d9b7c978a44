/** The parser's token cursor, its context flags, and the parsing routines
    of the parser's main file: identifiers, property names, list
    delimiters, the directive prologue and whole programs.

    Every parsing routine has two forms: a specification function `XAt`
    over the token items and a start index, which says what the routine
    yields and where it leaves the cursor, and a method over a `Parser`
    object that performs the same steps on the cursor and is proved to
    agree with the function. */
module ParserCore {
  import opened Wrappers
  import Tokens
  import Ast
  import Errors
  import Syntax

  type Error = Errors.Error
  type Token = Tokens.Token

  /** What the lexer delivers at one place of the token stream: a token,
      or the error it raised there. */
  datatype Item = Tok(token: Token) | Bad(error: Tokens.LexError)

  function ItemEnd(item: Item): nat {
    match item
    case Tok(t) => t.span.end
    case Bad(e) => e.span.end
  }

  /** The reader's read position once `i` items have been consumed: the end
      of the last consumed item, or 0 at the start. */
  function ReaderPosition(items: seq<Item>, i: nat): nat
    requires i <= |items|
  {
    if i == 0 then 0 else ItemEnd(items[i - 1])
  }

  // ---------------------------------------------------------------------
  // Results of parsing routines

  /** The outcome of a parsing routine started at some index: its result
      and the index where it leaves the cursor, or `Unsupported` where the
      source gives up (`todo!`, `unimplemented!`, a failed `unwrap`). */
  datatype Step<+T> = Done(result: Result<T, Error>, next: nat) | Unsupported
  {
    predicate IsFailure() {
      Unsupported? || result.Err?
    }

    function PropagateFailure<U>(): Step<U>
      requires IsFailure()
    {
      if Unsupported? then Unsupported else Done(Err(result.error), next)
    }

    function Extract(): Parsed<T>
      requires !IsFailure()
    {
      Parsed(result.value, next)
    }

    predicate Ok() {
      Done? && result.Ok?
    }

    /** The step stays within `[i, |items|]`. */
    predicate Within(i: nat, n: nat) {
      Done? ==> i <= next <= n
    }
  }

  datatype Parsed<+T> = Parsed(value: T, next: nat)

  function MapStep<T, U>(s: Step<T>, f: T -> U): (r: Step<U>)
    ensures r.Unsupported? <==> s.Unsupported?
    ensures r.Done? ==> r.next == s.next && (r.result.Ok? <==> s.result.Ok?)
    ensures r.Ok() ==> r.result.value == f(s.result.value)
    ensures r.Done? && r.result.Err? ==> r.result.error == s.result.error
  {
    match s
    case Unsupported => Unsupported
    case Done(Ok(v), n) => Done(Ok(f(v)), n)
    case Done(Err(e), n) => Done(Err(e), n)
  }

  // ---------------------------------------------------------------------
  // `ThenTry`

  /** `bool::then_try`: `Ok(None)` without running `f` when the condition
      is false, `f().map(Some)` when it is true. */
  function ThenTry<T>(cond: bool, f: () -> Result<T, Error>): (r: Result<Option<T>, Error>)
    ensures !cond ==> r == Ok(None)
    ensures cond ==> (r.Ok? <==> f().Ok?)
    ensures cond && r.Ok? ==> r.value == Some(f().value)
    ensures cond && r.Err? ==> r.error == f().error
  {
    if cond then
      match f()
      case Ok(v) => Ok(Some(v))
      case Err(e) => Err(e)
    else Ok(None)
  }

  /** `then_try` with a closure that runs a parsing routine at `i`: when the
      condition is false nothing is consumed. */
  function ThenTryStep<T>(cond: bool, i: nat, run: Step<T>): (r: Step<Option<T>>)
    ensures !cond ==> r == Done(Ok(None), i)
    ensures cond ==> r == MapStep(run, (v: T) => Some(v))
  {
    if cond then MapStep(run, (v: T) => Some(v)) else Done(Ok(None), i)
  }

  // ---------------------------------------------------------------------
  // Context

  /** The parser context: the grammar parameters `[Await]`, `[Yield]`,
      `[In]`, strict mode code and `[Default]`. */
  datatype Context = Context(isAwait: bool, isYield: bool, isIn: bool, isStrict: bool, isDefault: bool)
  {
    /** `with_await`: only `isAwait` changes. */
    function WithAwait(isAwait: bool): (r: Context)
      ensures r.isAwait == isAwait && r.isYield == this.isYield && r.isIn == this.isIn
      ensures r.isStrict == this.isStrict && r.isDefault == this.isDefault
    {
      this.(isAwait := isAwait)
    }

    /** `with_yield`: only `isYield` changes. */
    function WithYield(isYield: bool): (r: Context)
      ensures r.isYield == isYield && r.isAwait == this.isAwait && r.isIn == this.isIn
      ensures r.isStrict == this.isStrict && r.isDefault == this.isDefault
    {
      this.(isYield := isYield)
    }

    /** `with_in`: only `isIn` changes. */
    function WithIn(isIn: bool): (r: Context)
      ensures r.isIn == isIn && r.isAwait == this.isAwait && r.isYield == this.isYield
      ensures r.isStrict == this.isStrict && r.isDefault == this.isDefault
    {
      this.(isIn := isIn)
    }

    /** `with_strict`: only `isStrict` changes. */
    function WithStrict(isStrict: bool): (r: Context)
      ensures r.isStrict == isStrict && r.isAwait == this.isAwait && r.isYield == this.isYield
      ensures r.isIn == this.isIn && r.isDefault == this.isDefault
    {
      this.(isStrict := isStrict)
    }

    /** `with_default`: only `isDefault` changes. */
    function WithDefault(isDefault: bool): (r: Context)
      ensures r.isDefault == isDefault && r.isAwait == this.isAwait && r.isYield == this.isYield
      ensures r.isIn == this.isIn && r.isStrict == this.isStrict
    {
      this.(isDefault := isDefault)
    }

    /** `keyword_context`: AWAIT, YIELD and STRICT exactly for the flags
        that are set, and no other bit. */
    function KeywordContext(): (r: Tokens.KeywordContext)
      ensures Tokens.Contains(r, Tokens.AWAIT) <==> isAwait
      ensures Tokens.Contains(r, Tokens.YIELD) <==> isYield
      ensures Tokens.Contains(r, Tokens.STRICT) <==> isStrict
      ensures r & !(Tokens.AWAIT | Tokens.YIELD | Tokens.STRICT) == 0
    {
      var k0 := Tokens.EMPTY;
      var k1 := if isAwait then k0 | Tokens.AWAIT else k0;
      var k2 := if isYield then k1 | Tokens.YIELD else k1;
      if isStrict then k2 | Tokens.STRICT else k2
    }
  }

  const DefaultContext := Context(false, false, false, false, false)

  /** The `[In]` and `[Default]` parameters never affect which words are
      reserved. */
  lemma KeywordContextIgnoresInAndDefault(c: Context, isIn: bool, isDefault: bool)
    ensures c.WithIn(isIn).WithDefault(isDefault).KeywordContext() == c.KeywordContext()
  {
  }

  /** Modifiers of different flags commute, and a second modifier of the
      same flag overrides the first. */
  lemma ContextModifiersCommute(c: Context, a: bool, b: bool)
    ensures c.WithAwait(a).WithYield(b) == c.WithYield(b).WithAwait(a)
    ensures c.WithIn(a).WithStrict(b) == c.WithStrict(b).WithIn(a)
    ensures c.WithAwait(a).WithAwait(b) == c.WithAwait(b)
    ensures c.WithIn(a).WithIn(b) == c.WithIn(b)
  {
  }

  // ---------------------------------------------------------------------
  // Cursor queries

  /** `current`: the token under the cursor; a lexer error there, or the
      end of the stream at the current read position. */
  function CurrentAt(items: seq<Item>, i: nat): (r: Result<Token, Error>)
    requires i <= |items|
    ensures r.Ok? <==> i < |items| && items[i].Tok?
    ensures r.Ok? ==> r.value == items[i].token
    ensures i == |items| ==> r == Err(Errors.EndOfStreamAt(ReaderPosition(items, i)))
    ensures i < |items| && items[i].Bad? ==> r == Err(Errors.FromLexError(items[i].error))
  {
    if i == |items| then Err(Errors.EndOfStreamAt(ReaderPosition(items, i)))
    else match items[i]
      case Tok(t) => Ok(t)
      case Bad(e) => Err(Errors.FromLexError(e))
  }

  /** `current()?` as a step that consumes nothing. */
  function CurrentStep(items: seq<Item>, i: nat): (r: Step<Token>)
    requires i <= |items|
    ensures r.Done? && r.next == i && r.result == CurrentAt(items, i)
  {
    Done(CurrentAt(items, i), i)
  }

  /** `consume`: yields what `current` yields and moves past it; at the end
      of the stream the cursor stays put. */
  function ConsumeAt(items: seq<Item>, i: nat): (r: Step<Token>)
    requires i <= |items|
    ensures r.Done? && r.result == CurrentAt(items, i)
    ensures r.next == if i < |items| then i + 1 else i
  {
    Done(CurrentAt(items, i), if i < |items| then i + 1 else i)
  }

  /** `peek`: the token after the current one, if there is one. */
  function PeekAt(items: seq<Item>, i: nat): (r: Option<Token>)
    ensures r.Some? <==> i + 1 < |items| && items[i + 1].Tok?
    ensures r.Some? ==> r.value == items[i + 1].token
  {
    if i + 1 < |items| && items[i + 1].Tok? then Some(items[i + 1].token) else None
  }

  /** `position`: where the current token starts, or the read position
      when there is no current token. */
  function PositionAt(items: seq<Item>, i: nat): (r: nat)
    requires i <= |items|
    ensures CurrentAt(items, i).Ok? ==> r == items[i].token.span.start
    ensures CurrentAt(items, i).Err? ==> r == ReaderPosition(items, i)
  {
    match CurrentAt(items, i)
    case Ok(t) => t.span.start
    case Err(_) => ReaderPosition(items, i)
  }

  /** `span_from`: from `start` to the current read position. */
  function SpanFrom(items: seq<Item>, i: nat, start: nat): (r: Tokens.Span)
    requires i <= |items|
    ensures r.start == start && r.end == ReaderPosition(items, i)
  {
    Tokens.Span(start, ReaderPosition(items, i))
  }

  /** `current_matches`: false at the end of the stream and on a lexer
      error. */
  predicate CurrentMatches(items: seq<Item>, i: nat, value: Tokens.TokenValue)
    requires i <= |items|
  {
    CurrentAt(items, i).Ok? && CurrentAt(items, i).value.value == value
  }

  /** `current_matches_string_literal`. */
  predicate CurrentMatchesStringLiteral(items: seq<Item>, i: nat)
    requires i <= |items|
  {
    CurrentAt(items, i).Ok? && CurrentAt(items, i).value.value.LiteralValue?
    && CurrentAt(items, i).value.value.literal.StringLiteral?
  }

  /** `peek_matches`. */
  predicate PeekMatches(items: seq<Item>, i: nat, value: Tokens.TokenValue) {
    PeekAt(items, i).Some? && PeekAt(items, i).value.value == value
  }

  /** `followed_by_new_lined`: the next token starts a line. */
  predicate FollowedByNewLined(items: seq<Item>, i: nat) {
    PeekAt(items, i).Some? && PeekAt(items, i).value.firstOnLine
  }

  /** The free function `is_identifier`: identifier tokens, and keywords
      the keyword context lets act as identifiers. */
  function IsIdentifier(token: Option<Token>, kc: Tokens.KeywordContext): (r: bool)
    ensures token.None? ==> !r
    ensures token.Some? && token.value.value.Identifier? ==> r
    ensures token.Some? && token.value.value.KeywordValue? ==>
              (r <==> Tokens.IsAllowedAsIdentifier(token.value.value.keyword, kc))
    ensures r ==> token.Some? && (token.value.value.Identifier? || token.value.value.KeywordValue?)
  {
    match token
    case Some(Token(Identifier(_), _, _)) => true
    case Some(Token(KeywordValue(keyword), _, _)) => Tokens.IsAllowedAsIdentifier(keyword, kc)
    case _ => false
  }

  /** `Parser::is_identifier`: the current token, if any, is an identifier
      in the context's keyword context. */
  predicate IsIdentifierAt(items: seq<Item>, i: nat, ctx: Context)
    requires i <= |items|
  {
    IsIdentifier(if CurrentAt(items, i).Ok? then Some(CurrentAt(items, i).value) else None,
                 ctx.KeywordContext())
  }

  /** `peek_is_identifier`. */
  predicate PeekIsIdentifier(items: seq<Item>, i: nat, ctx: Context) {
    IsIdentifier(PeekAt(items, i), ctx.KeywordContext())
  }

  // ---------------------------------------------------------------------
  // Cursor steps

  const Comma := Tokens.PunctValue(Tokens.Comma)

  /** `consume_assert`: always consumes one token; fails unless it is the
      expected one. */
  function ConsumeAssertAt(items: seq<Item>, i: nat, expected: Tokens.TokenValue): (r: Step<Token>)
    requires i <= |items|
    ensures r.Done? && r.next == (if i < |items| then i + 1 else i)
    ensures r.result.Ok? <==> CurrentMatches(items, i, expected)
    ensures r.result.Ok? ==> r.result.value == items[i].token
    ensures CurrentAt(items, i).Ok? && !r.result.Ok? ==>
              r.result.error == Errors.ExpectedOtherToken(items[i].token, expected)
  {
    var t :- ConsumeAt(items, i);
    if t.value.value != expected then Done(Err(Errors.ExpectedOtherToken(t.value, expected)), t.next)
    else Done(Ok(t.value), t.next)
  }

  /** `maybe_consume`: consumes the current token exactly when it matches,
      and reports whether it did; it never fails. */
  function MaybeConsumeAt(items: seq<Item>, i: nat, value: Tokens.TokenValue): (r: Step<bool>)
    requires i <= |items|
    ensures r.Ok() && r.result.value == CurrentMatches(items, i, value)
    ensures r.next == if r.result.value then i + 1 else i
  {
    if CurrentMatches(items, i, value) then
      var c := ConsumeAt(items, i);
      Done(Ok(true), c.next)
    else Done(Ok(false), i)
  }

  /** `consume_list_delimiter`: consumes a `,`; leaves the list end in
      place; anything else is consumed and reported as "expected `,`". */
  function ConsumeListDelimiterAt(items: seq<Item>, i: nat, listEnd: Tokens.TokenValue): (r: Step<()>)
    requires i <= |items|
    ensures r.Done?
    ensures r.result.Ok? <==> CurrentMatches(items, i, Comma) || CurrentMatches(items, i, listEnd)
    ensures CurrentMatches(items, i, Comma) ==> r.next == i + 1
    ensures !CurrentMatches(items, i, Comma) && CurrentMatches(items, i, listEnd) ==> r.next == i
    ensures !r.result.Ok? ==> r.next == (if i < |items| then i + 1 else i)
    ensures !r.result.Ok? && CurrentAt(items, i).Ok? ==>
              r.result.error == Errors.ExpectedOtherToken(items[i].token, Comma)
  {
    var m := MaybeConsumeAt(items, i, Comma);
    if !m.result.value && !CurrentMatches(items, m.next, listEnd) then
      var t :- ConsumeAt(items, m.next);
      Done(Err(Errors.ExpectedOtherToken(t.value, Comma)), t.next)
    else Done(Ok(()), m.next)
  }

  const ArrayEnd := Tokens.PunctValue(Tokens.BraceClose)
  const ObjectEnd := Tokens.PunctValue(Tokens.BracketClose)
  const ParameterEnd := Tokens.PunctValue(Tokens.ParenClose)

  const VarKeyword := Tokens.KeywordValue(Tokens.Var)
  const LetKeyword := Tokens.KeywordValue(Tokens.Let)
  const ConstKeyword := Tokens.KeywordValue(Tokens.Const)

  /** The variable kind a keyword token starts, if any; `let` is taken
      without looking further. */
  function VariableKindOf(v: Tokens.TokenValue): (r: Option<Syntax.VariableKind>)
    ensures r == Some(Syntax.Var) <==> v == VarKeyword
    ensures r == Some(Syntax.Let) <==> v == LetKeyword
    ensures r == Some(Syntax.Const) <==> v == ConstKeyword
  {
    if v == VarKeyword then Some(Syntax.Var)
    else if v == LetKeyword then Some(Syntax.Let)
    else if v == ConstKeyword then Some(Syntax.Const)
    else None
  }

  // ---------------------------------------------------------------------
  // Identifiers

  /** `parse_identifier`: consumes one token. An identifier token, or a
      keyword the context allows, becomes an identifier with the token's
      span; a disallowed keyword is a forbidden identifier; anything else
      is "expected identifier". It succeeds exactly where `is_identifier`
      holds. */
  function ParseIdentifierAt(items: seq<Item>, i: nat, ctx: Context): (r: Step<Ast.Ident>)
    requires i <= |items|
    ensures r.Done? && r.next == (if i < |items| then i + 1 else i)
    ensures r.result.Ok? <==> IsIdentifierAt(items, i, ctx)
    ensures r.result.Ok? ==> r.result.value.span == items[i].token.span
    ensures r.result.Ok? && items[i].token.value.Identifier? ==>
              r.result.value.name == items[i].token.value.name
    ensures r.result.Ok? && items[i].token.value.KeywordValue? ==>
              r.result.value.name == Tokens.KeywordText(items[i].token.value.keyword)
  {
    var t :- ConsumeAt(items, i);
    var token := t.value;
    match token.value
    case Identifier(s) => Done(Ok(Ast.NewIdent(s, token.span)), t.next)
    case KeywordValue(keyword) =>
      if Tokens.IsAllowedAsIdentifier(keyword, ctx.KeywordContext()) then
        Done(Ok(Ast.NewIdent(Tokens.KeywordText(keyword), token.span)), t.next)
      else Done(Err(Errors.ForbiddenIdentifierOf(Tokens.KeywordText(keyword), token.span)), t.next)
    case _ => Done(Err(Errors.ExpectedIdentOf(token)), t.next)
  }

  /** How `parse_identifier` fails on a token that is there: a keyword
      not accepted in the context is reported as forbidden, by its text;
      any other non-identifier token as "expected identifier". */
  lemma ParseIdentifierErrors(items: seq<Item>, i: nat, ctx: Context)
    requires i <= |items|
    ensures var r := ParseIdentifierAt(items, i, ctx);
            (CurrentAt(items, i).Ok? && items[i].token.value.KeywordValue? && !r.result.Ok? ==>
               r.result.error == Errors.ForbiddenIdentifierOf(
                 Tokens.KeywordText(items[i].token.value.keyword), items[i].token.span))
            && (CurrentAt(items, i).Ok? && !items[i].token.value.KeywordValue?
                && !items[i].token.value.Identifier? ==>
                  r.result == Err(Errors.ExpectedIdentOf(items[i].token)))
  {
  }

  /** `parse_optional_identifier`: an identifier if the current token is
      one, else `None` with nothing consumed; it never fails. */
  function ParseOptionalIdentifierAt(items: seq<Item>, i: nat, ctx: Context): (r: Step<Option<Ast.Ident>>)
    requires i <= |items|
    ensures r.Ok()
    ensures r.result.value.Some? <==> IsIdentifierAt(items, i, ctx)
    ensures r.result.value.Some? ==>
              r.next == i + 1 && ParseIdentifierAt(items, i, ctx) == Done(Ok(r.result.value.value), i + 1)
    ensures r.result.value.None? ==> r.next == i
  {
    if IsIdentifierAt(items, i, ctx) then MapStep(ParseIdentifierAt(items, i, ctx), (id: Ast.Ident) => Some(id))
    else Done(Ok(None), i)
  }

  // ---------------------------------------------------------------------
  // Sub-parsers whose bodies are not part of this model

  type Routine<T> = (seq<Item>, nat, Context) -> Step<T>

  /** `f` stays within the items and, when it succeeds, consumes at least
      `least` tokens. */
  ghost predicate Advances<T>(f: Routine<T>, least: nat) {
    forall items: seq<Item>, i: nat, ctx: Context {:trigger f(items, i, ctx)} ::
      i <= |items| ==> f(items, i, ctx).Within(i, |items|)
                       && (f(items, i, ctx).Ok() ==> i + least <= f(items, i, ctx).next)
  }

  /** The parsing routines the modelled files call but whose bodies are not
      part of this model: expressions and statements, the statement list,
      literals, variable declarations and statements, parenthesized
      expressions and arrow functions of the cover grammar, call
      expressions, template literal parts, the optional semicolon, the
      lexical-binding look-ahead and the left-hand-side early errors. */
  datatype SubParsers = SubParsers(
    expr: Routine<Syntax.Expr>,
    assignmentExpr: Routine<Syntax.Expr>,
    leftHandSideExpr: Routine<Syntax.Expr>,
    assignmentPattern: Routine<Syntax.AssignmentPattern>,
    stmt: Routine<Syntax.Stmt>,
    allStmts: Routine<seq<Syntax.Stmt>>,
    literal: Routine<Syntax.Expr>,
    variableDeclarations: Routine<seq<Syntax.VariableDeclaration>>,
    variableStmt: (seq<Item>, nat, Context, Syntax.VariableKind) -> Step<Syntax.Stmt>,
    parenthesizedExpr: Routine<Syntax.Expr>,
    arrowFunction: Routine<Syntax.Expr>,
    asyncArrowFunction: Routine<Syntax.Expr>,
    callExpr: (seq<Item>, nat, Context, nat, Syntax.Expr) -> Step<Syntax.Expr>,
    templateParts: Routine<()>,
    optionalSemicolon: Routine<()>,
    lexicalBinding: (seq<Item>, nat) -> bool,
    lhsEarlyErrors: (Syntax.Expr, Context) -> Option<Error>)
  {
    /** Every routine stays within the items; every routine that parses a
        non-empty production consumes at least one token when it succeeds. */
    ghost predicate Valid() {
      Advances(expr, 1) && Advances(assignmentExpr, 1) && Advances(leftHandSideExpr, 1)
      && Advances(assignmentPattern, 1) && Advances(stmt, 1) && Advances(allStmts, 0)
      && Advances(literal, 1) && Advances(variableDeclarations, 1)
      && Advances(parenthesizedExpr, 1) && Advances(arrowFunction, 1)
      && Advances(asyncArrowFunction, 1) && Advances(templateParts, 0)
      && Advances(optionalSemicolon, 0)
      && (forall items: seq<Item>, i: nat, ctx: Context, kind: Syntax.VariableKind
            {:trigger variableStmt(items, i, ctx, kind)} ::
            i <= |items| ==> variableStmt(items, i, ctx, kind).Within(i, |items|)
                             && (variableStmt(items, i, ctx, kind).Ok() ==> i < variableStmt(items, i, ctx, kind).next))
      && (forall items: seq<Item>, i: nat, ctx: Context, start: nat, callee: Syntax.Expr
            {:trigger callExpr(items, i, ctx, start, callee)} ::
            i <= |items| ==> callExpr(items, i, ctx, start, callee).Within(i, |items|))
    }
  }

  // ---------------------------------------------------------------------
  // Property names, directives and programs

  /** `[` and `]`: the lexer's `BraceOpen` and `BraceClose` are the square
      brackets (curly braces are `BracketOpen` and `BracketClose` there). */
  const SquareOpenValue := Tokens.PunctValue(Tokens.BraceOpen)
  const SquareCloseValue := Tokens.PunctValue(Tokens.BraceClose)

  /** `parse_property_name`: a string or number literal, a computed name
      `[ AssignmentExpression ]`, or an identifier; any other token, other
      literals included, is consumed and reported as unexpected. */
  function ParsePropertyNameAt(items: seq<Item>, sub: SubParsers, ctx: Context, i: nat): (r: Step<Syntax.PropertyName>)
    requires sub.Valid() && i <= |items|
    ensures r.Within(i, |items|)
    ensures r.Ok() ==> i < r.next
    ensures r.Ok() && CurrentAt(items, i).Ok? && items[i].token.value.LiteralValue? ==>
              r.next == i + 1
              && (items[i].token.value.literal.StringLiteral? ==>
                    r.result.value == Syntax.StringName(items[i].token.value.literal.str))
              && (items[i].token.value.literal.NumberLiteral? ==>
                    r.result.value == Syntax.NumberName(items[i].token.value.literal.number))
    ensures CurrentAt(items, i).Ok? && items[i].token.value.LiteralValue?
            && items[i].token.value.literal.RegexpLiteral? ==>
              r == Done(Err(Errors.UnexpectedTokenOf(items[i].token)), i + 1)
    ensures r.Ok() && r.result.value.IdentName? ==> IsIdentifierAt(items, i, ctx) && r.next == i + 1
    ensures r.Ok() && r.result.value.Computed? ==> CurrentMatches(items, i, SquareOpenValue)
    ensures r.Done? && CurrentAt(items, i).Err? ==> r == Done(Err(CurrentAt(items, i).error), i)
  {
    var c :- CurrentStep(items, i);
    var token := c.value;
    if token.value.LiteralValue? then
      match token.value.literal
      case StringLiteral(s) => Done(Ok(Syntax.StringName(s)), i + 1)
      case NumberLiteral(n) => Done(Ok(Syntax.NumberName(n)), i + 1)
      case _ => Done(Err(Errors.UnexpectedTokenOf(token)), i + 1)
    else if token.value == SquareOpenValue then
      var open :- ConsumeAt(items, i);
      var e :- sub.assignmentExpr(items, open.next, ctx);
      var close :- ConsumeAssertAt(items, e.next, SquareCloseValue);
      Done(Ok(Syntax.Computed(e.value)), close.next)
    else if IsIdentifierAt(items, i, ctx) then
      MapStep(ParseIdentifierAt(items, i, ctx), (id: Ast.Ident) => Syntax.IdentName(id))
    else Done(Err(Errors.UnexpectedTokenOf(token)), i + 1)
  }

  /** A token that is neither a literal nor `[`: an identifier in the
      context becomes an identifier name read by `parse_identifier`; any
      other token is consumed and reported as unexpected. */
  lemma PropertyNameFull(items: seq<Item>, sub: SubParsers, ctx: Context, i: nat)
    requires sub.Valid() && i < |items| && CurrentAt(items, i).Ok?
    requires !items[i].token.value.LiteralValue? && items[i].token.value != SquareOpenValue
    ensures IsIdentifierAt(items, i, ctx) ==>
              ParsePropertyNameAt(items, sub, ctx, i)
              == Done(Ok(Syntax.IdentName(ParseIdentifierAt(items, i, ctx).result.value)), i + 1)
    ensures !IsIdentifierAt(items, i, ctx) ==>
              ParsePropertyNameAt(items, sub, ctx, i) == Done(Err(Errors.UnexpectedTokenOf(items[i].token)), i + 1)
  {
  }

  /** A computed name: the assignment expression read after `[`, closed by
      `]`. It succeeds exactly when the expression does and a `]` follows
      it; a missing `]` is "expected `]`" on the token found instead. */
  lemma PropertyNameComputed(items: seq<Item>, sub: SubParsers, ctx: Context, i: nat)
    requires sub.Valid() && i < |items| && CurrentMatches(items, i, SquareOpenValue)
    ensures var r := ParsePropertyNameAt(items, sub, ctx, i);
            var e := sub.assignmentExpr(items, i + 1, ctx);
            && (r.Ok() <==> e.Ok() && CurrentMatches(items, e.next, SquareCloseValue))
            && (e.Unsupported? ==> r.Unsupported?)
            && (e.Done? && e.result.Err? ==> r == Done(Err(e.result.error), e.next))
            && (e.Ok() && e.next < |items| && CurrentAt(items, e.next).Ok?
                && !CurrentMatches(items, e.next, SquareCloseValue) ==>
                  r == Done(Err(Errors.ExpectedOtherToken(items[e.next].token, SquareCloseValue)), e.next + 1))
            && (r.Ok() ==> r.result.value.Computed?
                           && e == Done(Ok(r.result.value.computed), r.next - 1)
                           && CurrentMatches(items, r.next - 1, SquareCloseValue))
  {
  }

  /** The directive a statement stands for: an expression statement made of
      a string literal alone. */
  function AsDirective(stmt: Syntax.Stmt): Option<Tokens.LitString> {
    match stmt
    case ExprStmt(_, LiteralExpr(_, StringLiteral(s))) => Some(s)
    case _ => None
  }

  /** `parse_directive_prologue`: statements are parsed while the current
      token is a string literal; each must be a directive (the source
      unwraps it, so any other statement is unsupported). The directives
      come back in source order, and the prologue ends at the first token
      that is not a string literal. */
  function DirectivePrologueAt(items: seq<Item>, sub: SubParsers, ctx: Context, i: nat): (r: Step<seq<Tokens.LitString>>)
    requires sub.Valid() && i <= |items|
    ensures r.Within(i, |items|)
    ensures r.Ok() ==> !CurrentMatchesStringLiteral(items, r.next)
    ensures r.Ok() && r.result.value == [] ==> r.next == i
    ensures !CurrentMatchesStringLiteral(items, i) ==> r == Done(Ok([]), i)
    decreases |items| - i
  {
    if !CurrentMatchesStringLiteral(items, i) then Done(Ok([]), i)
    else
      var s :- sub.stmt(items, i, ctx);
      match AsDirective(s.value)
      case None => Unsupported
      case Some(directive) =>
        var rest :- DirectivePrologueAt(items, sub, ctx, s.next);
        Done(Ok([directive] + rest.value), rest.next)
  }

  /** Some directive is exactly "use strict". */
  predicate HasUseStrict(directives: seq<Tokens.LitString>) {
    exists k :: 0 <= k < |directives| && directives[k].value == "use strict"
  }

  /** `Parse for Program`: the directive prologue, then every statement,
      parsed in strict mode when some directive is "use strict"; the span
      runs from the first token to the read position after the last. */
  function ProgramAt(items: seq<Item>, sub: SubParsers, ctx: Context, sourceType: Syntax.SourceType, i: nat)
    : (r: Step<Syntax.Program>)
    requires sub.Valid() && i <= |items|
    ensures r.Within(i, |items|)
    ensures r.Ok() ==>
              var d := DirectivePrologueAt(items, sub, ctx, i);
              d.Ok() && r.result.value.stmtList.directives == d.result.value
              && var bodyCtx := if HasUseStrict(d.result.value) then ctx.WithStrict(true) else ctx;
              sub.allStmts(items, d.next, bodyCtx) == Done(Ok(r.result.value.stmtList.body), r.next)
              && r.result.value.sourceType == sourceType
              && r.result.value.stmtList.span == Tokens.Span(PositionAt(items, i), ReaderPosition(items, r.next))
  {
    var spanStart := PositionAt(items, i);
    var d :- DirectivePrologueAt(items, sub, ctx, i);
    var strict := HasUseStrict(d.value);
    var body :- sub.allStmts(items, d.next, if strict then ctx.WithStrict(true) else ctx);
    Done(Ok(Syntax.Program(sourceType, Syntax.StmtList(SpanFrom(items, body.next, spanStart), d.value, body.value))),
         body.next)
  }

  /** A successful program parses its body in strict mode exactly when the
      prologue holds "use strict", in particular when it starts with it. */
  lemma UseStrictMakesBodyStrict(items: seq<Item>, sub: SubParsers, ctx: Context, sourceType: Syntax.SourceType, i: nat)
    requires sub.Valid() && i <= |items|
    requires ProgramAt(items, sub, ctx, sourceType, i).Ok()
    ensures var r := ProgramAt(items, sub, ctx, sourceType, i);
            var d := DirectivePrologueAt(items, sub, ctx, i);
            var body := Done(Ok(r.result.value.stmtList.body), r.next);
            d.Ok()
            && (d.result.value != [] && d.result.value[0].value == "use strict" ==>
                  sub.allStmts(items, d.next, ctx.WithStrict(true)) == body)
            && (HasUseStrict(d.result.value) ==> sub.allStmts(items, d.next, ctx.WithStrict(true)) == body)
            && (!HasUseStrict(d.result.value) ==> sub.allStmts(items, d.next, ctx) == body)
  {
    var d := DirectivePrologueAt(items, sub, ctx, i);
    if d.result.value != [] && d.result.value[0].value == "use strict" {
      assert HasUseStrict(d.result.value);
    }
  }

  /** A non-empty prologue starts with a string-literal statement parsed by
      the statement routine; its directive is the first one, and the rest
      of the prologue is read after that statement. */
  lemma DirectivePrologueSplits(items: seq<Item>, sub: SubParsers, ctx: Context, i: nat)
    requires sub.Valid() && i <= |items|
    requires DirectivePrologueAt(items, sub, ctx, i).Ok()
    requires DirectivePrologueAt(items, sub, ctx, i).result.value != []
    ensures var r := DirectivePrologueAt(items, sub, ctx, i);
            var s := sub.stmt(items, i, ctx);
            CurrentMatchesStringLiteral(items, i) && s.Ok() && i < s.next <= |items|
            && AsDirective(s.result.value) == Some(r.result.value[0])
            && DirectivePrologueAt(items, sub, ctx, s.next) == Done(Ok(r.result.value[1..]), r.next)
  {
    var r := DirectivePrologueAt(items, sub, ctx, i);
    var s := sub.stmt(items, i, ctx);
    var rest := DirectivePrologueAt(items, sub, ctx, s.next);
    assert r.result.value == [AsDirective(s.result.value).value] + rest.result.value;
    assert r.result.value[1..] == rest.result.value;
  }

  // ---------------------------------------------------------------------
  // The parser object

  /** `Parser`: the token items it reads, the routines it delegates to, its
      cursor, its context and its source type. `with_context` is modelled
      by a method setting `context` for the duration of a call and
      restoring it afterwards. */
  class Parser {
    const items: seq<Item>
    const sub: SubParsers
    var pos: nat
    var context: Context
    var sourceType: Syntax.SourceType

    ghost predicate Valid()
      reads this
    {
      pos <= |items| && sub.Valid()
    }

    /** `Parser::new`: the default context at the first token. */
    constructor (items: seq<Item>, sub: SubParsers, sourceType: Syntax.SourceType)
      requires sub.Valid()
      ensures Valid() && this.items == items && this.sub == sub && pos == 0
      ensures context == DefaultContext && this.sourceType == sourceType
    {
      this.items := items;
      this.sub := sub;
      pos := 0;
      context := DefaultContext;
      this.sourceType := sourceType;
    }

    /** Runs a routine that is not part of this model with context `ctx`. */
    method Run<T>(f: Routine<T>, ctx: Context) returns (r: Result<T, Error>)
      requires Valid() && Advances(f, 0) && f(items, pos, ctx).Done?
      modifies this`pos
      ensures Valid() && f(items, old(pos), ctx) == Done(r, pos)
    {
      var s := f(items, pos, ctx);
      r := s.result;
      pos := s.next;
    }

    /** Runs the variable-statement routine for a declaration of `kind`. */
    method RunVariableStmt(ctx: Context, kind: Syntax.VariableKind) returns (r: Result<Syntax.Stmt, Error>)
      requires Valid() && sub.variableStmt(items, pos, ctx, kind).Done?
      modifies this`pos
      ensures Valid() && sub.variableStmt(items, old(pos), ctx, kind) == Done(r, pos)
    {
      var s := sub.variableStmt(items, pos, ctx, kind);
      r := s.result;
      pos := s.next;
    }

    /** Runs the call-expression routine on `callee`, whose span starts at
        `start`. */
    method RunCallExpr(ctx: Context, start: nat, callee: Syntax.Expr) returns (r: Result<Syntax.Expr, Error>)
      requires Valid() && sub.callExpr(items, pos, ctx, start, callee).Done?
      modifies this`pos
      ensures Valid() && sub.callExpr(items, old(pos), ctx, start, callee) == Done(r, pos)
    {
      var s := sub.callExpr(items, pos, ctx, start, callee);
      r := s.result;
      pos := s.next;
    }

    /** `rewind_to`: the cursor goes back to a token read before. */
    method Rewind(start: nat)
      requires Valid() && start <= pos
      modifies this`pos
      ensures Valid() && pos == start
    {
      pos := start;
    }

    method Consume() returns (r: Result<Token, Error>)
      requires Valid()
      modifies this`pos
      ensures Valid() && ConsumeAt(items, old(pos)) == Done(r, pos)
    {
      r := CurrentAt(items, pos);
      if pos < |items| {
        pos := pos + 1;
      }
    }

    method ConsumeAssert(expected: Tokens.TokenValue) returns (r: Result<Token, Error>)
      requires Valid()
      modifies this`pos
      ensures Valid() && ConsumeAssertAt(items, old(pos), expected) == Done(r, pos)
    {
      var token := Consume();
      if token.Err? {
        return Err(token.error);
      }
      if token.value.value != expected {
        return Err(Errors.ExpectedOtherToken(token.value, expected));
      }
      r := Ok(token.value);
    }

    method MaybeConsume(value: Tokens.TokenValue) returns (r: Result<bool, Error>)
      requires Valid()
      modifies this`pos
      ensures Valid() && MaybeConsumeAt(items, old(pos), value) == Done(r, pos)
    {
      if CurrentMatches(items, pos, value) {
        var _ := Consume();
        r := Ok(true);
      } else {
        r := Ok(false);
      }
    }

    method ConsumeListDelimiter(listEnd: Tokens.TokenValue) returns (r: Result<(), Error>)
      requires Valid()
      modifies this`pos
      ensures Valid() && ConsumeListDelimiterAt(items, old(pos), listEnd) == Done(r, pos)
    {
      var comma := MaybeConsume(Comma);
      if !comma.value && !CurrentMatches(items, pos, listEnd) {
        var token := Consume();
        if token.Err? {
          return Err(token.error);
        }
        return Err(Errors.ExpectedOtherToken(token.value, Comma));
      }
      r := Ok(());
    }

    /** `consume_array_delimiter`. */
    method ConsumeArrayDelimiter() returns (r: Result<(), Error>)
      requires Valid()
      modifies this`pos
      ensures Valid() && ConsumeListDelimiterAt(items, old(pos), ArrayEnd) == Done(r, pos)
    {
      r := ConsumeListDelimiter(ArrayEnd);
    }

    /** `consume_object_delimiter`. */
    method ConsumeObjectDelimiter() returns (r: Result<(), Error>)
      requires Valid()
      modifies this`pos
      ensures Valid() && ConsumeListDelimiterAt(items, old(pos), ObjectEnd) == Done(r, pos)
    {
      r := ConsumeListDelimiter(ObjectEnd);
    }

    /** `consume_parameter_delimiter`. */
    method ConsumeParameterDelimiter() returns (r: Result<(), Error>)
      requires Valid()
      modifies this`pos
      ensures Valid() && ConsumeListDelimiterAt(items, old(pos), ParameterEnd) == Done(r, pos)
    {
      r := ConsumeListDelimiter(ParameterEnd);
    }

    method ParseIdentifier() returns (r: Result<Ast.Ident, Error>)
      requires Valid()
      modifies this`pos
      ensures Valid() && ParseIdentifierAt(items, old(pos), context) == Done(r, pos)
    {
      var token := Consume();
      if token.Err? {
        return Err(token.error);
      }
      var t := token.value;
      match t.value
      case Identifier(s) =>
        r := Ok(Ast.NewIdent(s, t.span));
      case KeywordValue(keyword) =>
        if Tokens.IsAllowedAsIdentifier(keyword, context.KeywordContext()) {
          r := Ok(Ast.NewIdent(Tokens.KeywordText(keyword), t.span));
        } else {
          r := Err(Errors.ForbiddenIdentifierOf(Tokens.KeywordText(keyword), t.span));
        }
      case _ =>
        r := Err(Errors.ExpectedIdentOf(t));
    }

    method ParseOptionalIdentifier() returns (r: Result<Option<Ast.Ident>, Error>)
      requires Valid()
      modifies this`pos
      ensures Valid() && ParseOptionalIdentifierAt(items, old(pos), context) == Done(r, pos)
    {
      if IsIdentifierAt(items, pos, context) {
        var id := ParseIdentifier();
        r := Ok(Some(id.value));
      } else {
        r := Ok(None);
      }
    }

    method ParsePropertyName() returns (r: Result<Syntax.PropertyName, Error>)
      requires Valid()
      requires ParsePropertyNameAt(items, sub, context, pos) != Unsupported
      modifies this`pos
      ensures Valid() && ParsePropertyNameAt(items, sub, context, old(pos)) == Done(r, pos)
    {
      var current := CurrentAt(items, pos);
      if current.Err? {
        return Err(current.error);
      }
      var token := current.value;
      if token.value.LiteralValue? {
        var t := Consume();
        match t.value.value.literal
        case StringLiteral(s) =>
          r := Ok(Syntax.StringName(s));
        case NumberLiteral(n) =>
          r := Ok(Syntax.NumberName(n));
        case _ =>
          r := Err(Errors.UnexpectedTokenOf(t.value));
      } else if token.value == SquareOpenValue {
        var _ := Consume();
        var e := Run(sub.assignmentExpr, context);
        if e.Err? {
          return Err(e.error);
        }
        var close := ConsumeAssert(SquareCloseValue);
        if close.Err? {
          return Err(close.error);
        }
        r := Ok(Syntax.Computed(e.value));
      } else if IsIdentifierAt(items, pos, context) {
        var id := ParseIdentifier();
        r := Ok(Syntax.IdentName(id.value));
      } else {
        var t := Consume();
        r := Err(Errors.UnexpectedTokenOf(t.value));
      }
    }

    /** `parse_directive_prologue`: a loop that appends each directive. */
    method ParseDirectivePrologue() returns (r: Result<seq<Tokens.LitString>, Error>)
      requires Valid()
      requires DirectivePrologueAt(items, sub, context, pos) != Unsupported
      modifies this`pos
      ensures Valid() && DirectivePrologueAt(items, sub, context, old(pos)) == Done(r, pos)
    {
      ghost var start := pos;
      var directives: seq<Tokens.LitString> := [];
      PrependNothing(DirectivePrologueAt(items, sub, context, pos));
      while true
        invariant Valid() && start <= pos
        invariant DirectivePrologueAt(items, sub, context, pos) != Unsupported
        invariant PrependDirectives(directives, DirectivePrologueAt(items, sub, context, pos))
                  == DirectivePrologueAt(items, sub, context, start)
        decreases |items| - pos
      {
        if CurrentMatchesStringLiteral(items, pos) {
          ghost var before := pos;
          var stmt := Run(sub.stmt, context);
          if stmt.Err? {
            return Err(stmt.error);
          }
          var directive := AsDirective(stmt.value).value;
          assert DirectivePrologueAt(items, sub, context, before)
                 == PrependDirectives([directive], DirectivePrologueAt(items, sub, context, pos));
          PrependTwice(directives, [directive], DirectivePrologueAt(items, sub, context, pos));
          directives := directives + [directive];
        } else {
          assert directives + [] == directives;
          break;
        }
      }
      r := Ok(directives);
    }
  }

  /** Puts `prefix` in front of the directives of a successful step. */
  function PrependDirectives(prefix: seq<Tokens.LitString>, s: Step<seq<Tokens.LitString>>): Step<seq<Tokens.LitString>> {
    match s
    case Done(Ok(v), n) => Done(Ok(prefix + v), n)
    case _ => s
  }

  lemma PrependNothing(s: Step<seq<Tokens.LitString>>)
    ensures PrependDirectives([], s) == s
  {
    if s.Ok() {
      assert [] + s.result.value == s.result.value;
    }
  }

  lemma PrependTwice(a: seq<Tokens.LitString>, b: seq<Tokens.LitString>, s: Step<seq<Tokens.LitString>>)
    ensures PrependDirectives(a, PrependDirectives(b, s)) == PrependDirectives(a + b, s)
  {
    if s.Ok() {
      assert a + (b + s.result.value) == (a + b) + s.result.value;
    }
  }

  /** `Parse for Program`. */
  method ParseProgram(p: Parser) returns (r: Result<Syntax.Program, Error>)
    requires p.Valid()
    requires ProgramAt(p.items, p.sub, p.context, p.sourceType, p.pos) != Unsupported
    modifies p`pos, p`context
    ensures p.Valid() && p.context == old(p.context)
    ensures ProgramAt(p.items, p.sub, old(p.context), p.sourceType, old(p.pos)) == Done(r, p.pos)
  {
    var spanStart := PositionAt(p.items, p.pos);
    var directives := p.ParseDirectivePrologue();
    if directives.Err? {
      return Err(directives.error);
    }
    var strictMode := HasUseStrict(directives.value);
    var body;
    if strictMode {
      var saved := p.context;
      p.context := saved.WithStrict(true);
      body := p.Run(p.sub.allStmts, p.context);
      p.context := saved;
    } else {
      body := p.Run(p.sub.allStmts, p.context);
    }
    if body.Err? {
      return Err(body.error);
    }
    var span := SpanFrom(p.items, p.pos, spanStart);
    r := Ok(Syntax.Program(p.sourceType, Syntax.StmtList(span, directives.value, body.value)));
  }
}
