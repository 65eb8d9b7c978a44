/** The loop statements of the parser's current revision: `do ... while`,
    `while`, and `for` in its three forms. A `for` head is first read as
    the `for (init; test; update)` form; when that does not fit, the cursor
    goes back to the token after `(` and the head is read again as the
    left side of a `for-in` or `for-of` loop. */
module Iteration {
  import opened Wrappers
  import Tokens
  import Errors
  import Syntax
  import opened ParserCore
  import Bindings

  const DoKeyword := Tokens.KeywordValue(Tokens.Do)
  const WhileKeyword := Tokens.KeywordValue(Tokens.While)
  const ForKeyword := Tokens.KeywordValue(Tokens.For)
  const AwaitKeyword := Tokens.KeywordValue(Tokens.Await)
  const OfKeyword := Tokens.KeywordValue(Tokens.Of)
  const InKeyword := Tokens.KeywordValue(Tokens.In)
  const OpenParen := Tokens.PunctValue(Tokens.ParenOpen)
  const CloseParen := Tokens.PunctValue(Tokens.ParenClose)
  const Semicolon := Tokens.PunctValue(Tokens.SemiColon)

  const ForAwaitMessage := "'for await' loops must be used with 'of'"

  // ---------------------------------------------------------------------
  // Specification: `do ... while` and `while`

  /** `( Expression )` of a loop test; the expression is read with `[In]`
      set. */
  function ParenthesizedTestAt(items: seq<Item>, sub: SubParsers, ctx: Context, i: nat): (r: Step<Syntax.Expr>)
    requires sub.Valid() && i <= |items|
    ensures r.Within(i, |items|)
    ensures r.Ok() ==>
              CurrentMatches(items, i, OpenParen)
              && var test := sub.expr(items, i + 1, ctx.WithIn(true));
              test.Ok() && r.result.value == test.result.value
              && CurrentMatches(items, test.next, CloseParen) && r.next == test.next + 1
  {
    var open :- ConsumeAssertAt(items, i, OpenParen);
    var test :- sub.expr(items, open.next, ctx.WithIn(true));
    var close :- ConsumeAssertAt(items, test.next, CloseParen);
    Done(Ok(test.value), close.next)
  }

  /** `parse_do_while_stmt`: `do`, the body, `while`, the parenthesized
      test and an optional `;`. */
  function DoWhileAt(items: seq<Item>, sub: SubParsers, ctx: Context, i: nat): (r: Step<Syntax.Stmt>)
    requires sub.Valid() && i <= |items|
    ensures r.Within(i, |items|)
    ensures r.Ok() ==>
              CurrentMatches(items, i, DoKeyword) && r.result.value.DoWhile?
              && var body := sub.stmt(items, i + 1, ctx);
              body.Ok() && r.result.value.doWhileBody == body.result.value
              && CurrentMatches(items, body.next, WhileKeyword)
              && var test := ParenthesizedTestAt(items, sub, ctx, body.next + 1);
              test.Ok() && r.result.value.doWhileTest == test.result.value
              && r.next == (if CurrentMatches(items, test.next, Semicolon) then test.next + 1 else test.next)
              && r.result.value.doWhileSpan == Tokens.Span(items[i].token.span.start, ReaderPosition(items, r.next))
  {
    var spanStart := PositionAt(items, i);
    var keyword :- ConsumeAssertAt(items, i, DoKeyword);
    var body :- sub.stmt(items, keyword.next, ctx);
    var whileKeyword :- ConsumeAssertAt(items, body.next, WhileKeyword);
    var test :- ParenthesizedTestAt(items, sub, ctx, whileKeyword.next);
    var semicolon := MaybeConsumeAt(items, test.next, Semicolon);
    Done(Ok(Syntax.DoWhile(SpanFrom(items, semicolon.next, spanStart), body.value, test.value)), semicolon.next)
  }

  /** `parse_while_stmt`: `while`, the parenthesized test, then the body. */
  function WhileAt(items: seq<Item>, sub: SubParsers, ctx: Context, i: nat): (r: Step<Syntax.Stmt>)
    requires sub.Valid() && i <= |items|
    ensures r.Within(i, |items|)
    ensures r.Ok() ==>
              CurrentMatches(items, i, WhileKeyword) && r.result.value.While?
              && var test := ParenthesizedTestAt(items, sub, ctx, i + 1);
              test.Ok() && r.result.value.whileTest == test.result.value
              && sub.stmt(items, test.next, ctx) == Done(Ok(r.result.value.whileBody), r.next)
              && r.result.value.whileSpan == Tokens.Span(items[i].token.span.start, ReaderPosition(items, r.next))
  {
    var spanStart := PositionAt(items, i);
    var keyword :- ConsumeAssertAt(items, i, WhileKeyword);
    var test :- ParenthesizedTestAt(items, sub, ctx, keyword.next);
    var body :- sub.stmt(items, test.next, ctx);
    Done(Ok(Syntax.While(SpanFrom(items, body.next, spanStart), test.value, body.value)), body.next)
  }

  // ---------------------------------------------------------------------
  // Specification: declarations and initializers of a `for` head

  /** `parse_optional_variable_kind`: `var` and `const` always start a
      declaration, `let` only when a lexical binding follows it; the
      keyword is consumed exactly when it is recognised. */
  function OptionalVariableKindAt(items: seq<Item>, sub: SubParsers, i: nat): (r: Step<Option<Syntax.VariableKind>>)
    requires i <= |items|
    ensures r.Done? && (r.result.Ok? <==> CurrentAt(items, i).Ok?)
    ensures r.result.Err? ==> r.next == i
    ensures r.result.Ok? ==> r.next == (if r.result.value.Some? then i + 1 else i)
    ensures r.result.Ok? ==> (r.result.value == Some(Syntax.Var) <==> CurrentMatches(items, i, VarKeyword))
    ensures r.result.Ok? ==> (r.result.value == Some(Syntax.Const) <==> CurrentMatches(items, i, ConstKeyword))
    ensures r.result.Ok? ==>
              (r.result.value == Some(Syntax.Let) <==> CurrentMatches(items, i, LetKeyword) && sub.lexicalBinding(items, i))
  {
    var c :- CurrentStep(items, i);
    var v := c.value.value;
    var kind :=
      if v == VarKeyword then Some(Syntax.Var)
      else if v == LetKeyword && sub.lexicalBinding(items, i) then Some(Syntax.Let)
      else if v == ConstKeyword then Some(Syntax.Const)
      else None;
    if kind.Some? then
      var keyword := ConsumeAt(items, i);
      Done(Ok(kind), keyword.next)
    else Done(Ok(None), i)
  }

  /** The left side of a `for-in`/`for-of` loop when it is neither a
      declaration nor an assignment pattern: a left-hand-side expression
      that passes its early errors. */
  function ForLeftExprAt(items: seq<Item>, sub: SubParsers, ctx: Context, i: nat): (r: Step<Syntax.ForDeclaration>)
    requires sub.Valid() && i <= |items|
    ensures r.Within(i, |items|)
    ensures r.Ok() ==>
              r.result.value.ExprDeclaration?
              && sub.leftHandSideExpr(items, i, ctx) == Done(Ok(r.result.value.expr), r.next)
              && sub.lhsEarlyErrors(r.result.value.expr, ctx).None?
    ensures sub.leftHandSideExpr(items, i, ctx).Ok() ==>
              var expr := sub.leftHandSideExpr(items, i, ctx);
              var earlyError := sub.lhsEarlyErrors(expr.result.value, ctx);
              earlyError.Some? ==> r == Done(Err(earlyError.value), expr.next)
  {
    var expr :- sub.leftHandSideExpr(items, i, ctx);
    match sub.lhsEarlyErrors(expr.value, ctx)
    case Some(e) => Done(Err(e), expr.next)
    case None => Done(Ok(Syntax.ExprDeclaration(expr.value)), expr.next)
  }

  /** `parse_for_declaration`: a `var`/`let`/`const` binding, an
      assignment pattern when `[` or `{` comes first, or else a
      left-hand-side expression. */
  function ForDeclarationAt(items: seq<Item>, sub: SubParsers, ctx: Context, i: nat): (r: Step<Syntax.ForDeclaration>)
    requires sub.Valid() && i <= |items|
    ensures r.Within(i, |items|)
    ensures r.Ok() ==>
              var kind := OptionalVariableKindAt(items, sub, i);
              kind.Ok() && (r.result.value.Declaration? <==> kind.result.value.Some?)
    ensures r.Ok() && r.result.value.Declaration? ==>
              var binding := r.result.value.forBinding;
              OptionalVariableKindAt(items, sub, i).result.value == Some(binding.kind)
              && Bindings.BindingPatternAt(items, ctx, i + 1) == Done(Ok(binding.binding), r.next)
              && binding.span == Tokens.Span(items[i].token.span.start, ReaderPosition(items, r.next))
    ensures r.Ok() && r.result.value.PatternDeclaration? ==>
              (CurrentMatches(items, i, Bindings.ArrayOpen) || CurrentMatches(items, i, Bindings.ObjectOpen))
              && sub.assignmentPattern(items, i, ctx) == Done(Ok(r.result.value.pattern), r.next)
    ensures r.Ok() && r.result.value.ExprDeclaration? ==>
              !CurrentMatches(items, i, Bindings.ArrayOpen) && !CurrentMatches(items, i, Bindings.ObjectOpen)
              && ForLeftExprAt(items, sub, ctx, i) == r
  {
    var spanStart := PositionAt(items, i);
    var kind :- OptionalVariableKindAt(items, sub, i);
    if kind.value.Some? then
      var binding :- Bindings.BindingPatternAt(items, ctx, kind.next);
      Done(Ok(Syntax.Declaration(Syntax.ForBinding(SpanFrom(items, binding.next, spanStart), kind.value.value, binding.value))),
           binding.next)
    else
      var v := CurrentAt(items, i).value.value;
      if v == Bindings.ArrayOpen || v == Bindings.ObjectOpen then
        MapStep(sub.assignmentPattern(items, i, ctx), (pattern: Syntax.AssignmentPattern) => Syntax.PatternDeclaration(pattern))
      else ForLeftExprAt(items, sub, ctx, i)
  }

  /** `parse_for_init_variable_declaration`: the declarations after the
      keyword, read with `[In]` cleared. */
  function ForInitDeclarationAt(items: seq<Item>, sub: SubParsers, ctx: Context, i: nat,
                                spanStart: nat, kind: Syntax.VariableKind)
    : (r: Step<Syntax.ForInit>)
    requires sub.Valid() && i <= |items|
    ensures r.Within(i, |items|)
    ensures r.Ok() ==>
              r.result.value.DeclarationInit? && r.result.value.declaration.kind == kind
              && sub.variableDeclarations(items, i, ctx.WithIn(false))
                 == Done(Ok(r.result.value.declaration.declarations), r.next)
              && r.result.value.declaration.span == Tokens.Span(spanStart, ReaderPosition(items, r.next))
  {
    var declarations :- sub.variableDeclarations(items, i, ctx.WithIn(false));
    Done(Ok(Syntax.DeclarationInit(Syntax.StmtVariable(SpanFrom(items, declarations.next, spanStart), kind, declarations.value))),
         declarations.next)
  }

  /** `parse_for_init`: a declaration when a variable kind is recognised,
      otherwise an expression read with `[In]` cleared. */
  function ForInitAt(items: seq<Item>, sub: SubParsers, ctx: Context, i: nat): (r: Step<Syntax.ForInit>)
    requires sub.Valid() && i <= |items|
    ensures r.Within(i, |items|)
    ensures r.Ok() ==>
              var kind := OptionalVariableKindAt(items, sub, i);
              kind.Ok() && (r.result.value.DeclarationInit? <==> kind.result.value.Some?)
    ensures r.Ok() && r.result.value.DeclarationInit? ==>
              ForInitDeclarationAt(items, sub, ctx, i + 1, items[i].token.span.start,
                                   OptionalVariableKindAt(items, sub, i).result.value.value) == r
    ensures r.Ok() && r.result.value.ExprInit? ==>
              sub.expr(items, i, ctx.WithIn(false)) == Done(Ok(r.result.value.expr), r.next)
  {
    var spanStart := PositionAt(items, i);
    var kind :- OptionalVariableKindAt(items, sub, i);
    if kind.value.Some? then ForInitDeclarationAt(items, sub, ctx, kind.next, spanStart, kind.value.value)
    else MapStep(sub.expr(items, i, ctx.WithIn(false)), (e: Syntax.Expr) => Syntax.ExprInit(e))
  }

  /** `parse_optional_for_init`: nothing when `;` comes first. */
  function OptionalForInitAt(items: seq<Item>, sub: SubParsers, ctx: Context, i: nat): (r: Step<Option<Syntax.ForInit>>)
    requires sub.Valid() && i <= |items|
    ensures r.Within(i, |items|)
    ensures CurrentMatches(items, i, Semicolon) ==> r == Done(Ok(None), i)
    ensures !CurrentMatches(items, i, Semicolon) ==> r == MapStep(ForInitAt(items, sub, ctx, i), (init: Syntax.ForInit) => Some(init))
  {
    if CurrentMatches(items, i, Semicolon) then Done(Ok(None), i)
    else MapStep(ForInitAt(items, sub, ctx, i), (init: Syntax.ForInit) => Some(init))
  }

  // ---------------------------------------------------------------------
  // Specification: the `for (init; test; update)` form

  /** The update, `)` and the body of a `for (init; test; update)` loop. */
  function ForUpdateAt(items: seq<Item>, sub: SubParsers, ctx: Context, i: nat, spanStart: nat,
                       init: Option<Syntax.ForInit>, test: Option<Syntax.Expr>)
    : (r: Step<Syntax.Stmt>)
    requires sub.Valid() && i <= |items|
    ensures r.Within(i, |items|)
    ensures r.Ok() ==>
              r.result.value.For? && r.result.value.init == init && r.result.value.test == test
              && var update := ThenTryStep(!CurrentMatches(items, i, CloseParen), i, sub.expr(items, i, ctx.WithIn(true)));
              update.Ok() && r.result.value.update == update.result.value
              && (r.result.value.update.None? <==> CurrentMatches(items, i, CloseParen))
              && CurrentMatches(items, update.next, CloseParen)
              && sub.stmt(items, update.next + 1, ctx) == Done(Ok(r.result.value.forBody), r.next)
              && r.result.value.forSpan == Tokens.Span(spanStart, ReaderPosition(items, r.next))
  {
    var update :- ThenTryStep(!CurrentMatches(items, i, CloseParen), i, sub.expr(items, i, ctx.WithIn(true)));
    var close :- ConsumeAssertAt(items, update.next, CloseParen);
    var body :- sub.stmt(items, close.next, ctx);
    Done(Ok(Syntax.For(SpanFrom(items, body.next, spanStart), init, test, update.value, body.value)), body.next)
  }

  /** What follows the first `;` of a `for (init; test; update)` loop: the
      optional test, a `;`, then the rest. */
  function ForTestAt(items: seq<Item>, sub: SubParsers, ctx: Context, i: nat, spanStart: nat,
                     init: Option<Syntax.ForInit>)
    : (r: Step<Syntax.Stmt>)
    requires sub.Valid() && i <= |items|
    ensures r.Within(i, |items|)
    ensures r.Ok() ==>
              var test := ThenTryStep(!CurrentMatches(items, i, Semicolon), i, sub.expr(items, i, ctx.WithIn(true)));
              test.Ok() && (test.result.value.None? <==> CurrentMatches(items, i, Semicolon))
              && CurrentMatches(items, test.next, Semicolon)
              && ForUpdateAt(items, sub, ctx, test.next + 1, spanStart, init, test.result.value) == r
  {
    var test :- ThenTryStep(!CurrentMatches(items, i, Semicolon), i, sub.expr(items, i, ctx.WithIn(true)));
    var semicolon :- ConsumeAssertAt(items, test.next, Semicolon);
    ForUpdateAt(items, sub, ctx, semicolon.next, spanStart, init, test.value)
  }

  /** `try_parse_for`, after `for (`: the initializer, then what follows
      it; a failed initializer gives `Ok(None)`, for the head to be read
      again as a `for-in`/`for-of` head. */
  function TryForAt(items: seq<Item>, sub: SubParsers, ctx: Context, i: nat, spanStart: nat, asynchronous: bool)
    : (r: Step<Option<Syntax.Stmt>>)
    requires sub.Valid() && i <= |items|
    ensures r.Within(i, |items|)
    ensures var init := OptionalForInitAt(items, sub, ctx, i);
            (init.Unsupported? ==> r.Unsupported?)
            && (init.Done? && init.result.Err? ==> r == Done(Ok(None), init.next))
            && (init.Ok() ==> r == AfterForInitAt(items, sub, ctx, init.next, spanStart, init.result.value, asynchronous))
    ensures r.Ok() && r.result.value.Some? ==> !asynchronous && r.result.value.value.For?
  {
    var init := OptionalForInitAt(items, sub, ctx, i);
    if init.Unsupported? then Unsupported
    else if init.result.Err? then Done(Ok(None), init.next)
    else AfterForInitAt(items, sub, ctx, init.next, spanStart, init.result.value, asynchronous)
  }

  /** What `try_parse_for` yields: `Ok(None)` exactly when the initializer
      fails or no `;` follows it; after `for await` the `;` is an error;
      otherwise a `for (;;)` loop whose test and update follow the `;`. */
  lemma TryForOutcome(items: seq<Item>, sub: SubParsers, ctx: Context, i: nat, spanStart: nat, asynchronous: bool)
    requires sub.Valid() && i <= |items|
    ensures var r := TryForAt(items, sub, ctx, i, spanStart, asynchronous);
            var init := OptionalForInitAt(items, sub, ctx, i);
            r.Done? ==>
              init.Done?
              && (r.result == Ok(None) <==> !(init.result.Ok? && CurrentMatches(items, init.next, Semicolon)))
    ensures var r := TryForAt(items, sub, ctx, i, spanStart, asynchronous);
            var init := OptionalForInitAt(items, sub, ctx, i);
            r.Ok() && r.result.value.Some? ==>
              init.Ok() && ForTestAt(items, sub, ctx, init.next + 1, spanStart, init.result.value)
                           == Done(Ok(r.result.value.value), r.next)
    ensures var init := OptionalForInitAt(items, sub, ctx, i);
            asynchronous && init.Ok() && CurrentMatches(items, init.next, Semicolon) ==>
              TryForAt(items, sub, ctx, i, spanStart, asynchronous)
              == Done(Err(Errors.SyntaxErrorOf(ForAwaitMessage, Tokens.Span(spanStart, ReaderPosition(items, init.next + 1)))),
                      init.next + 1)
  {
  }

  /** The part of `try_parse_for` after a successful initializer: no `;`
      gives `Ok(None)`; after a `;` an asynchronous loop is an error and any
      other loop goes on with the test. */
  function AfterForInitAt(items: seq<Item>, sub: SubParsers, ctx: Context, i: nat, spanStart: nat,
                          init: Option<Syntax.ForInit>, asynchronous: bool)
    : (r: Step<Option<Syntax.Stmt>>)
    requires sub.Valid() && i <= |items|
    ensures r.Within(i, |items|)
    ensures r.Done? ==> (r.result == Ok(None) <==> !CurrentMatches(items, i, Semicolon))
    ensures !CurrentMatches(items, i, Semicolon) ==> r == Done(Ok(None), i)
    ensures r.Ok() && r.result.value.Some? ==>
              !asynchronous && r.result.value.value.For?
              && ForTestAt(items, sub, ctx, i + 1, spanStart, init) == Done(Ok(r.result.value.value), r.next)
    ensures asynchronous && CurrentMatches(items, i, Semicolon) ==>
              r == Done(Err(Errors.SyntaxErrorOf(ForAwaitMessage, Tokens.Span(spanStart, ReaderPosition(items, i + 1)))),
                        i + 1)
  {
    var semicolon := MaybeConsumeAt(items, i, Semicolon);
    if !semicolon.result.value then Done(Ok(None), semicolon.next)
    else if asynchronous then
      Done(Err(Errors.SyntaxErrorOf(ForAwaitMessage, SpanFrom(items, semicolon.next, spanStart))), semicolon.next)
    else MapStep(ForTestAt(items, sub, ctx, semicolon.next, spanStart, init),
                 (stmt: Syntax.Stmt) => Some(stmt))
  }

  // ---------------------------------------------------------------------
  // Specification: `for-in` and `for-of`

  /** `parse_for_in`: `in`, the right side read with `[In]` set, `)` and
      the body. */
  function ForInAt(items: seq<Item>, sub: SubParsers, ctx: Context, i: nat, spanStart: nat,
                   left: Syntax.ForDeclaration)
    : (r: Step<Syntax.Stmt>)
    requires sub.Valid() && i <= |items|
    ensures r.Within(i, |items|)
    ensures r.Ok() ==>
              CurrentMatches(items, i, InKeyword) && r.result.value.ForIn? && r.result.value.inLeft == left
              && var right := sub.expr(items, i + 1, ctx.WithIn(true));
              right.Ok() && r.result.value.inRight == right.result.value
              && CurrentMatches(items, right.next, CloseParen)
              && sub.stmt(items, right.next + 1, ctx) == Done(Ok(r.result.value.forInBody), r.next)
              && r.result.value.forInSpan == Tokens.Span(spanStart, ReaderPosition(items, r.next))
  {
    var keyword :- ConsumeAssertAt(items, i, InKeyword);
    var right :- sub.expr(items, keyword.next, ctx.WithIn(true));
    var close :- ConsumeAssertAt(items, right.next, CloseParen);
    var body :- sub.stmt(items, close.next, ctx);
    Done(Ok(Syntax.ForIn(SpanFrom(items, body.next, spanStart), left, right.value, body.value)), body.next)
  }

  /** `parse_for_of`: `of`, the right side read with `[In]` set, `)` and
      the body; the loop is asynchronous as the caller says. */
  function ForOfAt(items: seq<Item>, sub: SubParsers, ctx: Context, i: nat, spanStart: nat,
                   left: Syntax.ForDeclaration, asynchronous: bool)
    : (r: Step<Syntax.Stmt>)
    requires sub.Valid() && i <= |items|
    ensures r.Within(i, |items|)
    ensures r.Ok() ==>
              CurrentMatches(items, i, OfKeyword) && r.result.value.ForOf? && r.result.value.ofLeft == left
              && r.result.value.asynchronous == asynchronous
              && var right := sub.expr(items, i + 1, ctx.WithIn(true));
              right.Ok() && r.result.value.ofRight == right.result.value
              && CurrentMatches(items, right.next, CloseParen)
              && sub.stmt(items, right.next + 1, ctx) == Done(Ok(r.result.value.forOfBody), r.next)
              && r.result.value.forOfSpan == Tokens.Span(spanStart, ReaderPosition(items, r.next))
  {
    var keyword :- ConsumeAssertAt(items, i, OfKeyword);
    var right :- sub.expr(items, keyword.next, ctx.WithIn(true));
    var close :- ConsumeAssertAt(items, right.next, CloseParen);
    var body :- sub.stmt(items, close.next, ctx);
    Done(Ok(Syntax.ForOf(SpanFrom(items, body.next, spanStart), left, right.value, body.value, asynchronous)), body.next)
  }

  /** What follows the left side of a `for-in`/`for-of` head: `of` makes a
      `for-of`, `in` a `for-in` (not after `for await`), and any other
      token is consumed and reported. */
  function InOrOfAt(items: seq<Item>, sub: SubParsers, ctx: Context, i: nat, spanStart: nat,
                    left: Syntax.ForDeclaration, asynchronous: bool)
    : (r: Step<Syntax.Stmt>)
    requires sub.Valid() && i <= |items|
    ensures r.Within(i, |items|)
    ensures CurrentMatches(items, i, OfKeyword) ==> r == ForOfAt(items, sub, ctx, i, spanStart, left, asynchronous)
    ensures CurrentMatches(items, i, InKeyword) && !asynchronous ==> r == ForInAt(items, sub, ctx, i, spanStart, left)
    ensures CurrentMatches(items, i, InKeyword) && asynchronous ==>
              r == Done(Err(Errors.SyntaxErrorOf(ForAwaitMessage, Tokens.Span(spanStart, ReaderPosition(items, i)))), i)
    ensures CurrentAt(items, i).Ok? && !CurrentMatches(items, i, OfKeyword) && !CurrentMatches(items, i, InKeyword) ==>
              r == Done(Err(Errors.UnexpectedTokenOf(items[i].token)), i + 1)
    ensures r.Ok() ==> (r.result.value.ForOf? || r.result.value.ForIn?)
    ensures r.Ok() ==> (r.result.value.ForOf? && r.result.value.asynchronous <==> asynchronous)
  {
    var c :- CurrentStep(items, i);
    var v := c.value.value;
    if v == OfKeyword then ForOfAt(items, sub, ctx, i, spanStart, left, asynchronous)
    else if v == InKeyword then
      if asynchronous then Done(Err(Errors.SyntaxErrorOf(ForAwaitMessage, SpanFrom(items, i, spanStart))), i)
      else ForInAt(items, sub, ctx, i, spanStart, left)
    else
      var token := ConsumeAt(items, i);
      Done(Err(Errors.UnexpectedTokenOf(token.result.value)), token.next)
  }

  /** `parse_for_in_of`, after `for (`: the left side, then `in` or `of`. */
  function ForInOfAt(items: seq<Item>, sub: SubParsers, ctx: Context, i: nat, spanStart: nat, asynchronous: bool)
    : (r: Step<Syntax.Stmt>)
    requires sub.Valid() && i <= |items|
    ensures r.Within(i, |items|)
    ensures r.Ok() ==>
              var left := ForDeclarationAt(items, sub, ctx, i);
              left.Ok() && InOrOfAt(items, sub, ctx, left.next, spanStart, left.result.value, asynchronous) == r
              && (r.result.value.ForOf? || r.result.value.ForIn?)
    ensures r.Ok() ==> (r.result.value.ForOf? && r.result.value.asynchronous <==> asynchronous)
  {
    var left :- ForDeclarationAt(items, sub, ctx, i);
    InOrOfAt(items, sub, ctx, left.next, spanStart, left.value, asynchronous)
  }

  // ---------------------------------------------------------------------
  // Specification: `parse_for_stmt`

  /** The head of a `for` loop after `for (`: the `for (;;)` form is tried
      first; when it does not fit, the head is read again from `i` as a
      `for-in`/`for-of` head. */
  function ForHeadAt(items: seq<Item>, sub: SubParsers, ctx: Context, i: nat, spanStart: nat, asynchronous: bool)
    : (r: Step<Syntax.Stmt>)
    requires sub.Valid() && i <= |items|
    ensures r.Within(i, |items|)
    ensures r.Ok() ==> r.result.value.For? || r.result.value.ForIn? || r.result.value.ForOf?
    ensures r.Ok() ==> (r.result.value.ForOf? && r.result.value.asynchronous <==> asynchronous)
    ensures r.Ok() && r.result.value.For? ==>
              !asynchronous && TryForAt(items, sub, ctx, i, spanStart, asynchronous) == Done(Ok(Some(r.result.value)), r.next)
    ensures r.Ok() && !r.result.value.For? ==>
              TryForAt(items, sub, ctx, i, spanStart, asynchronous).Done?
              && TryForAt(items, sub, ctx, i, spanStart, asynchronous).result == Ok(None)
              && ForInOfAt(items, sub, ctx, i, spanStart, asynchronous) == r
    ensures var attempt := TryForAt(items, sub, ctx, i, spanStart, asynchronous);
            attempt.Done? && attempt.result == Ok(None) ==> r == ForInOfAt(items, sub, ctx, i, spanStart, asynchronous)
  {
    var attempt := TryForAt(items, sub, ctx, i, spanStart, asynchronous);
    if attempt.Unsupported? then Unsupported
    else if attempt.result.Err? then Done(Err(attempt.result.error), attempt.next)
    else if attempt.result.value.Some? then Done(Ok(attempt.result.value.value), attempt.next)
    else ForInOfAt(items, sub, ctx, i, spanStart, asynchronous)
  }

  /** The optional `await` of `for await`: looked for only where the
      context has `[Await]`, and consumed when it is there. */
  function AwaitMarkerAt(items: seq<Item>, ctx: Context, i: nat): (r: Step<bool>)
    requires i <= |items|
    ensures r.Done? && r.result.Ok?
    ensures r.result.value <==> ctx.isAwait && CurrentMatches(items, i, AwaitKeyword)
    ensures r.next == if r.result.value then i + 1 else i
  {
    if ctx.isAwait then MaybeConsumeAt(items, i, AwaitKeyword) else Done(Ok(false), i)
  }

  /** `parse_for_stmt`: `for`, the optional `await`, then `(` and a current
      token, then the head. */
  function ForStmtAt(items: seq<Item>, sub: SubParsers, ctx: Context, i: nat): (r: Step<Syntax.Stmt>)
    requires sub.Valid() && i <= |items|
    ensures r.Within(i, |items|)
    ensures r.Ok() ==>
              CurrentMatches(items, i, ForKeyword)
              && var awaited := AwaitMarkerAt(items, ctx, i + 1);
              CurrentMatches(items, awaited.next, OpenParen)
              && ForHeadAt(items, sub, ctx, awaited.next + 1, items[i].token.span.start, awaited.result.value) == r
    ensures r.Ok() ==>
              (r.result.value.ForOf? && r.result.value.asynchronous <==> ctx.isAwait && CurrentMatches(items, i + 1, AwaitKeyword))
  {
    var spanStart := PositionAt(items, i);
    var keyword :- ConsumeAssertAt(items, i, ForKeyword);
    var awaited := AwaitMarkerAt(items, ctx, keyword.next);
    var open :- ConsumeAssertAt(items, awaited.next, OpenParen);
    var start :- CurrentStep(items, open.next);
    ForHeadAt(items, sub, ctx, open.next, spanStart, awaited.result.value)
  }

  // ---------------------------------------------------------------------
  // The parser's methods

  /** The parenthesized test of a loop. */
  method ParseParenthesizedTest(p: Parser) returns (r: Result<Syntax.Expr, Error>)
    requires p.Valid() && ParenthesizedTestAt(p.items, p.sub, p.context, p.pos) != Unsupported
    modifies p`pos
    ensures p.Valid() && ParenthesizedTestAt(p.items, p.sub, p.context, old(p.pos)) == Done(r, p.pos)
  {
    var open := p.ConsumeAssert(OpenParen);
    if open.Err? {
      return Err(open.error);
    }
    var test := p.Run(p.sub.expr, p.context.WithIn(true));
    if test.Err? {
      return Err(test.error);
    }
    var close := p.ConsumeAssert(CloseParen);
    if close.Err? {
      return Err(close.error);
    }
    r := Ok(test.value);
  }

  /** `parse_do_while_stmt`. */
  method ParseDoWhileStmt(p: Parser) returns (r: Result<Syntax.Stmt, Error>)
    requires p.Valid() && DoWhileAt(p.items, p.sub, p.context, p.pos) != Unsupported
    modifies p`pos
    ensures p.Valid() && DoWhileAt(p.items, p.sub, p.context, old(p.pos)) == Done(r, p.pos)
  {
    var spanStart := PositionAt(p.items, p.pos);
    var keyword := p.ConsumeAssert(DoKeyword);
    if keyword.Err? {
      return Err(keyword.error);
    }
    var body := p.Run(p.sub.stmt, p.context);
    if body.Err? {
      return Err(body.error);
    }
    var whileKeyword := p.ConsumeAssert(WhileKeyword);
    if whileKeyword.Err? {
      return Err(whileKeyword.error);
    }
    var test := ParseParenthesizedTest(p);
    if test.Err? {
      return Err(test.error);
    }
    var _ := p.MaybeConsume(Semicolon);
    r := Ok(Syntax.DoWhile(SpanFrom(p.items, p.pos, spanStart), body.value, test.value));
  }

  /** `parse_while_stmt`. */
  method ParseWhileStmt(p: Parser) returns (r: Result<Syntax.Stmt, Error>)
    requires p.Valid() && WhileAt(p.items, p.sub, p.context, p.pos) != Unsupported
    modifies p`pos
    ensures p.Valid() && WhileAt(p.items, p.sub, p.context, old(p.pos)) == Done(r, p.pos)
  {
    var spanStart := PositionAt(p.items, p.pos);
    var keyword := p.ConsumeAssert(WhileKeyword);
    if keyword.Err? {
      return Err(keyword.error);
    }
    var test := ParseParenthesizedTest(p);
    if test.Err? {
      return Err(test.error);
    }
    var body := p.Run(p.sub.stmt, p.context);
    if body.Err? {
      return Err(body.error);
    }
    r := Ok(Syntax.While(SpanFrom(p.items, p.pos, spanStart), test.value, body.value));
  }

  /** `parse_optional_variable_kind`. */
  method ParseOptionalVariableKind(p: Parser) returns (r: Result<Option<Syntax.VariableKind>, Error>)
    requires p.Valid()
    modifies p`pos
    ensures p.Valid() && OptionalVariableKindAt(p.items, p.sub, old(p.pos)) == Done(r, p.pos)
  {
    var current := CurrentAt(p.items, p.pos);
    if current.Err? {
      return Err(current.error);
    }
    var v := current.value.value;
    var kind: Option<Syntax.VariableKind> := None;
    if v == VarKeyword {
      kind := Some(Syntax.Var);
    } else if v == LetKeyword && p.sub.lexicalBinding(p.items, p.pos) {
      kind := Some(Syntax.Let);
    } else if v == ConstKeyword {
      kind := Some(Syntax.Const);
    }
    if kind.Some? {
      var _ := p.Consume();
    }
    r := Ok(kind);
  }

  /** The left-hand-side expression of a `for-in`/`for-of` head. */
  method ParseForLeftExpr(p: Parser) returns (r: Result<Syntax.ForDeclaration, Error>)
    requires p.Valid() && ForLeftExprAt(p.items, p.sub, p.context, p.pos) != Unsupported
    modifies p`pos
    ensures p.Valid() && ForLeftExprAt(p.items, p.sub, p.context, old(p.pos)) == Done(r, p.pos)
  {
    var expr := p.Run(p.sub.leftHandSideExpr, p.context);
    if expr.Err? {
      return Err(expr.error);
    }
    var earlyError := p.sub.lhsEarlyErrors(expr.value, p.context);
    if earlyError.Some? {
      return Err(earlyError.value);
    }
    r := Ok(Syntax.ExprDeclaration(expr.value));
  }

  /** `parse_for_declaration`. */
  method ParseForDeclaration(p: Parser) returns (r: Result<Syntax.ForDeclaration, Error>)
    requires p.Valid() && ForDeclarationAt(p.items, p.sub, p.context, p.pos) != Unsupported
    modifies p`pos
    ensures p.Valid() && ForDeclarationAt(p.items, p.sub, p.context, old(p.pos)) == Done(r, p.pos)
  {
    var spanStart := PositionAt(p.items, p.pos);
    var kind := ParseOptionalVariableKind(p);
    if kind.Err? {
      return Err(kind.error);
    }
    if kind.value.Some? {
      var binding := Bindings.ParseBindingPattern(p);
      if binding.Err? {
        return Err(binding.error);
      }
      var span := SpanFrom(p.items, p.pos, spanStart);
      return Ok(Syntax.Declaration(Syntax.ForBinding(span, kind.value.value, binding.value)));
    }
    var v := CurrentAt(p.items, p.pos).value.value;
    if v == Bindings.ArrayOpen || v == Bindings.ObjectOpen {
      var pattern := p.Run(p.sub.assignmentPattern, p.context);
      if pattern.Err? {
        return Err(pattern.error);
      }
      return Ok(Syntax.PatternDeclaration(pattern.value));
    }
    r := ParseForLeftExpr(p);
  }

  /** `parse_for_init_variable_declaration`, after the keyword. */
  method ParseForInitDeclaration(p: Parser, spanStart: nat, kind: Syntax.VariableKind)
    returns (r: Result<Syntax.ForInit, Error>)
    requires p.Valid() && ForInitDeclarationAt(p.items, p.sub, p.context, p.pos, spanStart, kind) != Unsupported
    modifies p`pos
    ensures p.Valid() && ForInitDeclarationAt(p.items, p.sub, p.context, old(p.pos), spanStart, kind) == Done(r, p.pos)
  {
    var declarations := p.Run(p.sub.variableDeclarations, p.context.WithIn(false));
    if declarations.Err? {
      return Err(declarations.error);
    }
    var span := SpanFrom(p.items, p.pos, spanStart);
    r := Ok(Syntax.DeclarationInit(Syntax.StmtVariable(span, kind, declarations.value)));
  }

  /** `parse_for_init`. */
  method ParseForInit(p: Parser) returns (r: Result<Syntax.ForInit, Error>)
    requires p.Valid() && ForInitAt(p.items, p.sub, p.context, p.pos) != Unsupported
    modifies p`pos
    ensures p.Valid() && ForInitAt(p.items, p.sub, p.context, old(p.pos)) == Done(r, p.pos)
  {
    var spanStart := PositionAt(p.items, p.pos);
    var kind := ParseOptionalVariableKind(p);
    if kind.Err? {
      return Err(kind.error);
    }
    if kind.value.Some? {
      r := ParseForInitDeclaration(p, spanStart, kind.value.value);
      return;
    }
    var expr := p.Run(p.sub.expr, p.context.WithIn(false));
    if expr.Err? {
      return Err(expr.error);
    }
    r := Ok(Syntax.ExprInit(expr.value));
  }

  /** `parse_optional_for_init`. */
  method ParseOptionalForInit(p: Parser) returns (r: Result<Option<Syntax.ForInit>, Error>)
    requires p.Valid() && OptionalForInitAt(p.items, p.sub, p.context, p.pos) != Unsupported
    modifies p`pos
    ensures p.Valid() && OptionalForInitAt(p.items, p.sub, p.context, old(p.pos)) == Done(r, p.pos)
  {
    if CurrentMatches(p.items, p.pos, Semicolon) {
      return Ok(None);
    }
    var init := ParseForInit(p);
    if init.Err? {
      return Err(init.error);
    }
    r := Ok(Some(init.value));
  }

  /** The update, `)` and body of a `for (;;)` loop. */
  method ParseForUpdate(p: Parser, spanStart: nat, init: Option<Syntax.ForInit>, test: Option<Syntax.Expr>)
    returns (r: Result<Syntax.Stmt, Error>)
    requires p.Valid() && ForUpdateAt(p.items, p.sub, p.context, p.pos, spanStart, init, test) != Unsupported
    modifies p`pos
    ensures p.Valid() && ForUpdateAt(p.items, p.sub, p.context, old(p.pos), spanStart, init, test) == Done(r, p.pos)
  {
    var update: Option<Syntax.Expr> := None;
    if !CurrentMatches(p.items, p.pos, CloseParen) {
      var expr := p.Run(p.sub.expr, p.context.WithIn(true));
      if expr.Err? {
        return Err(expr.error);
      }
      update := Some(expr.value);
    }
    var close := p.ConsumeAssert(CloseParen);
    if close.Err? {
      return Err(close.error);
    }
    var body := p.Run(p.sub.stmt, p.context);
    if body.Err? {
      return Err(body.error);
    }
    r := Ok(Syntax.For(SpanFrom(p.items, p.pos, spanStart), init, test, update, body.value));
  }

  /** The test and the rest of a `for (;;)` loop, after the first `;`. */
  method ParseForTest(p: Parser, spanStart: nat, init: Option<Syntax.ForInit>) returns (r: Result<Syntax.Stmt, Error>)
    requires p.Valid() && ForTestAt(p.items, p.sub, p.context, p.pos, spanStart, init) != Unsupported
    modifies p`pos
    ensures p.Valid() && ForTestAt(p.items, p.sub, p.context, old(p.pos), spanStart, init) == Done(r, p.pos)
  {
    var test: Option<Syntax.Expr> := None;
    if !CurrentMatches(p.items, p.pos, Semicolon) {
      var expr := p.Run(p.sub.expr, p.context.WithIn(true));
      if expr.Err? {
        return Err(expr.error);
      }
      test := Some(expr.value);
    }
    var semicolon := p.ConsumeAssert(Semicolon);
    if semicolon.Err? {
      return Err(semicolon.error);
    }
    r := ParseForUpdate(p, spanStart, init, test);
  }

  /** `try_parse_for`. */
  method TryParseFor(p: Parser, spanStart: nat, asynchronous: bool) returns (r: Result<Option<Syntax.Stmt>, Error>)
    requires p.Valid() && TryForAt(p.items, p.sub, p.context, p.pos, spanStart, asynchronous) != Unsupported
    modifies p`pos
    ensures p.Valid() && TryForAt(p.items, p.sub, p.context, old(p.pos), spanStart, asynchronous) == Done(r, p.pos)
  {
    var init := ParseOptionalForInit(p);
    if init.Err? {
      return Ok(None);
    }
    r := ParseAfterForInit(p, spanStart, init.value, asynchronous);
  }

  /** The rest of `try_parse_for` after the initializer. */
  method ParseAfterForInit(p: Parser, spanStart: nat, init: Option<Syntax.ForInit>, asynchronous: bool)
    returns (r: Result<Option<Syntax.Stmt>, Error>)
    requires p.Valid() && AfterForInitAt(p.items, p.sub, p.context, p.pos, spanStart, init, asynchronous) != Unsupported
    modifies p`pos
    ensures p.Valid()
    ensures AfterForInitAt(p.items, p.sub, p.context, old(p.pos), spanStart, init, asynchronous) == Done(r, p.pos)
  {
    var semicolon := p.MaybeConsume(Semicolon);
    if !semicolon.value {
      return Ok(None);
    }
    if asynchronous {
      return Err(Errors.SyntaxErrorOf(ForAwaitMessage, SpanFrom(p.items, p.pos, spanStart)));
    }
    var stmt := ParseForTest(p, spanStart, init);
    if stmt.Err? {
      return Err(stmt.error);
    }
    r := Ok(Some(stmt.value));
  }

  /** `parse_for_in`. */
  method ParseForIn(p: Parser, spanStart: nat, left: Syntax.ForDeclaration) returns (r: Result<Syntax.Stmt, Error>)
    requires p.Valid() && ForInAt(p.items, p.sub, p.context, p.pos, spanStart, left) != Unsupported
    modifies p`pos
    ensures p.Valid() && ForInAt(p.items, p.sub, p.context, old(p.pos), spanStart, left) == Done(r, p.pos)
  {
    var keyword := p.ConsumeAssert(InKeyword);
    if keyword.Err? {
      return Err(keyword.error);
    }
    var right := p.Run(p.sub.expr, p.context.WithIn(true));
    if right.Err? {
      return Err(right.error);
    }
    var close := p.ConsumeAssert(CloseParen);
    if close.Err? {
      return Err(close.error);
    }
    var body := p.Run(p.sub.stmt, p.context);
    if body.Err? {
      return Err(body.error);
    }
    r := Ok(Syntax.ForIn(SpanFrom(p.items, p.pos, spanStart), left, right.value, body.value));
  }

  /** `parse_for_of`. */
  method ParseForOf(p: Parser, spanStart: nat, left: Syntax.ForDeclaration, asynchronous: bool)
    returns (r: Result<Syntax.Stmt, Error>)
    requires p.Valid() && ForOfAt(p.items, p.sub, p.context, p.pos, spanStart, left, asynchronous) != Unsupported
    modifies p`pos
    ensures p.Valid() && ForOfAt(p.items, p.sub, p.context, old(p.pos), spanStart, left, asynchronous) == Done(r, p.pos)
  {
    var keyword := p.ConsumeAssert(OfKeyword);
    if keyword.Err? {
      return Err(keyword.error);
    }
    var right := p.Run(p.sub.expr, p.context.WithIn(true));
    if right.Err? {
      return Err(right.error);
    }
    var close := p.ConsumeAssert(CloseParen);
    if close.Err? {
      return Err(close.error);
    }
    var body := p.Run(p.sub.stmt, p.context);
    if body.Err? {
      return Err(body.error);
    }
    r := Ok(Syntax.ForOf(SpanFrom(p.items, p.pos, spanStart), left, right.value, body.value, asynchronous));
  }

  /** The `in` or `of` after the left side of a head. */
  method ParseInOrOf(p: Parser, spanStart: nat, left: Syntax.ForDeclaration, asynchronous: bool)
    returns (r: Result<Syntax.Stmt, Error>)
    requires p.Valid() && InOrOfAt(p.items, p.sub, p.context, p.pos, spanStart, left, asynchronous) != Unsupported
    modifies p`pos
    ensures p.Valid() && InOrOfAt(p.items, p.sub, p.context, old(p.pos), spanStart, left, asynchronous) == Done(r, p.pos)
  {
    var current := CurrentAt(p.items, p.pos);
    if current.Err? {
      return Err(current.error);
    }
    var v := current.value.value;
    if v == OfKeyword {
      r := ParseForOf(p, spanStart, left, asynchronous);
    } else if v == InKeyword {
      if asynchronous {
        r := Err(Errors.SyntaxErrorOf(ForAwaitMessage, SpanFrom(p.items, p.pos, spanStart)));
      } else {
        r := ParseForIn(p, spanStart, left);
      }
    } else {
      var token := p.Consume();
      r := Err(Errors.UnexpectedTokenOf(token.value));
    }
  }

  /** `parse_for_in_of`. */
  method ParseForInOf(p: Parser, spanStart: nat, asynchronous: bool) returns (r: Result<Syntax.Stmt, Error>)
    requires p.Valid() && ForInOfAt(p.items, p.sub, p.context, p.pos, spanStart, asynchronous) != Unsupported
    modifies p`pos
    ensures p.Valid() && ForInOfAt(p.items, p.sub, p.context, old(p.pos), spanStart, asynchronous) == Done(r, p.pos)
  {
    var left := ParseForDeclaration(p);
    if left.Err? {
      return Err(left.error);
    }
    r := ParseInOrOf(p, spanStart, left.value, asynchronous);
  }

  /** The head of a `for` loop: `try_parse_for`, and on `None` the cursor
      rewound to `start` and `parse_for_in_of`. */
  method ParseForHead(p: Parser, spanStart: nat, asynchronous: bool) returns (r: Result<Syntax.Stmt, Error>)
    requires p.Valid() && ForHeadAt(p.items, p.sub, p.context, p.pos, spanStart, asynchronous) != Unsupported
    modifies p`pos
    ensures p.Valid() && ForHeadAt(p.items, p.sub, p.context, old(p.pos), spanStart, asynchronous) == Done(r, p.pos)
  {
    var start := p.pos;
    var attempt := TryParseFor(p, spanStart, asynchronous);
    if attempt.Err? {
      return Err(attempt.error);
    }
    if attempt.value.Some? {
      return Ok(attempt.value.value);
    }
    p.Rewind(start);
    r := ParseForInOf(p, spanStart, asynchronous);
  }

  /** `parse_for_stmt`. */
  method ParseForStmt(p: Parser) returns (r: Result<Syntax.Stmt, Error>)
    requires p.Valid() && ForStmtAt(p.items, p.sub, p.context, p.pos) != Unsupported
    modifies p`pos
    ensures p.Valid() && ForStmtAt(p.items, p.sub, p.context, old(p.pos)) == Done(r, p.pos)
  {
    var spanStart := PositionAt(p.items, p.pos);
    var keyword := p.ConsumeAssert(ForKeyword);
    if keyword.Err? {
      return Err(keyword.error);
    }
    var asynchronous := false;
    if p.context.isAwait {
      var awaited := p.MaybeConsume(AwaitKeyword);
      asynchronous := awaited.value;
    }
    var open := p.ConsumeAssert(OpenParen);
    if open.Err? {
      return Err(open.error);
    }
    var current := CurrentAt(p.items, p.pos);
    if current.Err? {
      return Err(current.error);
    }
    r := ParseForHead(p, spanStart, asynchronous);
  }
}
