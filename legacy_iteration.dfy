/** The loop statements of the parser's older revision. There the left
    side of a `for-in`/`for-of` loop is the same first argument as the
    initializer of a `for (;;)` loop, the token after it decides the form
    of the loop without going back, and `for await` is recognised before
    the `(`. */
module LegacyIteration {
  import opened Wrappers
  import Tokens
  import Errors
  import Syntax
  import opened ParserCore
  import Bindings

  /** The loop statements as this revision builds them. */
  datatype LoopStmt =
    | DoWhile(span: Tokens.Span, body: Syntax.Stmt, test: Syntax.Expr)
    | While(span: Tokens.Span, test: Syntax.Expr, body: Syntax.Stmt)
    | For(span: Tokens.Span, init: Option<Syntax.ForInit>, forTest: Option<Syntax.Expr>,
          update: Option<Syntax.Expr>, body: Syntax.Stmt)
    | ForIn(span: Tokens.Span, left: Syntax.ForInit, right: Syntax.Expr, body: Syntax.Stmt)
    | ForOf(span: Tokens.Span, left: Syntax.ForInit, right: Syntax.Expr, body: Syntax.Stmt, wait: bool)

  const DoKeyword := Tokens.KeywordValue(Tokens.Do)
  const WhileKeyword := Tokens.KeywordValue(Tokens.While)
  const ForKeyword := Tokens.KeywordValue(Tokens.For)
  const AwaitKeyword := Tokens.KeywordValue(Tokens.Await)
  const OfKeyword := Tokens.KeywordValue(Tokens.Of)
  const InKeyword := Tokens.KeywordValue(Tokens.In)
  const OpenParen := Tokens.PunctValue(Tokens.ParenOpen)
  const CloseParen := Tokens.PunctValue(Tokens.ParenClose)
  const Semicolon := Tokens.PunctValue(Tokens.SemiColon)

  // ---------------------------------------------------------------------
  // Specification: `do ... while` and `while`

  /** `( Expression )` of a loop test, read in the caller's context. */
  function ParenthesizedTestAt(items: seq<Item>, sub: SubParsers, ctx: Context, i: nat): (r: Step<Syntax.Expr>)
    requires sub.Valid() && i <= |items|
    ensures r.Within(i, |items|)
    ensures r.Ok() ==>
              CurrentMatches(items, i, OpenParen)
              && var test := sub.expr(items, i + 1, ctx);
              test.Ok() && r.result.value == test.result.value
              && CurrentMatches(items, test.next, CloseParen) && r.next == test.next + 1
  {
    var open :- ConsumeAssertAt(items, i, OpenParen);
    var test :- sub.expr(items, open.next, ctx);
    var close :- ConsumeAssertAt(items, test.next, CloseParen);
    Done(Ok(test.value), close.next)
  }

  /** `parse_do_while_stmt`: `do`, the body, `while` and the parenthesized
      test; a following `;` is left alone. */
  function DoWhileAt(items: seq<Item>, sub: SubParsers, ctx: Context, i: nat): (r: Step<LoopStmt>)
    requires sub.Valid() && i <= |items|
    ensures r.Within(i, |items|)
    ensures r.Ok() ==>
              CurrentMatches(items, i, DoKeyword) && r.result.value.DoWhile?
              && var body := sub.stmt(items, i + 1, ctx);
              body.Ok() && r.result.value.body == body.result.value
              && CurrentMatches(items, body.next, WhileKeyword)
              && ParenthesizedTestAt(items, sub, ctx, body.next + 1) == Done(Ok(r.result.value.test), r.next)
              && r.result.value.span == Tokens.Span(items[i].token.span.start, ReaderPosition(items, r.next))
  {
    var spanStart := PositionAt(items, i);
    var keyword :- ConsumeAssertAt(items, i, DoKeyword);
    var body :- sub.stmt(items, keyword.next, ctx);
    var whileKeyword :- ConsumeAssertAt(items, body.next, WhileKeyword);
    var test :- ParenthesizedTestAt(items, sub, ctx, whileKeyword.next);
    Done(Ok(DoWhile(SpanFrom(items, test.next, spanStart), body.value, test.value)), test.next)
  }

  /** `parse_while_stmt`: `while`, the parenthesized test, then the body. */
  function WhileAt(items: seq<Item>, sub: SubParsers, ctx: Context, i: nat): (r: Step<LoopStmt>)
    requires sub.Valid() && i <= |items|
    ensures r.Within(i, |items|)
    ensures r.Ok() ==>
              CurrentMatches(items, i, WhileKeyword) && r.result.value.While?
              && var test := ParenthesizedTestAt(items, sub, ctx, i + 1);
              test.Ok() && r.result.value.test == test.result.value
              && sub.stmt(items, test.next, ctx) == Done(Ok(r.result.value.body), r.next)
              && r.result.value.span == Tokens.Span(items[i].token.span.start, ReaderPosition(items, r.next))
  {
    var spanStart := PositionAt(items, i);
    var keyword :- ConsumeAssertAt(items, i, WhileKeyword);
    var test :- ParenthesizedTestAt(items, sub, ctx, keyword.next);
    var body :- sub.stmt(items, test.next, ctx);
    Done(Ok(While(SpanFrom(items, body.next, spanStart), test.value, body.value)), body.next)
  }

  // ---------------------------------------------------------------------
  // Specification: the first argument of a `for` head

  /** The declarations after `var`, `let` or `const` in a `for` head, read
      with `[In]` cleared. */
  function FirstDeclarationAt(items: seq<Item>, sub: SubParsers, ctx: Context, i: nat,
                              spanStart: nat, kind: Syntax.VariableKind)
    : (r: Step<Option<Syntax.ForInit>>)
    requires sub.Valid() && i <= |items|
    ensures r.Within(i, |items|)
    ensures r.Ok() ==>
              r.result.value.Some? && r.result.value.value.DeclarationInit?
              && var declaration := r.result.value.value.declaration;
              declaration.kind == kind
              && sub.variableDeclarations(items, i, ctx.WithIn(false)) == Done(Ok(declaration.declarations), r.next)
              && declaration.span == Tokens.Span(spanStart, ReaderPosition(items, r.next))
  {
    var declarations :- sub.variableDeclarations(items, i, ctx.WithIn(false));
    var declaration := Syntax.StmtVariable(SpanFrom(items, declarations.next, spanStart), kind, declarations.value);
    Done(Ok(Some(Syntax.DeclarationInit(declaration))), declarations.next)
  }

  /** `parse_for_first_argument`: a declaration after `var`, `let` or
      `const`, nothing at `;`, otherwise an expression read with `[In]`
      cleared. */
  function FirstArgumentAt(items: seq<Item>, sub: SubParsers, ctx: Context, i: nat): (r: Step<Option<Syntax.ForInit>>)
    requires sub.Valid() && i <= |items|
    ensures r.Within(i, |items|)
    ensures r.Done? && CurrentAt(items, i).Err? ==> r == Done(Err(CurrentAt(items, i).error), i)
    ensures CurrentAt(items, i).Ok? && VariableKindOf(items[i].token.value).Some? ==>
              r == FirstDeclarationAt(items, sub, ctx, i + 1, items[i].token.span.start, VariableKindOf(items[i].token.value).value)
    ensures CurrentMatches(items, i, Semicolon) ==> r == Done(Ok(None), i)
    ensures CurrentAt(items, i).Ok? && VariableKindOf(items[i].token.value).None? && !CurrentMatches(items, i, Semicolon) ==>
              r == MapStep(sub.expr(items, i, ctx.WithIn(false)), (e: Syntax.Expr) => Some(Syntax.ExprInit(e)))
  {
    var spanStart := PositionAt(items, i);
    var c :- CurrentStep(items, i);
    var kind := VariableKindOf(c.value.value);
    if kind.Some? then
      var keyword := ConsumeAt(items, i);
      FirstDeclarationAt(items, sub, ctx, keyword.next, spanStart, kind.value)
    else if CurrentMatches(items, i, Semicolon) then Done(Ok(None), i)
    else MapStep(sub.expr(items, i, ctx.WithIn(false)), (e: Syntax.Expr) => Some(Syntax.ExprInit(e)))
  }

  // ---------------------------------------------------------------------
  // Specification: the forms of `for`

  /** The update, `)` and body of a plain `for` loop, read in the caller's
      context. */
  function PlainForUpdateAt(items: seq<Item>, sub: SubParsers, ctx: Context, i: nat, spanStart: nat,
                            init: Option<Syntax.ForInit>, test: Option<Syntax.Expr>)
    : (r: Step<LoopStmt>)
    requires sub.Valid() && i <= |items|
    ensures r.Within(i, |items|)
    ensures r.Ok() ==>
              r.result.value.For? && r.result.value.init == init && r.result.value.forTest == test
              && var update := ThenTryStep(!CurrentMatches(items, i, CloseParen), i, sub.expr(items, i, ctx));
              update.Ok() && r.result.value.update == update.result.value
              && (r.result.value.update.None? <==> CurrentMatches(items, i, CloseParen))
              && CurrentMatches(items, update.next, CloseParen)
              && sub.stmt(items, update.next + 1, ctx) == Done(Ok(r.result.value.body), r.next)
              && r.result.value.span == Tokens.Span(spanStart, ReaderPosition(items, r.next))
  {
    var update :- ThenTryStep(!CurrentMatches(items, i, CloseParen), i, sub.expr(items, i, ctx));
    var close :- ConsumeAssertAt(items, update.next, CloseParen);
    var body :- sub.stmt(items, close.next, ctx);
    Done(Ok(For(SpanFrom(items, body.next, spanStart), init, test, update.value, body.value)), body.next)
  }

  /** `parse_plain_for`: `;`, the optional test, `;`, then the rest. */
  function PlainForAt(items: seq<Item>, sub: SubParsers, ctx: Context, i: nat, spanStart: nat,
                      init: Option<Syntax.ForInit>)
    : (r: Step<LoopStmt>)
    requires sub.Valid() && i <= |items|
    ensures r.Within(i, |items|)
    ensures r.Ok() ==>
              CurrentMatches(items, i, Semicolon)
              && var test := ThenTryStep(!CurrentMatches(items, i + 1, Semicolon), i + 1, sub.expr(items, i + 1, ctx));
              test.Ok() && (test.result.value.None? <==> CurrentMatches(items, i + 1, Semicolon))
              && CurrentMatches(items, test.next, Semicolon)
              && PlainForUpdateAt(items, sub, ctx, test.next + 1, spanStart, init, test.result.value) == r
  {
    var first :- ConsumeAssertAt(items, i, Semicolon);
    var test :- ThenTryStep(!CurrentMatches(items, first.next, Semicolon), first.next, sub.expr(items, first.next, ctx));
    var second :- ConsumeAssertAt(items, test.next, Semicolon);
    PlainForUpdateAt(items, sub, ctx, second.next, spanStart, init, test.value)
  }

  /** `parse_for_in`: `in`, the right side read with `[In]` set, `)` and
      the body. */
  function ForInAt(items: seq<Item>, sub: SubParsers, ctx: Context, i: nat, spanStart: nat, left: Syntax.ForInit)
    : (r: Step<LoopStmt>)
    requires sub.Valid() && i <= |items|
    ensures r.Within(i, |items|)
    ensures r.Ok() ==>
              CurrentMatches(items, i, InKeyword) && r.result.value.ForIn? && r.result.value.left == left
              && var right := sub.expr(items, i + 1, ctx.WithIn(true));
              right.Ok() && r.result.value.right == right.result.value
              && CurrentMatches(items, right.next, CloseParen)
              && sub.stmt(items, right.next + 1, ctx) == Done(Ok(r.result.value.body), r.next)
              && r.result.value.span == Tokens.Span(spanStart, ReaderPosition(items, r.next))
  {
    var keyword :- ConsumeAssertAt(items, i, InKeyword);
    var right :- sub.expr(items, keyword.next, ctx.WithIn(true));
    var close :- ConsumeAssertAt(items, right.next, CloseParen);
    var body :- sub.stmt(items, close.next, ctx);
    Done(Ok(ForIn(SpanFrom(items, body.next, spanStart), left, right.value, body.value)), body.next)
  }

  /** `parse_for_of`: `of`, the right side read with `[In]` set, `)` and
      the body, with `wait` as the caller says. */
  function ForOfAt(items: seq<Item>, sub: SubParsers, ctx: Context, i: nat, spanStart: nat,
                   left: Syntax.ForInit, wait: bool)
    : (r: Step<LoopStmt>)
    requires sub.Valid() && i <= |items|
    ensures r.Within(i, |items|)
    ensures r.Ok() ==>
              CurrentMatches(items, i, OfKeyword) && r.result.value.ForOf? && r.result.value.left == left
              && r.result.value.wait == wait
              && var right := sub.expr(items, i + 1, ctx.WithIn(true));
              right.Ok() && r.result.value.right == right.result.value
              && CurrentMatches(items, right.next, CloseParen)
              && sub.stmt(items, right.next + 1, ctx) == Done(Ok(r.result.value.body), r.next)
              && r.result.value.span == Tokens.Span(spanStart, ReaderPosition(items, r.next))
  {
    var keyword :- ConsumeAssertAt(items, i, OfKeyword);
    var right :- sub.expr(items, keyword.next, ctx.WithIn(true));
    var close :- ConsumeAssertAt(items, right.next, CloseParen);
    var body :- sub.stmt(items, close.next, ctx);
    Done(Ok(ForOf(SpanFrom(items, body.next, spanStart), left, right.value, body.value, wait)), body.next)
  }

  /** The token at `i` consumed and reported as unexpected (`err!`, with
      no span), or the error of reading it. */
  function UnexpectedAt<T>(items: seq<Item>, i: nat): (r: Step<T>)
    requires i <= |items|
    ensures r.Done? && r.result.Err? && r.next == (if i < |items| then i + 1 else i)
    ensures CurrentAt(items, i).Ok? ==> r.result.error == Bindings.UnexpectedToken(items[i].token)
    ensures CurrentAt(items, i).Err? ==> r.result.error == CurrentAt(items, i).error
  {
    var token :- ConsumeAt(items, i);
    Done(Err(Bindings.UnexpectedToken(token.value)), token.next)
  }

  /** The choice after the first argument: `;` makes a plain `for`, `of`
      and `in` a `for-of` or `for-in` loop when there is a first argument,
      and anything else is consumed and reported. */
  function ForFormAt(items: seq<Item>, sub: SubParsers, ctx: Context, i: nat, spanStart: nat,
                     init: Option<Syntax.ForInit>)
    : (r: Step<LoopStmt>)
    requires sub.Valid() && i <= |items|
    ensures r.Within(i, |items|)
    ensures CurrentMatches(items, i, Semicolon) ==> r == PlainForAt(items, sub, ctx, i, spanStart, init)
    ensures CurrentMatches(items, i, OfKeyword) && init.Some? ==> r == ForOfAt(items, sub, ctx, i, spanStart, init.value, false)
    ensures CurrentMatches(items, i, InKeyword) && init.Some? ==> r == ForInAt(items, sub, ctx, i, spanStart, init.value)
    ensures !CurrentMatches(items, i, Semicolon) && (init.None? || !(CurrentMatches(items, i, OfKeyword) || CurrentMatches(items, i, InKeyword))) ==>
              r == UnexpectedAt(items, i)
    ensures r.Ok() ==> !(r.result.value.ForOf? && r.result.value.wait)
  {
    if CurrentMatches(items, i, Semicolon) then PlainForAt(items, sub, ctx, i, spanStart, init)
    else if CurrentMatches(items, i, OfKeyword) && init.Some? then ForOfAt(items, sub, ctx, i, spanStart, init.value, false)
    else if CurrentMatches(items, i, InKeyword) && init.Some? then ForInAt(items, sub, ctx, i, spanStart, init.value)
    else UnexpectedAt(items, i)
  }

  /** `parse_for_await_of`, at `await`: `await`, `(`, a first argument that
      must be there, then a `for-of` loop with `wait` set. */
  function ForAwaitOfAt(items: seq<Item>, sub: SubParsers, ctx: Context, i: nat, spanStart: nat): (r: Step<LoopStmt>)
    requires sub.Valid() && i <= |items|
    ensures r.Within(i, |items|)
    ensures r.Ok() ==> r.result.value.ForOf? && r.result.value.wait
    ensures r.Ok() ==>
              CurrentAt(items, i).Ok? && CurrentMatches(items, i + 1, OpenParen)
              && var init := FirstArgumentAt(items, sub, ctx, i + 2);
              init.Ok() && init.result.value.Some?
              && ForOfAt(items, sub, ctx, init.next, spanStart, init.result.value.value, true) == r
    ensures CurrentAt(items, i).Ok? && CurrentMatches(items, i + 1, OpenParen) ==>
              var init := FirstArgumentAt(items, sub, ctx, i + 2);
              init.Ok() && init.result.value.None? ==> r == UnexpectedAt(items, init.next)
  {
    var keyword :- ConsumeAt(items, i);
    var open :- ConsumeAssertAt(items, keyword.next, OpenParen);
    var init :- FirstArgumentAt(items, sub, ctx, open.next);
    if init.value.None? then UnexpectedAt(items, init.next)
    else ForOfAt(items, sub, ctx, init.next, spanStart, init.value.value, true)
  }

  /** The part of `parse_for_stmt` after `for` and `(`. */
  function ForHeadAt(items: seq<Item>, sub: SubParsers, ctx: Context, i: nat, spanStart: nat): (r: Step<LoopStmt>)
    requires sub.Valid() && i <= |items|
    ensures r.Within(i, |items|)
    ensures r.Ok() ==>
              var init := FirstArgumentAt(items, sub, ctx, i);
              init.Ok() && ForFormAt(items, sub, ctx, init.next, spanStart, init.result.value) == r
    ensures r.Ok() ==> !(r.result.value.ForOf? && r.result.value.wait)
  {
    var init :- FirstArgumentAt(items, sub, ctx, i);
    ForFormAt(items, sub, ctx, init.next, spanStart, init.value)
  }

  /** `parse_for_stmt`: `for`, then `for await` when the context has
      `[Await]` and `await` follows, otherwise `(` and the head. */
  function ForStmtAt(items: seq<Item>, sub: SubParsers, ctx: Context, i: nat): (r: Step<LoopStmt>)
    requires sub.Valid() && i <= |items|
    ensures r.Within(i, |items|)
    ensures r.Ok() ==> CurrentMatches(items, i, ForKeyword)
    ensures CurrentMatches(items, i, ForKeyword) ==>
              r == AfterForKeywordAt(items, sub, ctx, i + 1, items[i].token.span.start)
    ensures r.Ok() ==>
              (r.result.value.ForOf? && r.result.value.wait <==> ctx.isAwait && CurrentMatches(items, i + 1, AwaitKeyword))
  {
    var spanStart := PositionAt(items, i);
    var keyword :- ConsumeAssertAt(items, i, ForKeyword);
    AfterForKeywordAt(items, sub, ctx, keyword.next, spanStart)
  }

  /** The part of `parse_for_stmt` after `for`: `for await` when the
      context has `[Await]` and `await` comes next, otherwise `(` and the
      head. */
  function AfterForKeywordAt(items: seq<Item>, sub: SubParsers, ctx: Context, i: nat, spanStart: nat)
    : (r: Step<LoopStmt>)
    requires sub.Valid() && i <= |items|
    ensures r.Within(i, |items|)
    ensures ctx.isAwait && CurrentMatches(items, i, AwaitKeyword) ==> r == ForAwaitOfAt(items, sub, ctx, i, spanStart)
    ensures r.Ok() && !(ctx.isAwait && CurrentMatches(items, i, AwaitKeyword)) ==>
              CurrentMatches(items, i, OpenParen) && ForHeadAt(items, sub, ctx, i + 1, spanStart) == r
    ensures r.Ok() ==>
              (r.result.value.ForOf? && r.result.value.wait <==> ctx.isAwait && CurrentMatches(items, i, AwaitKeyword))
  {
    if ctx.isAwait && CurrentMatches(items, i, AwaitKeyword) then
      ForAwaitOfAt(items, sub, ctx, i, spanStart)
    else
      var open :- ConsumeAssertAt(items, i, OpenParen);
      ForHeadAt(items, sub, ctx, open.next, spanStart)
  }

  // ---------------------------------------------------------------------
  // The parser's methods

  /** The parenthesized test of a loop. */
  method ParseParenthesizedTest(p: Parser) returns (r: Result<Syntax.Expr, Error>)
    requires p.Valid() && ParenthesizedTestAt(p.items, p.sub, p.context, p.pos) != Unsupported
    modifies p`pos
    ensures p.Valid() && ParenthesizedTestAt(p.items, p.sub, p.context, old(p.pos)) == Done(r, p.pos)
  {
    var open := p.ConsumeAssert(OpenParen);
    if open.Err? {
      return Err(open.error);
    }
    var test := p.Run(p.sub.expr, p.context);
    if test.Err? {
      return Err(test.error);
    }
    var close := p.ConsumeAssert(CloseParen);
    if close.Err? {
      return Err(close.error);
    }
    r := Ok(test.value);
  }

  /** `parse_do_while_stmt`. */
  method ParseDoWhileStmt(p: Parser) returns (r: Result<LoopStmt, Error>)
    requires p.Valid() && DoWhileAt(p.items, p.sub, p.context, p.pos) != Unsupported
    modifies p`pos
    ensures p.Valid() && DoWhileAt(p.items, p.sub, p.context, old(p.pos)) == Done(r, p.pos)
  {
    var spanStart := PositionAt(p.items, p.pos);
    var keyword := p.ConsumeAssert(DoKeyword);
    if keyword.Err? {
      return Err(keyword.error);
    }
    var body := p.Run(p.sub.stmt, p.context);
    if body.Err? {
      return Err(body.error);
    }
    var whileKeyword := p.ConsumeAssert(WhileKeyword);
    if whileKeyword.Err? {
      return Err(whileKeyword.error);
    }
    var test := ParseParenthesizedTest(p);
    if test.Err? {
      return Err(test.error);
    }
    r := Ok(DoWhile(SpanFrom(p.items, p.pos, spanStart), body.value, test.value));
  }

  /** `parse_while_stmt`. */
  method ParseWhileStmt(p: Parser) returns (r: Result<LoopStmt, Error>)
    requires p.Valid() && WhileAt(p.items, p.sub, p.context, p.pos) != Unsupported
    modifies p`pos
    ensures p.Valid() && WhileAt(p.items, p.sub, p.context, old(p.pos)) == Done(r, p.pos)
  {
    var spanStart := PositionAt(p.items, p.pos);
    var keyword := p.ConsumeAssert(WhileKeyword);
    if keyword.Err? {
      return Err(keyword.error);
    }
    var test := ParseParenthesizedTest(p);
    if test.Err? {
      return Err(test.error);
    }
    var body := p.Run(p.sub.stmt, p.context);
    if body.Err? {
      return Err(body.error);
    }
    r := Ok(While(SpanFrom(p.items, p.pos, spanStart), test.value, body.value));
  }

  /** The declarations of a first argument, after its keyword. */
  method ParseFirstDeclaration(p: Parser, spanStart: nat, kind: Syntax.VariableKind)
    returns (r: Result<Option<Syntax.ForInit>, Error>)
    requires p.Valid() && FirstDeclarationAt(p.items, p.sub, p.context, p.pos, spanStart, kind) != Unsupported
    modifies p`pos
    ensures p.Valid() && FirstDeclarationAt(p.items, p.sub, p.context, old(p.pos), spanStart, kind) == Done(r, p.pos)
  {
    var declarations := p.Run(p.sub.variableDeclarations, p.context.WithIn(false));
    if declarations.Err? {
      return Err(declarations.error);
    }
    var declaration := Syntax.StmtVariable(SpanFrom(p.items, p.pos, spanStart), kind, declarations.value);
    r := Ok(Some(Syntax.DeclarationInit(declaration)));
  }

  /** `parse_for_first_argument`. */
  method ParseForFirstArgument(p: Parser) returns (r: Result<Option<Syntax.ForInit>, Error>)
    requires p.Valid() && FirstArgumentAt(p.items, p.sub, p.context, p.pos) != Unsupported
    modifies p`pos
    ensures p.Valid() && FirstArgumentAt(p.items, p.sub, p.context, old(p.pos)) == Done(r, p.pos)
  {
    var spanStart := PositionAt(p.items, p.pos);
    var current := CurrentAt(p.items, p.pos);
    if current.Err? {
      return Err(current.error);
    }
    var kind := VariableKindOf(current.value.value);
    if kind.Some? {
      var _ := p.Consume();
      r := ParseFirstDeclaration(p, spanStart, kind.value);
      return;
    }
    if CurrentMatches(p.items, p.pos, Semicolon) {
      return Ok(None);
    }
    var expr := p.Run(p.sub.expr, p.context.WithIn(false));
    if expr.Err? {
      return Err(expr.error);
    }
    r := Ok(Some(Syntax.ExprInit(expr.value)));
  }

  /** The update, `)` and body of a plain `for` loop. */
  method ParsePlainForUpdate(p: Parser, spanStart: nat, init: Option<Syntax.ForInit>, test: Option<Syntax.Expr>)
    returns (r: Result<LoopStmt, Error>)
    requires p.Valid() && PlainForUpdateAt(p.items, p.sub, p.context, p.pos, spanStart, init, test) != Unsupported
    modifies p`pos
    ensures p.Valid() && PlainForUpdateAt(p.items, p.sub, p.context, old(p.pos), spanStart, init, test) == Done(r, p.pos)
  {
    var update: Option<Syntax.Expr> := None;
    if !CurrentMatches(p.items, p.pos, CloseParen) {
      var expr := p.Run(p.sub.expr, p.context);
      if expr.Err? {
        return Err(expr.error);
      }
      update := Some(expr.value);
    }
    var close := p.ConsumeAssert(CloseParen);
    if close.Err? {
      return Err(close.error);
    }
    var body := p.Run(p.sub.stmt, p.context);
    if body.Err? {
      return Err(body.error);
    }
    r := Ok(For(SpanFrom(p.items, p.pos, spanStart), init, test, update, body.value));
  }

  /** `parse_plain_for`. */
  method ParsePlainFor(p: Parser, spanStart: nat, init: Option<Syntax.ForInit>) returns (r: Result<LoopStmt, Error>)
    requires p.Valid() && PlainForAt(p.items, p.sub, p.context, p.pos, spanStart, init) != Unsupported
    modifies p`pos
    ensures p.Valid() && PlainForAt(p.items, p.sub, p.context, old(p.pos), spanStart, init) == Done(r, p.pos)
  {
    var first := p.ConsumeAssert(Semicolon);
    if first.Err? {
      return Err(first.error);
    }
    var test: Option<Syntax.Expr> := None;
    if !CurrentMatches(p.items, p.pos, Semicolon) {
      var expr := p.Run(p.sub.expr, p.context);
      if expr.Err? {
        return Err(expr.error);
      }
      test := Some(expr.value);
    }
    var second := p.ConsumeAssert(Semicolon);
    if second.Err? {
      return Err(second.error);
    }
    r := ParsePlainForUpdate(p, spanStart, init, test);
  }

  /** `parse_for_in`. */
  method ParseForIn(p: Parser, spanStart: nat, left: Syntax.ForInit) returns (r: Result<LoopStmt, Error>)
    requires p.Valid() && ForInAt(p.items, p.sub, p.context, p.pos, spanStart, left) != Unsupported
    modifies p`pos
    ensures p.Valid() && ForInAt(p.items, p.sub, p.context, old(p.pos), spanStart, left) == Done(r, p.pos)
  {
    var keyword := p.ConsumeAssert(InKeyword);
    if keyword.Err? {
      return Err(keyword.error);
    }
    var right := p.Run(p.sub.expr, p.context.WithIn(true));
    if right.Err? {
      return Err(right.error);
    }
    var close := p.ConsumeAssert(CloseParen);
    if close.Err? {
      return Err(close.error);
    }
    var body := p.Run(p.sub.stmt, p.context);
    if body.Err? {
      return Err(body.error);
    }
    r := Ok(ForIn(SpanFrom(p.items, p.pos, spanStart), left, right.value, body.value));
  }

  /** `parse_for_of`. */
  method ParseForOf(p: Parser, spanStart: nat, left: Syntax.ForInit, wait: bool) returns (r: Result<LoopStmt, Error>)
    requires p.Valid() && ForOfAt(p.items, p.sub, p.context, p.pos, spanStart, left, wait) != Unsupported
    modifies p`pos
    ensures p.Valid() && ForOfAt(p.items, p.sub, p.context, old(p.pos), spanStart, left, wait) == Done(r, p.pos)
  {
    var keyword := p.ConsumeAssert(OfKeyword);
    if keyword.Err? {
      return Err(keyword.error);
    }
    var right := p.Run(p.sub.expr, p.context.WithIn(true));
    if right.Err? {
      return Err(right.error);
    }
    var close := p.ConsumeAssert(CloseParen);
    if close.Err? {
      return Err(close.error);
    }
    var body := p.Run(p.sub.stmt, p.context);
    if body.Err? {
      return Err(body.error);
    }
    r := Ok(ForOf(SpanFrom(p.items, p.pos, spanStart), left, right.value, body.value, wait));
  }

  /** `err!(UnexpectedToken(self.reader.consume()?))`. */
  method ParseUnexpected(p: Parser) returns (r: Result<LoopStmt, Error>)
    requires p.Valid()
    modifies p`pos
    ensures p.Valid() && UnexpectedAt(p.items, old(p.pos)) == Done(r, p.pos)
  {
    var token := p.Consume();
    if token.Err? {
      return Err(token.error);
    }
    r := Err(Bindings.UnexpectedToken(token.value));
  }

  /** The form of the loop, chosen by the token after the first argument. */
  method ParseForForm(p: Parser, spanStart: nat, init: Option<Syntax.ForInit>) returns (r: Result<LoopStmt, Error>)
    requires p.Valid() && ForFormAt(p.items, p.sub, p.context, p.pos, spanStart, init) != Unsupported
    modifies p`pos
    ensures p.Valid() && ForFormAt(p.items, p.sub, p.context, old(p.pos), spanStart, init) == Done(r, p.pos)
  {
    if CurrentMatches(p.items, p.pos, Semicolon) {
      r := ParsePlainFor(p, spanStart, init);
    } else if CurrentMatches(p.items, p.pos, OfKeyword) && init.Some? {
      r := ParseForOf(p, spanStart, init.value, false);
    } else if CurrentMatches(p.items, p.pos, InKeyword) && init.Some? {
      r := ParseForIn(p, spanStart, init.value);
    } else {
      r := ParseUnexpected(p);
    }
  }

  /** `parse_for_await_of`. */
  method ParseForAwaitOf(p: Parser, spanStart: nat) returns (r: Result<LoopStmt, Error>)
    requires p.Valid() && ForAwaitOfAt(p.items, p.sub, p.context, p.pos, spanStart) != Unsupported
    modifies p`pos
    ensures p.Valid() && ForAwaitOfAt(p.items, p.sub, p.context, old(p.pos), spanStart) == Done(r, p.pos)
  {
    var keyword := p.Consume();
    if keyword.Err? {
      return Err(keyword.error);
    }
    var open := p.ConsumeAssert(OpenParen);
    if open.Err? {
      return Err(open.error);
    }
    var init := ParseForFirstArgument(p);
    if init.Err? {
      return Err(init.error);
    }
    if init.value.None? {
      r := ParseUnexpected(p);
      return;
    }
    r := ParseForOf(p, spanStart, init.value.value, true);
  }

  /** The head after `for (`. */
  method ParseForHead(p: Parser, spanStart: nat) returns (r: Result<LoopStmt, Error>)
    requires p.Valid() && ForHeadAt(p.items, p.sub, p.context, p.pos, spanStart) != Unsupported
    modifies p`pos
    ensures p.Valid() && ForHeadAt(p.items, p.sub, p.context, old(p.pos), spanStart) == Done(r, p.pos)
  {
    var init := ParseForFirstArgument(p);
    if init.Err? {
      return Err(init.error);
    }
    r := ParseForForm(p, spanStart, init.value);
  }

  /** `parse_for_stmt`. */
  method ParseForStmt(p: Parser) returns (r: Result<LoopStmt, Error>)
    requires p.Valid() && ForStmtAt(p.items, p.sub, p.context, p.pos) != Unsupported
    modifies p`pos
    ensures p.Valid() && ForStmtAt(p.items, p.sub, p.context, old(p.pos)) == Done(r, p.pos)
  {
    var spanStart := PositionAt(p.items, p.pos);
    var keyword := p.ConsumeAssert(ForKeyword);
    if keyword.Err? {
      return Err(keyword.error);
    }
    r := ParseAfterForKeyword(p, spanStart);
  }

  /** What follows `for`. */
  method ParseAfterForKeyword(p: Parser, spanStart: nat) returns (r: Result<LoopStmt, Error>)
    requires p.Valid() && AfterForKeywordAt(p.items, p.sub, p.context, p.pos, spanStart) != Unsupported
    modifies p`pos
    ensures p.Valid() && AfterForKeywordAt(p.items, p.sub, p.context, old(p.pos), spanStart) == Done(r, p.pos)
  {
    if p.context.isAwait && CurrentMatches(p.items, p.pos, AwaitKeyword) {
      r := ParseForAwaitOf(p, spanStart);
      return;
    }
    var open := p.ConsumeAssert(OpenParen);
    if open.Err? {
      return Err(open.error);
    }
    r := ParseForHead(p, spanStart);
  }
}
