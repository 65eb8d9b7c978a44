/** Functions: arrow functions (after their parameters), function
    expressions and declarations, plain and async, formal parameter lists
    and function bodies with their directive prologue. */
module Functions {
  import opened Wrappers
  import Tokens
  import Ast
  import Errors
  import Syntax
  import opened ParserCore
  import Bindings

  const ArrowValue := Tokens.PunctValue(Tokens.EqualGreater)
  const StarValue := Tokens.PunctValue(Tokens.Star)
  const FunctionKeyword := Tokens.KeywordValue(Tokens.Function)
  const AsyncKeyword := Tokens.KeywordValue(Tokens.Async)
  const ParameterStart := Tokens.PunctValue(Tokens.ParenOpen)
  const BodyStart := Tokens.PunctValue(Tokens.BracketOpen)
  const BodyEnd := Tokens.PunctValue(Tokens.BracketClose)

  // ---------------------------------------------------------------------
  // Directives of a function body

  /** `match_string_literal`: the string of an expression statement made
      of a string literal alone; it picks out the same statements as the
      program's directive prologue does. */
  function MatchStringLiteral(stmt: Syntax.Stmt): (r: Option<string>)
    ensures r.Some? <==> AsDirective(stmt).Some?
    ensures r.Some? ==> r.value == AsDirective(stmt).value.value
  {
    match stmt
    case ExprStmt(_, LiteralExpr(_, StringLiteral(s))) => Some(s.value)
    case _ => None
  }

  /** The leading run of directive statements, as strings, and the
      statements from the first non-directive on. */
  function SplitDirectives(stmts: seq<Syntax.Stmt>): (r: (seq<string>, seq<Syntax.Stmt>))
    ensures |r.0| + |r.1| == |stmts| && r.1 == stmts[|r.0|..]
    ensures forall k :: 0 <= k < |r.0| ==> MatchStringLiteral(stmts[k]) == Some(r.0[k])
    ensures r.1 != [] ==> MatchStringLiteral(r.1[0]).None?
  {
    if stmts == [] then ([], [])
    else match MatchStringLiteral(stmts[0])
      case Some(s) =>
        var rest := SplitDirectives(stmts[1..]);
        assert forall k :: 0 < k <= |rest.0| ==> stmts[k] == stmts[1..][k - 1];
        ([s] + rest.0, rest.1)
      case None => ([], stmts)
  }

  /** The statements of a body from `i` up to its closing `}`, which is
      consumed. */
  function BodyStatementsAt(items: seq<Item>, sub: SubParsers, ctx: Context, i: nat): (r: Step<seq<Syntax.Stmt>>)
    requires sub.Valid() && i <= |items|
    ensures r.Within(i, |items|)
    ensures r.Ok() ==> i < r.next
    decreases |items| - i
  {
    if CurrentMatches(items, i, BodyEnd) then Done(Ok([]), i + 1)
    else
      var stmt :- sub.stmt(items, i, ctx);
      var rest :- BodyStatementsAt(items, sub, ctx, stmt.next);
      Done(Ok([stmt.value] + rest.value), rest.next)
  }

  /** The loop of `parse_function_body` from `i`, with the directives and
      statements collected so far: a string-literal statement counts as a
      directive only while no other statement has been collected. */
  function BodyLoopAt(items: seq<Item>, sub: SubParsers, ctx: Context, i: nat,
                      directives: seq<string>, statements: seq<Syntax.Stmt>)
    : (r: Step<(seq<string>, seq<Syntax.Stmt>)>)
    requires sub.Valid() && i <= |items|
    ensures r.Within(i, |items|)
    ensures r.Ok() ==> i < r.next
    decreases |items| - i
  {
    var close := MaybeConsumeAt(items, i, BodyEnd);
    if close.result.value then Done(Ok((directives, statements)), close.next)
    else
      var stmt :- sub.stmt(items, i, ctx);
      if statements != [] then BodyLoopAt(items, sub, ctx, stmt.next, directives, statements + [stmt.value])
      else match MatchStringLiteral(stmt.value)
        case Some(s) => BodyLoopAt(items, sub, ctx, stmt.next, directives + [s], statements)
        case None => BodyLoopAt(items, sub, ctx, stmt.next, directives, statements + [stmt.value])
  }

  /** How the loop arranges the statements it has still to read, `rest`,
      given what it has collected. */
  function Arrange(directives: seq<string>, statements: seq<Syntax.Stmt>, rest: seq<Syntax.Stmt>)
    : (seq<string>, seq<Syntax.Stmt>)
  {
    if statements == [] then (directives + SplitDirectives(rest).0, SplitDirectives(rest).1)
    else (directives, statements + rest)
  }

  /** The body loop reads the same statements as `BodyStatementsAt` and
      splits them into the leading directives and the rest. */
  lemma {:induction false} BodyLoopSplitsDirectives(items: seq<Item>, sub: SubParsers, ctx: Context, i: nat,
                                                    directives: seq<string>, statements: seq<Syntax.Stmt>)
    requires sub.Valid() && i <= |items|
    ensures BodyLoopAt(items, sub, ctx, i, directives, statements)
            == MapStep(BodyStatementsAt(items, sub, ctx, i),
                       (rest: seq<Syntax.Stmt>) => Arrange(directives, statements, rest))
    decreases |items| - i
  {
    if CurrentMatches(items, i, BodyEnd) {
      assert directives + [] == directives && statements + [] == statements;
    } else {
      var s := sub.stmt(items, i, ctx);
      if s.Ok() {
        var stmt := s.result.value;
        var tail := BodyStatementsAt(items, sub, ctx, s.next);
        if statements != [] {
          BodyLoopSplitsDirectives(items, sub, ctx, s.next, directives, statements + [stmt]);
          if tail.Ok() {
            ArrangeShifts(directives, statements, stmt, tail.result.value);
          }
        } else {
          match MatchStringLiteral(stmt)
          case Some(str) =>
            BodyLoopSplitsDirectives(items, sub, ctx, s.next, directives + [str], statements);
            if tail.Ok() {
              ArrangeShifts(directives, statements, stmt, tail.result.value);
            }
          case None =>
            BodyLoopSplitsDirectives(items, sub, ctx, s.next, directives, statements + [stmt]);
            if tail.Ok() {
              ArrangeShifts(directives, statements, stmt, tail.result.value);
            }
        }
      }
    }
  }

  /** One statement moved from what is still to read to what the loop
      has collected, as the loop collects it. */
  lemma ArrangeShifts(directives: seq<string>, statements: seq<Syntax.Stmt>, stmt: Syntax.Stmt,
                      rest: seq<Syntax.Stmt>)
    ensures Arrange(directives, statements, [stmt] + rest)
            == if statements == [] && MatchStringLiteral(stmt).Some?
               then Arrange(directives + [MatchStringLiteral(stmt).value], statements, rest)
               else Arrange(directives, statements + [stmt], rest)
  {
    if statements != [] {
      assert statements + [stmt] + rest == statements + ([stmt] + rest);
    } else if MatchStringLiteral(stmt).Some? {
      assert ([stmt] + rest)[1..] == rest;
      var split := SplitDirectives(rest);
      assert directives + ([MatchStringLiteral(stmt).value] + split.0)
          == directives + [MatchStringLiteral(stmt).value] + split.0;
    } else {
      assert ([stmt] + rest)[0] == stmt;
      assert directives + [] == directives && statements + [stmt] == [stmt];
    }
  }

  /** `parse_function_body`: `{`, statements up to `}`; the directives are
      the leading string-literal statements, the statements the rest. */
  function FunctionBodyAt(items: seq<Item>, sub: SubParsers, ctx: Context, i: nat): (r: Step<Syntax.Body>)
    requires sub.Valid() && i <= |items|
    ensures r.Within(i, |items|)
    ensures r.Ok() ==> i + 1 < r.next && CurrentMatches(items, i, BodyStart)
    ensures r.Ok() ==>
              var raw := BodyStatementsAt(items, sub, ctx, i + 1);
              raw.Ok() && raw.next == r.next
              && r.result.value.directives == SplitDirectives(raw.result.value).0
              && r.result.value.statements == SplitDirectives(raw.result.value).1
              && r.result.value.span == Tokens.Span(items[i].token.span.start, ReaderPosition(items, r.next))
  {
    var spanStart := PositionAt(items, i);
    var open :- ConsumeAssertAt(items, i, BodyStart);
    BodyLoopSplitsDirectives(items, sub, ctx, open.next, [], []);
    assert forall d: seq<string> :: [] + d == d;
    var body :- BodyLoopAt(items, sub, ctx, open.next, [], []);
    Done(Ok(Syntax.Body(SpanFrom(items, body.next, spanStart), body.value.0, body.value.1)), body.next)
  }

  // ---------------------------------------------------------------------
  // Formal parameters

  /** The loop of `parse_formal_parameters` from `i`: binding elements and
      rest elements, each followed by a delimiter, up to `)`. A later rest
      element replaces an earlier one. */
  function FormalParametersLoopAt(items: seq<Item>, ctx: Context, i: nat,
                                  bindings: seq<Syntax.BindingElement>, rest: Option<Syntax.BindingPattern>)
    : (r: Step<(seq<Syntax.BindingElement>, Option<Syntax.BindingPattern>)>)
    requires i <= |items|
    ensures r.Within(i, |items|)
    ensures r.Ok() ==> i < r.next
    decreases |items| - i
  {
    var c :- CurrentStep(items, i);
    if c.value.value == ParameterEnd then Done(Ok((bindings, rest)), i + 1)
    else if c.value.value == Bindings.Ellipsis then
      var pattern :- Delimited(items, i, Bindings.BindingPatternAt(items, ctx, i + 1));
      FormalParametersLoopAt(items, ctx, pattern.next, bindings, Some(pattern.value))
    else
      var element :- Delimited(items, i, Bindings.BindingElementAt(items, ctx, i));
      FormalParametersLoopAt(items, ctx, element.next, bindings + [element.value], rest)
  }

  /** The loop keeps the parameters read before it, in order, and keeps a
      rest parameter once one was read. */
  lemma {:induction false} FormalParametersLoopOrder(items: seq<Item>, ctx: Context, i: nat,
                                                     bindings: seq<Syntax.BindingElement>,
                                                     rest: Option<Syntax.BindingPattern>)
    requires i <= |items| && FormalParametersLoopAt(items, ctx, i, bindings, rest).Ok()
    ensures var r := FormalParametersLoopAt(items, ctx, i, bindings, rest);
            |bindings| <= |r.result.value.0| && r.result.value.0[..|bindings|] == bindings
            && (rest.Some? ==> r.result.value.1.Some?)
    decreases |items| - i
  {
    var j, bindings', rest' := FormalParametersLoopRound(items, ctx, i, bindings, rest);
    if !CurrentMatches(items, i, ParameterEnd) {
      FormalParametersLoopOrder(items, ctx, j, bindings', rest');
      var r := FormalParametersLoopAt(items, ctx, j, bindings', rest');
      assert r.result.value.0[..|bindings|] == r.result.value.0[..|bindings'|][..|bindings|];
    }
  }

  /** The loop ends right after a `)`: the item before the index where it
      stops is that `)`. */
  lemma {:induction false} FormalParametersLoopEnds(items: seq<Item>, ctx: Context, i: nat,
                                                    bindings: seq<Syntax.BindingElement>,
                                                    rest: Option<Syntax.BindingPattern>)
    returns (k: nat)
    requires i <= |items| && FormalParametersLoopAt(items, ctx, i, bindings, rest).Ok()
    ensures k + 1 == FormalParametersLoopAt(items, ctx, i, bindings, rest).next
    ensures k < |items| && CurrentMatches(items, k, ParameterEnd)
    decreases |items| - i
  {
    var j, bindings', rest' := FormalParametersLoopRound(items, ctx, i, bindings, rest);
    if CurrentMatches(items, i, ParameterEnd) {
      k := i;
    } else {
      k := FormalParametersLoopEnds(items, ctx, j, bindings', rest');
    }
  }

  /** One round of the loop that succeeds: `)` ends it; otherwise a rest
      element or a binding element and its delimiter are read, and the loop
      goes on from `j` with the parameters read so far, the earlier ones
      kept in order and a rest element kept once read. */
  lemma FormalParametersLoopRound(items: seq<Item>, ctx: Context, i: nat,
                                  bindings: seq<Syntax.BindingElement>,
                                  rest: Option<Syntax.BindingPattern>)
    returns (j: nat, bindings': seq<Syntax.BindingElement>, rest': Option<Syntax.BindingPattern>)
    requires i <= |items| && FormalParametersLoopAt(items, ctx, i, bindings, rest).Ok()
    ensures CurrentMatches(items, i, ParameterEnd) ==>
              FormalParametersLoopAt(items, ctx, i, bindings, rest) == Done(Ok((bindings, rest)), i + 1)
    ensures !CurrentMatches(items, i, ParameterEnd) ==>
              i < j <= |items|
              && FormalParametersLoopAt(items, ctx, i, bindings, rest) == FormalParametersLoopAt(items, ctx, j, bindings', rest')
              && |bindings| <= |bindings'| && bindings'[..|bindings|] == bindings
              && (rest.Some? ==> rest'.Some?)
  {
    j, bindings', rest' := i, bindings, rest;
    if !CurrentMatches(items, i, ParameterEnd) {
      if CurrentMatches(items, i, Bindings.Ellipsis) {
        var pattern := Delimited(items, i, Bindings.BindingPatternAt(items, ctx, i + 1));
        j, rest' := pattern.next, Some(pattern.result.value);
      } else {
        var element := Delimited(items, i, Bindings.BindingElementAt(items, ctx, i));
        j, bindings' := element.next, bindings + [element.result.value];
        assert bindings'[..|bindings|] == bindings;
      }
    }
  }

  /** A parameter read from `i` by `s`, then the delimiter after it. */
  function Delimited<T>(items: seq<Item>, i: nat, s: Step<T>): (r: Step<T>)
    requires i <= |items| && s.Within(i, |items|)
    ensures r.Within(i, |items|)
    ensures r.Ok() ==> s.Ok() && s.next <= r.next && r.result.value == s.result.value
  {
    var v :- s;
    var d :- ConsumeListDelimiterAt(items, v.next, ParameterEnd);
    Done(Ok(v.value), d.next)
  }

  /** `parse_formal_parameters`: `(`, the parameters, `)`. */
  function FormalParametersAt(items: seq<Item>, ctx: Context, i: nat): (r: Step<Syntax.FormalParameters>)
    requires i <= |items|
    ensures r.Within(i, |items|)
    ensures r.Ok() ==> i + 1 < r.next && CurrentMatches(items, i, ParameterStart)
    ensures r.Ok() ==>
              FormalParametersLoopAt(items, ctx, i + 1, [], None)
                == Done(Ok((r.result.value.bindings, r.result.value.rest)), r.next)
              && r.result.value.span == Tokens.Span(items[i].token.span.start, ReaderPosition(items, r.next))
  {
    var spanStart := PositionAt(items, i);
    var open :- ConsumeAssertAt(items, i, ParameterStart);
    var body :- FormalParametersLoopAt(items, ctx, open.next, [], None);
    Done(Ok(Syntax.FormalParameters(SpanFrom(items, body.next, spanStart), body.value.0, body.value.1)), body.next)
  }

  /** `parse_arrow_identifier_argument`: a lone identifier as the
      parameter list; the list and its one element span the identifier. */
  function ArrowIdentifierArgumentAt(items: seq<Item>, ctx: Context, i: nat): (r: Step<Syntax.FormalParameters>)
    requires i <= |items|
    ensures r.Done? && r.Within(i, |items|)
    ensures r.result.Ok? <==> IsIdentifierAt(items, i, ctx)
    ensures r.result.Ok? ==>
              r.next == i + 1 && r.result.value.span == items[i].token.span
              && r.result.value.rest.None? && |r.result.value.bindings| == 1
              && r.result.value.bindings[0]
                 == Syntax.BindingElement(items[i].token.span,
                                          Syntax.IdentPattern(ParseIdentifierAt(items, i, ctx).result.value), None)
    ensures r.result.Err? ==> r.result.error == ParseIdentifierAt(items, i, ctx).result.error
  {
    var spanStart := PositionAt(items, i);
    var ident :- ParseIdentifierAt(items, i, ctx);
    var span := SpanFrom(items, ident.next, spanStart);
    Done(Ok(Syntax.FormalParameters(span, [Syntax.BindingElement(span, Syntax.IdentPattern(ident.value), None)], None)),
         ident.next)
  }

  // ---------------------------------------------------------------------
  // Arrow functions

  /** The body of an arrow function: a function body when it starts with
      `{`, an assignment expression otherwise. */
  function ArrowBodyAt(items: seq<Item>, sub: SubParsers, ctx: Context, i: nat): (r: Step<Syntax.ArrowFunctionBody>)
    requires sub.Valid() && i <= |items|
    ensures r.Within(i, |items|)
    ensures r.Ok() ==> i < r.next && (r.result.value.BlockBody? <==> CurrentMatches(items, i, BodyStart))
    ensures r.Ok() && r.result.value.BlockBody? ==> FunctionBodyAt(items, sub, ctx, i) == Done(Ok(r.result.value.block), r.next)
    ensures r.Ok() && r.result.value.ExprBody? ==> sub.assignmentExpr(items, i, ctx) == Done(Ok(r.result.value.bodyExpr), r.next)
  {
    if CurrentMatches(items, i, BodyStart) then
      MapStep(FunctionBodyAt(items, sub, ctx, i), (b: Syntax.Body) => Syntax.BlockBody(b))
    else MapStep(sub.assignmentExpr(items, i, ctx), (e: Syntax.Expr) => Syntax.ExprBody(e))
  }

  /** `parse_arrow_function_expr`, with the parameters already parsed:
      `=>` and the body, in the same context. */
  function ArrowFunctionAt(items: seq<Item>, sub: SubParsers, ctx: Context, i: nat,
                           spanStart: nat, bindingParameter: bool, parameters: Syntax.FormalParameters)
    : (r: Step<Syntax.Expr>)
    requires sub.Valid() && i <= |items|
    ensures r.Within(i, |items|)
    ensures r.Ok() ==>
              CurrentMatches(items, i, ArrowValue) && r.result.value.ArrowFunction?
              && var f := r.result.value.arrow;
              !f.asynchronous && f.bindingParameter == bindingParameter && f.parameters == parameters
              && ArrowBodyAt(items, sub, ctx, i + 1) == Done(Ok(f.body), r.next)
              && f.span == Tokens.Span(spanStart, ReaderPosition(items, r.next))
  {
    var arrow :- ConsumeAssertAt(items, i, ArrowValue);
    var body :- ArrowBodyAt(items, sub, ctx, arrow.next);
    Done(Ok(Syntax.ArrowFunction(Syntax.ExprArrowFunction(
           SpanFrom(items, body.next, spanStart), false, bindingParameter, parameters, body.value))), body.next)
  }

  /** `parse_async_arrow_function_expr`: the body is parsed with `[Await]`
      set. */
  function AsyncArrowFunctionAt(items: seq<Item>, sub: SubParsers, ctx: Context, i: nat,
                                spanStart: nat, bindingParameter: bool, parameters: Syntax.FormalParameters)
    : (r: Step<Syntax.Expr>)
    requires sub.Valid() && i <= |items|
    ensures r.Within(i, |items|)
    ensures r.Ok() ==>
              CurrentMatches(items, i, ArrowValue) && r.result.value.ArrowFunction?
              && var f := r.result.value.arrow;
              f.asynchronous && f.bindingParameter == bindingParameter && f.parameters == parameters
              && ArrowBodyAt(items, sub, ctx.WithAwait(true), i + 1) == Done(Ok(f.body), r.next)
              && f.span == Tokens.Span(spanStart, ReaderPosition(items, r.next))
  {
    var arrow :- ConsumeAssertAt(items, i, ArrowValue);
    var body :- ArrowBodyAt(items, sub, ctx.WithAwait(true), arrow.next);
    Done(Ok(Syntax.ArrowFunction(Syntax.ExprArrowFunction(
           SpanFrom(items, body.next, spanStart), true, bindingParameter, parameters, body.value))), body.next)
  }

  // ---------------------------------------------------------------------
  // Function expressions and declarations

  /** What follows `function`: an optional `*`, an optional name, the
      parameters and the body, all in context `ctx`. */
  function FunctionRestAt(items: seq<Item>, sub: SubParsers, ctx: Context, i: nat, spanStart: nat, asynchronous: bool)
    : (r: Step<Syntax.ExprFunction>)
    requires sub.Valid() && i <= |items|
    ensures r.Within(i, |items|)
    ensures r.Ok() ==>
              var f := r.result.value;
              f.asynchronous == asynchronous
              && f.generator == CurrentMatches(items, i, StarValue)
              && (f.identifier.Some? <==> IsIdentifierAt(items, if f.generator then i + 1 else i, ctx))
              && f.span == Tokens.Span(spanStart, ReaderPosition(items, r.next))
  {
    var generator := MaybeConsumeAt(items, i, StarValue);
    var identifier := ParseOptionalIdentifierAt(items, generator.next, ctx);
    var parameters :- FormalParametersAt(items, ctx, identifier.next);
    var body :- FunctionBodyAt(items, sub, ctx, parameters.next);
    Done(Ok(Syntax.ExprFunction(SpanFrom(items, body.next, spanStart), asynchronous, generator.result.value,
                                identifier.result.value, parameters.value, body.value)), body.next)
  }

  /** `parse_function_expr`: `function`, then the rest, not async. */
  function FunctionExprAt(items: seq<Item>, sub: SubParsers, ctx: Context, i: nat): (r: Step<Syntax.Expr>)
    requires sub.Valid() && i <= |items|
    ensures r.Within(i, |items|)
    ensures r.Ok() ==>
              CurrentMatches(items, i, FunctionKeyword) && r.result.value.Function?
              && FunctionRestAt(items, sub, ctx, i + 1, items[i].token.span.start, false)
                 == Done(Ok(r.result.value.func), r.next)
  {
    var spanStart := PositionAt(items, i);
    var keyword :- ConsumeAssertAt(items, i, FunctionKeyword);
    var f :- FunctionRestAt(items, sub, ctx, keyword.next, spanStart, false);
    Done(Ok(Syntax.Function(f.value)), f.next)
  }

  /** The `async function` opening shared by async function expressions
      and declarations: the start of the `async` token once both keywords
      are consumed. The source asserts that `function` is on the line of
      `async`; a token stream breaking that is outside the model. */
  function AsyncFunctionOpeningAt(items: seq<Item>, i: nat): (r: Step<nat>)
    requires i <= |items|
    ensures r.Within(i, |items|)
    ensures r.Ok() <==> CurrentMatches(items, i, AsyncKeyword) && CurrentMatches(items, i + 1, FunctionKeyword)
                        && !items[i + 1].token.firstOnLine
    ensures r.Ok() ==> r.next == i + 2 && r.result.value == items[i].token.span.start
  {
    var spanStart := PositionAt(items, i);
    var asyncKw :- ConsumeAssertAt(items, i, AsyncKeyword);
    var keyword :- ConsumeAssertAt(items, asyncKw.next, FunctionKeyword);
    if keyword.value.firstOnLine then Unsupported
    else Done(Ok(spanStart), keyword.next)
  }

  /** `parse_async_function_expr`: `async function`, then the rest. */
  function AsyncFunctionExprAt(items: seq<Item>, sub: SubParsers, ctx: Context, i: nat): (r: Step<Syntax.Expr>)
    requires sub.Valid() && i <= |items|
    ensures r.Within(i, |items|)
    ensures r.Ok() ==>
              var opening := AsyncFunctionOpeningAt(items, i);
              opening.Ok() && r.result.value.Function?
              && FunctionRestAt(items, sub, ctx, opening.next, opening.result.value, true)
                 == Done(Ok(r.result.value.func), r.next)
  {
    var opening :- AsyncFunctionOpeningAt(items, i);
    var f :- FunctionRestAt(items, sub, ctx, opening.next, opening.value, true);
    Done(Ok(Syntax.Function(f.value)), f.next)
  }

  /** `parse_function_implementation`: parameters and body after the name
      of a declaration. */
  function FunctionImplementationAt(items: seq<Item>, sub: SubParsers, ctx: Context, i: nat, spanStart: nat,
                                    ident: Ast.Ident, generator: bool, asynchronous: bool)
    : (r: Step<Syntax.Stmt>)
    requires sub.Valid() && i <= |items|
    ensures r.Within(i, |items|)
    ensures r.Ok() ==>
              r.result.value.FunctionDecl?
              && var d := r.result.value.functionDecl;
              d.identifier == ident && d.generator == generator && d.asynchronous == asynchronous
              && FormalParametersAt(items, ctx, i).Ok()
              && d.parameters == FormalParametersAt(items, ctx, i).result.value
              && FunctionBodyAt(items, sub, ctx, FormalParametersAt(items, ctx, i).next) == Done(Ok(d.body), r.next)
              && d.span == Tokens.Span(spanStart, ReaderPosition(items, r.next))
  {
    var parameters :- FormalParametersAt(items, ctx, i);
    var body :- FunctionBodyAt(items, sub, ctx, parameters.next);
    Done(Ok(Syntax.FunctionDecl(Syntax.DeclFunction(SpanFrom(items, body.next, spanStart), asynchronous, generator,
                                                    ident, parameters.value, body.value))), body.next)
  }

  /** What follows `function` in a declaration: an optional `*` and a
      required name, read in the outer context `ctx`; then the parameters
      and body, read in `inner`. */
  function DeclarationRestAt(items: seq<Item>, sub: SubParsers, ctx: Context, inner: Context, i: nat,
                             spanStart: nat, asynchronous: bool)
    : (r: Step<Syntax.Stmt>)
    requires sub.Valid() && i <= |items|
    ensures r.Within(i, |items|)
    ensures r.Ok() ==>
              var generator := CurrentMatches(items, i, StarValue);
              r.result.value.FunctionDecl? && r.result.value.functionDecl.generator == generator
              && NamedDeclarationAt(items, sub, ctx, inner, if generator then i + 1 else i, spanStart,
                                    generator, asynchronous) == r
  {
    var generator := MaybeConsumeAt(items, i, StarValue);
    NamedDeclarationAt(items, sub, ctx, inner, generator.next, spanStart, generator.result.value, asynchronous)
  }

  /** The name of a declaration, read in `ctx`, then its parameters and
      body, read in `inner`. */
  function NamedDeclarationAt(items: seq<Item>, sub: SubParsers, ctx: Context, inner: Context, i: nat,
                              spanStart: nat, generator: bool, asynchronous: bool)
    : (r: Step<Syntax.Stmt>)
    requires sub.Valid() && i <= |items|
    ensures r.Within(i, |items|)
    ensures r.Ok() ==>
              var ident := ParseIdentifierAt(items, i, ctx);
              ident.Ok() && r.result.value.FunctionDecl?
              && r.result.value.functionDecl.identifier == ident.result.value
              && FunctionImplementationAt(items, sub, inner, i + 1, spanStart, ident.result.value,
                                          generator, asynchronous) == r
  {
    var ident :- ParseIdentifierAt(items, i, ctx);
    FunctionImplementationAt(items, sub, inner, ident.next, spanStart, ident.value, generator, asynchronous)
  }

  /** `parse_function_declaration`: `function`, then a declaration whose
      parameters and body are read without `[Yield]` and `[Await]`. */
  function FunctionDeclarationAt(items: seq<Item>, sub: SubParsers, ctx: Context, i: nat): (r: Step<Syntax.Stmt>)
    requires sub.Valid() && i <= |items|
    ensures r.Within(i, |items|)
    ensures r.Ok() ==>
              CurrentMatches(items, i, FunctionKeyword)
              && DeclarationRestAt(items, sub, ctx, ctx.WithYield(false).WithAwait(false), i + 1,
                                   items[i].token.span.start, false) == r
  {
    var spanStart := PositionAt(items, i);
    var keyword :- ConsumeAssertAt(items, i, FunctionKeyword);
    DeclarationRestAt(items, sub, ctx, ctx.WithYield(false).WithAwait(false), keyword.next, spanStart, false)
  }

  /** `parse_async_function_declaration`: `async function`, then a
      declaration whose parameters and body are read with `[Await]` and
      without `[Yield]`. */
  function AsyncFunctionDeclarationAt(items: seq<Item>, sub: SubParsers, ctx: Context, i: nat): (r: Step<Syntax.Stmt>)
    requires sub.Valid() && i <= |items|
    ensures r.Within(i, |items|)
    ensures r.Ok() ==>
              var opening := AsyncFunctionOpeningAt(items, i);
              opening.Ok() && r.result.value.FunctionDecl? && r.result.value.functionDecl.asynchronous
              && DeclarationRestAt(items, sub, ctx, ctx.WithYield(false).WithAwait(true), opening.next,
                                   opening.result.value, true) == r
  {
    var opening :- AsyncFunctionOpeningAt(items, i);
    DeclarationRestAt(items, sub, ctx, ctx.WithYield(false).WithAwait(true), opening.next, opening.value, true)
  }

  // ---------------------------------------------------------------------
  // The parser's methods

  /** `parse_function_body`. */
  method ParseFunctionBody(p: Parser) returns (r: Result<Syntax.Body, Error>)
    requires p.Valid() && FunctionBodyAt(p.items, p.sub, p.context, p.pos) != Unsupported
    modifies p`pos
    ensures p.Valid() && FunctionBodyAt(p.items, p.sub, p.context, old(p.pos)) == Done(r, p.pos)
  {
    ghost var start := p.pos;
    var spanStart := PositionAt(p.items, p.pos);
    var open := p.ConsumeAssert(BodyStart);
    if open.Err? {
      return Err(open.error);
    }
    var directives: seq<string> := [];
    var statements: seq<Syntax.Stmt> := [];
    while true
      invariant p.Valid() && start < p.pos
      invariant BodyLoopAt(p.items, p.sub, p.context, p.pos, directives, statements)
                == BodyLoopAt(p.items, p.sub, p.context, start + 1, [], [])
      decreases |p.items| - p.pos
    {
      var close := p.MaybeConsume(BodyEnd);
      if close.value {
        break;
      }
      var stmt := p.Run(p.sub.stmt, p.context);
      if stmt.Err? {
        return Err(stmt.error);
      }
      if statements != [] {
        statements := statements + [stmt.value];
      } else {
        match MatchStringLiteral(stmt.value)
        case Some(directive) =>
          directives := directives + [directive];
        case None =>
          statements := statements + [stmt.value];
      }
    }
    r := Ok(Syntax.Body(SpanFrom(p.items, p.pos, spanStart), directives, statements));
  }

  /** `parse_formal_parameters`. */
  method ParseFormalParameters(p: Parser) returns (r: Result<Syntax.FormalParameters, Error>)
    requires p.Valid() && FormalParametersAt(p.items, p.context, p.pos) != Unsupported
    modifies p`pos
    ensures p.Valid() && FormalParametersAt(p.items, p.context, old(p.pos)) == Done(r, p.pos)
  {
    var spanStart := PositionAt(p.items, p.pos);
    var open := p.ConsumeAssert(ParameterStart);
    if open.Err? {
      return Err(open.error);
    }
    var list := ParseParameterList(p);
    if list.Err? {
      return Err(list.error);
    }
    r := Ok(Syntax.FormalParameters(SpanFrom(p.items, p.pos, spanStart), list.value.0, list.value.1));
  }

  /** The loop of `parse_formal_parameters`, after `(`. */
  method ParseParameterList(p: Parser)
    returns (r: Result<(seq<Syntax.BindingElement>, Option<Syntax.BindingPattern>), Error>)
    requires p.Valid() && FormalParametersLoopAt(p.items, p.context, p.pos, [], None) != Unsupported
    modifies p`pos
    ensures p.Valid() && FormalParametersLoopAt(p.items, p.context, old(p.pos), [], None) == Done(r, p.pos)
  {
    ghost var start := p.pos;
    var bindings: seq<Syntax.BindingElement> := [];
    var rest: Option<Syntax.BindingPattern> := None;
    while true
      invariant p.Valid() && start <= p.pos
      invariant FormalParametersLoopAt(p.items, p.context, p.pos, bindings, rest)
                == FormalParametersLoopAt(p.items, p.context, start, [], None)
      decreases |p.items| - p.pos
    {
      var current := CurrentAt(p.items, p.pos);
      if current.Err? {
        return Err(current.error);
      }
      if current.value.value == ParameterEnd {
        var _ := p.Consume();
        return Ok((bindings, rest));
      } else if current.value.value == Bindings.Ellipsis {
        var pattern := ParseDelimitedRest(p);
        if pattern.Err? {
          return Err(pattern.error);
        }
        rest := Some(pattern.value);
      } else {
        var element := ParseDelimitedElement(p);
        if element.Err? {
          return Err(element.error);
        }
        bindings := bindings + [element.value];
      }
    }
  }

  /** A rest parameter, then the delimiter after it. */
  method ParseDelimitedRest(p: Parser) returns (r: Result<Syntax.BindingPattern, Error>)
    requires p.Valid() && CurrentMatches(p.items, p.pos, Bindings.Ellipsis)
    requires Delimited(p.items, p.pos, Bindings.BindingPatternAt(p.items, p.context, p.pos + 1)) != Unsupported
    modifies p`pos
    ensures p.Valid()
    ensures Delimited(p.items, old(p.pos), Bindings.BindingPatternAt(p.items, p.context, old(p.pos) + 1))
            == Done(r, p.pos)
  {
    r := Bindings.ParseBindingRestElement(p);
    if r.Err? {
      return;
    }
    var delimiter := p.ConsumeParameterDelimiter();
    if delimiter.Err? {
      return Err(delimiter.error);
    }
  }

  /** A parameter, then the delimiter after it. */
  method ParseDelimitedElement(p: Parser) returns (r: Result<Syntax.BindingElement, Error>)
    requires p.Valid()
    requires Delimited(p.items, p.pos, Bindings.BindingElementAt(p.items, p.context, p.pos)) != Unsupported
    modifies p`pos
    ensures p.Valid()
    ensures Delimited(p.items, old(p.pos), Bindings.BindingElementAt(p.items, p.context, old(p.pos)))
            == Done(r, p.pos)
  {
    r := Bindings.ParseBindingElement(p);
    if r.Err? {
      return;
    }
    var delimiter := p.ConsumeParameterDelimiter();
    if delimiter.Err? {
      return Err(delimiter.error);
    }
  }

  /** `parse_arrow_identifier_argument`. */
  method ParseArrowIdentifierArgument(p: Parser) returns (r: Result<Syntax.FormalParameters, Error>)
    requires p.Valid()
    modifies p`pos
    ensures p.Valid() && ArrowIdentifierArgumentAt(p.items, p.context, old(p.pos)) == Done(r, p.pos)
  {
    var spanStart := PositionAt(p.items, p.pos);
    var identifier := p.ParseIdentifier();
    if identifier.Err? {
      return Err(identifier.error);
    }
    var span := SpanFrom(p.items, p.pos, spanStart);
    r := Ok(Syntax.FormalParameters(span, [Syntax.BindingElement(span, Syntax.IdentPattern(identifier.value), None)], None));
  }

  /** The body of an arrow function, in the parser's current context. */
  method ParseArrowBody(p: Parser) returns (r: Result<Syntax.ArrowFunctionBody, Error>)
    requires p.Valid() && ArrowBodyAt(p.items, p.sub, p.context, p.pos) != Unsupported
    modifies p`pos
    ensures p.Valid() && ArrowBodyAt(p.items, p.sub, p.context, old(p.pos)) == Done(r, p.pos)
  {
    if CurrentMatches(p.items, p.pos, BodyStart) {
      var body := ParseFunctionBody(p);
      if body.Err? {
        return Err(body.error);
      }
      r := Ok(Syntax.BlockBody(body.value));
    } else {
      var expr := p.Run(p.sub.assignmentExpr, p.context);
      if expr.Err? {
        return Err(expr.error);
      }
      r := Ok(Syntax.ExprBody(expr.value));
    }
  }

  /** `parse_arrow_function_expr`. */
  method ParseArrowFunctionExpr(p: Parser, spanStart: nat, bindingParameter: bool, parameters: Syntax.FormalParameters)
    returns (r: Result<Syntax.Expr, Error>)
    requires p.Valid()
    requires ArrowFunctionAt(p.items, p.sub, p.context, p.pos, spanStart, bindingParameter, parameters) != Unsupported
    modifies p`pos
    ensures p.Valid()
    ensures ArrowFunctionAt(p.items, p.sub, p.context, old(p.pos), spanStart, bindingParameter, parameters) == Done(r, p.pos)
  {
    var arrow := p.ConsumeAssert(ArrowValue);
    if arrow.Err? {
      return Err(arrow.error);
    }
    var body := ParseArrowBody(p);
    if body.Err? {
      return Err(body.error);
    }
    var span := SpanFrom(p.items, p.pos, spanStart);
    r := Ok(Syntax.ArrowFunction(Syntax.ExprArrowFunction(span, false, bindingParameter, parameters, body.value)));
  }

  /** `parse_async_arrow_function_expr`: the body is read by a parser whose
      context has `[Await]` set; the context is the caller's again
      afterwards. */
  method ParseAsyncArrowFunctionExpr(p: Parser, spanStart: nat, bindingParameter: bool, parameters: Syntax.FormalParameters)
    returns (r: Result<Syntax.Expr, Error>)
    requires p.Valid()
    requires AsyncArrowFunctionAt(p.items, p.sub, p.context, p.pos, spanStart, bindingParameter, parameters) != Unsupported
    modifies p`pos, p`context
    ensures p.Valid() && p.context == old(p.context)
    ensures AsyncArrowFunctionAt(p.items, p.sub, p.context, old(p.pos), spanStart, bindingParameter, parameters)
            == Done(r, p.pos)
  {
    var arrow := p.ConsumeAssert(ArrowValue);
    if arrow.Err? {
      return Err(arrow.error);
    }
    var saved := p.context;
    p.context := saved.WithAwait(true);
    var body := ParseArrowBody(p);
    p.context := saved;
    if body.Err? {
      return Err(body.error);
    }
    var span := SpanFrom(p.items, p.pos, spanStart);
    r := Ok(Syntax.ArrowFunction(Syntax.ExprArrowFunction(span, true, bindingParameter, parameters, body.value)));
  }

  /** The part of a function expression after `function`. */
  method ParseFunctionRest(p: Parser, spanStart: nat, asynchronous: bool) returns (r: Result<Syntax.ExprFunction, Error>)
    requires p.Valid() && FunctionRestAt(p.items, p.sub, p.context, p.pos, spanStart, asynchronous) != Unsupported
    modifies p`pos
    ensures p.Valid() && FunctionRestAt(p.items, p.sub, p.context, old(p.pos), spanStart, asynchronous) == Done(r, p.pos)
  {
    var generator := p.MaybeConsume(StarValue);
    var identifier := p.ParseOptionalIdentifier();
    var parameters := ParseFormalParameters(p);
    if parameters.Err? {
      return Err(parameters.error);
    }
    var body := ParseFunctionBody(p);
    if body.Err? {
      return Err(body.error);
    }
    var span := SpanFrom(p.items, p.pos, spanStart);
    r := Ok(Syntax.ExprFunction(span, asynchronous, generator.value, identifier.value, parameters.value, body.value));
  }

  /** `parse_function_expr`. */
  method ParseFunctionExpr(p: Parser) returns (r: Result<Syntax.Expr, Error>)
    requires p.Valid() && FunctionExprAt(p.items, p.sub, p.context, p.pos) != Unsupported
    modifies p`pos
    ensures p.Valid() && FunctionExprAt(p.items, p.sub, p.context, old(p.pos)) == Done(r, p.pos)
  {
    var spanStart := PositionAt(p.items, p.pos);
    var keyword := p.ConsumeAssert(FunctionKeyword);
    if keyword.Err? {
      return Err(keyword.error);
    }
    var f := ParseFunctionRest(p, spanStart, false);
    if f.Err? {
      return Err(f.error);
    }
    r := Ok(Syntax.Function(f.value));
  }

  /** The `async function` opening, consumed. */
  method ParseAsyncFunctionOpening(p: Parser) returns (r: Result<nat, Error>)
    requires p.Valid() && AsyncFunctionOpeningAt(p.items, p.pos) != Unsupported
    modifies p`pos
    ensures p.Valid() && AsyncFunctionOpeningAt(p.items, old(p.pos)) == Done(r, p.pos)
  {
    var spanStart := PositionAt(p.items, p.pos);
    var asyncKw := p.ConsumeAssert(AsyncKeyword);
    if asyncKw.Err? {
      return Err(asyncKw.error);
    }
    var keyword := p.ConsumeAssert(FunctionKeyword);
    if keyword.Err? {
      return Err(keyword.error);
    }
    if keyword.value.firstOnLine {
      assert false;
    }
    r := Ok(spanStart);
  }

  /** `parse_async_function_expr`. */
  method ParseAsyncFunctionExpr(p: Parser) returns (r: Result<Syntax.Expr, Error>)
    requires p.Valid() && AsyncFunctionExprAt(p.items, p.sub, p.context, p.pos) != Unsupported
    modifies p`pos
    ensures p.Valid() && AsyncFunctionExprAt(p.items, p.sub, p.context, old(p.pos)) == Done(r, p.pos)
  {
    var spanStart := ParseAsyncFunctionOpening(p);
    if spanStart.Err? {
      return Err(spanStart.error);
    }
    var f := ParseFunctionRest(p, spanStart.value, true);
    if f.Err? {
      return Err(f.error);
    }
    r := Ok(Syntax.Function(f.value));
  }

  /** `parse_function_implementation`. */
  method ParseFunctionImplementation(p: Parser, spanStart: nat, ident: Ast.Ident, generator: bool, asynchronous: bool)
    returns (r: Result<Syntax.Stmt, Error>)
    requires p.Valid()
    requires FunctionImplementationAt(p.items, p.sub, p.context, p.pos, spanStart, ident, generator, asynchronous) != Unsupported
    modifies p`pos
    ensures p.Valid()
    ensures FunctionImplementationAt(p.items, p.sub, p.context, old(p.pos), spanStart, ident, generator, asynchronous)
            == Done(r, p.pos)
  {
    var parameters := ParseFormalParameters(p);
    if parameters.Err? {
      return Err(parameters.error);
    }
    var body := ParseFunctionBody(p);
    if body.Err? {
      return Err(body.error);
    }
    var span := SpanFrom(p.items, p.pos, spanStart);
    r := Ok(Syntax.FunctionDecl(Syntax.DeclFunction(span, asynchronous, generator, ident, parameters.value, body.value)));
  }

  /** The generator mark and name of a declaration, read in the caller's
      context, then its implementation read in context `inner`. */
  method ParseDeclarationRest(p: Parser, inner: Context, spanStart: nat, asynchronous: bool)
    returns (r: Result<Syntax.Stmt, Error>)
    requires p.Valid()
    requires DeclarationRestAt(p.items, p.sub, p.context, inner, p.pos, spanStart, asynchronous) != Unsupported
    modifies p`pos, p`context
    ensures p.Valid() && p.context == old(p.context)
    ensures DeclarationRestAt(p.items, p.sub, p.context, inner, old(p.pos), spanStart, asynchronous) == Done(r, p.pos)
  {
    var generator := p.MaybeConsume(StarValue);
    var ident := p.ParseIdentifier();
    if ident.Err? {
      return Err(ident.error);
    }
    var saved := p.context;
    p.context := inner;
    r := ParseFunctionImplementation(p, spanStart, ident.value, generator.value, asynchronous);
    p.context := saved;
  }

  /** `parse_function_declaration`. */
  method ParseFunctionDeclaration(p: Parser) returns (r: Result<Syntax.Stmt, Error>)
    requires p.Valid() && FunctionDeclarationAt(p.items, p.sub, p.context, p.pos) != Unsupported
    modifies p`pos, p`context
    ensures p.Valid() && p.context == old(p.context)
    ensures FunctionDeclarationAt(p.items, p.sub, p.context, old(p.pos)) == Done(r, p.pos)
  {
    var spanStart := PositionAt(p.items, p.pos);
    var keyword := p.ConsumeAssert(FunctionKeyword);
    if keyword.Err? {
      return Err(keyword.error);
    }
    r := ParseDeclarationRest(p, p.context.WithYield(false).WithAwait(false), spanStart, false);
  }

  /** `parse_async_function_declaration`. */
  method ParseAsyncFunctionDeclaration(p: Parser) returns (r: Result<Syntax.Stmt, Error>)
    requires p.Valid() && AsyncFunctionDeclarationAt(p.items, p.sub, p.context, p.pos) != Unsupported
    modifies p`pos, p`context
    ensures p.Valid() && p.context == old(p.context)
    ensures AsyncFunctionDeclarationAt(p.items, p.sub, p.context, old(p.pos)) == Done(r, p.pos)
  {
    var spanStart := ParseAsyncFunctionOpening(p);
    if spanStart.Err? {
      return Err(spanStart.error);
    }
    r := ParseDeclarationRest(p, p.context.WithYield(false).WithAwait(true), spanStart.value, true);
  }
}
