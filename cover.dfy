/** Cover grammars (section 13.2 of ECMA-262): a `(` may start either a
    parenthesized expression or the parameters of an arrow function, and
    `async (` either a call or the head of an async arrow function. The
    parser decides by skipping to the matching `)`, looking at the token
    after it and rewinding. */
module Cover {
  import opened Wrappers
  import Tokens
  import Ast
  import Errors
  import Syntax
  import opened ParserCore

  const OpenParen := Tokens.PunctValue(Tokens.ParenOpen)
  const CloseParen := Tokens.PunctValue(Tokens.ParenClose)
  const Arrow := Tokens.PunctValue(Tokens.EqualGreater)

  /** A lexer error the skipping loop steps over: an unrecognized code
      point. Every other error stops it. */
  predicate IsSkippable(e: Error) {
    e.kind.LexerError? && e.kind.lexerError.kind.UnrecognizedCodePoint?
  }

  /** `skip_until_closing_parenthesis`, continued at `i` with nesting
      `depth`: consumes items until a `)` brings the depth to zero. `(`
      nests, `)` un-nests (a `)` seen first makes the depth negative), a
      template head hands over to the template-parts routine, an
      unrecognized code point is skipped and any other error, the end of
      the stream included, ends the skip with that error. */
  function SkipUntilClosingAt(items: seq<Item>, sub: SubParsers, ctx: Context, i: nat, depth: int): (r: Step<()>)
    requires sub.Valid() && i <= |items|
    ensures r.Within(i, |items|)
    ensures r.Ok() ==> i < r.next && CurrentMatches(items, r.next - 1, CloseParen)
    ensures i == |items| ==> r == Done(Err(Errors.EndOfStreamAt(ReaderPosition(items, i))), i)
    decreases |items| - i
  {
    var t := ConsumeAt(items, i);
    match t.result
    case Ok(token) =>
      if token.value == OpenParen then SkipUntilClosingAt(items, sub, ctx, t.next, depth + 1)
      else if token.value == CloseParen then
        if depth - 1 == 0 then Done(Ok(()), t.next)
        else SkipUntilClosingAt(items, sub, ctx, t.next, depth - 1)
      else if token.value.TemplateHead? then
        var parts :- sub.templateParts(items, t.next, ctx);
        SkipUntilClosingAt(items, sub, ctx, parts.next, depth)
      else SkipUntilClosingAt(items, sub, ctx, t.next, depth)
    case Err(e) =>
      if IsSkippable(e) then SkipUntilClosingAt(items, sub, ctx, t.next, depth)
      else Done(Err(e), t.next)
  }

  /** The errors the skip meets: an unrecognized code point is stepped over
      at the same depth, and any other error ends the skip with that error,
      past the item that carried it. */
  lemma SkipErrorItems(items: seq<Item>, sub: SubParsers, ctx: Context, i: nat, depth: int)
    requires sub.Valid() && i < |items| && CurrentAt(items, i).Err?
    ensures IsSkippable(CurrentAt(items, i).error) ==>
              SkipUntilClosingAt(items, sub, ctx, i, depth) == SkipUntilClosingAt(items, sub, ctx, i + 1, depth)
    ensures !IsSkippable(CurrentAt(items, i).error) ==>
              SkipUntilClosingAt(items, sub, ctx, i, depth) == Done(Err(CurrentAt(items, i).error), i + 1)
  {
  }

  /** How much an item changes the nesting: `(` opens, `)` closes. */
  function Delta(item: Item): int {
    if item.Tok? && item.token.value == OpenParen then 1
    else if item.Tok? && item.token.value == CloseParen then -1
    else 0
  }

  /** Opened minus closed parentheses among `items[i..j]`. */
  function Balance(items: seq<Item>, i: nat, j: nat): int
    requires i <= j <= |items|
    decreases j - i
  {
    if i == j then 0 else Delta(items[i]) + Balance(items, i + 1, j)
  }

  predicate NoTemplateHeads(items: seq<Item>, i: nat, j: nat)
    requires i <= j <= |items|
  {
    forall k :: i <= k < j && items[k].Tok? ==> !items[k].token.value.TemplateHead?
  }

  /** Where no template literal intervenes, a successful skip stops at the
      first `)` that balances the parentheses read since `i` against the
      starting `depth`: the skipped items end in a `)`, balance out to
      `-depth`, and no earlier `)` among them did. */
  lemma {:induction false} SkipStopsAtMatchingParen(items: seq<Item>, sub: SubParsers, ctx: Context, i: nat, depth: int)
    requires sub.Valid() && i <= |items|
    requires SkipUntilClosingAt(items, sub, ctx, i, depth).Ok()
    requires NoTemplateHeads(items, i, SkipUntilClosingAt(items, sub, ctx, i, depth).next)
    ensures var r := SkipUntilClosingAt(items, sub, ctx, i, depth);
            depth + Balance(items, i, r.next) == 0
            && forall k :: i <= k < r.next - 1 && CurrentMatches(items, k, CloseParen) ==>
                 depth + Balance(items, i, k + 1) != 0
    decreases |items| - i
  {
    var r := SkipUntilClosingAt(items, sub, ctx, i, depth);
    assert i < |items|;
    assert Balance(items, i, i + 1) == Delta(items[i]);
    if items[i].Tok? && items[i].token.value == CloseParen && depth - 1 == 0 {
      assert r.next == i + 1;
    } else {
      assert !(items[i].Tok? && items[i].token.value.TemplateHead?);
      var d := depth + Delta(items[i]);
      assert r == SkipUntilClosingAt(items, sub, ctx, i + 1, d);
      SkipStopsAtMatchingParen(items, sub, ctx, i + 1, d);
      assert Balance(items, i, r.next) == Delta(items[i]) + Balance(items, i + 1, r.next);
      forall k | i <= k < r.next - 1 && CurrentMatches(items, k, CloseParen)
        ensures depth + Balance(items, i, k + 1) != 0
      {
        assert Balance(items, i, k + 1) == Delta(items[i]) + Balance(items, i + 1, k + 1);
      }
    }
  }

  /** `token_after_parenthesis`: the token after the matching `)`, if
      there is one, with the cursor rewound to where it was. A failed skip
      returns its error without rewinding; no current token is an error at
      once. */
  function TokenAfterParenthesisAt(items: seq<Item>, sub: SubParsers, ctx: Context, i: nat): (r: Step<Option<Token>>)
    requires sub.Valid() && i <= |items|
    ensures r.Within(i, |items|)
    ensures CurrentAt(items, i).Err? ==> r == Done(Err(CurrentAt(items, i).error), i)
    ensures var skip := SkipUntilClosingAt(items, sub, ctx, i, 0);
            CurrentAt(items, i).Ok? ==>
              (skip.Unsupported? ==> r.Unsupported?)
              && (skip.Done? && skip.result.Err? ==> r == Done(Err(skip.result.error), skip.next))
              && (skip.Ok() ==> r.Ok() && r.next == i
                                && (r.result.value.Some? <==> CurrentAt(items, skip.next).Ok?)
                                && (r.result.value.Some? ==> r.result.value.value == items[skip.next].token))
  {
    var start :- CurrentStep(items, i);
    var skipped :- SkipUntilClosingAt(items, sub, ctx, i, 0);
    var after := ConsumeAt(items, skipped.next);
    Done(Ok(if after.result.Ok? then Some(after.result.value) else None), i)
  }

  /** Whether the look-ahead found `=>`. */
  predicate IsArrow(after: Option<Token>) {
    after.Some? && after.value.value == Arrow
  }

  /** `parse_covered_call_expression`: `async` read as an identifier
      reference and handed to the call-expression routine as its callee. */
  function CoveredCallAt(items: seq<Item>, sub: SubParsers, ctx: Context, i: nat): (r: Step<Syntax.Expr>)
    requires sub.Valid() && i <= |items|
    ensures r.Within(i, |items|)
    ensures !IsIdentifierAt(items, i, ctx) ==> r == ParseIdentifierAt(items, i, ctx).PropagateFailure()
    ensures IsIdentifierAt(items, i, ctx) ==>
              r == sub.callExpr(items, i + 1, ctx, items[i].token.span.start,
                                Syntax.IdentRef(ParseIdentifierAt(items, i, ctx).result.value))
  {
    var spanStart := PositionAt(items, i);
    var ident :- ParseIdentifierAt(items, i, ctx);
    sub.callExpr(items, ident.next, ctx, spanStart, Syntax.IdentRef(ident.value))
  }

  /** `parse_cover_parenthesized_and_arrow_parameters`: the arrow function
      exactly when the token after the matching `)` is `=>` on the same
      line; the parenthesized expression otherwise. Both start again at
      the `(`. */
  function CoverParenthesizedAt(items: seq<Item>, sub: SubParsers, ctx: Context, i: nat): (r: Step<Syntax.Expr>)
    requires sub.Valid() && i <= |items|
    ensures r.Within(i, |items|)
    ensures CurrentAt(items, i).Err? ==> r == Done(Err(CurrentAt(items, i).error), i)
    ensures var skip := SkipUntilClosingAt(items, sub, ctx, i, 0);
            CurrentAt(items, i).Ok? ==>
              (skip.Done? && skip.result.Err? ==> r == Done(Err(skip.result.error), skip.next))
              && (skip.Ok() && CurrentMatches(items, skip.next, Arrow) && !items[skip.next].token.firstOnLine ==>
                    r == sub.arrowFunction(items, i, ctx))
              && (skip.Ok() && !(CurrentMatches(items, skip.next, Arrow) && !items[skip.next].token.firstOnLine) ==>
                    r == sub.parenthesizedExpr(items, i, ctx))
  {
    var after :- TokenAfterParenthesisAt(items, sub, ctx, i);
    if IsArrow(after.value) && !after.value.value.firstOnLine then sub.arrowFunction(items, after.next, ctx)
    else sub.parenthesizedExpr(items, after.next, ctx)
  }

  /** `parse_cover_call_or_async_arrow_head`: the async arrow function
      exactly when the token after the matching `)` is `=>`, whatever
      line it is on; the call expression otherwise. */
  function CoverCallOrAsyncArrowAt(items: seq<Item>, sub: SubParsers, ctx: Context, i: nat): (r: Step<Syntax.Expr>)
    requires sub.Valid() && i <= |items|
    ensures r.Within(i, |items|)
    ensures CurrentAt(items, i).Err? ==> r == Done(Err(CurrentAt(items, i).error), i)
    ensures var skip := SkipUntilClosingAt(items, sub, ctx, i, 0);
            CurrentAt(items, i).Ok? ==>
              (skip.Done? && skip.result.Err? ==> r == Done(Err(skip.result.error), skip.next))
              && (skip.Ok() && CurrentMatches(items, skip.next, Arrow) ==>
                    r == sub.asyncArrowFunction(items, i, ctx))
              && (skip.Ok() && !CurrentMatches(items, skip.next, Arrow) ==>
                    r == CoveredCallAt(items, sub, ctx, i))
  {
    var after :- TokenAfterParenthesisAt(items, sub, ctx, i);
    if IsArrow(after.value) then sub.asyncArrowFunction(items, after.next, ctx)
    else CoveredCallAt(items, sub, ctx, after.next)
  }

  // ---------------------------------------------------------------------
  // The parser's methods

  method SkipUntilClosingParenthesis(p: Parser) returns (r: Result<(), Error>)
    requires p.Valid() && SkipUntilClosingAt(p.items, p.sub, p.context, p.pos, 0) != Unsupported
    modifies p`pos
    ensures p.Valid() && SkipUntilClosingAt(p.items, p.sub, p.context, old(p.pos), 0) == Done(r, p.pos)
  {
    ghost var start := p.pos;
    var depth: int := 0;
    while true
      invariant p.Valid() && start <= p.pos
      invariant SkipUntilClosingAt(p.items, p.sub, p.context, p.pos, depth)
                == SkipUntilClosingAt(p.items, p.sub, p.context, start, 0)
      decreases |p.items| - p.pos
    {
      var token := p.Consume();
      if token.Ok? {
        if token.value.value == OpenParen {
          depth := depth + 1;
        } else if token.value.value == CloseParen {
          depth := depth - 1;
          if depth == 0 {
            return Ok(());
          }
        } else if token.value.value.TemplateHead? {
          var parts := p.Run(p.sub.templateParts, p.context);
          if parts.Err? {
            return Err(parts.error);
          }
        }
      } else if !IsSkippable(token.error) {
        return Err(token.error);
      }
    }
  }

  method TokenAfterParenthesis(p: Parser) returns (r: Result<Option<Token>, Error>)
    requires p.Valid() && TokenAfterParenthesisAt(p.items, p.sub, p.context, p.pos) != Unsupported
    modifies p`pos
    ensures p.Valid() && TokenAfterParenthesisAt(p.items, p.sub, p.context, old(p.pos)) == Done(r, p.pos)
  {
    var start := CurrentAt(p.items, p.pos);
    if start.Err? {
      return Err(start.error);
    }
    var startPos := p.pos;
    var skipped := SkipUntilClosingParenthesis(p);
    if skipped.Err? {
      return Err(skipped.error);
    }
    var token := p.Consume();
    p.Rewind(startPos);
    r := Ok(if token.Ok? then Some(token.value) else None);
  }

  method ParseCoveredCallExpression(p: Parser) returns (r: Result<Syntax.Expr, Error>)
    requires p.Valid() && CoveredCallAt(p.items, p.sub, p.context, p.pos) != Unsupported
    modifies p`pos
    ensures p.Valid() && CoveredCallAt(p.items, p.sub, p.context, old(p.pos)) == Done(r, p.pos)
  {
    var spanStart := PositionAt(p.items, p.pos);
    var ident := p.ParseIdentifier();
    if ident.Err? {
      return Err(ident.error);
    }
    r := p.RunCallExpr(p.context, spanStart, Syntax.IdentRef(ident.value));
  }

  method ParseCoverParenthesizedAndArrowParameters(p: Parser) returns (r: Result<Syntax.Expr, Error>)
    requires p.Valid() && CoverParenthesizedAt(p.items, p.sub, p.context, p.pos) != Unsupported
    modifies p`pos
    ensures p.Valid() && CoverParenthesizedAt(p.items, p.sub, p.context, old(p.pos)) == Done(r, p.pos)
  {
    var after := TokenAfterParenthesis(p);
    if after.Err? {
      return Err(after.error);
    }
    if IsArrow(after.value) && !after.value.value.firstOnLine {
      r := p.Run(p.sub.arrowFunction, p.context);
    } else {
      r := p.Run(p.sub.parenthesizedExpr, p.context);
    }
  }

  method ParseCoverCallOrAsyncArrowHead(p: Parser) returns (r: Result<Syntax.Expr, Error>)
    requires p.Valid() && CoverCallOrAsyncArrowAt(p.items, p.sub, p.context, p.pos) != Unsupported
    modifies p`pos
    ensures p.Valid() && CoverCallOrAsyncArrowAt(p.items, p.sub, p.context, old(p.pos)) == Done(r, p.pos)
  {
    var after := TokenAfterParenthesis(p);
    if after.Err? {
      return Err(after.error);
    }
    if IsArrow(after.value) {
      r := p.Run(p.sub.asyncArrowFunction, p.context);
    } else {
      r := ParseCoveredCallExpression(p);
    }
  }
}
