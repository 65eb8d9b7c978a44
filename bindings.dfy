/** Binding patterns: identifiers, object patterns `{ a, b, ...rest }` and
    array patterns `[ a, , [b], ...rest ]`, with the binding elements and
    rest elements they are made of. */
module Bindings {
  import opened Wrappers
  import Tokens
  import Ast
  import Errors
  import Syntax
  import opened ParserCore

  const ObjectOpen := Tokens.PunctValue(Tokens.BracketOpen)
  const ArrayOpen := Tokens.PunctValue(Tokens.BraceOpen)
  const Ellipsis := Tokens.PunctValue(Tokens.TripleDot)
  const Semicolon := Tokens.PunctValue(Tokens.SemiColon)
  const Assign := Tokens.PunctValue(Tokens.Equal)

  /** The error for a token no pattern can start with. */
  function UnexpectedToken(token: Token): Error {
    Errors.Of(Errors.UnexpectedToken(token))
  }

  const RestNotLastMessage := "Rest element must be last element"

  /** The current item is the token with value `v`. */
  predicate TokenIs(items: seq<Item>, k: int, v: Tokens.TokenValue) {
    0 <= k < |items| && items[k].Tok? && items[k].token.value == v
  }

  // ---------------------------------------------------------------------
  // Specification

  /** `parse_rest_binding_ident`: an identifier followed by the expected
      closing punctuator, both consumed; any other token after the
      identifier is consumed and reported at the identifier. */
  function RestBindingIdentAt(items: seq<Item>, ctx: Context, i: nat, expectedEnd: Tokens.Punct)
    : (r: Step<Option<Ast.Ident>>)
    requires i <= |items|
    ensures r.Done? && r.Within(i, |items|)
    ensures r.result.Ok? <==> IsIdentifierAt(items, i, ctx) && TokenIs(items, i + 1, Tokens.PunctValue(expectedEnd))
    ensures r.result.Ok? ==>
              r.next == i + 2 && r.result.value.Some?
              && ParseIdentifierAt(items, i, ctx) == Done(Ok(r.result.value.value), i + 1)
  {
    var ident :- ParseIdentifierAt(items, i, ctx);
    RestEndAt(items, ident.next, ident.value, expectedEnd)
  }

  /** After the identifier of a rest element: the expected closing
      punctuator must follow it. */
  function RestEndAt(items: seq<Item>, i: nat, ident: Ast.Ident, expectedEnd: Tokens.Punct)
    : (r: Step<Option<Ast.Ident>>)
    requires i <= |items|
    ensures r.Done? && r.Within(i, |items|)
    ensures r.result.Ok? <==> TokenIs(items, i, Tokens.PunctValue(expectedEnd))
    ensures r.result.Ok? ==> r.next == i + 1 && r.result.value == Some(ident)
  {
    var end :- ConsumeAt(items, i);
    if end.value.value.PunctValue? && end.value.value.punct == expectedEnd then
      Done(Ok(Some(ident)), end.next)
    else
      Done(Err(Errors.Of(Errors.SyntaxError(RestNotLastMessage, ident.span))), end.next)
  }

  /** Anything but the expected punctuator after the identifier is reported
      as a rest element that is not last, at the identifier. */
  lemma RestBindingIdentNotLast(items: seq<Item>, ctx: Context, i: nat, expectedEnd: Tokens.Punct)
    requires i + 1 < |items| && IsIdentifierAt(items, i, ctx) && items[i + 1].Tok?
    requires items[i + 1].token.value != Tokens.PunctValue(expectedEnd)
    ensures RestBindingIdentAt(items, ctx, i, expectedEnd)
            == Done(Err(Errors.Of(Errors.SyntaxError(RestNotLastMessage, items[i].token.span))), i + 2)
  {
  }

  /** The loop of `parse_object_binding_pattern`, from index `i` with the
      properties collected so far: identifiers separated by commas, up to
      the closing `}` or a rest element. */
  function ObjectPropsAt(items: seq<Item>, ctx: Context, i: nat, props: seq<Syntax.ObjectBindingProp>)
    : (r: Step<(seq<Syntax.ObjectBindingProp>, Option<Ast.Ident>)>)
    requires i <= |items|
    ensures r.Done? && r.Within(i, |items|)
    ensures r.result.Ok? ==> i < r.next
    ensures r.result.Ok? ==> props <= r.result.value.0
    decreases |items| - i
  {
    var c :- CurrentStep(items, i);
    var v := c.value.value;
    if v == ObjectEnd then Done(Ok((props, None)), i + 1)
    else if v == Ellipsis then
      var rest :- RestBindingIdentAt(items, ctx, i + 1, Tokens.BracketClose);
      Done(Ok((props, rest.value)), rest.next)
    else if IsIdentifierAt(items, i, ctx) then
      var ident := ParseIdentifierAt(items, i, ctx).result.value;
      var d :- ConsumeListDelimiterAt(items, i + 1, ObjectEnd);
      ObjectPropsAt(items, ctx, d.next, props + [Syntax.AssignProp(ident)])
    else Done(Err(UnexpectedToken(c.value)), i + 1)
  }

  /** The properties always stop just after a `}`: the closing brace of
      the pattern, or the one the rest identifier must be followed by. */
  lemma {:induction false} ObjectPropsEnd(items: seq<Item>, ctx: Context, i: nat, props: seq<Syntax.ObjectBindingProp>)
    requires i <= |items| && ObjectPropsAt(items, ctx, i, props).result.Ok?
    ensures TokenIs(items, ObjectPropsAt(items, ctx, i, props).next - 1, ObjectEnd)
    decreases |items| - i
  {
    var v := items[i].token.value;
    if v != ObjectEnd && v != Ellipsis {
      var d := ConsumeListDelimiterAt(items, i + 1, ObjectEnd);
      ObjectPropsEnd(items, ctx, d.next, props + [Syntax.AssignProp(ParseIdentifierAt(items, i, ctx).result.value)]);
    }
  }

  /** `parse_object_binding_pattern`, called on `{`: the properties, then a
      `;` directly after the closing brace is consumed too; the current
      token after the pattern must exist. */
  function ObjectPatternAt(items: seq<Item>, ctx: Context, i: nat): (r: Step<Syntax.BindingPattern>)
    requires i <= |items| && CurrentMatches(items, i, ObjectOpen)
    ensures r.Done? && r.Within(i, |items|)
    ensures r.result.Ok? ==> i < r.next && r.result.value.ObjectPattern?
    ensures r.result.Ok? ==>
              var body := ObjectPropsAt(items, ctx, i + 1, []);
              body.result.Ok? && r.result.value.props == body.result.value.0
              && r.result.value.objectRest == body.result.value.1
              && ObjectPatternEndAt(items, body.next, items[i].token.span.start, body.result.value) == r
  {
    var spanStart := PositionAt(items, i);
    var body :- ObjectPropsAt(items, ctx, i + 1, []);
    ObjectPatternEndAt(items, body.next, spanStart, body.value)
  }

  /** What follows the closing brace of an object pattern: a current token
      must exist, and it is consumed when it is `;`; the pattern spans up
      to there. */
  function ObjectPatternEndAt(items: seq<Item>, i: nat, spanStart: nat,
                              body: (seq<Syntax.ObjectBindingProp>, Option<Ast.Ident>))
    : (r: Step<Syntax.BindingPattern>)
    requires i <= |items|
    ensures r.Done? && r.Within(i, |items|)
    ensures r.result.Ok? <==> CurrentAt(items, i).Ok?
    ensures r.result.Ok? ==>
              r.next == (if TokenIs(items, i, Semicolon) then i + 1 else i)
              && r.result.value == Syntax.ObjectPattern(Tokens.Span(spanStart, ReaderPosition(items, r.next)),
                                                        body.0, body.1)
  {
    var c :- CurrentStep(items, i);
    var next := if c.value.value == Semicolon then i + 1 else i;
    Done(Ok(Syntax.ObjectPattern(SpanFrom(items, next, spanStart), body.0, body.1)), next)
  }

  /** `parse_binding_pattern`: the current token decides; `{` starts an
      object pattern, `[` an array pattern, an identifier is a pattern by
      itself, and any other token is consumed and reported. */
  function BindingPatternAt(items: seq<Item>, ctx: Context, i: nat): (r: Step<Syntax.BindingPattern>)
    requires i <= |items|
    ensures r.Within(i, |items|)
    ensures r.Ok() ==> i < r.next
    ensures r.Ok() ==> (r.result.value.ObjectPattern? <==> CurrentMatches(items, i, ObjectOpen))
    ensures r.Ok() ==> (r.result.value.ArrayPattern? <==> CurrentMatches(items, i, ArrayOpen))
    ensures r.Ok() && r.result.value.IdentPattern? ==>
              ParseIdentifierAt(items, i, ctx) == Done(Ok(r.result.value.ident), i + 1)
    ensures (CurrentAt(items, i).Ok? && !CurrentMatches(items, i, ObjectOpen) && !CurrentMatches(items, i, ArrayOpen)
             && !IsIdentifierAt(items, i, ctx)) ==> r == Done(Err(UnexpectedToken(items[i].token)), i + 1)
    decreases |items| - i, 2
  {
    var c :- CurrentStep(items, i);
    if c.value.value == ObjectOpen then ObjectPatternAt(items, ctx, i)
    else if c.value.value == ArrayOpen then ArrayPatternAt(items, ctx, i)
    else if IsIdentifierAt(items, i, ctx) then
      MapStep(ParseIdentifierAt(items, i, ctx), (id: Ast.Ident) => Syntax.IdentPattern(id))
    else Done(Err(UnexpectedToken(c.value)), i + 1)
  }

  /** `parse_array_binding_pattern`, called on `[`. */
  function ArrayPatternAt(items: seq<Item>, ctx: Context, i: nat): (r: Step<Syntax.BindingPattern>)
    requires i <= |items| && CurrentMatches(items, i, ArrayOpen)
    ensures r.Within(i, |items|)
    ensures r.Ok() ==> i < r.next && r.result.value.ArrayPattern?
    ensures r.Ok() ==>
              ArrayElementsAt(items, ctx, i + 1, []) == Done(Ok((r.result.value.elements, r.result.value.arrayRest)), r.next)
              && r.result.value.arraySpan == Tokens.Span(items[i].token.span.start, ReaderPosition(items, r.next))
    decreases |items| - i, 1
  {
    var spanStart := PositionAt(items, i);
    var body :- ArrayElementsAt(items, ctx, i + 1, []);
    Done(Ok(Syntax.ArrayPattern(SpanFrom(items, body.next, spanStart), body.value.0, body.value.1)), body.next)
  }

  /** The loop of `parse_array_binding_pattern`, from index `i` with the
      elements collected so far: a `,` alone is an elision, `{`, `[` and
      identifiers start binding elements followed by a delimiter, and the
      pattern ends at `]` or after a rest element. */
  function ArrayElementsAt(items: seq<Item>, ctx: Context, i: nat, elements: seq<Option<Syntax.BindingElement>>)
    : (r: Step<(seq<Option<Syntax.BindingElement>>, Option<Ast.Ident>)>)
    requires i <= |items|
    ensures r.Within(i, |items|)
    ensures r.Ok() ==> i < r.next
    ensures r.Ok() ==> elements <= r.result.value.0
    ensures r.Ok() ==> TokenIs(items, r.next - 1, ArrayEnd)
    decreases |items| - i, 5
  {
    var c :- CurrentStep(items, i);
    var v := c.value.value;
    if v == ArrayEnd then Done(Ok((elements, None)), i + 1)
    else if v == Comma then ArrayElementsAt(items, ctx, i + 1, elements + [None])
    else if v == Ellipsis then
      var rest :- RestBindingIdentAt(items, ctx, i + 1, Tokens.BraceClose);
      Done(Ok((elements, rest.value)), rest.next)
    else if v == ObjectOpen || v == ArrayOpen || IsIdentifierAt(items, i, ctx) then
      var element :- ArrayElementAt(items, ctx, i);
      ArrayElementsAt(items, ctx, element.next, elements + [Some(element.value)])
    else Done(Err(UnexpectedToken(c.value)), i + 1)
  }

  /** One element of an array binding pattern with the `,` or `]` after
      it; the `]` is left for the loop to consume. */
  function ArrayElementAt(items: seq<Item>, ctx: Context, i: nat): (r: Step<Syntax.BindingElement>)
    requires i <= |items|
    ensures r.Within(i, |items|)
    ensures r.Ok() ==> i < r.next && BindingElementAt(items, ctx, i).Ok()
                       && r.result.value == BindingElementAt(items, ctx, i).result.value
    decreases |items| - i, 4
  {
    var element :- BindingElementAt(items, ctx, i);
    var d :- ConsumeListDelimiterAt(items, element.next, ArrayEnd);
    Done(Ok(element.value), d.next)
  }

  /** `parse_binding_element`: a pattern; an initializer `= ...` after it
      is not supported. */
  function BindingElementAt(items: seq<Item>, ctx: Context, i: nat): (r: Step<Syntax.BindingElement>)
    requires i <= |items|
    ensures r.Within(i, |items|)
    ensures r.Ok() ==> i < r.next && r.result.value.initializer.None?
    ensures r.Ok() ==> BindingPatternAt(items, ctx, i) == Done(Ok(r.result.value.pattern), r.next)
                       && CurrentAt(items, r.next).Ok? && !CurrentMatches(items, r.next, Assign)
    decreases |items| - i, 3
  {
    var spanStart := PositionAt(items, i);
    var pattern :- BindingPatternAt(items, ctx, i);
    var c :- CurrentStep(items, pattern.next);
    if c.value.value == Assign then Unsupported
    else Done(Ok(Syntax.BindingElement(SpanFrom(items, pattern.next, spanStart), pattern.value, None)), pattern.next)
  }

  // ---------------------------------------------------------------------
  // Lemmas

  /** Puts `prefix` in front of the list a successful step yields. */
  function PrependTo<A, B>(prefix: seq<A>, s: Step<(seq<A>, B)>): Step<(seq<A>, B)> {
    match s
    case Done(Ok((list, last)), n) => Done(Ok((prefix + list, last)), n)
    case _ => s
  }

  /** One identifier property of the loop: it is appended and the loop
      goes on after the delimiter. */
  lemma ObjectPropsIdentifierStep(items: seq<Item>, ctx: Context, i: nat, props: seq<Syntax.ObjectBindingProp>)
    requires i < |items| && CurrentAt(items, i).Ok?
    requires !CurrentMatches(items, i, ObjectEnd) && !CurrentMatches(items, i, Ellipsis) && IsIdentifierAt(items, i, ctx)
    requires ConsumeListDelimiterAt(items, i + 1, ObjectEnd).result.Ok?
    ensures ObjectPropsAt(items, ctx, i, props)
            == ObjectPropsAt(items, ctx, ConsumeListDelimiterAt(items, i + 1, ObjectEnd).next,
                             props + [Syntax.AssignProp(ParseIdentifierAt(items, i, ctx).result.value)])
  {
  }

  /** The collected properties only prefix the result: the loop run from
      `props` yields `props` followed by what it yields from nothing. */
  lemma {:induction false} ObjectPropsPrefix(items: seq<Item>, ctx: Context, i: nat, props: seq<Syntax.ObjectBindingProp>)
    requires i <= |items|
    ensures ObjectPropsAt(items, ctx, i, props) == PrependTo(props, ObjectPropsAt(items, ctx, i, []))
    decreases |items| - i
  {
    var c := CurrentAt(items, i);
    if c.Ok? && c.value.value != ObjectEnd && c.value.value != Ellipsis && IsIdentifierAt(items, i, ctx)
       && ConsumeListDelimiterAt(items, i + 1, ObjectEnd).result.Ok? {
      var prop := Syntax.AssignProp(ParseIdentifierAt(items, i, ctx).result.value);
      var next := ConsumeListDelimiterAt(items, i + 1, ObjectEnd).next;
      var tail := ObjectPropsAt(items, ctx, next, []);
      ObjectPropsIdentifierStep(items, ctx, i, props);
      ObjectPropsIdentifierStep(items, ctx, i, []);
      assert [] + [prop] == [prop];
      ObjectPropsPrefix(items, ctx, next, props + [prop]);
      ObjectPropsPrefix(items, ctx, next, [prop]);
      PrependToTwice(props, [prop], tail);
    } else {
      assert props + [] == props;
    }
  }

  /** A `,` alone in an array pattern is an elision: a hole is appended and
      the loop goes on after the comma. */
  lemma ArrayElementsHole(items: seq<Item>, ctx: Context, i: nat, elements: seq<Option<Syntax.BindingElement>>)
    requires i <= |items| && CurrentMatches(items, i, Comma)
    ensures ArrayElementsAt(items, ctx, i, elements) == ArrayElementsAt(items, ctx, i + 1, elements + [None])
  {
  }

  /** The array loop goes on from `i`: a `,`, or a binding element with
      its delimiter. */
  predicate ArrayGoesOn(items: seq<Item>, ctx: Context, i: nat)
    requires i <= |items|
  {
    CurrentMatches(items, i, Comma)
    || (CurrentAt(items, i).Ok? && !CurrentMatches(items, i, ArrayEnd) && !CurrentMatches(items, i, Ellipsis)
        && (CurrentMatches(items, i, ObjectOpen) || CurrentMatches(items, i, ArrayOpen) || IsIdentifierAt(items, i, ctx))
        && ArrayElementAt(items, ctx, i).Ok())
  }

  /** A round of the array loop that goes on: the entry read at `i` is
      appended, whatever was collected before, and the loop continues
      from `j`. */
  lemma ArrayElementsStep(items: seq<Item>, ctx: Context, i: nat) returns (j: nat, entry: Option<Syntax.BindingElement>)
    requires i <= |items| && ArrayGoesOn(items, ctx, i)
    ensures i < j <= |items|
    ensures forall elements {:trigger ArrayElementsAt(items, ctx, i, elements)} ::
              ArrayElementsAt(items, ctx, i, elements) == ArrayElementsAt(items, ctx, j, elements + [entry])
  {
    if CurrentMatches(items, i, Comma) {
      j, entry := i + 1, None;
    } else {
      var element := ArrayElementAt(items, ctx, i);
      j, entry := element.next, Some(element.result.value);
    }
  }

  /** Where the array loop stops, the collected elements only prefix what
      it yields. */
  lemma ArrayElementsStop(items: seq<Item>, ctx: Context, i: nat)
    requires i <= |items| && !ArrayGoesOn(items, ctx, i)
    ensures forall elements {:trigger ArrayElementsAt(items, ctx, i, elements)} ::
              ArrayElementsAt(items, ctx, i, elements) == PrependTo(elements, ArrayElementsAt(items, ctx, i, []))
  {
    forall elements
      ensures ArrayElementsAt(items, ctx, i, elements) == PrependTo(elements, ArrayElementsAt(items, ctx, i, []))
    {
      assert elements + [] == elements;
    }
  }

  /** The collected elements only prefix the result: the loop run from
      `elements` yields `elements` followed by what it yields from nothing. */
  lemma {:induction false} ArrayElementsPrefix(items: seq<Item>, ctx: Context, i: nat,
                                               elements: seq<Option<Syntax.BindingElement>>)
    requires i <= |items|
    ensures ArrayElementsAt(items, ctx, i, elements) == PrependTo(elements, ArrayElementsAt(items, ctx, i, []))
    decreases |items| - i
  {
    if ArrayGoesOn(items, ctx, i) {
      var j, entry := ArrayElementsStep(items, ctx, i);
      assert ArrayElementsAt(items, ctx, i, elements) == ArrayElementsAt(items, ctx, j, elements + [entry]);
      assert ArrayElementsAt(items, ctx, i, []) == ArrayElementsAt(items, ctx, j, [] + [entry]);
      assert [] + [entry] == [entry];
      ArrayElementsPrefix(items, ctx, j, elements + [entry]);
      ArrayElementsPrefix(items, ctx, j, [entry]);
      PrependToTwice(elements, [entry], ArrayElementsAt(items, ctx, j, []));
    } else {
      ArrayElementsStop(items, ctx, i);
      assert ArrayElementsAt(items, ctx, i, elements) == PrependTo(elements, ArrayElementsAt(items, ctx, i, []));
    }
  }

  /** Prepending twice prepends the concatenation. */
  lemma PrependToTwice<A, B>(first: seq<A>, second: seq<A>, s: Step<(seq<A>, B)>)
    ensures PrependTo(first, PrependTo(second, s)) == PrependTo(first + second, s)
  {
    if s.Done? && s.result.Ok? {
      assert first + (second + s.result.value.0) == first + second + s.result.value.0;
    }
  }

  /** An object pattern `{ a, b }` binds exactly its identifiers. */
  lemma ObjectPatternExample(ctx: Context, a: Tokens.Token, comma: Tokens.Token, b: Tokens.Token,
                             open: Tokens.Token, close: Tokens.Token, semi: Tokens.Token)
    requires open.value == ObjectOpen && close.value == ObjectEnd && comma.value == Comma
    requires a.value == Tokens.Identifier("a") && b.value == Tokens.Identifier("b")
    requires semi.value == Semicolon
    ensures var items := [Tok(open), Tok(a), Tok(comma), Tok(b), Tok(close), Tok(semi)];
            var r := BindingPatternAt(items, ctx, 0);
            r.Ok() && r.next == 6
            && Syntax.BoundNames(r.result.value) == ["a", "b"]
  {
    var items := [Tok(open), Tok(a), Tok(comma), Tok(b), Tok(close), Tok(semi)];
    var props := ExampleProps(ctx, a, comma, b, open, close, semi);
    assert props[1..] == [props[1]] && [props[1]][1..] == [];
    assert Syntax.PropNames([props[1]]) == ["b"];
    assert Syntax.PropNames(props) == ["a", "b"];
    assert ObjectPatternEndAt(items, 5, open.span.start, (props, None))
        == Done(Ok(Syntax.ObjectPattern(Tokens.Span(open.span.start, semi.span.end), props, None)), 6);
  }

  /** An array pattern `[, a]` holds a hole and then `a`, and binds `a`
      alone. */
  lemma ArrayPatternExample(ctx: Context, open: Tokens.Token, comma: Tokens.Token, a: Tokens.Token,
                            close: Tokens.Token)
    requires open.value == ArrayOpen && comma.value == Comma && close.value == ArrayEnd
    requires a.value == Tokens.Identifier("a")
    ensures var r := BindingPatternAt([Tok(open), Tok(comma), Tok(a), Tok(close)], ctx, 0);
            r.Ok() && r.next == 4 && r.result.value.ArrayPattern? && r.result.value.arrayRest.None?
            && |r.result.value.elements| == 2 && r.result.value.elements[0].None?
            && r.result.value.elements[1].Some?
            && Syntax.BoundNames(r.result.value) == ["a"]
  {
    var items := [Tok(open), Tok(comma), Tok(a), Tok(close)];
    var elements := ExampleElements(ctx, open, comma, a, close);
    var r := BindingPatternAt(items, ctx, 0);
    assert r == ArrayPatternAt(items, ctx, 0);
    var p := r.result.value;
    assert p.elements == elements;
    assert elements[..1] == [None] && elements[..1][..0] == [];
    assert Syntax.ElementNames(p, elements[..1]) == [];
    assert Syntax.ElementNames(p, elements) == ["a"];
  }

  /** The elements of the example array pattern: a hole, then `a`. */
  lemma ExampleElements(ctx: Context, open: Tokens.Token, comma: Tokens.Token, a: Tokens.Token,
                        close: Tokens.Token)
    returns (elements: seq<Option<Syntax.BindingElement>>)
    requires open.value == ArrayOpen && comma.value == Comma && close.value == ArrayEnd
    requires a.value == Tokens.Identifier("a")
    ensures ArrayElementsAt([Tok(open), Tok(comma), Tok(a), Tok(close)], ctx, 1, []) == Done(Ok((elements, None)), 4)
    ensures |elements| == 2 && elements[0].None? && elements[1].Some?
            && elements[1].value.pattern == Syntax.IdentPattern(Ast.NewIdent("a", a.span))
  {
    var items := [Tok(open), Tok(comma), Tok(a), Tok(close)];
    var ident := Ast.NewIdent("a", a.span);
    assert ParseIdentifierAt(items, 2, ctx) == Done(Ok(ident), 3);
    var element := BindingElementAt(items, ctx, 2);
    assert element.Ok() && element.next == 3 && element.result.value.pattern == Syntax.IdentPattern(ident);
    assert ConsumeListDelimiterAt(items, 3, ArrayEnd) == Done(Ok(()), 3);
    assert ArrayElementAt(items, ctx, 2) == Done(Ok(element.result.value), 3);
    ArrayElementsHole(items, ctx, 1, []);
    var none: seq<Option<Syntax.BindingElement>> := [None];
    assert [] + none == none;
    elements := [None, Some(element.result.value)];
    assert none + [Some(element.result.value)] == elements;
    assert IsIdentifierAt(items, 2, ctx);
    assert ArrayElementsAt(items, ctx, 2, [None]) == ArrayElementsAt(items, ctx, 3, elements);
  }

  /** The properties of the example pattern: `a` and `b`, and no rest. */
  lemma ExampleProps(ctx: Context, a: Tokens.Token, comma: Tokens.Token, b: Tokens.Token,
                     open: Tokens.Token, close: Tokens.Token, semi: Tokens.Token)
    returns (props: seq<Syntax.ObjectBindingProp>)
    requires open.value == ObjectOpen && close.value == ObjectEnd && comma.value == Comma
    requires a.value == Tokens.Identifier("a") && b.value == Tokens.Identifier("b")
    requires semi.value == Semicolon
    ensures var items := [Tok(open), Tok(a), Tok(comma), Tok(b), Tok(close), Tok(semi)];
            ObjectPropsAt(items, ctx, 1, []) == Done(Ok((props, None)), 5)
            && |props| == 2 && props[0].ident.name == "a" && props[1].ident.name == "b"
  {
    var items := [Tok(open), Tok(a), Tok(comma), Tok(b), Tok(close), Tok(semi)];
    var propA := Syntax.AssignProp(Ast.NewIdent("a", a.span));
    var propB := Syntax.AssignProp(Ast.NewIdent("b", b.span));
    assert ParseIdentifierAt(items, 1, ctx) == Done(Ok(Ast.NewIdent("a", a.span)), 2);
    assert ParseIdentifierAt(items, 3, ctx) == Done(Ok(Ast.NewIdent("b", b.span)), 4);
    assert ConsumeListDelimiterAt(items, 2, ObjectEnd) == Done(Ok(()), 3);
    assert ConsumeListDelimiterAt(items, 4, ObjectEnd) == Done(Ok(()), 4);
    ObjectPropsIdentifierStep(items, ctx, 1, []);
    ObjectPropsIdentifierStep(items, ctx, 3, [propA]);
    assert [] + [propA] == [propA];
    assert [propA] + [propB] == [propA, propB];
    assert ObjectPropsAt(items, ctx, 4, [propA, propB]) == Done(Ok(([propA, propB], None)), 5);
    props := [propA, propB];
  }

  // ---------------------------------------------------------------------
  // The parser's methods

  /** `parse_rest_binding_ident`. */
  method ParseRestBindingIdent(p: Parser, expectedEnd: Tokens.Punct) returns (r: Result<Option<Ast.Ident>, Error>)
    requires p.Valid()
    modifies p`pos
    ensures p.Valid() && RestBindingIdentAt(p.items, p.context, old(p.pos), expectedEnd) == Done(r, p.pos)
  {
    var ident := p.ParseIdentifier();
    if ident.Err? {
      return Err(ident.error);
    }
    r := ParseRestEnd(p, ident.value, expectedEnd);
  }

  /** The closing punctuator check of `parse_rest_binding_ident`. */
  method ParseRestEnd(p: Parser, ident: Ast.Ident, expectedEnd: Tokens.Punct) returns (r: Result<Option<Ast.Ident>, Error>)
    requires p.Valid()
    modifies p`pos
    ensures p.Valid() && RestEndAt(p.items, old(p.pos), ident, expectedEnd) == Done(r, p.pos)
  {
    var endToken := p.Consume();
    if endToken.Err? {
      return Err(endToken.error);
    }
    if endToken.value.value.PunctValue? && endToken.value.value.punct == expectedEnd {
      return Ok(Some(ident));
    }
    r := Err(Errors.Of(Errors.SyntaxError(RestNotLastMessage, ident.span)));
  }

  /** `parse_binding_pattern`. */
  method ParseBindingPattern(p: Parser) returns (r: Result<Syntax.BindingPattern, Error>)
    requires p.Valid() && BindingPatternAt(p.items, p.context, p.pos) != Unsupported
    modifies p`pos
    ensures p.Valid() && BindingPatternAt(p.items, p.context, old(p.pos)) == Done(r, p.pos)
    decreases |p.items| - p.pos, 2
  {
    var current := CurrentAt(p.items, p.pos);
    if current.Err? {
      return Err(current.error);
    }
    if current.value.value == ObjectOpen {
      r := ParseObjectBindingPattern(p);
    } else if current.value.value == ArrayOpen {
      r := ParseArrayBindingPattern(p);
    } else if IsIdentifierAt(p.items, p.pos, p.context) {
      var ident := p.ParseIdentifier();
      r := Ok(Syntax.IdentPattern(ident.value));
    } else {
      var token := p.Consume();
      r := Err(UnexpectedToken(token.value));
    }
  }

  /** `parse_object_binding_pattern`. */
  method ParseObjectBindingPattern(p: Parser) returns (r: Result<Syntax.BindingPattern, Error>)
    requires p.Valid() && CurrentMatches(p.items, p.pos, ObjectOpen)
    modifies p`pos
    ensures p.Valid() && ObjectPatternAt(p.items, p.context, old(p.pos)) == Done(r, p.pos)
  {
    var spanStart := PositionAt(p.items, p.pos);
    var _ := p.Consume();
    var body := ParseObjectProps(p);
    if body.Err? {
      return Err(body.error);
    }
    r := ParseObjectPatternEnd(p, spanStart, body.value);
  }

  /** The end of `parse_object_binding_pattern`, after its closing brace. */
  method ParseObjectPatternEnd(p: Parser, spanStart: nat, body: (seq<Syntax.ObjectBindingProp>, Option<Ast.Ident>))
    returns (r: Result<Syntax.BindingPattern, Error>)
    requires p.Valid()
    modifies p`pos
    ensures p.Valid() && ObjectPatternEndAt(p.items, old(p.pos), spanStart, body) == Done(r, p.pos)
  {
    var current := CurrentAt(p.items, p.pos);
    if current.Err? {
      return Err(current.error);
    }
    if current.value.value == Semicolon {
      var _ := p.Consume();
    }
    var span := SpanFrom(p.items, p.pos, spanStart);
    r := Ok(Syntax.ObjectPattern(span, body.0, body.1));
  }

  /** The loop of `parse_object_binding_pattern`, after `{`. */
  method ParseObjectProps(p: Parser) returns (r: Result<(seq<Syntax.ObjectBindingProp>, Option<Ast.Ident>), Error>)
    requires p.Valid()
    modifies p`pos
    ensures p.Valid() && ObjectPropsAt(p.items, p.context, old(p.pos), []) == Done(r, p.pos)
  {
    ghost var start := p.pos;
    var props: seq<Syntax.ObjectBindingProp> := [];
    while true
      invariant p.Valid() && start <= p.pos
      invariant ObjectPropsAt(p.items, p.context, p.pos, props) == ObjectPropsAt(p.items, p.context, start, [])
      decreases |p.items| - p.pos
    {
      var current := CurrentAt(p.items, p.pos);
      if current.Err? {
        return Err(current.error);
      }
      var value := current.value.value;
      if value == ObjectEnd {
        var _ := p.Consume();
        return Ok((props, None));
      } else if value == Ellipsis {
        var _ := p.Consume();
        var restIdent := ParseRestBindingIdent(p, Tokens.BracketClose);
        if restIdent.Err? {
          return Err(restIdent.error);
        }
        return Ok((props, restIdent.value));
      } else if IsIdentifierAt(p.items, p.pos, p.context) {
        var ident := p.ParseIdentifier();
        props := props + [Syntax.AssignProp(ident.value)];
        var delimiter := p.ConsumeObjectDelimiter();
        if delimiter.Err? {
          return Err(delimiter.error);
        }
      } else {
        var token := p.Consume();
        return Err(UnexpectedToken(token.value));
      }
    }
  }

  /** `parse_array_binding_pattern`. */
  method ParseArrayBindingPattern(p: Parser) returns (r: Result<Syntax.BindingPattern, Error>)
    requires p.Valid() && CurrentMatches(p.items, p.pos, ArrayOpen)
    requires ArrayPatternAt(p.items, p.context, p.pos) != Unsupported
    modifies p`pos
    ensures p.Valid() && ArrayPatternAt(p.items, p.context, old(p.pos)) == Done(r, p.pos)
    decreases |p.items| - p.pos, 1
  {
    var spanStart := PositionAt(p.items, p.pos);
    var _ := p.Consume();
    var body := ParseArrayElements(p);
    if body.Err? {
      return Err(body.error);
    }
    var span := SpanFrom(p.items, p.pos, spanStart);
    r := Ok(Syntax.ArrayPattern(span, body.value.0, body.value.1));
  }

  /** The loop of `parse_array_binding_pattern`, after `[`. */
  method ParseArrayElements(p: Parser)
    returns (r: Result<(seq<Option<Syntax.BindingElement>>, Option<Ast.Ident>), Error>)
    requires p.Valid() && ArrayElementsAt(p.items, p.context, p.pos, []) != Unsupported
    modifies p`pos
    ensures p.Valid() && ArrayElementsAt(p.items, p.context, old(p.pos), []) == Done(r, p.pos)
    decreases |p.items| - p.pos + 1, 0
  {
    ghost var start := p.pos;
    var elements: seq<Option<Syntax.BindingElement>> := [];
    while true
      invariant p.Valid() && start <= p.pos
      invariant ArrayElementsAt(p.items, p.context, p.pos, elements) == ArrayElementsAt(p.items, p.context, start, [])
      decreases |p.items| - p.pos
    {
      var current := CurrentAt(p.items, p.pos);
      if current.Err? {
        return Err(current.error);
      }
      var value := current.value.value;
      if value == ArrayEnd {
        var _ := p.Consume();
        return Ok((elements, None));
      } else if value == Comma {
        var _ := p.Consume();
        elements := elements + [None];
      } else if value == Ellipsis {
        var _ := p.Consume();
        var restIdent := ParseRestBindingIdent(p, Tokens.BraceClose);
        if restIdent.Err? {
          return Err(restIdent.error);
        }
        return Ok((elements, restIdent.value));
      } else if value == ObjectOpen || value == ArrayOpen || IsIdentifierAt(p.items, p.pos, p.context) {
        var element := ParseArrayElement(p);
        if element.Err? {
          return Err(element.error);
        }
        elements := elements + [Some(element.value)];
      } else {
        var token := p.Consume();
        return Err(UnexpectedToken(token.value));
      }
    }
  }

  /** An element of the array pattern loop followed by `consume_array_delimiter`. */
  method ParseArrayElement(p: Parser) returns (r: Result<Syntax.BindingElement, Error>)
    requires p.Valid() && ArrayElementAt(p.items, p.context, p.pos) != Unsupported
    modifies p`pos
    ensures p.Valid() && ArrayElementAt(p.items, p.context, old(p.pos)) == Done(r, p.pos)
    decreases |p.items| - p.pos, 4
  {
    var element := ParseBindingElement(p);
    if element.Err? {
      return Err(element.error);
    }
    var delimiter := p.ConsumeArrayDelimiter();
    if delimiter.Err? {
      return Err(delimiter.error);
    }
    r := Ok(element.value);
  }

  /** `parse_binding_element`. */
  method ParseBindingElement(p: Parser) returns (r: Result<Syntax.BindingElement, Error>)
    requires p.Valid() && BindingElementAt(p.items, p.context, p.pos) != Unsupported
    modifies p`pos
    ensures p.Valid() && BindingElementAt(p.items, p.context, old(p.pos)) == Done(r, p.pos)
    decreases |p.items| - p.pos, 3
  {
    var spanStart := PositionAt(p.items, p.pos);
    var pattern := ParseBindingPattern(p);
    if pattern.Err? {
      return Err(pattern.error);
    }
    var current := CurrentAt(p.items, p.pos);
    if current.Err? {
      return Err(current.error);
    }
    if current.value.value == Assign {
      assert false;
    }
    var span := SpanFrom(p.items, p.pos, spanStart);
    r := Ok(Syntax.BindingElement(span, pattern.value, None));
  }

  /** `parse_binding_rest_element`, called on `...`: the binding pattern
      after the `...`. */
  method ParseBindingRestElement(p: Parser) returns (r: Result<Syntax.BindingPattern, Error>)
    requires p.Valid() && CurrentMatches(p.items, p.pos, Ellipsis)
    requires BindingPatternAt(p.items, p.context, p.pos + 1) != Unsupported
    modifies p`pos
    ensures p.Valid() && BindingPatternAt(p.items, p.context, old(p.pos) + 1) == Done(r, p.pos)
  {
    var _ := p.Consume();
    r := ParseBindingPattern(p);
  }
}
