/** The core of the abstract syntax tree: programs, bodies and identifiers,
    and the conversion of identifier-like tokens into identifiers. */
module Ast {
  import opened Wrappers
  import Tokens

  /** A list of items together with the source range they cover. */
  datatype Body<T> = Body(span: Tokens.Span, body: seq<T>)

  /** Items of a module body; import and export declarations carry nothing
      yet in this revision of the tree. */
  datatype ModuleItem<S> = ImportDeclaration | ExportDeclaration | Statement(statement: S)

  /** A program is a script or a module; the statement type is a parameter
      because the statement tree of this revision is not part of this model. */
  datatype Program<S> = Script(script: Body<S>) | Module(moduleBody: Body<ModuleItem<S>>)

  datatype Ident = Ident(span: Tokens.Span, name: string)

  /** `Program::from_body`: a script whose body is `body`, with span (0, 0). */
  function FromBody<S>(body: seq<S>): (p: Program<S>)
    ensures p.Script? && p.script.span == Tokens.Span(0, 0) && p.script.body == body
  {
    Script(Body(Tokens.Span(0, 0), body))
  }

  /** `from_body` loses nothing: different bodies give different programs. */
  lemma FromBodyInjective<S>(a: seq<S>, b: seq<S>)
    ensures FromBody(a) == FromBody(b) <==> a == b
  {
    if FromBody(a) == FromBody(b) {
      assert a == FromBody(a).script.body;
    }
  }

  /** `Ident::new`. */
  function NewIdent(name: string, span: Tokens.Span): (r: Ident)
    ensures r.name == name && r.span == span
  {
    Ident(span, name)
  }

  /** The error of a failed conversion: the offending token value and the
      token's span. The message text, which renders the token value with
      Rust's `Debug` format, is not modelled. */
  datatype ConversionError = SyntaxError(offending: Tokens.TokenValue, span: Tokens.Span)

  /** The token values that convert to an identifier. */
  predicate IsIdentLike(v: Tokens.TokenValue) {
    v.Identifier? || v == Tokens.KeywordValue(Tokens.Await) || v == Tokens.KeywordValue(Tokens.Yield)
  }

  /** `TryFrom<Token> for Ident`: identifier tokens and the keywords `await`
      and `yield` become identifiers with the token's span; every other
      token fails with a syntax error carrying the token's span. */
  function TryFrom(token: Tokens.Token): (r: Result<Ident, ConversionError>)
    ensures r.Ok? <==> IsIdentLike(token.value)
    ensures r.Ok? ==> r.value.span == token.span
    ensures token.value.Identifier? ==> r.Ok? && r.value.name == token.value.name
    ensures r.Ok? && token.value.KeywordValue? ==>
              r.value.name == Tokens.KeywordText(token.value.keyword)
    ensures r.Err? ==> r.error == SyntaxError(token.value, token.span)
  {
    match token.value
    case Identifier(name) => Ok(Ident(token.span, name))
    case KeywordValue(Await) => Ok(Ident(token.span, "await"))
    case KeywordValue(Yield) => Ok(Ident(token.span, "yield"))
    case _ => Err(SyntaxError(token.value, token.span))
  }

  /** The keywords that convert are exactly the reserved words that only the
      await and yield parameters can forbid. */
  lemma TryFromKeywords(k: Tokens.Keyword, first: bool, span: Tokens.Span)
    ensures TryFrom(Tokens.Token(Tokens.KeywordValue(k), first, span)).Ok?
            <==> (Tokens.IsAllowedAsIdentifier(k, Tokens.EMPTY)
                  && !Tokens.IsAllowedAsIdentifier(k, Tokens.AWAIT | Tokens.YIELD))
  {
    Tokens.IdentifierAcceptanceRules(k, Tokens.EMPTY);
    Tokens.IdentifierAcceptanceRules(k, Tokens.AWAIT | Tokens.YIELD);
  }
}
