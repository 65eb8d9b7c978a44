/** Parser errors: their kinds, the constructors the parser uses, the short
    descriptions, the one-line rendering, and the conversions from lexer and
    reader errors. */
module Errors {
  import opened Wrappers
  import Tokens
  import Ast

  /** The kinds of parser error. `ExpectedToken` and `ExpectedIdent` are the
      kinds of `Error::expected_other_token` and `Error::expected_ident`,
      which the parser calls but which this revision of the error file does
      not define. */
  datatype ErrorKind =
    | EndOfStream
    | LexerError(lexerError: Tokens.LexError)
    | SyntaxError(message: string, messageSpan: Tokens.Span)
    | UnexpectedToken(token: Tokens.Token)
    | UnexpectedIdent(ident: Ast.Ident)
    | ForbiddenIdentifier(identifier: string)
    | ExpectedToken(found: Tokens.Token, expected: Tokens.TokenValue)
    | ExpectedIdent(foundToken: Tokens.Token)

  datatype Diagnostic = Diagnostic(labelText: string, span: Tokens.Span)

  datatype Error = Error(kind: ErrorKind, span: Tokens.Span, diagnostic: Option<Diagnostic>)

  /** `Error::lexer_error`. */
  function LexerErrorOf(error: Tokens.LexError, span: Tokens.Span): (r: Error)
    ensures r.kind == LexerError(error) && r.span == span && r.diagnostic.None?
  {
    Error(LexerError(error), span, None)
  }

  /** `Error::syntax_error`: the message goes into the kind with an empty
      span of its own; the given span is the error's. */
  function SyntaxErrorOf(message: string, span: Tokens.Span): (r: Error)
    ensures r.kind == SyntaxError(message, Tokens.EmptySpan) && r.span == span && r.diagnostic.None?
  {
    Error(SyntaxError(message, Tokens.EmptySpan), span, None)
  }

  /** `Error::unexpected_identifier`: the error covers the identifier. */
  function UnexpectedIdentifierOf(ident: Ast.Ident): (r: Error)
    ensures r.kind == UnexpectedIdent(ident) && r.span == ident.span && r.diagnostic.None?
  {
    Error(UnexpectedIdent(ident), ident.span, None)
  }

  /** `Error::unexpected_token`: the error covers the token. */
  function UnexpectedTokenOf(token: Tokens.Token): (r: Error)
    ensures r.kind == UnexpectedToken(token) && r.span == token.span && r.diagnostic.None?
  {
    Error(UnexpectedToken(token), token.span, None)
  }

  /** `Error::forbidden_identifier`. */
  function ForbiddenIdentifierOf(identifier: string, span: Tokens.Span): (r: Error)
    ensures r.kind == ForbiddenIdentifier(identifier) && r.span == span && r.diagnostic.None?
  {
    Error(ForbiddenIdentifier(identifier), span, None)
  }

  /** `Error::end_of_stream(pos)`: an empty range at `pos`. */
  function EndOfStreamAt(pos: nat): (r: Error)
    ensures r.kind == EndOfStream && r.span == Tokens.Span(pos, pos) && r.span.start == r.span.end
    ensures r.diagnostic.None?
  {
    Error(EndOfStream, Tokens.Span(pos, pos), None)
  }

  /** `Error::of(kind)` and the `err!` macro, defined outside this file:
      an error of the given kind with no range of its own. */
  function Of(kind: ErrorKind): (r: Error)
    ensures r.kind == kind && r.span == Tokens.EmptySpan && r.diagnostic.None?
  {
    Error(kind, Tokens.EmptySpan, None)
  }

  /** `Error::expected_other_token`, defined outside this file: the error
      covers the token that was found. */
  function ExpectedOtherToken(token: Tokens.Token, expected: Tokens.TokenValue): (r: Error)
    ensures r.kind == ExpectedToken(token, expected) && r.span == token.span && r.diagnostic.None?
  {
    Error(ExpectedToken(token, expected), token.span, None)
  }

  /** `Error::expected_ident`, defined outside this file: the error covers
      the token that was found. */
  function ExpectedIdentOf(token: Tokens.Token): (r: Error)
    ensures r.kind == ExpectedIdent(token) && r.span == token.span && r.diagnostic.None?
  {
    Error(ExpectedIdent(token), token.span, None)
  }

  /** The kinds this revision of the error file knows about. */
  predicate IsShownKind(kind: ErrorKind) {
    !kind.ExpectedToken? && !kind.ExpectedIdent?
  }

  /** `ErrorKind::get_description`. */
  function GetDescription(kind: ErrorKind): (r: Option<string>)
    ensures r.Some? <==> kind.ForbiddenIdentifier? || kind.UnexpectedToken?
    ensures kind.ForbiddenIdentifier? ==>
              r == Some("`" + kind.identifier + "` is not allowed as an identifier in this context")
    ensures kind.UnexpectedToken? ==> r == Some("Unexpected token")
  {
    match kind
    case ForbiddenIdentifier(keyword) =>
      Some("`" + keyword + "` is not allowed as an identifier in this context")
    case UnexpectedToken(_) => Some("Unexpected token")
    case _ => None
  }

  /** `s` begins with `prefix`. */
  predicate StartsWith(s: string, prefix: string) {
    |prefix| <= |s| && s[..|prefix|] == prefix
  }

  const SyntaxErrorPrefix := "Syntax error: "

  /** The rendering of a kind. The `Display` texts of lexer errors and of
      token values live outside this file and are parameters. */
  function KindText(kind: ErrorKind, lexerText: Tokens.LexError -> string,
                    tokenText: Tokens.TokenValue -> string): string
    requires IsShownKind(kind)
  {
    match kind
    case EndOfStream => SyntaxErrorPrefix + "Unexpected end of input"
    case LexerError(e) => "Lexer error '" + lexerText(e) + "'"
    case SyntaxError(msg, _) => SyntaxErrorPrefix + msg
    case UnexpectedToken(token) => SyntaxErrorPrefix + "Unexpected token `" + tokenText(token.value) + "`"
    case UnexpectedIdent(ident) => "Syntax Error: Unexpected identifier `" + ident.name + "`"
    case ForbiddenIdentifier(identifier) => SyntaxErrorPrefix + "Forbidden identifier `" + identifier + "`"
  }

  lemma AppendKeepsPrefix(s: string, prefix: string, t: string)
    requires StartsWith(s, prefix)
    ensures StartsWith(s + t, prefix)
  {
    assert (s + t)[..|prefix|] == s[..|prefix|];
  }

  /** `Display for Error`: a lexer error renders as one, every other kind
      reports a syntax error, spelt with a capital E for an unexpected
      identifier. */
  function Display(e: Error, lexerText: Tokens.LexError -> string,
                   tokenText: Tokens.TokenValue -> string): (r: string)
    requires IsShownKind(e.kind)
    ensures e.kind.LexerError? ==> StartsWith(r, "Lexer error '")
    ensures !e.kind.LexerError? && !e.kind.UnexpectedIdent? ==> StartsWith(r, SyntaxErrorPrefix)
    ensures e.kind.UnexpectedIdent? ==> StartsWith(r, "Syntax Error: Unexpected identifier `" + e.kind.ident.name)
    ensures e.kind.SyntaxError? ==> r[|SyntaxErrorPrefix|..] == e.kind.message
    ensures e.kind.EndOfStream? ==> r == SyntaxErrorPrefix + "Unexpected end of input"
  {
    var r := KindText(e.kind, lexerText, tokenText);
    match e.kind
    case EndOfStream =>
      AppendKeepsPrefix(SyntaxErrorPrefix, SyntaxErrorPrefix, "Unexpected end of input");
      r
    case LexerError(err) =>
      AppendKeepsPrefix("Lexer error '", "Lexer error '", lexerText(err));
      AppendKeepsPrefix("Lexer error '" + lexerText(err), "Lexer error '", "'");
      r
    case SyntaxError(msg, _) =>
      AppendKeepsPrefix(SyntaxErrorPrefix, SyntaxErrorPrefix, msg);
      r
    case UnexpectedToken(token) =>
      var t := tokenText(token.value);
      AppendKeepsPrefix(SyntaxErrorPrefix, SyntaxErrorPrefix, "Unexpected token `");
      AppendKeepsPrefix(SyntaxErrorPrefix + "Unexpected token `", SyntaxErrorPrefix, t);
      AppendKeepsPrefix(SyntaxErrorPrefix + "Unexpected token `" + t, SyntaxErrorPrefix, "`");
      r
    case UnexpectedIdent(ident) =>
      var h := "Syntax Error: Unexpected identifier `" + ident.name;
      AppendKeepsPrefix(h, h, "`");
      r
    case ForbiddenIdentifier(identifier) =>
      AppendKeepsPrefix(SyntaxErrorPrefix, SyntaxErrorPrefix, "Forbidden identifier `");
      AppendKeepsPrefix(SyntaxErrorPrefix + "Forbidden identifier `", SyntaxErrorPrefix, identifier);
      AppendKeepsPrefix(SyntaxErrorPrefix + "Forbidden identifier `" + identifier, SyntaxErrorPrefix, "`");
      r
  }

  /** The rendering depends on the kind alone, never on the span or the
      diagnostic. */
  lemma DisplayDependsOnKindOnly(e1: Error, e2: Error, lexerText: Tokens.LexError -> string,
                                 tokenText: Tokens.TokenValue -> string)
    requires IsShownKind(e1.kind) && e1.kind == e2.kind
    ensures Display(e1, lexerText, tokenText) == Display(e2, lexerText, tokenText)
  {
  }

  /** `From<LexerError> for Error`: a lexer error keeps its own span. */
  function FromLexError(error: Tokens.LexError): (r: Error)
    ensures r.kind == LexerError(error) && r.span == error.span && r.diagnostic.None?
  {
    LexerErrorOf(error, error.span)
  }

  /** The errors of the token reader: the end of the token stream at a read
      position, or a lexer error. */
  datatype ReaderError = EndOfStreamError(pos: nat) | ReaderError(error: Tokens.LexError)

  /** `From<CommonError<LexerError>> for Error`. */
  function FromReaderError(error: ReaderError): (r: Error)
    ensures error.EndOfStreamError? ==> r == EndOfStreamAt(error.pos)
    ensures error.ReaderError? ==> r == FromLexError(error.error)
    ensures r.kind.EndOfStream? <==> error.EndOfStreamError?
  {
    match error
    case EndOfStreamError(pos) => EndOfStreamAt(pos)
    case ReaderError(e) => FromLexError(e)
  }
}
