/** Tokens as the lexer hands them to the parser: keywords, punctuators,
    literals and identifiers, the keyword-reservation rule that decides when a
    reserved word may stand for an identifier, and the token-iterator reader. */
module Tokens {
  import opened Wrappers

  /** A half-open range of source positions. */
  datatype Span = Span(start: nat, end: nat)

  const EmptySpan: Span := Span(0, 0)

  /** Signed 64-bit integers, the payload of integer literals. */
  newtype i64 = x: int | -0x8000_0000_0000_0000 <= x < 0x8000_0000_0000_0000

  /** The `KeywordContext` bit set (a 32-bit bitflags value). */
  type KeywordContext = bv32

  const EMPTY: KeywordContext := 0
  const AWAIT: KeywordContext := 0x01
  const YIELD: KeywordContext := 0x02
  const STRICT: KeywordContext := 0x80

  /** bitflags `contains`: every bit of `flags` is set in `ctx`. */
  predicate Contains(ctx: KeywordContext, flags: KeywordContext) {
    ctx & flags == flags
  }

  /** bitflags `intersects`: some bit of `flags` is set in `ctx`. */
  predicate Intersects(ctx: KeywordContext, flags: KeywordContext) {
    ctx & flags != 0
  }

  datatype Keyword =
    | Await | As | Async | Break | Case | Catch | Class | Const | Continue
    | Debugger | Default | Delete | Do | Else | Enum | Export | Extends | False
    | Finally | For | From | Function | Get | If | Implements | Import | In
    | Instanceof | Interface | Let | New | Null | Of | Package | Private
    | Protected | Public | Return | Set | Static | Super | Switch | Target
    | This | Throw | True | Try | Typeof | Var | Void | While | With | Yield

  /** The text of a keyword: its variant name in lower case. */
  function KeywordText(k: Keyword): string {
    match k
    case Await => "await"
    case As => "as"
    case Async => "async"
    case Break => "break"
    case Case => "case"
    case Catch => "catch"
    case Class => "class"
    case Const => "const"
    case Continue => "continue"
    case Debugger => "debugger"
    case Default => "default"
    case Delete => "delete"
    case Do => "do"
    case Else => "else"
    case Enum => "enum"
    case Export => "export"
    case Extends => "extends"
    case False => "false"
    case Finally => "finally"
    case For => "for"
    case From => "from"
    case Function => "function"
    case Get => "get"
    case If => "if"
    case Implements => "implements"
    case Import => "import"
    case In => "in"
    case Instanceof => "instanceof"
    case Interface => "interface"
    case Let => "let"
    case New => "new"
    case Null => "null"
    case Of => "of"
    case Package => "package"
    case Private => "private"
    case Protected => "protected"
    case Public => "public"
    case Return => "return"
    case Set => "set"
    case Static => "static"
    case Super => "super"
    case Switch => "switch"
    case Target => "target"
    case This => "this"
    case Throw => "throw"
    case True => "true"
    case Try => "try"
    case Typeof => "typeof"
    case Var => "var"
    case Void => "void"
    case While => "while"
    case With => "with"
    case Yield => "yield"
  }

  /** `FromStr for Keyword`: the keyword whose text is `s`, if any. The
      table is split by text length first, which leaves the result
      unchanged because no two texts are equal. */
  function KeywordFromString(s: string): Option<Keyword> {
    match |s|
    case 2 => KeywordOfLength2(s)
    case 3 => KeywordOfLength3(s)
    case 4 => KeywordOfLength4(s)
    case 5 => KeywordOfLength5(s)
    case 6 => KeywordOfLength6(s)
    case 7 => KeywordOfLength7(s)
    case 8 => KeywordOfLength8(s)
    case 9 => KeywordOfLength9(s)
    case 10 => KeywordOfLength10(s)
    case _ => None
  }

  function KeywordOfLength2(s: string): Option<Keyword>
    requires |s| == 2
  {
    match s
    case "as" => Some(As)
    case "do" => Some(Do)
    case "if" => Some(If)
    case "in" => Some(In)
    case "of" => Some(Of)
    case _ => None
  }

  function KeywordOfLength3(s: string): Option<Keyword>
    requires |s| == 3
  {
    match s
    case "for" => Some(For)
    case "get" => Some(Get)
    case "let" => Some(Let)
    case "new" => Some(New)
    case "set" => Some(Set)
    case "try" => Some(Try)
    case "var" => Some(Var)
    case _ => None
  }

  function KeywordOfLength4(s: string): Option<Keyword>
    requires |s| == 4
  {
    match s
    case "case" => Some(Case)
    case "else" => Some(Else)
    case "enum" => Some(Enum)
    case "from" => Some(From)
    case "null" => Some(Null)
    case "this" => Some(This)
    case "true" => Some(True)
    case "void" => Some(Void)
    case "with" => Some(With)
    case _ => None
  }

  function KeywordOfLength5(s: string): Option<Keyword>
    requires |s| == 5
  {
    match s
    case "await" => Some(Await)
    case "async" => Some(Async)
    case "break" => Some(Break)
    case "catch" => Some(Catch)
    case "class" => Some(Class)
    case "const" => Some(Const)
    case "false" => Some(False)
    case "super" => Some(Super)
    case "throw" => Some(Throw)
    case "while" => Some(While)
    case "yield" => Some(Yield)
    case _ => None
  }

  function KeywordOfLength6(s: string): Option<Keyword>
    requires |s| == 6
  {
    match s
    case "delete" => Some(Delete)
    case "export" => Some(Export)
    case "import" => Some(Import)
    case "public" => Some(Public)
    case "return" => Some(Return)
    case "static" => Some(Static)
    case "switch" => Some(Switch)
    case "target" => Some(Target)
    case "typeof" => Some(Typeof)
    case _ => None
  }

  function KeywordOfLength7(s: string): Option<Keyword>
    requires |s| == 7
  {
    match s
    case "default" => Some(Default)
    case "extends" => Some(Extends)
    case "finally" => Some(Finally)
    case "package" => Some(Package)
    case "private" => Some(Private)
    case _ => None
  }

  function KeywordOfLength8(s: string): Option<Keyword>
    requires |s| == 8
  {
    match s
    case "continue" => Some(Continue)
    case "debugger" => Some(Debugger)
    case "function" => Some(Function)
    case _ => None
  }

  function KeywordOfLength9(s: string): Option<Keyword>
    requires |s| == 9
  {
    match s
    case "interface" => Some(Interface)
    case "protected" => Some(Protected)
    case _ => None
  }

  function KeywordOfLength10(s: string): Option<Keyword>
    requires |s| == 10
  {
    match s
    case "implements" => Some(Implements)
    case "instanceof" => Some(Instanceof)
    case _ => None
  }

  /** Parsing a keyword's text gives the keyword back, so no two keywords
      share a text. */
  lemma KeywordTextRoundTrip(k: Keyword)
    ensures KeywordFromString(KeywordText(k)) == Some(k)
  {
    if k in {Await, As, Async, Break, Case, Catch, Class, Const, Continue} {
      KeywordTextRoundTripPart1(k);
    } else if k in {Debugger, Default, Delete, Do, Else, Enum, Export, Extends, False} {
      KeywordTextRoundTripPart2(k);
    } else if k in {Finally, For, From, Function, Get, If, Implements, Import, In} {
      KeywordTextRoundTripPart3(k);
    } else if k in {Instanceof, Interface, Let, New, Null, Of, Package, Private, Protected} {
      KeywordTextRoundTripPart4(k);
    } else if k in {Public, Return, Set, Static, Super, Switch, Target, This, Throw} {
      KeywordTextRoundTripPart5(k);
    } else {
      KeywordTextRoundTripPart6(k);
    }
  }

  lemma KeywordTextRoundTripPart1(k: Keyword)
    requires k in {Await, As, Async, Break, Case, Catch, Class, Const, Continue}
    ensures KeywordFromString(KeywordText(k)) == Some(k)
  {
  }

  lemma KeywordTextRoundTripPart2(k: Keyword)
    requires k in {Debugger, Default, Delete, Do, Else, Enum, Export, Extends, False}
    ensures KeywordFromString(KeywordText(k)) == Some(k)
  {
  }

  lemma KeywordTextRoundTripPart3(k: Keyword)
    requires k in {Finally, For, From, Function, Get, If, Implements, Import, In}
    ensures KeywordFromString(KeywordText(k)) == Some(k)
  {
  }

  lemma KeywordTextRoundTripPart4(k: Keyword)
    requires k in {Instanceof, Interface, Let, New, Null, Of, Package, Private, Protected}
    ensures KeywordFromString(KeywordText(k)) == Some(k)
  {
  }

  lemma KeywordTextRoundTripPart5(k: Keyword)
    requires k in {Public, Return, Set, Static, Super, Switch, Target, This, Throw}
    ensures KeywordFromString(KeywordText(k)) == Some(k)
  {
  }

  lemma KeywordTextRoundTripPart6(k: Keyword)
    requires k in {True, Try, Typeof, Var, Void, While, With, Yield}
    ensures KeywordFromString(KeywordText(k)) == Some(k)
  {
  }

  /** Contextual words: never reserved. */
  predicate IsContextualWord(k: Keyword) {
    k in {As, Async, From, Get, Of, Set, Target}
  }

  /** Words reserved only in strict mode code. */
  predicate IsStrictModeReserved(k: Keyword) {
    k in {Implements, Interface, Let, Package, Private, Protected, Public, Static}
  }

  /** `Keyword::is_allows_as_identifier`. */
  predicate IsAllowedAsIdentifier(k: Keyword, ctx: KeywordContext) {
    match k
    case As | Async | From | Get | Of | Set | Target => true
    case Await => !Contains(ctx, AWAIT)
    case Yield => !Intersects(ctx, YIELD | STRICT)
    case Implements | Interface | Let | Package | Private | Protected | Public | Static =>
      !Contains(ctx, STRICT)
    case _ => false
  }

  /** The four acceptance rules, one per class of keyword, and nothing else
      is ever accepted. */
  lemma IdentifierAcceptanceRules(k: Keyword, ctx: KeywordContext)
    ensures IsContextualWord(k) ==> IsAllowedAsIdentifier(k, ctx)
    ensures k == Await ==> (IsAllowedAsIdentifier(k, ctx) <==> ctx & AWAIT == 0)
    ensures k == Yield ==> (IsAllowedAsIdentifier(k, ctx) <==> ctx & YIELD == 0 && ctx & STRICT == 0)
    ensures IsStrictModeReserved(k) ==> (IsAllowedAsIdentifier(k, ctx) <==> ctx & STRICT == 0)
    ensures !IsContextualWord(k) && !IsStrictModeReserved(k) && k != Await && k != Yield
            ==> !IsAllowedAsIdentifier(k, ctx)
  {
    FlagFacts(ctx);
    if IsContextualWord(k) {
      ContextualWordsAccepted(k, ctx);
    } else if IsStrictModeReserved(k) {
      StrictModeReservedRule(k, ctx);
    } else if k != Await && k != Yield {
      ReservedWordsRejected(k, ctx);
    }
  }

  lemma ContextualWordsAccepted(k: Keyword, ctx: KeywordContext)
    requires IsContextualWord(k)
    ensures IsAllowedAsIdentifier(k, ctx)
  {
  }

  lemma StrictModeReservedRule(k: Keyword, ctx: KeywordContext)
    requires IsStrictModeReserved(k)
    ensures IsAllowedAsIdentifier(k, ctx) <==> !Contains(ctx, STRICT)
  {
  }

  lemma ReservedWordsRejected(k: Keyword, ctx: KeywordContext)
    requires !IsContextualWord(k) && !IsStrictModeReserved(k) && k != Await && k != Yield
    ensures !IsAllowedAsIdentifier(k, ctx)
  {
  }

  /** The three flags are single bits: containing one is intersecting it,
      and intersecting two of them is intersecting either. */
  lemma FlagFacts(ctx: KeywordContext)
    ensures Contains(ctx, AWAIT) <==> ctx & AWAIT != 0
    ensures Contains(ctx, STRICT) <==> ctx & STRICT != 0
    ensures Intersects(ctx, YIELD | STRICT) <==> ctx & YIELD != 0 || ctx & STRICT != 0
  {
  }

  /** Setting more bits keeps every bit that was set. */
  lemma MoreFlags(ctx: KeywordContext, extra: KeywordContext)
    ensures ctx & AWAIT != 0 ==> (ctx | extra) & AWAIT != 0
    ensures ctx & YIELD != 0 ==> (ctx | extra) & YIELD != 0
    ensures ctx & STRICT != 0 ==> (ctx | extra) & STRICT != 0
  {
  }

  /** Adding flags to a context never turns a forbidden keyword into an
      accepted one. */
  lemma AcceptanceIsAntitone(k: Keyword, ctx: KeywordContext, extra: KeywordContext)
    ensures IsAllowedAsIdentifier(k, ctx | extra) ==> IsAllowedAsIdentifier(k, ctx)
  {
    FlagFacts(ctx);
    FlagFacts(ctx | extra);
    MoreFlags(ctx, extra);
  }

  /** Under the most restrictive context only the contextual words remain. */
  lemma StrictestContext(k: Keyword)
    ensures IsAllowedAsIdentifier(k, AWAIT | YIELD | STRICT) <==> IsContextualWord(k)
  {
  }

  /** Errors reported by the lexer. `lexer/src/error.rs` is not part of this
      model; the kinds are the ones the modelled files use. */
  datatype LexErrorKind =
    | EndOfFile
    | ForbiddenIdentifier(keyword: Keyword)
    | UnrecognizedCodePoint(codePoint: char)

  datatype LexError = LexError(kind: LexErrorKind, span: Span)

  /** `Error::of(kind)`: an error with no source range of its own. */
  function LexErrorOf(kind: LexErrorKind): LexError {
    LexError(kind, EmptySpan)
  }

  /** `Keyword::into_identifier_string`. */
  function IntoIdentifierString(k: Keyword, ctx: KeywordContext): (r: Result<string, LexError>)
    ensures r.Ok? <==> IsAllowedAsIdentifier(k, ctx)
    ensures r.Ok? ==> KeywordFromString(r.value) == Some(k)
    ensures r.Err? ==> r.error.kind == ForbiddenIdentifier(k)
  {
    if IsAllowedAsIdentifier(k, ctx) then Ok(KeywordText(k))
    else Err(LexErrorOf(ForbiddenIdentifier(k)))
  }

  /** The three unit tests of `into_identifier_string`. */
  lemma IntoIdentifierStringExamples()
    ensures IntoIdentifierString(Async, EMPTY) == Ok("async")
    ensures IntoIdentifierString(Yield, EMPTY) == Ok("yield")
    ensures IntoIdentifierString(Yield, YIELD) == Err(LexErrorOf(ForbiddenIdentifier(Yield)))
    ensures IntoIdentifierString(Function, EMPTY) == Err(LexErrorOf(ForbiddenIdentifier(Function)))
  {
  }

  datatype Punct =
    | ParenOpen | ParenClose | BraceOpen | BraceClose | BracketOpen | BracketClose
    | Dot | TripleDot | SemiColon | Comma | LessThan | DoubleLessThan | GreaterThan
    | DoubleGreaterThan | TripleGreaterThan | Equal | DoubleEqual | LessEqual
    | DoubleLessEqual | GreaterEqual | DoubleGreaterEqual | TripleGreaterEqual
    | EqualGreater | NotEqual | PlusEqual | MinusEqual | StarEqual | DoubleStarEqual
    | SlashEqual | PercentEqual | PipeEqual | CaretEqual | AmpersandEqual | TripleEqual
    | ExclamationDoubleEqual | Plus | DoublePlus | Minus | DoubleMinus | Star
    | DoubleStar | Slash | Percent | Ampersand | DoubleAmpersand | Pipe | DoublePipe
    | Caret | Exclamation | Tilde | QuestionMark | DoubleQuestionMark
    | QuestionMarkDot | Colon

  /** The text of a punctuator as given by its `#[from_string]` attribute.
      Note that `BraceOpen` is `[` and `BracketOpen` is `{`. */
  function PunctText(p: Punct): string {
    match p
    case ParenOpen => "("
    case ParenClose => ")"
    case BraceOpen => "["
    case BraceClose => "]"
    case BracketOpen => "{"
    case BracketClose => "}"
    case Dot => "."
    case TripleDot => "..."
    case SemiColon => ";"
    case Comma => ","
    case LessThan => "<"
    case DoubleLessThan => "<<"
    case GreaterThan => ">"
    case DoubleGreaterThan => ">>"
    case TripleGreaterThan => ">>>"
    case Equal => "="
    case DoubleEqual => "=="
    case LessEqual => "<="
    case DoubleLessEqual => "<<="
    case GreaterEqual => ">="
    case DoubleGreaterEqual => ">>="
    case TripleGreaterEqual => ">>>="
    case EqualGreater => "=>"
    case NotEqual => "!="
    case PlusEqual => "+="
    case MinusEqual => "-="
    case StarEqual => "*="
    case DoubleStarEqual => "**="
    case SlashEqual => "/="
    case PercentEqual => "%="
    case PipeEqual => "|="
    case CaretEqual => "^="
    case AmpersandEqual => "&="
    case TripleEqual => "==="
    case ExclamationDoubleEqual => "!=="
    case Plus => "+"
    case DoublePlus => "++"
    case Minus => "-"
    case DoubleMinus => "--"
    case Star => "*"
    case DoubleStar => "**"
    case Slash => "/"
    case Percent => "%"
    case Ampersand => "&"
    case DoubleAmpersand => "&&"
    case Pipe => "|"
    case DoublePipe => "||"
    case Caret => "^"
    case Exclamation => "!"
    case Tilde => "~"
    case QuestionMark => "?"
    case DoubleQuestionMark => "??"
    case QuestionMarkDot => "?."
    case Colon => ":"
  }

  /** `FromStr for Punct`: the punctuator whose text is `s`, if any. The
      table is split by text length first, which leaves the result
      unchanged because no two texts are equal. */
  function PunctFromString(s: string): Option<Punct> {
    match |s|
    case 1 => PunctOfLength1(s)
    case 2 => PunctOfLength2(s)
    case 3 => PunctOfLength3(s)
    case 4 => PunctOfLength4(s)
    case _ => None
  }

  function PunctOfLength1(s: string): Option<Punct>
    requires |s| == 1
  {
    match s
    case "(" => Some(ParenOpen)
    case ")" => Some(ParenClose)
    case "[" => Some(BraceOpen)
    case "]" => Some(BraceClose)
    case "{" => Some(BracketOpen)
    case "}" => Some(BracketClose)
    case "." => Some(Dot)
    case ";" => Some(SemiColon)
    case "," => Some(Comma)
    case "<" => Some(LessThan)
    case ">" => Some(GreaterThan)
    case "=" => Some(Equal)
    case "+" => Some(Plus)
    case "-" => Some(Minus)
    case "*" => Some(Star)
    case "/" => Some(Slash)
    case "%" => Some(Percent)
    case "&" => Some(Ampersand)
    case "|" => Some(Pipe)
    case "^" => Some(Caret)
    case "!" => Some(Exclamation)
    case "~" => Some(Tilde)
    case "?" => Some(QuestionMark)
    case ":" => Some(Colon)
    case _ => None
  }

  function PunctOfLength2(s: string): Option<Punct>
    requires |s| == 2
  {
    match s
    case "<<" => Some(DoubleLessThan)
    case ">>" => Some(DoubleGreaterThan)
    case "==" => Some(DoubleEqual)
    case "<=" => Some(LessEqual)
    case ">=" => Some(GreaterEqual)
    case "=>" => Some(EqualGreater)
    case "!=" => Some(NotEqual)
    case "+=" => Some(PlusEqual)
    case "-=" => Some(MinusEqual)
    case "*=" => Some(StarEqual)
    case "/=" => Some(SlashEqual)
    case "%=" => Some(PercentEqual)
    case "|=" => Some(PipeEqual)
    case "^=" => Some(CaretEqual)
    case "&=" => Some(AmpersandEqual)
    case "++" => Some(DoublePlus)
    case "--" => Some(DoubleMinus)
    case "**" => Some(DoubleStar)
    case "&&" => Some(DoubleAmpersand)
    case "||" => Some(DoublePipe)
    case "??" => Some(DoubleQuestionMark)
    case "?." => Some(QuestionMarkDot)
    case _ => None
  }

  function PunctOfLength3(s: string): Option<Punct>
    requires |s| == 3
  {
    match s
    case "..." => Some(TripleDot)
    case ">>>" => Some(TripleGreaterThan)
    case "<<=" => Some(DoubleLessEqual)
    case ">>=" => Some(DoubleGreaterEqual)
    case "**=" => Some(DoubleStarEqual)
    case "===" => Some(TripleEqual)
    case "!==" => Some(ExclamationDoubleEqual)
    case _ => None
  }

  function PunctOfLength4(s: string): Option<Punct>
    requires |s| == 4
  {
    match s
    case ">>>=" => Some(TripleGreaterEqual)
    case _ => None
  }

  /** Parsing a punctuator's text gives the punctuator back, so no two punctuators
      share a text. */
  lemma PunctTextRoundTrip(p: Punct)
    ensures PunctFromString(PunctText(p)) == Some(p)
  {
    if p in {ParenOpen, ParenClose, BraceOpen, BraceClose, BracketOpen,
          BracketClose, Dot, TripleDot, SemiColon} {
      PunctTextRoundTripPart1(p);
    } else if p in {Comma, LessThan, DoubleLessThan, GreaterThan, DoubleGreaterThan,
          TripleGreaterThan, Equal, DoubleEqual, LessEqual} {
      PunctTextRoundTripPart2(p);
    } else if p in {DoubleLessEqual, GreaterEqual, DoubleGreaterEqual, TripleGreaterEqual,
          EqualGreater, NotEqual, PlusEqual, MinusEqual, StarEqual} {
      PunctTextRoundTripPart3(p);
    } else if p in {DoubleStarEqual, SlashEqual, PercentEqual, PipeEqual, CaretEqual,
          AmpersandEqual, TripleEqual, ExclamationDoubleEqual, Plus} {
      PunctTextRoundTripPart4(p);
    } else if p in {DoublePlus, Minus, DoubleMinus, Star, DoubleStar, Slash, Percent,
          Ampersand, DoubleAmpersand} {
      PunctTextRoundTripPart5(p);
    } else {
      PunctTextRoundTripPart6(p);
    }
  }

  lemma PunctTextRoundTripPart1(p: Punct)
    requires p in {ParenOpen, ParenClose, BraceOpen, BraceClose, BracketOpen,
                BracketClose, Dot, TripleDot, SemiColon}
    ensures PunctFromString(PunctText(p)) == Some(p)
  {
  }

  lemma PunctTextRoundTripPart2(p: Punct)
    requires p in {Comma, LessThan, DoubleLessThan, GreaterThan, DoubleGreaterThan,
                TripleGreaterThan, Equal, DoubleEqual, LessEqual}
    ensures PunctFromString(PunctText(p)) == Some(p)
  {
  }

  lemma PunctTextRoundTripPart3(p: Punct)
    requires p in {DoubleLessEqual, GreaterEqual, DoubleGreaterEqual, TripleGreaterEqual,
                EqualGreater, NotEqual, PlusEqual, MinusEqual, StarEqual}
    ensures PunctFromString(PunctText(p)) == Some(p)
  {
  }

  lemma PunctTextRoundTripPart4(p: Punct)
    requires p in {DoubleStarEqual, SlashEqual, PercentEqual, PipeEqual, CaretEqual,
                AmpersandEqual, TripleEqual, ExclamationDoubleEqual, Plus}
    ensures PunctFromString(PunctText(p)) == Some(p)
  {
  }

  lemma PunctTextRoundTripPart5(p: Punct)
    requires p in {DoublePlus, Minus, DoubleMinus, Star, DoubleStar, Slash, Percent,
                Ampersand, DoubleAmpersand}
    ensures PunctFromString(PunctText(p)) == Some(p)
  {
  }

  lemma PunctTextRoundTripPart6(p: Punct)
    requires p in {Pipe, DoublePipe, Caret, Exclamation, Tilde, QuestionMark,
                DoubleQuestionMark, QuestionMarkDot, Colon}
    ensures PunctFromString(PunctText(p)) == Some(p)
  {
  }

  datatype Base = Binary | Decimal | Hex | Octal

  /** A numeric literal; the 64-bit float of `Decimal` is kept as its bit
      pattern and never interpreted. */
  datatype Number = Integer(value: i64, base: Base) | Float(bits: bv64)

  /** A string literal and the quote character that delimits it. */
  datatype LitString = LitString(value: string, delimiter: char)

  /** The value of a literal token. Regular-expression literals have no
      property-name form: a property name that is one is reported as an
      unexpected token. */
  datatype Literal =
    | NumberLiteral(number: Number)
    | StringLiteral(str: LitString)
    | RegexpLiteral(pattern: string)

  /** The value of a token. `TemplateHead` belongs to the revision that the
      cover grammar is written against. */
  datatype TokenValue =
    | KeywordValue(keyword: Keyword)
    | Identifier(name: string)
    | PunctValue(punct: Punct)
    | LiteralValue(literal: Literal)
    | TemplateHead(head: string)

  /** `Token::new(value, first_on_line, span)` is this constructor. */
  datatype Token = Token(value: TokenValue, firstOnLine: bool, span: Span)

  /** `PeekRead for IntoIter<Token>`: an iterator over a vector of tokens that
      reports each token together with its read position. */
  class TokenIter {
    var remaining: seq<Token>

    constructor (tokens: seq<Token>)
      ensures remaining == tokens
    {
      remaining := tokens;
    }

    /** Yields the next token with the end of its span as the read position,
        or `None` once the tokens are exhausted; it never fails. */
    method Next() returns (r: Result<Option<(nat, Token)>, LexError>)
      modifies this
      ensures r.Ok?
      ensures old(remaining) == [] ==> r.value == None && remaining == []
      ensures old(remaining) != [] ==>
                r.value == Some((old(remaining)[0].span.end, old(remaining)[0]))
                && remaining == old(remaining)[1..]
    {
      if remaining == [] {
        r := Ok(None);
      } else {
        var token := remaining[0];
        remaining := remaining[1..];
        r := Ok(Some((token.span.end, token)));
      }
    }
  }
}
