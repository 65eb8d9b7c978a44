/** Literals of the abstract syntax tree and their construction from the
    literals the lexer of the same revision produces. */
module AstLiteral {
  import opened Wrappers
  import Tokens
  import Ast

  datatype Base = Binary | Decimal | Hex | Octal

  /** A numeric literal; the 64-bit float of `Number::Decimal` is kept as
      its bit pattern and passed through untouched. */
  datatype Number = Integer(value: Tokens.i64, base: Base) | Float(bits: bv64)

  /** Literals; the expression type `E` of array elements and spread
      properties is a parameter. */
  datatype Literal<E> =
    | Null
    | Boolean(boolean: bool)
    | StringLiteral(value: string, delimiter: char)
    | NumberLiteral(number: Number)
    | ArrayLiteral(elements: seq<ArrayElement<E>>)
    | ObjectLiteral(props: seq<PropertyDefinition<E>>)

  datatype ArrayElement<E> = Elision | Element(expr: E) | Spread(expr: E)

  datatype PropertyDefinition<E> = IdentRef(ident: Ast.Ident) | SpreadProperty(expr: E)

  /** The literal tokens of the lexer of this revision. */
  datatype LexerLiteral = LexerNumber(number: Tokens.Number) | LexerString(value: string, delimiter: char)

  /** The lexer base a tree base came from. */
  function BaseToLexer(b: Base): Tokens.Base {
    match b
    case Binary => Tokens.Binary
    case Decimal => Tokens.Decimal
    case Hex => Tokens.Hex
    case Octal => Tokens.Octal
  }

  /** `From<LexerBase> for Base`: every lexer base maps to the tree base
      that maps back to it. */
  function BaseFrom(b: Tokens.Base): (r: Base)
    ensures BaseToLexer(r) == b
  {
    match b
    case Binary => Binary
    case Decimal => Decimal
    case Hex => Hex
    case Octal => Octal
  }

  /** The base conversion is a bijection: it is injective, and every tree
      base is the image of its lexer counterpart. */
  lemma BaseFromBijective(a: Tokens.Base, b: Tokens.Base, t: Base)
    ensures BaseFrom(a) == BaseFrom(b) ==> a == b
    ensures BaseFrom(BaseToLexer(t)) == t
  {
    if BaseFrom(a) == BaseFrom(b) {
      assert a == BaseToLexer(BaseFrom(a));
    }
  }

  /** The lexer literal a tree literal came from, if it is a number or a
      string literal. */
  function LiteralToLexer<E>(l: Literal<E>): Option<LexerLiteral> {
    match l
    case NumberLiteral(Integer(v, b)) => Some(LexerNumber(Tokens.Integer(v, BaseToLexer(b))))
    case NumberLiteral(Float(bits)) => Some(LexerNumber(Tokens.Float(bits)))
    case StringLiteral(s, d) => Some(LexerString(s, d))
    case _ => None
  }

  /** `From<LexerLiteral> for Literal`: integers keep their value and base,
      floats their payload, strings their text and delimiter; nothing is
      lost, so the lexer literal can be read back. */
  function LiteralFrom<E>(l: LexerLiteral): (r: Literal<E>)
    ensures LiteralToLexer(r) == Some(l)
    ensures l.LexerNumber? ==> r.NumberLiteral?
    ensures l.LexerNumber? && l.number.Integer? ==>
              r.number.Integer? && r.number.value == l.number.value
              && BaseToLexer(r.number.base) == l.number.base
    ensures l.LexerNumber? && l.number.Float? ==> r.number == Float(l.number.bits)
    ensures l.LexerString? ==> r.StringLiteral? && r.value == l.value && r.delimiter == l.delimiter
  {
    match l
    case LexerNumber(Integer(v, b)) => NumberLiteral(Integer(v, BaseFrom(b)))
    case LexerNumber(Float(bits)) => NumberLiteral(Float(bits))
    case LexerString(s, d) => StringLiteral(s, d)
  }

  /** Distinct lexer literals give distinct tree literals. */
  lemma LiteralFromInjective<E>(a: LexerLiteral, b: LexerLiteral)
    ensures LiteralFrom<E>(a) == LiteralFrom<E>(b) ==> a == b
  {
    if LiteralFrom<E>(a) == LiteralFrom<E>(b) {
      assert Some(a) == LiteralToLexer(LiteralFrom<E>(a));
    }
  }
}
