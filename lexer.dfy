/** The first character-level lexer: a `Reader` that walks the characters of
    the input keeping a line/column position, and a `Lexer` that turns them
    into keyword, identifier, assignment-operator and integer tokens. */
module Lexing {
  import opened Wrappers
  import Tokens

  // ---------------------------------------------------------------------
  // Character classes (the `CodePoint` trait)
  // ---------------------------------------------------------------------

  /** White space of ECMA-262 (2022) section 12.2: the table entries and the
      other Zs characters. */
  predicate IsEcmaWhitespace(c: char) {
    c == '\U{0009}' || c == '\U{000B}' || c == '\U{000C}' || c == '\U{0020}'
    || c == '\U{00A0}' || c == '\U{FEFF}'
    || c == '\U{1680}' || ('\U{2000}' <= c <= '\U{200A}')
    || c == '\U{202F}' || c == '\U{205F}' || c == '\U{3000}'
  }

  /** Line terminators of ECMA-262 (2022) section 12.3. */
  predicate IsEcmaLineTerminator(c: char) {
    c == '\U{000A}' || c == '\U{000D}' || c == '\U{2028}' || c == '\U{2029}'
  }

  predicate IsAsciiLetter(c: char) {
    ('A' <= c <= 'Z') || ('a' <= c <= 'z')
  }

  predicate IsAsciiDigit(c: char) {
    '0' <= c <= '9'
  }

  /** Characters that may start an identifier (ASCII letters, `_`, `$`). */
  predicate IsStartOfIdentifier(c: char)
    ensures IsStartOfIdentifier(c) ==> IsPartOfIdentifier(c)
  {
    IsAsciiLetter(c) || c == '_' || c == '$'
  }

  /** Characters that may continue an identifier: the start set and digits. */
  predicate IsPartOfIdentifier(c: char) {
    IsAsciiDigit(c) || IsAsciiLetter(c) || c == '_' || c == '$'
  }

  /** No character is both white space and a line terminator. */
  lemma WhitespaceAndLineTerminatorsDisjoint(c: char)
    ensures !(IsEcmaWhitespace(c) && IsEcmaLineTerminator(c))
  {
  }

  /** `char::is_alphanumeric` on ASCII characters. Non-ASCII characters never
      reach it in this model (see `NumberAt`). */
  predicate IsAsciiAlphanumeric(c: char) {
    IsAsciiDigit(c) || IsAsciiLetter(c)
  }

  /** Characters `skip_whitespaces` steps over: white space and `;`. */
  predicate IsSkipped(c: char) {
    IsEcmaWhitespace(c) || c == ';'
  }

  // ---------------------------------------------------------------------
  // Tokens of this lexer
  // ---------------------------------------------------------------------

  datatype Position = Position(line: nat, column: nat)

  datatype AssignOp =
    | None | Divide | Multiply | Modulus | Add | Subtract | BitwiseOr | BitwiseXOr | BitwiseAnd

  datatype TokenValue =
    | Keyword(keyword: Tokens.Keyword)
    | Identifier(name: string)
    | Assign(op: AssignOp)
    | Number(number: Tokens.Number)

  /** `Token::new(value, (start, end))`. */
  datatype Token = Token(value: TokenValue, start: Position, end: Position)

  /** The characters that form a compound assignment with a following `=`. */
  predicate IsCompoundOperator(c: char) {
    c == '/' || c == '*' || c == '%' || c == '+' || c == '-' || c == '|' || c == '^' || c == '&'
  }

  /** The operator each compound-assignment character denotes. */
  function CompoundOperator(c: char): (op: AssignOp)
    requires IsCompoundOperator(c)
    ensures op != AssignOp.None
  {
    match c
    case '/' => Divide
    case '*' => Multiply
    case '%' => Modulus
    case '+' => Add
    case '-' => Subtract
    case '|' => BitwiseOr
    case '^' => BitwiseXOr
    case '&' => BitwiseAnd
  }

  /** Distinct operator characters give distinct operators. */
  lemma CompoundOperatorInjective(c: char, d: char)
    requires IsCompoundOperator(c) && IsCompoundOperator(d)
    ensures CompoundOperator(c) == CompoundOperator(d) ==> c == d
  {
  }

  const EndOfFileError: Tokens.LexError := Tokens.LexErrorOf(Tokens.EndOfFile)

  // ---------------------------------------------------------------------
  // Specification of the scanner over the input and a character index
  // ---------------------------------------------------------------------

  /** Where `skip_whitespaces` stops when started at index `i`: the first
      index at or after `i` whose character is not skipped, or `None` when
      every remaining character is skipped (the reader then hits the end). */
  function SkipFrom(input: seq<char>, i: nat): (r: Option<nat>)
    requires i < |input|
    ensures r.Some? ==> i <= r.value < |input| && !IsSkipped(input[r.value])
                        && forall m :: i <= m < r.value ==> IsSkipped(input[m])
    ensures r.None? ==> forall m :: i <= m < |input| ==> IsSkipped(input[m])
    decreases |input| - i
  {
    if !IsSkipped(input[i]) then Some(i)
    else if i + 1 < |input| then SkipFrom(input, i + 1)
    else Option.None
  }

  /** The end of the run of identifier-part characters starting at `i`: the
      first index at or after `i` that is not one, or the end of the input. */
  function WordEnd(input: seq<char>, i: nat): (k: nat)
    requires i <= |input|
    ensures i <= k <= |input|
    ensures forall m :: i <= m < k ==> IsPartOfIdentifier(input[m])
    ensures k < |input| ==> !IsPartOfIdentifier(input[k])
    decreases |input| - i
  {
    if i < |input| && IsPartOfIdentifier(input[i]) then WordEnd(input, i + 1) else i
  }

  /** The end of the run of ASCII alphanumeric characters starting at `i`. */
  function AlphanumericEnd(input: seq<char>, i: nat): (k: nat)
    requires i <= |input|
    ensures i <= k <= |input|
    ensures forall m :: i <= m < k ==> IsAsciiAlphanumeric(input[m])
    ensures k < |input| ==> !IsAsciiAlphanumeric(input[k])
    decreases |input| - i
  {
    if i < |input| && IsAsciiAlphanumeric(input[i]) then AlphanumericEnd(input, i + 1) else i
  }

  predicate AllDigits(s: seq<char>) {
    forall m :: 0 <= m < |s| ==> IsAsciiDigit(s[m])
  }

  /** The value of a string of decimal digits. */
  function DecimalValue(s: seq<char>): nat
    requires AllDigits(s)
  {
    if s == [] then 0 else DecimalValue(s[..|s| - 1]) * 10 + (s[|s| - 1] as int - '0' as int)
  }

  /** The outcome of scanning one token from a character index. */
  datatype Scan =
    | Lexed(token: Token, next: nat)   // a token and the index of the reader afterwards
    | AtEnd                            // the reader reported EndOfFile
    | Unsupported                      // the code panics (unwrap or unimplemented!)

  function At(i: nat): Position {
    Position(0, i)
  }

  /** `read_number` started on the digit at `j`: the digit and the following
      alphanumeric characters, read as a decimal i64. The code unwraps both
      the reader's `next` and the i64 parse, so running into the end of the
      input, a non-digit in the run or a value beyond i64 is unsupported; so
      is a non-ASCII character ending the run, whose Unicode class this model
      does not know. */
  function NumberAt(input: seq<char>, j: nat): (s: Scan)
    requires j < |input| && IsAsciiDigit(input[j])
    ensures s.Lexed? || s.Unsupported?
    ensures s.Lexed? ==> j < s.next < |input| && s.token.start == At(j) && s.token.end == At(s.next)
    ensures s.Lexed? ==> s.next == AlphanumericEnd(input, j + 1) && AllDigits(input[j..s.next])
                         && input[s.next] as int < 128
                         && DecimalValue(input[j..s.next]) < 0x8000_0000_0000_0000
                         && s.token.value.Number? && s.token.value.number.Integer?
                         && s.token.value.number.value as int == DecimalValue(input[j..s.next])
                         && s.token.value.number.base == Tokens.Decimal
    ensures s.Unsupported? <==>
              var k := AlphanumericEnd(input, j + 1);
              k == |input| || input[k] as int >= 128 || !AllDigits(input[j..k])
              || DecimalValue(input[j..k]) >= 0x8000_0000_0000_0000
  {
    var k := AlphanumericEnd(input, j + 1);
    if k == |input| || input[k] as int >= 128 then Unsupported
    else if !AllDigits(input[j..k]) || DecimalValue(input[j..k]) >= 0x8000_0000_0000_0000 then Unsupported
    else
      var value := DecimalValue(input[j..k]) as Tokens.i64;
      Lexed(Token(Number(Tokens.Integer(value, Tokens.Decimal)), At(j), At(k)), k)
  }

  /** `read_identifier_or_keyword` started on the identifier-start character
      at `j`: the maximal run of identifier-part characters, a keyword if the
      word is a keyword's text and an identifier otherwise. Reaching the end
      of the input panics (unwrap). */
  function WordAt(input: seq<char>, j: nat): (s: Scan)
    requires j < |input| && IsStartOfIdentifier(input[j])
    ensures s.Lexed? || s.Unsupported?
    ensures s.Lexed? ==> j < s.next < |input| && s.token.start == At(j) && s.token.end == At(s.next)
    ensures s.Lexed? ==> (forall m :: j <= m < s.next ==> IsPartOfIdentifier(input[m]))
                         && !IsPartOfIdentifier(input[s.next])
    ensures s.Lexed? && Tokens.KeywordFromString(input[j..s.next]).Some? ==>
              s.token.value == Keyword(Tokens.KeywordFromString(input[j..s.next]).value)
    ensures s.Lexed? && Tokens.KeywordFromString(input[j..s.next]).None? ==>
              s.token.value == Identifier(input[j..s.next])
    ensures s.Unsupported? <==> forall m :: j < m < |input| ==> IsPartOfIdentifier(input[m])
  {
    var k := WordEnd(input, j + 1);
    if k == |input| then Unsupported
    else
      var word := input[j..k];
      var value := match Tokens.KeywordFromString(word)
        case Some(kw) => Keyword(kw)
        case None => Identifier(word);
      Lexed(Token(value, At(j), At(k)), k)
  }

  /** An assignment operator starts at `j`: `=` not followed by `=`, or an
      operator character followed by `=`. */
  predicate IsOperatorStart(input: seq<char>, j: nat)
    requires j < |input|
  {
    (input[j] == '=' && (j + 1 == |input| || input[j + 1] != '='))
    || (IsCompoundOperator(input[j]) && j + 1 < |input| && input[j + 1] == '=')
  }

  /** An assignment operator at `j` runs into the end of the input, where
      the reader then reports `EndOfFile`. */
  predicate IsAssignmentAtEnd(input: seq<char>, j: nat)
    requires j < |input|
  {
    (input[j] == '=' && j + 1 == |input|)
    || (IsCompoundOperator(input[j]) && j + 2 == |input| && input[j + 1] == '=')
  }

  /** `Lexer::next` started with the reader at index `i`: white space and
      `;` are skipped, then the character found decides the token. */
  function NextAt(input: seq<char>, i: nat): (s: Scan)
    requires i < |input|
    ensures s.Lexed? ==> i < s.next < |input| && i <= s.token.start.column
  {
    match SkipFrom(input, i)
    case None => AtEnd
    case Some(j) =>
      var c := input[j];
      var peek: Option<char> := if j + 1 < |input| then Some(input[j + 1]) else Option.None;
      if c == '=' && peek != Some('=') then
        if j + 1 < |input| then Lexed(Token(Assign(AssignOp.None), At(j), At(j + 1)), j + 1) else AtEnd
      else if IsCompoundOperator(c) && peek == Some('=') then
        if j + 2 < |input| then Lexed(Token(Assign(CompoundOperator(c)), At(j), At(j + 2)), j + 2) else AtEnd
      else if IsAsciiDigit(c) then NumberAt(input, j)
      else if IsStartOfIdentifier(c) then WordAt(input, j)
      else Unsupported
  }

  /** What `next` does with the first character `c` that is not skipped:
      `=` not followed by `=` is a one-column assignment, an operator
      character followed by `=` a two-column compound assignment, a digit
      starts a number and an identifier-start character a word; any other
      character panics, and the reader reports the end when the input ends
      right after an operator or holds nothing but skipped characters. */
  lemma NextAtCases(input: seq<char>, i: nat)
    requires i < |input|
    ensures var s := NextAt(input, i);
            s.AtEnd? <==> SkipFrom(input, i).None? || IsAssignmentAtEnd(input, SkipFrom(input, i).value)
    ensures SkipFrom(input, i).Some? ==>
              var j := SkipFrom(input, i).value;
              var s := NextAt(input, i);
              (input[j] == '=' && j + 1 < |input| && input[j + 1] != '=' ==>
                 s == Lexed(Token(Assign(AssignOp.None), At(j), At(j + 1)), j + 1))
              && (IsCompoundOperator(input[j]) && j + 2 < |input| && input[j + 1] == '=' ==>
                    s == Lexed(Token(Assign(CompoundOperator(input[j])), At(j), At(j + 2)), j + 2))
              && (IsAsciiDigit(input[j]) ==> s == NumberAt(input, j))
              && (IsStartOfIdentifier(input[j]) ==> s == WordAt(input, j))
              && (!IsOperatorStart(input, j) && !IsPartOfIdentifier(input[j]) ==> s.Unsupported?)
  {
  }

  /** The outcome of `read`: the tokens, or a panic on the way. */
  datatype LexOutcome = Tokens(tokens: seq<Token>) | Stuck

  /** `Lexer::read` from index `i`: tokens until the reader reports the end. */
  function LexFrom(input: seq<char>, i: nat): LexOutcome
    requires i < |input|
    decreases |input| - i
  {
    match NextAt(input, i)
    case AtEnd => Tokens([])
    case Unsupported => Stuck
    case Lexed(t, k) =>
      match LexFrom(input, k)
      case Tokens(ts) => Tokens([t] + ts)
      case Stuck => Stuck
  }

  /** One step of `LexFrom`: a lexed token comes first, followed by what
      is lexed after it; at the end nothing is left. */
  lemma LexFromUnfolds(input: seq<char>, i: nat)
    requires i < |input| && LexFrom(input, i).Tokens?
    ensures NextAt(input, i).AtEnd? || NextAt(input, i).Lexed?
    ensures NextAt(input, i).AtEnd? ==> LexFrom(input, i).tokens == []
    ensures NextAt(input, i).Lexed? ==>
              var k := NextAt(input, i).next;
              i < k < |input| && LexFrom(input, k).Tokens?
              && LexFrom(input, i).tokens == [NextAt(input, i).token] + LexFrom(input, k).tokens
  {
  }

  /** `read` returns the tokens in source order: each token starts at or
      after the end of the one before, and spans are never empty. */
  lemma {:induction false} LexFromOrdered(input: seq<char>, i: nat)
    requires i < |input| && LexFrom(input, i).Tokens?
    ensures var ts := LexFrom(input, i).tokens;
            (forall m :: 0 <= m < |ts| ==> i <= ts[m].start.column < ts[m].end.column <= |input|)
            && (forall m :: 0 < m < |ts| ==> ts[m - 1].end.column <= ts[m].start.column)
    decreases |input| - i
  {
    match NextAt(input, i)
    case AtEnd =>
    case Lexed(t, k) =>
      LexFromOrdered(input, k);
      NextTokenBounds(input, i);
  }

  /** The token `next` produces ends where the reader stops. */
  lemma NextTokenBounds(input: seq<char>, i: nat)
    requires i < |input| && NextAt(input, i).Lexed?
    ensures NextAt(input, i).token.start.column < NextAt(input, i).token.end.column == NextAt(input, i).next
  {
  }

  /** Two example inputs of the unit tests: `=` is one column wide and `*=`
      two. */
  lemma AssignmentExamples()
    ensures NextAt("a = 1;", 1) == Lexed(Token(Assign(AssignOp.None), At(2), At(3)), 3)
    ensures NextAt("a *= 1;", 1) == Lexed(Token(Assign(Multiply), At(2), At(4)), 4)
  {
    assert SkipFrom("a = 1;", 2) == Some(2);
    assert SkipFrom("a *= 1;", 2) == Some(2);
  }

  const ConstInput: string := "const variable = 1;"

  lemma ConstKeywordStep()
    ensures NextAt(ConstInput, 0) == Lexed(Token(Keyword(Tokens.Const), At(0), At(5)), 5)
  {
    ConstWord();
    ConstIsKeyword();
  }

  lemma ConstWord()
    ensures WordEnd(ConstInput, 1) == 5 && ConstInput[0..5] == "const"
  {
    assert WordEnd(ConstInput, 5) == 5;
    assert WordEnd(ConstInput, 3) == 5;
  }

  lemma ConstIsKeyword()
    ensures Tokens.KeywordFromString("const") == Option.Some(Tokens.Const)
  {
    assert |"const"| == 5;
  }

  lemma VariableStep()
    ensures NextAt(ConstInput, 5) == Lexed(Token(Identifier("variable"), At(6), At(14)), 14)
  {
    assert SkipFrom(ConstInput, 5) == Some(6);
    VariableWord();
    VariableIsNoKeyword();
  }

  lemma VariableWord()
    ensures WordEnd(ConstInput, 7) == 14 && ConstInput[6..14] == "variable"
  {
    assert WordEnd(ConstInput, 14) == 14;
    assert WordEnd(ConstInput, 12) == 14;
    assert WordEnd(ConstInput, 10) == 14;
    assert WordEnd(ConstInput, 8) == 14;
  }

  lemma VariableIsNoKeyword()
    ensures Tokens.KeywordFromString("variable") == Option.None
  {
    assert |"variable"| == 8;
  }

  lemma AssignStep()
    ensures NextAt(ConstInput, 14) == Lexed(Token(Assign(AssignOp.None), At(15), At(16)), 16)
  {
    assert SkipFrom(ConstInput, 14) == Some(15);
  }

  lemma NumberStep()
    ensures NextAt(ConstInput, 16) == Lexed(Token(Number(Tokens.Integer(1, Tokens.Decimal)), At(17), At(18)), 18)
    ensures LexFrom(ConstInput, 18) == Tokens([])
  {
    assert SkipFrom(ConstInput, 16) == Some(17);
    assert AlphanumericEnd(ConstInput, 18) == 18;
    assert ConstInput[17..18] == "1";
    assert DecimalValue("1") == 1;
    assert SkipFrom(ConstInput, 18) == Option.None;
  }

  /** The unit test `lex_assignment_const`: `=` is one column wide. */
  lemma LexAssignmentConst()
    ensures LexFrom(ConstInput, 0) == Tokens([
              Token(Keyword(Tokens.Const), At(0), At(5)),
              Token(Identifier("variable"), At(6), At(14)),
              Token(Assign(AssignOp.None), At(15), At(16)),
              Token(Number(Tokens.Integer(1, Tokens.Decimal)), At(17), At(18))])
  {
    VariableTail();
    ConstKeywordStep();
    LexFromStep(ConstInput, 0, Token(Keyword(Tokens.Const), At(0), At(5)), 5, [
      Token(Identifier("variable"), At(6), At(14)),
      Token(Assign(AssignOp.None), At(15), At(16)),
      Token(Number(Tokens.Integer(1, Tokens.Decimal)), At(17), At(18))]);
  }

  /** The last three tokens of `ConstInput`. */
  lemma VariableTail()
    ensures LexFrom(ConstInput, 5) == Tokens([Token(Identifier("variable"), At(6), At(14)),
                                              Token(Assign(AssignOp.None), At(15), At(16)),
                                              Token(Number(Tokens.Integer(1, Tokens.Decimal)), At(17), At(18))])
  {
    AssignmentTail();
    VariableStep();
    LexFromStep(ConstInput, 5, Token(Identifier("variable"), At(6), At(14)), 14, [
      Token(Assign(AssignOp.None), At(15), At(16)),
      Token(Number(Tokens.Integer(1, Tokens.Decimal)), At(17), At(18))]);
  }

  /** The last two tokens of `ConstInput`. */
  lemma AssignmentTail()
    ensures LexFrom(ConstInput, 14) == Tokens([Token(Assign(AssignOp.None), At(15), At(16)),
                                               Token(Number(Tokens.Integer(1, Tokens.Decimal)), At(17), At(18))])
  {
    var one := Token(Number(Tokens.Integer(1, Tokens.Decimal)), At(17), At(18));
    NumberStep();
    LexFromStep(ConstInput, 16, one, 18, []);
    AssignStep();
    LexFromStep(ConstInput, 14, Token(Assign(AssignOp.None), At(15), At(16)), 16, [one]);
  }

  /** One step of `LexFrom` with the token and the rest given. */
  lemma LexFromStep(input: seq<char>, i: nat, t: Token, k: nat, ts: seq<Token>)
    requires i < |input| && NextAt(input, i) == Lexed(t, k) && LexFrom(input, k) == Tokens(ts)
    ensures LexFrom(input, i) == Tokens([t] + ts)
  {
  }

  // ---------------------------------------------------------------------
  // The reader
  // ---------------------------------------------------------------------

  /** `Reader`: the current character (by index), a line and a column. The
      look-ahead character is `input[current + 1]` when there is one. */
  class Reader {
    const input: seq<char>
    var current: nat
    var line: nat
    var column: nat

    /** Only `next` moves the reader, and it advances the column together
        with the index and never touches the line. */
    ghost predicate Valid()
      reads this
    {
      current < |input| && line == 0 && column == current
    }

    constructor (input: seq<char>)
      requires input != []
      ensures Valid() && this.input == input && current == 0
    {
      this.input := input;
      current := 0;
      line := 0;
      column := 0;
    }

    /** `Reader::position`. */
    function CurrentPosition(): Position
      reads this
    {
      Position(line, column)
    }

    function Current(): char
      reads this
      requires Valid()
    {
      input[current]
    }

    function Peek(): Option<char>
      reads this
      requires Valid()
    {
      if current + 1 < |input| then Some(input[current + 1]) else Option.None
    }

    /** Moves to the next character and returns it, one column further on;
        fails with EndOfFile, changing nothing, when there is none. */
    method Next() returns (r: Result<char, Tokens.LexError>)
      requires Valid()
      modifies this
      ensures Valid()
      ensures old(current) + 1 < |input| ==>
                current == old(current) + 1 && column == old(column) + 1 && line == old(line)
                && r == Ok(input[current])
      ensures old(current) + 1 >= |input| ==>
                current == old(current) && column == old(column) && line == old(line)
                && r == Err(EndOfFileError)
    {
      if current + 1 < |input| {
        current := current + 1;
        column := column + 1;
        r := Ok(input[current]);
      } else {
        r := Err(EndOfFileError);
      }
    }
  }

  /** `Reader::new`: fails with EndOfFile on empty input, otherwise starts on
      the first character at line 0, column 0. */
  method NewReader(input: seq<char>) returns (r: Result<Reader, Tokens.LexError>)
    ensures input == [] <==> r.Err?
    ensures r.Err? ==> r.error == EndOfFileError
    ensures r.Ok? ==> fresh(r.value) && r.value.Valid() && r.value.input == input
                      && r.value.current == 0 && r.value.CurrentPosition() == Position(0, 0)
  {
    if input == [] {
      r := Err(EndOfFileError);
    } else {
      var reader := new Reader(input);
      r := Ok(reader);
    }
  }

  // ---------------------------------------------------------------------
  // The lexer
  // ---------------------------------------------------------------------

  class Lexer {
    const reader: Reader

    ghost predicate Valid()
      reads this, reader
    {
      reader.Valid()
    }

    constructor (reader: Reader)
      requires reader.Valid()
      ensures this.reader == reader
    {
      this.reader := reader;
    }

    /** Steps over white space and `;` and stops on the first other
        character; fails with EndOfFile when the input ends first. */
    method SkipWhitespaces() returns (r: Result<(), Tokens.LexError>)
      requires Valid()
      modifies reader
      ensures Valid()
      ensures r.Ok? <==> SkipFrom(reader.input, old(reader.current)).Some?
      ensures r.Ok? ==> reader.current == SkipFrom(reader.input, old(reader.current)).value
      ensures r.Err? ==> r.error == EndOfFileError
    {
      while IsEcmaWhitespace(reader.Current()) || reader.Current() == ';'
        invariant reader.Valid()
        invariant old(reader.current) <= reader.current
        invariant SkipFrom(reader.input, reader.current) == SkipFrom(reader.input, old(reader.current))
        decreases |reader.input| - reader.current
      {
        var n := reader.Next();
        if n.Err? {
          return Err(n.error);
        }
      }
      r := Ok(());
    }

    /** `read_number`: the digit under the reader and the alphanumeric
        characters after it, as a decimal integer. */
    method ReadNumber() returns (r: Result<TokenValue, Tokens.LexError>)
      requires Valid() && IsAsciiDigit(reader.Current())
      requires NumberAt(reader.input, reader.current).Lexed?
      modifies reader
      ensures Valid()
      ensures r == Ok(NumberAt(reader.input, old(reader.current)).token.value)
      ensures reader.current == NumberAt(reader.input, old(reader.current)).next
    {
      ghost var start := reader.current;
      ghost var k := AlphanumericEnd(reader.input, start + 1);
      var numStr := [reader.Current()];
      while true
        invariant reader.Valid() && start <= reader.current < k
        invariant numStr == reader.input[start..reader.current + 1]
        decreases k - reader.current
      {
        var c := reader.Next();
        if IsAsciiAlphanumeric(c.value) {
          numStr := numStr + [c.value];
        } else {
          break;
        }
      }
      var value := DecimalValue(numStr) as Tokens.i64;
      r := Ok(Number(Tokens.Integer(value, Tokens.Decimal)));
    }

    /** `read_identifier_or_keyword`: the maximal run of identifier-part
        characters from the reader, a keyword if the word is one. */
    method ReadIdentifierOrKeyword() returns (r: Result<TokenValue, Tokens.LexError>)
      requires Valid() && IsStartOfIdentifier(reader.Current())
      requires WordAt(reader.input, reader.current).Lexed?
      modifies reader
      ensures Valid()
      ensures r == Ok(WordAt(reader.input, old(reader.current)).token.value)
      ensures reader.current == WordAt(reader.input, old(reader.current)).next
    {
      ghost var start := reader.current;
      ghost var k := WordEnd(reader.input, start + 1);
      var word := [reader.Current()];
      while true
        invariant reader.Valid() && start <= reader.current < k
        invariant word == reader.input[start..reader.current + 1]
        decreases k - reader.current
      {
        var c := reader.Next();
        if IsPartOfIdentifier(c.value) {
          word := word + [c.value];
        } else {
          break;
        }
      }
      var value := match Tokens.KeywordFromString(word)
        case Some(keyword) => Keyword(keyword)
        case None => Identifier(word);
      r := Ok(value);
    }

    /** `Lexer::next`: one token, or EndOfFile once only white space is left
        (or the input ends inside an operator). */
    method Next() returns (r: Result<Token, Tokens.LexError>)
      requires Valid() && !NextAt(reader.input, reader.current).Unsupported?
      modifies reader
      ensures Valid()
      ensures NextAt(reader.input, old(reader.current)).Lexed? ==>
                r == Ok(NextAt(reader.input, old(reader.current)).token)
                && reader.current == NextAt(reader.input, old(reader.current)).next
      ensures NextAt(reader.input, old(reader.current)).AtEnd? ==> r == Err(EndOfFileError)
    {
      var skipped := SkipWhitespaces();
      if skipped.Err? {
        return Err(skipped.error);
      }
      var current := reader.Current();
      var start := reader.CurrentPosition();
      var value: TokenValue;
      if current == '=' && reader.Peek() != Some('=') {
        var n := reader.Next();
        if n.Err? {
          return Err(n.error);
        }
        value := Assign(AssignOp.None);
      } else if IsCompoundOperator(current) && reader.Peek() == Some('=') {
        // The first step cannot fail: the look-ahead is the `=`.
        var n := reader.Next();
        n := reader.Next();
        if n.Err? {
          return Err(n.error);
        }
        value := Assign(CompoundOperator(current));
      } else if IsAsciiDigit(current) {
        var v := ReadNumber();
        value := v.value;
      } else if IsStartOfIdentifier(current) {
        var v := ReadIdentifierOrKeyword();
        value := v.value;
      } else {
        assert false;
      }
      var end := reader.CurrentPosition();
      r := Ok(Token(value, start, end));
    }

    /** `Lexer::read`: every token up to the end of the input, in order. The
        only error `next` can raise is EndOfFile, so `read` always succeeds. */
    method Read() returns (r: Result<seq<Token>, Tokens.LexError>)
      requires Valid() && LexFrom(reader.input, reader.current).Tokens?
      modifies reader
      ensures r == Ok(LexFrom(reader.input, old(reader.current)).tokens)
    {
      ghost var all := LexFrom(reader.input, reader.current).tokens;
      var tokens: seq<Token> := [];
      while true
        invariant Valid() && LexFrom(reader.input, reader.current).Tokens?
        invariant tokens + LexFrom(reader.input, reader.current).tokens == all
        decreases |reader.input| - reader.current
      {
        ghost var before := reader.current;
        ghost var left := LexFrom(reader.input, before).tokens;
        LexFromUnfolds(reader.input, before);
        var t := Next();
        if t.Ok? {
          assert [t.value] + LexFrom(reader.input, reader.current).tokens == left;
          assert tokens + [t.value] + LexFrom(reader.input, reader.current).tokens == tokens + left;
          tokens := tokens + [t.value];
        } else {
          if t.error.kind != Tokens.EndOfFile {
            assert false;
          }
          assert tokens + [] == tokens;
          break;
        }
      }
      r := Ok(tokens);
    }
  }

  /** `Lexer::new`: a lexer over a fresh reader, failing on empty input. */
  method NewLexer(data: seq<char>) returns (r: Result<Lexer, Tokens.LexError>)
    ensures data == [] <==> r.Err?
    ensures r.Ok? ==> fresh(r.value) && r.value.Valid() && r.value.reader.input == data
                      && r.value.reader.current == 0
  {
    var reader :- NewReader(data);
    var lexer := new Lexer(reader);
    r := Ok(lexer);
  }
}
